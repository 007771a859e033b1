/**
 The subscription level of a user (src/lib/subscription.ts): free without a
 current subscription document, otherwise the level its price id stands
 for, and an error for a price id the configuration does not know. The
 lookup `findById(userId)` becomes `UserSubscriptions.FindById` over the
 collection, the clock becomes the parameter `now` and the two configured
 price ids become a `PriceConfig`.
 */
module SubscriptionLevels {
  import opened Common
  import opened JsDates
  import opened Templates
  import opened UserSubscriptions

  /** `NEXT_PUBLIC_STRIPE_PRICE_ID_PRO_MONTHLY` and
      `NEXT_PUBLIC_STRIPE_PRICE_ID_PRO_PLUS_MONTHLY`. */
  datatype PriceConfig = PriceConfig(proMonthly: string, proPlusMonthly: string)

  /** The "Invalid subscription" error. */
  datatype LevelError = InvalidSubscription

  /** The document has expired: its period ended strictly before `now`. */
  predicate Expired(sub: UserSubscription, now: TimeValue)
  {
    sub.stripeCurrentPeriodEnd < now
  }

  /** `getUserSubscriptionLevel` on the document found for the user. */
  function LevelOf(sub: Option<UserSubscription>, now: TimeValue, prices: PriceConfig): (r: Result<SubscriptionLevel, LevelError>)
    ensures sub.None? ==> r == Ok(LevelFree)
    ensures sub.Some? && Expired(sub.value, now) ==> r == Ok(LevelFree)
    ensures sub.Some? && !Expired(sub.value, now) ==>
      (r == Ok(LevelPro) <==> sub.value.stripePriceId == prices.proMonthly)
    ensures sub.Some? && !Expired(sub.value, now) ==>
      (r == Ok(LevelProPlus) <==> sub.value.stripePriceId == prices.proPlusMonthly != prices.proMonthly)
    ensures r.Err? <==> (sub.Some? && !Expired(sub.value, now)
                         && sub.value.stripePriceId != prices.proMonthly
                         && sub.value.stripePriceId != prices.proPlusMonthly)
    ensures r != Ok(LevelFree) ==> sub.Some? && !Expired(sub.value, now)
  {
    if sub.None? || Expired(sub.value, now) then Ok(LevelFree)
    else if sub.value.stripePriceId == prices.proMonthly then Ok(LevelPro)
    else if sub.value.stripePriceId == prices.proPlusMonthly then Ok(LevelProPlus)
    else Err(InvalidSubscription)
  }

  /** `getUserSubscriptionLevel(userId)` against the collection. */
  function GetUserSubscriptionLevel(store: Store, userId: string, now: TimeValue, prices: PriceConfig): (r: Result<SubscriptionLevel, LevelError>)
    ensures userId !in store ==> r == Ok(LevelFree)
    ensures userId in store ==> r == LevelOf(Some(store[userId]), now, prices)
  {
    LevelOf(FindById(store, userId), now, prices)
  }

  /** The last millisecond of a period still counts: a document whose period
      ends exactly now grants its level. */
  lemma PeriodEndIsInclusive(sub: UserSubscription, prices: PriceConfig)
    ensures LevelOf(Some(sub), sub.stripeCurrentPeriodEnd, prices) != Ok(LevelFree)
  {
  }

  /** Expiry is monotone in time: once a document yields free, every later
      moment does too. */
  lemma FreeStaysFree(sub: Option<UserSubscription>, now: TimeValue, later: TimeValue, prices: PriceConfig)
    requires now <= later
    requires LevelOf(sub, now, prices) == Ok(LevelFree)
    ensures LevelOf(sub, later, prices) == Ok(LevelFree)
  {
  }

  /** When both configured price ids are equal, a current document with that
      price is pro, never pro_plus. */
  lemma ProCheckWins(sub: UserSubscription, now: TimeValue, price: string)
    requires !Expired(sub, now) && sub.stripePriceId == price
    ensures LevelOf(Some(sub), now, PriceConfig(price, price)) == Ok(LevelPro)
  {
  }
}
