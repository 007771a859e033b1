/**
 The Stripe webhook endpoint (src/app/api/stripe-webhook/route.ts) as a
 state machine over the subscription collection. Every handler takes the
 version of the upsert it performs: `AsWritten` is the route as written,
 `WithUserId` the route with `userId` added to the written document. A request carries the
 signature header and the event that signature verification yields (`None`
 when `constructEvent` throws); an event about a created or updated
 subscription carries the snapshot `stripe.subscriptions.retrieve` returns
 (`None` when it throws). Whether the database connection and the Clerk call
 succeed is passed in as `Services`. The handler answers with a status and a
 body, the new collection, and the user-metadata update it asks Clerk for.
 */
module StripeWebhook {
  import opened Common
  import opened JsDates
  import opened Templates
  import opened UserSubscriptions
  import opened SubscriptionLevels

  /** The parts of a Stripe subscription object the handlers read. */
  datatype StripeSubscription = StripeSubscription(
    id: string,
    customer: string,
    status: string,
    metadataUserId: string,
    itemPriceIds: seq<string>,
    currentPeriodEnd: int,
    cancelAtPeriodEnd: bool)

  /** The parts of a checkout session the handler reads. */
  datatype CheckoutSession = CheckoutSession(customer: Option<string>, metadataUserId: Option<string>)

  datatype Event =
    | CheckoutSessionCompleted(session: CheckoutSession)
    | SubscriptionCreated(subscriptionId: string, retrieved: Option<StripeSubscription>)
    | SubscriptionUpdated(subscriptionId: string, retrieved: Option<StripeSubscription>)
    | SubscriptionDeleted(subscription: StripeSubscription)
    | OtherEvent(eventType: string)

  datatype Request = Request(signature: Option<string>, verified: Option<Event>)

  /** Whether `connectDB` and Clerk's `updateUserMetadata` succeed. */
  datatype Services = Services(databaseUp: bool, clerkUp: bool)

  datatype Response = Response(status: int, body: string)

  const SignatureMissing := Response(400, "Signature is missing")
  const EventReceived := Response(200, "Event received")
  const InternalError := Response(500, "Internal server error")

  /** Clerk's `updateUserMetadata(userId, {privateMetadata: {stripeCustomerId}})`. */
  datatype MetadataUpdate = MetadataUpdate(userId: string, stripeCustomerId: Option<string>)

  /** What a handler threw. */
  datatype HandlerError =
    | MissingUserId
    | ClerkFailure
    | DatabaseUnavailable
    | RetrieveFailed
    | NoSubscriptionItems
    | InvalidPeriodEnd
    | StoreFailure(error: StoreError)

  /** The statuses for which the subscription is stored. */
  predicate Entitled(status: string)
  {
    status == "active" || status == "trialing" || status == "past_due"
  }

  /** `handleSessionCompleted`: asks Clerk to record the customer under the
      user id from the session metadata, and throws without one. */
  function HandleSessionCompleted(session: CheckoutSession, services: Services): (r: Result<MetadataUpdate, HandlerError>)
    ensures !Truthy(session.metadataUserId) ==> r == Err(MissingUserId)
    ensures Truthy(session.metadataUserId) && !services.clerkUp ==> r == Err(ClerkFailure)
    ensures r.Ok? ==> (services.clerkUp && Some(r.value.userId) == session.metadataUserId
                       && r.value.stripeCustomerId == session.customer)
  {
    if !Truthy(session.metadataUserId) then Err(MissingUserId)
    else if !services.clerkUp then Err(ClerkFailure)
    else Ok(MetadataUpdate(session.metadataUserId.value, session.customer))
  }

  /** The fields the upsert writes: the first item's price id, and the period
      end turned from seconds into a date (a cast error when out of range). */
  function FieldsOf(sub: StripeSubscription): (r: Result<SubscriptionFields, HandlerError>)
    ensures sub.itemPriceIds == [] ==> r == Err(NoSubscriptionItems)
    ensures r.Ok? ==> (r.value.stripePriceId == sub.itemPriceIds[0]
                       && r.value.stripeCurrentPeriodEnd == sub.currentPeriodEnd * 1000
                       && r.value.stripeSubscriptionId == sub.id && r.value.stripeCustomerId == sub.customer
                       && r.value.stripeCancelAtPeriodEnd == sub.cancelAtPeriodEnd)
    ensures sub.itemPriceIds != [] ==> (r.Ok? <==> NewDate(sub.currentPeriodEnd * 1000).ValidDate?)
  {
    if sub.itemPriceIds == [] then Err(NoSubscriptionItems)
    else match NewDate(sub.currentPeriodEnd * 1000)
      case InvalidDate => Err(InvalidPeriodEnd)
      case ValidDate(t) => Ok(SubscriptionFields(sub.id, sub.customer, sub.itemPriceIds[0], t, sub.cancelAtPeriodEnd))
  }

  /** `handleSubscriptionCreatedOrUpdated`: an entitled subscription is
      upserted under its metadata user id; any other status removes every
      document of its customer. */
  function HandleCreatedOrUpdated(version: UpsertVersion, store: Store, retrieved: Option<StripeSubscription>, services: Services)
    : (r: Result<Store, HandlerError>)
    ensures !services.databaseUp ==> r == Err(DatabaseUnavailable)
    ensures services.databaseUp && retrieved.None? ==> r == Err(RetrieveFailed)
    ensures services.databaseUp && retrieved.Some? && !Entitled(retrieved.value.status) ==>
      r == Ok(DeleteByCustomer(store, retrieved.value.customer))
    ensures services.databaseUp && retrieved.Some? && Entitled(retrieved.value.status) && FieldsOf(retrieved.value).Ok? ==>
      r == (match UpsertBy(version, store, retrieved.value.metadataUserId, FieldsOf(retrieved.value).value)
            case Ok(s) => Ok(s)
            case Err(e) => Err(StoreFailure(e)))
    ensures retrieved.Some? && FieldsOf(retrieved.value).Err? && Entitled(retrieved.value.status) ==> r.Err?
  {
    if !services.databaseUp then Err(DatabaseUnavailable)
    else match retrieved
      case None => Err(RetrieveFailed)
      case Some(sub) =>
        if Entitled(sub.status) then
          match FieldsOf(sub)
          case Err(e) => Err(e)
          case Ok(fields) =>
            match UpsertBy(version, store, sub.metadataUserId, fields)
            case Ok(s) => Ok(s)
            case Err(e) => Err(StoreFailure(e))
        else Ok(DeleteByCustomer(store, sub.customer))
  }

  /** `handleSubscriptionDeleted`: removes every document of the customer. */
  function HandleDeleted(store: Store, sub: StripeSubscription, services: Services): (r: Result<Store, HandlerError>)
    ensures services.databaseUp ==> r == Ok(DeleteByCustomer(store, sub.customer))
    ensures !services.databaseUp ==> r == Err(DatabaseUnavailable)
  {
    if services.databaseUp then Ok(DeleteByCustomer(store, sub.customer)) else Err(DatabaseUnavailable)
  }

  /** What one request does. */
  datatype Outcome = Outcome(response: Response, store: Store, update: Option<MetadataUpdate>)

  /** The switch over the verified event's type: each handled type fails
      exactly when its handler throws. */
  function Dispatch(version: UpsertVersion, store: Store, event: Event, services: Services)
    : (r: Result<(Store, Option<MetadataUpdate>), HandlerError>)
    ensures event.CheckoutSessionCompleted? ==>
      (r.Err? <==> HandleSessionCompleted(event.session, services).Err?)
      && (r.Ok? ==> r.value == (store, Some(HandleSessionCompleted(event.session, services).value)))
    ensures (event.SubscriptionCreated? || event.SubscriptionUpdated?) ==>
      (r.Err? <==> HandleCreatedOrUpdated(version, store, event.retrieved, services).Err?)
      && (r.Ok? ==> r.value == (HandleCreatedOrUpdated(version, store, event.retrieved, services).value, None))
    ensures event.SubscriptionDeleted? ==>
      (r.Err? <==> !services.databaseUp)
      && (r.Ok? ==> r.value == (DeleteByCustomer(store, event.subscription.customer), None))
    ensures event.OtherEvent? ==> r == Ok((store, None))
  {
    match event
    case CheckoutSessionCompleted(session) =>
      (match HandleSessionCompleted(session, services)
       case Ok(update) => Ok((store, Some(update)))
       case Err(e) => Err(e))
    case SubscriptionCreated(_, retrieved) =>
      (match HandleCreatedOrUpdated(version, store, retrieved, services)
       case Ok(s) => Ok((s, None))
       case Err(e) => Err(e))
    case SubscriptionUpdated(_, retrieved) =>
      (match HandleCreatedOrUpdated(version, store, retrieved, services)
       case Ok(s) => Ok((s, None))
       case Err(e) => Err(e))
    case SubscriptionDeleted(sub) =>
      (match HandleDeleted(store, sub, services)
       case Ok(s) => Ok((s, None))
       case Err(e) => Err(e))
    case OtherEvent(_) => Ok((store, None))
  }

  /** A verified request: the header is present and verification passed. */
  predicate Verified(req: Request)
  {
    Truthy(req.signature) && req.verified.Some?
  }

  /** `POST /api/stripe-webhook`: 400 without a signature; 500 when
      verification or a handler throws, with nothing written; 200 with the
      handler's effects otherwise. */
  function Post(version: UpsertVersion, store: Store, req: Request, services: Services): (out: Outcome)
    ensures !Truthy(req.signature) ==> out == Outcome(SignatureMissing, store, None)
    ensures Truthy(req.signature) && req.verified.None? ==> out == Outcome(InternalError, store, None)
    ensures Verified(req) ==> (out.response == InternalError <==> Dispatch(version, store, req.verified.value, services).Err?)
    ensures Verified(req) && Dispatch(version, store, req.verified.value, services).Ok? ==>
      var d := Dispatch(version, store, req.verified.value, services).value;
      out == Outcome(EventReceived, d.0, d.1)
    ensures out.response in {SignatureMissing, EventReceived, InternalError}
    ensures out.response != EventReceived ==> out.store == store && out.update.None?
  {
    if !Truthy(req.signature) then Outcome(SignatureMissing, store, None)
    else match req.verified
      case None => Outcome(InternalError, store, None)
      case Some(event) =>
        match Dispatch(version, store, event, services)
        case Ok((s, update)) => Outcome(EventReceived, s, update)
        case Err(_) => Outcome(InternalError, store, None)
  }

  /** Events of types the switch does not handle are acknowledged and change
      nothing. */
  lemma UnhandledEventAcknowledged(version: UpsertVersion, store: Store, req: Request, services: Services)
    requires Verified(req) && req.verified.value.OtherEvent?
    ensures Post(version, store, req, services) == Outcome(EventReceived, store, None)
  {
  }

  /** A completed checkout never touches the collection: it is acknowledged
      with a metadata update for its user, or fails without one. */
  lemma CheckoutLeavesStoreAlone(version: UpsertVersion, store: Store, req: Request, services: Services)
    requires Verified(req) && req.verified.value.CheckoutSessionCompleted?
    ensures Post(version, store, req, services).store == store
    ensures var session := req.verified.value.session;
      Post(version, store, req, services).response == EventReceived <==> Truthy(session.metadataUserId) && services.clerkUp
  {
  }

  /** An entitled snapshot whose upsert succeeds ends up stored under its
      user id, holding exactly the snapshot's fields (and, as written, no
      `userId` when the document is new); no other document changes. */
  lemma EntitledSnapshotStored(version: UpsertVersion, store: Store, req: Request, services: Services)
    requires Verified(req) && (req.verified.value.SubscriptionCreated? || req.verified.value.SubscriptionUpdated?)
    requires services.databaseUp
    requires req.verified.value.retrieved.Some?
    requires var sub := req.verified.value.retrieved.value;
      Entitled(sub.status) && FieldsOf(sub).Ok? && UpsertBy(version, store, sub.metadataUserId, FieldsOf(sub).value).Ok?
    ensures var sub := req.verified.value.retrieved.value;
      var out := Post(version, store, req, services);
      out.response == EventReceived
      && sub.metadataUserId in out.store
      && out.store[sub.metadataUserId] == UserSubscription(
           UpsertedUserId(version, store, sub.metadataUserId), sub.customer, sub.id, sub.itemPriceIds[0],
           sub.currentPeriodEnd * 1000, sub.cancelAtPeriodEnd)
      && forall k :: k != sub.metadataUserId ==> (k in out.store <==> k in store) && (k in store ==> out.store[k] == store[k])
  {
  }

  /** An entitled snapshot whose upsert collides is answered 500 and leaves
      the collection as it was. */
  lemma CollidingSnapshotRejected(version: UpsertVersion, store: Store, req: Request, services: Services)
    requires Verified(req) && (req.verified.value.SubscriptionCreated? || req.verified.value.SubscriptionUpdated?)
    requires services.databaseUp
    requires req.verified.value.retrieved.Some?
    requires var sub := req.verified.value.retrieved.value;
      Entitled(sub.status) && FieldsOf(sub).Ok? && UpsertBy(version, store, sub.metadataUserId, FieldsOf(sub).value).Err?
    ensures Post(version, store, req, services) == Outcome(InternalError, store, None)
  {
  }

  /** The route as written cannot serve a second subscriber: once one user's
      snapshot is stored, another user's first entitled snapshot is answered
      500 and nothing is stored, although the two share no customer and no
      subscription. With `userId` written, the second snapshot is stored. */
  lemma SecondSubscriberRejected(first: Request, second: Request, services: Services)
    requires Verified(first) && first.verified.value.SubscriptionCreated?
    requires Verified(second) && second.verified.value.SubscriptionCreated?
    requires services.databaseUp
    requires first.verified.value.retrieved.Some? && second.verified.value.retrieved.Some?
    requires var s1, s2 := first.verified.value.retrieved.value, second.verified.value.retrieved.value;
      Entitled(s1.status) && Entitled(s2.status) && FieldsOf(s1).Ok? && FieldsOf(s2).Ok?
      && s1.metadataUserId != s2.metadataUserId && s1.customer != s2.customer && s1.id != s2.id
    ensures var after := Post(AsWritten, map[], first, services);
      after.response == EventReceived && Post(AsWritten, after.store, second, services) == Outcome(InternalError, after.store, None)
    ensures var after := Post(WithUserId, map[], first, services);
      after.response == EventReceived && Post(WithUserId, after.store, second, services).response == EventReceived
  {
    var s1, s2 := first.verified.value.retrieved.value, second.verified.value.retrieved.value;
    var f1, f2 := FieldsOf(s1).value, FieldsOf(s2).value;
    AsWrittenSecondSubscriberFails(s1.metadataUserId, s2.metadataUserId, f1, f2);
    CorrectedSecondSubscriberSucceeds(s1.metadataUserId, s2.metadataUserId, f1, f2);
  }

  /** A snapshot in any other status, and a deletion event, remove exactly
      the documents of the subscription's customer. */
  lemma CustomerDocumentsRemoved(version: UpsertVersion, store: Store, req: Request, services: Services, sub: StripeSubscription)
    requires Verified(req) && services.databaseUp
    requires req.verified.value == SubscriptionDeleted(sub)
      || (req.verified.value.SubscriptionCreated? && req.verified.value.retrieved == Some(sub) && !Entitled(sub.status))
      || (req.verified.value.SubscriptionUpdated? && req.verified.value.retrieved == Some(sub) && !Entitled(sub.status))
    ensures var out := Post(version, store, req, services);
      out.response == EventReceived
      && (forall k :: k in out.store <==> k in store && store[k].stripeCustomerId != sub.customer)
      && (forall k :: k in out.store ==> out.store[k] == store[k])
  {
  }

  /** Every request, on either version, keeps the unique indexes. */
  lemma PostKeepsUniqueIndexes(version: UpsertVersion, store: Store, req: Request, services: Services)
    requires UniqueIndexes(store)
    ensures UniqueIndexes(Post(version, store, req, services).store)
  {
    if Verified(req) {
      match req.verified.value
      case SubscriptionCreated(_, retrieved) => HandlerKeepsUniqueIndexes(version, store, retrieved, services);
      case SubscriptionUpdated(_, retrieved) => HandlerKeepsUniqueIndexes(version, store, retrieved, services);
      case _ =>
    }
  }

  /** The created/updated handler, on either version, keeps the unique
      indexes. */
  lemma HandlerKeepsUniqueIndexes(version: UpsertVersion, store: Store, retrieved: Option<StripeSubscription>, services: Services)
    requires UniqueIndexes(store)
    ensures var r := HandleCreatedOrUpdated(version, store, retrieved, services);
      r.Ok? ==> UniqueIndexes(r.value)
  {
    if services.databaseUp && retrieved.Some? {
      var sub := retrieved.value;
      if Entitled(sub.status) && FieldsOf(sub).Ok? && UpsertBy(version, store, sub.metadataUserId, FieldsOf(sub).value).Ok? {
        UpsertKeepsUniqueIndexes(version, store, sub.metadataUserId, FieldsOf(sub).value);
      }
    }
  }

  /** The route as written breaks the keying the schema intends: the first
      snapshot stored for a user has no `userId`. */
  lemma AsWrittenPostLeavesNoUserId(store: Store, req: Request, services: Services)
    requires Verified(req) && (req.verified.value.SubscriptionCreated? || req.verified.value.SubscriptionUpdated?)
    requires services.databaseUp
    requires req.verified.value.retrieved.Some?
    requires var sub := req.verified.value.retrieved.value;
      Entitled(sub.status) && FieldsOf(sub).Ok? && sub.metadataUserId !in store
      && UpsertAsWritten(store, sub.metadataUserId, FieldsOf(sub).value).Ok?
    ensures var sub := req.verified.value.retrieved.value;
      var out := Post(AsWritten, store, req, services);
      out.response == EventReceived && out.store[sub.metadataUserId].userId == None && !KeyedByUser(out.store)
  {
    var sub := req.verified.value.retrieved.value;
    AsWrittenUpsertLeavesNoUserId(store, sub.metadataUserId, FieldsOf(sub).value);
  }

  /** With `userId` written, every request keeps the collection valid: the
      unique indexes hold and each document sits under its own user id. */
  lemma PostPreservesValid(store: Store, req: Request, services: Services)
    requires Valid(store)
    ensures Valid(Post(WithUserId, store, req, services).store)
  {
    if Verified(req) {
      match req.verified.value
      case SubscriptionCreated(_, retrieved) => HandlerPreservesValid(store, retrieved, services);
      case SubscriptionUpdated(_, retrieved) => HandlerPreservesValid(store, retrieved, services);
      case SubscriptionDeleted(sub) => DeletePreservesValid(store, sub.customer);
      case _ =>
    }
  }

  /** With `userId` written, the created/updated handler keeps the
      collection valid. */
  lemma HandlerPreservesValid(store: Store, retrieved: Option<StripeSubscription>, services: Services)
    requires Valid(store)
    ensures var r := HandleCreatedOrUpdated(WithUserId, store, retrieved, services);
      r.Ok? ==> Valid(r.value)
  {
    if services.databaseUp && retrieved.Some? {
      var sub := retrieved.value;
      if !Entitled(sub.status) {
        DeletePreservesValid(store, sub.customer);
      } else if FieldsOf(sub).Ok? && Upsert(store, sub.metadataUserId, FieldsOf(sub).value).Ok? {
        UpsertPreservesValid(store, sub.metadataUserId, FieldsOf(sub).value);
      }
    }
  }

  /** Stripe may deliver an event more than once: on either version,
      delivering it again gives the same answer and leaves the collection as
      the first delivery left it. */
  lemma RedeliveryIsHarmless(version: UpsertVersion, store: Store, req: Request, services: Services)
    ensures Post(version, Post(version, store, req, services).store, req, services) == Post(version, store, req, services)
  {
    if Verified(req) {
      match req.verified.value
      case SubscriptionCreated(_, retrieved) => HandlerIdempotent(version, store, retrieved, services);
      case SubscriptionUpdated(_, retrieved) => HandlerIdempotent(version, store, retrieved, services);
      case SubscriptionDeleted(sub) => DeleteIdempotent(store, sub.customer);
      case _ =>
    }
  }

  /** Running the created/updated handler on its own result changes nothing
      and succeeds or fails the same way. */
  lemma HandlerIdempotent(version: UpsertVersion, store: Store, retrieved: Option<StripeSubscription>, services: Services)
    ensures var first := HandleCreatedOrUpdated(version, store, retrieved, services);
      first.Ok? ==> HandleCreatedOrUpdated(version, first.value, retrieved, services) == first
  {
    if services.databaseUp && retrieved.Some? {
      var sub := retrieved.value;
      if !Entitled(sub.status) {
        DeleteIdempotent(store, sub.customer);
      } else if FieldsOf(sub).Ok? && UpsertBy(version, store, sub.metadataUserId, FieldsOf(sub).value).Ok? {
        UpsertIdempotent(version, store, sub.metadataUserId, FieldsOf(sub).value);
      }
    }
  }

  /** After an entitled snapshot with the pro price is stored, the user's
      level is pro for as long as its period lasts: the level is looked up
      by `_id`, which both versions write. */
  lemma StoredProSnapshotGrantsPro(version: UpsertVersion, store: Store, req: Request, services: Services, now: TimeValue,
                                   prices: PriceConfig)
    requires Verified(req) && (req.verified.value.SubscriptionCreated? || req.verified.value.SubscriptionUpdated?)
    requires services.databaseUp
    requires req.verified.value.retrieved.Some?
    requires var sub := req.verified.value.retrieved.value;
      Entitled(sub.status) && FieldsOf(sub).Ok? && UpsertBy(version, store, sub.metadataUserId, FieldsOf(sub).value).Ok?
      && sub.itemPriceIds[0] == prices.proMonthly && now <= sub.currentPeriodEnd * 1000
    ensures var sub := req.verified.value.retrieved.value;
      GetUserSubscriptionLevel(Post(version, store, req, services).store, sub.metadataUserId, now, prices) == Ok(LevelPro)
  {
    EntitledSnapshotStored(version, store, req, services);
  }

  /** After a deletion event for the customer of a user's document, the user
      is back to free. */
  lemma DeletionRevokesLevel(version: UpsertVersion, store: Store, req: Request, services: Services, userId: string,
                             now: TimeValue, prices: PriceConfig)
    requires Verified(req) && services.databaseUp && req.verified.value.SubscriptionDeleted?
    requires userId in store && store[userId].stripeCustomerId == req.verified.value.subscription.customer
    ensures GetUserSubscriptionLevel(Post(version, store, req, services).store, userId, now, prices) == Ok(LevelFree)
  {
    CustomerDocumentsRemoved(version, store, req, services, req.verified.value.subscription);
  }
}
