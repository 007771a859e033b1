/**
 The subscription collection (src/models/UserSubscription.ts): one document
 per user, stored under the user id as its `_id`, with unique indexes on
 `userId`, `stripeCustomerId` and `stripeSubscriptionId`. The collection is
 a map from `_id` to document; the writes the webhook performs on it
 (`findOneAndUpdate` with `upsert`, `deleteMany` by customer) are functions
 from map to map, and a write that would break a unique index fails the way
 MongoDB's duplicate-key error does, leaving the collection as it was.
 */
module UserSubscriptions {
  import opened Common
  import opened JsDates

  /** A stored document, without its `_id` (the key it is stored under).
      `userId` is `None` when the document has no such field. There are no
      `createdAt`/`updatedAt` fields: the schema turns timestamps off. */
  datatype UserSubscription = UserSubscription(
    userId: Option<string>,
    stripeCustomerId: string,
    stripeSubscriptionId: string,
    stripePriceId: string,
    stripeCurrentPeriodEnd: TimeValue,
    stripeCancelAtPeriodEnd: bool)

  /** The collection, keyed by `_id`. */
  type Store = map<string, UserSubscription>

  /** Two documents that the unique indexes forbid side by side: they share
      a user id, a customer id or a subscription id. A missing `userId` is
      indexed as null, so two documents without one collide too. */
  predicate Collide(a: UserSubscription, b: UserSubscription)
  {
    a.userId == b.userId || a.stripeCustomerId == b.stripeCustomerId
      || a.stripeSubscriptionId == b.stripeSubscriptionId
  }

  /** The unique indexes hold: no two documents collide. */
  predicate UniqueIndexes(store: Store)
  {
    forall a, b :: a in store && b in store && a != b ==> !Collide(store[a], store[b])
  }

  /** Every document is stored under its own user id, the key the schema
      intends for `_id`. */
  predicate KeyedByUser(store: Store)
  {
    forall k :: k in store ==> store[k].userId == Some(k)
  }

  /** A collection as the schema means it to be. */
  predicate Valid(store: Store)
  {
    UniqueIndexes(store) && KeyedByUser(store)
  }

  /** A document handed to `create`/`save`: every field as supplied, `None`
      for a missing one. */
  datatype SubscriptionInput = SubscriptionInput(
    id: Option<string>,
    userId: Option<string>,
    stripeCustomerId: Option<string>,
    stripeSubscriptionId: Option<string>,
    stripePriceId: Option<string>,
    stripeCurrentPeriodEnd: Option<JsDate>,
    stripeCancelAtPeriodEnd: Option<bool>)

  /** The schema paths whose validation failed. */
  datatype ValidationError = ValidationError(paths: set<string>)

  /** A required string path fails validation when missing or empty. */
  function RequiredString(path: string, value: Option<string>): set<string>
  {
    if Truthy(value) then {} else {path}
  }

  /** The paths of `input` that fail schema validation: a required string
      that is missing or empty, or a period end that is missing or not a
      valid date. */
  function FailingPaths(input: SubscriptionInput): set<string>
  {
    RequiredString("_id", input.id) + RequiredString("userId", input.userId)
      + RequiredString("stripeCustomerId", input.stripeCustomerId)
      + RequiredString("stripeSubscriptionId", input.stripeSubscriptionId)
      + RequiredString("stripePriceId", input.stripePriceId)
      + (if input.stripeCurrentPeriodEnd.Some? && input.stripeCurrentPeriodEnd.value.ValidDate? then {}
         else {"stripeCurrentPeriodEnd"})
  }

  /** Document validation against the schema: every path but the cancel flag
      is required, and the cancel flag defaults to false. On success, the
      key and the document to store. */
  function Validate(input: SubscriptionInput): (r: Result<(string, UserSubscription), ValidationError>)
    ensures r.Ok? <==> (Truthy(input.id) && Truthy(input.userId) && Truthy(input.stripeCustomerId)
                        && Truthy(input.stripeSubscriptionId) && Truthy(input.stripePriceId)
                        && input.stripeCurrentPeriodEnd.Some? && input.stripeCurrentPeriodEnd.value.ValidDate?)
    ensures r.Ok? ==> (r.value.0 == input.id.value
                       && r.value.1.userId == input.userId
                       && Some(r.value.1.stripeCustomerId) == input.stripeCustomerId
                       && Some(r.value.1.stripeSubscriptionId) == input.stripeSubscriptionId
                       && Some(r.value.1.stripePriceId) == input.stripePriceId
                       && input.stripeCurrentPeriodEnd == Some(ValidDate(r.value.1.stripeCurrentPeriodEnd)))
    ensures r.Ok? ==> r.value.1.stripeCancelAtPeriodEnd == (input.stripeCancelAtPeriodEnd == Some(true))
    ensures r.Err? ==> ("_id" in r.error.paths <==> !Truthy(input.id))
    ensures r.Err? ==> ("userId" in r.error.paths <==> !Truthy(input.userId))
    ensures r.Err? ==> ("stripeCustomerId" in r.error.paths <==> !Truthy(input.stripeCustomerId))
    ensures r.Err? ==> ("stripeSubscriptionId" in r.error.paths <==> !Truthy(input.stripeSubscriptionId))
    ensures r.Err? ==> ("stripePriceId" in r.error.paths <==> !Truthy(input.stripePriceId))
    ensures r.Err? ==> ("stripeCurrentPeriodEnd" in r.error.paths
                        <==> !(input.stripeCurrentPeriodEnd.Some? && input.stripeCurrentPeriodEnd.value.ValidDate?))
  {
    var failing := FailingPaths(input);
    if failing != {} then Err(ValidationError(failing))
    else
      assert "stripeCurrentPeriodEnd" !in failing;
      Ok((input.id.value, UserSubscription(
        input.userId, input.stripeCustomerId.value, input.stripeSubscriptionId.value,
        input.stripePriceId.value, input.stripeCurrentPeriodEnd.value.time,
        match input.stripeCancelAtPeriodEnd case Some(b) => b case None => false)))
  }

  /** `findById(key)`. */
  function FindById(store: Store, key: string): (r: Option<UserSubscription>)
    ensures r.Some? <==> key in store
    ensures r.Some? ==> r.value == store[key]
  {
    if key in store then Some(store[key]) else None
  }

  /** The fields the webhook writes with `findOneAndUpdate`. */
  datatype SubscriptionFields = SubscriptionFields(
    stripeSubscriptionId: string,
    stripeCustomerId: string,
    stripePriceId: string,
    stripeCurrentPeriodEnd: TimeValue,
    stripeCancelAtPeriodEnd: bool)

  /** Why a write to the collection failed. */
  datatype StoreError = DuplicateKey

  /** Some document other than the one under `key` collides with `doc`. */
  predicate ClashesWithOthers(store: Store, key: string, doc: UserSubscription)
  {
    exists k :: k in store && k != key && Collide(store[k], doc)
  }

  /** `doc` with the written fields set and its `userId` kept. */
  function WithFields(userId: Option<string>, f: SubscriptionFields): UserSubscription
  {
    UserSubscription(userId, f.stripeCustomerId, f.stripeSubscriptionId, f.stripePriceId,
      f.stripeCurrentPeriodEnd, f.stripeCancelAtPeriodEnd)
  }

  /** `findOneAndUpdate({_id: key}, {_id: key, ...fields}, {upsert: true})`
      as the source writes it: an existing document gets the fields and keeps
      whatever `userId` it had; a new document is created with `_id` and the
      fields only, so it has no `userId`. */
  function UpsertAsWritten(store: Store, key: string, f: SubscriptionFields): (r: Result<Store, StoreError>)
    ensures r.Ok? ==> key in r.value && r.value[key] == WithFields(if key in store then store[key].userId else None, f)
    ensures r.Ok? ==> forall k :: k != key ==> (k in r.value <==> k in store) && (k in store ==> r.value[k] == store[k])
    ensures r.Ok? <==> !ClashesWithOthers(store, key, WithFields(if key in store then store[key].userId else None, f))
    ensures key !in store ==> (r.Ok? <==> !ClashesWithOthers(store, key, WithFields(None, f)))
  {
    var doc := WithFields(if key in store then store[key].userId else None, f);
    if ClashesWithOthers(store, key, doc) then Err(DuplicateKey) else Ok(store[key := doc])
  }

  /** The upsert with the `userId` field written as well, as the schema
      requires: the document under `key` ends up with user id `key`. */
  function Upsert(store: Store, key: string, f: SubscriptionFields): (r: Result<Store, StoreError>)
    ensures r.Ok? <==> !ClashesWithOthers(store, key, WithFields(Some(key), f))
    ensures r.Ok? ==> key in r.value && r.value[key] == WithFields(Some(key), f)
    ensures r.Ok? ==> forall k :: k != key ==> (k in r.value <==> k in store) && (k in store ==> r.value[k] == store[k])
  {
    var doc := WithFields(Some(key), f);
    if ClashesWithOthers(store, key, doc) then Err(DuplicateKey) else Ok(store[key := doc])
  }

  /** Which upsert the webhook performs: the one the route writes, or the
      one that also writes `userId`. */
  datatype UpsertVersion = AsWritten | WithUserId

  /** The `userId` the document under `key` has after an upsert. */
  function UpsertedUserId(version: UpsertVersion, store: Store, key: string): Option<string>
  {
    match version
    case WithUserId => Some(key)
    case AsWritten => if key in store then store[key].userId else None
  }

  /** The upsert of the given version. */
  function UpsertBy(version: UpsertVersion, store: Store, key: string, f: SubscriptionFields): (r: Result<Store, StoreError>)
    ensures r.Ok? <==> !ClashesWithOthers(store, key, WithFields(UpsertedUserId(version, store, key), f))
    ensures r.Ok? ==> key in r.value && r.value[key] == WithFields(UpsertedUserId(version, store, key), f)
    ensures r.Ok? ==> forall k :: k != key ==> (k in r.value <==> k in store) && (k in store ==> r.value[k] == store[k])
  {
    match version
    case AsWritten => UpsertAsWritten(store, key, f)
    case WithUserId => Upsert(store, key, f)
  }

  /** `deleteMany({stripeCustomerId: customer})`. */
  function DeleteByCustomer(store: Store, customer: string): (r: Store)
    ensures forall k :: k in r <==> k in store && store[k].stripeCustomerId != customer
    ensures forall k :: k in r ==> r[k] == store[k]
  {
    map k | k in store && store[k].stripeCustomerId != customer :: store[k]
  }

  /** A successful upsert keeps the collection valid. */
  lemma UpsertPreservesValid(store: Store, key: string, f: SubscriptionFields)
    requires Valid(store)
    requires Upsert(store, key, f).Ok?
    ensures Valid(Upsert(store, key, f).value)
  {
    var r := Upsert(store, key, f).value;
    forall a, b | a in r && b in r && a != b ensures !Collide(r[a], r[b]) {
      if a == key {
        assert !Collide(store[b], r[a]);
      } else if b == key {
        assert !Collide(store[a], r[b]);
      }
    }
  }

  /** Deleting by customer keeps the collection valid. */
  lemma DeletePreservesValid(store: Store, customer: string)
    requires Valid(store)
    ensures Valid(DeleteByCustomer(store, customer))
  {
  }

  /** Either upsert refuses what would break a unique index, so a
      successful one keeps the unique indexes. */
  lemma UpsertKeepsUniqueIndexes(version: UpsertVersion, store: Store, key: string, f: SubscriptionFields)
    requires UniqueIndexes(store)
    requires UpsertBy(version, store, key, f).Ok?
    ensures UniqueIndexes(UpsertBy(version, store, key, f).value)
  {
    var r := UpsertBy(version, store, key, f).value;
    forall a, b | a in r && b in r && a != b ensures !Collide(r[a], r[b]) {
      if a == key {
        assert !Collide(store[b], r[a]);
      } else if b == key {
        assert !Collide(store[a], r[b]);
      }
    }
  }

  /** The upsert as written breaks the keying: a document it creates has no
      `userId`, so the collection is no longer keyed by user id. */
  lemma AsWrittenUpsertLeavesNoUserId(store: Store, key: string, f: SubscriptionFields)
    requires key !in store
    requires UpsertAsWritten(store, key, f).Ok?
    ensures UpsertAsWritten(store, key, f).value[key].userId == None
    ensures !KeyedByUser(UpsertAsWritten(store, key, f).value)
  {
    var r := UpsertAsWritten(store, key, f).value;
    assert key in r && r[key].userId != Some(key);
  }

  /** Repeating a successful upsert of either version changes nothing more. */
  lemma UpsertIdempotent(version: UpsertVersion, store: Store, key: string, f: SubscriptionFields)
    requires UpsertBy(version, store, key, f).Ok?
    ensures UpsertBy(version, UpsertBy(version, store, key, f).value, key, f) == UpsertBy(version, store, key, f)
  {
    var r := UpsertBy(version, store, key, f).value;
    assert UpsertedUserId(version, r, key) == UpsertedUserId(version, store, key);
    assert r[key := WithFields(UpsertedUserId(version, store, key), f)] == r;
  }

  /** Repeating a delete by customer changes nothing more. */
  lemma DeleteIdempotent(store: Store, customer: string)
    ensures DeleteByCustomer(DeleteByCustomer(store, customer), customer) == DeleteByCustomer(store, customer)
  {
  }

  /** The upsert as written cannot serve a second user: after one user's
      document is created without a `userId`, another user's upsert collides
      with it on the null `userId` and fails, although the two share no
      customer or subscription. */
  lemma AsWrittenSecondSubscriberFails(first: string, second: string, f1: SubscriptionFields, f2: SubscriptionFields)
    requires first != second
    ensures UpsertAsWritten(map[], first, f1).Ok?
    ensures UpsertAsWritten(UpsertAsWritten(map[], first, f1).value, second, f2) == Err(DuplicateKey)
  {
    var s1 := UpsertAsWritten(map[], first, f1).value;
    assert Collide(s1[first], WithFields(None, f2));
  }

  /** With `userId` written, two users with different customers and
      subscriptions can both subscribe. */
  lemma CorrectedSecondSubscriberSucceeds(first: string, second: string, f1: SubscriptionFields, f2: SubscriptionFields)
    requires first != second
    requires f1.stripeCustomerId != f2.stripeCustomerId
    requires f1.stripeSubscriptionId != f2.stripeSubscriptionId
    ensures Upsert(map[], first, f1).Ok?
    ensures Upsert(Upsert(map[], first, f1).value, second, f2).Ok?
  {
    var s1 := Upsert(map[], first, f1).value;
    assert s1.Keys == {first};
  }
}
