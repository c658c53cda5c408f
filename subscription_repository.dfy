/** The subscriptions table (`modules/subscription/subscriptionRepository.ts`): one row
    per user, looked up by user id or by the payment provider's subscription id,
    upserted by user id and patched field by field. Every update stamps `updatedAt`;
    an insert takes the column defaults (status "active", plan "free", no cancellation
    at period end). Timestamps are milliseconds since the epoch. */
module SubscriptionRepo {
  import opened Common
  import opened Tables

  /** `SubscriptionData`: the user, status and plan are always given, the rest may be
      absent. */
  datatype SubscriptionData = SubscriptionData(
    userId: string,
    status: SubscriptionStatus,
    planType: string,
    stripeCustomerId: Option<string>,
    stripeSubscriptionId: Option<string>,
    stripePriceId: Option<string>,
    currentPeriodStart: Option<int>,
    currentPeriodEnd: Option<int>,
    cancelAtPeriodEnd: Option<bool>)

  /** `Partial<SubscriptionData>` without the user: the columns an update may set. */
  datatype SubscriptionPatch = SubscriptionPatch(
    status: Option<SubscriptionStatus>,
    planType: Option<string>,
    stripeCustomerId: Option<string>,
    stripeSubscriptionId: Option<string>,
    stripePriceId: Option<string>,
    currentPeriodStart: Option<int>,
    currentPeriodEnd: Option<int>,
    cancelAtPeriodEnd: Option<bool>)

  /** The columns `...data` sets when a whole `SubscriptionData` is written to an
      existing row (the user id it also sets is the one the row already has). */
  function PatchOf(d: SubscriptionData): SubscriptionPatch {
    SubscriptionPatch(Some(d.status), Some(d.planType), d.stripeCustomerId, d.stripeSubscriptionId,
                      d.stripePriceId, d.currentPeriodStart, d.currentPeriodEnd, d.cancelAtPeriodEnd)
  }

  /** A row after `set({...patch, updatedAt: now})`: each given column takes its new
      value, the others and the row's identity and creation time stay, and `updatedAt`
      becomes `now`. */
  function Patched(s: Subscription, p: SubscriptionPatch, now: int): (r: Subscription)
    ensures r.id == s.id && r.userId == s.userId && r.createdAt == s.createdAt && r.updatedAt == now
    ensures r.status == (if p.status.Some? then p.status.value else s.status)
    ensures r.planType == (if p.planType.Some? then p.planType.value else s.planType)
    ensures r.stripeCustomerId == (if p.stripeCustomerId.Some? then p.stripeCustomerId else s.stripeCustomerId)
    ensures r.stripeSubscriptionId == (if p.stripeSubscriptionId.Some? then p.stripeSubscriptionId else s.stripeSubscriptionId)
    ensures r.stripePriceId == (if p.stripePriceId.Some? then p.stripePriceId else s.stripePriceId)
    ensures r.currentPeriodStart == (if p.currentPeriodStart.Some? then p.currentPeriodStart else s.currentPeriodStart)
    ensures r.currentPeriodEnd == (if p.currentPeriodEnd.Some? then p.currentPeriodEnd else s.currentPeriodEnd)
    ensures r.cancelAtPeriodEnd == (if p.cancelAtPeriodEnd.Some? then p.cancelAtPeriodEnd.value else s.cancelAtPeriodEnd)
  {
    s.(status := p.status.GetOr(s.status),
       planType := p.planType.GetOr(s.planType),
       stripeCustomerId := p.stripeCustomerId.OrElse(s.stripeCustomerId),
       stripeSubscriptionId := p.stripeSubscriptionId.OrElse(s.stripeSubscriptionId),
       stripePriceId := p.stripePriceId.OrElse(s.stripePriceId),
       currentPeriodStart := p.currentPeriodStart.OrElse(s.currentPeriodStart),
       currentPeriodEnd := p.currentPeriodEnd.OrElse(s.currentPeriodEnd),
       cancelAtPeriodEnd := p.cancelAtPeriodEnd.GetOr(s.cancelAtPeriodEnd),
       updatedAt := now)
  }

  /** The row `insert(...).values({...data})` creates under the generated id `id`:
      the given columns, `cancelAtPeriodEnd` false when not given, both timestamps
      `now`. */
  function NewRow(id: string, d: SubscriptionData, now: int): (r: Subscription)
    ensures r.id == id && r.userId == d.userId && r.status == d.status && r.planType == d.planType
    ensures r.createdAt == now && r.updatedAt == now
    ensures r.cancelAtPeriodEnd == (d.cancelAtPeriodEnd == Some(true))
  {
    Subscription(id, d.userId, d.status, d.planType, d.stripeCustomerId, d.stripeSubscriptionId, d.stripePriceId,
                 d.currentPeriodStart, d.currentPeriodEnd, d.cancelAtPeriodEnd.GetOr(false), now, now)
  }

  /** The first row of a user. */
  function RowOf(rows: seq<Subscription>, userId: string): Option<Subscription> {
    FirstWhere(rows, (s: Subscription) => s.userId == userId)
  }

  /** The table after `updateSubscription(userId, patch)` at time `now`: every row of
      the user is patched. */
  function PatchedRows(rows: seq<Subscription>, userId: string, p: SubscriptionPatch, now: int): (r: seq<Subscription>)
    ensures |r| == |rows|
  {
    UpdateWhere(rows, (s: Subscription) => s.userId == userId, (s: Subscription) => Patched(s, p, now))
  }

  /** After `PatchedRows`, the user's row is the patched form of the row it had, and
      every other user's row is as it was. */
  lemma PatchedRowsLookup(rows: seq<Subscription>, userId: string, p: SubscriptionPatch, now: int)
    ensures RowOf(PatchedRows(rows, userId, p, now), userId) ==
            (match RowOf(rows, userId) case None => None case Some(s) => Some(Patched(s, p, now)))
    ensures forall other :: other != userId ==> RowOf(PatchedRows(rows, userId, p, now), other) == RowOf(rows, other)
  {
    FirstWhereAfterUpdate(rows, (s: Subscription) => s.userId == userId, (s: Subscription) => Patched(s, p, now));
    forall other | other != userId
      ensures RowOf(PatchedRows(rows, userId, p, now), other) == RowOf(rows, other)
    {
      FirstWhereOtherAfterUpdate(rows, (s: Subscription) => s.userId == userId, (s: Subscription) => Patched(s, p, now),
                                 (s: Subscription) => s.userId == other);
    }
  }

  /** The table after `createOrUpdateSubscription(data)`: the user's rows are
      overwritten with the data when the user has one, otherwise one row is added. */
  function Upserted(rows: seq<Subscription>, d: SubscriptionData, id: string, now: int): (r: seq<Subscription>)
    ensures |r| == |rows| + (if RowOf(rows, d.userId).None? then 1 else 0)
  {
    if RowOf(rows, d.userId).Some? then PatchedRows(rows, d.userId, PatchOf(d), now)
    else rows + [NewRow(id, d, now)]
  }

  /** The row the upsert returns: the updated existing row, or the new one. */
  function UpsertedRow(rows: seq<Subscription>, d: SubscriptionData, id: string, now: int): Subscription {
    match RowOf(rows, d.userId)
    case Some(s) => Patched(s, PatchOf(d), now)
    case None => NewRow(id, d, now)
  }

  /** After an upsert the user's row is the returned row, which carries the data's
      status and plan, and every other user's row is as it was. */
  lemma {:induction false} UpsertedLookup(rows: seq<Subscription>, d: SubscriptionData, id: string, now: int)
    ensures RowOf(Upserted(rows, d, id, now), d.userId) == Some(UpsertedRow(rows, d, id, now))
    ensures UpsertedRow(rows, d, id, now).status == d.status && UpsertedRow(rows, d, id, now).planType == d.planType
    ensures forall other :: other != d.userId ==> RowOf(Upserted(rows, d, id, now), other) == RowOf(rows, other)
  {
    if RowOf(rows, d.userId).Some? {
      PatchedRowsLookup(rows, d.userId, PatchOf(d), now);
    } else {
      var r := rows + [NewRow(id, d, now)];
      assert r[|rows|].userId == d.userId;
      forall other | other != d.userId
        ensures RowOf(r, other) == RowOf(rows, other)
      {
        assert forall k :: 0 <= k < |rows| ==> r[k] == rows[k];
      }
    }
  }

  /** Repeating an upsert for the same user adds no row: two upserts together add at
      most one, and exactly one only when the user had none. */
  lemma {:induction false} UpsertTwiceAddsAtMostOneRow(rows: seq<Subscription>, d1: SubscriptionData, d2: SubscriptionData,
                                                       id1: string, id2: string, t1: int, t2: int)
    requires d1.userId == d2.userId
    ensures |Upserted(Upserted(rows, d1, id1, t1), d2, id2, t2)| == |rows| + (if RowOf(rows, d1.userId).None? then 1 else 0)
  {
    UpsertedLookup(rows, d1, id1, t1);
  }

  class SubscriptionRepository {
    const db: Database

    constructor (db: Database)
      ensures this.db == db
    {
      this.db := db;
    }

    /** `getSubscriptionByUserId`: the first row of that user, or nothing. */
    function GetSubscriptionByUserId(userId: string): (r: Option<Subscription>)
      reads db`subscriptions
      ensures r.Some? ==> r.value in db.subscriptions && r.value.userId == userId
      ensures r.None? <==> forall i :: 0 <= i < |db.subscriptions| ==> db.subscriptions[i].userId != userId
    {
      RowOf(db.subscriptions, userId)
    }

    /** `getSubscriptionByStripeId`: the first row carrying that provider subscription
        id, or nothing. */
    function GetSubscriptionByStripeId(stripeSubscriptionId: string): (r: Option<Subscription>)
      reads db`subscriptions
      ensures r.Some? ==> r.value in db.subscriptions && r.value.stripeSubscriptionId == Some(stripeSubscriptionId)
      ensures r.None? <==> forall i :: 0 <= i < |db.subscriptions| ==> db.subscriptions[i].stripeSubscriptionId != Some(stripeSubscriptionId)
    {
      FirstWhere(db.subscriptions, (s: Subscription) => s.stripeSubscriptionId == Some(stripeSubscriptionId))
    }

    /** `createOrUpdateSubscription(data)` at time `now`, with `id` the id the table
        would generate for a new row: updates the user's row when there is one,
        otherwise inserts; a later lookup of the user sees the returned row. */
    method CreateOrUpdateSubscription(data: SubscriptionData, id: string, now: int) returns (row: Subscription)
      modifies db`subscriptions
      ensures db.subscriptions == Upserted(old(db.subscriptions), data, id, now)
      ensures row == UpsertedRow(old(db.subscriptions), data, id, now)
      ensures GetSubscriptionByUserId(data.userId) == Some(row)
      ensures |db.subscriptions| == |old(db.subscriptions)| + (if old(GetSubscriptionByUserId(data.userId)).None? then 1 else 0)
      ensures forall other :: other != data.userId ==> GetSubscriptionByUserId(other) == old(GetSubscriptionByUserId(other))
    {
      var existing := GetSubscriptionByUserId(data.userId);
      UpsertedLookup(db.subscriptions, data, id, now);
      if existing.Some? {
        row := Patched(existing.value, PatchOf(data), now);
        db.subscriptions := PatchedRows(db.subscriptions, data.userId, PatchOf(data), now);
      } else {
        row := NewRow(id, data, now);
        db.subscriptions := db.subscriptions + [row];
      }
    }

    /** `updateSubscription(userId, patch)` at time `now`: the given columns of the
        user's row change and `updatedAt` becomes `now`; the updated row is returned,
        nothing when the user has no row; other users' rows stay. */
    method UpdateSubscription(userId: string, patch: SubscriptionPatch, now: int) returns (updated: Option<Subscription>)
      modifies db`subscriptions
      ensures db.subscriptions == PatchedRows(old(db.subscriptions), userId, patch, now)
      ensures updated.None? <==> old(GetSubscriptionByUserId(userId)).None?
      ensures updated.Some? ==> updated.value == Patched(old(GetSubscriptionByUserId(userId)).value, patch, now)
      ensures GetSubscriptionByUserId(userId) == updated
      ensures forall other :: other != userId ==> GetSubscriptionByUserId(other) == old(GetSubscriptionByUserId(other))
    {
      PatchedRowsLookup(db.subscriptions, userId, patch, now);
      db.subscriptions := PatchedRows(db.subscriptions, userId, patch, now);
      updated := GetSubscriptionByUserId(userId);
    }

    /** `updateStripeCustomerId(userId, customerId)`: on an existing row only the
        customer id (and `updatedAt`) changes; without one a row with status "active"
        and plan "free" is inserted. Either way the user's row then carries the
        customer id. */
    method UpdateStripeCustomerId(userId: string, customerId: string, id: string, now: int) returns (row: Option<Subscription>)
      modifies db`subscriptions
      ensures old(GetSubscriptionByUserId(userId)).Some? ==>
                db.subscriptions == PatchedRows(old(db.subscriptions), userId, CustomerPatch(customerId), now) &&
                row == Some(old(GetSubscriptionByUserId(userId)).value.(stripeCustomerId := Some(customerId), updatedAt := now))
      ensures old(GetSubscriptionByUserId(userId)).None? ==>
                db.subscriptions == old(db.subscriptions) + [NewRow(id, FreeCustomer(userId, customerId), now)] &&
                row == Some(NewRow(id, FreeCustomer(userId, customerId), now))
      ensures row.Some? && GetSubscriptionByUserId(userId) == row && row.value.stripeCustomerId == Some(customerId)
      ensures forall other :: other != userId ==> GetSubscriptionByUserId(other) == old(GetSubscriptionByUserId(other))
      ensures |db.subscriptions| <= |old(db.subscriptions)| + 1
    {
      var existing := GetSubscriptionByUserId(userId);
      if existing.Some? {
        row := UpdateSubscription(userId, CustomerPatch(customerId), now);
      } else {
        var created := CreateOrUpdateSubscription(FreeCustomer(userId, customerId), id, now);
        row := Some(created);
      }
    }

    /** `getUserActiveSubscription`: the user's row when its status is "active" or
        "trialing", otherwise nothing. */
    function GetUserActiveSubscription(userId: string): (r: Option<Subscription>)
      reads db`subscriptions
      ensures r.Some? <==> GetSubscriptionByUserId(userId).Some? && GetSubscriptionByUserId(userId).value.status in {Active, Trialing}
      ensures r.Some? ==> r == GetSubscriptionByUserId(userId)
    {
      var s := GetSubscriptionByUserId(userId);
      if s.Some? && (s.value.status == Active || s.value.status == Trialing) then s else None
    }
  }

  /** The patch `{ stripeCustomerId }`. */
  function CustomerPatch(customerId: string): SubscriptionPatch {
    SubscriptionPatch(None, None, Some(customerId), None, None, None, None, None)
  }

  /** The data a first customer id is stored with: status "active", plan "free". */
  function FreeCustomer(userId: string, customerId: string): SubscriptionData {
    SubscriptionData(userId, Active, "free", Some(customerId), None, None, None, None, None)
  }
}
