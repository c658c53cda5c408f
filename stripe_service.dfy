/** The billing handlers (`services/stripe/index.ts`): webhook events about a
    subscription move the user's subscription row and plan between "free" and "pro",
    a cancellation marks the row to end with its period, and a checkout reuses the
    stored customer id or stores a new one.

    The payment provider is foreign: its subscription objects arrive as plain records,
    and what its calls return (a new customer, an error, whether a session could be
    created) is passed in. A thrown error is a `Failure` carrying its message. */
module StripeFlows {
  import opened Common
  import opened Tables
  import opened UserRepo
  import opened SubscriptionRepo
  import UserFlows

  /** A subscription object from the provider, reduced to the fields the handlers read.
      `startDate` and `endedAt` are whole seconds since the epoch; `endedAt` is null
      while the subscription has not ended. */
  datatype StripeSubscription = StripeSubscription(
    id: string,
    metadataUserId: Option<string>,
    status: SubscriptionStatus,
    priceId: string,
    customer: string,
    startDate: int,
    endedAt: Option<int>,
    cancelAtPeriodEnd: bool)

  const NO_USER_ID := "No user ID in subscription metadata"
  const UNKNOWN_SUBSCRIPTION := "Cannot find user for subscription"
  const NO_ACTIVE_SUBSCRIPTION := "No active subscription found"
  const USER_NOT_FOUND := "User not found"
  const PRO := "pro"
  const FREE := "free"

  /** `new Date(start_date * 1000)` in milliseconds. */
  function PeriodStartMs(s: StripeSubscription): int {
    s.startDate * 1000
  }

  /** `new Date(ended_at! * 1000)` in milliseconds: the non-null assertion only silences
      the type checker, and `null * 1000` is 0, so a subscription that has not ended
      gets the epoch as its period end. */
  function PeriodEndMs(s: StripeSubscription): (ms: int)
    ensures s.endedAt.None? ==> ms == 0
    ensures s.endedAt.Some? ==> ms == 1000 * s.endedAt.value
  {
    s.endedAt.GetOr(0) * 1000
  }

  /** What `handleSubscriptionCreated` writes for the user: plan "pro" and the
      provider's ids, status and period. */
  function CreatedData(userId: string, s: StripeSubscription): SubscriptionData {
    SubscriptionData(userId, s.status, PRO, Some(s.customer), Some(s.id), Some(s.priceId),
                     Some(PeriodStartMs(s)), Some(PeriodEndMs(s)), Some(s.cancelAtPeriodEnd))
  }

  /** What `handleSubscriptionUpdated` writes: status, period and cancellation flag. */
  function UpdatedPatch(s: StripeSubscription): SubscriptionPatch {
    SubscriptionPatch(Some(s.status), None, None, None, None, Some(PeriodStartMs(s)), Some(PeriodEndMs(s)), Some(s.cancelAtPeriodEnd))
  }

  /** The patch `{ cancelAtPeriodEnd: true }`. */
  function CancelPatch(): SubscriptionPatch {
    SubscriptionPatch(None, None, None, None, None, None, None, Some(true))
  }

  /** The statuses after which the user drops back to the free plan. */
  predicate EndsPlan(status: SubscriptionStatus) {
    status == Canceled || status == Unpaid
  }

  /** The checkout session requested from the provider. */
  datatype CheckoutSession = CheckoutSession(customer: string, price: string, successUrl: string, cancelUrl: string, userId: string)

  function SuccessUrl(returnUrl: string): string {
    returnUrl + "?success=true&session_id={CHECKOUT_SESSION_ID}"
  }

  function CancelUrl(returnUrl: string): string {
    returnUrl + "?canceled=true"
  }

  /** A subscription created from an event that has not ended shows no period end on
      the profile page (its stored end is the epoch), and one that ended after the
      epoch shows that end; either way the profile shows the "pro" plan with the
      event's status. */
  lemma {:induction false} CreatedSubscriptionOnProfile(rows: seq<Subscription>, userId: string, s: StripeSubscription, id: string, now: int)
    ensures var v := UserFlows.PlanOf(RowOf(Upserted(rows, CreatedData(userId, s), id, now), userId));
            v.planType == PRO && v.status == s.status && v.currentPeriodStart == Some(PeriodStartMs(s)) &&
            v.cancelAtPeriodEnd == s.cancelAtPeriodEnd &&
            (s.endedAt.None? ==> v.currentPeriodEnd.None?) &&
            (s.endedAt.Some? && s.endedAt.value > 0 ==> v.currentPeriodEnd == Some(1000 * s.endedAt.value))
  {
    UpsertedLookup(rows, CreatedData(userId, s), id, now);
  }

  /** After an update event for a subscription held by `owner`, the profile shows the
      event's status, period start and cancellation flag, keeps the plan it showed
      before, and shows the period end as for a created subscription. */
  lemma {:induction false} UpdatedSubscriptionOnProfile(rows: seq<Subscription>, owner: string, s: StripeSubscription, now: int)
    requires RowOf(rows, owner).Some?
    ensures var v := UserFlows.PlanOf(RowOf(PatchedRows(rows, owner, UpdatedPatch(s), now), owner));
            v.planType == UserFlows.PlanOf(RowOf(rows, owner)).planType && v.status == s.status &&
            v.currentPeriodStart == Some(PeriodStartMs(s)) && v.cancelAtPeriodEnd == s.cancelAtPeriodEnd &&
            (s.endedAt.None? ==> v.currentPeriodEnd.None?) &&
            (s.endedAt.Some? && s.endedAt.value > 0 ==> v.currentPeriodEnd == Some(1000 * s.endedAt.value))
  {
    PatchedRowsLookup(rows, owner, UpdatedPatch(s), now);
  }

  /** Putting the owner of an ended subscription back on the free plan changes that
      user's plan and nothing else of the user. */
  lemma EndedSubscriptionFreesPlan(users: seq<User>, owner: string)
    ensures var after := UpdateWhere(users, (u: User) => u.id == owner, (u: User) => ApplyProfile(u, PlanPatch(FREE)));
            FirstWhere(after, (u: User) => u.id == owner)
            == (match FirstWhere(users, (u: User) => u.id == owner) case None => None case Some(u) => Some(u.(plan := Some(FREE))))
  {
    FirstWhereAfterUpdate(users, (u: User) => u.id == owner, (u: User) => ApplyProfile(u, PlanPatch(FREE)));
  }

  class StripeService {
    const subscriptions: SubscriptionRepository
    const users: UserRepository

    constructor (subscriptions: SubscriptionRepository, users: UserRepository)
      ensures this.subscriptions == subscriptions && this.users == users
    {
      this.subscriptions := subscriptions;
      this.users := users;
    }

    /** `getStripeCustomerId(userId)`: the customer id stored on the user's row, or
        nothing when there is no row or its customer id is null or empty. */
    function GetStripeCustomerId(userId: string): (r: Option<string>)
      reads subscriptions.db`subscriptions
      ensures r.Some? <==> subscriptions.GetSubscriptionByUserId(userId).Some? &&
                           Truthy(subscriptions.GetSubscriptionByUserId(userId).value.stripeCustomerId)
      ensures r.Some? ==> r.value != "" && subscriptions.GetSubscriptionByUserId(userId).value.stripeCustomerId == r
    {
      var s := subscriptions.GetSubscriptionByUserId(userId);
      if s.Some? && Truthy(s.value.stripeCustomerId) then s.value.stripeCustomerId else None
    }

    /** `handleSubscriptionCreated(sub)` at time `now`, with `rowId` the id a new row
        would get: without a user id in the metadata it throws and writes nothing;
        otherwise the user's subscription row is upserted with plan "pro" and the
        event's status, ids and period, and the user's plan becomes "pro". */
    method HandleSubscriptionCreated(sub: StripeSubscription, rowId: string, now: int) returns (r: Result<bool, string>)
      modifies subscriptions.db`subscriptions, users.db`users
      ensures !Truthy(sub.metadataUserId) ==>
                r == Failure(NO_USER_ID) && subscriptions.db.subscriptions == old(subscriptions.db.subscriptions) &&
                users.db.users == old(users.db.users)
      ensures Truthy(sub.metadataUserId) ==>
                r == Success(true) &&
                subscriptions.db.subscriptions ==
                  Upserted(old(subscriptions.db.subscriptions), CreatedData(sub.metadataUserId.value, sub), rowId, now) &&
                users.db.users == UpdateWhere(old(users.db.users), (u: User) => u.id == sub.metadataUserId.value,
                                              (u: User) => ApplyProfile(u, PlanPatch(PRO)))
      ensures Truthy(sub.metadataUserId) ==>
                var row := subscriptions.GetSubscriptionByUserId(sub.metadataUserId.value);
                row.Some? && row.value.planType == PRO && row.value.status == sub.status &&
                row.value.stripeSubscriptionId == Some(sub.id) && row.value.stripeCustomerId == Some(sub.customer) &&
                row.value.currentPeriodStart == Some(PeriodStartMs(sub)) && row.value.currentPeriodEnd == Some(PeriodEndMs(sub))
      ensures Truthy(sub.metadataUserId) && old(users.GetUserById(sub.metadataUserId.value)).Some? ==>
                users.GetUserById(sub.metadataUserId.value).Some? &&
                users.GetUserById(sub.metadataUserId.value).value.plan == Some(PRO)
    {
      if !Truthy(sub.metadataUserId) {
        return Failure(NO_USER_ID);
      }
      var userId := sub.metadataUserId.value;
      var row := subscriptions.CreateOrUpdateSubscription(CreatedData(userId, sub), rowId, now);
      var updated := users.UpdateUserProfile(userId, PlanPatch(PRO));
      r := Success(true);
    }

    /** `handleSubscriptionUpdated(sub)` at time `now`. An event that names its user in
        the metadata is acknowledged without any write. Otherwise the user is found
        through the provider subscription id (unknown id: it throws, nothing written);
        that user's row takes the event's status, period and cancellation flag, and a
        "canceled" or "unpaid" status puts the user back on the "free" plan, while any
        other status leaves the plan as it was. */
    method HandleSubscriptionUpdated(sub: StripeSubscription, now: int) returns (r: Result<bool, string>)
      modifies subscriptions.db`subscriptions, users.db`users
      ensures Truthy(sub.metadataUserId) ==>
                r == Success(true) && subscriptions.db.subscriptions == old(subscriptions.db.subscriptions) &&
                users.db.users == old(users.db.users)
      ensures !Truthy(sub.metadataUserId) && old(subscriptions.GetSubscriptionByStripeId(sub.id)).None? ==>
                r == Failure(UNKNOWN_SUBSCRIPTION) && subscriptions.db.subscriptions == old(subscriptions.db.subscriptions) &&
                users.db.users == old(users.db.users)
      ensures !Truthy(sub.metadataUserId) && old(subscriptions.GetSubscriptionByStripeId(sub.id)).Some? ==>
                var owner := old(subscriptions.GetSubscriptionByStripeId(sub.id)).value.userId;
                r == Success(true) &&
                subscriptions.db.subscriptions == PatchedRows(old(subscriptions.db.subscriptions), owner, UpdatedPatch(sub), now) &&
                users.db.users == (if EndsPlan(sub.status)
                                   then UpdateWhere(old(users.db.users), (u: User) => u.id == owner,
                                                    (u: User) => ApplyProfile(u, PlanPatch(FREE)))
                                   else old(users.db.users))
      ensures !Truthy(sub.metadataUserId) && old(subscriptions.GetSubscriptionByStripeId(sub.id)).Some? ==>
                RowOf(old(subscriptions.db.subscriptions), old(subscriptions.GetSubscriptionByStripeId(sub.id)).value.userId).Some?
    {
      if Truthy(sub.metadataUserId) {
        return Success(true);
      }
      var existing := subscriptions.GetSubscriptionByStripeId(sub.id);
      if existing.None? {
        return Failure(UNKNOWN_SUBSCRIPTION);
      }
      var owner := existing.value.userId;
      ghost var users0 := users.db.users;
      var updated := subscriptions.UpdateSubscription(owner, UpdatedPatch(sub), now);
      ghost var subs1 := subscriptions.db.subscriptions;
      assert users.db.users == users0;
      if EndsPlan(sub.status) {
        var changed := users.UpdateUserProfile(owner, PlanPatch(FREE));
      }
      assert subscriptions.db.subscriptions == subs1;
      r := Success(true);
    }

    /** `cancelSubscription(userId)` at time `now`, with `providerError` what the
        provider's update call threw, if anything: a user without a stored provider
        subscription id gets "No active subscription found"; a provider error is passed
        on; in both cases nothing is written. Otherwise the user's row is marked to
        cancel at the end of its period and keeps everything else. */
    method CancelSubscription(userId: string, providerError: Option<string>, now: int) returns (r: Result<bool, string>)
      modifies subscriptions.db`subscriptions
      ensures var s := old(subscriptions.GetSubscriptionByUserId(userId));
              s.None? || !Truthy(s.value.stripeSubscriptionId) ==>
                r == Failure(NO_ACTIVE_SUBSCRIPTION) && subscriptions.db.subscriptions == old(subscriptions.db.subscriptions)
      ensures var s := old(subscriptions.GetSubscriptionByUserId(userId));
              s.Some? && Truthy(s.value.stripeSubscriptionId) && providerError.Some? ==>
                r == Failure(providerError.value) && subscriptions.db.subscriptions == old(subscriptions.db.subscriptions)
      ensures var s := old(subscriptions.GetSubscriptionByUserId(userId));
              s.Some? && Truthy(s.value.stripeSubscriptionId) && providerError.None? ==>
                r == Success(true) &&
                subscriptions.db.subscriptions == PatchedRows(old(subscriptions.db.subscriptions), userId, CancelPatch(), now) &&
                subscriptions.GetSubscriptionByUserId(userId) == Some(s.value.(cancelAtPeriodEnd := true, updatedAt := now))
    {
      var s := subscriptions.GetSubscriptionByUserId(userId);
      if s.None? || !Truthy(s.value.stripeSubscriptionId) {
        return Failure(NO_ACTIVE_SUBSCRIPTION);
      }
      if providerError.Some? {
        return Failure(providerError.value);
      }
      var updated := subscriptions.UpdateSubscription(userId, CancelPatch(), now);
      r := Success(true);
    }

    /** The customer-handling part of `createCheckoutSession(userId, planId, returnUrl)`
        at time `now`. An unknown user throws "User not found". A stored customer id
        is reused and nothing is written; otherwise the provider's new customer
        (`newCustomer`, or the error its creation threw) is stored on the user's row,
        `rowId` being the id a new row would get. The session is requested for that
        customer and plan; when its creation throws (`sessionCreated` false) the
        result is null. */
    method CreateCheckoutSession(userId: string, planId: string, returnUrl: string, newCustomer: Result<string, string>,
                                 rowId: string, sessionCreated: bool, now: int)
      returns (r: Result<Option<CheckoutSession>, string>)
      modifies subscriptions.db`subscriptions
      ensures users.GetUserById(userId).None? ==>
                r == Failure(USER_NOT_FOUND) && subscriptions.db.subscriptions == old(subscriptions.db.subscriptions)
      ensures users.GetUserById(userId).Some? && old(GetStripeCustomerId(userId)).Some? ==>
                subscriptions.db.subscriptions == old(subscriptions.db.subscriptions) &&
                r == Success(if sessionCreated
                             then Some(CheckoutSession(old(GetStripeCustomerId(userId)).value, planId, SuccessUrl(returnUrl),
                                                       CancelUrl(returnUrl), userId))
                             else None)
      ensures users.GetUserById(userId).Some? && old(GetStripeCustomerId(userId)).None? && newCustomer.Failure? ==>
                r == Failure(newCustomer.error) && subscriptions.db.subscriptions == old(subscriptions.db.subscriptions)
      ensures users.GetUserById(userId).Some? && old(GetStripeCustomerId(userId)).None? && newCustomer.Success? ==>
                subscriptions.GetSubscriptionByUserId(userId).Some? &&
                subscriptions.GetSubscriptionByUserId(userId).value.stripeCustomerId == Some(newCustomer.value) &&
                r == Success(if sessionCreated
                             then Some(CheckoutSession(newCustomer.value, planId, SuccessUrl(returnUrl), CancelUrl(returnUrl), userId))
                             else None)
      ensures users.GetUserById(userId).Some? && old(GetStripeCustomerId(userId)).None? && newCustomer.Success? ==>
                (old(subscriptions.GetSubscriptionByUserId(userId)).Some? ==>
                   subscriptions.db.subscriptions ==
                     PatchedRows(old(subscriptions.db.subscriptions), userId, CustomerPatch(newCustomer.value), now)) &&
                (old(subscriptions.GetSubscriptionByUserId(userId)).None? ==>
                   subscriptions.db.subscriptions ==
                     old(subscriptions.db.subscriptions) + [NewRow(rowId, FreeCustomer(userId, newCustomer.value), now)])
      ensures forall other :: other != userId ==>
                subscriptions.GetSubscriptionByUserId(other) == old(subscriptions.GetSubscriptionByUserId(other))
      ensures |subscriptions.db.subscriptions| <= |old(subscriptions.db.subscriptions)| + 1
    {
      if users.GetUserById(userId).None? {
        return Failure(USER_NOT_FOUND);
      }
      var customerId := GetStripeCustomerId(userId);
      var customer: string;
      if customerId.Some? {
        customer := customerId.value;
      } else {
        if newCustomer.Failure? {
          return Failure(newCustomer.error);
        }
        customer := newCustomer.value;
        var stored := subscriptions.UpdateStripeCustomerId(userId, customer, rowId, now);
      }
      if sessionCreated {
        r := Success(Some(CheckoutSession(customer, planId, SuccessUrl(returnUrl), CancelUrl(returnUrl), userId)));
      } else {
        r := Success(None);
      }
    }
  }

  /** Two checkouts in a row create the provider customer at most once: when the first
      stored a new, non-empty customer id, the second reuses it and writes nothing. */
  method CheckoutTwice(svc: StripeService, userId: string, planId: string, returnUrl: string,
                       c1: Result<string, string>, c2: Result<string, string>, id1: string, id2: string,
                       s1: bool, s2: bool, t1: int, t2: int)
    returns (first: Result<Option<CheckoutSession>, string>, second: Result<Option<CheckoutSession>, string>)
    requires c1.Success? ==> c1.value != ""
    modifies svc.subscriptions.db`subscriptions
    ensures first.Success? ==> second.Success?
    ensures first.Success? ==> |svc.subscriptions.db.subscriptions| <= |old(svc.subscriptions.db.subscriptions)| + 1
    ensures first.Success? && s1 && s2 ==> second == first
  {
    first := svc.CreateCheckoutSession(userId, planId, returnUrl, c1, id1, s1, t1);
    second := svc.CreateCheckoutSession(userId, planId, returnUrl, c2, id2, s2, t2);
  }
}
