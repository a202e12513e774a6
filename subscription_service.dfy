/**
 * The subscription lifecycle of the server
 * (server/src/services/subscription.service.ts): creating a free or paid
 * subscription, activating it after payment, cancelling, changing plan,
 * renewing, the expiry sweep and the statistics.
 *
 * The subscription collection is a sequence in the `SubscriptionStore`
 * class; Mongo's `findOne` returns the first matching record. Time is
 * integer milliseconds. The payment provider's answers (the transaction
 * reference, whether verification succeeded) are inputs, and calendar
 * arithmetic ("one month / one year later") is an abstract `Calendar`.
 */
module Subscriptions {
  import opened Common

  datatype Status = Active | Inactive | Cancelled

  datatype PaymentStatus = Paid | Pending | PaymentFailed

  datatype Plan = Plan(id: string, name: string, price: real, interval: string, features: seq<string>)

  datatype Subscription = Subscription(
    id: string,
    userId: string,
    planId: string,
    planName: string,
    planPrice: real,
    startDate: Option<int>,
    endDate: int,
    status: Status,
    paymentStatus: PaymentStatus,
    providerSubscriptionId: Option<string>,
    cancelledAt: Option<int>)

  /** `Date.setMonth(+1)` and `Date.setFullYear(+1)` as functions on instants. */
  datatype Calendar = Calendar(addMonth: int -> int, addYear: int -> int)

  const WeekMs: int := 7 * 24 * 60 * 60 * 1000

  datatype SubscriptionError =
    | PlanNotFound
    | AlreadyActive
    | PaymentInitFailed
    | NotFoundForPayment
    | VerificationFailed
    | SubscriptionNotFound
    | AlreadyCancelled
    | AlreadyOnPlan
    /** The active subscription's plan no longer exists: `populate` yields null and `null.toString()` throws. */
    | CurrentPlanMissing
    | PlanMissingOnRenew

  /** What `createSubscription` returns: the new record and whether a payment must follow. */
  datatype Created = Created(subscription: Subscription, requiresPayment: bool)

  // ---- Lookups (findById / findOne) ----

  function FindPlan(plans: seq<Plan>, planId: string): (r: Option<Plan>)
    ensures r.Some? ==> r.value in plans && r.value.id == planId
    ensures r.None? ==> forall p :: p in plans ==> p.id != planId
  {
    if plans == [] then None
    else if plans[0].id == planId then Some(plans[0])
    else FindPlan(plans[1..], planId)
  }

  /** The subscription counts as the user's active one: status active and end strictly after now. */
  predicate IsActiveAt(s: Subscription, now: int)
  {
    s.status == Active && s.endDate > now
  }

  /** `getUserActiveSubscription`: the first active record of the user. */
  function FindActive(subs: seq<Subscription>, userId: string, now: int): (r: Option<nat>)
    ensures r.Some? ==> r.value < |subs| && subs[r.value].userId == userId && IsActiveAt(subs[r.value], now)
    ensures r.Some? ==> forall j :: 0 <= j < r.value ==> !(subs[j].userId == userId && IsActiveAt(subs[j], now))
    ensures r.None? ==> forall j :: 0 <= j < |subs| ==> !(subs[j].userId == userId && IsActiveAt(subs[j], now))
  {
    if subs == [] then None
    else if subs[0].userId == userId && IsActiveAt(subs[0], now) then Some(0)
    else match FindActive(subs[1..], userId, now)
      case None => None
      case Some(k) => Some(k + 1)
  }

  /** A subscription with its `planId` populated; the plan is `None` when it no longer exists. */
  datatype Populated = Populated(subscription: Subscription, plan: Option<Plan>)

  /** `getUserActiveSubscription` with `.populate('planId')`. */
  function ActiveWithPlan(subs: seq<Subscription>, plans: seq<Plan>, userId: string, now: int): (r: Option<Populated>)
    ensures r.Some? <==> FindActive(subs, userId, now).Some?
    ensures r.Some? ==> (r.value.subscription == subs[FindActive(subs, userId, now).value]
                         && r.value.plan == FindPlan(plans, r.value.subscription.planId))
  {
    match FindActive(subs, userId, now)
    case None => None
    case Some(i) => Some(Populated(subs[i], FindPlan(plans, subs[i].planId)))
  }

  /** `findOne({_id, userId})`. */
  function FindOwned(subs: seq<Subscription>, id: string, userId: string): (r: Option<nat>)
    ensures r.Some? ==> r.value < |subs| && subs[r.value].id == id && subs[r.value].userId == userId
    ensures r.None? ==> forall j :: 0 <= j < |subs| ==> !(subs[j].id == id && subs[j].userId == userId)
  {
    if subs == [] then None
    else if subs[0].id == id && subs[0].userId == userId then Some(0)
    else match FindOwned(subs[1..], id, userId)
      case None => None
      case Some(k) => Some(k + 1)
  }

  /** `findOne({providerSubscriptionId: reference, paymentStatus: 'pending'})`. */
  function FindPendingPayment(subs: seq<Subscription>, reference: string): (r: Option<nat>)
    ensures r.Some? ==> (r.value < |subs| && subs[r.value].providerSubscriptionId == Some(reference)
                         && subs[r.value].paymentStatus == Pending)
    ensures r.None? ==> forall j :: 0 <= j < |subs| ==>
      !(subs[j].providerSubscriptionId == Some(reference) && subs[j].paymentStatus == Pending)
  {
    if subs == [] then None
    else if subs[0].providerSubscriptionId == Some(reference) && subs[0].paymentStatus == Pending then Some(0)
    else match FindPendingPayment(subs[1..], reference)
      case None => None
      case Some(k) => Some(k + 1)
  }

  /** Record ids are unique, as Mongo's `_id` is. */
  predicate UniqueIds(subs: seq<Subscription>)
  {
    forall i, j :: 0 <= i < j < |subs| ==> subs[i].id != subs[j].id
  }

  // ---- calculateEndDate ----

  function CalculateEndDate(interval: string, now: int, cal: Calendar): int
  {
    if interval == "monthly" then cal.addMonth(now)
    else if interval == "weekly" then now + WeekMs
    else if interval == "yearly" then cal.addYear(now)
    else now
  }

  /** An unrecognised interval ends "now", so a subscription created with it is never active. */
  lemma UnknownIntervalNeverActive(interval: string, now: int, later: int, cal: Calendar, s: Subscription)
    requires interval != "monthly" && interval != "weekly" && interval != "yearly"
    requires s.endDate == CalculateEndDate(interval, now, cal) && now <= later
    ensures !IsActiveAt(s, later)
  {
  }

  /** A weekly subscription created at `now` is still active just before the week is over and not after. */
  lemma WeeklyLastsOneWeek(now: int, cal: Calendar, s: Subscription)
    requires s.endDate == CalculateEndDate("weekly", now, cal) && s.status == Active
    ensures IsActiveAt(s, now + WeekMs - 1) && !IsActiveAt(s, now + WeekMs)
  {
  }

  // ---- createSubscription ----

  function NewSubscription(newId: string, userId: string, plan: Plan, now: int, cal: Calendar, reference: Option<string>): Subscription
  {
    Subscription(newId, userId, plan.id, plan.name, plan.price, None,
                 CalculateEndDate(plan.interval, now, cal),
                 if reference.None? then Active else Inactive,
                 if reference.None? then Paid else Pending,
                 reference, None)
  }

  /**
   * The outcome of `createSubscription` and the collection afterwards.
   * `initReference` is the provider's transaction reference, `None` when
   * initialising the transaction threw.
   */
  function CreateOutcome(subs: seq<Subscription>, plans: seq<Plan>, userId: string, planId: string,
                         now: int, cal: Calendar, newId: string, initReference: Option<string>)
    : (Result<Created, SubscriptionError>, seq<Subscription>)
  {
    match FindPlan(plans, planId)
    case None => (Err(PlanNotFound), subs)
    case Some(plan) =>
      if FindActive(subs, userId, now).Some? then (Err(AlreadyActive), subs)
      else if plan.price == 0.0 then
        var s := NewSubscription(newId, userId, plan, now, cal, None);
        (Ok(Created(s, false)), subs + [s])
      else match initReference
        case None => (Err(PaymentInitFailed), subs)
        case Some(reference) =>
          var s := NewSubscription(newId, userId, plan, now, cal, Some(reference));
          (Ok(Created(s, true)), subs + [s])
  }

  /** `activateSubscription`; `verified` is `verification.status && verification.data.status === 'success'`. */
  function ActivateOutcome(subs: seq<Subscription>, reference: string, verified: bool, now: int)
    : (Result<Subscription, SubscriptionError>, seq<Subscription>)
  {
    if !verified then (Err(VerificationFailed), subs)
    else match FindPendingPayment(subs, reference)
      case None => (Err(NotFoundForPayment), subs)
      case Some(i) =>
        var s := subs[i].(status := Active, paymentStatus := Paid, startDate := Some(now));
        (Ok(s), subs[i := s])
  }

  /** Whether `cancelSubscription` calls the provider: a provider id is set and the plan is priced. */
  predicate CallsProviderCancel(s: Subscription)
  {
    s.providerSubscriptionId.Some? && s.providerSubscriptionId.value != "" && s.planPrice > 0.0
  }

  /** `cancelSubscription`; a failed provider-side cancel is swallowed, so it plays no part. */
  function CancelOutcome(subs: seq<Subscription>, id: string, userId: string, now: int)
    : (Result<Subscription, SubscriptionError>, seq<Subscription>)
  {
    match FindOwned(subs, id, userId)
    case None => (Err(SubscriptionNotFound), subs)
    case Some(i) =>
      if subs[i].status == Cancelled then (Err(AlreadyCancelled), subs)
      else
        var s := subs[i].(status := Cancelled, cancelledAt := Some(now));
        (Ok(s), subs[i := s])
  }

  /** Cancel the subscription at `i`, then create one for the new plan. */
  function CancelThenCreate(subs: seq<Subscription>, plans: seq<Plan>, i: nat, userId: string, newPlanId: string,
                            now: int, cal: Calendar, newId: string, initReference: Option<string>)
    : (Result<Created, SubscriptionError>, seq<Subscription>)
    requires i < |subs|
  {
    var (cancelled, afterCancel) := CancelOutcome(subs, subs[i].id, userId, now);
    if cancelled.Err? then (Err(cancelled.error), subs)
    else CreateOutcome(afterCancel, plans, userId, newPlanId, now, cal, newId, initReference)
  }

  /**
   * `changeSubscription` as written. The active subscription comes back with
   * its plan populated, so the comparison `planId.toString() === newPlanId`
   * sets a plan document's text against an id and never holds: the current
   * subscription is cancelled and a new one created even for the same plan.
   * When the plan was deleted the populated value is null and reading it
   * throws before any write.
   */
  function ChangeOutcome(subs: seq<Subscription>, plans: seq<Plan>, userId: string, newPlanId: string,
                         now: int, cal: Calendar, newId: string, initReference: Option<string>)
    : (Result<Created, SubscriptionError>, seq<Subscription>)
  {
    match FindActive(subs, userId, now)
    case Some(i) =>
      if FindPlan(plans, subs[i].planId).None? then (Err(CurrentPlanMissing), subs)
      else CancelThenCreate(subs, plans, i, userId, newPlanId, now, cal, newId, initReference)
    case None => CreateOutcome(subs, plans, userId, newPlanId, now, cal, newId, initReference)
  }

  /** `changeSubscription` comparing the populated plan's id, as its error message intends. */
  function IntendedChangeOutcome(subs: seq<Subscription>, plans: seq<Plan>, userId: string, newPlanId: string,
                                 now: int, cal: Calendar, newId: string, initReference: Option<string>)
    : (Result<Created, SubscriptionError>, seq<Subscription>)
  {
    match FindActive(subs, userId, now)
    case Some(i) =>
      if FindPlan(plans, subs[i].planId).None? then (Err(CurrentPlanMissing), subs)
      else if subs[i].planId == newPlanId then (Err(AlreadyOnPlan), subs)
      else CancelThenCreate(subs, plans, i, userId, newPlanId, now, cal, newId, initReference)
    case None => CreateOutcome(subs, plans, userId, newPlanId, now, cal, newId, initReference)
  }

  /** `renewSubscription`: a new end date computed from now (not from the old end date); active again. */
  function RenewOutcome(subs: seq<Subscription>, plans: seq<Plan>, id: string, userId: string, now: int, cal: Calendar)
    : (Result<Subscription, SubscriptionError>, seq<Subscription>)
  {
    match FindOwned(subs, id, userId)
    case None => (Err(SubscriptionNotFound), subs)
    case Some(i) =>
      match FindPlan(plans, subs[i].planId)
      case None => (Err(PlanMissingOnRenew), subs)
      case Some(plan) =>
        var s := subs[i].(endDate := CalculateEndDate(plan.interval, now, cal), status := Active);
        (Ok(s), subs[i := s])
  }

  // ---- checkAndUpdateExpiredSubscriptions ----

  /** Picked by the sweep's query: active with an end date strictly before now. */
  predicate IsExpired(s: Subscription, now: int)
  {
    s.status == Active && s.endDate < now
  }

  function SweepOne(s: Subscription, now: int): Subscription
  {
    if IsExpired(s, now) then s.(status := Inactive) else s
  }

  function Swept(subs: seq<Subscription>, now: int): (r: seq<Subscription>)
    ensures |r| == |subs|
    ensures forall i :: 0 <= i < |subs| ==> r[i] == SweepOne(subs[i], now)
  {
    if subs == [] then [] else [SweepOne(subs[0], now)] + Swept(subs[1..], now)
  }

  function CountExpired(subs: seq<Subscription>, now: int): nat
  {
    if subs == [] then 0 else (if IsExpired(subs[0], now) then 1 else 0) + CountExpired(subs[1..], now)
  }

  // ---- getSubscriptionStats ----

  function CountStatus(subs: seq<Subscription>, st: Status): nat
  {
    if subs == [] then 0 else (if subs[0].status == st then 1 else 0) + CountStatus(subs[1..], st)
  }

  function CountPayment(subs: seq<Subscription>, ps: PaymentStatus): nat
  {
    if subs == [] then 0 else (if subs[0].paymentStatus == ps then 1 else 0) + CountPayment(subs[1..], ps)
  }

  /** Sum of `planPrice` over the paid subscriptions. */
  function PaidTotal(subs: seq<Subscription>): real
  {
    if subs == [] then 0.0 else (if subs[0].paymentStatus == Paid then subs[0].planPrice else 0.0) + PaidTotal(subs[1..])
  }

  datatype Stats = Stats(total: nat, active: nat, cancelled: nat, pending: nat, totalRevenue: real)

  function SubscriptionStats(subs: seq<Subscription>): Stats
  {
    Stats(|subs|, CountStatus(subs, Active), CountStatus(subs, Cancelled), CountPayment(subs, Pending),
          PaidTotal(subs) / 100.0)
  }

  class SubscriptionStore {
    var plans: seq<Plan>
    var subs: seq<Subscription>

    ghost predicate Valid()
      reads this
    {
      UniqueIds(subs)
    }

    constructor (plans: seq<Plan>)
      ensures this.plans == plans && subs == [] && Valid()
    {
      this.plans := plans;
      subs := [];
    }

    method GetUserActiveSubscription(userId: string, now: int) returns (r: Option<Subscription>)
      ensures r.Some? <==> FindActive(subs, userId, now).Some?
      ensures r.Some? ==> r.value == subs[FindActive(subs, userId, now).value]
      ensures r.Some? ==> r.value.userId == userId && r.value.status == Active && r.value.endDate > now
    {
      var i := 0;
      while i < |subs|
        invariant 0 <= i <= |subs|
        invariant forall j :: 0 <= j < i ==> !(subs[j].userId == userId && IsActiveAt(subs[j], now))
      {
        if subs[i].userId == userId && subs[i].status == Active && subs[i].endDate > now {
          FirstActiveIs(subs, userId, now, i);
          return Some(subs[i]);
        }
        i := i + 1;
      }
      return None;
    }

    method CreateSubscription(userId: string, planId: string, now: int, cal: Calendar,
                              newId: string, initReference: Option<string>)
      returns (r: Result<Created, SubscriptionError>)
      requires Valid() && forall s :: s in subs ==> s.id != newId
      modifies this`subs
      ensures Valid()
      ensures (r, subs) == CreateOutcome(old(subs), plans, userId, planId, now, cal, newId, initReference)
    {
      var plan := FindPlan(plans, planId);
      if plan.None? {
        return Err(PlanNotFound);
      }
      var existing := GetUserActiveSubscription(userId, now);
      if existing.Some? && existing.value.status == Active {
        return Err(AlreadyActive);
      }
      if plan.value.price == 0.0 {
        var s := NewSubscription(newId, userId, plan.value, now, cal, None);
        subs := subs + [s];
        return Ok(Created(s, false));
      }
      if initReference.None? {
        return Err(PaymentInitFailed);
      }
      var s := NewSubscription(newId, userId, plan.value, now, cal, initReference);
      subs := subs + [s];
      r := Ok(Created(s, true));
    }

    method ActivateSubscription(reference: string, verified: bool, now: int)
      returns (r: Result<Subscription, SubscriptionError>)
      requires Valid()
      modifies this`subs
      ensures Valid()
      ensures (r, subs) == ActivateOutcome(old(subs), reference, verified, now)
    {
      if verified {
        var found := FindPendingPayment(subs, reference);
        if found.Some? {
          var s := subs[found.value].(status := Active, paymentStatus := Paid, startDate := Some(now));
          subs := subs[found.value := s];
          return Ok(s);
        } else {
          return Err(NotFoundForPayment);
        }
      }
      return Err(VerificationFailed);
    }

    method CancelSubscription(id: string, userId: string, now: int)
      returns (r: Result<Subscription, SubscriptionError>, providerCalled: bool)
      requires Valid()
      modifies this`subs
      ensures Valid()
      ensures (r, subs) == CancelOutcome(old(subs), id, userId, now)
      ensures providerCalled <==> r.Ok? && CallsProviderCancel(old(subs)[FindOwned(old(subs), id, userId).value])
    {
      var found := FindOwned(subs, id, userId);
      if found.None? {
        return Err(SubscriptionNotFound), false;
      }
      var i := found.value;
      if subs[i].status == Cancelled {
        return Err(AlreadyCancelled), false;
      }
      providerCalled := CallsProviderCancel(subs[i]);
      var s := subs[i].(status := Cancelled, cancelledAt := Some(now));
      subs := subs[i := s];
      r := Ok(s);
    }

    method ChangeSubscription(userId: string, newPlanId: string, now: int, cal: Calendar,
                              newId: string, initReference: Option<string>)
      returns (r: Result<Created, SubscriptionError>)
      requires Valid() && forall s :: s in subs ==> s.id != newId
      modifies this`subs
      ensures Valid()
      ensures (r, subs) == ChangeOutcome(old(subs), plans, userId, newPlanId, now, cal, newId, initReference)
    {
      var current := GetUserActiveSubscription(userId, now);
      if current.Some? && FindPlan(plans, current.value.planId).None? {
        return Err(CurrentPlanMissing);
      }
      if current.Some? {
        var cancelled, _ := CancelSubscription(current.value.id, userId, now);
        if cancelled.Err? {
          return Err(cancelled.error);
        }
      }
      r := CreateSubscription(userId, newPlanId, now, cal, newId, initReference);
    }

    method RenewSubscription(id: string, userId: string, now: int, cal: Calendar)
      returns (r: Result<Subscription, SubscriptionError>)
      requires Valid()
      modifies this`subs
      ensures Valid()
      ensures (r, subs) == RenewOutcome(old(subs), plans, id, userId, now, cal)
    {
      var found := FindOwned(subs, id, userId);
      if found.None? {
        return Err(SubscriptionNotFound);
      }
      var i := found.value;
      var plan := FindPlan(plans, subs[i].planId);
      if plan.None? {
        return Err(PlanMissingOnRenew);
      }
      var s := subs[i].(endDate := CalculateEndDate(plan.value.interval, now, cal), status := Active);
      subs := subs[i := s];
      r := Ok(s);
    }

    /** `checkAndUpdateExpiredSubscriptions`: flip every expired active record to inactive; return how many. */
    method CheckAndUpdateExpired(now: int) returns (count: nat)
      requires Valid()
      modifies this`subs
      ensures Valid()
      ensures subs == Swept(old(subs), now)
      ensures count == CountExpired(old(subs), now)
    {
      ghost var original := subs;
      count := 0;
      var i := 0;
      while i < |subs|
        invariant 0 <= i <= |subs| == |original|
        invariant forall j :: 0 <= j < i ==> subs[j] == SweepOne(original[j], now)
        invariant forall j :: i <= j < |subs| ==> subs[j] == original[j]
        invariant count == CountExpired(original[..i], now)
        invariant forall j :: 0 <= j < |subs| ==> subs[j].id == original[j].id
      {
        CountExpiredStep(original, i, now);
        if subs[i].status == Active && subs[i].endDate < now {
          subs := subs[i := subs[i].(status := Inactive)];
          count := count + 1;
        }
        i := i + 1;
      }
      assert original[..|original|] == original;
      assert subs == Swept(original, now);
    }

    method GetSubscriptionStats() returns (stats: Stats)
      ensures stats == SubscriptionStats(subs)
    {
      var total, active, cancelled, pending := 0, 0, 0, 0;
      var revenue := 0.0;
      var i := 0;
      while i < |subs|
        invariant 0 <= i <= |subs|
        invariant total == i
        invariant active == CountStatus(subs[..i], Active) && cancelled == CountStatus(subs[..i], Cancelled)
        invariant pending == CountPayment(subs[..i], Pending) && revenue == PaidTotal(subs[..i])
      {
        StatsStep(subs, i);
        total := total + 1;
        if subs[i].status == Active { active := active + 1; }
        if subs[i].status == Cancelled { cancelled := cancelled + 1; }
        if subs[i].paymentStatus == Pending { pending := pending + 1; }
        if subs[i].paymentStatus == Paid { revenue := revenue + subs[i].planPrice; }
        i := i + 1;
      }
      assert subs[..|subs|] == subs;
      stats := Stats(total, active, cancelled, pending, revenue / 100.0);
    }
  }

  lemma FirstActiveIs(subs: seq<Subscription>, userId: string, now: int, i: nat)
    requires i < |subs| && subs[i].userId == userId && IsActiveAt(subs[i], now)
    requires forall j :: 0 <= j < i ==> !(subs[j].userId == userId && IsActiveAt(subs[j], now))
    ensures FindActive(subs, userId, now) == Some(i)
  {
  }

  // ---- Folding lemmas used by the loops ----

  lemma {:induction false} CountExpiredAppend(a: seq<Subscription>, b: seq<Subscription>, now: int)
    ensures CountExpired(a + b, now) == CountExpired(a, now) + CountExpired(b, now)
  {
    if a == [] {
      assert a + b == b;
    } else {
      assert (a + b)[1..] == a[1..] + b;
      CountExpiredAppend(a[1..], b, now);
    }
  }

  lemma CountExpiredStep(s: seq<Subscription>, i: nat, now: int)
    requires i < |s|
    ensures CountExpired(s[..i + 1], now) == CountExpired(s[..i], now) + (if IsExpired(s[i], now) then 1 else 0)
  {
    assert s[..i + 1] == s[..i] + [s[i]];
    CountExpiredAppend(s[..i], [s[i]], now);
  }

  lemma {:induction false} StatsAppend(a: seq<Subscription>, b: seq<Subscription>)
    ensures CountStatus(a + b, Active) == CountStatus(a, Active) + CountStatus(b, Active)
    ensures CountStatus(a + b, Cancelled) == CountStatus(a, Cancelled) + CountStatus(b, Cancelled)
    ensures CountPayment(a + b, Pending) == CountPayment(a, Pending) + CountPayment(b, Pending)
    ensures PaidTotal(a + b) == PaidTotal(a) + PaidTotal(b)
  {
    if a == [] {
      assert a + b == b;
    } else {
      assert (a + b)[1..] == a[1..] + b;
      StatsAppend(a[1..], b);
    }
  }

  lemma StatsStep(s: seq<Subscription>, i: nat)
    requires i < |s|
    ensures CountStatus(s[..i + 1], Active) == CountStatus(s[..i], Active) + (if s[i].status == Active then 1 else 0)
    ensures CountStatus(s[..i + 1], Cancelled) == CountStatus(s[..i], Cancelled) + (if s[i].status == Cancelled then 1 else 0)
    ensures CountPayment(s[..i + 1], Pending) == CountPayment(s[..i], Pending) + (if s[i].paymentStatus == Pending then 1 else 0)
    ensures PaidTotal(s[..i + 1]) == PaidTotal(s[..i]) + (if s[i].paymentStatus == Paid then s[i].planPrice else 0.0)
  {
    assert s[..i + 1] == s[..i] + [s[i]];
    StatsAppend(s[..i], [s[i]]);
  }

  // ---- Properties of the lifecycle ----

  /** Creation fails when the plan does not exist or the user already has an active subscription; nothing is stored then. */
  lemma CreateRefusals(subs: seq<Subscription>, plans: seq<Plan>, userId: string, planId: string,
                       now: int, cal: Calendar, newId: string, initReference: Option<string>)
    ensures var (r, after) := CreateOutcome(subs, plans, userId, planId, now, cal, newId, initReference);
      && (FindPlan(plans, planId).None? ==> r == Err(PlanNotFound))
      && (FindPlan(plans, planId).Some? && FindActive(subs, userId, now).Some? ==> r == Err(AlreadyActive))
      && (r.Err? ==> after == subs)
  {
  }

  /** A free plan gives an active, paid subscription with no payment; a priced one gives an inactive, pending one tied to the reference. */
  lemma CreateFreeVersusPaid(subs: seq<Subscription>, plans: seq<Plan>, userId: string, planId: string,
                             now: int, cal: Calendar, newId: string, initReference: Option<string>)
    requires CreateOutcome(subs, plans, userId, planId, now, cal, newId, initReference).0.Ok?
    ensures var (r, after) := CreateOutcome(subs, plans, userId, planId, now, cal, newId, initReference);
      var plan := FindPlan(plans, planId).value;
      var s := r.value.subscription;
      && after == subs + [s]
      && s.userId == userId && s.planId == planId && s.planPrice == plan.price
      && s.endDate == CalculateEndDate(plan.interval, now, cal)
      && (plan.price == 0.0 ==> s.status == Active && s.paymentStatus == Paid && !r.value.requiresPayment)
      && (plan.price != 0.0 ==> s.status == Inactive && s.paymentStatus == Pending && r.value.requiresPayment
                                && s.providerSubscriptionId == initReference)
  {
  }

  /** A successful creation leaves the user with an active subscription exactly when the plan is free. */
  lemma {:induction false} CreatedActiveIffFree(subs: seq<Subscription>, plans: seq<Plan>, userId: string, planId: string,
                                               now: int, cal: Calendar, newId: string, initReference: Option<string>)
    requires CreateOutcome(subs, plans, userId, planId, now, cal, newId, initReference).0.Ok?
    requires CalculateEndDate(FindPlan(plans, planId).value.interval, now, cal) > now
    ensures var after := CreateOutcome(subs, plans, userId, planId, now, cal, newId, initReference).1;
      FindActive(after, userId, now).Some? <==> FindPlan(plans, planId).value.price == 0.0
  {
    var after := CreateOutcome(subs, plans, userId, planId, now, cal, newId, initReference).1;
    var s := after[|subs|];
    assert after == subs + [s];
    FindActiveAppend(subs, s, userId, now);
  }

  lemma {:induction false} FindActiveAppend(subs: seq<Subscription>, s: Subscription, userId: string, now: int)
    requires FindActive(subs, userId, now).None?
    ensures FindActive(subs + [s], userId, now).Some? <==> (s.userId == userId && IsActiveAt(s, now))
  {
    if subs == [] {
      assert subs + [s] == [s];
    } else {
      assert (subs + [s])[1..] == subs[1..] + [s];
      FindActiveAppend(subs[1..], s, userId, now);
    }
  }

  /** Activation changes only a pending record with this reference, and only on verified payment. */
  lemma ActivateChangesOnlyPending(subs: seq<Subscription>, reference: string, verified: bool, now: int)
    ensures var (r, after) := ActivateOutcome(subs, reference, verified, now);
      && (!verified ==> r == Err(VerificationFailed) && after == subs)
      && (r.Ok? ==> exists i :: 0 <= i < |subs| && subs[i].providerSubscriptionId == Some(reference)
                      && subs[i].paymentStatus == Pending && after == subs[i := r.value])
      && (r.Ok? ==> r.value.status == Active && r.value.paymentStatus == Paid && r.value.startDate == Some(now))
      && (r.Err? ==> after == subs)
  {
    var (r, after) := ActivateOutcome(subs, reference, verified, now);
    if r.Ok? {
      var i := FindPendingPayment(subs, reference).value;
      assert after == subs[i := r.value];
    }
  }

  /** Cancelling fails on a missing or already-cancelled record; otherwise it sets cancelled and the cancel time. */
  lemma CancelBehaviour(subs: seq<Subscription>, id: string, userId: string, now: int)
    ensures var (r, after) := CancelOutcome(subs, id, userId, now);
      && (FindOwned(subs, id, userId).None? ==> r == Err(SubscriptionNotFound))
      && ((FindOwned(subs, id, userId).Some? && subs[FindOwned(subs, id, userId).value].status == Cancelled)
          ==> r == Err(AlreadyCancelled))
      && (r.Ok? ==> r.value.status == Cancelled && r.value.cancelledAt == Some(now)
                    && after == subs[FindOwned(subs, id, userId).value := r.value])
      && (r.Err? ==> after == subs)
  {
  }

  /** A second cancel of the same subscription is refused. */
  lemma CancelTwiceRefused(subs: seq<Subscription>, id: string, userId: string, now: int, later: int)
    requires UniqueIds(subs) && CancelOutcome(subs, id, userId, now).0.Ok?
    ensures CancelOutcome(CancelOutcome(subs, id, userId, now).1, id, userId, later).0 == Err(AlreadyCancelled)
  {
    var i := FindOwned(subs, id, userId).value;
    var after := CancelOutcome(subs, id, userId, now).1;
    FindOwnedAfterUpdate(subs, id, userId, i, after[i]);
  }

  lemma FindOwnedAfterUpdate(subs: seq<Subscription>, id: string, userId: string, i: nat, s: Subscription)
    requires UniqueIds(subs) && FindOwned(subs, id, userId) == Some(i) && s.id == id && s.userId == userId
    ensures FindOwned(subs[i := s], id, userId) == Some(i)
  {
    var t := subs[i := s];
    assert t[i].id == id && t[i].userId == userId;
  }

  /**
   * As written, changing to the plan one is already on is never refused: the
   * current subscription is cancelled and the result is a fresh creation for
   * the same plan.
   */
  lemma ChangeToSamePlanRecreates(subs: seq<Subscription>, plans: seq<Plan>, userId: string, now: int,
                                  cal: Calendar, newId: string, initReference: Option<string>)
    requires UniqueIds(subs) && FindActive(subs, userId, now).Some?
    requires FindPlan(plans, subs[FindActive(subs, userId, now).value].planId).Some?
    ensures var i := FindActive(subs, userId, now).value;
      var planId := subs[i].planId;
      var (r, after) := ChangeOutcome(subs, plans, userId, planId, now, cal, newId, initReference);
      && r != Err(AlreadyOnPlan)
      && (r, after) == CreateOutcome(subs[i := subs[i].(status := Cancelled, cancelledAt := Some(now))], plans,
                                     userId, planId, now, cal, newId, initReference)
  {
    var i := FindActive(subs, userId, now).value;
    OwnedIsUnique(subs, i);
  }

  /** With the current plan deleted the change fails before any write. */
  lemma ChangeWithDeletedPlanFails(subs: seq<Subscription>, plans: seq<Plan>, userId: string, newPlanId: string,
                                   now: int, cal: Calendar, newId: string, initReference: Option<string>)
    ensures var (r, after) := ChangeOutcome(subs, plans, userId, newPlanId, now, cal, newId, initReference);
      var i := FindActive(subs, userId, now);
      && (i.Some? && FindPlan(plans, subs[i.value].planId).None? ==> r == Err(CurrentPlanMissing) && after == subs)
      && (r == Err(CurrentPlanMissing) ==> after == subs && i.Some? && FindPlan(plans, subs[i.value].planId).None?)
  {
  }

  /**
   * Comparing plan ids, as intended, refuses the current plan and changes
   * nothing, and agrees with the code as written for every other plan.
   */
  lemma IntendedChangeToSamePlanRefused(subs: seq<Subscription>, plans: seq<Plan>, userId: string, newPlanId: string,
                                        now: int, cal: Calendar, newId: string, initReference: Option<string>)
    ensures var i := FindActive(subs, userId, now);
      var intended := IntendedChangeOutcome(subs, plans, userId, newPlanId, now, cal, newId, initReference);
      && (i.Some? && FindPlan(plans, subs[i.value].planId).Some? && subs[i.value].planId == newPlanId
          ==> intended == (Err(AlreadyOnPlan), subs))
      && (i.None? || subs[i.value].planId != newPlanId
          ==> intended == ChangeOutcome(subs, plans, userId, newPlanId, now, cal, newId, initReference))
  {
  }

  /**
   * A change with an active subscription on an existing plan cancels it
   * first; the cancellation stands even when creating the new one then fails.
   */
  lemma ChangeCancelsCurrentFirst(subs: seq<Subscription>, plans: seq<Plan>, userId: string, newPlanId: string,
                                  now: int, cal: Calendar, newId: string, initReference: Option<string>)
    requires UniqueIds(subs) && FindActive(subs, userId, now).Some?
    requires FindPlan(plans, subs[FindActive(subs, userId, now).value].planId).Some?
    ensures var i := FindActive(subs, userId, now).value;
      var after := ChangeOutcome(subs, plans, userId, newPlanId, now, cal, newId, initReference).1;
      |after| >= |subs| && after[i].status == Cancelled && after[i].cancelledAt == Some(now)
  {
    var i := FindActive(subs, userId, now).value;
    var cur := subs[i];
    OwnedIsUnique(subs, i);
    var (c, afterCancel) := CancelOutcome(subs, cur.id, userId, now);
    assert c.Ok? && afterCancel[i].status == Cancelled;
    var (r, after) := CreateOutcome(afterCancel, plans, userId, newPlanId, now, cal, newId, initReference);
    assert after == afterCancel || after == afterCancel + [after[|afterCancel|]];
  }

  lemma OwnedIsUnique(subs: seq<Subscription>, i: nat)
    requires UniqueIds(subs) && i < |subs|
    ensures FindOwned(subs, subs[i].id, subs[i].userId) == Some(i)
  {
    var k := FindOwned(subs, subs[i].id, subs[i].userId).value;
    assert subs[k].id == subs[i].id;
  }

  /** Renewal makes the record active with an end date computed from now, whatever the previous end date was. */
  lemma RenewFromNow(subs: seq<Subscription>, plans: seq<Plan>, id: string, userId: string, now: int, cal: Calendar)
    requires RenewOutcome(subs, plans, id, userId, now, cal).0.Ok?
    ensures var s := RenewOutcome(subs, plans, id, userId, now, cal).0.value;
      var old_ := subs[FindOwned(subs, id, userId).value];
      && s.status == Active
      && s.endDate == CalculateEndDate(FindPlan(plans, old_.planId).value.interval, now, cal)
      && s == old_.(status := Active, endDate := s.endDate)
  {
  }

  /** After the sweep no record is expired; exactly the expired ones changed, and only their status. */
  lemma SweepClassifies(subs: seq<Subscription>, now: int)
    ensures forall i :: 0 <= i < |subs| ==> !IsExpired(Swept(subs, now)[i], now)
    ensures forall i :: 0 <= i < |subs| ==>
      (Swept(subs, now)[i] != subs[i] <==> IsExpired(subs[i], now))
    ensures forall i :: 0 <= i < |subs| && IsExpired(subs[i], now) ==>
      Swept(subs, now)[i] == subs[i].(status := Inactive)
  {
  }

  /** A record ending exactly now is neither active nor swept. */
  lemma BoundaryInstant(s: Subscription, now: int)
    requires s.status == Active && s.endDate == now
    ensures !IsActiveAt(s, now) && !IsExpired(s, now) && SweepOne(s, now) == s
  {
  }

  /** The sweep never changes which subscription a lookup at the same instant returns. */
  lemma {:induction false} SweepKeepsActiveLookup(subs: seq<Subscription>, userId: string, now: int)
    ensures FindActive(Swept(subs, now), userId, now) == FindActive(subs, userId, now)
  {
    if subs != [] {
      assert Swept(subs, now)[1..] == Swept(subs[1..], now);
      SweepKeepsActiveLookup(subs[1..], userId, now);
    }
  }

  /** A second sweep at the same instant changes nothing and counts nothing. */
  lemma {:induction false} SweepIdempotent(subs: seq<Subscription>, now: int)
    ensures Swept(Swept(subs, now), now) == Swept(subs, now)
    ensures CountExpired(Swept(subs, now), now) == 0
  {
    if subs != [] {
      assert Swept(subs, now)[1..] == Swept(subs[1..], now);
      SweepIdempotent(subs[1..], now);
    }
  }

  /** The sweep keeps revenue, the pending count and the number of records. */
  lemma {:induction false} SweepKeepsRevenue(subs: seq<Subscription>, now: int)
    ensures PaidTotal(Swept(subs, now)) == PaidTotal(subs)
    ensures CountPayment(Swept(subs, now), Pending) == CountPayment(subs, Pending)
    ensures CountStatus(Swept(subs, now), Cancelled) == CountStatus(subs, Cancelled)
    ensures CountStatus(Swept(subs, now), Active) + CountExpired(subs, now) == CountStatus(subs, Active)
  {
    if subs != [] {
      assert Swept(subs, now)[1..] == Swept(subs[1..], now);
      SweepKeepsRevenue(subs[1..], now);
    }
  }

  /** Revenue is the paid prices' sum over 100; with non-negative prices it is never negative. */
  lemma {:induction false} RevenueNonNegative(subs: seq<Subscription>)
    requires forall i :: 0 <= i < |subs| ==> subs[i].planPrice >= 0.0
    ensures SubscriptionStats(subs).totalRevenue >= 0.0
    ensures PaidTotal(subs) >= 0.0
  {
    if subs != [] {
      RevenueNonNegative(subs[1..]);
    }
  }

  /** Unpaid subscriptions contribute nothing to revenue. */
  lemma {:induction false} RevenueIgnoresUnpaid(subs: seq<Subscription>, s: Subscription)
    requires s.paymentStatus != Paid
    ensures PaidTotal(subs + [s]) == PaidTotal(subs)
  {
    StatsAppend(subs, [s]);
  }
}
