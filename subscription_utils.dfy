/**
 * Feature and plan checks built on the active-subscription lookup, and the
 * view sent to the frontend (server/src/utils/subscription.utils.ts).
 * A lookup whose populated plan no longer exists makes `plan.features`
 * throw; the surrounding `catch` turns that into `false`.
 */
module SubscriptionUtils {
  import opened Common
  import opened Subscriptions

  const DayMs: int := 1000 * 60 * 60 * 24

  function HasFeatureAccess(subs: seq<Subscription>, plans: seq<Plan>, userId: string, feature: string, now: int): bool
  {
    match ActiveWithPlan(subs, plans, userId, now)
    case None => false
    case Some(Populated(_, plan)) => plan.Some? && feature in plan.value.features
  }

  function GetUserPlanType(subs: seq<Subscription>, plans: seq<Plan>, userId: string, now: int): Option<string>
  {
    match ActiveWithPlan(subs, plans, userId, now)
    case None => None
    case Some(Populated(s, _)) => Some(ToLower(s.planName))
  }

  function HasPremiumAccess(subs: seq<Subscription>, plans: seq<Plan>, userId: string, now: int): bool
  {
    var t := GetUserPlanType(subs, plans, userId, now);
    t == Some("premium") || t == Some("platinum")
  }

  function HasPlatinumAccess(subs: seq<Subscription>, plans: seq<Plan>, userId: string, now: int): bool
  {
    GetUserPlanType(subs, plans, userId, now) == Some("platinum")
  }

  /** `Math.ceil(x / d)` for a positive divisor. */
  function CeilDiv(x: int, d: int): (r: int)
    requires d > 0
    ensures (r - 1) * d < x <= r * d
  {
    -((-x) / d)
  }

  datatype SubscriptionView = SubscriptionView(
    id: string, planName: string, planPrice: real, status: Status, paymentStatus: PaymentStatus,
    startDate: Option<int>, endDate: int, isActive: bool, daysLeft: int)

  function FormatForFrontend(s: Subscription, now: int): (v: SubscriptionView)
    ensures v.isActive <==> IsActiveAt(s, now)
    ensures (v.daysLeft - 1) * DayMs < s.endDate - now <= v.daysLeft * DayMs
  {
    SubscriptionView(s.id, s.planName, s.planPrice, s.status, s.paymentStatus, s.startDate, s.endDate,
                     s.status == Active && now < s.endDate, CeilDiv(s.endDate - now, DayMs))
  }

  /** An active view always reports at least one day left; an ended one reports none. */
  lemma DaysLeftAgreesWithActive(s: Subscription, now: int)
    ensures FormatForFrontend(s, now).isActive ==> FormatForFrontend(s, now).daysLeft >= 1
    ensures s.endDate <= now ==> FormatForFrontend(s, now).daysLeft <= 0
  {
  }

  /** Ending exactly one day from now counts as one day left; a millisecond more counts as two. */
  lemma DaysLeftRoundsUp(s: Subscription, now: int)
    ensures s.endDate == now + DayMs ==> FormatForFrontend(s, now).daysLeft == 1
    ensures s.endDate == now + DayMs + 1 ==> FormatForFrontend(s, now).daysLeft == 2
  {
  }

  /** Feature access holds exactly when the user has an active subscription whose existing plan lists the feature. */
  lemma FeatureAccessIff(subs: seq<Subscription>, plans: seq<Plan>, userId: string, feature: string, now: int)
    ensures HasFeatureAccess(subs, plans, userId, feature, now) <==>
      (FindActive(subs, userId, now).Some?
       && FindPlan(plans, subs[FindActive(subs, userId, now).value].planId).Some?
       && feature in FindPlan(plans, subs[FindActive(subs, userId, now).value].planId).value.features)
  {
  }

  /** The plan type is the stored plan name in lower case, so plan names compare case-insensitively. */
  lemma PlanTypeIgnoresCase(subs: seq<Subscription>, plans: seq<Plan>, userId: string, now: int)
    requires FindActive(subs, userId, now).Some?
    ensures var name := subs[FindActive(subs, userId, now).value].planName;
      GetUserPlanType(subs, plans, userId, now) == Some(ToLower(name))
      && ToLower(GetUserPlanType(subs, plans, userId, now).value) == GetUserPlanType(subs, plans, userId, now).value
  {
    ToLowerIdempotent(subs[FindActive(subs, userId, now).value].planName);
  }

  /** Platinum access implies premium access; no access without an active subscription. */
  lemma AccessLevels(subs: seq<Subscription>, plans: seq<Plan>, userId: string, now: int)
    ensures HasPlatinumAccess(subs, plans, userId, now) ==> HasPremiumAccess(subs, plans, userId, now)
    ensures FindActive(subs, userId, now).None? ==>
      !HasPremiumAccess(subs, plans, userId, now) && GetUserPlanType(subs, plans, userId, now).None?
  {
  }

  /** A stored name of any case, such as "Premium", gives premium but not platinum access. */
  lemma CapitalisedPremium(subs: seq<Subscription>, plans: seq<Plan>, userId: string, now: int, name: string)
    requires FindActive(subs, userId, now).Some? && subs[FindActive(subs, userId, now).value].planName == name
    requires ToLower(name) == "premium"
    ensures HasPremiumAccess(subs, plans, userId, now) && !HasPlatinumAccess(subs, plans, userId, now)
  {
  }

  /** The expiry sweep at the same instant changes no access decision. */
  lemma SweepKeepsAccess(subs: seq<Subscription>, plans: seq<Plan>, userId: string, feature: string, now: int)
    ensures HasFeatureAccess(Swept(subs, now), plans, userId, feature, now) == HasFeatureAccess(subs, plans, userId, feature, now)
    ensures GetUserPlanType(Swept(subs, now), plans, userId, now) == GetUserPlanType(subs, plans, userId, now)
  {
    SweepKeepsActiveLookup(subs, userId, now);
    var i := FindActive(subs, userId, now);
    if i.Some? {
      assert Swept(subs, now)[i.value] == subs[i.value];
    }
  }
}
