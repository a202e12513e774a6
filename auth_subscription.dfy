/**
 * The `checkSubscription` route guard (server/src/middleware/authSubcription.ts):
 * 401 without a user, 403 `NO_SUBSCRIPTION` without an active
 * subscription, 403 `INSUFFICIENT_PLAN` when the plan is not among the
 * allowed ones or lacks a required feature, otherwise the request proceeds
 * with the subscription attached.
 */
module AuthSubscription {
  import opened Common
  import opened Subscriptions
  import SubscriptionUtils

  /** Options as passed; an absent list defaults to the empty list. */
  datatype CheckOptions = CheckOptions(allowedPlans: Option<seq<string>>, requiredFeatures: Option<seq<string>>)

  datatype Decision =
    | Unauthorized
    | NoSubscription
    | InsufficientPlan(allowedPlans: seq<string>, requiredFeatures: seq<string>)
    | Proceed(subscription: Subscription)
    /** `plan.name` on a plan that no longer exists throws; the error goes to the error handler. */
    | HandlerError

  function OrEmpty(o: Option<seq<string>>): seq<string>
  {
    if o.Some? then o.value else []
  }

  predicate HasAll(features: seq<string>, required: seq<string>)
  {
    forall f :: f in required ==> f in features
  }

  function CheckSubscription(opts: CheckOptions, user: Option<string>, subs: seq<Subscription>, plans: seq<Plan>, now: int)
    : Decision
  {
    var allowed := OrEmpty(opts.allowedPlans);
    var required := OrEmpty(opts.requiredFeatures);
    if user.None? then Unauthorized
    else match ActiveWithPlan(subs, plans, user.value, now)
      case None => NoSubscription
      case Some(Populated(s, plan)) =>
        if plan.None? then HandlerError
        else
          var isAllowedPlan := |allowed| == 0 || ToLower(plan.value.name) in allowed;
          var hasRequiredFeatures := |required| == 0 || HasAll(plan.value.features, required);
          if !isAllowedPlan || !hasRequiredFeatures then InsufficientPlan(allowed, required)
          else Proceed(s)
  }

  /** The request proceeds exactly when every condition holds, with the user's active subscription attached. */
  lemma ProceedIff(opts: CheckOptions, userId: string, subs: seq<Subscription>, plans: seq<Plan>, now: int)
    ensures var d := CheckSubscription(opts, Some(userId), subs, plans, now);
      d.Proceed? <==>
        (FindActive(subs, userId, now).Some?
         && var s := subs[FindActive(subs, userId, now).value];
            FindPlan(plans, s.planId).Some?
            && var plan := FindPlan(plans, s.planId).value;
               (|OrEmpty(opts.allowedPlans)| == 0 || ToLower(plan.name) in OrEmpty(opts.allowedPlans))
               && HasAll(plan.features, OrEmpty(opts.requiredFeatures)))
    ensures var d := CheckSubscription(opts, Some(userId), subs, plans, now);
      d.Proceed? ==> d.subscription == subs[FindActive(subs, userId, now).value]
  {
  }

  /** Without a user the answer is 401; with a user and no active subscription it is 403 `NO_SUBSCRIPTION`. */
  lemma RefusalOrder(opts: CheckOptions, user: Option<string>, subs: seq<Subscription>, plans: seq<Plan>, now: int)
    ensures user.None? ==> CheckSubscription(opts, user, subs, plans, now) == Unauthorized
    ensures user.Some? && FindActive(subs, user.value, now).None? ==>
      CheckSubscription(opts, user, subs, plans, now) == NoSubscription
  {
  }

  /** With no options any active subscription with an existing plan passes. */
  lemma DefaultOptionsNeedOnlyActive(userId: string, subs: seq<Subscription>, plans: seq<Plan>, now: int)
    requires FindActive(subs, userId, now).Some?
    requires FindPlan(plans, subs[FindActive(subs, userId, now).value].planId).Some?
    ensures CheckSubscription(CheckOptions(None, None), Some(userId), subs, plans, now).Proceed?
  {
  }

  /** Dropping required features never turns a pass into a refusal. */
  lemma FewerFeaturesStillPass(allowed: Option<seq<string>>, required: seq<string>, extra: seq<string>,
                               userId: string, subs: seq<Subscription>, plans: seq<Plan>, now: int)
    requires CheckSubscription(CheckOptions(allowed, Some(required + extra)), Some(userId), subs, plans, now).Proceed?
    ensures CheckSubscription(CheckOptions(allowed, Some(required)), Some(userId), subs, plans, now).Proceed?
  {
    ProceedIff(CheckOptions(allowed, Some(required + extra)), userId, subs, plans, now);
    ProceedIff(CheckOptions(allowed, Some(required)), userId, subs, plans, now);
  }

  /** Requiring one feature agrees with `hasFeatureAccess`, except that a missing plan is an error here and `false` there. */
  lemma AgreesWithFeatureAccess(feature: string, userId: string, subs: seq<Subscription>, plans: seq<Plan>, now: int)
    ensures var d := CheckSubscription(CheckOptions(None, Some([feature])), Some(userId), subs, plans, now);
      (d.Proceed? <==> SubscriptionUtils.HasFeatureAccess(subs, plans, userId, feature, now))
      && (d.HandlerError? ==> !SubscriptionUtils.HasFeatureAccess(subs, plans, userId, feature, now))
  {
  }

  /** A route limited to premium and platinum lets through only users `hasPremiumAccess` accepts, when plan and record names agree. */
  lemma PremiumRouteImpliesPremiumAccess(userId: string, subs: seq<Subscription>, plans: seq<Plan>, now: int)
    requires CheckSubscription(CheckOptions(Some(["premium", "platinum"]), None), Some(userId), subs, plans, now).Proceed?
    requires var s := subs[FindActive(subs, userId, now).value];
      FindPlan(plans, s.planId).Some? && FindPlan(plans, s.planId).value.name == s.planName
    ensures SubscriptionUtils.HasPremiumAccess(subs, plans, userId, now)
  {
  }

  /** Plan names in the options are matched against the lower-cased plan name, so a capitalised option never matches. */
  lemma CapitalisedOptionNeverMatches(name: string, userId: string, subs: seq<Subscription>, plans: seq<Plan>, now: int)
    requires |name| > 0 && 'A' <= name[0] <= 'Z'
    ensures !CheckSubscription(CheckOptions(Some([name]), None), Some(userId), subs, plans, now).Proceed?
  {
  }
}
