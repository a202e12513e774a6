/**
 * The Paystack webhook endpoint (server/src/controllers/webhook.controller.ts):
 * check the signature, dispatch on the event name, update at most one
 * subscription record, and answer 200, 400 or 500.
 */
module Webhook {
  import opened Common
  import opened Subscriptions
  import Paystack

  /**
   * The parts of `req.body.data` the handlers read. A field that is an
   * object in the payload is `None` when that object is missing, which makes
   * the handler throw; `subscriptionCode` is the top-level `subscription_code`.
   */
  datatype EventData = EventData(
    customerCode: Option<string>,
    subscriptionCode: Option<string>,
    nestedSubscriptionCode: Option<string>,
    planCode: Option<Option<string>>)

  datatype Payload = Payload(event: string, data: EventData)

  /** The filters the handlers pass to `findOneAndUpdate`. */
  datatype Filter = ByUser(userId: string) | ByProviderId(code: Option<string>)

  /** The updates the handlers apply. */
  datatype Change =
    | MarkSubscribed(code: Option<string>)
    | MarkCancelled(at: int)
    | MarkFailed
    | MarkPaid

  predicate Matches(f: Filter, s: Subscription)
  {
    match f
    case ByUser(u) => s.userId == u
    case ByProviderId(code) => s.providerSubscriptionId == code
  }

  function Apply(c: Change, s: Subscription): Subscription
  {
    match c
    case MarkSubscribed(code) => s.(providerSubscriptionId := code, status := Active, paymentStatus := Paid)
    case MarkCancelled(at) => s.(status := Cancelled, cancelledAt := Some(at))
    case MarkFailed => s.(paymentStatus := PaymentFailed)
    case MarkPaid => s.(paymentStatus := Paid, status := Active)
  }

  /** First record the filter matches: what `findOneAndUpdate` touches. */
  function FirstWhere(subs: seq<Subscription>, f: Filter): (r: Option<nat>)
    ensures r.Some? ==> r.value < |subs| && Matches(f, subs[r.value])
    ensures r.Some? ==> forall j :: 0 <= j < r.value ==> !Matches(f, subs[j])
    ensures r.None? ==> forall j :: 0 <= j < |subs| ==> !Matches(f, subs[j])
  {
    if subs == [] then None
    else if Matches(f, subs[0]) then Some(0)
    else match FirstWhere(subs[1..], f)
      case None => None
      case Some(k) => Some(k + 1)
  }

  /** `findOneAndUpdate(filter, update)` on the collection. */
  function UpdateFirst(subs: seq<Subscription>, f: Filter, c: Change): (r: seq<Subscription>)
    ensures |r| == |subs|
  {
    match FirstWhere(subs, f)
    case None => subs
    case Some(i) => subs[i := Apply(c, subs[i])]
  }

  /** The filter and update of the handler for this payload; `None` when nothing is updated. */
  function HandlerFor(p: Payload, now: int): Option<(Filter, Change)>
  {
    var d := p.data;
    if p.event == "subscription.create" && d.customerCode.Some? then
      Some((ByUser(d.customerCode.value), MarkSubscribed(d.subscriptionCode)))
    else if p.event == "subscription.disable" then
      Some((ByProviderId(d.subscriptionCode), MarkCancelled(now)))
    else if p.event == "invoice.payment_failed" && d.nestedSubscriptionCode.Some? then
      Some((ByProviderId(Some(d.nestedSubscriptionCode.value)), MarkFailed))
    else if p.event == "charge.success" && d.planCode.Some? then
      Some((ByProviderId(d.planCode.value), MarkPaid))
    else None
  }

  /** The handler throws: it dereferences an object the payload lacks. */
  predicate Throws(p: Payload)
  {
    (p.event == "subscription.create" && p.data.customerCode.None?)
    || (p.event == "invoice.payment_failed" && p.data.nestedSubscriptionCode.None?)
  }

  /**
   * The handler's effect, or `None` when it throws: on a missing object, or
   * when the database rejects its `findOneAndUpdate` (`updateRejects`).
   */
  function Dispatch(subs: seq<Subscription>, p: Payload, now: int, updateRejects: bool): Option<seq<Subscription>>
  {
    if Throws(p) then None
    else match HandlerFor(p, now)
      case None => Some(subs)
      case Some((f, c)) => if updateRejects then None else Some(UpdateFirst(subs, f, c))
  }

  /**
   * Status code and collection after the request. `signature` is the
   * `x-paystack-signature` header; `updateRejects` says whether the
   * database rejects the handler's update.
   */
  function WebhookOutcome(subs: seq<Subscription>, digest: (string, string) -> string, secret: string,
                          body: string, signature: Option<string>, p: Payload, now: int, updateRejects: bool)
    : (int, seq<Subscription>)
  {
    if signature.None? || !Paystack.VerifyWebhookSignature(digest, secret, body, signature.value) then (400, subs)
    else match Dispatch(subs, p, now, updateRejects)
      case None => (500, subs)
      case Some(after) => (200, after)
  }

  method HandlePaystackWebhook(store: SubscriptionStore, digest: (string, string) -> string, secret: string,
                               body: string, signature: Option<string>, p: Payload, now: int, updateRejects: bool)
    returns (status: int)
    modifies store`subs
    ensures (status, store.subs) == WebhookOutcome(old(store.subs), digest, secret, body, signature, p, now, updateRejects)
  {
    if signature.None? || digest(secret, body) != signature.value {
      return 400;
    }
    var result := Dispatch(store.subs, p, now, updateRejects);
    if result.None? {
      return 500;
    }
    store.subs := result.value;
    status := 200;
  }

  /** At most one record differs, and the number of records is the same. */
  predicate AtMostOneChanged(before: seq<Subscription>, after: seq<Subscription>)
  {
    |before| == |after| &&
    forall i, j :: 0 <= i < j < |before| ==> before[i] == after[i] || before[j] == after[j]
  }

  lemma UpdateFirstChangesOne(subs: seq<Subscription>, f: Filter, c: Change)
    ensures AtMostOneChanged(subs, UpdateFirst(subs, f, c))
    ensures forall i :: 0 <= i < |subs| && UpdateFirst(subs, f, c)[i] != subs[i] ==> Matches(f, subs[i])
  {
  }

  /** Whatever the event, one webhook call changes at most one subscription and never adds or removes one. */
  lemma WebhookTouchesAtMostOne(subs: seq<Subscription>, digest: (string, string) -> string, secret: string,
                                body: string, signature: Option<string>, p: Payload, now: int,
                                updateRejects: bool)
    ensures AtMostOneChanged(subs, WebhookOutcome(subs, digest, secret, body, signature, p, now, updateRejects).1)
  {
    match HandlerFor(p, now)
    case None =>
    case Some((f, c)) => UpdateFirstChangesOne(subs, f, c);
  }

  /** A request whose signature does not match the digest is refused with 400 and changes nothing. */
  lemma BadSignatureRefused(subs: seq<Subscription>, digest: (string, string) -> string, secret: string,
                            body: string, signature: Option<string>, p: Payload, now: int, updateRejects: bool)
    requires signature != Some(digest(secret, body))
    ensures WebhookOutcome(subs, digest, secret, body, signature, p, now, updateRejects) == (400, subs)
  {
  }

  /** With a valid signature, unknown events and `charge.success` without a plan are acknowledged with no change. */
  lemma IgnoredEvents(subs: seq<Subscription>, digest: (string, string) -> string, secret: string,
                      body: string, p: Payload, now: int, updateRejects: bool)
    requires p.event !in ["subscription.create", "subscription.disable", "invoice.payment_failed", "charge.success"]
          || (p.event == "charge.success" && p.data.planCode.None?)
    ensures WebhookOutcome(subs, digest, secret, body, Some(digest(secret, body)), p, now, updateRejects) == (200, subs)
  {
  }

  /** A payload missing the object a handler dereferences yields 500 and no change. */
  lemma MissingObjectFails(subs: seq<Subscription>, digest: (string, string) -> string, secret: string,
                           body: string, p: Payload, now: int, updateRejects: bool)
    requires (p.event == "subscription.create" && p.data.customerCode.None?)
          || (p.event == "invoice.payment_failed" && p.data.nestedSubscriptionCode.None?)
    ensures WebhookOutcome(subs, digest, secret, body, Some(digest(secret, body)), p, now, updateRejects) == (500, subs)
  {
  }

  /**
   * With a valid signature, a rejected `findOneAndUpdate` is caught and
   * answered with 500, nothing written; a handled event answers 500 exactly
   * when its handler throws or its update is rejected.
   */
  lemma RejectedUpdateFails(subs: seq<Subscription>, digest: (string, string) -> string, secret: string,
                            body: string, p: Payload, now: int, updateRejects: bool)
    ensures var (status, after) := WebhookOutcome(subs, digest, secret, body, Some(digest(secret, body)), p, now,
                                                  updateRejects);
      && (updateRejects && HandlerFor(p, now).Some? ==> status == 500 && after == subs)
      && (status == 500 <==> Throws(p) || (updateRejects && HandlerFor(p, now).Some?))
      && (status == 500 ==> after == subs)
      && status != 400
  {
  }

  /**
   * `subscription.disable` cancels the first record holding the code,
   * stamping the time, and nothing else; when the update is rejected the
   * answer is 500 and nothing changes.
   */
  lemma {:induction false} DisableCancelsFirstHolder(subs: seq<Subscription>, digest: (string, string) -> string,
                                                    secret: string, body: string, p: Payload, now: int, i: nat)
    requires p.event == "subscription.disable" && i < |subs|
    requires subs[i].providerSubscriptionId == p.data.subscriptionCode
    requires forall j :: 0 <= j < i ==> subs[j].providerSubscriptionId != p.data.subscriptionCode
    ensures WebhookOutcome(subs, digest, secret, body, Some(digest(secret, body)), p, now, false)
         == (200, subs[i := subs[i].(status := Cancelled, cancelledAt := Some(now))])
    ensures WebhookOutcome(subs, digest, secret, body, Some(digest(secret, body)), p, now, true) == (500, subs)
  {
    FirstWhereIs(subs, ByProviderId(p.data.subscriptionCode), i);
  }

  lemma {:induction false} FirstWhereIs(subs: seq<Subscription>, f: Filter, i: nat)
    requires i < |subs| && Matches(f, subs[i]) && forall j :: 0 <= j < i ==> !Matches(f, subs[j])
    ensures FirstWhere(subs, f) == Some(i)
  {
    if i > 0 {
      FirstWhereIs(subs[1..], f, i - 1);
    }
  }

  /** Webhook processing keeps record ids, so it keeps them unique. */
  lemma WebhookKeepsIds(subs: seq<Subscription>, digest: (string, string) -> string, secret: string,
                        body: string, signature: Option<string>, p: Payload, now: int, updateRejects: bool)
    requires UniqueIds(subs)
    ensures var after := WebhookOutcome(subs, digest, secret, body, signature, p, now, updateRejects).1;
      |after| == |subs| && forall i :: 0 <= i < |subs| ==> after[i].id == subs[i].id
  {
  }
}
