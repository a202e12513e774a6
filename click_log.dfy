/**
 * `handleReferralClick`: a referral link click is logged once per
 * (influencer, campaign, ip, user agent) and then credits one conversion to
 * the influencer's most recent performance record. Device and location
 * details come from foreign libraries and are not part of this model.
 *
 * The log schema requires a non-empty `ip` and `userAgent`; a new key with
 * either empty makes `ClickLog.create` reject, and the error is handed to the
 * error middleware with no redirect and no conversion. A missing `req.ip` is
 * the empty string.
 */
module ClickLogs {
  import opened Common

  datatype Influencer = Influencer(id: string, referralCode: string)

  datatype PerformanceRecord = PerformanceRecord(id: string, influencerId: string, campaignId: string,
                                                 createdAt: int, conversions: int)

  datatype ClickLog = ClickLog(influencerId: string, campaignId: string, ip: string, userAgent: string,
                               postId: Option<string>, utmSource: Option<string>, utmCampaign: Option<string>)

  datatype ClickStore = ClickStore(influencers: seq<Influencer>, performances: seq<PerformanceRecord>, logs: seq<ClickLog>)

  datatype Response =
    | NotFound(text: string)
    | Redirect(status: int, url: string)
    /** `ClickLog.create` failed the schema's `required` check; the error goes to the error middleware. */
    | CreateRejected

  /** What the log schema's `required` validators accept: every required string is non-empty. */
  predicate Storable(ip: string, userAgent: string)
  {
    ip != "" && userAgent != ""
  }

  /** Every stored log passed the schema's validation. */
  predicate LogsStorable(logs: seq<ClickLog>)
  {
    forall j :: 0 <= j < |logs| ==> Storable(logs[j].ip, logs[j].userAgent)
  }

  /** The campaign landing page every non-404 answer redirects to. */
  function LandingUrl(referralCode: string): string
  {
    "https://covo.co.za/campaign?utm_source=covo&utm_content=" + referralCode
  }

  function FindByCode(infs: seq<Influencer>, code: string): (r: Option<nat>)
    ensures r.Some? ==> r.value < |infs| && infs[r.value].referralCode == code
    ensures r.None? ==> forall j :: 0 <= j < |infs| ==> infs[j].referralCode != code
  {
    if infs == [] then None
    else if infs[0].referralCode == code then Some(0)
    else match FindByCode(infs[1..], code)
      case None => None
      case Some(k) => Some(k + 1)
  }

  /**
   * `findOne({ influencerId }).sort({ createdAt: -1 })`: the influencer's record
   * with the latest `createdAt`; among equal times the first stored one.
   */
  function Latest(ps: seq<PerformanceRecord>, influencerId: string): (r: Option<nat>)
    ensures r.Some? ==> r.value < |ps| && ps[r.value].influencerId == influencerId
    ensures r.Some? ==> forall j :: 0 <= j < |ps| && ps[j].influencerId == influencerId ==> ps[j].createdAt <= ps[r.value].createdAt
    ensures r.None? <==> forall j :: 0 <= j < |ps| ==> ps[j].influencerId != influencerId
  {
    if ps == [] then None
    else
      var n := |ps| - 1;
      var earlier := Latest(ps[..n], influencerId);
      if ps[n].influencerId != influencerId then earlier
      else if earlier.Some? && ps[earlier.value].createdAt >= ps[n].createdAt then earlier
      else Some(n)
  }

  /** A log's de-duplication key. */
  predicate SameKey(l: ClickLog, influencerId: string, campaignId: string, ip: string, userAgent: string)
  {
    l.influencerId == influencerId && l.campaignId == campaignId && l.ip == ip && l.userAgent == userAgent
  }

  predicate Logged(logs: seq<ClickLog>, influencerId: string, campaignId: string, ip: string, userAgent: string)
  {
    exists j :: 0 <= j < |logs| && SameKey(logs[j], influencerId, campaignId, ip, userAgent)
  }

  /** The query-string fields `typeof x === 'string'` keeps. */
  datatype Query = Query(postId: Option<string>, utmSource: Option<string>, utmCampaign: Option<string>)

  /** One click: the response and the store afterwards. A missing user agent is the empty string. */
  function ClickOutcome(st: ClickStore, referralCode: string, ip: string, userAgentHeader: Option<string>, q: Query)
    : (Response, ClickStore)
  {
    match FindByCode(st.influencers, referralCode)
    case None => (NotFound("Invalid referral link"), st)
    case Some(i) =>
      var influencerId := st.influencers[i].id;
      match Latest(st.performances, influencerId)
      case None => (NotFound("No active campaign performance record found"), st)
      case Some(k) =>
        var perf := st.performances[k];
        var userAgent := if userAgentHeader.None? then "" else userAgentHeader.value;
        if Logged(st.logs, influencerId, perf.campaignId, ip, userAgent) then (Redirect(302, LandingUrl(referralCode)), st)
        else if !Storable(ip, userAgent) then (CreateRejected, st)
        else
          var log := ClickLog(influencerId, perf.campaignId, ip, userAgent, q.postId, q.utmSource, q.utmCampaign);
          (Redirect(302, LandingUrl(referralCode)),
           st.(logs := st.logs + [log], performances := st.performances[k := perf.(conversions := perf.conversions + 1)]))
  }

  class ClickLogController {
    var influencers: seq<Influencer>
    var performances: seq<PerformanceRecord>
    var logs: seq<ClickLog>

    function Current(): ClickStore
      reads this
    {
      ClickStore(influencers, performances, logs)
    }

    constructor (influencers: seq<Influencer>, performances: seq<PerformanceRecord>)
      ensures Current() == ClickStore(influencers, performances, [])
    {
      this.influencers := influencers;
      this.performances := performances;
      this.logs := [];
    }

    /** `ClickLog.findOne` over the stored logs. */
    method FindLog(influencerId: string, campaignId: string, ip: string, userAgent: string) returns (found: bool)
      ensures found <==> Logged(logs, influencerId, campaignId, ip, userAgent)
    {
      var j := 0;
      while j < |logs|
        invariant 0 <= j <= |logs|
        invariant forall m :: 0 <= m < j ==> !SameKey(logs[m], influencerId, campaignId, ip, userAgent)
      {
        if SameKey(logs[j], influencerId, campaignId, ip, userAgent) {
          return true;
        }
        j := j + 1;
      }
      return false;
    }

    method HandleReferralClick(referralCode: string, ip: string, userAgentHeader: Option<string>, q: Query)
      returns (resp: Response)
      modifies this`performances, this`logs
      ensures (resp, Current()) == ClickOutcome(old(Current()), referralCode, ip, userAgentHeader, q)
    {
      var i := FindByCode(influencers, referralCode);
      if i.None? {
        return NotFound("Invalid referral link");
      }
      var influencerId := influencers[i.value].id;
      var k := Latest(performances, influencerId);
      if k.None? {
        return NotFound("No active campaign performance record found");
      }
      var perf := performances[k.value];
      var userAgent := if userAgentHeader.None? then "" else userAgentHeader.value;
      var existing := FindLog(influencerId, perf.campaignId, ip, userAgent);
      if existing {
        return Redirect(302, LandingUrl(referralCode));
      }
      if ip == "" || userAgent == "" {
        return CreateRejected;
      }
      logs := logs + [ClickLog(influencerId, perf.campaignId, ip, userAgent, q.postId, q.utmSource, q.utmCampaign)];
      performances := performances[k.value := perf.(conversions := perf.conversions + 1)];
      resp := Redirect(302, LandingUrl(referralCode));
    }
  }

  // ---- Properties ----

  /**
   * Unknown codes and influencers without a performance record get 404 and
   * record nothing; a new key with an empty ip or user agent is rejected by
   * the create and records nothing; every other answer is the 302 redirect.
   */
  lemma NotFoundRecordsNothing(st: ClickStore, referralCode: string, ip: string, ua: Option<string>, q: Query)
    ensures var (resp, after) := ClickOutcome(st, referralCode, ip, ua, q);
      && (resp.NotFound? <==>
            (|| FindByCode(st.influencers, referralCode).None?
             || Latest(st.performances, st.influencers[FindByCode(st.influencers, referralCode).value].id).None?))
      && (resp.CreateRejected? <==>
            (&& !resp.NotFound?
             && var id := st.influencers[FindByCode(st.influencers, referralCode).value].id;
                var ua' := if ua.None? then "" else ua.value;
                && !Logged(st.logs, id, st.performances[Latest(st.performances, id).value].campaignId, ip, ua')
                && !Storable(ip, ua')))
      && (!resp.Redirect? ==> after == st)
      && (resp.Redirect? ==> resp == Redirect(302, LandingUrl(referralCode)))
  {
  }

  /**
   * With the stored logs all valid, a click without a user agent (or with an
   * empty one) from a known link never redirects and never credits.
   */
  lemma MissingUserAgentRejected(st: ClickStore, referralCode: string, ip: string, ua: Option<string>, q: Query)
    requires LogsStorable(st.logs)
    requires ua.None? || ua.value == ""
    requires FindByCode(st.influencers, referralCode).Some?
    requires Latest(st.performances, st.influencers[FindByCode(st.influencers, referralCode).value].id).Some?
    ensures ClickOutcome(st, referralCode, ip, ua, q) == (CreateRejected, st)
  {
    var id := st.influencers[FindByCode(st.influencers, referralCode).value].id;
    var c := st.performances[Latest(st.performances, id).value].campaignId;
    forall j | 0 <= j < |st.logs|
      ensures !SameKey(st.logs[j], id, c, ip, "")
    {
      assert Storable(st.logs[j].ip, st.logs[j].userAgent);
    }
  }

  /** The sum of all conversion counters. */
  function TotalConversions(ps: seq<PerformanceRecord>): int
  {
    if ps == [] then 0 else TotalConversions(ps[..|ps| - 1]) + ps[|ps| - 1].conversions
  }

  lemma {:induction false} TotalAfterIncrement(ps: seq<PerformanceRecord>, k: nat)
    requires k < |ps|
    ensures TotalConversions(ps[k := ps[k].(conversions := ps[k].conversions + 1)]) == TotalConversions(ps) + 1
  {
    var qs := ps[k := ps[k].(conversions := ps[k].conversions + 1)];
    var n := |ps| - 1;
    assert qs[..n] == if k == n then ps[..n] else ps[..n][k := ps[k].(conversions := ps[k].conversions + 1)];
    if k < n {
      TotalAfterIncrement(ps[..n], k);
    }
  }

  /** No two logs share a key. */
  predicate UniqueKeys(logs: seq<ClickLog>)
  {
    forall i, j :: 0 <= i < j < |logs| ==>
      !SameKey(logs[j], logs[i].influencerId, logs[i].campaignId, logs[i].ip, logs[i].userAgent)
  }

  /**
   * A click either logs a new key and credits exactly one conversion to the
   * influencer's latest record, or changes nothing; keys stay unique, and
   * conversions minus logs stays constant.
   */
  lemma ClickKeepsBalance(st: ClickStore, referralCode: string, ip: string, ua: Option<string>, q: Query)
    requires UniqueKeys(st.logs)
    ensures var after := ClickOutcome(st, referralCode, ip, ua, q).1;
      && UniqueKeys(after.logs)
      && (LogsStorable(st.logs) ==> LogsStorable(after.logs))
      && TotalConversions(after.performances) - |after.logs| == TotalConversions(st.performances) - |st.logs|
      && (after == st || (|after.logs| == |st.logs| + 1 && after.logs[..|st.logs|] == st.logs))
  {
    var after := ClickOutcome(st, referralCode, ip, ua, q).1;
    if after != st {
      var i := FindByCode(st.influencers, referralCode).value;
      var k := Latest(st.performances, st.influencers[i].id).value;
      TotalAfterIncrement(st.performances, k);
      assert after.logs[..|st.logs|] == st.logs;
    }
  }

  /**
   * The first click for a key with a non-empty ip and user agent credits the
   * latest record by one and touches no other record; with either empty the
   * create is rejected and nothing changes.
   */
  lemma FirstClickCredits(st: ClickStore, referralCode: string, ip: string, ua: Option<string>, q: Query)
    requires FindByCode(st.influencers, referralCode).Some?
    requires Latest(st.performances, st.influencers[FindByCode(st.influencers, referralCode).value].id).Some?
    ensures var id := st.influencers[FindByCode(st.influencers, referralCode).value].id;
      var k := Latest(st.performances, id).value;
      var ua' := if ua.None? then "" else ua.value;
      var after := ClickOutcome(st, referralCode, ip, ua, q).1;
      var resp := ClickOutcome(st, referralCode, ip, ua, q).0;
      && (!Logged(st.logs, id, st.performances[k].campaignId, ip, ua') && !Storable(ip, ua') ==>
            resp == CreateRejected && after == st)
      && (!Logged(st.logs, id, st.performances[k].campaignId, ip, ua') && Storable(ip, ua') ==>
        (&& resp == Redirect(302, LandingUrl(referralCode))
         && after.performances[k].conversions == st.performances[k].conversions + 1
         && (forall j :: 0 <= j < |st.performances| && j != k ==> after.performances[j] == st.performances[j])
         && after.logs == st.logs + [ClickLog(id, st.performances[k].campaignId, ip, ua', q.postId, q.utmSource, q.utmCampaign)]))
  {
  }

  /** Clicking again with the same key changes nothing and redirects the same way. */
  lemma RepeatClickIgnored(st: ClickStore, referralCode: string, ip: string, ua: Option<string>, q: Query, q': Query)
    ensures var (resp, after) := ClickOutcome(st, referralCode, ip, ua, q);
      ClickOutcome(after, referralCode, ip, ua, q') == (resp, after)
  {
    var (resp, after) := ClickOutcome(st, referralCode, ip, ua, q);
    if after != st {
      var i := FindByCode(st.influencers, referralCode).value;
      var id := st.influencers[i].id;
      var k := Latest(st.performances, id).value;
      LatestAfterIncrement(st.performances, id, k);
      var n := |st.logs|;
      assert SameKey(after.logs[n], id, st.performances[k].campaignId, ip, if ua.None? then "" else ua.value);
    }
  }

  /** Raising a record's counter does not change which record is latest. */
  lemma LatestAfterIncrement(ps: seq<PerformanceRecord>, id: string, k: nat)
    requires Latest(ps, id) == Some(k)
    ensures Latest(ps[k := ps[k].(conversions := ps[k].conversions + 1)], id) == Some(k)
  {
    LatestSameKeys(ps, ps[k := ps[k].(conversions := ps[k].conversions + 1)], id);
  }

  /** `Latest` looks only at the influencer ids and the creation times. */
  lemma {:induction false} LatestSameKeys(ps: seq<PerformanceRecord>, qs: seq<PerformanceRecord>, id: string)
    requires |ps| == |qs|
    requires forall j :: 0 <= j < |ps| ==> ps[j].influencerId == qs[j].influencerId && ps[j].createdAt == qs[j].createdAt
    ensures Latest(ps, id) == Latest(qs, id)
  {
    if ps != [] {
      var n := |ps| - 1;
      LatestSameKeys(ps[..n], qs[..n], id);
    }
  }

  /** Over a run of clicks, conversions grow by exactly the number of distinct keys logged. */
  function Clicks(st: ClickStore, cs: seq<(string, string, Option<string>, Query)>): ClickStore
  {
    if cs == [] then st
    else
      var c := cs[|cs| - 1];
      ClickOutcome(Clicks(st, cs[..|cs| - 1]), c.0, c.1, c.2, c.3).1
  }

  lemma {:induction false} ClicksCountDistinctKeys(st: ClickStore, cs: seq<(string, string, Option<string>, Query)>)
    requires UniqueKeys(st.logs)
    ensures var after := Clicks(st, cs);
      && UniqueKeys(after.logs) && |after.logs| >= |st.logs|
      && (LogsStorable(st.logs) ==> LogsStorable(after.logs))
      && TotalConversions(after.performances) == TotalConversions(st.performances) + (|after.logs| - |st.logs|)
  {
    if cs != [] {
      ClicksCountDistinctKeys(st, cs[..|cs| - 1]);
      var c := cs[|cs| - 1];
      ClickKeepsBalance(Clicks(st, cs[..|cs| - 1]), c.0, c.1, c.2, c.3);
    }
  }
}
