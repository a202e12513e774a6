/**
 * `generateCampaignAnalytics`: one pass over a campaign's performance
 * records that sums ten metrics, then three averages whose divisors fall
 * back to 1. Numbers are exact reals; a missing field (or `metrics` object)
 * counts as 0, as `x || 0` makes it.
 */
module CampaignAnalytics {
  import opened Common

  datatype Metrics = Metrics(views: Option<real>, likes: Option<real>, comments: Option<real>, shares: Option<real>,
                             impressions: Option<real>, engagement: Option<real>)

  datatype Performance = Performance(metrics: Option<Metrics>, conversions: Option<real>,
                                     contentQualityScore: Option<real>, startFollowers: Option<real>,
                                     endFollowers: Option<real>)

  /** `x || 0`: a missing value, and a zero one, give 0. */
  function OrZero(x: Option<real>): real
  {
    if x.None? then 0.0 else x.value
  }

  datatype Totals = Totals(views: real, likes: real, comments: real, shares: real, impressions: real,
                           engagement: real, conversions: real, contentQualityScore: real,
                           startFollowers: real, endFollowers: real)

  const Zero := Totals(0.0, 0.0, 0.0, 0.0, 0.0, 0.0, 0.0, 0.0, 0.0, 0.0)

  function Plus(a: Totals, b: Totals): Totals
  {
    Totals(a.views + b.views, a.likes + b.likes, a.comments + b.comments, a.shares + b.shares,
           a.impressions + b.impressions, a.engagement + b.engagement, a.conversions + b.conversions,
           a.contentQualityScore + b.contentQualityScore, a.startFollowers + b.startFollowers,
           a.endFollowers + b.endFollowers)
  }

  /** What one record adds; `perf.metrics || {}` makes every metric of a missing object 0. */
  function Contribution(p: Performance): Totals
  {
    var m := if p.metrics.None? then Metrics(None, None, None, None, None, None) else p.metrics.value;
    Totals(OrZero(m.views), OrZero(m.likes), OrZero(m.comments), OrZero(m.shares), OrZero(m.impressions),
           OrZero(m.engagement), OrZero(p.conversions), OrZero(p.contentQualityScore),
           OrZero(p.startFollowers), OrZero(p.endFollowers))
  }

  /** The totals after visiting `ps` in order. */
  function Sum(ps: seq<Performance>): Totals
  {
    if ps == [] then Zero else Plus(Sum(ps[..|ps| - 1]), Contribution(ps[|ps| - 1]))
  }

  datatype Analytics = Analytics(totals: Totals, avgEngagementRate: real, avgContentQualityScore: real,
                                 avgFollowerGrowth: real, influencerCount: nat)

  /** `n || 1`. */
  function OrOne(n: real): (r: real)
    ensures r != 0.0
  {
    if n == 0.0 then 1.0 else n
  }

  /** The report built from the totals and the record count. */
  function Report(ps: seq<Performance>): Analytics
  {
    var t := Sum(ps);
    var count := |ps| as real;
    Analytics(t, t.engagement / OrOne(t.impressions), t.contentQualityScore / OrOne(count),
              (t.endFollowers - t.startFollowers) / OrOne(count), |ps|)
  }

  /** The `forEach` of the source, accumulating into one totals record. */
  method GenerateCampaignAnalytics(performances: seq<Performance>) returns (a: Analytics)
    ensures a == Report(performances)
    ensures a.influencerCount == |performances|
  {
    var total := Zero;
    var i := 0;
    while i < |performances|
      invariant 0 <= i <= |performances|
      invariant total == Sum(performances[..i])
    {
      var c := Contribution(performances[i]);
      total := Totals(total.views + c.views, total.likes + c.likes, total.comments + c.comments,
                      total.shares + c.shares, total.impressions + c.impressions, total.engagement + c.engagement,
                      total.conversions + c.conversions, total.contentQualityScore + c.contentQualityScore,
                      total.startFollowers + c.startFollowers, total.endFollowers + c.endFollowers);
      assert performances[..i + 1][..i] == performances[..i];
      i := i + 1;
    }
    assert performances[..i] == performances;
    var count := |performances|;
    a := Analytics(total, total.engagement / (if total.impressions == 0.0 then 1.0 else total.impressions),
                   total.contentQualityScore / (if count == 0 then 1.0 else count as real),
                   (total.endFollowers - total.startFollowers) / (if count == 0 then 1.0 else count as real),
                   count);
  }

  // ---- Properties ----

  lemma PlusCommutes(a: Totals, b: Totals)
    ensures Plus(a, b) == Plus(b, a)
  {
  }

  lemma PlusAssociates(a: Totals, b: Totals, c: Totals)
    ensures Plus(Plus(a, b), c) == Plus(a, Plus(b, c))
  {
  }

  lemma {:induction false} SumAppend(a: seq<Performance>, b: seq<Performance>)
    ensures Sum(a + b) == Plus(Sum(a), Sum(b))
    decreases |b|
  {
    if b == [] {
      assert a + b == a;
    } else {
      var n := |b| - 1;
      assert (a + b)[..|a + b| - 1] == a + b[..n];
      SumAppend(a, b[..n]);
      PlusAssociates(Sum(a), Sum(b[..n]), Contribution(b[n]));
    }
  }

  lemma SumSingle(p: Performance)
    ensures Sum([p]) == Contribution(p)
  {
    assert [p][..0] == [];
  }

  /** The totals do not depend on the order in which the records come back. */
  lemma {:induction false} SumOrderIndependent(ps: seq<Performance>, qs: seq<Performance>)
    requires multiset(ps) == multiset(qs)
    ensures Sum(ps) == Sum(qs)
    decreases |ps|
  {
    if ps == [] {
      assert |qs| == |multiset(qs)| == 0;
    } else {
      var n := |ps| - 1;
      var x := ps[n];
      assert x in multiset(qs) by { assert ps == ps[..n] + [x]; }
      var k :| 0 <= k < |qs| && qs[k] == x;
      var rest := qs[..k] + qs[k + 1..];
      assert qs == qs[..k] + [x] + qs[k + 1..];
      assert ps == ps[..n] + [x];
      assert multiset(ps) == multiset(ps[..n]) + multiset{x};
      assert multiset(qs) == multiset(qs[..k]) + multiset{x} + multiset(qs[k + 1..]);
      assert multiset(rest) == multiset(qs[..k]) + multiset(qs[k + 1..]);
      assert multiset(ps[..n]) == multiset(ps) - multiset{x};
      assert multiset(rest) == multiset(qs) - multiset{x};
      SumOrderIndependent(ps[..n], rest);
      calc {
        Sum(qs);
        { SumAppend(qs[..k] + [x], qs[k + 1..]); SumAppend(qs[..k], [x]); SumSingle(x); }
        Plus(Plus(Sum(qs[..k]), Contribution(x)), Sum(qs[k + 1..]));
        { PlusAssociates(Sum(qs[..k]), Contribution(x), Sum(qs[k + 1..]));
          PlusCommutes(Contribution(x), Sum(qs[k + 1..]));
          PlusAssociates(Sum(qs[..k]), Sum(qs[k + 1..]), Contribution(x)); }
        Plus(Plus(Sum(qs[..k]), Sum(qs[k + 1..])), Contribution(x));
        { SumAppend(qs[..k], qs[k + 1..]); }
        Plus(Sum(rest), Contribution(x));
        Sum(ps);
      }
    }
  }

  /** The whole report is order independent. */
  lemma ReportOrderIndependent(ps: seq<Performance>, qs: seq<Performance>)
    requires multiset(ps) == multiset(qs)
    ensures Report(ps) == Report(qs)
  {
    SumOrderIndependent(ps, qs);
    assert |ps| == |multiset(ps)| == |qs|;
  }

  /** No records: every total and every average is 0, and nothing divides by zero. */
  lemma EmptyReport()
    ensures var r := Report([]);
      r.totals == Zero && r.avgEngagementRate == 0.0 && r.avgContentQualityScore == 0.0
      && r.avgFollowerGrowth == 0.0 && r.influencerCount == 0
  {
  }

  /** Zero impressions make the engagement rate equal to the engagement total. */
  lemma EngagementRateFallback(ps: seq<Performance>)
    ensures Sum(ps).impressions == 0.0 ==> Report(ps).avgEngagementRate == Sum(ps).engagement
    ensures Sum(ps).impressions != 0.0 ==> Report(ps).avgEngagementRate * Sum(ps).impressions == Sum(ps).engagement
  {
  }

  /** With at least one record the averages divide by the record count. */
  lemma AveragesOverCount(ps: seq<Performance>)
    requires ps != []
    ensures Report(ps).avgContentQualityScore * (|ps| as real) == Sum(ps).contentQualityScore
    ensures Report(ps).avgFollowerGrowth * (|ps| as real) == Sum(ps).endFollowers - Sum(ps).startFollowers
  {
  }

  /** A record with no metrics object and no fields adds nothing. */
  lemma EmptyRecordAddsNothing(ps: seq<Performance>)
    ensures Sum(ps + [Performance(None, None, None, None, None)]) == Sum(ps)
  {
    assert (ps + [Performance(None, None, None, None, None)])[..|ps|] == ps;
  }

  /** Each total is the sum of its own field over the records, so non-negative fields give a non-negative total. */
  lemma {:induction false} ViewsNonNegative(ps: seq<Performance>)
    requires forall i :: 0 <= i < |ps| ==> Contribution(ps[i]).views >= 0.0
    ensures Sum(ps).views >= 0.0
  {
    if ps != [] {
      ViewsNonNegative(ps[..|ps| - 1]);
    }
  }
}
