/**
 * The Instagram and YouTube token-maintenance jobs: one pass over the
 * accounts that were connected when the job started. An account whose token
 * has expired is disconnected and its influencer notified; one that expires
 * within seven days gets a refresh request; any other is left alone. The two
 * jobs differ only in the notification text.
 *
 * A failing database call is an input: `fail(i)` says where, if anywhere,
 * the visit of the `i`-th account throws. The refresh call itself is outside
 * the model; the job's part in it is the request it makes.
 */
module TokenMaintenance {
  import opened Common

  const DayMs := 86400000
  const WeekMs := 7 * DayMs

  datatype Platform = InstagramJob | YouTubeJob

  function Subject(p: Platform): string
  {
    match p
    case InstagramJob => "Reconnect your Instagram account"
    case YouTubeJob => "Reconnect your YouTube account"
  }

  function Message(p: Platform): string
  {
    match p
    case InstagramJob => "Your Instagram token has expired. Click here to reconnect and resume tracking."
    case YouTubeJob => "Your YouTube token has expired. Click here to reconnect and resume tracking."
  }

  datatype Account = Account(influencerId: string, connected: bool, tokenExpiry: Option<int>,
                             reauthorizeRequired: bool, lastDisconnected: Option<int>)

  /**
   * An unread `reauthorization` system notification the influencer sends to
   * themself; its subject and body are `Subject(platform)` and `Message(platform)`.
   */
  datatype Notification = Notification(recipientId: string, senderId: string, platform: Platform)
  {
    function Title(): string { Subject(platform) }
    function Body(): string { Message(platform) }
  }

  function Notice(p: Platform, influencerId: string): Notification
  {
    Notification(influencerId, influencerId, p)
  }

  /** Where the visit of one account throws. */
  datatype Failure = NoFailure | AtDisconnect | AtNotify

  datatype Class = NoExpiry | Expired | ExpiringSoon | Fine

  /** `!tokenExpiry`, then `tokenExpiry <= now`, then `tokenExpiry <= soon`. */
  function Classify(expiry: Option<int>, now: int): (c: Class)
    ensures c == NoExpiry <==> expiry.None?
    ensures c == Expired <==> expiry.Some? && expiry.value <= now
    ensures c == ExpiringSoon <==> expiry.Some? && now < expiry.value <= now + WeekMs
    ensures c == Fine <==> expiry.Some? && expiry.value > now + WeekMs
  {
    if expiry.None? then NoExpiry
    else if expiry.value <= now then Expired
    else if expiry.value <= now + WeekMs then ExpiringSoon
    else Fine
  }

  /** `find({ connected: true })`, in stored order. */
  function Connected(accounts: seq<Account>): (r: seq<Account>)
    ensures |r| <= |accounts|
    ensures forall i :: 0 <= i < |r| ==> r[i].connected && r[i] in accounts
  {
    if accounts == [] then []
    else (if accounts[0].connected then [accounts[0]] else []) + Connected(accounts[1..])
  }

  function FirstOf(accounts: seq<Account>, influencerId: string): (r: Option<nat>)
    ensures r.Some? ==> r.value < |accounts| && accounts[r.value].influencerId == influencerId
    ensures r.Some? ==> forall j :: 0 <= j < r.value ==> accounts[j].influencerId != influencerId
    ensures r.None? ==> forall j :: 0 <= j < |accounts| ==> accounts[j].influencerId != influencerId
  {
    if accounts == [] then None
    else if accounts[0].influencerId == influencerId then Some(0)
    else match FirstOf(accounts[1..], influencerId)
      case None => None
      case Some(k) => Some(k + 1)
  }

  /** `findOneAndUpdate({ influencerId }, { $set: ... })`: the first stored account of that influencer. */
  function Disconnect(accounts: seq<Account>, influencerId: string, now: int): seq<Account>
  {
    match FirstOf(accounts, influencerId)
    case None => accounts
    case Some(k) =>
      accounts[k := accounts[k].(connected := false, reauthorizeRequired := true, lastDisconnected := Some(now))]
  }

  datatype Jobs = Jobs(accounts: seq<Account>, notifications: seq<Notification>, refreshRequests: seq<string>)

  /** One iteration of the loop, with its `continue`s and its `catch`. */
  function Visit(st: Jobs, p: Platform, a: Account, f: Failure, now: int): Jobs
  {
    match Classify(a.tokenExpiry, now)
    case NoExpiry => st
    case Fine => st
    case ExpiringSoon => st.(refreshRequests := st.refreshRequests + [a.influencerId])
    case Expired =>
      if f == AtDisconnect then st
      else
        var accounts := Disconnect(st.accounts, a.influencerId, now);
        if f == AtNotify then st.(accounts := accounts)
        else st.(accounts := accounts, notifications := st.notifications + [Notice(p, a.influencerId)])
  }

  /** The loop over the snapshot, visited in order. */
  function Run(st: Jobs, p: Platform, snapshot: seq<Account>, fail: nat -> Failure, now: int): Jobs
  {
    if snapshot == [] then st
    else
      var n := |snapshot| - 1;
      Visit(Run(st, p, snapshot[..n], fail, now), p, snapshot[n], fail(n), now)
  }

  /** The run over one more account of the snapshot is one more visit. */
  lemma RunStep(st: Jobs, p: Platform, snapshot: seq<Account>, fail: nat -> Failure, now: int, i: nat)
    requires i < |snapshot|
    ensures Run(st, p, snapshot[..i + 1], fail, now) == Visit(Run(st, p, snapshot[..i], fail, now), p, snapshot[i], fail(i), now)
  {
    assert snapshot[..i + 1][..i] == snapshot[..i];
  }

  class TokenJob {
    var accounts: seq<Account>
    var notifications: seq<Notification>
    var refreshRequests: seq<string>

    function Current(): Jobs
      reads this
    {
      Jobs(accounts, notifications, refreshRequests)
    }

    constructor (accounts: seq<Account>)
      ensures Current() == Jobs(accounts, [], [])
    {
      this.accounts := accounts;
      notifications := [];
      refreshRequests := [];
    }

    /** One iteration of the loop: the `continue`s, the database calls and the `catch` that ends them. */
    method VisitAccount(p: Platform, a: Account, f: Failure, now: int)
      modifies this
      ensures Current() == Visit(old(Current()), p, a, f, now)
    {
      if a.tokenExpiry.Some? {
        var expiry := a.tokenExpiry.value;
        var isExpired := expiry <= now;
        var isExpiringSoon := expiry <= now + WeekMs;
        if isExpired {
          if f != AtDisconnect {
            accounts := Disconnect(accounts, a.influencerId, now);
            if f != AtNotify {
              notifications := notifications + [Notice(p, a.influencerId)];
            }
          }
        } else if isExpiringSoon {
          refreshRequests := refreshRequests + [a.influencerId];
        }
      }
    }

    /** `refreshAllInstagramTokens` and `refreshAllYoutubeTokens`. */
    method RefreshAllTokens(p: Platform, now: int, fail: nat -> Failure)
      modifies this
      ensures Current() == Run(old(Current()), p, Connected(old(accounts)), fail, now)
    {
      var snapshot := Connected(accounts);
      ghost var start := Current();
      var i := 0;
      while i < |snapshot|
        invariant 0 <= i <= |snapshot|
        invariant Current() == Run(start, p, snapshot[..i], fail, now)
      {
        RunStep(start, p, snapshot, fail, now, i);
        VisitAccount(p, snapshot[i], fail(i), now);
        i := i + 1;
      }
      assert snapshot[..i] == snapshot;
    }
  }

  // ---- Properties ----

  /** The refresh requests: the expiring-soon accounts of the snapshot, in order. */
  function SoonIds(snapshot: seq<Account>, now: int): (r: seq<string>)
    ensures |r| <= |snapshot|
  {
    if snapshot == [] then []
    else
      var n := |snapshot| - 1;
      SoonIds(snapshot[..n], now) + (if Classify(snapshot[n].tokenExpiry, now) == ExpiringSoon then [snapshot[n].influencerId] else [])
  }

  /** The notifications one account's visit sends. */
  function NoticesOf(p: Platform, a: Account, f: Failure, now: int): seq<Notification>
  {
    if Classify(a.tokenExpiry, now) == Expired && f == NoFailure then [Notice(p, a.influencerId)] else []
  }

  function Notices(p: Platform, snapshot: seq<Account>, fail: nat -> Failure, now: int): seq<Notification>
  {
    if snapshot == [] then []
    else
      var n := |snapshot| - 1;
      Notices(p, snapshot[..n], fail, now) + NoticesOf(p, snapshot[n], fail(n), now)
  }

  /**
   * Each account adds its own notifications and refresh requests whatever
   * happened to the accounts before it, so a failure on one account does
   * not stop the loop over the rest.
   */
  lemma {:induction false} RunAppendsPerAccount(st: Jobs, p: Platform, snapshot: seq<Account>, fail: nat -> Failure, now: int)
    ensures var after := Run(st, p, snapshot, fail, now);
      && after.notifications == st.notifications + Notices(p, snapshot, fail, now)
      && after.refreshRequests == st.refreshRequests + SoonIds(snapshot, now)
  {
    if snapshot != [] {
      var n := |snapshot| - 1;
      RunAppendsPerAccount(st, p, snapshot[..n], fail, now);
      VisitAppends(Run(st, p, snapshot[..n], fail, now), p, snapshot[n], fail(n), now);
    }
  }

  lemma VisitAppends(st: Jobs, p: Platform, a: Account, f: Failure, now: int)
    ensures Visit(st, p, a, f, now).notifications == st.notifications + NoticesOf(p, a, f, now)
    ensures Visit(st, p, a, f, now).refreshRequests
            == st.refreshRequests + (if Classify(a.tokenExpiry, now) == ExpiringSoon then [a.influencerId] else [])
  {
  }

  /** Every expired account whose visit did not throw gets its notification, wherever other visits failed. */
  lemma {:induction false} ExpiredAccountNotified(p: Platform, snapshot: seq<Account>, fail: nat -> Failure, now: int, i: nat)
    requires i < |snapshot| && Classify(snapshot[i].tokenExpiry, now) == Expired && fail(i) == NoFailure
    ensures Notice(p, snapshot[i].influencerId) in Notices(p, snapshot, fail, now)
  {
    var n := |snapshot| - 1;
    if i < n {
      assert snapshot[..n][i] == snapshot[i];
      ExpiredAccountNotified(p, snapshot[..n], fail, now, i);
    }
  }

  /** At most one notification per account, and only for expired ones. */
  lemma {:induction false} NoticesOnlyForExpired(p: Platform, snapshot: seq<Account>, fail: nat -> Failure, now: int)
    ensures |Notices(p, snapshot, fail, now)| <= |snapshot|
    ensures forall m :: m in Notices(p, snapshot, fail, now) ==>
              exists i :: 0 <= i < |snapshot| && Classify(snapshot[i].tokenExpiry, now) == Expired
                          && m == Notice(p, snapshot[i].influencerId)
  {
    if snapshot != [] {
      var n := |snapshot| - 1;
      var init := snapshot[..n];
      NoticesOnlyForExpired(p, init, fail, now);
      assert forall i :: 0 <= i < n ==> init[i] == snapshot[i];
      assert Notices(p, snapshot, fail, now) == Notices(p, init, fail, now) + NoticesOf(p, snapshot[n], fail(n), now);
    }
  }

  /** Expiring-soon accounts are the only ones refreshed, and every one of them is. */
  lemma {:induction false} SoonIdsExact(snapshot: seq<Account>, now: int, x: string)
    ensures x in SoonIds(snapshot, now) <==>
              exists i :: 0 <= i < |snapshot| && Classify(snapshot[i].tokenExpiry, now) == ExpiringSoon
                          && snapshot[i].influencerId == x
  {
    if snapshot != [] {
      var n := |snapshot| - 1;
      SoonIdsExact(snapshot[..n], now, x);
      if exists i :: 0 <= i < |snapshot| && Classify(snapshot[i].tokenExpiry, now) == ExpiringSoon
                     && snapshot[i].influencerId == x {
        var i :| 0 <= i < |snapshot| && Classify(snapshot[i].tokenExpiry, now) == ExpiringSoon
                 && snapshot[i].influencerId == x;
        if i < n {
          assert snapshot[..n][i] == snapshot[i];
        }
      }
      if x in SoonIds(snapshot[..n], now) {
        var i :| 0 <= i < n && Classify(snapshot[..n][i].tokenExpiry, now) == ExpiringSoon
                 && snapshot[..n][i].influencerId == x;
        assert snapshot[i] == snapshot[..n][i];
      }
    }
  }

  /** Disconnection keeps every influencer id, so the first account of each influencer stays the same. */
  lemma DisconnectKeepsIds(accounts: seq<Account>, influencerId: string, now: int)
    ensures |Disconnect(accounts, influencerId, now)| == |accounts|
    ensures forall j :: 0 <= j < |accounts| ==> Disconnect(accounts, influencerId, now)[j].influencerId == accounts[j].influencerId
  {
  }

  /** Whether some visit of the snapshot disconnects this influencer. */
  predicate Disconnects(snapshot: seq<Account>, fail: nat -> Failure, now: int, influencerId: string)
  {
    exists i :: 0 <= i < |snapshot| && snapshot[i].influencerId == influencerId
                && Classify(snapshot[i].tokenExpiry, now) == Expired && fail(i) != AtDisconnect
  }

  /**
   * The stored accounts keep their ids, and an account is changed only when
   * some expired visit of its influencer went through; the change is a
   * disconnection that asks for reauthorization.
   */
  lemma {:induction false} RunAccounts(st: Jobs, p: Platform, snapshot: seq<Account>, fail: nat -> Failure, now: int)
    ensures var after := Run(st, p, snapshot, fail, now).accounts;
      && |after| == |st.accounts|
      && (forall k :: 0 <= k < |after| ==> after[k].influencerId == st.accounts[k].influencerId)
      && (forall k :: 0 <= k < |after| && !Disconnects(snapshot, fail, now, st.accounts[k].influencerId) ==>
            after[k] == st.accounts[k])
      && (forall k :: 0 <= k < |after| && after[k] != st.accounts[k] ==>
            !after[k].connected && after[k].reauthorizeRequired)
  {
    if snapshot != [] {
      var n := |snapshot| - 1;
      var mid := Run(st, p, snapshot[..n], fail, now);
      RunAccounts(st, p, snapshot[..n], fail, now);
      var after := Run(st, p, snapshot, fail, now).accounts;
      DisconnectKeepsIds(mid.accounts, snapshot[n].influencerId, now);
      assert forall i :: 0 <= i < n ==> snapshot[..n][i] == snapshot[i];
    }
  }

  predicate IsDisconnected(a: Account)
  {
    !a.connected && a.reauthorizeRequired
  }

  /** A visit never reconnects an account. */
  lemma VisitKeepsDisconnected(st: Jobs, p: Platform, a: Account, f: Failure, now: int, k: nat)
    requires k < |st.accounts| && IsDisconnected(st.accounts[k])
    ensures k < |Visit(st, p, a, f, now).accounts| && IsDisconnected(Visit(st, p, a, f, now).accounts[k])
  {
  }

  /** An expired visit that gets past the update disconnects the influencer's first account. */
  lemma VisitDisconnects(st: Jobs, p: Platform, a: Account, f: Failure, now: int, k: nat)
    requires Classify(a.tokenExpiry, now) == Expired && f != AtDisconnect
    requires FirstOf(st.accounts, a.influencerId) == Some(k)
    ensures k < |Visit(st, p, a, f, now).accounts| && IsDisconnected(Visit(st, p, a, f, now).accounts[k])
  {
  }

  /** After the run, the first stored account of every influencer disconnected by the run asks for reauthorization. */
  lemma {:induction false} DisconnectedStaysDisconnected(st: Jobs, p: Platform, snapshot: seq<Account>, fail: nat -> Failure,
                                                          now: int, i: nat)
    requires i < |snapshot| && Classify(snapshot[i].tokenExpiry, now) == Expired && fail(i) != AtDisconnect
    requires FirstOf(st.accounts, snapshot[i].influencerId).Some?
    ensures var after := Run(st, p, snapshot, fail, now).accounts;
      var k := FirstOf(st.accounts, snapshot[i].influencerId).value;
      k < |after| && IsDisconnected(after[k])
  {
    var n := |snapshot| - 1;
    var id := snapshot[i].influencerId;
    var k := FirstOf(st.accounts, id).value;
    var mid := Run(st, p, snapshot[..n], fail, now);
    assert Run(st, p, snapshot, fail, now) == Visit(mid, p, snapshot[n], fail(n), now);
    if i < n {
      assert snapshot[..n][i] == snapshot[i];
      DisconnectedStaysDisconnected(st, p, snapshot[..n], fail, now, i);
      VisitKeepsDisconnected(mid, p, snapshot[n], fail(n), now, k);
    } else {
      RunAccounts(st, p, snapshot[..n], fail, now);
      FirstOfSameIds(st.accounts, mid.accounts, id);
      VisitDisconnects(mid, p, snapshot[n], fail(n), now, k);
    }
  }

  /** Two account lists with the same ids position by position agree on every influencer's first account. */
  lemma FirstOfSameIds(xs: seq<Account>, ys: seq<Account>, id: string)
    requires |xs| == |ys| && forall j :: 0 <= j < |xs| ==> xs[j].influencerId == ys[j].influencerId
    ensures FirstOf(xs, id) == FirstOf(ys, id)
  {
    if xs != [] {
      FirstOfSameIds(xs[1..], ys[1..], id);
    }
  }

  /** With no failures, the run sends exactly one notification per expired account of the snapshot. */
  lemma {:induction false} NoFailureNotifiesEachExpired(p: Platform, snapshot: seq<Account>, now: int)
    ensures |Notices(p, snapshot, _ => NoFailure, now)| == CountExpired(snapshot, now)
  {
    if snapshot != [] {
      NoFailureNotifiesEachExpired(p, snapshot[..|snapshot| - 1], now);
    }
  }

  function CountExpired(snapshot: seq<Account>, now: int): nat
  {
    if snapshot == [] then 0
    else
      var n := |snapshot| - 1;
      CountExpired(snapshot[..n], now) + (if Classify(snapshot[n].tokenExpiry, now) == Expired then 1 else 0)
  }

  /** Only connected accounts are visited: a job over accounts none of which is connected changes nothing. */
  lemma NothingConnectedNothingDone(st: Jobs, p: Platform, fail: nat -> Failure, now: int)
    requires forall j :: 0 <= j < |st.accounts| ==> !st.accounts[j].connected
    ensures Run(st, p, Connected(st.accounts), fail, now) == st
  {
    NoneConnected(st.accounts);
  }

  lemma {:induction false} NoneConnected(accounts: seq<Account>)
    requires forall j :: 0 <= j < |accounts| ==> !accounts[j].connected
    ensures Connected(accounts) == []
  {
    if accounts != [] {
      NoneConnected(accounts[1..]);
    }
  }
}
