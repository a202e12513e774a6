/**
 * Campaigns and invitations (server/src/services/campaign.service.ts):
 * follower tiers, paged campaign listings, applying and inviting, the
 * brand-side and influencer-side accept/reject transitions, editing an
 * application within five hours, and soft deletion.
 *
 * Collections are sequences in insertion order; `findOne`/`findOneAndUpdate`
 * touch the first match. `isValidObjectId` is the abstract predicate
 * `validId`. An invitation with sender = influencer is an application.
 */
module Campaigns {
  import opened Common

  // ---- Follower tiers ----

  datatype Tier = Nano | Micro | Macro | Mega | Unknown

  /** `isFollowerCountValidForType`. */
  function TierOf(followers: int): (t: Tier)
    ensures t != Unknown <==> followers >= 1000
  {
    if 1000 <= followers < 10000 then Nano
    else if 10000 <= followers < 100000 then Micro
    else if 100000 <= followers < 1000000 then Macro
    else if followers >= 1000000 then Mega
    else Unknown
  }

  function TierRank(t: Tier): nat
  {
    match t
    case Unknown => 0
    case Nano => 1
    case Micro => 2
    case Macro => 3
    case Mega => 4
  }

  /** The lower bound of each tier; every count falls in exactly one tier's range. */
  function TierFloor(t: Tier): int
  {
    match t
    case Unknown => 0
    case Nano => 1000
    case Micro => 10000
    case Macro => 100000
    case Mega => 1000000
  }

  lemma TierRanges(followers: int)
    ensures TierOf(followers) == Nano <==> 1000 <= followers < 10000
    ensures TierOf(followers) == Micro <==> 10000 <= followers < 100000
    ensures TierOf(followers) == Macro <==> 100000 <= followers < 1000000
    ensures TierOf(followers) == Mega <==> followers >= 1000000
    ensures TierOf(followers) != Unknown ==> followers >= TierFloor(TierOf(followers))
  {
  }

  /** More followers never give a lower tier. */
  lemma TierMonotone(a: int, b: int)
    requires a <= b
    ensures TierRank(TierOf(a)) <= TierRank(TierOf(b))
  {
  }

  // ---- Records ----

  datatype Campaign = Campaign(id: string, brandId: string, status: string, isDeleted: bool, influencers: seq<string>)

  datatype InvitationStatus = Pending | Accepted | Rejected

  datatype Offer = Amount(value: real) | Text(text: string)

  datatype Invitation = Invitation(
    campaignId: string, influencerId: string, brandId: string,
    sender: string, receiver: string, status: InvitationStatus,
    message: Option<string>, offer: Option<Offer>, appliedAt: int)

  datatype CampaignError =
    | InvalidCampaignId
    | InvalidBrandId
    | InvalidInfluencerId
    | CampaignNotFound
    | InfluencerNotFound
    | AlreadyApplied
    | AlreadyEnrolled
    | InvitationNotFound
    | EditWindowClosed
    | NoCampaignsFound
    | QueryFailed

  datatype Store = Store(campaigns: seq<Campaign>, invitations: seq<Invitation>, influencers: map<string, int>)

  // ---- Pagination ----

  function NewestFirst<T>(s: seq<T>): (r: seq<T>)
    ensures |r| == |s| && forall i :: 0 <= i < |s| ==> r[i] == s[|s| - 1 - i]
  {
    if s == [] then [] else NewestFirst(s[1..]) + [s[0]]
  }

  /** `.skip(skip).limit(limit)`: a negative skip is a query error, limit 0 means no limit, a negative limit its absolute value. */
  function SkipLimit<T>(s: seq<T>, skip: int, limit: int): (r: Result<seq<T>, CampaignError>)
    ensures r.Ok? <==> skip >= 0
    ensures r.Ok? ==> |r.value| <= |s| && (limit != 0 ==> |r.value| <= if limit < 0 then -limit else limit)
  {
    if skip < 0 then Err(QueryFailed)
    else
      var rest := if skip >= |s| then [] else s[skip..];
      var n := if limit < 0 then -limit else limit;
      Ok(if n == 0 || |rest| <= n then rest else rest[..n])
  }

  /** `Math.ceil(total / limit)`; `None` stands for the non-finite results of a zero limit. */
  function TotalPages(total: nat, limit: int): (r: Option<int>)
    ensures limit > 0 ==> r.Some? && (r.value - 1) * limit < total <= r.value * limit
  {
    if limit == 0 then None
    else
      var t: int := total;
      if limit > 0 then Some(-((-t) / limit)) else Some(-(t / (-limit)))
  }

  datatype PageResult = PageResult(items: seq<Campaign>, totalPages: Option<int>, totalCount: nat, currentPage: int)

  function Paged(listed: seq<Campaign>, counted: nat, page: int, limit: int): Result<PageResult, CampaignError>
  {
    match SkipLimit(NewestFirst(listed), (page - 1) * limit, limit)
    case Err(e) => Err(e)
    case Ok(items) =>
      if items == [] then Err(NoCampaignsFound)
      else Ok(PageResult(items, TotalPages(counted, limit), counted, page))
  }

  /** `getAllCampaignsNoId`: every campaign, newest first, counted over all campaigns. */
  function AllCampaignsPage(st: Store, page: int, limit: int): Result<PageResult, CampaignError>
  {
    Paged(st.campaigns, |st.campaigns|, page, limit)
  }

  function Where(cs: seq<Campaign>, brandId: string, activeOnly: bool): (r: seq<Campaign>)
    ensures |r| <= |cs|
    ensures forall c :: c in r ==> c in cs && c.brandId == brandId && (activeOnly ==> c.status == "active")
  {
    if cs == [] then []
    else (if cs[0].brandId == brandId && (!activeOnly || cs[0].status == "active") then [cs[0]] else [])
         + Where(cs[1..], brandId, activeOnly)
  }

  /** `getAllCampaigns`: the brand's active campaigns, while the count covers the brand's campaigns of every status. */
  function BrandCampaignsPage(st: Store, brandId: string, page: int, limit: int, validId: string -> bool)
    : Result<PageResult, CampaignError>
  {
    if !validId(brandId) then Err(InvalidBrandId)
    else Paged(Where(st.campaigns, brandId, true), |Where(st.campaigns, brandId, false)|, page, limit)
  }

  /** Page `p` of size `limit` starts at `(p - 1) * limit` and holds at most `limit` campaigns. */
  lemma PageSlice(st: Store, page: int, limit: int)
    requires page >= 1 && limit > 0
    requires AllCampaignsPage(st, page, limit).Ok?
    ensures var r := AllCampaignsPage(st, page, limit).value;
      && 1 <= |r.items| <= limit
      && (page - 1) * limit < |st.campaigns|
      && r.items == NewestFirst(st.campaigns)[(page - 1) * limit .. (page - 1) * limit + |r.items|]
      && r.totalPages.Some? && page <= r.totalPages.value
  {
    var s := NewestFirst(st.campaigns);
    var skip := (page - 1) * limit;
    assert skip >= 0 by { MulNonNegative(page - 1, limit); }
    var items := SkipLimit(s, skip, limit).value;
    assert items == AllCampaignsPage(st, page, limit).value.items;
    assert skip < |s|;
    assert items == s[skip..][..|items|];
    var t := TotalPages(|st.campaigns|, limit).value;
    assert (page - 1) * limit < t * limit;
    MulCancel(page - 1, t, limit);
  }

  lemma MulNonNegative(a: int, b: int)
    requires a >= 0 && b >= 0
    ensures a * b >= 0
  {
  }

  lemma MulCancel(a: int, b: int, c: int)
    requires c > 0 && a * c < b * c
    ensures a < b
  {
  }

  /** A page past the last one reports no campaigns found. */
  lemma PastLastPageNotFound(st: Store, page: int, limit: int)
    requires limit > 0 && page >= 1 && (page - 1) * limit >= |st.campaigns|
    ensures AllCampaignsPage(st, page, limit) == Err(NoCampaignsFound)
  {
  }

  /** The brand listing counts campaigns it does not list: the count is at least the listed number. */
  lemma {:induction false} BrandCountCoversListed(cs: seq<Campaign>, brandId: string)
    ensures |Where(cs, brandId, true)| <= |Where(cs, brandId, false)|
  {
    if cs != [] {
      BrandCountCoversListed(cs[1..], brandId);
    }
  }

  /** A brand campaign whose status is not "active" is counted but never listed, so the count exceeds the listing. */
  lemma {:induction false} InactiveCountedNotListed(cs: seq<Campaign>, brandId: string, i: nat)
    requires i < |cs| && cs[i].brandId == brandId && cs[i].status != "active"
    ensures cs[i] !in Where(cs, brandId, true) && cs[i] in Where(cs, brandId, false)
    ensures |Where(cs, brandId, true)| < |Where(cs, brandId, false)|
  {
    if i == 0 {
      BrandCountCoversListed(cs[1..], brandId);
    } else {
      InactiveCountedNotListed(cs[1..], brandId, i - 1);
    }
  }

  // ---- Lookups ----

  function FindCampaign(cs: seq<Campaign>, id: string): (r: Option<nat>)
    ensures r.Some? ==> r.value < |cs| && cs[r.value].id == id
    ensures r.None? ==> forall j :: 0 <= j < |cs| ==> cs[j].id != id
  {
    if cs == [] then None
    else if cs[0].id == id then Some(0)
    else match FindCampaign(cs[1..], id)
      case None => None
      case Some(k) => Some(k + 1)
  }

  predicate OwnedBy(c: Campaign, id: string, brandId: string, liveOnly: bool)
  {
    c.id == id && c.brandId == brandId && (liveOnly ==> !c.isDeleted)
  }

  function FindOwned(cs: seq<Campaign>, id: string, brandId: string, liveOnly: bool): (r: Option<nat>)
    ensures r.Some? ==> r.value < |cs| && OwnedBy(cs[r.value], id, brandId, liveOnly)
    ensures r.None? ==> forall j :: 0 <= j < |cs| ==> !OwnedBy(cs[j], id, brandId, liveOnly)
  {
    if cs == [] then None
    else if OwnedBy(cs[0], id, brandId, liveOnly) then Some(0)
    else match FindOwned(cs[1..], id, brandId, liveOnly)
      case None => None
      case Some(k) => Some(k + 1)
  }

  /** The query shapes `findOne`/`findOneAndUpdate` use on invitations. */
  datatype Query =
    | ForPair(campaignId: string, influencerId: string)
    | ForTriple(campaignId: string, influencerId: string, brandId: string)
    | PendingSentBy(campaignId: string, influencerId: string, brandId: string)
    | PendingReceivedBy(campaignId: string, influencerId: string, brandId: string)
    | ApplicationOf(campaignId: string, influencerId: string)

  predicate Selects(q: Query, v: Invitation)
  {
    match q
    case ForPair(c, i) => v.campaignId == c && v.influencerId == i
    case ForTriple(c, i, b) => v.campaignId == c && v.influencerId == i && v.brandId == b
    case PendingSentBy(c, i, b) =>
      v.campaignId == c && v.influencerId == i && v.brandId == b && v.status == Pending && v.sender == i
    case PendingReceivedBy(c, i, b) =>
      v.campaignId == c && v.influencerId == i && v.brandId == b && v.status == Pending && v.receiver == i
    case ApplicationOf(c, i) => v.campaignId == c && v.influencerId == i && v.sender == i
  }

  function FindInvitation(vs: seq<Invitation>, q: Query): (r: Option<nat>)
    ensures r.Some? ==> r.value < |vs| && Selects(q, vs[r.value])
    ensures r.None? ==> forall j :: 0 <= j < |vs| ==> !Selects(q, vs[j])
  {
    if vs == [] then None
    else if Selects(q, vs[0]) then Some(0)
    else match FindInvitation(vs[1..], q)
      case None => None
      case Some(k) => Some(k + 1)
  }

  // ---- Invariants ----

  /** The unique index on (campaignId, influencerId). */
  predicate UniquePairs(vs: seq<Invitation>)
  {
    forall i, j :: 0 <= i < j < |vs| ==> !(vs[i].campaignId == vs[j].campaignId && vs[i].influencerId == vs[j].influencerId)
  }

  predicate NoDuplicates(s: seq<string>)
  {
    forall i, j :: 0 <= i < j < |s| ==> s[i] != s[j]
  }

  /** Campaign `_id`s are unique. */
  predicate UniqueCampaignIds(cs: seq<Campaign>)
  {
    forall i, j :: 0 <= i < j < |cs| ==> cs[i].id != cs[j].id
  }

  predicate StoreValid(st: Store)
  {
    UniquePairs(st.invitations) && UniqueCampaignIds(st.campaigns) && forall k :: 0 <= k < |st.campaigns| ==> NoDuplicates(st.campaigns[k].influencers)
  }

  /** `$addToSet`. */
  function AddToSet(s: seq<string>, x: string): (r: seq<string>)
    ensures x in r && forall y :: y in s ==> y in r
    ensures NoDuplicates(s) ==> NoDuplicates(r)
  {
    if x in s then s else s + [x]
  }

  // ---- Operation outcomes ----

  /** `applyToCampaign`; the tier check is disabled in the source, so followers play no part. */
  function ApplyOutcome(st: Store, campaignId: string, influencerId: string, message: Option<string>, offer: Option<Offer>,
                        now: int, validId: string -> bool)
    : (Result<Invitation, CampaignError>, Store)
  {
    if !validId(campaignId) then (Err(InvalidCampaignId), st)
    else if !validId(influencerId) then (Err(InvalidInfluencerId), st)
    else match FindCampaign(st.campaigns, campaignId)
      case None => (Err(CampaignNotFound), st)
      case Some(k) =>
        var c := st.campaigns[k];
        if influencerId !in st.influencers then (Err(InfluencerNotFound), st)
        else if FindInvitation(st.invitations, ForPair(campaignId, influencerId)).Some? then (Err(AlreadyApplied), st)
        else if influencerId in c.influencers then (Err(AlreadyEnrolled), st)
        else
          var v := Invitation(campaignId, influencerId, c.brandId, influencerId, c.brandId, Pending,
                              message, offer, now);
          (Ok(v), st.(invitations := st.invitations + [v]))
  }

  /** `inviteToCampaign`: like applying, but the campaign must belong to the inviting brand. */
  function InviteOutcome(st: Store, campaignId: string, brandId: string, influencerId: string, message: Option<string>,
                         now: int, validId: string -> bool)
    : (Result<Invitation, CampaignError>, Store)
  {
    if !validId(campaignId) then (Err(InvalidCampaignId), st)
    else if !validId(brandId) then (Err(InvalidBrandId), st)
    else if !validId(influencerId) then (Err(InvalidInfluencerId), st)
    else match FindOwned(st.campaigns, campaignId, brandId, false)
      case None => (Err(CampaignNotFound), st)
      case Some(k) =>
        var c := st.campaigns[k];
        if influencerId !in st.influencers then (Err(InfluencerNotFound), st)
        else if FindInvitation(st.invitations, ForPair(campaignId, influencerId)).Some? then (Err(AlreadyApplied), st)
        else if influencerId in c.influencers then (Err(AlreadyEnrolled), st)
        else
          var v := Invitation(campaignId, influencerId, brandId, brandId, influencerId, Pending, message, None, now);
          (Ok(v), st.(invitations := st.invitations + [v]))
  }

  function CheckIds(validId: string -> bool, brandId: string, campaignId: string, influencerId: string, brandFirst: bool)
    : Option<CampaignError>
  {
    if brandFirst then
      if !validId(brandId) then Some(InvalidBrandId)
      else if !validId(campaignId) then Some(InvalidCampaignId)
      else if !validId(influencerId) then Some(InvalidInfluencerId)
      else None
    else
      if !validId(influencerId) then Some(InvalidInfluencerId)
      else if !validId(campaignId) then Some(InvalidCampaignId)
      else if !validId(brandId) then Some(InvalidBrandId)
      else None
  }

  function SetStatus(st: Store, i: nat, s: InvitationStatus): Store
    requires i < |st.invitations|
  {
    st.(invitations := st.invitations[i := st.invitations[i].(status := s)])
  }

  /** `rejectInfluencerForCampaign`: the first invitation for the triple becomes rejected, whatever its status or sender. */
  function RejectInfluencerOutcome(st: Store, brandId: string, campaignId: string, influencerId: string,
                                   validId: string -> bool)
    : (Result<Invitation, CampaignError>, Store)
  {
    match CheckIds(validId, brandId, campaignId, influencerId, true)
    case Some(e) => (Err(e), st)
    case None =>
      match FindInvitation(st.invitations, ForTriple(campaignId, influencerId, brandId))
      case None => (Err(InvitationNotFound), st)
      case Some(i) => (Ok(st.invitations[i].(status := Rejected)), SetStatus(st, i, Rejected))
  }

  /**
   * The accept step shared by both sides: the selected pending invitation
   * becomes accepted, then the influencer is added to the brand's campaign.
   * With no such campaign the error is reported but the acceptance stays.
   */
  function AcceptOutcome(st: Store, q: Query, brandId: string, campaignId: string, influencerId: string)
    : (Result<Invitation, CampaignError>, Store)
  {
    match FindInvitation(st.invitations, q)
    case None => (Err(InvitationNotFound), st)
    case Some(i) =>
      var st1 := SetStatus(st, i, Accepted);
      match FindOwned(st.campaigns, campaignId, brandId, false)
      case None => (Err(CampaignNotFound), st1)
      case Some(k) =>
        var c := st.campaigns[k];
        (Ok(st1.invitations[i]), st1.(campaigns := st.campaigns[k := c.(influencers := AddToSet(c.influencers, influencerId))]))
  }

  /** `acceptInfluencerForCampaign`: the brand accepts an application (sender = influencer). */
  function AcceptInfluencerOutcome(st: Store, brandId: string, campaignId: string, influencerId: string,
                                   validId: string -> bool)
    : (Result<Invitation, CampaignError>, Store)
  {
    match CheckIds(validId, brandId, campaignId, influencerId, true)
    case Some(e) => (Err(e), st)
    case None => AcceptOutcome(st, PendingSentBy(campaignId, influencerId, brandId), brandId, campaignId, influencerId)
  }

  /** `acceptCampaignInvitation`: the influencer accepts an invitation (receiver = influencer). */
  function AcceptInvitationOutcome(st: Store, influencerId: string, campaignId: string, brandId: string,
                                   validId: string -> bool)
    : (Result<Invitation, CampaignError>, Store)
  {
    match CheckIds(validId, brandId, campaignId, influencerId, false)
    case Some(e) => (Err(e), st)
    case None => AcceptOutcome(st, PendingReceivedBy(campaignId, influencerId, brandId), brandId, campaignId, influencerId)
  }

  /** `rejectCampaignInvitation`: only a pending invitation received by the influencer. */
  function RejectInvitationOutcome(st: Store, influencerId: string, campaignId: string, brandId: string,
                                   validId: string -> bool)
    : (Result<Invitation, CampaignError>, Store)
  {
    match CheckIds(validId, brandId, campaignId, influencerId, false)
    case Some(e) => (Err(e), st)
    case None =>
      match FindInvitation(st.invitations, PendingReceivedBy(campaignId, influencerId, brandId))
      case None => (Err(InvitationNotFound), st)
      case Some(i) => (Ok(st.invitations[i].(status := Rejected)), SetStatus(st, i, Rejected))
  }

  const FiveHoursMs: int := 5 * 60 * 60 * 1000

  /** `hoursSinceApplied > 5`, on exact milliseconds. */
  predicate EditWindowPassed(appliedAt: int, now: int)
  {
    (now - appliedAt) as real / 3600000.0 > 5.0
  }

  lemma EditWindowInMs(appliedAt: int, now: int)
    ensures EditWindowPassed(appliedAt, now) <==> now - appliedAt > FiveHoursMs
  {
  }

  /** `editApplication`: within the window, sets only the supplied message and offer. */
  function EditOutcome(st: Store, influencerId: string, campaignId: string, message: Option<string>, offer: Option<Offer>,
                       now: int, validId: string -> bool)
    : (Result<Invitation, CampaignError>, Store)
  {
    if !validId(influencerId) then (Err(InvalidInfluencerId), st)
    else if !validId(campaignId) then (Err(InvalidCampaignId), st)
    else match FindInvitation(st.invitations, ApplicationOf(campaignId, influencerId))
      case None => (Err(InvitationNotFound), st)
      case Some(i) =>
        var v := st.invitations[i];
        if EditWindowPassed(v.appliedAt, now) then (Err(EditWindowClosed), st)
        else
          var v1 := if message.Some? then v.(message := message) else v;
          var v2 := if offer.Some? then v1.(offer := offer) else v1;
          (Ok(v2), st.(invitations := st.invitations[i := v2]))
  }

  /** `deleteCampaign`: a soft delete of the brand's campaign that is not yet deleted. */
  function DeleteOutcome(st: Store, brandId: string, campaignId: string, validId: string -> bool)
    : (Result<Campaign, CampaignError>, Store)
  {
    if !validId(brandId) then (Err(InvalidBrandId), st)
    else if !validId(campaignId) then (Err(InvalidCampaignId), st)
    else match FindOwned(st.campaigns, campaignId, brandId, true)
      case None => (Err(CampaignNotFound), st)
      case Some(k) =>
        var c := st.campaigns[k].(isDeleted := true);
        (Ok(c), st.(campaigns := st.campaigns[k := c]))
  }

  // ---- The store ----

  class CampaignProvider {
    var campaigns: seq<Campaign>
    var invitations: seq<Invitation>
    /** Influencer id to follower count. */
    var influencers: map<string, int>
    const validId: string -> bool

    function Current(): Store
      reads this
    {
      Store(campaigns, invitations, influencers)
    }

    constructor (campaigns: seq<Campaign>, influencers: map<string, int>, validId: string -> bool)
      ensures Current() == Store(campaigns, [], influencers) && this.validId == validId
    {
      this.campaigns := campaigns;
      this.invitations := [];
      this.influencers := influencers;
      this.validId := validId;
    }

    method ApplyToCampaign(campaignId: string, influencerId: string, message: Option<string>, offer: Option<Offer>, now: int)
      returns (r: Result<Invitation, CampaignError>)
      modifies this`invitations
      ensures (r, Current()) == ApplyOutcome(old(Current()), campaignId, influencerId, message, offer, now, validId)
    {
      if !validId(campaignId) { return Err(InvalidCampaignId); }
      if !validId(influencerId) { return Err(InvalidInfluencerId); }
      var found := FindCampaign(campaigns, campaignId);
      if found.None? { return Err(CampaignNotFound); }
      var campaign := campaigns[found.value];
      if influencerId !in influencers { return Err(InfluencerNotFound); }
      var tier := TierOf(influencers[influencerId]);
      if FindInvitation(invitations, ForPair(campaignId, influencerId)).Some? { return Err(AlreadyApplied); }
      if influencerId in campaign.influencers { return Err(AlreadyEnrolled); }
      var v := Invitation(campaignId, influencerId, campaign.brandId, influencerId, campaign.brandId, Pending,
                          message, offer, now);
      invitations := invitations + [v];
      r := Ok(v);
    }

    method InviteToCampaign(campaignId: string, brandId: string, influencerId: string, message: Option<string>, now: int)
      returns (r: Result<Invitation, CampaignError>)
      modifies this`invitations
      ensures (r, Current()) == InviteOutcome(old(Current()), campaignId, brandId, influencerId, message, now, validId)
    {
      if !validId(campaignId) { return Err(InvalidCampaignId); }
      if !validId(brandId) { return Err(InvalidBrandId); }
      if !validId(influencerId) { return Err(InvalidInfluencerId); }
      var found := FindOwned(campaigns, campaignId, brandId, false);
      if found.None? { return Err(CampaignNotFound); }
      var campaign := campaigns[found.value];
      if influencerId !in influencers { return Err(InfluencerNotFound); }
      if FindInvitation(invitations, ForPair(campaignId, influencerId)).Some? { return Err(AlreadyApplied); }
      if influencerId in campaign.influencers { return Err(AlreadyEnrolled); }
      var v := Invitation(campaignId, influencerId, brandId, brandId, influencerId, Pending, message, None, now);
      invitations := invitations + [v];
      r := Ok(v);
    }

    method RejectInfluencerForCampaign(brandId: string, campaignId: string, influencerId: string)
      returns (r: Result<Invitation, CampaignError>)
      modifies this`invitations
      ensures (r, Current()) == RejectInfluencerOutcome(old(Current()), brandId, campaignId, influencerId, validId)
    {
      var bad := CheckIds(validId, brandId, campaignId, influencerId, true);
      if bad.Some? { return Err(bad.value); }
      var found := FindInvitation(invitations, ForTriple(campaignId, influencerId, brandId));
      if found.None? { return Err(InvitationNotFound); }
      invitations := invitations[found.value := invitations[found.value].(status := Rejected)];
      r := Ok(invitations[found.value]);
    }

    /** The accept step of both sides. */
    method Accept(q: Query, brandId: string, campaignId: string, influencerId: string)
      returns (r: Result<Invitation, CampaignError>)
      modifies this`invitations, this`campaigns
      ensures (r, Current()) == AcceptOutcome(old(Current()), q, brandId, campaignId, influencerId)
    {
      var found := FindInvitation(invitations, q);
      if found.None? { return Err(InvitationNotFound); }
      var i := found.value;
      invitations := invitations[i := invitations[i].(status := Accepted)];
      var owned := FindOwned(campaigns, campaignId, brandId, false);
      if owned.None? { return Err(CampaignNotFound); }
      var k := owned.value;
      campaigns := campaigns[k := campaigns[k].(influencers := AddToSet(campaigns[k].influencers, influencerId))];
      r := Ok(invitations[i]);
    }

    method AcceptInfluencerForCampaign(brandId: string, campaignId: string, influencerId: string)
      returns (r: Result<Invitation, CampaignError>)
      modifies this`invitations, this`campaigns
      ensures (r, Current()) == AcceptInfluencerOutcome(old(Current()), brandId, campaignId, influencerId, validId)
    {
      var bad := CheckIds(validId, brandId, campaignId, influencerId, true);
      if bad.Some? { return Err(bad.value); }
      r := Accept(PendingSentBy(campaignId, influencerId, brandId), brandId, campaignId, influencerId);
    }

    method AcceptCampaignInvitation(influencerId: string, campaignId: string, brandId: string)
      returns (r: Result<Invitation, CampaignError>)
      modifies this`invitations, this`campaigns
      ensures (r, Current()) == AcceptInvitationOutcome(old(Current()), influencerId, campaignId, brandId, validId)
    {
      var bad := CheckIds(validId, brandId, campaignId, influencerId, false);
      if bad.Some? { return Err(bad.value); }
      r := Accept(PendingReceivedBy(campaignId, influencerId, brandId), brandId, campaignId, influencerId);
    }

    method RejectCampaignInvitation(influencerId: string, campaignId: string, brandId: string)
      returns (r: Result<Invitation, CampaignError>)
      modifies this`invitations
      ensures (r, Current()) == RejectInvitationOutcome(old(Current()), influencerId, campaignId, brandId, validId)
    {
      var bad := CheckIds(validId, brandId, campaignId, influencerId, false);
      if bad.Some? { return Err(bad.value); }
      var found := FindInvitation(invitations, PendingReceivedBy(campaignId, influencerId, brandId));
      if found.None? { return Err(InvitationNotFound); }
      invitations := invitations[found.value := invitations[found.value].(status := Rejected)];
      r := Ok(invitations[found.value]);
    }

    method EditApplication(influencerId: string, campaignId: string, message: Option<string>, offer: Option<Offer>, now: int)
      returns (r: Result<Invitation, CampaignError>)
      modifies this`invitations
      ensures (r, Current()) == EditOutcome(old(Current()), influencerId, campaignId, message, offer, now, validId)
    {
      if !validId(influencerId) { return Err(InvalidInfluencerId); }
      if !validId(campaignId) { return Err(InvalidCampaignId); }
      var found := FindInvitation(invitations, ApplicationOf(campaignId, influencerId));
      if found.None? { return Err(InvitationNotFound); }
      var i := found.value;
      var hoursSinceApplied := (now - invitations[i].appliedAt) as real / 3600000.0;
      if hoursSinceApplied > 5.0 { return Err(EditWindowClosed); }
      var v := invitations[i];
      if message.Some? { v := v.(message := message); }
      if offer.Some? { v := v.(offer := offer); }
      invitations := invitations[i := v];
      r := Ok(v);
    }

    method DeleteCampaign(brandId: string, campaignId: string) returns (r: Result<Campaign, CampaignError>)
      modifies this`campaigns
      ensures (r, Current()) == DeleteOutcome(old(Current()), brandId, campaignId, validId)
    {
      if !validId(brandId) { return Err(InvalidBrandId); }
      if !validId(campaignId) { return Err(InvalidCampaignId); }
      var found := FindOwned(campaigns, campaignId, brandId, true);
      if found.None? { return Err(CampaignNotFound); }
      var c := campaigns[found.value].(isDeleted := true);
      campaigns := campaigns[found.value := c];
      r := Ok(c);
    }
  }

  // ---- Properties ----

  /** Appending an invitation for a pair that has none keeps pairs unique. */
  lemma AppendKeepsUnique(vs: seq<Invitation>, v: Invitation)
    requires UniquePairs(vs) && FindInvitation(vs, ForPair(v.campaignId, v.influencerId)).None?
    ensures UniquePairs(vs + [v])
  {
    var ws := vs + [v];
    forall i, j | 0 <= i < j < |ws|
      ensures !(ws[i].campaignId == ws[j].campaignId && ws[i].influencerId == ws[j].influencerId)
    {
      if j == |vs| {
        assert !Selects(ForPair(v.campaignId, v.influencerId), vs[i]);
      }
    }
  }

  /** An application is refused when the pair already has an invitation or the influencer is enrolled; otherwise it is a new pending application. */
  lemma ApplyBehaviour(st: Store, campaignId: string, influencerId: string, message: Option<string>, offer: Option<Offer>,
                       now: int, validId: string -> bool)
    ensures var (r, after) := ApplyOutcome(st, campaignId, influencerId, message, offer, now, validId);
      && (r.Err? ==> after == st)
      && (FindInvitation(st.invitations, ForPair(campaignId, influencerId)).Some? ==> r.Err?)
      && (r.Ok? ==> var c := st.campaigns[FindCampaign(st.campaigns, campaignId).value];
            && influencerId !in c.influencers
            && r.value.status == Pending && r.value.sender == influencerId && r.value.receiver == c.brandId
            && r.value.brandId == c.brandId && r.value.appliedAt == now
            && after == st.(invitations := st.invitations + [r.value]))
  {
  }

  /** An invitation needs the brand's own campaign; it is pending, sent by the brand to the influencer. */
  lemma InviteBehaviour(st: Store, campaignId: string, brandId: string, influencerId: string, message: Option<string>,
                        now: int, validId: string -> bool)
    ensures var (r, after) := InviteOutcome(st, campaignId, brandId, influencerId, message, now, validId);
      && (r.Err? ==> after == st)
      && (FindInvitation(st.invitations, ForPair(campaignId, influencerId)).Some? ==> r.Err?)
      && (r.Ok? ==>
            (&& FindOwned(st.campaigns, campaignId, brandId, false).Some?
             && r.value.status == Pending && r.value.sender == brandId && r.value.receiver == influencerId
             && after == st.(invitations := st.invitations + [r.value])))
  {
  }

  /** Applying and inviting keep at most one invitation per (campaign, influencer). */
  lemma CreationKeepsUniquePairs(st: Store, campaignId: string, brandId: string, influencerId: string, message: Option<string>,
                                 offer: Option<Offer>, now: int, validId: string -> bool)
    requires UniquePairs(st.invitations)
    ensures UniquePairs(ApplyOutcome(st, campaignId, influencerId, message, offer, now, validId).1.invitations)
    ensures UniquePairs(InviteOutcome(st, campaignId, brandId, influencerId, message, now, validId).1.invitations)
  {
    var r1 := ApplyOutcome(st, campaignId, influencerId, message, offer, now, validId);
    if r1.0.Ok? {
      AppendKeepsUnique(st.invitations, r1.0.value);
    }
    var r2 := InviteOutcome(st, campaignId, brandId, influencerId, message, now, validId);
    if r2.0.Ok? {
      AppendKeepsUnique(st.invitations, r2.0.value);
    }
  }

  /** Status changes keep every key field, so they keep pairs unique. */
  lemma SetStatusKeepsUnique(st: Store, i: nat, s: InvitationStatus)
    requires UniquePairs(st.invitations) && i < |st.invitations|
    ensures UniquePairs(SetStatus(st, i, s).invitations)
  {
  }

  /** Acceptance changes only a pending invitation the query selects, and enrols the influencer once. */
  lemma AcceptBehaviour(st: Store, q: Query, brandId: string, campaignId: string, influencerId: string)
    requires StoreValid(st)
    ensures var (r, after) := AcceptOutcome(st, q, brandId, campaignId, influencerId);
      && StoreValid(after)
      && (FindInvitation(st.invitations, q).None? ==> r == Err(InvitationNotFound) && after == st)
      && (FindInvitation(st.invitations, q).Some? ==>
            var i := FindInvitation(st.invitations, q).value;
            && after.invitations == st.invitations[i := st.invitations[i].(status := Accepted)]
            && (r.Ok? ==> var k := FindOwned(st.campaigns, campaignId, brandId, false).value;
                  influencerId in after.campaigns[k].influencers))
  {
    var (r, after) := AcceptOutcome(st, q, brandId, campaignId, influencerId);
    if FindInvitation(st.invitations, q).Some? {
      SetStatusKeepsUnique(st, FindInvitation(st.invitations, q).value, Accepted);
    }
  }

  /** The brand accepts only a pending application, the influencer only a pending invitation addressed to them. */
  lemma AcceptSides(st: Store, brandId: string, campaignId: string, influencerId: string, validId: string -> bool)
    ensures var (r, after) := AcceptInfluencerOutcome(st, brandId, campaignId, influencerId, validId);
      after != st ==> exists i :: 0 <= i < |st.invitations| && st.invitations[i].status == Pending
                               && st.invitations[i].sender == influencerId && st.invitations[i].campaignId == campaignId
    ensures var (r, after) := AcceptInvitationOutcome(st, influencerId, campaignId, brandId, validId);
      after != st ==> exists i :: 0 <= i < |st.invitations| && st.invitations[i].status == Pending
                               && st.invitations[i].receiver == influencerId && st.invitations[i].campaignId == campaignId
  {
    var (r1, a1) := AcceptInfluencerOutcome(st, brandId, campaignId, influencerId, validId);
    if a1 != st {
      var i := FindInvitation(st.invitations, PendingSentBy(campaignId, influencerId, brandId)).value;
      assert st.invitations[i].status == Pending;
    }
    var (r2, a2) := AcceptInvitationOutcome(st, influencerId, campaignId, brandId, validId);
    if a2 != st {
      var i := FindInvitation(st.invitations, PendingReceivedBy(campaignId, influencerId, brandId)).value;
      assert st.invitations[i].status == Pending;
    }
  }

  /** The only invitation for a pair, once no longer pending, is never selected by a pending query again. */
  lemma {:induction false} NoPendingAfterChange(vs: seq<Invitation>, i: nat, s: InvitationStatus, q: Query)
    requires UniquePairs(vs) && i < |vs| && s != Pending
    requires q.PendingSentBy? || q.PendingReceivedBy?
    requires Selects(q, vs[i])
    ensures FindInvitation(vs[i := vs[i].(status := s)], q).None?
  {
    var ws := vs[i := vs[i].(status := s)];
    forall j | 0 <= j < |ws|
      ensures !Selects(q, ws[j])
    {
      if j != i {
        assert !(vs[j].campaignId == vs[i].campaignId && vs[j].influencerId == vs[i].influencerId);
      }
    }
  }

  /** Accepting the same application twice: the second attempt finds nothing and changes nothing. */
  lemma RepeatAcceptRefused(st: Store, brandId: string, campaignId: string, influencerId: string, validId: string -> bool)
    requires StoreValid(st) && AcceptInfluencerOutcome(st, brandId, campaignId, influencerId, validId).0.Ok?
    ensures var after := AcceptInfluencerOutcome(st, brandId, campaignId, influencerId, validId).1;
      AcceptInfluencerOutcome(after, brandId, campaignId, influencerId, validId) == (Err(InvitationNotFound), after)
  {
    var q := PendingSentBy(campaignId, influencerId, brandId);
    var i := FindInvitation(st.invitations, q).value;
    NoPendingAfterChange(st.invitations, i, Accepted, q);
  }

  /** Enrolling through `$addToSet` twice leaves the influencer listed once. */
  lemma AddToSetIdempotent(s: seq<string>, x: string)
    ensures AddToSet(AddToSet(s, x), x) == AddToSet(s, x)
    ensures multiset(AddToSet(s, x))[x] == (if x in s then multiset(s)[x] else 1)
  {
  }

  /** The brand-side reject needs no pending status or sender; neither reject touches campaigns. */
  lemma RejectBehaviour(st: Store, brandId: string, campaignId: string, influencerId: string, validId: string -> bool)
    requires CheckIds(validId, brandId, campaignId, influencerId, true).None?
    requires CheckIds(validId, brandId, campaignId, influencerId, false).None?
    ensures var (r, after) := RejectInfluencerOutcome(st, brandId, campaignId, influencerId, validId);
      && after.campaigns == st.campaigns
      && (FindInvitation(st.invitations, ForTriple(campaignId, influencerId, brandId)).Some? ==> r.Ok? && r.value.status == Rejected)
    ensures var (r, after) := RejectInvitationOutcome(st, influencerId, campaignId, brandId, validId);
      && after.campaigns == st.campaigns
      && (r.Ok? <==> FindInvitation(st.invitations, PendingReceivedBy(campaignId, influencerId, brandId)).Some?)
  {
  }

  /** A brand may reject an application it already accepted; the influencer stays enrolled. */
  lemma RejectAfterAccept(st: Store, brandId: string, campaignId: string, influencerId: string, validId: string -> bool)
    requires StoreValid(st) && AcceptInfluencerOutcome(st, brandId, campaignId, influencerId, validId).0.Ok?
    ensures var after := AcceptInfluencerOutcome(st, brandId, campaignId, influencerId, validId).1;
      var (r, final) := RejectInfluencerOutcome(after, brandId, campaignId, influencerId, validId);
      r.Ok? && final.campaigns == after.campaigns
  {
    var i := FindInvitation(st.invitations, PendingSentBy(campaignId, influencerId, brandId)).value;
    var after := AcceptInfluencerOutcome(st, brandId, campaignId, influencerId, validId).1;
    assert Selects(ForTriple(campaignId, influencerId, brandId), after.invitations[i]);
  }

  /** Exactly five hours after applying an edit is allowed; one millisecond later it is refused. */
  lemma EditWindowBoundary(st: Store, influencerId: string, campaignId: string, message: Option<string>, offer: Option<Offer>,
                           validId: string -> bool)
    requires validId(influencerId) && validId(campaignId)
    requires FindInvitation(st.invitations, ApplicationOf(campaignId, influencerId)).Some?
    ensures var v := st.invitations[FindInvitation(st.invitations, ApplicationOf(campaignId, influencerId)).value];
      && EditOutcome(st, influencerId, campaignId, message, offer, v.appliedAt + FiveHoursMs, validId).0.Ok?
      && EditOutcome(st, influencerId, campaignId, message, offer, v.appliedAt + FiveHoursMs + 1, validId).0 == Err(EditWindowClosed)
  {
    var v := st.invitations[FindInvitation(st.invitations, ApplicationOf(campaignId, influencerId)).value];
    EditWindowInMs(v.appliedAt, v.appliedAt + FiveHoursMs);
    EditWindowInMs(v.appliedAt, v.appliedAt + FiveHoursMs + 1);
  }

  /** An edit changes only the supplied message and offer of the application. */
  lemma EditChangesOnlySupplied(st: Store, influencerId: string, campaignId: string, message: Option<string>,
                                offer: Option<Offer>, now: int, validId: string -> bool)
    requires EditOutcome(st, influencerId, campaignId, message, offer, now, validId).0.Ok?
    ensures var (r, after) := EditOutcome(st, influencerId, campaignId, message, offer, now, validId);
      var i := FindInvitation(st.invitations, ApplicationOf(campaignId, influencerId)).value;
      var v := st.invitations[i];
      && after.invitations == st.invitations[i := r.value]
      && r.value == v.(message := if message.Some? then message else v.message,
                       offer := if offer.Some? then offer else v.offer)
      && now - v.appliedAt <= FiveHoursMs
  {
    var i := FindInvitation(st.invitations, ApplicationOf(campaignId, influencerId)).value;
    EditWindowInMs(st.invitations[i].appliedAt, now);
  }

  /** A second delete of the same campaign reports it not found and changes nothing. */
  lemma DeleteOnce(st: Store, brandId: string, campaignId: string, validId: string -> bool)
    requires UniqueCampaignIds(st.campaigns) && DeleteOutcome(st, brandId, campaignId, validId).0.Ok?
    ensures var after := DeleteOutcome(st, brandId, campaignId, validId).1;
      && after.campaigns[FindOwned(st.campaigns, campaignId, brandId, true).value].isDeleted
      && DeleteOutcome(after, brandId, campaignId, validId) == (Err(CampaignNotFound), after)
  {
    var k := FindOwned(st.campaigns, campaignId, brandId, true).value;
    var after := DeleteOutcome(st, brandId, campaignId, validId).1;
    forall j | 0 <= j < |after.campaigns|
      ensures !OwnedBy(after.campaigns[j], campaignId, brandId, true)
    {
      if j < k {
        assert st.campaigns[j].id != st.campaigns[k].id;
      } else if j > k {
        assert st.campaigns[k].id != st.campaigns[j].id;
      }
    }
  }
}
