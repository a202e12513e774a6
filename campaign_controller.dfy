/**
 * The guards of the campaign HTTP handlers: who must be signed in, which path
 * id must be the signed-in user, which body field must be present, how the
 * `page`/`limit` query strings become numbers, and when a chat room is opened.
 * Each handler then hands over to the campaign store of module `Campaigns`.
 */
module CampaignControllers {
  import opened Common
  import opened Campaigns

  /** `parseInt(q) || d`: a missing query, `NaN` and `0` are all falsy and give the default. */
  function QueryNumber(q: Option<string>, d: int): (r: int)
    ensures r == d || (q.Some? && JsParseInt(q.value) == Some(r) && r != 0)
    ensures q.None? ==> r == d
  {
    if q.None? then d
    else match JsParseInt(q.value)
      case None => d
      case Some(n) => if n == 0 then d else n
  }

  const DefaultPage := 1
  const DefaultLimit := 10

  /** Missing and zero values fall back to the default. */
  lemma QueryNumberFallbacks(d: int)
    ensures QueryNumber(None, d) == d
    ensures QueryNumber(Some("0"), d) == d
  {
    JsParseIntOfDecimal(0, []);
    assert NatToDecimal(0) + [] == "0";
  }

  /** A value starting with a letter is `NaN` to `parseInt` and falls back as well. */
  lemma NonNumericFallsBack(q: string, d: int)
    requires q != [] && IsAsciiLetter(q[0])
    ensures QueryNumber(Some(q), d) == d
  {
    JsParseIntOfLetter(q);
  }

  /** A non-zero number, with any non-numeric tail, passes through unchanged, negative ones included. */
  lemma QueryNumberPassesThrough(n: nat, tail: string, d: int)
    requires n > 0 && EndsNumeral(tail)
    ensures QueryNumber(Some(NatToDecimal(n) + tail), d) == n
    ensures QueryNumber(Some("-" + NatToDecimal(n) + tail), d) == -(n as int)
  {
    JsParseIntOfDecimal(n, tail);
    JsParseIntOfNegative(n, tail);
  }

  /** The handlers of `CampaignController`. */
  datatype Handler =
    | ListAll | ListByBrand | GetCampaignById | CreateCampaign | DeleteCampaign
    | RejectInfluencer | AcceptInfluencer | UpdateCampaign | ApplyToCampaign | InviteToCampaign
    | AppliedForBrand | RecommendedInfluencers | RegisteredForInfluencer | AppliedByInfluencer
    | EditApplication | GetApplication | GetApplications | GetInvitations
    | AcceptInvitation | RejectInvitation

  /** Which path parameter must equal the signed-in user's id. */
  datatype Owner = BrandParam | InfluencerParam | AnyUser

  /** The two listings never read the signed-in user. */
  predicate Authenticates(h: Handler)
  {
    !(h.ListAll? || h.ListByBrand?)
  }

  /** `getCampaignById` has its ownership test commented out; `getAppliedCampaignsForBrand` tests the brand id. */
  function OwnerOf(h: Handler): Owner
  {
    match h
    case ListAll => AnyUser
    case ListByBrand => AnyUser
    case GetCampaignById => AnyUser
    case CreateCampaign => BrandParam
    case DeleteCampaign => BrandParam
    case RejectInfluencer => BrandParam
    case AcceptInfluencer => BrandParam
    case UpdateCampaign => BrandParam
    case InviteToCampaign => BrandParam
    case AppliedForBrand => BrandParam
    case RecommendedInfluencers => BrandParam
    case _ => InfluencerParam
  }

  /** The handlers that read `influencerId` from the body rather than the path. */
  predicate NeedsBodyInfluencer(h: Handler)
  {
    h.RejectInfluencer? || h.AcceptInfluencer? || h.InviteToCampaign?
  }

  datatype Body = Body(influencerId: Option<string>, message: Option<string>, offer: Option<Offer>)

  /**
   * One request: the signed-in user id (`getUserData`), the path parameters,
   * the `page`/`limit` query strings, the body and the time it arrives.
   */
  datatype Request = Request(user: Option<string>, brandId: string, influencerId: string, campaignId: string,
                             page: Option<string>, limit: Option<string>, body: Body, now: int)

  datatype ControllerError = NotAuthenticated | NotAuthorized | InfluencerIdRequired | Service(e: CampaignError)

  /** `!influencerId`: absent or the empty string. */
  predicate Falsy(s: Option<string>)
  {
    s.None? || s.value == ""
  }

  /** The checks each handler makes before calling the service, in their order. */
  function Guard(h: Handler, req: Request): (r: Option<ControllerError>)
    ensures r.None? <==>
              (Authenticates(h) ==>
                 (&& req.user.Some?
                  && (OwnerOf(h).BrandParam? ==> req.user.value == req.brandId)
                  && (OwnerOf(h).InfluencerParam? ==> req.user.value == req.influencerId)
                  && (NeedsBodyInfluencer(h) ==> !Falsy(req.body.influencerId))))
  {
    if !Authenticates(h) then None
    else if req.user.None? then Some(NotAuthenticated)
    else if OwnerOf(h).BrandParam? && req.brandId != req.user.value then Some(NotAuthorized)
    else if OwnerOf(h).InfluencerParam? && req.influencerId != req.user.value then Some(NotAuthorized)
    else if NeedsBodyInfluencer(h) && Falsy(req.body.influencerId) then Some(InfluencerIdRequired)
    else None
  }

  /** What a handler answers with; `Delegated` stands for service calls outside this model. */
  datatype Reply = InvitationReply(invitation: Invitation) | CampaignReply(campaign: Campaign) | PageReply(page: PageResult) | Delegated

  /** A chat room between a brand and an influencer. */
  datatype ChatRoom = ChatRoom(brandId: string, influencerId: string)

  function Lift<T>(r: Result<T, CampaignError>, wrap: T -> Reply): Result<Reply, ControllerError>
  {
    match r
    case Ok(v) => Ok(wrap(v))
    case Err(e) => Err(Service(e))
  }

  /** The request after the guard passed: the service call, then the chat room for an acceptance. */
  function Serve(h: Handler, st: Store, rooms: seq<ChatRoom>, validId: string -> bool, req: Request)
    : (Result<Reply, ControllerError>, Store, seq<ChatRoom>)
    requires NeedsBodyInfluencer(h) ==> req.body.influencerId.Some?
  {
    var page := QueryNumber(req.page, DefaultPage);
    var limit := QueryNumber(req.limit, DefaultLimit);
    match h
    case ListAll =>
      (Lift(AllCampaignsPage(st, page, limit), p => PageReply(p)), st, rooms)
    case ListByBrand =>
      (Lift(BrandCampaignsPage(st, req.brandId, page, limit, validId), p => PageReply(p)), st, rooms)
    case DeleteCampaign =>
      var (r, st') := DeleteOutcome(st, req.brandId, req.campaignId, validId);
      (Lift(r, c => CampaignReply(c)), st', rooms)
    case RejectInfluencer =>
      var (r, st') := RejectInfluencerOutcome(st, req.brandId, req.campaignId, req.body.influencerId.value, validId);
      (Lift(r, v => InvitationReply(v)), st', rooms)
    case AcceptInfluencer =>
      var influencerId := req.body.influencerId.value;
      var (r, st') := AcceptInfluencerOutcome(st, req.brandId, req.campaignId, influencerId, validId);
      (Lift(r, v => InvitationReply(v)), st', if r.Ok? then rooms + [ChatRoom(req.brandId, influencerId)] else rooms)
    case ApplyToCampaign =>
      var (r, st') := ApplyOutcome(st, req.campaignId, req.influencerId, req.body.message, req.body.offer, req.now, validId);
      (Lift(r, v => InvitationReply(v)), st', rooms)
    case InviteToCampaign =>
      var (r, st') := InviteOutcome(st, req.campaignId, req.brandId, req.body.influencerId.value, req.body.message,
                                    req.now, validId);
      (Lift(r, v => InvitationReply(v)), st', rooms)
    case EditApplication =>
      var (r, st') := EditOutcome(st, req.influencerId, req.campaignId, req.body.message, req.body.offer, req.now, validId);
      (Lift(r, v => InvitationReply(v)), st', rooms)
    case AcceptInvitation =>
      var (r, st') := AcceptInvitationOutcome(st, req.influencerId, req.campaignId, req.brandId, validId);
      (Lift(r, v => InvitationReply(v)), st', if r.Ok? then rooms + [ChatRoom(req.brandId, req.influencerId)] else rooms)
    case RejectInvitation =>
      var (r, st') := RejectInvitationOutcome(st, req.influencerId, req.campaignId, req.brandId, validId);
      (Lift(r, v => InvitationReply(v)), st', rooms)
    case _ => (Ok(Delegated), st, rooms)
  }

  /** A handler: its guard, then the service. */
  function Handle(h: Handler, st: Store, rooms: seq<ChatRoom>, validId: string -> bool, req: Request)
    : (Result<Reply, ControllerError>, Store, seq<ChatRoom>)
  {
    match Guard(h, req)
    case Some(e) => (Err(e), st, rooms)
    case None => Serve(h, st, rooms, validId, req)
  }

  class CampaignController {
    const provider: CampaignProvider
    var chatRooms: seq<ChatRoom>

    constructor (provider: CampaignProvider)
      ensures this.provider == provider && chatRooms == []
    {
      this.provider := provider;
      chatRooms := [];
    }

    method Dispatch(h: Handler, req: Request) returns (r: Result<Reply, ControllerError>)
      modifies provider, this`chatRooms
      ensures (r, provider.Current(), chatRooms) == Handle(h, old(provider.Current()), old(chatRooms), provider.validId, req)
    {
      var bad := Guard(h, req);
      if bad.Some? {
        return Err(bad.value);
      }
      var page := QueryNumber(req.page, DefaultPage);
      var limit := QueryNumber(req.limit, DefaultLimit);
      match h {
        case ListAll =>
          r := Lift(AllCampaignsPage(provider.Current(), page, limit), p => PageReply(p));
        case ListByBrand =>
          r := Lift(BrandCampaignsPage(provider.Current(), req.brandId, page, limit, provider.validId), p => PageReply(p));
        case DeleteCampaign =>
          var s := provider.DeleteCampaign(req.brandId, req.campaignId);
          r := Lift(s, c => CampaignReply(c));
        case RejectInfluencer =>
          var s := provider.RejectInfluencerForCampaign(req.brandId, req.campaignId, req.body.influencerId.value);
          r := Lift(s, v => InvitationReply(v));
        case AcceptInfluencer =>
          var influencerId := req.body.influencerId.value;
          var s := provider.AcceptInfluencerForCampaign(req.brandId, req.campaignId, influencerId);
          r := Lift(s, v => InvitationReply(v));
          if s.Ok? {
            chatRooms := chatRooms + [ChatRoom(req.brandId, influencerId)];
          }
        case ApplyToCampaign =>
          var s := provider.ApplyToCampaign(req.campaignId, req.influencerId, req.body.message, req.body.offer, req.now);
          r := Lift(s, v => InvitationReply(v));
        case InviteToCampaign =>
          var s := provider.InviteToCampaign(req.campaignId, req.brandId, req.body.influencerId.value, req.body.message, req.now);
          r := Lift(s, v => InvitationReply(v));
        case EditApplication =>
          var s := provider.EditApplication(req.influencerId, req.campaignId, req.body.message, req.body.offer, req.now);
          r := Lift(s, v => InvitationReply(v));
        case AcceptInvitation =>
          var s := provider.AcceptCampaignInvitation(req.influencerId, req.campaignId, req.brandId);
          r := Lift(s, v => InvitationReply(v));
          if s.Ok? {
            chatRooms := chatRooms + [ChatRoom(req.brandId, req.influencerId)];
          }
        case RejectInvitation =>
          var s := provider.RejectCampaignInvitation(req.influencerId, req.campaignId, req.brandId);
          r := Lift(s, v => InvitationReply(v));
        case _ =>
          r := Ok(Delegated);
      }
    }
  }

  // ---- Properties ----

  /** A handler that reads the user refuses an anonymous request before anything else, and changes nothing. */
  lemma AnonymousRefused(h: Handler, st: Store, rooms: seq<ChatRoom>, validId: string -> bool, req: Request)
    requires Authenticates(h) && req.user.None?
    ensures Handle(h, st, rooms, validId, req) == (Err(NotAuthenticated), st, rooms)
  {
  }

  /** Brand-side handlers proceed only for the brand named in the path; influencer-side ones for the named influencer. */
  lemma OwnershipRequired(h: Handler, st: Store, rooms: seq<ChatRoom>, validId: string -> bool, req: Request)
    requires req.user.Some?
    ensures (OwnerOf(h).BrandParam? && req.user.value != req.brandId) ==>
              Handle(h, st, rooms, validId, req) == (Err(NotAuthorized), st, rooms)
    ensures (OwnerOf(h).InfluencerParam? && req.user.value != req.influencerId) ==>
              Handle(h, st, rooms, validId, req) == (Err(NotAuthorized), st, rooms)
  {
  }

  /** Any signed-in user may read any campaign's details. */
  lemma CampaignDetailsOpen(req: Request)
    ensures Guard(GetCampaignById, req).None? <==> req.user.Some?
  {
  }

  /** Reject, accept and invite need a non-empty body `influencerId` even for the owning brand. */
  lemma BodyInfluencerRequired(h: Handler, st: Store, rooms: seq<ChatRoom>, validId: string -> bool, req: Request)
    requires NeedsBodyInfluencer(h) && req.user == Some(req.brandId) && Falsy(req.body.influencerId)
    ensures Handle(h, st, rooms, validId, req) == (Err(InfluencerIdRequired), st, rooms)
  {
  }

  /** A chat room is opened exactly when an acceptance succeeds, between that brand and that influencer. */
  lemma ChatRoomOnlyAfterAccept(h: Handler, st: Store, rooms: seq<ChatRoom>, validId: string -> bool, req: Request)
    ensures var (r, _, rooms') := Handle(h, st, rooms, validId, req);
      && (rooms' != rooms ==> (h.AcceptInfluencer? || h.AcceptInvitation?) && r.Ok?)
      && (rooms' == rooms || exists room :: rooms' == rooms + [room] && room.brandId == req.brandId)
      && ((h.AcceptInfluencer? || h.AcceptInvitation?) && r.Ok? ==> |rooms'| == |rooms| + 1)
  {
    var (r, _, rooms') := Handle(h, st, rooms, validId, req);
    if rooms' != rooms {
      if h.AcceptInfluencer? {
        assert rooms' == rooms + [ChatRoom(req.brandId, req.body.influencerId.value)];
      } else {
        assert rooms' == rooms + [ChatRoom(req.brandId, req.influencerId)];
      }
    }
  }

  /** The listings page with 1 and 10 when the query gives nothing usable. */
  lemma ListingDefaults(st: Store, rooms: seq<ChatRoom>, validId: string -> bool, req: Request)
    requires req.page.None? && req.limit.None?
    ensures Handle(ListAll, st, rooms, validId, req).0 == Lift(AllCampaignsPage(st, 1, 10), p => PageReply(p))
    ensures Handle(ListByBrand, st, rooms, validId, req).0
            == Lift(BrandCampaignsPage(st, req.brandId, 1, 10, validId), p => PageReply(p))
  {
  }

  /** Only the store operations the handler names change the store; the read-only handlers leave it as it was. */
  lemma ReadOnlyHandlers(h: Handler, st: Store, rooms: seq<ChatRoom>, validId: string -> bool, req: Request)
    requires !(h.DeleteCampaign? || h.RejectInfluencer? || h.AcceptInfluencer? || h.ApplyToCampaign?
               || h.InviteToCampaign? || h.EditApplication? || h.AcceptInvitation? || h.RejectInvitation?)
    ensures Handle(h, st, rooms, validId, req).1 == st && Handle(h, st, rooms, validId, req).2 == rooms
  {
  }
}
