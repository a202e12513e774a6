/**
 * The influencer's invitations dialog: the status badge's colour (matched
 * case-insensitively) and label, the offer line, the accept and reject
 * controls (shown for the exact status "pending"), and the toast and
 * refresh callback after a response.
 *
 * `JSON.stringify` is not modelled: an object offer carries its JSON text.
 * Dates and their formatting are left out. The accept and reject routes'
 * results are parameters.
 */
module ViewInvitations {
  import opened Common

  datatype BadgeColor = YellowBadge | GreenBadge | RedBadge | GrayBadge
  {
    function ClassName(): string
    {
      match this
      case YellowBadge => "bg-yellow-100 text-yellow-800"
      case GreenBadge => "bg-green-100 text-green-800"
      case RedBadge => "bg-red-100 text-red-800"
      case GrayBadge => "bg-gray-100 text-gray-800"
    }
  }

  /** A JavaScript value of the untyped `offer` field. */
  datatype OfferValue = Undefined | Null | Bool(b: bool) | Num(n: real) | Str(s: string) | Obj(json: string)

  datatype Invitation = Invitation(
    id: string,
    campaignId: string,
    campaignTitle: string,
    brandId: string,
    brandFirstName: string,
    brandLastName: string,
    status: string,
    message: string,
    offer: OfferValue)

  /** `getStatusColor`: the switch on the lower-cased status. */
  function StatusColor(status: string): BadgeColor
  {
    var s := ToLower(status);
    if s == "pending" then YellowBadge
    else if s == "accepted" then GreenBadge
    else if s == "rejected" then RedBadge
    else GrayBadge
  }

  /** `status.charAt(0).toUpperCase() + status.slice(1)`. */
  function StatusLabel(status: string): string
  {
    if status == [] then [] else [UpperChar(status[0])] + status[1..]
  }

  predicate Truthy(v: OfferValue)
  {
    match v
    case Undefined => false
    case Null => false
    case Bool(b) => b
    case Num(n) => n != 0.0
    case Str(s) => s != ""
    case Obj(_) => true
  }

  datatype OfferLine = NoOfferLine | JsonOffer(text: string) | RawOffer(value: OfferValue)

  /** The "Offer:" line: absent for a falsy offer, JSON for an object, the value itself otherwise. */
  function OfferShown(v: OfferValue): OfferLine
  {
    if !Truthy(v) then NoOfferLine
    else if v.Obj? then JsonOffer(v.json)
    else RawOffer(v)
  }

  function CardTitle(inv: Invitation): string
  {
    if inv.campaignTitle != "" then inv.campaignTitle else "N/A Campaign"
  }

  /** The accept and reject buttons are rendered for the exact status "pending". */
  predicate ShowsActions(inv: Invitation)
  {
    inv.status == "pending"
  }

  datatype Action = Accept | Reject

  datatype Message = AcceptedTitle | DeclinedTitle | ErrorTitle | AcceptFailed | DeclineFailed
  {
    function Text(): string
    {
      match this
      case AcceptedTitle => "Invitation Accepted!"
      case DeclinedTitle => "Invitation Declined!"
      case ErrorTitle => "Error"
      case AcceptFailed => "Failed to accept invitation."
      case DeclineFailed => "Failed to decline invitation."
    }
  }

  datatype Toast = Toast(title: Message, description: Shown<Message>, destructive: bool)

  /** The route call a button makes: token, influencer, campaign and brand. */
  datatype Request = Request(action: Action, token: string, influencerId: string, campaignId: string, brandId: string)

  function RequestOf(a: Action, token: string, influencerId: string, inv: Invitation): Request
  {
    Request(a, token, influencerId, inv.campaignId, inv.brandId)
  }

  /** `handleAccept`/`handleReject` for the route's result: the toast and whether `onInvitationAction` is called. */
  function RespondOutcome(a: Action, response: RouteResult): (Toast, bool)
  {
    match response
    case RouteThrows => (Toast(ErrorTitle, Fixed(if a == Accept then AcceptFailed else DeclineFailed), true), false)
    case RouteBody(status, message) =>
      if status == "success" then (Toast(if a == Accept then AcceptedTitle else DeclinedTitle, Verbatim(message), false), true)
      else (Toast(ErrorTitle, Verbatim(message), true), false)
  }

  // ---- Properties ----

  /** The badge colour ignores case: a status and its lower-cased form get the same colour. */
  lemma StatusColorIgnoresCase(status: string)
    ensures StatusColor(status) == StatusColor(ToLower(status))
  {
    ToLowerIdempotent(status);
  }

  /** The badge colours of the three statuses, and gray for anything else. */
  lemma StatusColors()
    ensures StatusColor("pending") == YellowBadge && StatusColor("accepted") == GreenBadge
    ensures StatusColor("rejected") == RedBadge && StatusColor("expired") == GrayBadge
  {
    LowerOfLowercase("pending");
    LowerOfLowercase("accepted");
    LowerOfLowercase("rejected");
    LowerOfLowercase("expired");
  }

  /** Upper-case letters in a status do not change its colour. */
  lemma StatusColorsInAnyCase()
    ensures StatusColor("PENDING") == YellowBadge && StatusColor("Rejected") == RedBadge
  {
    var r := ToLower("Rejected");
    assert r[0] == 'r' && r[1..] == "ejected";
    assert r == "rejected";
  }

  /** The label upper-cases the first character only and keeps the length. */
  lemma StatusLabelShape(status: string)
    ensures var l := StatusLabel(status);
      && |l| == |status|
      && (status != [] ==> l[0] == UpperChar(status[0]) && l[1..] == status[1..])
  {
  }

  /**
   * Only an exactly "pending" invitation gets the controls, and it is
   * yellow; a "Pending" one is yellow too but gets none, since the colour
   * ignores case and the controls do not.
   */
  lemma ActionsOnlyForPending(inv: Invitation)
    ensures ShowsActions(inv) ==> StatusColor(inv.status) == YellowBadge
    ensures !ShowsActions(inv.(status := "Pending")) && StatusColor("Pending") == YellowBadge
  {
  }

  /** A falsy offer is hidden, an object is shown as its JSON, any other value as it is. */
  lemma OfferDisplay(v: OfferValue)
    ensures OfferShown(v).NoOfferLine? <==> !Truthy(v)
    ensures v.Obj? ==> OfferShown(v) == JsonOffer(v.json)
    ensures Truthy(v) && !v.Obj? ==> OfferShown(v) == RawOffer(v)
    ensures OfferShown(Num(0.0)).NoOfferLine? && OfferShown(Str("")).NoOfferLine? && OfferShown(Obj("{}")).JsonOffer?
  {
  }

  /**
   * The list is refreshed exactly after a successful response; every other
   * outcome shows a destructive error toast, with the route's message or,
   * when the route throws, the action's fixed failure text.
   */
  lemma RespondEffect(a: Action, response: RouteResult)
    ensures var (t, refresh) := RespondOutcome(a, response);
      && (refresh <==> response.RouteBody? && response.status == "success")
      && (t.destructive <==> !refresh)
      && (!refresh ==> t.title == ErrorTitle)
      && (refresh ==> t.title == (if a == Accept then AcceptedTitle else DeclinedTitle))
      && (response.RouteThrows? ==> t.description == Fixed(if a == Accept then AcceptFailed else DeclineFailed))
      && (response.RouteBody? ==> t.description == Verbatim(response.message))
  {
  }
}
