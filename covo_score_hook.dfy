/**
 * The score hook: which score it fetches for the session, the order of its
 * guards, the defaults for a missing score, and when it fetches on its own
 * or polls.
 *
 * The session (token, user id, role) and the arguments are values; "" stands
 * for a missing or empty string. The two score routes' results are
 * parameters, and each fetch is recorded with the route, token and id it
 * used. Timers are not modelled: polling is the condition under which the
 * interval is set, and the interval itself.
 */
module CovoScoreHook {
  import opened Common

  const WithUpdatesInterval := 30000
  const WithSlowUpdatesInterval := 300000

  datatype Session = Session(token: string, userId: string, role: string)

  /** `useCovoScore(influencerId, autoFetch, pollingInterval)` with its defaults applied. */
  datatype Args = Args(influencerId: string, autoFetch: bool, pollingInterval: int)

  function UseCovoScoreArgs(influencerId: string, autoFetch: Option<bool>, pollingInterval: Option<int>): Args
  {
    Args(influencerId, autoFetch.GetOr(true), pollingInterval.GetOr(0))
  }

  function CurrentUserArgs(pollingInterval: Option<int>): Args
  {
    UseCovoScoreArgs("", Some(true), pollingInterval)
  }

  function InfluencerArgs(influencerId: string, enabled: Option<bool>, pollingInterval: Option<int>): Args
  {
    UseCovoScoreArgs(influencerId, enabled, pollingInterval)
  }

  function WithUpdatesArgs(): Args
  {
    UseCovoScoreArgs("", Some(true), Some(WithUpdatesInterval))
  }

  function WithSlowUpdatesArgs(): Args
  {
    UseCovoScoreArgs("", Some(true), Some(WithSlowUpdatesInterval))
  }

  /** The id whose score is fetched: the given one, else the session user's. */
  function Target(a: Args, s: Session): string
  {
    if a.influencerId != "" then a.influencerId else s.userId
  }

  predicate FetchInfluencer(a: Args, s: Session)
  {
    if a.influencerId != "" then true else s.role == "Influencer"
  }

  predicate FetchBrand(a: Args, s: Session)
  {
    a.influencerId == "" && s.role == "Brand"
  }

  predicate FetchAny(a: Args, s: Session)
  {
    FetchInfluencer(a, s) || FetchBrand(a, s)
  }

  /** The mount effect calls `fetchCovoScore` under this condition. */
  predicate AutoFetches(a: Args, s: Session)
  {
    a.autoFetch && s.token != "" && Target(a, s) != "" && FetchAny(a, s)
  }

  /** The polling effect sets an interval of `pollingInterval` ms under this condition. */
  predicate Polls(a: Args, s: Session)
  {
    a.pollingInterval > 0 && s.token != "" && Target(a, s) != "" && FetchAny(a, s)
  }

  datatype Message = AuthMissing | IdMissing | InfluencerFailed | BrandFailed | Unexpected
  {
    function Text(): string
    {
      match this
      case AuthMissing => "Authentication token not available. Please log in."
      case IdMissing => "Influencer ID not available."
      case InfluencerFailed => "Failed to fetch Covo score"
      case BrandFailed => "Failed to fetch brand reliability rating"
      case Unexpected => "An unexpected error occurred"
    }
  }

  /** The text of a stored error. */
  function ErrorText(e: Shown<Message>): string
  {
    match e
    case Nothing => ""
    case Fixed(m) => m.Text()
    case Verbatim(t) => t
  }

  /** A stored score; an influencer score is kept as received, so its ratings may be missing. */
  datatype Score = Score(overall: real, ratings: Option<seq<string>>)

  /** The score object of a response: `overall` is None when it is not a number. */
  datatype ScoreData = ScoreData(overall: Option<real>, ratings: Option<seq<string>>)

  /**
   * What a score route gives back: a thrown error with its message, or a
   * body with its status, whether `data` is present, the score object inside
   * it (`covoScore` or `reliabilityRating`), and its message.
   */
  datatype Response =
    | Throws(errorMessage: string)
    | Body(status: string, hasData: bool, score: Option<ScoreData>, message: string)

  datatype Route = InfluencerScoreRoute | BrandReliabilityRoute

  datatype Request = Request(route: Route, token: string, id: string)

  datatype HookState = HookState(covoScore: Option<Score>, isLoading: bool, error: Shown<Message>)

  function DefaultScore(r: Route): Score
  {
    match r
    case InfluencerScoreRoute => Score(100.0, Some([]))
    case BrandReliabilityRoute => Score(0.0, Some([]))
  }

  /** The score stored from a successful body. */
  function Accepted(r: Route, data: Option<ScoreData>): Score
  {
    if data.None? || data.value.overall.None? then DefaultScore(r)
    else
      match r
      case InfluencerScoreRoute => Score(data.value.overall.value, data.value.ratings)
      case BrandReliabilityRoute => Score(data.value.overall.value, Some(data.value.ratings.GetOr([])))
  }

  function FailureMessage(r: Route): Message
  {
    match r
    case InfluencerScoreRoute => InfluencerFailed
    case BrandReliabilityRoute => BrandFailed
  }

  /** `fetchCovoScore` run to its end: the state afterwards and the request it made, if any. */
  function FetchOutcome(st: HookState, a: Args, s: Session, response: Response): (HookState, Option<Request>)
  {
    if !FetchAny(a, s) then (HookState(None, false, Nothing), None)
    else if s.token == "" then (st.(error := Fixed(AuthMissing), isLoading := false), None)
    else if Target(a, s) == "" then (st.(error := Fixed(IdMissing), isLoading := false), None)
    else
      var route := if FetchInfluencer(a, s) then InfluencerScoreRoute else BrandReliabilityRoute;
      var req := Some(Request(route, s.token, Target(a, s)));
      var done := st.(error := Nothing, isLoading := false);
      match response
      case Throws(m) => (done.(error := if m != "" then Verbatim(m) else Fixed(Unexpected)), req)
      case Body(status, hasData, score, message) =>
        if status == "success" && hasData then (done.(covoScore := Some(Accepted(route, score))), req)
        else (done.(error := if message != "" then Verbatim(message) else Fixed(FailureMessage(route))), req)
  }

  /** The token effect: without a token the state is cleared. */
  function TokenOutcome(st: HookState, s: Session): HookState
  {
    if s.token == "" then HookState(None, false, Nothing) else st
  }

  class ScoreHook {
    var covoScore: Option<Score>
    var isLoading: bool
    var error: Shown<Message>
    /** The requests made so far. */
    var requests: seq<Request>

    function Current(): HookState
      reads this
    {
      HookState(covoScore, isLoading, error)
    }

    constructor ()
      ensures Current() == HookState(None, false, Nothing) && requests == []
    {
      covoScore := None;
      isLoading := false;
      error := Nothing;
      requests := [];
    }

    method FetchCovoScore(a: Args, s: Session, response: Response)
      modifies this
      ensures var (after, req) := FetchOutcome(old(Current()), a, s, response);
        Current() == after && requests == old(requests) + (if req.Some? then [req.value] else [])
    {
      var fetchInfluencer := a.influencerId != "" || s.role == "Influencer";
      var fetchBrand := a.influencerId == "" && s.role == "Brand";
      if !(fetchInfluencer || fetchBrand) {
        covoScore := None;
        error := Nothing;
        isLoading := false;
        return;
      }
      if s.token == "" {
        error := Fixed(AuthMissing);
        isLoading := false;
        return;
      }
      var target := if a.influencerId != "" then a.influencerId else s.userId;
      if target == "" {
        error := Fixed(IdMissing);
        isLoading := false;
        return;
      }
      isLoading := true;
      error := Nothing;
      var route := if fetchInfluencer then InfluencerScoreRoute else BrandReliabilityRoute;
      requests := requests + [Request(route, s.token, target)];
      match response {
        case Throws(m) =>
          error := if m != "" then Verbatim(m) else Fixed(Unexpected);
        case Body(status, hasData, score, message) =>
          if status == "success" && hasData {
            covoScore := Some(Accepted(route, score));
          } else {
            error := if message != "" then Verbatim(message) else Fixed(FailureMessage(route));
          }
      }
      isLoading := false;
    }

    method ClearWithoutToken(s: Session)
      modifies this`covoScore, this`isLoading, this`error
      ensures Current() == TokenOutcome(old(Current()), s)
    {
      if s.token == "" {
        covoScore := None;
        error := Nothing;
        isLoading := false;
      }
    }
  }

  // ---- Properties ----

  /**
   * With an id the influencer score is always fetched; without one the role
   * decides, "Influencer" for the influencer score and "Brand" for the brand
   * score. The two flags are never both set.
   */
  lemma FlagsExclusive(a: Args, s: Session)
    ensures !(FetchInfluencer(a, s) && FetchBrand(a, s))
    ensures a.influencerId != "" ==> FetchInfluencer(a, s) && Target(a, s) == a.influencerId
    ensures a.influencerId == "" ==>
      (FetchInfluencer(a, s) <==> s.role == "Influencer") && (FetchBrand(a, s) <==> s.role == "Brand")
      && Target(a, s) == s.userId
  {
  }

  /**
   * The guards run in order: nothing to fetch clears the state with no
   * error; then a missing token gives the authentication error; then a
   * missing id gives the id error. A request is made exactly past all three,
   * on the route the flags choose.
   */
  lemma GuardOrder(st: HookState, a: Args, s: Session, response: Response)
    ensures var (r, req) := FetchOutcome(st, a, s, response);
      && (!FetchAny(a, s) ==> r == HookState(None, false, Nothing))
      && (FetchAny(a, s) && s.token == "" ==> r.error == Fixed(AuthMissing) && r.covoScore == st.covoScore)
      && (FetchAny(a, s) && s.token != "" && Target(a, s) == "" ==>
            r.error == Fixed(IdMissing) && r.covoScore == st.covoScore)
      && (req.Some? <==> FetchAny(a, s) && s.token != "" && Target(a, s) != "")
      && (req.Some? ==> req.value == Request(if FetchInfluencer(a, s) then InfluencerScoreRoute else BrandReliabilityRoute,
                                             s.token, Target(a, s)))
      && !r.isLoading
  {
  }

  /** A success without a numeric `overall` stores 100 for an influencer and 0 for a brand, with no ratings. */
  lemma DefaultsOnInvalidScore(st: HookState, a: Args, s: Session, score: Option<ScoreData>, message: string)
    requires FetchAny(a, s) && s.token != "" && Target(a, s) != ""
    requires score.None? || score.value.overall.None?
    ensures FetchOutcome(st, a, s, Body("success", true, score, message)).0.covoScore
      == Some(Score(if FetchInfluencer(a, s) then 100.0 else 0.0, Some([])))
  {
  }

  /** A numeric `overall` is stored as received; a brand score's missing ratings become empty. */
  lemma ValidScoreKept(st: HookState, a: Args, s: Session, overall: real, ratings: Option<seq<string>>, message: string)
    requires FetchAny(a, s) && s.token != "" && Target(a, s) != ""
    ensures var r := FetchOutcome(st, a, s, Body("success", true, Some(ScoreData(Some(overall), ratings)), message)).0;
      && r.covoScore.Some? && r.covoScore.value.overall == overall && r.error == Nothing
      && (FetchBrand(a, s) ==> r.covoScore.value.ratings == Some(ratings.GetOr([])))
  {
  }

  /** Every time the mount or the polling effect fires, the fetch gets past its guards and makes a request. */
  lemma EffectsAlwaysRequest(st: HookState, a: Args, s: Session, response: Response)
    requires AutoFetches(a, s) || Polls(a, s)
    ensures FetchOutcome(st, a, s, response).1.Some?
  {
  }

  /**
   * The update hooks poll every 30000 and 300000 ms, for a signed-in
   * influencer or brand; the plain current-user and influencer hooks poll
   * only with an explicit positive interval.
   */
  lemma ConvenienceIntervals(s: Session, id: string, enabled: Option<bool>)
    ensures WithUpdatesArgs().pollingInterval == 30000 && WithSlowUpdatesArgs().pollingInterval == 300000
    ensures Polls(WithUpdatesArgs(), s) <==> s.token != "" && s.userId != "" && (s.role == "Influencer" || s.role == "Brand")
    ensures Polls(WithSlowUpdatesArgs(), s) <==> Polls(WithUpdatesArgs(), s)
    ensures !Polls(CurrentUserArgs(None), s) && !Polls(InfluencerArgs(id, enabled, None), s)
    ensures CurrentUserArgs(None).autoFetch && InfluencerArgs(id, None, None).autoFetch
  {
  }

  /** Losing the token clears the score and the error; with a token the state is kept. */
  lemma TokenEffect(st: HookState, s: Session)
    ensures var r := TokenOutcome(st, s);
      (s.token == "" ==> r.covoScore.None? && r.error == Nothing && !r.isLoading) && (s.token != "" ==> r == st)
  {
  }
}
