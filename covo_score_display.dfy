/**
 * The score badge: which kind of score it shows, its label and scale, the
 * colour band of the score, and what it renders for the hook's state.
 *
 * `toFixed` formatting is not modelled: the shown text is the number with
 * the count of decimals it is printed with, or "N/A".
 */
module CovoScoreDisplay {
  import opened Common
  import opened CovoScoreHook

  datatype Band = Gray | Red | Orange | Yellow | Green
  {
    function ClassName(): string
    {
      match this
      case Gray => "text-gray-300"
      case Red => "text-red-200"
      case Orange => "text-orange-200"
      case Yellow => "text-yellow-200"
      case Green => "text-green-200"
    }

    /** Red is the worst band and green the best. */
    function Rank(): nat
      requires !Gray?
    {
      match this
      case Red => 0
      case Orange => 1
      case Yellow => 2
      case Green => 3
    }
  }

  /** The 0-100 influencer score is the kind shown with an id, or for an influencer's own badge. */
  predicate IsInfluencerScore(influencerId: string, role: string)
  {
    influencerId != "" || role == "Influencer"
  }

  function ScoreLabel(showLabel: bool, isInfluencerScore: bool): string
  {
    if !showLabel then "" else if isInfluencerScore then "Covo Score:" else "Reliability:"
  }

  function ScoreScale(isInfluencerScore: bool): string
  {
    if isInfluencerScore then "100" else "5"
  }

  /** `getScoreColor`: gray for no score, then the thresholds of the score's kind. */
  function ScoreColor(score: Option<real>, isInfluencerScore: bool): Band
  {
    if score.None? then Gray
    else if isInfluencerScore then
      if score.value >= 90.0 then Green else if score.value >= 80.0 then Yellow
      else if score.value >= 70.0 then Orange else Red
    else
      if score.value >= 4.0 then Green else if score.value >= 3.0 then Yellow
      else if score.value >= 2.0 then Orange else Red
  }

  /** The argument of `getScoreColor`: `overall || null`, which turns 0 into null. */
  function ColorInput(covoScore: Option<Score>): Option<real>
  {
    if covoScore.Some? && covoScore.value.overall != 0.0 then Some(covoScore.value.overall) else None
  }

  datatype ScoreText = NotAvailable | Decimals(value: real, digits: nat)

  /** `formatScore(overall ?? null)`: 0 is printed like any other number. */
  function DisplayScore(covoScore: Option<Score>, isInfluencerScore: bool): ScoreText
  {
    if covoScore.None? then NotAvailable
    else Decimals(covoScore.value.overall, if isInfluencerScore then 2 else 1)
  }

  datatype Rendered =
    | Spinner
    | ErrorBox(title: string)
    | ScoreBox(caption: string, color: Band, text: ScoreText)

  /** The component's render for the hook's state: loading, then error, then the score. */
  function Render(st: HookState, influencerId: string, role: string, showLabel: bool): Rendered
  {
    var inf := IsInfluencerScore(influencerId, role);
    if st.isLoading then Spinner
    else if ErrorText(st.error) != "" then ErrorBox("Error")
    else ScoreBox(ScoreLabel(showLabel, inf), ScoreColor(ColorInput(st.covoScore), inf), DisplayScore(st.covoScore, inf))
  }

  /** The hook the badge calls: the influencer hook with an id, the current user's otherwise. */
  function BadgeArgs(influencerId: string): Args
  {
    if influencerId != "" then InfluencerArgs(influencerId, None, None) else CurrentUserArgs(None)
  }

  // ---- Properties ----

  /** The bands of each kind, by threshold. */
  lemma Bands(x: real)
    ensures ScoreColor(Some(x), true) == if x >= 90.0 then Green else if x >= 80.0 then Yellow else if x >= 70.0 then Orange else Red
    ensures ScoreColor(Some(x), false) == if x >= 4.0 then Green else if x >= 3.0 then Yellow else if x >= 2.0 then Orange else Red
    ensures ScoreColor(None, true) == Gray && ScoreColor(None, false) == Gray
  {
  }

  /** A higher score never gets a worse band. */
  lemma ColorMonotone(x: real, y: real, isInfluencerScore: bool)
    requires x <= y
    ensures ScoreColor(Some(x), isInfluencerScore).Rank() <= ScoreColor(Some(y), isInfluencerScore).Rank()
  {
  }

  /** A score of 0 is printed as a number but coloured gray, like a missing score. */
  lemma ZeroIsGray(ratings: Option<seq<string>>, isInfluencerScore: bool)
    ensures var sc := Some(Score(0.0, ratings));
      && ScoreColor(ColorInput(sc), isInfluencerScore) == Gray
      && DisplayScore(sc, isInfluencerScore) == Decimals(0.0, if isInfluencerScore then 2 else 1)
      && DisplayScore(None, isInfluencerScore) == NotAvailable
  {
  }

  /** The label and the scale name the same kind of score, and a hidden label is empty. */
  lemma LabelMatchesScale(showLabel: bool, isInfluencerScore: bool)
    ensures ScoreLabel(showLabel, isInfluencerScore) == "Covo Score:" ==> ScoreScale(isInfluencerScore) == "100"
    ensures ScoreLabel(showLabel, isInfluencerScore) == "Reliability:" ==> ScoreScale(isInfluencerScore) == "5"
    ensures showLabel <==> ScoreLabel(showLabel, isInfluencerScore) != ""
  {
  }

  /**
   * The badge's kind agrees with the score its hook fetches: an influencer
   * score is shown on the 0-100 bands exactly when the hook asks the
   * influencer route, and a brand score on the 0-5 bands when it asks the
   * brand route.
   */
  lemma KindMatchesFetchedScore(influencerId: string, s: Session)
    ensures IsInfluencerScore(influencerId, s.role) <==> FetchInfluencer(BadgeArgs(influencerId), s)
    ensures FetchBrand(BadgeArgs(influencerId), s) ==> !IsInfluencerScore(influencerId, s.role)
    ensures ScoreScale(IsInfluencerScore(influencerId, s.role)) == "100" <==> FetchInfluencer(BadgeArgs(influencerId), s)
  {
  }

  /** Loading is shown before an error, and an error before the score. */
  lemma RenderPrecedence(st: HookState, influencerId: string, role: string, showLabel: bool)
    ensures st.isLoading ==> Render(st, influencerId, role, showLabel) == Spinner
    ensures !st.isLoading && ErrorText(st.error) != "" ==> Render(st, influencerId, role, showLabel) == ErrorBox("Error")
    ensures Render(st, influencerId, role, showLabel).ScoreBox? <==> !st.isLoading && ErrorText(st.error) == ""
  {
  }
}
