/**
 * The client variant of the score badge: a shimmer while the session loads,
 * then loading, error and score as in the plain badge, with network errors
 * shown as "Offline". Its colour chain is its own copy of the plain badge's.
 */
module CovoScoreDisplayClient {
  import opened Common
  import opened CovoScoreHook
  import opened CovoScoreDisplay

  /** The client's own `getScoreColor`. */
  function ClientScoreColor(score: Option<real>, isInfluencerScore: bool): Band
  {
    if score.None? then Gray
    else if isInfluencerScore then
      if score.value >= 90.0 then Green
      else if score.value >= 80.0 then Yellow
      else if score.value >= 70.0 then Orange
      else Red
    else
      if score.value >= 4.0 then Green
      else if score.value >= 3.0 then Yellow
      else if score.value >= 2.0 then Orange
      else Red
  }

  /** A network error: the text mentions the server, a connection or a failed fetch, in lower case. */
  predicate IsNetworkError(error: string)
  {
    Contains(error, "server") || Contains(error, "connect") || Contains(error, "fetch failed")
  }

  datatype ClientRendered =
    | ShimmerBox
    | LoadingBox
    | TitledErrorBox(title: string, offline: bool)
    | ClientScoreBox(caption: string, color: Band, text: ScoreText)

  function ClientRender(sessionLoading: bool, st: HookState, influencerId: string, role: string, showLabel: bool)
    : ClientRendered
  {
    var inf := IsInfluencerScore(influencerId, role);
    var error := ErrorText(st.error);
    if sessionLoading then ShimmerBox
    else if st.isLoading then LoadingBox
    else if error != "" then TitledErrorBox(if IsNetworkError(error) then "Offline" else "Error", IsNetworkError(error))
    else ClientScoreBox(ScoreLabel(showLabel, inf), ClientScoreColor(ColorInput(st.covoScore), inf), DisplayScore(st.covoScore, inf))
  }

  // ---- Properties ----

  /** The client's colour bands are the plain badge's. */
  lemma ClientBandsIdentical(score: Option<real>, isInfluencerScore: bool)
    ensures ClientScoreColor(score, isInfluencerScore) == ScoreColor(score, isInfluencerScore)
  {
  }

  /** Past the shimmer, the client renders what the plain badge renders, apart from the error title. */
  lemma ClientMatchesBadge(st: HookState, influencerId: string, role: string, showLabel: bool)
    ensures var c := ClientRender(false, st, influencerId, role, showLabel);
      var p := Render(st, influencerId, role, showLabel);
      && (c.LoadingBox? <==> p.Spinner?)
      && (c.TitledErrorBox? <==> p.ErrorBox?)
      && (c.ClientScoreBox? ==> p == CovoScoreDisplay.ScoreBox(c.caption, c.color, c.text))
  {
  }

  /** A loading session shows the shimmer before anything else; then loading beats error, which beats the score. */
  lemma ClientPrecedence(st: HookState, influencerId: string, role: string, showLabel: bool)
    ensures ClientRender(true, st, influencerId, role, showLabel) == ShimmerBox
    ensures st.isLoading ==> ClientRender(false, st, influencerId, role, showLabel) == LoadingBox
    ensures !st.isLoading && ErrorText(st.error) != "" ==> ClientRender(false, st, influencerId, role, showLabel).TitledErrorBox?
  {
  }

  /** An error is titled "Offline" exactly when it is a network error, and "Error" otherwise. */
  lemma ErrorTitles(st: HookState, influencerId: string, role: string, showLabel: bool)
    requires !st.isLoading && ErrorText(st.error) != ""
    ensures var c := ClientRender(false, st, influencerId, role, showLabel);
      (c.title == "Offline" <==> IsNetworkError(ErrorText(st.error))) && (c.title == "Offline" || c.title == "Error")
  {
  }

  /** A substring's characters all occur in the string. */
  lemma {:induction false} ContainsKeepsChars(s: string, t: string, c: char)
    requires Contains(s, t) && c in t
    ensures c in s
    decreases |s|
  {
    if StartsWith(s, t) {
      assert s[..|t|] == t;
    } else {
      ContainsKeepsChars(s[1..], t, c);
    }
  }

  lemma FetchFailedIsNetwork()
    ensures IsNetworkError("TypeError: fetch failed")
  {
    ContainsAt("TypeError: fetch failed", "fetch failed", 11);
  }

  /** The match is case-sensitive: a capital "Server" is not a network error. */
  lemma CapitalServerIsNot()
    ensures !IsNetworkError("Server down")
  {
    var down := "Server down";
    assert 's' !in down && 'c' !in down && 'f' !in down;
    if Contains(down, "server") {
      ContainsKeepsChars(down, "server", 's');
    }
    if Contains(down, "connect") {
      ContainsKeepsChars(down, "connect", 'c');
    }
    if Contains(down, "fetch failed") {
      ContainsKeepsChars(down, "fetch failed", 'f');
    }
  }

  /** "fetch failed" in a thrown error's text shows "Offline"; "Server down" shows "Error". */
  lemma ErrorTitleExamples(influencerId: string, role: string, showLabel: bool)
    ensures ClientRender(false, HookState(None, false, Verbatim("TypeError: fetch failed")), influencerId, role, showLabel)
      == TitledErrorBox("Offline", true)
    ensures ClientRender(false, HookState(None, false, Verbatim("Server down")), influencerId, role, showLabel)
      == TitledErrorBox("Error", false)
  {
    FetchFailedIsNetwork();
    CapitalServerIsNot();
  }

  /** A score of 0 is coloured gray on the client too. */
  lemma ClientZeroIsGray(ratings: Option<seq<string>>, influencerId: string, role: string, showLabel: bool)
    ensures var c := ClientRender(false, HookState(Some(Score(0.0, ratings)), false, Nothing), influencerId, role, showLabel);
      c.ClientScoreBox? && c.color == Gray && c.text.Decimals?
  {
  }
}
