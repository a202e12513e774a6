/**
 * URL and text helpers of the server (server/src/utils/platform.util.ts):
 * platform detection, post-ID extraction, "1.2K"-style number parsing and
 * the token-expiry test.
 *
 * Each regular expression is modelled by what JavaScript's backtracking
 * matcher returns for it: the match with the leftmost start position and,
 * at that position, the first successful choice in the order the
 * alternatives, greedy quantifiers and optional groups are tried.
 */
module PlatformUtil {
  import opened Common

  datatype Platform = YouTube | TikTok | Instagram | Facebook | Twitter
  {
    function Name(): string
    {
      match this
      case YouTube => "youtube"
      case TikTok => "tiktok"
      case Instagram => "instagram"
      case Facebook => "facebook"
      case Twitter => "twitter"
    }
  }

  // ---- detectPlatform ----

  /** The substrings that identify a platform, looked for in the lower-cased URL. */
  function Markers(p: Platform): seq<string>
  {
    match p
    case YouTube => ["youtube.com", "youtu.be"]
    case TikTok => ["tiktok.com"]
    case Instagram => ["instagram.com"]
    case Facebook => ["facebook.com"]
    case Twitter => ["x.com", "twitter.com"]
  }

  /** The order in which the platforms are tried. */
  const DetectionOrder: seq<Platform> := [YouTube, TikTok, Instagram, Facebook, Twitter]

  function DetectPlatform(url: string): Option<Platform>
  {
    var u := ToLower(url);
    if Contains(u, "youtube.com") || Contains(u, "youtu.be") then Some(YouTube)
    else if Contains(u, "tiktok.com") then Some(TikTok)
    else if Contains(u, "instagram.com") then Some(Instagram)
    else if Contains(u, "facebook.com") then Some(Facebook)
    else if Contains(u, "x.com") || Contains(u, "twitter.com") then Some(Twitter)
    else None
  }

  predicate HasMarker(u: string, p: Platform)
  {
    exists i :: 0 <= i < |Markers(p)| && Contains(u, Markers(p)[i])
  }

  /** Reference reading of detection: the first platform in `order` one of whose markers occurs. */
  function FirstWithMarker(u: string, order: seq<Platform>): Option<Platform>
  {
    if order == [] then None
    else if HasMarker(u, order[0]) then Some(order[0])
    else FirstWithMarker(u, order[1..])
  }

  lemma HasMarkerUnfold(u: string, p: Platform)
    ensures HasMarker(u, p) <==> (Contains(u, Markers(p)[0]) || (|Markers(p)| > 1 && Contains(u, Markers(p)[1])))
  {
  }

  /** Detection returns the first platform, in the fixed order, whose marker occurs in the lower-cased URL. */
  lemma DetectIsFirstMatch(url: string)
    ensures DetectPlatform(url) == FirstWithMarker(ToLower(url), DetectionOrder)
  {
    var u := ToLower(url);
    HasMarkerUnfold(u, YouTube);
    HasMarkerUnfold(u, TikTok);
    HasMarkerUnfold(u, Instagram);
    HasMarkerUnfold(u, Facebook);
    HasMarkerUnfold(u, Twitter);
    var o1, o2, o3, o4 := [TikTok, Instagram, Facebook, Twitter], [Instagram, Facebook, Twitter], [Facebook, Twitter], [Twitter];
    assert DetectionOrder[1..] == o1 && o1[1..] == o2 && o2[1..] == o3 && o3[1..] == o4 && o4[1..] == [];
    assert FirstWithMarker(u, o4) == if HasMarker(u, Twitter) then Some(Twitter) else None;
    assert FirstWithMarker(u, o3) == if HasMarker(u, Facebook) then Some(Facebook) else FirstWithMarker(u, o4);
    assert FirstWithMarker(u, o2) == if HasMarker(u, Instagram) then Some(Instagram) else FirstWithMarker(u, o3);
    assert FirstWithMarker(u, o1) == if HasMarker(u, TikTok) then Some(TikTok) else FirstWithMarker(u, o2);
  }

  /** Detection ignores letter case: an upper-cased URL is classified the same. */
  lemma DetectIgnoresCase(url: string)
    ensures DetectPlatform(ToUpper(url)) == DetectPlatform(url)
  {
    LowerOfUpper(url);
  }

  /** A string cannot contain a needle that has a character the string lacks. */
  lemma NotContainsMissingChar(s: string, t: string, c: char)
    requires c in t && c !in s
    ensures !Contains(s, t)
  {
    if Contains(s, t) {
      var k := ContainsWitness(s, t);
    }
  }

  /** A lower-cased URL holding "x.com" and none of the letters y, k, g, b — which every earlier marker contains — is twitter. */
  lemma TwitterByXOnly(url: string)
    requires var u := ToLower(url); 'y' !in u && 'k' !in u && 'g' !in u && 'b' !in u && Contains(u, "x.com")
    ensures DetectPlatform(url) == Some(Twitter)
  {
    var u := ToLower(url);
    NotContainsMissingChar(u, "youtube.com", 'y');
    NotContainsMissingChar(u, "youtu.be", 'y');
    NotContainsMissingChar(u, "tiktok.com", 'k');
    NotContainsMissingChar(u, "instagram.com", 'g');
    NotContainsMissingChar(u, "facebook.com", 'b');
  }

  /** "x.com" is matched anywhere, so a host such as netflix.com is classified as twitter. */
  lemma NetflixIsTwitter()
    ensures DetectPlatform("netflix.com") == Some(Twitter)
  {
    NetflixHostFacts();
    TwitterByXOnly("netflix.com");
  }

  lemma NetflixHostFacts()
    ensures var u := ToLower("netflix.com"); 'y' !in u && 'k' !in u && 'g' !in u && 'b' !in u && Contains(u, "x.com")
  {
    var u := "netflix.com";
    LowerOfLowercase(u);
    assert u[6..11] == "x.com";
    ContainsAt(u, "x.com", 6);
  }

  // ---- Shared pieces of the regex models ----

  /** JavaScript `.`: any character except a line terminator. */
  predicate IsDotChar(c: char)
  {
    c != '\n' && c != '\r' && c != '\U{2028}' && c != '\U{2029}'
  }

  /** JavaScript `\w`. */
  predicate IsWordChar(c: char)
  {
    IsAsciiLetter(c) || IsDigit(c) || c == '_'
  }

  /** `s` has `lit` at position `i`. */
  predicate LitAt(s: string, i: nat, lit: string)
  {
    i + |lit| <= |s| && s[i..i + |lit|] == lit
  }

  lemma LitAtChar(s: string, i: nat, lit: string, k: nat)
    requires LitAt(s, i, lit) && k < |lit|
    ensures s[i + k] == lit[k]
  {
    assert s[i..i + |lit|][k] == s[i + k];
  }

  /** Length of the longest run of characters satisfying `ok` starting at `i` (what a greedy `ok*` takes). */
  function RunLen(s: string, i: nat, ok: char -> bool): (n: nat)
    requires i <= |s|
    ensures i + n <= |s|
    ensures forall k :: i <= k < i + n ==> ok(s[k])
    ensures i + n == |s| || !ok(s[i + n])
    decreases |s| - i
  {
    if i < |s| && ok(s[i]) then 1 + RunLen(s, i + 1, ok) else 0
  }

  // ---- extractYouTubeVideoId ----

  /** `[^"&?/\s]`. */
  predicate IsIdChar(c: char)
  {
    c != '"' && c != '&' && c != '?' && c != '/' && !IsSpace(c)
  }

  /** Eleven identifier characters start at `k`: the capture `([^"&?/\s]{11})`. */
  predicate IdAt(s: string, k: nat)
  {
    k + 11 <= |s| && forall i :: k <= i < k + 11 ==> IsIdChar(s[i])
  }

  /**
   * `.+\/` followed by an id, for `.+` starting at `a`: greedy, so the
   * last slash `j` (searched downward from `hi`) with at least one
   * character between, no line terminator in between, and an id after it.
   */
  function LastSlashBeforeId(s: string, a: nat, hi: int): (r: Option<nat>)
    requires a <= |s| && hi < |s|
    ensures r.Some? ==> a < r.value <= hi && s[r.value] == '/' && IdAt(s, r.value + 1)
    decreases hi - a
  {
    if hi <= a then None
    else if s[hi] == '/' && IdAt(s, hi + 1) && (forall i :: a <= i < hi ==> IsDotChar(s[i])) then Some(hi)
    else LastSlashBeforeId(s, a, hi - 1)
  }

  /** `.*[?&]v=` followed by an id, for `.*` starting at `a`: the last such `[?&]`. */
  function LastQueryV(s: string, a: nat, hi: int): (r: Option<nat>)
    requires a <= |s| && hi < |s|
    ensures r.Some? ==> a <= r.value <= hi && LitAt(s, r.value + 1, "v=") && IdAt(s, r.value + 3)
    decreases hi - a + 1
  {
    if hi < a then None
    else if (s[hi] == '?' || s[hi] == '&') && LitAt(s, hi + 1, "v=") && IdAt(s, hi + 3)
            && (forall i :: a <= i < hi ==> IsDotChar(s[i])) then Some(hi)
    else LastQueryV(s, a, hi - 1)
  }

  /** Where the 11-character capture starts, for a match beginning at `p`. */
  function YouTubeMatchAt(s: string, p: nat): (r: Option<nat>)
    requires p <= |s|
    ensures r.Some? ==> IdAt(s, r.value)
  {
    if LitAt(s, p, "youtube.com/") then
      var q := p + 12;
      // [^\/]+\/.+\/
      var name := RunLen(s, q, c => c != '/');
      var first :=
        if name >= 1 && q + name < |s| then LastSlashBeforeId(s, q + name + 1, |s| - 1) else None;
      if first.Some? then Some(first.value + 1)
      // (?:v|embed)\/
      else if LitAt(s, q, "v/") && IdAt(s, q + 2) then Some(q + 2)
      else if LitAt(s, q, "embed/") && IdAt(s, q + 6) then Some(q + 6)
      // .*[?&]v=
      else
        var query := LastQueryV(s, q, |s| - 1);
        if query.Some? then Some(query.value + 3) else None
    else if LitAt(s, p, "youtu.be/") && IdAt(s, p + 9) then Some(p + 9)
    else None
  }

  function YouTubeMatchFrom(s: string, p: nat): (r: Option<nat>)
    requires p <= |s|
    ensures r.Some? ==> IdAt(s, r.value)
    decreases |s| - p
  {
    var m := YouTubeMatchAt(s, p);
    if m.Some? then m else if p == |s| then None else YouTubeMatchFrom(s, p + 1)
  }

  function ExtractYouTubeVideoId(url: string): (r: Option<string>)
    ensures r.Some? ==> |r.value| == 11 && forall i :: 0 <= i < 11 ==> IsIdChar(r.value[i])
  {
    match YouTubeMatchFrom(url, 0)
    case Some(k) => Some(url[k..k + 11])
    case None => None
  }

  lemma {:induction false} YouTubeFoundFrom(s: string, i: nat, p: nat)
    requires i <= p <= |s| && YouTubeMatchAt(s, p).Some?
    ensures YouTubeMatchFrom(s, i).Some?
    decreases p - i
  {
    if i < p && YouTubeMatchAt(s, i).None? {
      YouTubeFoundFrom(s, i + 1, p);
    }
  }

  /** A short link `youtu.be/` followed by eleven id characters is always found. */
  lemma ShortLinkFound(url: string, p: nat)
    requires LitAt(url, p, "youtu.be/") && IdAt(url, p + 9)
    ensures ExtractYouTubeVideoId(url).Some?
  {
    assert !LitAt(url, p, "youtube.com/") by {
      LitAtChar(url, p, "youtu.be/", 5);
      if LitAt(url, p, "youtube.com/") { LitAtChar(url, p, "youtube.com/", 5); }
    }
    assert YouTubeMatchAt(url, p).Some?;
    YouTubeFoundFrom(url, 0, p);
  }

  /** A URL with no "youtu" in it has no video id. */
  lemma YouTubeNeedsHost(url: string)
    requires !Contains(url, "youtu")
    ensures ExtractYouTubeVideoId(url).None?
  {
    NoYouTubeFrom(url, 0);
  }

  lemma {:induction false} NoYouTubeFrom(url: string, p: nat)
    requires p <= |url| && !Contains(url, "youtu")
    ensures YouTubeMatchFrom(url, p).None?
    decreases |url| - p
  {
    if LitAt(url, p, "youtube.com/") {
      assert url[p..p + 5] == url[p..p + 12][..5];
      ContainsAt(url, "youtu", p);
    }
    if LitAt(url, p, "youtu.be/") {
      assert url[p..p + 5] == url[p..p + 9][..5];
      ContainsAt(url, "youtu", p);
    }
    if p < |url| {
      NoYouTubeFrom(url, p + 1);
    }
  }

  // ---- extractFacebookVideoId ----

  /** `(?:\/videos\/|\/watch\/?\?v=|\/posts\/)(\d+)` at `p`: the capture's start and length. */
  function FacebookMatchAt(s: string, p: nat): (r: Option<(nat, nat)>)
    requires p <= |s|
    ensures r.Some? ==> r.value.1 >= 1 && r.value.0 + r.value.1 <= |s|
    ensures r.Some? ==> forall i :: r.value.0 <= i < r.value.0 + r.value.1 ==> IsDigit(s[i])
  {
    var after :=
      if LitAt(s, p, "/videos/") then Some(p + 8)
      else if LitAt(s, p, "/watch/?v=") then Some(p + 10)
      else if LitAt(s, p, "/watch?v=") then Some(p + 9)
      else if LitAt(s, p, "/posts/") then Some(p + 7)
      else None;
    match after
    case None => None
    case Some(d) =>
      var n := RunLen(s, d, IsDigit);
      if n >= 1 then Some((d, n)) else None
  }

  function FacebookMatchFrom(s: string, p: nat): (r: Option<(nat, nat)>)
    requires p <= |s|
    ensures r.Some? ==> r.value.1 >= 1 && r.value.0 + r.value.1 <= |s|
    ensures r.Some? ==> forall i :: r.value.0 <= i < r.value.0 + r.value.1 ==> IsDigit(s[i])
    decreases |s| - p
  {
    var m := FacebookMatchAt(s, p);
    if m.Some? then m else if p == |s| then None else FacebookMatchFrom(s, p + 1)
  }

  function ExtractFacebookVideoId(url: string): (r: Option<string>)
    ensures r.Some? ==> |r.value| >= 1 && AllDigits(r.value)
  {
    match FacebookMatchFrom(url, 0)
    case Some((k, n)) => Some(url[k..k + n])
    case None => None
  }

  lemma {:induction false} FacebookFoundFrom(s: string, i: nat, p: nat)
    requires i <= p <= |s| && FacebookMatchAt(s, p).Some?
    ensures FacebookMatchFrom(s, i).Some?
    decreases p - i
  {
    if i < p && FacebookMatchAt(s, i).None? {
      FacebookFoundFrom(s, i + 1, p);
    }
  }

  /** A "/videos/" path segment followed by a digit always yields an id. */
  lemma FacebookVideosFound(url: string, p: nat)
    requires LitAt(url, p, "/videos/") && p + 8 < |url| && IsDigit(url[p + 8])
    ensures ExtractFacebookVideoId(url).Some?
  {
    FacebookFoundFrom(url, 0, p);
  }

  /** "/watch?v=" and "/watch/?v=" are both accepted (the slash is optional). */
  lemma FacebookWatchFound(url: string, p: nat, slash: bool)
    requires var lit := if slash then "/watch/?v=" else "/watch?v=";
      LitAt(url, p, lit) && p + |lit| < |url| && IsDigit(url[p + |lit|])
    ensures ExtractFacebookVideoId(url).Some?
  {
    var lit := if slash then "/watch/?v=" else "/watch?v=";
    assert url[p + 1] == lit[1] == 'w';
    assert !LitAt(url, p, "/videos/");
    if !slash {
      assert url[p + 6] == lit[6] == '?';
      assert !LitAt(url, p, "/watch/?v=");
    }
    assert RunLen(url, p + |lit|, IsDigit) >= 1;
    assert FacebookMatchAt(url, p).Some?;
    FacebookFoundFrom(url, 0, p);
  }

  /** The digits after the marker are taken whole: "/videos/123" yields "123". */
  lemma FacebookExample()
    ensures ExtractFacebookVideoId("/videos/123") == Some("123")
  {
    var s := "/videos/123";
    assert LitAt(s, 0, "/videos/");
    RunToEnd(s, 8, IsDigit);
    assert FacebookMatchAt(s, 0) == Some((8, 3));
    assert s[8..11] == "123";
  }

  // ---- extractTweetId ----

  /** `\w+\/status\/(\d+)` from `w`: the capture's start and length. */
  function TweetRest(s: string, w: nat): (r: Option<(nat, nat)>)
    requires w <= |s|
    ensures r.Some? ==> r.value.1 >= 1 && r.value.0 + r.value.1 <= |s|
    ensures r.Some? ==> forall i :: r.value.0 <= i < r.value.0 + r.value.1 ==> IsDigit(s[i])
    ensures r.Some? ==> r.value.0 >= 8 && s[r.value.0 - 8..r.value.0] == "/status/"
  {
    var h := RunLen(s, w, IsWordChar);
    if h >= 1 && LitAt(s, w + h, "/status/") then
      var d := w + h + 8;
      var n := RunLen(s, d, IsDigit);
      if n >= 1 then Some((d, n)) else None
    else None
  }

  /** `(?:twitter\.com|x\.com)\/(?:#!\/)?` then the rest, at `p`. */
  function TweetMatchAt(s: string, p: nat): (r: Option<(nat, nat)>)
    requires p <= |s|
    ensures r.Some? ==> r.value.1 >= 1 && r.value.0 + r.value.1 <= |s|
    ensures r.Some? ==> forall i :: r.value.0 <= i < r.value.0 + r.value.1 ==> IsDigit(s[i])
    ensures r.Some? ==> r.value.0 >= 8 && s[r.value.0 - 8..r.value.0] == "/status/"
  {
    var afterHost :=
      if LitAt(s, p, "twitter.com/") then Some(p + 12)
      else if LitAt(s, p, "x.com/") then Some(p + 6)
      else None;
    match afterHost
    case None => None
    case Some(h) =>
      var withHashBang := if LitAt(s, h, "#!/") then TweetRest(s, h + 3) else None;
      if withHashBang.Some? then withHashBang else TweetRest(s, h)
  }

  function TweetMatchFrom(s: string, p: nat): (r: Option<(nat, nat)>)
    requires p <= |s|
    ensures r.Some? ==> r.value.1 >= 1 && r.value.0 + r.value.1 <= |s|
    ensures r.Some? ==> forall i :: r.value.0 <= i < r.value.0 + r.value.1 ==> IsDigit(s[i])
    ensures r.Some? ==> r.value.0 >= 8 && s[r.value.0 - 8..r.value.0] == "/status/"
    decreases |s| - p
  {
    var m := TweetMatchAt(s, p);
    if m.Some? then m else if p == |s| then None else TweetMatchFrom(s, p + 1)
  }

  function ExtractTweetId(url: string): (r: Option<string>)
    ensures r.Some? ==> |r.value| >= 1 && AllDigits(r.value)
  {
    match TweetMatchFrom(url, 0)
    case Some((k, n)) => Some(url[k..k + n])
    case None => None
  }

  /** The returned digits directly follow "/status/" in the URL. */
  lemma TweetIdFollowsStatus(url: string)
    requires TweetMatchFrom(url, 0).Some?
    ensures var (k, n) := TweetMatchFrom(url, 0).value;
      ExtractTweetId(url) == Some(url[k..k + n]) && url[k - 8..k] == "/status/"
  {
  }

  lemma {:induction false} TweetFoundFrom(s: string, i: nat, p: nat)
    requires i <= p <= |s| && TweetMatchAt(s, p).Some?
    ensures TweetMatchFrom(s, i).Some?
    decreases p - i
  {
    if i < p && TweetMatchAt(s, i).None? {
      TweetFoundFrom(s, i + 1, p);
    }
  }

  /** "x.com/" + handle + "/status/" + digits always yields a tweet id. */
  lemma TweetFound(url: string, p: nat, handleLen: nat)
    requires LitAt(url, p, "x.com/") && handleLen >= 1
    requires forall i :: p + 6 <= i < p + 6 + handleLen ==> i < |url| && IsWordChar(url[i])
    requires LitAt(url, p + 6 + handleLen, "/status/")
    requires p + 14 + handleLen < |url| && IsDigit(url[p + 14 + handleLen])
    ensures ExtractTweetId(url).Some?
  {
    var h := p + 6;
    assert !LitAt(url, p, "twitter.com/") by {
      LitAtChar(url, p, "x.com/", 0);
      if LitAt(url, p, "twitter.com/") { LitAtChar(url, p, "twitter.com/", 0); }
    }
    assert IsWordChar(url[h]);
    assert !LitAt(url, h, "#!/");
    TweetRestFound(url, h, handleLen);
    assert TweetMatchAt(url, p).Some?;
    TweetFoundFrom(url, 0, p);
  }

  lemma TweetRestFound(url: string, h: nat, handleLen: nat)
    requires handleLen >= 1 && h + handleLen <= |url|
    requires forall i :: h <= i < h + handleLen ==> IsWordChar(url[i])
    requires LitAt(url, h + handleLen, "/status/")
    requires h + 8 + handleLen < |url| && IsDigit(url[h + 8 + handleLen])
    ensures TweetRest(url, h).Some?
  {
    assert url[h + handleLen] == url[h + handleLen..h + handleLen + 8][0] == '/';
    RunExact(url, h, handleLen, IsWordChar);
  }

  /** A run of `ok` characters ended by one that is not `ok` is exactly what the greedy run takes. */
  lemma {:induction false} RunExact(s: string, i: nat, n: nat, ok: char -> bool)
    requires i + n < |s| && !ok(s[i + n])
    requires forall k :: i <= k < i + n ==> ok(s[k])
    ensures RunLen(s, i, ok) == n
    decreases n
  {
    if n > 0 {
      RunExact(s, i + 1, n - 1, ok);
    }
  }

  // ---- getTextContaining ----

  /**
   * `new RegExp(key + ":?\\s*(\\d+[.,\\d]*\\s*[KM]?)", "i")`, with the label
   * matched literally and without regard to ASCII case.
   */
  function LabelledNumberAt(html: string, key: string, p: nat): (r: Option<(nat, nat)>)
    requires p <= |html|
    ensures r.Some? ==> r.value.1 >= 1 && r.value.0 + r.value.1 <= |html| && IsDigit(html[r.value.0])
  {
    if p + |key| <= |html| && ToLower(html[p..p + |key|]) == ToLower(key) then
      var c := p + |key|;
      var afterColon := if c < |html| && html[c] == ':' then c + 1 else c;
      var start := afterColon + RunLen(html, afterColon, IsSpace);
      if start < |html| && IsDigit(html[start]) then
        var num := RunLen(html, start, ch => IsDigit(ch) || ch == '.' || ch == ',');
        var gap := RunLen(html, start + num, IsSpace);
        var e := start + num + gap;
        var suffix := if e < |html| && (LowerChar(html[e]) == 'k' || LowerChar(html[e]) == 'm') then 1 else 0;
        Some((start, num + gap + suffix))
      else None
    else None
  }

  function LabelledNumberFrom(html: string, key: string, p: nat): (r: Option<(nat, nat)>)
    requires p <= |html|
    ensures r.Some? ==> r.value.1 >= 1 && r.value.0 + r.value.1 <= |html| && IsDigit(html[r.value.0])
    decreases |html| - p
  {
    var m := LabelledNumberAt(html, key, p);
    if m.Some? then m else if p == |html| then None else LabelledNumberFrom(html, key, p + 1)
  }

  /** The numeric token after the label, or "0" when there is none. */
  function GetTextContaining(html: string, key: string): (r: string)
    ensures |r| >= 1 && IsDigit(r[0])
  {
    match LabelledNumberFrom(html, key, 0)
    case Some((k, n)) => html[k..k + n]
    case None => "0"
  }

  lemma {:induction false} LabelledFoundFrom(html: string, key: string, i: nat, p: nat)
    requires i <= p <= |html| && LabelledNumberAt(html, key, p).Some?
    ensures LabelledNumberFrom(html, key, i).Some?
    decreases p - i
  {
    if i < p && LabelledNumberAt(html, key, i).None? {
      LabelledFoundFrom(html, key, i + 1, p);
    }
  }

  /** The label matches regardless of case: "Followers: 12" is found with label "followers". */
  lemma GetTextContainingExample()
    ensures GetTextContaining("Followers: 12", "followers") == "12"
  {
    var h := "Followers: 12";
    FollowersLabelAtStart();
    assert LabelledNumberFrom(h, "followers", 0) == Some((11, 2));
    assert h[11..13] == "12";
  }

  lemma FollowersLabelAtStart()
    ensures LabelledNumberAt("Followers: 12", "followers", 0) == Some((11, 2))
  {
    var h := "Followers: 12";
    assert ToLower(h[0..9]) == ToLower("followers");
    assert RunLen(h, 10, IsSpace) == 1;
    assert RunLen(h, 11, ch => IsDigit(ch) || ch == '.' || ch == ',') == 2;
    assert RunLen(h, 13, IsSpace) == 0;
  }

  /** Text without any digit never yields a token, so the result is "0". */
  lemma GetTextContainingAbsent(html: string, key: string)
    requires forall i :: 0 <= i < |html| ==> !IsDigit(html[i])
    ensures GetTextContaining(html, key) == "0"
  {
  }

  // ---- extractNumberFromText ----

  /** The `(\d+(\.\d+)?)([KM]?)\b` match at `p`: the end of the number part and the suffix letter. */
  datatype NumberMatch = NumberMatch(start: nat, numEnd: nat, suffix: Option<char>)

  predicate IsBoundary(s: string, k: nat)
    requires k <= |s|
  {
    (k > 0 && IsWordChar(s[k - 1])) != (k < |s| && IsWordChar(s[k]))
  }

  predicate IsSuffix(c: char)
  {
    LowerChar(c) == 'k' || LowerChar(c) == 'm'
  }

  /**
   * The first successful choice at `p`. `\d+` takes the whole digit run: a
   * shorter run leaves a digit next, which can start neither `\.`, nor the
   * suffix, nor a word boundary. Then the fraction is tried before its
   * absence, and for each, the suffix before no suffix, each followed by `\b`.
   */
  function NumberMatchAt(s: string, p: nat): (r: Option<NumberMatch>)
    requires p <= |s|
    ensures r.Some? ==> r.value.start == p < r.value.numEnd <= |s| && IsDigit(s[p])
  {
    var d := RunLen(s, p, IsDigit);
    if d == 0 then None
    else
      var q := p + d;
      var frac := if q < |s| && s[q] == '.' then RunLen(s, q + 1, IsDigit) else 0;
      var withFrac :=
        if frac >= 1 then EndWithSuffix(s, p, q + 1 + frac) else None;
      if withFrac.Some? then withFrac else EndWithSuffix(s, p, q)
  }

  /** `([KM]?)\b` after the number `s[p..e]`: the suffix first, then none. */
  function EndWithSuffix(s: string, p: nat, e: nat): (r: Option<NumberMatch>)
    requires p < e <= |s|
    ensures r.Some? ==> r.value.start == p && r.value.numEnd == e
  {
    if e < |s| && IsSuffix(s[e]) && IsBoundary(s, e + 1) then Some(NumberMatch(p, e, Some(s[e])))
    else if IsBoundary(s, e) then Some(NumberMatch(p, e, None))
    else None
  }

  function NumberMatchFrom(s: string, p: nat): (r: Option<NumberMatch>)
    requires p <= |s|
    ensures r.Some? ==> p <= r.value.start < r.value.numEnd <= |s| && IsDigit(s[r.value.start])
    decreases |s| - p
  {
    var m := NumberMatchAt(s, p);
    if m.Some? then m else if p == |s| then None else NumberMatchFrom(s, p + 1)
  }

  function Pow10(n: nat): (r: nat)
    ensures r >= 1
  {
    if n == 0 then 1 else 10 * Pow10(n - 1)
  }

  /** `parseFloat` of the matched text, `digits` or `digits.digits`, exactly. */
  function ParseDecimal(num: string): (v: real)
    requires |num| > 0 && IsDigit(num[0])
    ensures v >= 0.0
  {
    var w := RunLen(num, 0, IsDigit);
    var whole := DecimalValue(num[..w]);
    if w + 1 < |num| && num[w] == '.' && AllDigits(num[w + 1..]) then whole as real + Fraction(num[w + 1..])
    else whole as real
  }

  /** The value of the digits after a decimal point. */
  function Fraction(digits: string): (v: real)
    requires AllDigits(digits)
    ensures 0.0 <= v
  {
    DecimalValue(digits) as real / Pow10(|digits|) as real
  }

  function ExtractNumberFromText(text: string): (r: nat)
  {
    var s := RemoveChar(text, ',');
    match NumberMatchFrom(s, 0)
    case None => 0
    case Some(m) =>
      JsRound(Scale(ParseDecimal(s[m.start..m.numEnd]), m.suffix))
  }

  /** The multiplier of the suffix letter: a thousand for K, a million for M. */
  function Scale(value: real, suffix: Option<char>): real
  {
    match suffix
    case Some(c) => if LowerChar(c) == 'k' then value * 1000.0 else value * 1000000.0
    case None => value
  }

  lemma {:induction false} NoDigitNoMatch(s: string, p: nat)
    requires p <= |s| && forall i :: 0 <= i < |s| ==> !IsDigit(s[i])
    ensures NumberMatchFrom(s, p).None?
    decreases |s| - p
  {
    if p < |s| {
      NoDigitNoMatch(s, p + 1);
    }
  }

  /** Text without digits gives 0. */
  lemma ExtractNoDigits(text: string)
    requires forall i :: 0 <= i < |text| ==> !IsDigit(text[i])
    ensures ExtractNumberFromText(text) == 0
  {
    var s := RemoveChar(text, ',');
    forall i | 0 <= i < |s| ensures !IsDigit(s[i]) {
      assert s[i] in s;
    }
    NoDigitNoMatch(s, 0);
  }

  /** A plain rendered count reads back as itself. */
  lemma ExtractPlainCount(n: nat)
    ensures ExtractNumberFromText(NatToDecimal(n)) == n
  {
    var s := NatToDecimal(n);
    assert ',' !in s;
    RemoveNoComma(s);
    assert RunLen(s, 0, IsDigit) == |s| by { RunToEnd(s, 0, IsDigit); }
    assert IsBoundary(s, |s|);
    assert s[0..|s|] == s;
    ParseWhole(s);
  }

  lemma ParseWhole(d: string)
    requires |d| > 0 && AllDigits(d)
    ensures ParseDecimal(d) == DecimalValue(d) as real
  {
    RunToEnd(d, 0, IsDigit);
    assert d[..|d|] == d;
  }

  /** A count followed by "K" (either case) is multiplied by a thousand. */
  lemma ExtractThousands(n: nat, k: char)
    requires k == 'K' || k == 'k'
    ensures ExtractNumberFromText(NatToDecimal(n) + [k]) == n * 1000
  {
    var d := NatToDecimal(n);
    var s := d + [k];
    assert ',' !in s;
    RemoveNoComma(s);
    assert RunLen(s, 0, IsDigit) == |d| by { RunExact(s, 0, |d|, IsDigit); }
    assert !(|d| < |s| && s[|d|] == '.');
    assert IsBoundary(s, |d| + 1);
    assert s[0..|d|] == d;
    ParseWhole(d);
  }

  lemma TenthsMatch(d: string, f: nat)
    requires |d| > 0 && AllDigits(d) && f < 10
    ensures var s := d + [ '.', DigitChar(f), 'K' ];
      NumberMatchFrom(s, 0) == Some(NumberMatch(0, |d| + 2, Some('K')))
  {
    var s := d + [ '.', DigitChar(f), 'K' ];
    RunExact(s, 0, |d|, IsDigit);
    RunExact(s, |d| + 1, 1, IsDigit);
    assert IsBoundary(s, |d| + 3);
    assert EndWithSuffix(s, 0, |d| + 2) == Some(NumberMatch(0, |d| + 2, Some('K')));
  }

  lemma TenthsValue(d: string, f: nat)
    requires |d| > 0 && AllDigits(d) && f < 10
    ensures ParseDecimal(d + [ '.', DigitChar(f) ]) == DecimalValue(d) as real + f as real / 10.0
  {
    var num := d + [ '.', DigitChar(f) ];
    RunExact(num, 0, |d|, IsDigit);
    assert num[..|d|] == d;
    assert num[|d| + 1..] == [DigitChar(f)];
    OneDigitFraction(f);
  }

  lemma OneDigitFraction(f: nat)
    requires f < 10
    ensures AllDigits([DigitChar(f)]) && Fraction([DigitChar(f)]) == f as real / 10.0
  {
    var fd := [DigitChar(f)];
    assert fd[..0] == [];
    assert DecimalValue(fd) == f;
    assert Pow10(1) == 10;
  }

  /** A count with one decimal and a "K" is scaled exactly: "12.5K" is 12500. */
  lemma ExtractTenthsOfThousands(n: nat, f: nat)
    requires f < 10
    ensures ExtractNumberFromText(NatToDecimal(n) + [ '.', DigitChar(f), 'K' ]) == n * 1000 + f * 100
  {
    var d := NatToDecimal(n);
    var s := d + [ '.', DigitChar(f), 'K' ];
    TenthsPieces(d, f);
    RemoveNoComma(s);
    TenthsMatch(d, f);
    TenthsValue(d, f);
    assert (n as real + f as real / 10.0) * 1000.0 == (n * 1000 + f * 100) as real;
  }

  lemma TenthsPieces(d: string, f: nat)
    requires AllDigits(d) && f < 10
    ensures var s := d + [ '.', DigitChar(f), 'K' ];
      ',' !in s && s[0..|d| + 2] == d + [ '.', DigitChar(f) ]
  {
    var s := d + [ '.', DigitChar(f), 'K' ];
    assert forall i :: 0 <= i < |s| ==> s[i] != ',';
    assert s[0..|d| + 2] == d + [ '.', DigitChar(f) ];
  }

  lemma {:induction false} RemoveNoComma(s: string)
    requires ',' !in s
    ensures RemoveChar(s, ',') == s
  {
    if s != [] {
      assert ',' !in s[1..];
      RemoveNoComma(s[1..]);
    }
  }

  lemma {:induction false} RunToEnd(s: string, i: nat, ok: char -> bool)
    requires i <= |s| && forall k :: i <= k < |s| ==> ok(s[k])
    ensures RunLen(s, i, ok) == |s| - i
    decreases |s| - i
  {
    if i < |s| {
      RunToEnd(s, i + 1, ok);
    }
  }

  // ---- isTokenExpired ----

  /** `new Date() >= new Date(expiry)`, with instants as milliseconds. */
  function IsTokenExpired(expiry: int, now: int): (r: bool)
    ensures r <==> !(now < expiry)
  {
    now >= expiry
  }

  /** The expiry instant itself already counts as expired. */
  lemma ExpiredAtBoundary(expiry: int)
    ensures IsTokenExpired(expiry, expiry)
  {
  }
}
