/** The user-agent parsing of BrowserCompatibility (app.js:381-408): which
    browser a user-agent string names, and the major version after a
    token. Only the string tests and slicing are modelled; the user-agent
    string is an input. */
module Browser {
  import opened Common

  /** `p` occurs in `s` starting at index `k`. */
  predicate OccursAt(s: string, p: string, k: nat)
  {
    k + |p| <= |s| && s[k..k + |p|] == p
  }

  /** The first occurrence of `p` in `s` at or after `k`. */
  function IndexOfFrom(s: string, p: string, k: nat): (r: Option<nat>)
    ensures r.Some? ==> k <= r.value && OccursAt(s, p, r.value)
    ensures r.Some? ==> forall j :: k <= j < r.value ==> !OccursAt(s, p, j)
    ensures r.None? ==> forall j :: k <= j ==> !OccursAt(s, p, j)
    decreases |s| - k
  {
    if k + |p| > |s| then None
    else if s[k..k + |p|] == p then Some(k)
    else IndexOfFrom(s, p, k + 1)
  }

  /** `s.indexOf(p)`: the index of the first occurrence, or -1. */
  function IndexOf(s: string, p: string): (r: int)
    ensures r == -1 <==> forall j :: !OccursAt(s, p, j)
    ensures r != -1 ==> 0 <= r && OccursAt(s, p, r) && forall j :: 0 <= j < r ==> !OccursAt(s, p, j)
  {
    match IndexOfFrom(s, p, 0)
    case None => -1
    case Some(i) => i
  }

  /** `s.includes(p)`. */
  function Includes(s: string, p: string): (b: bool)
    ensures b <==> exists j :: OccursAt(s, p, j)
  {
    IndexOf(s, p) != -1
  }

  /** `s.split(c)[0]`: the text before the first `c`, or all of `s`. */
  function FirstPiece(s: string, c: char): (r: string)
    ensures c !in r
    ensures r <= s
    ensures |r| < |s| ==> s[|r|] == c
  {
    if s == [] then []
    else if s[0] == c then []
    else [s[0]] + FirstPiece(s[1..], c)
  }

  /** The three properties of FirstPiece determine it: any prefix free of
      `c` that stops at a `c` or at the end is the first piece. */
  lemma {:induction false} FirstPieceUnique(s: string, c: char, r: string)
    requires r <= s && c !in r && (|r| < |s| ==> s[|r|] == c)
    ensures FirstPiece(s, c) == r
    decreases |s|
  {
    if s != [] && s[0] != c {
      assert r != [] && r[0] == s[0];
      FirstPieceUnique(s[1..], c, r[1..]);
      assert [s[0]] + r[1..] == r;
    }
  }

  /** extractVersion (app.js:403-408): "0" when the prefix does not occur;
      otherwise what follows its first occurrence, cut at the first space
      and then at the first '.'. The result holds neither a space nor a
      '.', and it is the longest such prefix of the text after the token. */
  function ExtractVersion(ua: string, prefix: string): (r: string)
    ensures IndexOf(ua, prefix) == -1 ==> r == "0"
    ensures IndexOf(ua, prefix) != -1 ==>
              var rest := ua[IndexOf(ua, prefix) + |prefix|..];
              && ' ' !in r && '.' !in r
              && r <= rest
              && (|r| < |rest| ==> rest[|r|] == ' ' || rest[|r|] == '.')
  {
    var i := IndexOf(ua, prefix);
    if i == -1 then "0"
    else
      var rest := ua[i + |prefix|..];
      var beforeSpace := FirstPiece(rest, ' ');
      var r := FirstPiece(beforeSpace, '.');
      assert r <= rest by {
        assert rest[..|beforeSpace|] == beforeSpace;
        assert beforeSpace[..|r|] == r;
      }
      assert |r| < |rest| ==> rest[|r|] == ' ' || rest[|r|] == '.' by {
        if |r| < |beforeSpace| {
          assert rest[|r|] == beforeSpace[|r|];
        }
      }
      r
  }

  datatype BrowserName = Chrome | Firefox | Safari | Edge | Unknown

  datatype BrowserInfo = BrowserInfo(name: BrowserName, version: string)

  /** detectBrowser (app.js:387-401): the tests run in order, so a
      user agent naming several browsers takes the first rule that
      matches, and each answer's clause says that the earlier rules failed. The result is Unknown exactly when none of the tokens
      "Chrome", "Firefox", "Safari" and "Edg" occurs; an Edge user agent,
      which also names Chrome, is Edge unless it names Firefox. */
  function DetectBrowser(ua: string): (b: BrowserInfo)
    ensures b.name == Chrome ==>
              Includes(ua, "Chrome") && !Includes(ua, "Edg") && b.version == ExtractVersion(ua, "Chrome/")
    ensures b.name == Firefox ==>
              Includes(ua, "Firefox") && !(Includes(ua, "Chrome") && !Includes(ua, "Edg"))
              && b.version == ExtractVersion(ua, "Firefox/")
    ensures b.name == Safari ==>
              Includes(ua, "Safari") && !Includes(ua, "Chrome") && !Includes(ua, "Firefox")
              && b.version == ExtractVersion(ua, "Version/")
    ensures b.name == Edge ==>
              Includes(ua, "Edg") && !Includes(ua, "Firefox") && !(Includes(ua, "Safari") && !Includes(ua, "Chrome"))
              && b.version == ExtractVersion(ua, "Edg/")
    ensures b.name == Unknown <==>
              !Includes(ua, "Chrome") && !Includes(ua, "Firefox") && !Includes(ua, "Safari") && !Includes(ua, "Edg")
    ensures b.name == Unknown ==> b.version == "0"
    ensures Includes(ua, "Edg") && !Includes(ua, "Firefox") ==>
              (b.name == Edge <==> !(Includes(ua, "Safari") && !Includes(ua, "Chrome")))
    ensures Includes(ua, "Edg") && Includes(ua, "Chrome") && !Includes(ua, "Firefox") ==> b.name == Edge
  {
    if Includes(ua, "Chrome") && !Includes(ua, "Edg") then BrowserInfo(Chrome, ExtractVersion(ua, "Chrome/"))
    else if Includes(ua, "Firefox") then BrowserInfo(Firefox, ExtractVersion(ua, "Firefox/"))
    else if Includes(ua, "Safari") && !Includes(ua, "Chrome") then BrowserInfo(Safari, ExtractVersion(ua, "Version/"))
    else if Includes(ua, "Edg") then BrowserInfo(Edge, ExtractVersion(ua, "Edg/"))
    else BrowserInfo(Unknown, "0")
  }

  /** A Chrome user agent yields its major version. */
  lemma ChromeMajorVersion()
    ensures ExtractVersion("Chrome/120.0 Safari", "Chrome/") == "120"
  {
    var ua := "Chrome/120.0 Safari";
    assert OccursAt(ua, "Chrome/", 0);
    assert IndexOf(ua, "Chrome/") == 0;
    var rest := ua[7..];
    assert rest == "120.0 Safari";
    FirstPieceUnique(rest, ' ', "120.0");
    FirstPieceUnique("120.0", '.', "120");
  }
}
