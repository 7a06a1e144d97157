/** The Instagram profile-input parser of the landing page: three patterns
    tried in a fixed order, the first capture winning.

      1. (?:https?:\/\/)?(?:www\.)?instagram\.com\/([a-zA-Z0-9._]+)\/?   (search)
      2. (?:https?:\/\/)?(?:www\.)?ig\.me\/([a-zA-Z0-9._]+)\/?           (search)
      3. ^@?([a-zA-Z0-9._]+)$                                            (whole string)

    Patterns 1 and 2 are modelled by a direct scan (HostCapture), and the
    lemma RegexSearchIsHostCapture proves that scan equal to a model of the
    backtracking engine's leftmost-match search, optional prefixes included. */
module Username {
  import opened Text

  /** The character class [a-zA-Z0-9._] shared by the three patterns. */
  predicate IsHandleChar(c: char) {
    ('a' <= c <= 'z') || ('A' <= c <= 'Z') || ('0' <= c <= '9') || c == '.' || c == '_'
  }

  /** A non-empty string of handle characters: anything `([a-zA-Z0-9._]+)` can capture. */
  predicate IsHandle(h: string) {
    |h| > 0 && forall i :: 0 <= i < |h| ==> IsHandleChar(h[i])
  }

  const InstagramHost: string := "instagram.com/"
  const IgMeHost: string := "ig.me/"

  /** Length of the maximal run of handle characters starting at `i`. */
  function RunLength(s: string, i: nat): (n: nat)
    requires i <= |s|
    ensures i + n <= |s|
    ensures forall k :: i <= k < i + n ==> IsHandleChar(s[k])
    ensures i + n == |s| || !IsHandleChar(s[i + n])
    decreases |s| - i
  {
    if i == |s| || !IsHandleChar(s[i]) then 0 else 1 + RunLength(s, i + 1)
  }

  /** What the greedy `([a-zA-Z0-9._]+)` captures from position `i`. */
  function HandleRun(s: string, i: nat): (h: string)
    requires i <= |s|
    ensures |h| == RunLength(s, i)
    ensures forall k :: 0 <= k < |h| ==> IsHandleChar(h[k])
    ensures i + |h| == |s| || !IsHandleChar(s[i + |h|])
    ensures i < |s| && IsHandleChar(s[i]) ==> IsHandle(h)
  {
    s[i..i + RunLength(s, i)]
  }

  /** `lit` occurs in `s` at position `q`. */
  predicate LiteralAt(s: string, q: nat, lit: string) {
    q + |lit| <= |s| && s[q..q + |lit|] == lit
  }

  /** `lit` occurs at `q` and is followed by at least one handle character. */
  predicate HostAt(s: string, q: nat, lit: string) {
    q + |lit| < |s| && s[q..q + |lit|] == lit && IsHandleChar(s[q + |lit|])
  }

  /** The first position at or after `from` where HostAt holds. */
  function FirstHostFrom(s: string, lit: string, from: nat): (r: Option<nat>)
    ensures r.Some? ==> from <= r.value && HostAt(s, r.value, lit)
    ensures r.Some? ==> forall j :: from <= j < r.value ==> !HostAt(s, j, lit)
    ensures r.None? ==> forall j: nat :: from <= j ==> !HostAt(s, j, lit)
    decreases |s| - from
  {
    if from + |lit| >= |s| then None
    else if HostAt(s, from, lit) then Some(from)
    else FirstHostFrom(s, lit, from + 1)
  }

  /** Capture group 1 of pattern 1 (lit = "instagram.com/") or pattern 2
      (lit = "ig.me/"): the maximal handle run after the first occurrence of
      the literal that is followed by a handle character. */
  function HostCapture(s: string, lit: string): (r: Option<string>)
    ensures r.Some? ==> IsHandle(r.value)
    ensures r.None? <==> forall j: nat :: !HostAt(s, j, lit)
  {
    match FirstHostFrom(s, lit, 0)
    case Some(q) => Some(HandleRun(s, q + |lit|))
    case None => None
  }

  /** Capture group 1 of pattern 3, `^@?([a-zA-Z0-9._]+)$`: the whole input,
      less one leading `@`, when that is a handle. */
  function BareHandle(s: string): (r: Option<string>)
    ensures r.Some? <==> IsHandle(s) || (|s| > 0 && s[0] == '@' && IsHandle(s[1..]))
    ensures r.Some? ==> IsHandle(r.value) && (s == r.value || s == ['@'] + r.value)
  {
    if |s| > 0 && s[0] == '@' then
      (if IsHandle(s[1..]) then Some(s[1..]) else None)
    else if IsHandle(s) then Some(s)
    else None
  }

  datatype Pattern = InstagramUrl | IgMeUrl | AtHandle

  /** The source's pattern list, in the order it is tried. */
  const Patterns: seq<Pattern> := [InstagramUrl, IgMeUrl, AtHandle]

  /** `url.match(pattern)?.[1]` for one pattern of the list. */
  function MatchPattern(p: Pattern, url: string): (r: Option<string>)
    ensures r.Some? ==> IsHandle(r.value)
  {
    match p
    case InstagramUrl => HostCapture(url, InstagramHost)
    case IgMeUrl => HostCapture(url, IgMeHost)
    case AtHandle => BareHandle(url)
  }

  /** The `for ... of patterns` loop: the capture of the first pattern that matches. */
  function FirstMatch(ps: seq<Pattern>, url: string): (r: Option<string>)
    ensures r.Some? ==> IsHandle(r.value)
    ensures r.Some? ==> exists i :: 0 <= i < |ps| && MatchPattern(ps[i], url) == r &&
                                    forall j :: 0 <= j < i ==> MatchPattern(ps[j], url).None?
    ensures r.None? <==> forall i :: 0 <= i < |ps| ==> MatchPattern(ps[i], url).None?
  {
    if ps == [] then None
    else
      var m := MatchPattern(ps[0], url);
      if m.Some? then m
      else
        var rest := FirstMatch(ps[1..], url);
        assert forall i :: 1 <= i < |ps| ==> ps[i] == ps[1..][i - 1];
        rest
  }

  /** `extractUsername(url)`: a handle, or None for the source's `null`. */
  function ExtractUsername(url: string): (r: Option<string>)
    ensures r.Some? ==> IsHandle(r.value)
  {
    FirstMatch(Patterns, url)
  }

  /** ExtractUsername unfolded along the pattern order. */
  lemma ExtractInOrder(url: string)
    ensures ExtractUsername(url) ==
      if HostCapture(url, InstagramHost).Some? then HostCapture(url, InstagramHost)
      else if HostCapture(url, IgMeHost).Some? then HostCapture(url, IgMeHost)
      else BareHandle(url)
  {
    var p1, p2, p3 := Patterns[1..], Patterns[1..][1..], Patterns[1..][1..][1..];
    assert p1 == [IgMeUrl, AtHandle] && p2 == [AtHandle] && p3 == [];
    assert FirstMatch(p3, url) == None;
    assert FirstMatch(p2, url) == BareHandle(url);
    assert FirstMatch(p1, url) == if HostCapture(url, IgMeHost).Some? then HostCapture(url, IgMeHost) else BareHandle(url);
  }

  /** Pattern 1 wins: once "instagram.com/" followed by a handle character
      occurs anywhere, its capture is the result, whatever else also fits. */
  lemma InstagramUrlWins(url: string, q: nat)
    requires HostAt(url, q, InstagramHost)
    ensures ExtractUsername(url).Some?
    ensures ExtractUsername(url) == HostCapture(url, InstagramHost)
  {
    ExtractInOrder(url);
  }

  /** Pattern 2 comes next: with no pattern-1 match, an "ig.me/" match wins
      over the bare-handle reading. */
  lemma IgMeUrlWinsOverBare(url: string, q: nat)
    requires HostCapture(url, InstagramHost).None?
    requires HostAt(url, q, IgMeHost)
    ensures ExtractUsername(url).Some?
    ensures ExtractUsername(url) == HostCapture(url, IgMeHost)
  {
    ExtractInOrder(url);
  }

  /** A handle string contains no '/', so neither URL literal occurs in it. */
  lemma NoHostInHandle(s: string, lit: string, q: nat)
    requires IsHandle(s)
    requires |lit| > 0 && lit[|lit| - 1] == '/'
    ensures !HostAt(s, q, lit)
  {
    if q + |lit| <= |s| {
      assert s[q..q + |lit|][|lit| - 1] == s[q + |lit| - 1];
    }
  }

  /** An input that is an optional '@' followed by handle characters yields
      exactly that handle, the '@' dropped. */
  lemma BareInputYieldsHandle(url: string, h: string)
    requires IsHandle(h)
    requires url == h || url == ['@'] + h
    ensures ExtractUsername(url) == Some(h)
  {
    ExtractInOrder(url);
    forall q: nat ensures !HostAt(url, q, InstagramHost) && !HostAt(url, q, IgMeHost) {
      if url == h {
        NoHostInHandle(url, InstagramHost, q);
        NoHostInHandle(url, IgMeHost, q);
      } else {
        NoHostAfterAt(url, h, InstagramHost, q);
        NoHostAfterAt(url, h, IgMeHost, q);
      }
    }
    if url != h {
      assert url[0] == '@' && url[1..] == h;
    }
  }

  lemma NoHostAfterAt(url: string, h: string, lit: string, q: nat)
    requires IsHandle(h) && url == ['@'] + h
    requires lit == InstagramHost || lit == IgMeHost
    ensures !HostAt(url, q, lit)
  {
    if q == 0 {
      if |lit| <= |url| {
        assert url[q..q + |lit|][0] == '@';
      }
    } else {
      NoHostInHandle(h, lit, q - 1);
      if q + |lit| <= |url| {
        assert url[q..q + |lit|] == h[q - 1..q - 1 + |lit|];
      }
    }
  }

  /** Exactly when the parser returns null: no URL literal followed by a
      handle character anywhere (case-sensitively), and the input is not an
      optional '@' followed by a handle. */
  lemma NullExactly(url: string)
    ensures ExtractUsername(url).None? <==>
      && (forall q: nat :: !HostAt(url, q, InstagramHost))
      && (forall q: nat :: !HostAt(url, q, IgMeHost))
      && !IsHandle(url)
      && !(|url| > 0 && url[0] == '@' && IsHandle(url[1..]))
  {
    ExtractInOrder(url);
  }

  /** The captured handle is a maximal handle run of the input: it occurs at
      some position, and neither the character before it nor the one after it
      (when present) is a handle character. */
  predicate MaximalRunAt(s: string, k: nat, h: string) {
    && k + |h| <= |s| && s[k..k + |h|] == h
    && (k == 0 || !IsHandleChar(s[k - 1]))
    && (k + |h| == |s| || !IsHandleChar(s[k + |h|]))
  }

  lemma ResultIsMaximalRun(url: string)
    requires ExtractUsername(url).Some?
    ensures exists k: nat :: MaximalRunAt(url, k, ExtractUsername(url).value)
  {
    ExtractInOrder(url);
    var h := ExtractUsername(url).value;
    if HostCapture(url, InstagramHost).Some? {
      assert InstagramHost[|InstagramHost| - 1] == '/';
      HostCaptureIsMaximal(url, InstagramHost);
    } else if HostCapture(url, IgMeHost).Some? {
      assert IgMeHost[|IgMeHost| - 1] == '/';
      HostCaptureIsMaximal(url, IgMeHost);
    } else if url == h {
      assert MaximalRunAt(url, 0, h);
    } else {
      assert url[1..] == h;
      assert MaximalRunAt(url, 1, h);
    }
  }

  lemma HostCaptureIsMaximal(url: string, lit: string)
    requires |lit| > 0 && lit[|lit| - 1] == '/'
    requires HostCapture(url, lit).Some?
    ensures exists k: nat :: MaximalRunAt(url, k, HostCapture(url, lit).value)
  {
    var q := FirstHostFrom(url, lit, 0).value;
    var k := q + |lit|;
    assert url[k - 1] == url[q..q + |lit|][|lit| - 1] == '/';
    assert MaximalRunAt(url, k, HostCapture(url, lit).value);
  }

  // ----- The backtracking engine's search for patterns 1 and 2 -----

  /** The optional prefix `(?:https?:\/\/)?(?:www\.)?` in the order the
      greedy engine tries it. */
  const UrlPrefixes: seq<string> :=
    ["https://www.", "https://", "http://www.", "http://", "www.", ""]

  /** The first of `prefixes` with which the pattern for `lit` matches at
      start position `p`; when the empty prefix is among them, an occurrence
      at `p` always matches. */
  function PrefixMatchAt(s: string, lit: string, p: nat, prefixes: seq<string>): (r: Option<string>)
    ensures r.Some? ==> r.value in prefixes
    ensures r.Some? ==> LiteralAt(s, p, r.value) && HostAt(s, p + |r.value|, lit)
    ensures "" in prefixes && HostAt(s, p, lit) ==> r.Some?
  {
    if prefixes == [] then None
    else if LiteralAt(s, p, prefixes[0]) && HostAt(s, p + |prefixes[0]|, lit) then Some(prefixes[0])
    else
      assert "" in prefixes ==> prefixes[0] == "" || "" in prefixes[1..];
      PrefixMatchAt(s, lit, p, prefixes[1..])
  }

  /** The leftmost match of the whole pattern, trying start positions
      p, p+1, ...: capture group 1 of the first successful start. */
  function RegexSearchFrom(s: string, lit: string, prefixes: seq<string>, p: nat): (r: Option<string>)
    requires p <= |s|
    ensures r.Some? ==> IsHandle(r.value)
    ensures "" in prefixes && r.None? ==> forall j: nat :: p <= j ==> !HostAt(s, j, lit)
    decreases |s| - p
  {
    match PrefixMatchAt(s, lit, p, prefixes)
    case Some(pre) => Some(HandleRun(s, p + |pre| + |lit|))
    case None => if p == |s| then None else RegexSearchFrom(s, lit, prefixes, p + 1)
  }

  /** No 'i' appears in a prefix free of 'i', so such a prefix cannot overlap
      an occurrence of a literal that starts with 'i', as "instagram.com/"
      and "ig.me/" do. */
  lemma NoHostInsidePrefix(s: string, lit: string, p: nat, pre: string, j: nat)
    requires |lit| > 0 && lit[0] == 'i'
    requires FreeOfI(pre) && LiteralAt(s, p, pre)
    requires p <= j < p + |pre|
    ensures !HostAt(s, j, lit)
  {
    assert s[j] == s[p..p + |pre|][j - p] != 'i';
    if j + |lit| <= |s| {
      assert s[j..j + |lit|][0] == s[j];
    }
  }

  predicate FreeOfI(t: string) {
    forall i :: 0 <= i < |t| ==> t[i] != 'i'
  }

  /** What the search lemmas need of a prefix list: it offers the empty
      prefix, and no prefix contains an 'i'. */
  predicate SearchablePrefixes(prefixes: seq<string>) {
    && "" in prefixes
    && forall t :: t in prefixes ==> FreeOfI(t)
  }

  lemma UrlPrefixesSearchable()
    ensures SearchablePrefixes(UrlPrefixes)
  {
    assert UrlPrefixes[5] == "";
    assert FreeOfI("https://www.");
    assert FreeOfI("https://");
    assert FreeOfI("http://www.");
    assert FreeOfI("http://");
    assert FreeOfI("www.");
    assert FreeOfI("");
  }

  /** The prefix the engine settles on at a start position no later than
      the first literal-plus-handle occurrence ends exactly at that occurrence. */
  lemma MatchedPrefixEndsAtFirstHost(s: string, lit: string, p: nat, pre: string)
    requires |lit| > 0 && lit[0] == 'i'
    requires FreeOfI(pre) && LiteralAt(s, p, pre) && HostAt(s, p + |pre|, lit)
    requires FirstHostFrom(s, lit, 0).None? || p <= FirstHostFrom(s, lit, 0).value
    ensures FirstHostFrom(s, lit, 0) == Some(p + |pre|)
  {
    var f := FirstHostFrom(s, lit, 0);
    assert f.Some?;
    if f.value < p + |pre| {
      NoHostInsidePrefix(s, lit, p, pre, f.value);
    }
  }

  /** The direct scan's capture, given where the first occurrence is. */
  lemma HostCaptureOfFirst(s: string, lit: string, q: nat, h: string)
    requires FirstHostFrom(s, lit, 0) == Some(q)
    requires h == HandleRun(s, q + |lit|)
    ensures HostCapture(s, lit) == Some(h)
  {
  }

  lemma {:induction false} RegexSearchFromFirst(s: string, lit: string, prefixes: seq<string>, p: nat)
    requires |lit| > 0 && lit[0] == 'i'
    requires SearchablePrefixes(prefixes)
    requires p <= |s|
    requires FirstHostFrom(s, lit, 0).None? || p <= FirstHostFrom(s, lit, 0).value
    ensures RegexSearchFrom(s, lit, prefixes, p) == HostCapture(s, lit)
    decreases |s| - p
  {
    var m := PrefixMatchAt(s, lit, p, prefixes);
    if m.Some? {
      // A match before the first occurrence ends exactly at it.
      MatchedPrefixEndsAtFirstHost(s, lit, p, m.value);
      HostCaptureOfFirst(s, lit, p + |m.value|, HandleRun(s, p + |m.value| + |lit|));
    } else if p < |s| {
      // The empty prefix matches at the first occurrence, so p is before it.
      RegexSearchFromFirst(s, lit, prefixes, p + 1);
    }
  }

  /** The direct scan HostCapture equals the engine's leftmost-match search:
      the optional `https://` and `www.` prefixes never change the capture. */
  lemma RegexSearchIsHostCapture(s: string, lit: string)
    requires lit == InstagramHost || lit == IgMeHost
    ensures RegexSearchFrom(s, lit, UrlPrefixes, 0) == HostCapture(s, lit)
  {
    assert lit[0] == 'i';
    UrlPrefixesSearchable();
    RegexSearchFromFirst(s, lit, UrlPrefixes, 0);
  }

  // ----- Concrete inputs -----

  /** The three "Try examples" buttons of the landing page put these inputs
      in the field; each parses to the handle the button shows. */
  lemma ExampleButtonsParse()
    ensures ExtractUsername(InstagramHost + "cristiano") == Some("cristiano")
    ensures ExtractUsername(InstagramHost + "selenagomez") == Some("selenagomez")
    ensures ExtractUsername(InstagramHost + "kyliejenner") == Some("kyliejenner")
  {
    assert IsHandle("cristiano") && IsHandle("selenagomez") && IsHandle("kyliejenner");
    HostCaptureOfLeadingHost(InstagramHost + "cristiano", "cristiano");
    HostCaptureOfLeadingHost(InstagramHost + "selenagomez", "selenagomez");
    HostCaptureOfLeadingHost(InstagramHost + "kyliejenner", "kyliejenner");
  }

  /** An input that is "instagram.com/" followed by a handle parses to it. */
  lemma HostCaptureOfLeadingHost(url: string, h: string)
    requires IsHandle(h) && url == InstagramHost + h
    ensures ExtractUsername(url) == Some(h)
  {
    assert url[..|InstagramHost|] == InstagramHost;
    assert HostAt(url, 0, InstagramHost);
    InstagramUrlWins(url, 0);
    assert FirstHostFrom(url, InstagramHost, 0) == Some(0);
    RunToEnd(url, |InstagramHost|);
    assert HandleRun(url, |InstagramHost|) == url[|InstagramHost|..] == h;
  }

  /** From a position after which only handle characters follow, the run
      reaches the end of the string. */
  lemma {:induction false} RunToEnd(s: string, i: nat)
    requires i <= |s|
    requires forall k :: i <= k < |s| ==> IsHandleChar(s[k])
    ensures RunLength(s, i) == |s| - i
    decreases |s| - i
  {
    if i < |s| {
      RunToEnd(s, i + 1);
    }
  }

  /** Both URL literals begin with a lowercase 'i', so a string without one
      contains neither. */
  lemma NoHostWithoutI(s: string, lit: string, q: nat)
    requires FreeOfI(s)
    requires lit == InstagramHost || lit == IgMeHost
    ensures !HostAt(s, q, lit)
  {
    if q + |lit| <= |s| {
      assert s[q..q + |lit|][0] == s[q];
    }
  }

  /** An input with no lowercase 'i' and a non-handle character after its
      first position (so not even after a leading '@') is rejected. */
  lemma RejectedWithoutHostOrHandle(url: string, k: nat)
    requires FreeOfI(url)
    requires 0 < k < |url| && !IsHandleChar(url[k])
    ensures ExtractUsername(url) == None
  {
    ExtractInOrder(url);
    forall q: nat ensures !HostAt(url, q, InstagramHost) && !HostAt(url, q, IgMeHost) {
      NoHostWithoutI(url, InstagramHost, q);
      NoHostWithoutI(url, IgMeHost, q);
    }
    assert url[1..][k - 1] == url[k];
  }

  /** Matching is case-sensitive: a capitalised host is not pattern 1, and
      the '/' rules out the bare-handle reading. */
  lemma CapitalisedHostIsRejected()
    ensures ExtractUsername("Instagram.com/x") == None
  {
    var url := "Instagram.com/x";
    assert FreeOfI(url);
    RejectedWithoutHostOrHandle(url, 13);
  }

  /** Without the slash the host is not pattern 1: "instagram.com" is
      itself accepted as a bare handle. */
  lemma HostWithoutSlashIsAHandle()
    ensures ExtractUsername("instagram.com") == Some("instagram.com")
  {
    BareInputYieldsHandle("instagram.com", "instagram.com");
  }
}
