/** Small string helpers shared by the page models: an Option type, the
    JavaScript `String.prototype.trim` whitespace set, ASCII upper-casing and
    the way a template literal renders a possibly absent JSON field. */
module Text {

  datatype Option<+T> = None | Some(value: T) {
    function GetOr(default: T): T {
      match this
      case Some(v) => v
      case None => default
    }
  }

  /** WhiteSpace and LineTerminator code points of ECMAScript, the set that
      `trim()` removes from both ends of a string. */
  predicate IsJsWhitespace(c: char) {
    || c == '\t' || c == '\n' || c == '\U{000B}' || c == '\U{000C}' || c == '\r'
    || c == ' ' || c == '\U{00A0}' || c == '\U{1680}'
    || ('\U{2000}' <= c <= '\U{200A}')
    || c == '\U{2028}' || c == '\U{2029}' || c == '\U{202F}' || c == '\U{205F}'
    || c == '\U{3000}' || c == '\U{FEFF}'
  }

  predicate AllWhitespace(s: string) {
    forall i :: 0 <= i < |s| ==> IsJsWhitespace(s[i])
  }

  /** Index of the first non-whitespace character at or after `i` (or |s|). */
  function SkipSpaceForward(s: string, i: nat): (j: nat)
    requires i <= |s|
    ensures i <= j <= |s|
    ensures forall k :: i <= k < j ==> IsJsWhitespace(s[k])
    ensures j == |s| || !IsJsWhitespace(s[j])
    decreases |s| - i
  {
    if i == |s| || !IsJsWhitespace(s[i]) then i else SkipSpaceForward(s, i + 1)
  }

  /** Index just past the last non-whitespace character in s[lo..j] (or lo). */
  function SkipSpaceBackward(s: string, lo: nat, j: nat): (e: nat)
    requires lo <= j <= |s|
    ensures lo <= e <= j
    ensures forall k :: e <= k < j ==> IsJsWhitespace(s[k])
    ensures e == lo || !IsJsWhitespace(s[e - 1])
    decreases j - lo
  {
    if j == lo || !IsJsWhitespace(s[j - 1]) then j else SkipSpaceBackward(s, lo, j - 1)
  }

  /** The bounds `trim()` keeps: everything outside s[a..b] is whitespace, and
      the kept piece, when non-empty, starts and ends with non-whitespace. */
  function TrimBounds(s: string): (ab: (nat, nat))
    ensures 0 <= ab.0 <= ab.1 <= |s|
    ensures forall k :: 0 <= k < ab.0 ==> IsJsWhitespace(s[k])
    ensures forall k :: ab.1 <= k < |s| ==> IsJsWhitespace(s[k])
    ensures ab.0 < ab.1 ==> !IsJsWhitespace(s[ab.0]) && !IsJsWhitespace(s[ab.1 - 1])
    ensures ab.0 == ab.1 ==> AllWhitespace(s)
  {
    var a := SkipSpaceForward(s, 0);
    var b := SkipSpaceBackward(s, a, |s|);
    assert a < |s| ==> a < b;
    (a, b)
  }

  /** `s.trim()`: whitespace removed from both ends; the result is empty
      exactly when `s` is all whitespace. */
  function Trim(s: string): (r: string)
    ensures |r| <= |s|
    ensures r == [] <==> AllWhitespace(s)
    ensures r == [] || (!IsJsWhitespace(r[0]) && !IsJsWhitespace(r[|r| - 1]))
  {
    var (a, b) := TrimBounds(s);
    assert a < b ==> !IsJsWhitespace(s[a]);
    s[a..b]
  }

  /** Trimming twice is trimming once. */
  lemma TrimIdempotent(s: string)
    ensures Trim(Trim(s)) == Trim(s)
  {
    var r := Trim(s);
    if r != [] {
      assert SkipSpaceForward(r, 0) == 0;
      assert SkipSpaceBackward(r, 0, |r|) == |r|;
      assert r[0..|r|] == r;
    }
  }

  /** Whitespace around a piece that starts and ends with non-whitespace is
      exactly what `trim()` removes. */
  lemma TrimPadded(l: string, m: string, r: string)
    requires AllWhitespace(l) && AllWhitespace(r)
    requires m != [] && !IsJsWhitespace(m[0]) && !IsJsWhitespace(m[|m| - 1])
    ensures Trim(l + m + r) == m
  {
    var s := l + m + r;
    assert s[|l|] == m[0];
    assert s[|l| + |m| - 1] == m[|m| - 1];
    forall k | 0 <= k < |l| ensures IsJsWhitespace(s[k]) {
      assert s[k] == l[k];
    }
    forall k | |l| + |m| <= k < |s| ensures IsJsWhitespace(s[k]) {
      assert s[k] == r[k - |l| - |m|];
    }
    assert SkipSpaceForward(s, 0) == |l|;
    assert SkipSpaceBackward(s, |l|, |s|) == |l| + |m|;
    assert s[|l|..|l| + |m|] == m;
  }

  /** Two all-whitespace strings join into one. */
  lemma WhitespaceConcat(a: string, b: string)
    requires AllWhitespace(a) && AllWhitespace(b)
    ensures AllWhitespace(a + b)
  {
    forall k | 0 <= k < |a + b| ensures IsJsWhitespace((a + b)[k]) {
      if k < |a| {
        assert (a + b)[k] == a[k];
      } else {
        assert (a + b)[k] == b[k - |a|];
      }
    }
  }

  /** Whitespace added around any string is removed again by `trim()`. */
  lemma TrimAbsorbsPadding(l: string, x: string, r: string)
    requires AllWhitespace(l) && AllWhitespace(r)
    ensures Trim(l + x + r) == Trim(x)
  {
    var (a, b) := TrimBounds(x);
    if a == b {
      WhitespaceConcat(l, x);
      WhitespaceConcat(l + x, r);
    } else {
      TrimPieces(x, a, b);
      PaddedPieces(l, x, r, a, b);
    }
  }

  /** A string is what `trim()` removes in front, the trimmed piece, and
      what it removes behind. */
  lemma TrimPieces(x: string, a: nat, b: nat)
    requires TrimBounds(x) == (a, b)
    ensures a <= b <= |x| && Trim(x) == x[a..b]
    ensures AllWhitespace(x[..a]) && AllWhitespace(x[b..])
    ensures x == x[..a] + x[a..b] + x[b..]
  {
    var post := x[b..];
    forall k | 0 <= k < |post| ensures IsJsWhitespace(post[k]) {
      assert post[k] == x[b + k];
    }
  }

  /** The non-empty case of TrimAbsorbsPadding: the padding joins the
      whitespace `trim()` already removes from x. */
  lemma PaddedPieces(l: string, x: string, r: string, a: nat, b: nat)
    requires AllWhitespace(l) && AllWhitespace(r)
    requires TrimBounds(x) == (a, b) && a < b
    ensures Trim(l + x + r) == x[a..b]
  {
    TrimPieces(x, a, b);
    var pre, m, post := x[..a], Trim(x), x[b..];
    assert m != [];
    WhitespaceConcat(l, pre);
    WhitespaceConcat(post, r);
    Regroup(l, pre, m, post, r);
    TrimPadded(l + pre, m, post + r);
  }

  lemma Regroup(l: string, pre: string, m: string, post: string, r: string)
    ensures l + (pre + m + post) + r == (l + pre) + m + (post + r)
  {
  }

  /** An ASCII-only stand-in for `toUpperCase` on one character: lowercase
      ASCII letters become capitals, and every other character is kept. */
  function UpperAscii(c: char): (u: char)
    ensures 'a' <= c <= 'z' ==> 'A' <= u <= 'Z' && u as int - c as int == 'A' as int - 'a' as int
    ensures !('a' <= c <= 'z') ==> u == c
  {
    if 'a' <= c <= 'z' then (c as int - 'a' as int + 'A' as int) as char else c
  }

  /** How `${field}` renders a string field of a parsed JSON response: the
      string itself, or "undefined" when the field is absent. */
  function JsText(field: Option<string>): (r: string)
    ensures field.Some? ==> r == field.value
    ensures field.None? ==> r == "undefined"
  {
    field.GetOr("undefined")
  }
}
