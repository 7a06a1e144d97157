/** The landing page's Analyze action: trim the field, reject empty input,
    reject input the parser cannot read, otherwise route to the profile's
    analysis page. Routing is returned as a value, not performed. */
module Landing {
  import opened Text
  import opened Username

  const EmptyInputError: string := "Please enter an Instagram profile URL or username"
  const InvalidFormatError: string := "Invalid Instagram URL or username format"
  const AnalyzeRoute: string := "/analyze/"

  /** What one press of Analyze decides about the text in the input field. */
  datatype Decision = RejectEmpty | RejectFormat | Navigate(username: string)

  function Decide(input: string): (d: Decision)
    ensures d.RejectEmpty? <==> AllWhitespace(input)
    ensures d.RejectFormat? <==> !AllWhitespace(input) && ExtractUsername(Trim(input)).None?
    ensures d.Navigate? ==> ExtractUsername(Trim(input)) == Some(d.username)
    ensures d.Navigate? ==> IsHandle(d.username)
  {
    var t := Trim(input);
    if t == "" then RejectEmpty
    else
      match ExtractUsername(t)
      case None => RejectFormat
      case Some(u) => Navigate(u)
  }

  /** The target of `router.push(`/analyze/${username}`)`. */
  function AnalyzePath(username: string): (path: string)
    ensures |path| == |AnalyzeRoute| + |username|
    ensures path[..|AnalyzeRoute|] == AnalyzeRoute && path[|AnalyzeRoute|..] == username
  {
    AnalyzeRoute + username
  }

  /** A handle (and so any handle Decide navigates to) holds no '/', so
      nothing after "/analyze/" in the pushed path is a segment separator.
      Dot-only handles are still accepted: see DotOnlyHandlesNavigate. */
  lemma RouteSegmentIsHandle(username: string)
    requires IsHandle(username)
    ensures forall i :: |AnalyzeRoute| <= i < |AnalyzePath(username)| ==> AnalyzePath(username)[i] != '/'
  {
    var path := AnalyzePath(username);
    forall i | |AnalyzeRoute| <= i < |path| ensures path[i] != '/' {
      assert path[i] == username[i - |AnalyzeRoute|];
      assert IsHandleChar(username[i - |AnalyzeRoute|]);
    }
  }

  /** Surrounding whitespace never changes the decision: the parser only ever
      sees the trimmed text. */
  lemma DecideIgnoresSurroundingSpace(input: string)
    ensures Decide(Trim(input)) == Decide(input)
  {
    TrimIdempotent(input);
  }

  /** Padding any input with whitespace on either side never changes the
      outcome. */
  lemma DecideIgnoresPadding(l: string, input: string, r: string)
    requires AllWhitespace(l) && AllWhitespace(r)
    ensures Decide(l + input + r) == Decide(input)
  {
    TrimAbsorbsPadding(l, input, r);
  }

  class LandingPage {
    var instagramUrl: string
    var loading: bool
    var error: string

    constructor ()
      ensures instagramUrl == "" && !loading && error == ""
    {
      instagramUrl, loading, error := "", false, "";
    }

    /** The input's onChange handler, and the "Try examples" buttons. */
    method SetInstagramUrl(v: string)
      modifies this`instagramUrl
      ensures instagramUrl == v
    {
      instagramUrl := v;
    }

    /** `handleAnalyze`: returns the route pushed, if any. Empty input leaves
        `loading` as it was; a parse failure resets it; success leaves it set
        while the navigation happens. The field itself is never changed. */
    method HandleAnalyze() returns (route: Option<string>)
      modifies this`loading, this`error
      ensures match Decide(instagramUrl)
        case RejectEmpty => error == EmptyInputError && loading == old(loading) && route == None
        case RejectFormat => error == InvalidFormatError && !loading && route == None
        case Navigate(u) => error == "" && loading && route == Some(AnalyzePath(u))
    {
      if Trim(instagramUrl) == "" {
        error := EmptyInputError;
        return None;
      }
      loading := true;
      error := "";
      var username := ExtractUsername(Trim(instagramUrl));
      if username.None? {
        error := InvalidFormatError;
        loading := false;
        return None;
      }
      route := Some(AnalyzePath(username.value));
    }

    /** The input's onKeyPress handler: Enter runs Analyze (even while the
        button is disabled), any other key does nothing. */
    method KeyPress(key: string) returns (route: Option<string>)
      modifies this`loading, this`error
      ensures key != "Enter" ==> route == None && loading == old(loading) && error == old(error)
      ensures key == "Enter" ==> match Decide(instagramUrl)
        case RejectEmpty => error == EmptyInputError && loading == old(loading) && route == None
        case RejectFormat => error == InvalidFormatError && !loading && route == None
        case Navigate(u) => error == "" && loading && route == Some(AnalyzePath(u))
    {
      route := None;
      if key == "Enter" {
        route := HandleAnalyze();
      }
    }
  }

  /** Handles made only of dots pass the character class, so "@.." and
      "instagram.com/.." navigate to "/analyze/..", a path whose last segment
      is a dot segment rather than a profile name. */
  lemma DotOnlyHandlesNavigate()
    ensures Decide("@..") == Navigate("..")
    ensures Decide(InstagramHost + "..") == Navigate("..")
    ensures AnalyzePath("..") == "/analyze/.."
  {
    AtDotsNavigate();
    HostDotsNavigate();
  }

  lemma AtDotsNavigate()
    ensures Decide("@..") == Navigate("..")
  {
    assert IsHandle("..");
    assert "@.." == "" + "@.." + "" && AllWhitespace("");
    TrimPadded("", "@..", "");
    BareInputYieldsHandle("@..", "..");
  }

  lemma HostDotsNavigate()
    ensures Decide(InstagramHost + "..") == Navigate("..")
  {
    var url := InstagramHost + "..";
    assert IsHandle("..");
    assert url == "" + url + "" && AllWhitespace("");
    assert url[0] == 'i' && url[|url| - 1] == '.';
    TrimPadded("", url, "");
    HostCaptureOfLeadingHost(url, "..");
  }

  /** Trimming "  @john_doe " leaves "@john_doe". */
  lemma PaddedInputTrims()
    ensures Trim("  @john_doe ") == "@john_doe"
  {
    assert AllWhitespace("  ") && AllWhitespace(" ");
    assert "  @john_doe " == "  " + "@john_doe" + " ";
    TrimPadded("  ", "@john_doe", " ");
  }

  /** Typing "  @john_doe " and pressing Analyze routes to /analyze/john_doe. */
  lemma PaddedAtHandleRoutes()
    ensures Decide("  @john_doe ") == Navigate("john_doe")
  {
    PaddedInputTrims();
    BareInputYieldsHandle("@john_doe", "john_doe");
  }
}
