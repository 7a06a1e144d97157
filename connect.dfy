/** The connect-account page: five state cells, the setup-guide load on
    mount, the "Generate Auth URL" and "Save Token" handlers, and the render
    guards over that state. Each HTTP exchange is a parameter: the parsed
    response body, or the error the request threw. */
module Connect {
  import opened Text

  datatype ConnectionStep = ConnectionStep(
    step: int, title: string, description: string,
    details: Option<string>, example: Option<string>)

  datatype CurrentStatus = CurrentStatus(clientIdConfigured: bool, tokenAvailable: bool)

  datatype SetupGuide = SetupGuide(title: string, steps: seq<ConnectionStep>, currentStatus: CurrentStatus)

  /** How an awaited `fetch(...)` then `response.json()` ends: a parsed body,
      or a thrown error, carried as its string form `${error}`. */
  datatype Fetched<T> = Received(body: T) | Threw(reason: string)

  /** Body of GET /api/instagram/connect. */
  datatype ConnectResponse = ConnectResponse(success: bool, authUrl: Option<string>, error: Option<string>)

  /** Body of POST /api/instagram/save-token. */
  datatype SaveTokenResponse = SaveTokenResponse(
    success: bool, message: Option<string>, instruction: Option<string>, error: Option<string>)

  /** The success text of `handleConnectInstagram`; written as two literals because the
      verifier reads the characters of a shorter literal, which the proofs
      that tell the messages apart need. */
  const AuthUrlGenerated: string :=
    "Instagram authorization URL generated!" + " Click the button below to connect."
  const ErrorPrefix: string := "Error: "
  const ConnectFailedPrefix: string := "Connection failed: "
  const SuccessPrefix: string := "Success! "
  const SaveFailedPrefix: string := "Failed to save token: "
  const EmptyTokenMessage: string := "Please enter an access token"

  /** The fixed texts start with different characters, so no message built
      on one prefix equals another. */
  lemma ConnectPrefixesDiffer()
    ensures forall t: string :: (ErrorPrefix + t)[0] == 'E' && (ConnectFailedPrefix + t)[0] == 'C'
    ensures AuthUrlGenerated[0] == 'I'
  {
  }

  lemma SavePrefixesDiffer()
    ensures forall t: string :: (ErrorPrefix + t)[0] == 'E' && (SaveFailedPrefix + t)[0] == 'F'
    ensures forall t: string :: (SuccessPrefix + t)[0] == 'S'
    ensures EmptyTokenMessage[0] == 'P'
  {
  }

  /** The message `handleConnectInstagram` leaves for an outcome: never
      empty, and the fixed success text exactly for a successful response. */
  function ConnectMessage(o: Fetched<ConnectResponse>): (m: string)
    ensures m != ""
    ensures m == AuthUrlGenerated <==> o.Received? && o.body.success
  {
    ConnectPrefixesDiffer();
    match o
    case Received(r) => if r.success then AuthUrlGenerated else ErrorPrefix + JsText(r.error)
    case Threw(e) => ConnectFailedPrefix + e
  }

  /** The authorization URL a connect outcome stores, if it stores one. An
      absent `auth_url` is stored as "", which every guard treats like the
      source's undefined. */
  function StoredAuthUrl(o: Fetched<ConnectResponse>): (u: Option<string>)
    ensures u.Some? <==> o.Received? && o.body.success
    ensures u.Some? && o.body.authUrl.Some? ==> u.value == o.body.authUrl.value
    ensures u.Some? && o.body.authUrl.None? ==> u.value == ""
  {
    if o.Received? && o.body.success then Some(o.body.authUrl.GetOr("")) else None
  }

  /** The message `handleSaveToken` leaves for the outcome of its request:
      never empty, and never the text shown when no request is made. */
  function SaveTokenMessage(o: Fetched<SaveTokenResponse>): (m: string)
    ensures m != "" && m != EmptyTokenMessage
  {
    SavePrefixesDiffer();
    match o
    case Received(r) =>
      if r.success then SuccessPrefix + JsText(r.message) + "\n" + JsText(r.instruction)
      else ErrorPrefix + JsText(r.error)
    case Threw(e) => SaveFailedPrefix + e
  }

  /** What a reader of the message box can tell about a connect attempt. */
  datatype ConnectReading = UrlReady | ServerRefused(error: string) | RequestFailed(reason: string) | Unreadable

  /** Reads a connect message back: the fixed success text, or one of the two
      error prefixes followed by the reported text. */
  function ReadConnectMessage(m: string): (r: ConnectReading)
    ensures r.ServerRefused? ==> m == ErrorPrefix + r.error
    ensures r.RequestFailed? ==> m == ConnectFailedPrefix + r.reason
    ensures r.UrlReady? ==> m == AuthUrlGenerated
  {
    if m == AuthUrlGenerated then UrlReady
    else if |m| >= |ErrorPrefix| && m[..|ErrorPrefix|] == ErrorPrefix then ServerRefused(m[|ErrorPrefix|..])
    else if |m| >= |ConnectFailedPrefix| && m[..|ConnectFailedPrefix|] == ConnectFailedPrefix then RequestFailed(m[|ConnectFailedPrefix|..])
    else Unreadable
  }

  /** The three connect outcomes leave messages that tell them apart, and
      each error text can be recovered from the message. */
  lemma ConnectMessageIsReadable(o: Fetched<ConnectResponse>)
    ensures ReadConnectMessage(ConnectMessage(o)) ==
      match o
      case Received(r) => if r.success then UrlReady else ServerRefused(JsText(r.error))
      case Threw(e) => RequestFailed(e)
  {
    var m := ConnectMessage(o);
    match o
    case Received(r) =>
      if !r.success {
        assert m[..|ErrorPrefix|] == ErrorPrefix;
        assert m[|ErrorPrefix|..] == JsText(r.error);
        assert m != AuthUrlGenerated by { assert m[0] == ErrorPrefix[0] != AuthUrlGenerated[0]; }
      }
    case Threw(e) =>
      assert m[..|ConnectFailedPrefix|] == ConnectFailedPrefix;
      assert m[|ConnectFailedPrefix|..] == e;
      assert m != AuthUrlGenerated by { assert m[0] == ConnectFailedPrefix[0] != AuthUrlGenerated[0]; }
      assert |m| < |ErrorPrefix| || m[..|ErrorPrefix|] != ErrorPrefix by {
        assert m[0] != ErrorPrefix[0];
      }
  }

  /** What a reader of the message box can tell about a save attempt. */
  datatype SaveReading =
    | Saved(message: string, instruction: string)
    | SaveRefused(error: string)
    | SaveFailed(reason: string)
    | TokenMissing
    | Unclassified

  /** The position of the last newline in m[..j], if any. */
  function LastNewlineBefore(m: string, j: nat): (k: Option<nat>)
    requires j <= |m|
    ensures k.Some? ==> k.value < j && m[k.value] == '\n'
    ensures k.Some? ==> forall i :: k.value < i < j ==> m[i] != '\n'
    ensures k.None? ==> forall i :: 0 <= i < j ==> m[i] != '\n'
  {
    if j == 0 then None
    else if m[j - 1] == '\n' then Some(j - 1)
    else LastNewlineBefore(m, j - 1)
  }

  /** Splits "Success! <message>\n<instruction>" at its last newline (the
      instruction text, when it has no newline itself, is what follows it). */
  function LastNewline(m: string): (k: Option<nat>)
    ensures k.Some? ==> k.value < |m| && m[k.value] == '\n'
    ensures k.Some? ==> forall i :: k.value < i < |m| ==> m[i] != '\n'
  {
    LastNewlineBefore(m, |m|)
  }

  function ReadSaveMessage(m: string): (r: SaveReading)
    ensures r.SaveRefused? ==> m == ErrorPrefix + r.error
    ensures r.SaveFailed? ==> m == SaveFailedPrefix + r.reason
    ensures r.Saved? ==> m == SuccessPrefix + r.message + "\n" + r.instruction
    ensures r.TokenMissing? ==> m == EmptyTokenMessage
  {
    if m == EmptyTokenMessage then TokenMissing
    else if |m| >= |ErrorPrefix| && m[..|ErrorPrefix|] == ErrorPrefix then SaveRefused(m[|ErrorPrefix|..])
    else if |m| >= |SaveFailedPrefix| && m[..|SaveFailedPrefix|] == SaveFailedPrefix then SaveFailed(m[|SaveFailedPrefix|..])
    else if |m| >= |SuccessPrefix| && m[..|SuccessPrefix|] == SuccessPrefix then
      var body := m[|SuccessPrefix|..];
      match LastNewline(body)
      case Some(k) =>
        assert m == SuccessPrefix + body[..k] + "\n" + body[k + 1..] by {
          assert body == body[..k] + [body[k]] + body[k + 1..];
        }
        Saved(body[..k], body[k + 1..])
      case None => Unclassified
    else Unclassified
  }

  /** The save-token outcomes leave messages that tell them apart, and the
      reported texts can be recovered (the instruction must have no newline
      for the split to be unique). */
  lemma SaveMessageIsReadable(o: Fetched<SaveTokenResponse>)
    requires o.Received? && o.body.success ==> forall j :: 0 <= j < |JsText(o.body.instruction)| ==> JsText(o.body.instruction)[j] != '\n'
    ensures ReadSaveMessage(SaveTokenMessage(o)) ==
      match o
      case Received(r) =>
        if r.success then Saved(JsText(r.message), JsText(r.instruction)) else SaveRefused(JsText(r.error))
      case Threw(e) => SaveFailed(e)
  {
    var m := SaveTokenMessage(o);
    match o
    case Received(r) =>
      if r.success {
        var msg, ins := JsText(r.message), JsText(r.instruction);
        var body := msg + "\n" + ins;
        assert m == SuccessPrefix + body;
        assert m[..|SuccessPrefix|] == SuccessPrefix;
        assert m[|SuccessPrefix|..] == body;
        assert m != EmptyTokenMessage by { assert m[0] != EmptyTokenMessage[0]; }
        assert m[0] != ErrorPrefix[0] && m[0] != SaveFailedPrefix[0];
        LastNewlineOfJoin(msg, ins);
      } else {
        assert m[..|ErrorPrefix|] == ErrorPrefix;
        assert m[|ErrorPrefix|..] == JsText(r.error);
        assert m != EmptyTokenMessage by { assert m[0] != EmptyTokenMessage[0]; }
      }
    case Threw(e) =>
      assert m[..|SaveFailedPrefix|] == SaveFailedPrefix;
      assert m[|SaveFailedPrefix|..] == e;
      assert m != EmptyTokenMessage by { assert m[1] != EmptyTokenMessage[1]; }
      assert m[0] != ErrorPrefix[0];
  }

  lemma LastNewlineOfJoin(a: string, b: string)
    requires forall j :: 0 <= j < |b| ==> b[j] != '\n'
    ensures LastNewline(a + "\n" + b) == Some(|a|)
    ensures var s := a + "\n" + b; s[..|a|] == a && s[|a| + 1..] == b
  {
    var s := a + "\n" + b;
    assert s[|a|] == '\n';
    forall i | |a| < i < |s| ensures s[i] != '\n' {
      assert s[i] == b[i - |a| - 1];
    }
    assert LastNewlineBefore(s, |s|).Some?;
  }

  /** An empty token is answered without a request; the message says so and
      reads back as such. */
  lemma EmptyTokenMessageIsReadable()
    ensures ReadSaveMessage(EmptyTokenMessage) == TokenMissing
  {
  }

  class ConnectPage {
    var setupGuide: Option<SetupGuide>
    var authUrl: string
    var loading: bool
    var message: string
    var accessToken: string

    constructor ()
      ensures setupGuide == None && authUrl == "" && !loading && message == "" && accessToken == ""
    {
      setupGuide, authUrl, loading, message, accessToken := None, "", false, "", "";
    }

    /** The mount effect: a received guide is stored; a failed fetch is only
        logged, so the guide stays as it was. */
    method LoadSetupGuide(o: Fetched<SetupGuide>)
      modifies this`setupGuide
      ensures setupGuide == if o.Received? then Some(o.body) else old(setupGuide)
      ensures ShowsGuideSections() <==> o.Received? || old(setupGuide).Some?
    {
      if o.Received? {
        setupGuide := Some(o.body);
      }
    }

    /** The token input's onChange handler. */
    method SetAccessToken(v: string)
      modifies this`accessToken
      ensures accessToken == v
    {
      accessToken := v;
    }

    /** `handleConnectInstagram` up to its first await: busy, message cleared. */
    method BeginConnect()
      modifies this`loading, this`message
      ensures loading && message == ""
      ensures ConnectDisabled() && !ShowsMessage()
    {
      loading := true;
      message := "";
    }

    /** `handleConnectInstagram` after the await: the try/catch sets the
        message, success alone stores the URL, and the finally block always
        clears `loading`. */
    method FinishConnect(o: Fetched<ConnectResponse>)
      modifies this`loading, this`message, this`authUrl
      ensures !loading
      ensures message == ConnectMessage(o)
      ensures authUrl == StoredAuthUrl(o).GetOr(old(authUrl))
      ensures ShowsMessage() && !ConnectDisabled()
    {
      if o.Received? && o.body.success {
        authUrl := o.body.authUrl.GetOr("");
      }
      message := ConnectMessage(o);
      loading := false;
    }

    /** The whole connect handler. */
    method HandleConnectInstagram(o: Fetched<ConnectResponse>)
      modifies this`loading, this`message, this`authUrl
      ensures !loading
      ensures message == ConnectMessage(o)
      ensures authUrl == StoredAuthUrl(o).GetOr(old(authUrl))
      ensures setupGuide == old(setupGuide) && accessToken == old(accessToken)
      ensures ShowsMessage() && !ConnectDisabled()
      ensures ShowsAuthLink() <==>
        if StoredAuthUrl(o).Some? then StoredAuthUrl(o).value != "" else old(authUrl) != ""
    {
      BeginConnect();
      FinishConnect(o);
    }

    /** `handleSaveToken`: an empty token (not trimmed, so spaces count as a
        token) is refused without a request; otherwise the token is posted
        and the outcome's message shown. Returns the posted token, if any.
        Only `message` changes. */
    method HandleSaveToken(o: Fetched<SaveTokenResponse>) returns (posted: Option<string>)
      modifies this`message
      ensures posted == if accessToken == "" then None else Some(accessToken)
      ensures message == if accessToken == "" then EmptyTokenMessage else SaveTokenMessage(o)
      ensures ShowsMessage()
    {
      if accessToken == "" {
        message := EmptyTokenMessage;
        return None;
      }
      posted := Some(accessToken);
      message := SaveTokenMessage(o);
    }

    /** The "Current Status" panel and the steps list render only with a guide. */
    predicate ShowsGuideSections()
      reads this
    {
      setupGuide.Some?
    }

    /** The "Open Instagram Auth" button and the URL box render only with a
        non-empty URL. */
    predicate ShowsAuthLink()
      reads this
    {
      authUrl != ""
    }

    /** The message box renders only with a non-empty message. */
    predicate ShowsMessage()
      reads this
    {
      message != ""
    }

    /** The connect button is disabled, and reads "Generating...", while loading. */
    predicate ConnectDisabled()
      reads this
    {
      loading
    }
  }

  /** A page whose guide fetch failed never shows the status or steps
      sections; a failed or refused connect never brings up the auth link on
      a page that had none, and always leaves a message and an enabled button. */
  method FailedFetchesShowNoGuideOrLink(guideError: string, o: Fetched<ConnectResponse>)
    returns (showsGuide: bool, showsLink: bool, showsMessage: bool, disabled: bool)
    requires !(o.Received? && o.body.success)
    ensures !showsGuide && !showsLink && showsMessage && !disabled
  {
    var page := new ConnectPage();
    page.LoadSetupGuide(Threw(guideError));
    page.HandleConnectInstagram(o);
    assert page.message == ConnectMessage(o);
    assert page.message != "" by {
      match o {
        case Received(r) => assert |page.message| >= |ErrorPrefix|;
        case Threw(e) => assert |page.message| >= |ConnectFailedPrefix|;
      }
    }
    showsGuide, showsLink, showsMessage, disabled :=
      page.ShowsGuideSections(), page.ShowsAuthLink(), page.ShowsMessage(), page.ConnectDisabled();
  }
}
