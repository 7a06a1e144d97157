# Instagram audience analyzer: verified model of the client-side logic

This project models, in Dafny, the decision logic of a Next.js dashboard
that shows Instagram-style profile analytics. The dashboard has five pieces
with real rules:

- the landing page's profile-input parser (`extractUsername`) and its Analyze
  action (`handleAnalyze`);
- the engagement chart's data shaping (`chartData`);
- the connect-account page's handlers and render guards;
- the dashboard home page's backend-status indicator;
- the audience table's per-row rules and its fixed mock list.

Each HTTP exchange, each `router.push` and the mount effects are replaced by
values. An awaited request becomes a parameter holding its outcome: the
parsed body, or the error it threw. A navigation becomes a returned route.

The parser is the main piece. Patterns 1 and 2 (`instagram.com/…` and
`ig.me/…`) use search semantics and are case-sensitive. They are modelled by
a direct scan: take the maximal handle run after the first occurrence of the
literal that is followed by a handle character. `Username.RegexSearchFrom`
is a separate model of the regex engine's leftmost-match search. It tries
each start position and, at each, the optional `https?://` / `www.` prefixes
(the list `Username.UrlPrefixes`) in greedy order. The lemma
`Username.RegexSearchIsHostCapture` proves the two models equal. The key
fact is that no prefix contains an `i`, so a prefix can never overlap an
earlier occurrence of either literal.

State that the source keeps in React `useState` cells is a class with one
field per cell: `Landing.LandingPage`, `Connect.ConnectPage`,
`Dashboard.Home` and `Audience.UserTable`. The handlers are methods whose
`ensures` give the new state as a function of the old state and the outcome
parameter. The pure specification functions beside them carry the lemmas.

Files: `text.dfy` (helpers: Option, `trim` whitespace, ASCII upper-casing,
how `${field}` renders an absent field), `username.dfy`, `landing.dfy`,
`chart.dfy`, `connect.dfy`, `dashboard.dfy`, `audience.dfy`.

## Model

| member | source | states |
|---|---|---|
| Text.IsJsWhitespace | src/app/landing/page.tsx:30 | the characters `trim()` removes: the ECMAScript WhiteSpace and LineTerminator code points |
| Text.TrimBounds | src/app/landing/page.tsx:30 | everything that `trim()` drops is JS whitespace; the kept piece starts and ends with non-whitespace; empty bounds only for all-whitespace input |
| Text.Trim | src/app/landing/page.tsx:30 | the trimmed text is empty exactly when the input is all whitespace, and otherwise starts and ends with non-whitespace |
| Text.TrimIdempotent | src/app/landing/page.tsx:30-38 | trimming an already trimmed string changes nothing |
| Text.TrimPadded | src/app/landing/page.tsx:38 | for any whitespace before and after a piece that starts and ends with non-whitespace, trimming returns exactly that piece |
| Text.TrimAbsorbsPadding | src/app/landing/page.tsx:38 | whitespace added before and after any string is removed again: trimming the padded string equals trimming the string |
| Text.UpperAscii | src/components/UserTable.tsx:104 | an ASCII-only stand-in for `toUpperCase` on one character: a lowercase ASCII letter goes to its capital, and every other character is kept (see "## Left out") |
| Text.JsText | src/app/connect/page.tsx:50 | `${field}` gives the field's string, or "undefined" for an absent field |
| Username.IsHandleChar | src/app/landing/page.tsx:15-17 | the character class `[a-zA-Z0-9._]` the three patterns share: ASCII letters of both cases, digits, `.` and `_` |
| Username.RunLength | src/app/landing/page.tsx:15-17 | the greedy `[a-zA-Z0-9._]+` run from a position is all handle characters and is followed by a non-handle character or the end |
| Username.HandleRun | src/app/landing/page.tsx:15-16 | the capture of the greedy group: only handle characters, followed by a non-handle character or the end, and a non-empty handle whenever a handle character starts it |
| Username.FirstHostFrom | src/app/landing/page.tsx:15-16 | returns the first position where the literal is followed by a handle character, with none before it; returns None only if there is no such position |
| Username.HostCapture | src/app/landing/page.tsx:15-16 | a pattern 1/2 capture is a non-empty handle, and is absent exactly when no literal-plus-handle-character occurrence exists |
| Username.BareHandle | src/app/landing/page.tsx:17 | `^@?([a-zA-Z0-9._]+)$` matches exactly an optional `@` plus a handle, and captures the input without the `@` |
| Username.MatchPattern | src/app/landing/page.tsx:20-23 | each pattern's capture, when present, is a handle |
| Username.FirstMatch | src/app/landing/page.tsx:20-26 | the loop's result is the capture of some pattern all of whose predecessors failed, and is a handle; it is null exactly when every pattern fails |
| Username.ExtractUsername | src/app/landing/page.tsx:12-27 | a non-null result is non-empty and uses only `[A-Za-z0-9._]` |
| Username.ExtractInOrder | src/app/landing/page.tsx:14-25 | the result is pattern 1's capture if any, else pattern 2's, else pattern 3's |
| Username.InstagramUrlWins | src/app/landing/page.tsx:14-25 | an `instagram.com/` followed by a handle character anywhere makes pattern 1's capture the result, whatever else fits |
| Username.IgMeUrlWinsOverBare | src/app/landing/page.tsx:16-17 | with no pattern 1 match, an `ig.me/` match beats the bare-handle reading |
| Username.BareInputYieldsHandle | src/app/landing/page.tsx:17 | an input that is an optional `@` plus a handle yields that handle, `@` removed |
| Username.NullExactly | src/app/landing/page.tsx:15-26 | null exactly when (case-sensitively) neither literal is followed by a handle character and the input is not `@?handle` |
| Username.ResultIsMaximalRun | src/app/landing/page.tsx:15-17 | the handle returned occurs in the input as a maximal run: neither neighbour is a handle character |
| Username.PrefixMatchAt | src/app/landing/page.tsx:15-16 | the prefix the engine settles on is one of those it tries, and the literal plus a handle character follows it; when the empty prefix is among them (as in the six optional prefixes), a literal at the start position always matches |
| Username.RegexSearchFrom | src/app/landing/page.tsx:15-16 | the leftmost match's capture is a handle; with the empty prefix offered, no match means no literal-plus-handle-character occurrence at or after the start |
| Username.RegexSearchIsHostCapture | src/app/landing/page.tsx:15-16 | the leftmost-match search with optional `https?://` and `www.` prefixes captures exactly what the direct scan does |
| Username.RejectedWithoutHostOrHandle | src/app/landing/page.tsx:15-26 | an input with no lowercase `i` and a non-handle character after position 0 is rejected |
| Username.CapitalisedHostIsRejected | src/app/landing/page.tsx:15-17 | `Instagram.com/x` is rejected: matching is case-sensitive |
| Username.HostWithoutSlashIsAHandle | src/app/landing/page.tsx:15-17 | `instagram.com` with no slash is accepted as the handle `instagram.com` |
| Username.ExampleButtonsParse | src/app/landing/page.tsx:134-151 | the three example inputs parse to `cristiano`, `selenagomez` and `kyliejenner` |
| Landing.Decide | src/app/landing/page.tsx:30-43 | empty-input rejection exactly for all-whitespace text; a format error exactly when the trimmed text does not parse; otherwise navigation with the handle parsed from the trimmed text |
| Landing.AnalyzePath | src/app/landing/page.tsx:46 | the route is `/analyze/` followed by exactly the handle |
| Landing.RouteSegmentIsHandle | src/app/landing/page.tsx:46 | for any handle (and Decide only navigates to handles), no `/` follows `/analyze/` in the route |
| Landing.DotOnlyHandlesNavigate | src/app/landing/page.tsx:15-46 | the dot-only handle `..` is accepted from `@..` and from `instagram.com/..`, and the route pushed is `/analyze/..` |
| Landing.PaddedInputTrims | src/app/landing/page.tsx:38 | trimming `"  @john_doe "` gives `"@john_doe"` |
| Landing.DecideIgnoresSurroundingSpace | src/app/landing/page.tsx:30-38 | stripping the surrounding whitespace never changes the outcome |
| Landing.DecideIgnoresPadding | src/app/landing/page.tsx:30-38 | adding whitespace before and after any input never changes the outcome |
| Landing.PaddedAtHandleRoutes | src/app/landing/page.tsx:30-46 | `"  @john_doe "` navigates with the handle `john_doe` |
| Landing.LandingPage.constructor | src/app/landing/page.tsx:7-9 | the field starts empty, `loading` false and no error |
| Landing.LandingPage.SetInstagramUrl | src/app/landing/page.tsx:103 | typing replaces the field's text |
| Landing.LandingPage.HandleAnalyze | src/app/landing/page.tsx:29-47 | empty input: the empty-input error, `loading` unchanged, no route; unparseable input: the format error, `loading` false, no route; otherwise no error, `loading` true, route `/analyze/<handle>` |
| Landing.LandingPage.KeyPress | src/app/landing/page.tsx:106 | Enter runs Analyze with the same outcomes; any other key changes nothing |
| Chart.LabelsInUse | src/components/AnalyticsChart.tsx:19 | a supplied label list is used as it is; an absent one (or absent `data`) gives the twelve month names |
| Chart.ValuesInUse | src/components/AnalyticsChart.tsx:21 | a supplied value list is used as it is; an absent one gives the default data, whatever the labels are |
| Chart.ValueAt | src/components/AnalyticsChart.tsx:21 | the per-index value with its zero fallback: the entry when there is one, else 0 (a 0 entry stays 0) |
| Chart.ZipPadded | src/components/AnalyticsChart.tsx:19-22 | one point per label |
| Chart.ChartData | src/components/AnalyticsChart.tsx:19-22 | the output has as many points as the labels in use, supplied or default |
| Chart.ZipPaddedAt | src/components/AnalyticsChart.tsx:19-21 | point i is `labels[i]` with `values[i]`, or 0 past the end of the values |
| Chart.ChartDataAt | src/components/AnalyticsChart.tsx:19-21 | point i pairs the i-th label in use with the i-th value in use, or 0 |
| Chart.SameChartWhenValuesAgree | src/components/AnalyticsChart.tsx:21 | value lists that agree, after zero-padding, on the first positions, one per label, give the same chart |
| Chart.ExtraValuesDropped | src/components/AnalyticsChart.tsx:19-22 | values beyond the number of labels are dropped |
| Chart.ShortValuesZeroPadded | src/components/AnalyticsChart.tsx:21 | a short value list behaves as if padded with zeros |
| Chart.DefaultChart | src/components/AnalyticsChart.tsx:15-22 | with no data, the chart is Jan..Dec with 65, 78, 66, 44, 88, 90, 45, 88, 73, 55, 66, 77 |
| Chart.SuppliedLabelsReplaceDefaults | src/components/AnalyticsChart.tsx:19 | supplied labels, even an empty list, replace the defaults; empty labels give an empty chart |
| Connect.ConnectMessage | src/app/connect/page.tsx:46-53 | the connect message is never empty, and is the fixed success text exactly for a successful response |
| Connect.StoredAuthUrl | src/app/connect/page.tsx:46-47 | only a successful response stores a URL: its `auth_url`, or "" when absent |
| Connect.SaveTokenMessage | src/app/connect/page.tsx:76-82 | the save-token message is never empty and never the empty-token text |
| Connect.ReadConnectMessage | src/app/connect/page.tsx:46-53 | reading a connect message back yields the fixed success text or an error prefix followed by the reported text |
| Connect.ConnectMessageIsReadable | src/app/connect/page.tsx:46-53 | success, refusal (`Error: ` + error) and thrown error (`Connection failed: ` + err) leave messages that tell the outcomes apart, and the error text can be recovered |
| Connect.ReadSaveMessage | src/app/connect/page.tsx:76-82 | reading a save-token message back yields the success text with its message and instruction, or an error prefix followed by its text |
| Connect.SaveMessageIsReadable | src/app/connect/page.tsx:76-82 | `Success! ` + message + newline + instruction, `Error: ` + error and `Failed to save token: ` + err tell the outcomes apart and give back their texts, provided the instruction has no newline (otherwise message `a` with instruction `b\nc` and message `a\nb` with instruction `c` give the same text) |
| Connect.EmptyTokenMessageIsReadable | src/app/connect/page.tsx:60-62 | the empty-token message is told apart from every other outcome |
| Connect.ConnectPage.constructor | src/app/connect/page.tsx:24-28 | no guide, empty URL, not loading, empty message, empty token |
| Connect.ConnectPage.LoadSetupGuide | src/app/connect/page.tsx:30-36 | a received guide is stored; a failed fetch leaves the guide as it was; the guide sections show exactly when a guide was received now or before; the body is taken to be a well-formed guide (see "## Left out") |
| Connect.ConnectPage.SetAccessToken | src/app/connect/page.tsx:169 | typing replaces the token |
| Connect.ConnectPage.BeginConnect | src/app/connect/page.tsx:39-40 | on entry, `loading` is true and the message is cleared, so the button is disabled and no message box shows |
| Connect.ConnectPage.FinishConnect | src/app/connect/page.tsx:42-56 | after any outcome `loading` is false; the message follows the outcome and is shown; only success replaces `authUrl` |
| Connect.ConnectPage.HandleConnectInstagram | src/app/connect/page.tsx:38-57 | the whole handler: the same final state, with the guide and the token untouched; afterwards a message shows, the button is enabled, and the auth link shows exactly when the stored (or, without success, the previous) URL is non-empty |
| Connect.ConnectPage.HandleSaveToken | src/app/connect/page.tsx:59-84 | an empty token (not trimmed) gets the empty-token message and no request; otherwise the token is posted and the message follows the outcome; only `message` changes, and a message always shows |
| Connect.ConnectPage.ShowsGuideSections | src/app/connect/page.tsx:97-183 | the "Current Status" panel and the setup-guide steps render only when a guide is stored |
| Connect.ConnectPage.ShowsAuthLink | src/app/connect/page.tsx:129-149 | the "Open Instagram Auth" button and the URL box render only for a non-empty URL |
| Connect.ConnectPage.ShowsMessage | src/app/connect/page.tsx:151-155 | the message box renders only for a non-empty message |
| Connect.ConnectPage.ConnectDisabled | src/app/connect/page.tsx:121-126 | the connect button is disabled, and reads "Generating...", while loading |
| Connect.FailedFetchesShowNoGuideOrLink | src/app/connect/page.tsx:97-183 | on a freshly mounted page, after a failed guide fetch and a failed or refused connect: no status or steps sections, no auth link, a message shown, the button enabled |
| Dashboard.BadgeTone | src/app/page.tsx:27-33 | green exactly for `healthy`, yellow exactly for `checking`, red for everything else |
| Dashboard.DotTone | src/app/page.tsx:34-37 | the same three-way split for the dot |
| Dashboard.StatusLabel | src/app/page.tsx:38-39 | "Connected" iff `healthy`, "Checking..." iff `checking`, "Disconnected" for every other value, unknown strings and undefined included |
| Dashboard.IndicatorAgrees | src/app/page.tsx:27-39 | badge and dot always have the same colour, and the label is the one for that colour |
| Dashboard.ProbedStatus | src/app/page.tsx:14-17 | a failed probe gives `disconnected`; an answered probe gives the reported status verbatim |
| Dashboard.ProbeLabels | src/app/page.tsx:14-39 | "Connected" exactly after a `healthy` report; a failed probe always reads "Disconnected" |
| Dashboard.Home.constructor | src/app/page.tsx:10 | the status starts as `checking` |
| Dashboard.Home.ApplyHealthProbe | src/app/page.tsx:12-18 | the probe's outcome sets the status as `ProbedStatus` says |
| Dashboard.View | src/app/page.tsx:27-77 | the badge and dot share a tone and the label is that tone's; "Connected" exactly for `healthy`; the rest is the fixed tiles, the chart `<AnalyticsChart />` draws with no props (`ChartData(None)`, the twelve default points) and the fixed bars; the `<UserTable />` at line 124 keeps its own state and is modelled by `Audience.UserTable`, outside this view |
| Dashboard.OnlyIndicatorDependsOnStatus | src/app/page.tsx:44-77 | two statuses give views that differ at most in the indicator; the chart is the 12-point default |
| Audience.EngagementTier | src/components/UserTable.tsx:122-126 | green iff engagement > 4.5; yellow iff 3.5 < engagement ≤ 4.5; red iff engagement ≤ 3.5 |
| Audience.TierMonotonic | src/components/UserTable.tsx:122-126 | more engagement never gives a lower tier |
| Audience.AvatarInitial | src/components/UserTable.tsx:104 | the upper-cased character at index 1, or "" for names shorter than two characters |
| Audience.RenderRow | src/components/UserTable.tsx:97-128 | the verified mark is shown iff `verified`; the key is the id; the tier and initial follow the rules above |
| Audience.RenderRows | src/components/UserTable.tsx:97-98 | one row per user |
| Audience.RenderRowsAt | src/components/UserTable.tsx:97-98 | row i renders user i, so rows keep list order |
| Audience.MockUsers | src/components/UserTable.tsx:23-64 | the mock list has five entries |
| Audience.MockRowsRender | src/components/UserTable.tsx:23-65 | the ids `1`..`5` are distinct; in order, the rows have tiers yellow, yellow, green, green, yellow, initials J, J, M, S, A and verified marks on rows 1, 3 and 5 |
| Audience.UserTable.constructor | src/components/UserTable.tsx:19 | the list starts empty |
| Audience.UserTable.LoadMockUsers | src/components/UserTable.tsx:21-66 | the mount effect replaces the whole list with the mock rows |
| Audience.UserTable.Rows | src/components/UserTable.tsx:97 | one rendered row per user in the state |

## Left out

- HTTP (`fetch`), JSON parsing, `router.push`, `window.open` and `window.location` are not modelled as I/O. A request's outcome is a parameter; a navigation is a returned value.
- React effect scheduling, async interleaving and responses that arrive after unmount are left out. They are concurrency concerns.
- JSX markup, Tailwind class strings and the recharts / `ui/chart` rendering are left out. Colours are modelled as the tones green, yellow and red.
- `console.error` on a failed setup-guide fetch is left out. It has no effect on state.
- Fields of the connect and save-token replies are modelled as strings, booleans or absent. A field of another JSON type (a number where a string is expected, say) is not modelled. The setup guide is modelled with every field present; see the next line.
- Connect.ConnectPage.LoadSetupGuide: the received body is taken to be a well-formed guide. The source stores whatever `res.json()` yields (src/app/connect/page.tsx:33-34), and `fetch` does not reject on a 4xx or 5xx reply. An error body such as `{"detail":"Not Found"}` would be stored. The status panel of line 97 would then render, and line 102 would throw reading `client_id_configured` of the missing `current_status`. A JSON `null` body would be stored too and would keep the sections hidden, although a body was received. Neither malformed body is modelled.
- Connect.ConnectPage.FinishConnect: a success response without `auth_url` stores the source's `undefined`; the model stores "" instead. Every guard and the URL box treat the two alike.
- Landing.RouteSegmentIsHandle: the pushed path has no `/` after `/analyze/`, but this does not make its last segment the profile name. The parser accepts the dot-only handles `.` and `..` (see Landing.DotOnlyHandlesNavigate), and a browser's dot-segment removal (section 5.2.4 of RFC 3986) resolves `/analyze/.` and `/analyze/..` outside the analysis page. URL resolution and Next.js routing are not modelled.
- Text.UpperAscii: JavaScript's `toUpperCase` also maps non-ASCII letters (`é` to `É`, and `ß` to the two characters `SS`). The model changes ASCII letters only and keeps every other character. Full Unicode case mapping, which can lengthen a string, is not modelled.
- Audience.AvatarInitial: the initial is upper-cased by `Text.UpperAscii`, so the ASCII-only limit above applies. JavaScript also indexes UTF-16 code units, while a Dafny `char` is a Unicode scalar value.
- Audience.EngagementTier: NaN is not modelled. The source would show NaN red, since both comparisons are false.
- Chart values are integers. NaN, and the `|| 0` that also maps NaN to 0, are not modelled.
- `toLocaleString` follower formatting is left out. It depends on the locale.
- The stat tile component, the header, the Next.js image configuration and the profile-analysis page are not part of this model. The same goes for its mock-data generator and number formatter.
- The lines after the component's closing brace in src/app/page.tsx are leftover template text and are not modelled.
