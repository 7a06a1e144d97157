/** The dashboard home page: one state cell, `backendStatus`, written by the
    health probe on mount, and the indicator that shows it. Everything else
    on the page is constant. */
module Dashboard {
  import opened Text
  import Chart

  const Checking: string := "checking"
  const Healthy: string := "healthy"
  const Disconnected: string := "disconnected"

  /** The colour family of the badge and of its dot. */
  datatype Tone = Green | Yellow | Red

  /** `backendStatus`: `Some(s)` for a string, `None` for the undefined that a
      health body without a `status` field stores. */
  type Status = Option<string>

  /** The badge's nested ternary (green-100 / yellow-100 / red-100). */
  function BadgeTone(st: Status): (t: Tone)
    ensures t == Green <==> st == Some(Healthy)
    ensures t == Yellow <==> st == Some(Checking)
    ensures t == Red <==> st != Some(Healthy) && st != Some(Checking)
  {
    if st == Some(Healthy) then Green else if st == Some(Checking) then Yellow else Red
  }

  /** The dot's nested ternary (green-500 / yellow-500 / red-500). */
  function DotTone(st: Status): (t: Tone)
    ensures t == Green <==> st == Some(Healthy)
    ensures t == Yellow <==> st == Some(Checking)
    ensures t == Red <==> st != Some(Healthy) && st != Some(Checking)
  {
    if st == Some(Healthy) then Green else if st == Some(Checking) then Yellow else Red
  }

  /** The text after "Backend: ". Every status other than the two known ones,
      unknown strings and undefined included, reads "Disconnected". */
  function StatusLabel(st: Status): (shown: string)
    ensures shown == "Connected" <==> st == Some(Healthy)
    ensures shown == "Checking..." <==> st == Some(Checking)
    ensures shown == "Disconnected" <==> st != Some(Healthy) && st != Some(Checking)
  {
    if st == Some(Healthy) then "Connected" else if st == Some(Checking) then "Checking..." else "Disconnected"
  }

  /** The label a tone stands for. */
  function ToneLabel(t: Tone): string {
    match t
    case Green => "Connected"
    case Yellow => "Checking..."
    case Red => "Disconnected"
  }

  /** Badge, dot and label are three separate selections in the markup; they
      always agree. */
  lemma IndicatorAgrees(st: Status)
    ensures BadgeTone(st) == DotTone(st)
    ensures StatusLabel(st) == ToneLabel(BadgeTone(st))
  {
  }

  /** Body of GET /health. */
  datatype HealthResponse = HealthResponse(status: Status)

  /** How the probe ends: a parsed body, or any failure the `.catch` sees
      (network error, unparseable body). */
  datatype Probe = Answered(body: HealthResponse) | ProbeFailed

  /** The status a finished probe leaves: the reported value verbatim, or
      "disconnected" on failure. */
  function ProbedStatus(p: Probe): (st: Status)
    ensures p.ProbeFailed? ==> st == Some(Disconnected)
    ensures p.Answered? ==> st == p.body.status
  {
    match p
    case Answered(body) => body.status
    case ProbeFailed => Some(Disconnected)
  }

  /** What the indicator reads after the probe: "Connected" exactly for a
      reported "healthy"; a failure always reads "Disconnected"; a backend
      that itself reports "checking" keeps the page at "Checking...". */
  lemma ProbeLabels(p: Probe)
    ensures StatusLabel(ProbedStatus(p)) == "Connected" <==> p == Answered(HealthResponse(Some(Healthy)))
    ensures p.ProbeFailed? ==> StatusLabel(ProbedStatus(p)) == "Disconnected"
    ensures StatusLabel(ProbedStatus(p)) == "Checking..." <==> p == Answered(HealthResponse(Some(Checking)))
  {
  }

  class Home {
    var backendStatus: Status

    constructor ()
      ensures backendStatus == Some(Checking)
    {
      backendStatus := Some(Checking);
    }

    /** The probe's `.then` / `.catch`. */
    method ApplyHealthProbe(p: Probe)
      modifies this
      ensures backendStatus == ProbedStatus(p)
    {
      match p {
        case Answered(body) => backendStatus := body.status;
        case ProbeFailed => backendStatus := Some(Disconnected);
      }
    }
  }

  datatype ChangeType = Positive | Negative

  datatype StatTile = StatTile(title: string, value: string, change: string, changeType: ChangeType, icon: string)

  /** The four stat tiles, fixed in the markup. */
  const StatTiles: seq<StatTile> :=
    [ StatTile("Total Followers", "125.6K", "+12.5%", Positive, "👥"),
      StatTile("Engagement Rate", "4.2%", "+0.8%", Positive, "💫"),
      StatTile("Avg. Likes", "2.8K", "-2.1%", Negative, "❤️"),
      StatTile("Posts This Month", "24", "+8", Positive, "📸") ]

  datatype AgeBand = AgeBand(band: string, percent: nat)

  /** The fixed "Audience Demographics" bars. */
  const Demographics: seq<AgeBand> :=
    [AgeBand("Age 18-24", 35), AgeBand("Age 25-34", 28), AgeBand("Age 35-44", 22), AgeBand("Age 45+", 15)]

  /** What the page shows for a status. */
  datatype HomeView = HomeView(
    statusText: string, badge: Tone, dot: Tone,
    tiles: seq<StatTile>, chart: seq<Chart.Point>, demographics: seq<AgeBand>)

  /** The indicator's three parts agree with each other, and the rest of
      the page is the fixed tiles, the chart `<AnalyticsChart />` draws with
      no props and the fixed bars. The `<UserTable />` below them keeps its
      own state and is modelled by `Audience.UserTable`. */
  function View(st: Status): (v: HomeView)
    ensures v.badge == v.dot && v.statusText == ToneLabel(v.badge)
    ensures v.statusText == "Connected" <==> st == Some(Healthy)
    ensures v.tiles == StatTiles && v.demographics == Demographics
    ensures v.chart == Chart.ChartData(None) && |v.chart| == 12
  {
    IndicatorAgrees(st);
    HomeView(StatusLabel(st), BadgeTone(st), DotTone(st), StatTiles, Chart.ChartData(None), Demographics)
  }

  /** Only the indicator depends on the probe: two statuses give views that
      agree on the tiles, the chart (the built-in default series) and the
      demographics. */
  lemma OnlyIndicatorDependsOnStatus(s1: Status, s2: Status)
    ensures View(s1).(statusText := View(s2).statusText, badge := View(s2).badge, dot := View(s2).dot) == View(s2)
    ensures |View(s1).chart| == 12
  {
  }
}
