/** src/frontend/src/components/Dashboard.jsx: the live sensor dashboard. Its
    five-tier label and the bounded history that feeds the chart. */
module Dashboard {
  import Text

  datatype QualityLabel = Excellent | Good | Fair | Poor | Unacceptable {
    /** Severity order, Excellent lowest. */
    function Rank(): nat {
      match this
      case Excellent => 0
      case Good => 1
      case Fair => 2
      case Poor => 3
      case Unacceptable => 4
    }
  }

  datatype Icon = CheckCircle | ActivityIcon | AlertTriangle

  datatype QualityInfo = QualityInfo(tier: QualityLabel, color: string, bg: string, icon: Icon)

  /** `getWaterQualityInfo(tds)`: strict upper bounds 50, 150, 300, 500. */
  function GetWaterQualityInfo(tds: real): (r: QualityInfo)
    ensures r.tier == Excellent <==> tds < 50.0
    ensures r.tier == Good <==> 50.0 <= tds < 150.0
    ensures r.tier == Fair <==> 150.0 <= tds < 300.0
    ensures r.tier == Poor <==> 300.0 <= tds < 500.0
    ensures r.tier == Unacceptable <==> 500.0 <= tds
    ensures r.icon == CheckCircle <==> tds < 150.0
  {
    if tds < 50.0 then QualityInfo(Excellent, "text-blue-400", "bg-blue-400/10", CheckCircle)
    else if tds < 150.0 then QualityInfo(Good, "text-emerald-400", "bg-emerald-400/10", CheckCircle)
    else if tds < 300.0 then QualityInfo(Fair, "text-yellow-400", "bg-yellow-400/10", ActivityIcon)
    else if tds < 500.0 then QualityInfo(Poor, "text-orange-400", "bg-orange-400/10", AlertTriangle)
    else QualityInfo(Unacceptable, "text-red-400", "bg-red-400/10", AlertTriangle)
  }

  /** Severity never decreases as tds grows. */
  lemma GetWaterQualityInfoMonotone(a: real, b: real)
    requires a <= b
    ensures GetWaterQualityInfo(a).tier.Rank() <= GetWaterQualityInfo(b).tier.Rank()
  {
  }

  /** Each boundary belongs to the tier above it. */
  lemma GetWaterQualityInfoBoundaries()
    ensures GetWaterQualityInfo(50.0).tier == Good
    ensures GetWaterQualityInfo(150.0).tier == Fair
    ensures GetWaterQualityInfo(300.0).tier == Poor
    ensures GetWaterQualityInfo(500.0).tier == Unacceptable
  {
  }

  /** One chart point `{ time, tds }`. */
  datatype HistoryPoint = HistoryPoint(time: string, tds: real)

  const HistoryLimit: nat := 20

  /** The `${h}:${m}:${s}` label built from the local clock (not zero-padded). */
  function TimeLabel(hours: nat, minutes: nat, seconds: nat): string {
    Text.DecimalString(hours) + ":" + Text.DecimalString(minutes) + ":" + Text.DecimalString(seconds)
  }

  /** The component's state: `currentTds`, `history` and `isConnected`. */
  class DashboardState {
    var currentTds: real
    var history: seq<HistoryPoint>
    var isConnected: bool

    ghost predicate Valid()
      reads this
    {
      |history| <= HistoryLimit
    }

    constructor ()
      ensures Valid()
      ensures currentTds == 0.0 && history == [] && !isConnected
    {
      currentTds := 0.0;
      history := [];
      isConnected := false;
    }

    method OnConnect()
      requires Valid()
      modifies this
      ensures Valid()
      ensures isConnected
      ensures currentTds == old(currentTds) && history == old(history)
    {
      isConnected := true;
    }

    method OnDisconnect()
      requires Valid()
      modifies this
      ensures Valid()
      ensures !isConnected
      ensures currentTds == old(currentTds) && history == old(history)
    {
      isConnected := false;
    }

    /** A `tdsUpdate` event: the displayed value becomes `tds`, and the history
        gets the new point appended and is cut back to its last 20 points. */
    method OnTdsUpdate(tds: real, hours: nat, minutes: nat, seconds: nat)
      requires Valid()
      modifies this
      ensures Valid()
      ensures currentTds == tds
      ensures isConnected == old(isConnected)
      ensures |history| == if |old(history)| + 1 > HistoryLimit then HistoryLimit else |old(history)| + 1
      ensures history[|history| - 1] == HistoryPoint(TimeLabel(hours, minutes, seconds), tds)
      ensures history == (old(history) + [HistoryPoint(TimeLabel(hours, minutes, seconds), tds)])[|old(history)| + 1 - |history|..]
      ensures |old(history)| < HistoryLimit ==> history == old(history) + [history[|history| - 1]]
      ensures |old(history)| == HistoryLimit ==> history == old(history)[1..] + [history[|history| - 1]]
    {
      currentTds := tds;
      var timeStr := TimeLabel(hours, minutes, seconds);
      var newHistory := history + [HistoryPoint(timeStr, tds)];
      if |newHistory| > HistoryLimit {
        history := newHistory[|newHistory| - HistoryLimit..];
      } else {
        history := newHistory;
      }
    }
  }
}
