/** src/utils.js: `getWaterStatus`, the three-tier classifier. */
module Utils {

  datatype Status = Safe | Risk | Unsafe {
    /** Severity order: Safe < Risk < Unsafe. */
    function Rank(): nat {
      match this
      case Safe => 0
      case Risk => 1
      case Unsafe => 2
    }
  }

  datatype WaterStatus = WaterStatus(status: Status, action: string, color: string)

  /** The record shown for each status; action and colour always go with it. */
  function Presentation(s: Status): WaterStatus {
    match s
    case Safe => WaterStatus(Safe, "Drink", "green")
    case Risk => WaterStatus(Risk, "Boil Water", "orange")
    case Unsafe => WaterStatus(Unsafe, "Avoid Drinking", "red")
  }

  /** `getWaterStatus(tds)`: total; lower bounds inclusive, so 150 is Risk and
      300 is Unsafe. */
  function GetWaterStatus(tds: real): (r: WaterStatus)
    ensures r.status == Safe <==> tds < 150.0
    ensures r.status == Risk <==> 150.0 <= tds < 300.0
    ensures r.status == Unsafe <==> 300.0 <= tds
    ensures r == Presentation(r.status)
  {
    if tds < 150.0 then
      WaterStatus(Safe, "Drink", "green")
    else if tds < 300.0 then
      WaterStatus(Risk, "Boil Water", "orange")
    else
      WaterStatus(Unsafe, "Avoid Drinking", "red")
  }

  /** A larger reading is never given a less severe status. */
  lemma GetWaterStatusMonotone(a: real, b: real)
    requires a <= b
    ensures GetWaterStatus(a).status.Rank() <= GetWaterStatus(b).status.Rank()
  {
  }

  /** Status, action and colour come as a fixed triple: equal statuses give
      equal records, and distinct statuses differ in action and colour. */
  lemma GetWaterStatusPaired(a: real, b: real)
    ensures GetWaterStatus(a).status == GetWaterStatus(b).status <==> GetWaterStatus(a) == GetWaterStatus(b)
    ensures GetWaterStatus(a).status != GetWaterStatus(b).status ==>
      GetWaterStatus(a).action != GetWaterStatus(b).action && GetWaterStatus(a).color != GetWaterStatus(b).color
  {
  }

  /** The boundary values. */
  lemma GetWaterStatusBoundaries()
    ensures GetWaterStatus(149.0).status == Safe
    ensures GetWaterStatus(150.0).status == Risk
    ensures GetWaterStatus(299.0).status == Risk
    ensures GetWaterStatus(300.0).status == Unsafe
  {
  }
}
