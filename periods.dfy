/** Accounting periods as the API server lists them for the input and search windows. */
module Periods {
  import opened Wrappers

  /** A period's name and bounds; a missing bound is read as ''. */
  datatype Period = Period(name: string, fromDate: string, toDate: string)

  /** The placeholder the server sends for a bound that was never set. */
  const Unset: string := "未設定"

  /** A bound constrains dates only when it is non-empty and not the placeholder. */
  predicate IsSetBound(d: string) {
    d != "" && d != Unset
  }

  /** `periods.findIndex(p => p.name === name)`, with `None` for -1. */
  function FindIndex(periods: seq<Period>, name: string): (r: Option<nat>)
    ensures r.None? <==> forall i :: 0 <= i < |periods| ==> periods[i].name != name
    ensures r.Some? ==> r.value < |periods| && periods[r.value].name == name
    ensures r.Some? ==> forall i :: 0 <= i < r.value ==> periods[i].name != name
  {
    if |periods| == 0 then None
    else if periods[0].name == name then Some(0)
    else match FindIndex(periods[1..], name)
      case None => None
      case Some(k) => Some(k + 1)
  }

  /** `periods.find(p => p.name === name)`: the first period carrying that name. */
  function Find(periods: seq<Period>, name: string): Option<Period> {
    match FindIndex(periods, name)
    case None => None
    case Some(k) => Some(periods[k])
  }

  /**
   * The period a window selects when the list arrives: the requested one when
   * it is non-empty and listed, otherwise the first; none for an empty list.
   */
  function ChooseInitial(periods: seq<Period>, requested: string): (r: Option<Period>)
    ensures r.Some? <==> |periods| > 0
    ensures r.Some? ==> r.value in periods
    ensures requested != "" && FindIndex(periods, requested).Some? ==> r.Some? && r.value.name == requested
    ensures (requested == "" || FindIndex(periods, requested).None?) && |periods| > 0 ==> r == Some(periods[0])
  {
    if requested != "" && FindIndex(periods, requested).Some? then Find(periods, requested)
    else if |periods| > 0 then Some(periods[0])
    else None
  }

  /** A bound copied into a date filter: kept when set, '' otherwise. */
  function BoundFilter(d: string): (r: string)
    ensures r == "" <==> !IsSetBound(d)
    ensures r != "" ==> r == d
  {
    if IsSetBound(d) then d else ""
  }

  /** What a `GET /v1/api/periods` call gave back. */
  datatype PeriodsReply =
    | PeriodsThrew
    | PeriodsReplied(success: bool, periods: Option<seq<Period>>)

  /** The list a window takes from the reply: only when `success` is set and the list is present. */
  function ListedPeriods(reply: PeriodsReply): Option<seq<Period>> {
    if reply.PeriodsReplied? && reply.success && reply.periods.Some? then reply.periods else None
  }
}
