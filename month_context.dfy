/**
 * The active month: the twelve Portuguese month names and the
 * `selectedMonth` derivation that the main view and the month selector both
 * perform, with the same table and the same expression.
 */
module MonthContext {
  import opened Wrappers

  const Months: seq<string> := [
    "Janeiro", "Fevereiro", "Março", "Abril", "Maio", "Junho",
    "Julho", "Agosto", "Setembro", "Outubro", "Novembro", "Dezembro"]

  /** What `new Date().getMonth()` returns. */
  type MonthIndex = i: int | 0 <= i < 12

  /** No two entries of the table are the same name. */
  lemma MonthsDistinct()
    ensures |Months| == 12
    ensures forall i, j :: 0 <= i < j < |Months| ==> Months[i] != Months[j]
  {
    forall i, j | 0 <= i < j < |Months| ensures Months[i] != Months[j] {
      assert Months[i][0] != Months[j][0] || Months[i][1] != Months[j][1] || Months[i][2] != Months[j][2];
    }
  }

  /**
   * `searchParams.get("month") || months[new Date().getMonth()]`: the URL
   * parameter when it is present and non-empty, the current month otherwise.
   */
  function SelectedMonth(param: Option<string>, current: MonthIndex): (m: string)
    ensures param.Some? && param.value != "" ==> m == param.value
    ensures param.None? || param.value == "" ==> m == Months[current]
  {
    if param.Some? && param.value != "" then param.value else Months[current]
  }
}
