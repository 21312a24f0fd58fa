/**
 * The journey timeline: one row per step, in order; a check icon for a
 * completed step; a connector below every step but the last, coloured for
 * success when the step above it is completed; and a date line only when
 * the step's date text is non-empty.
 */
module JourneyTimeline {
  import opened MockProducts
  import opened Wrappers

  datatype Icon = Check | Circle

  /**
   * One rendered step. `connector` is present when a connector follows the
   * step and holds whether it is success-coloured.
   */
  datatype StepRow = StepRow(icon: Icon, connector: Option<bool>, title: string, detail: string, dateLine: Option<string>)

  /** `formatDate` stands for `new Date(s).toLocaleDateString()`. */
  function RowOf(steps: seq<JourneyStep>, i: nat, formatDate: string -> string): StepRow
    requires i < |steps|
  {
    var step := steps[i];
    StepRow(
      if step.completed then Check else Circle,
      if i < |steps| - 1 then Some(step.completed) else None,
      step.labelText,
      step.detail,
      if step.date != "" then Some(formatDate(step.date)) else None)
  }

  function Timeline(steps: seq<JourneyStep>, formatDate: string -> string): seq<StepRow> {
    seq(|steps|, i requires 0 <= i < |steps| => RowOf(steps, i, formatDate))
  }

  /** The number of rows among the first `k` that carry a connector. */
  function ConnectorsUpTo(rows: seq<StepRow>, k: nat): nat
    requires k <= |rows|
  {
    if k == 0 then 0 else ConnectorsUpTo(rows, k - 1) + (if rows[k - 1].connector.Some? then 1 else 0)
  }

  /**
   * The rows read back as the journey: each shows its step's title and
   * detail, its icon recovers the completed flag, and its date line is absent
   * exactly for an undated step. A connector is success-coloured exactly
   * under a check icon, and only the last row has none. For a journey whose
   * completed steps come first, the check icons and the success connectors
   * come first too.
   */
  lemma StepRules(steps: seq<JourneyStep>, formatDate: string -> string)
    ensures |Timeline(steps, formatDate)| == |steps|
    ensures forall i :: 0 <= i < |steps| ==>
      var row := Timeline(steps, formatDate)[i];
      && row.title == steps[i].labelText && row.detail == steps[i].detail
      && (row.icon == Check <==> steps[i].completed)
      && (row.dateLine == None <==> steps[i].date == "")
      && (row.connector == None <==> i == |steps| - 1)
      && (row.connector.Some? ==> (row.connector.value <==> row.icon == Check))
    ensures CompletedPrefix(steps) ==> forall i, j :: 0 <= i < j < |steps| ==>
      (Timeline(steps, formatDate)[j].icon == Check ==> Timeline(steps, formatDate)[i].icon == Check)
    ensures CompletedPrefix(steps) ==> forall i, j :: 0 <= i < j < |steps| ==>
      (Timeline(steps, formatDate)[j].connector == Some(true) ==> Timeline(steps, formatDate)[i].connector == Some(true))
  {}

  /**
   * Rows depend only on their own step and on whether it is last: the
   * timeline of `a + b` is `a`'s rows, the formerly last of them gaining a
   * connector coloured by its step, followed by `b`'s rows.
   */
  lemma TimelineAppend(a: seq<JourneyStep>, b: seq<JourneyStep>, formatDate: string -> string)
    ensures forall i :: 0 <= i < |a| - 1 ==> Timeline(a + b, formatDate)[i] == Timeline(a, formatDate)[i]
    ensures forall j :: 0 <= j < |b| ==> Timeline(a + b, formatDate)[|a| + j] == Timeline(b, formatDate)[j]
    ensures |a| > 0 && |b| > 0 ==>
      Timeline(a + b, formatDate)[|a| - 1] == Timeline(a, formatDate)[|a| - 1].(connector := Some(a[|a| - 1].completed))
  {
    forall j | 0 <= j < |b|
      ensures Timeline(a + b, formatDate)[|a| + j] == Timeline(b, formatDate)[j]
    {
      assert (a + b)[|a| + j] == b[j];
    }
  }

  /** Among the first `k` rows, all but a final last row carry a connector. */
  lemma {:induction false} ConnectorsUpToCount(steps: seq<JourneyStep>, formatDate: string -> string, k: nat)
    requires k <= |steps|
    ensures ConnectorsUpTo(Timeline(steps, formatDate), k) == if k == |steps| && k > 0 then k - 1 else k
  {
    if k > 0 {
      ConnectorsUpToCount(steps, formatDate, k - 1);
    }
  }

  /** `n` steps give `max(n - 1, 0)` connectors. */
  lemma ConnectorTotal(steps: seq<JourneyStep>, formatDate: string -> string)
    ensures ConnectorsUpTo(Timeline(steps, formatDate), |steps|) == if |steps| == 0 then 0 else |steps| - 1
  {
    ConnectorsUpToCount(steps, formatDate, |steps|);
  }

  /** The oat drink's "At Home" step has no date; the milk's has one. Both end without a connector. */
  lemma CatalogDateLines(formatDate: string -> string)
    ensures Timeline(Catalog[2].journey, formatDate)[5].dateLine == None
    ensures Timeline(Catalog[0].journey, formatDate)[5].dateLine == Some(formatDate("2026-02-01"))
    ensures Timeline(Catalog[0].journey, formatDate)[5].connector == None
    ensures Timeline(Catalog[0].journey, formatDate)[4].connector == Some(true)
  {}
}
