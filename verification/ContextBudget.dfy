/** Run-closed cut points of a conversation and the byte budgets of its newest
    part (internal/ai/context_budget.go). A cut is a number of rows. */
module ContextBudget {
  import opened Prelude

  type RunId = string

  /** One stored message; ids are unique and, within a millisecond, ordered. */
  datatype Row = Row(id: nat, createdAt: int, runId: RunId, text: nat, private: nat, attached: nat)

  const MAX_PRIVATE := 4194304
  const MAX_TEXT := 2097152
  const MAX_TOOL_READ_STATE := 1048576 + 65536 + 1024

  predicate After(l: Row, r: Row) {
    l.createdAt > r.createdAt || (l.createdAt == r.createdAt && l.id > r.id)
  }

  /** The message table of one session, in (created_at, id) order. */
  ghost predicate Table(rows: seq<Row>) {
    && (forall i, j :: 0 <= i < j < |rows| ==>
          rows[i].createdAt < rows[j].createdAt || (rows[i].createdAt == rows[j].createdAt && rows[i].id < rows[j].id))
    && (forall i, j :: 0 <= i < j < |rows| ==> rows[i].id != rows[j].id)
  }

  lemma OrderIsPosition(rows: seq<Row>, i: nat, j: nat)
    requires Table(rows) && i < |rows| && j < |rows|
    ensures After(rows[i], rows[j]) <==> i > j
  {
    if i < j { assert After(rows[j], rows[i]); }
  }

  predicate SameRun(rows: seq<Row>, i: int, j: int)
    requires 0 <= i < |rows| && 0 <= j < |rows|
  {
    rows[i].runId != "" && rows[i].runId == rows[j].runId
  }

  /** No run has a row in [from, cut) and a row at or after the cut. */
  ghost predicate Closed(rows: seq<Row>, from: int, cut: int) {
    && 0 <= from <= cut <= |rows|
    && forall i, j :: from <= i < cut <= j < |rows| ==> !SameRun(rows, i, j)
  }

  /** The least closed cut at or after `at`. */
  ghost function Least(rows: seq<Row>, from: int, at: int): (cut: int)
    requires 0 <= from <= at <= |rows|
    ensures at <= cut <= |rows| && Closed(rows, from, cut)
    ensures forall c :: at <= c < cut ==> !Closed(rows, from, c)
    decreases |rows| - at
  {
    if Closed(rows, from, at) then at
    else assert at < |rows|; Least(rows, from, at + 1)
  }

  // ---- contextRunSpans ----

  /** Last row of every run among the first n rows. */
  ghost predicate LastRows(rows: seq<Row>, n: int, last: map<RunId, nat>)
    requires 0 <= n <= |rows|
  {
    && (forall i :: 0 <= i < n && rows[i].runId != "" ==> rows[i].runId in last)
    && (forall id :: id in last ==> last[id] < n && rows[last[id]].runId == id && id != "")
    && (forall i :: 0 <= i < n && rows[i].runId in last ==> i <= last[rows[i].runId])
  }

  method LastIndex(rows: seq<Row>) returns (last: map<RunId, nat>)
    ensures LastRows(rows, |rows|, last)
  {
    last := map[];
    for i := 0 to |rows|
      invariant LastRows(rows, i, last)
    {
      if rows[i].runId != "" {
        last := last[rows[i].runId := i];
      }
    }
  }

  /** The end of the span that starts at a closed cut: the next closed cut. */
  method SpanEnd(rows: seq<Row>, last: map<RunId, nat>, start: nat) returns (end: nat)
    requires start < |rows| && Closed(rows, 0, start) && LastRows(rows, |rows|, last)
    ensures start < end <= |rows| && Closed(rows, 0, end)
    ensures forall c :: start < c < end ==> !Closed(rows, 0, c)
  {
    end := start + 1;
    var i := start;
    while i < end
      invariant start <= i <= end <= |rows| && start < end
      invariant forall k :: start <= k < i && rows[k].runId != "" ==> last[rows[k].runId] < end
      invariant forall c :: start < c < end ==> !Closed(rows, 0, c)
      decreases |rows| - i
    {
      if rows[i].runId != "" {
        var to := last[rows[i].runId];
        assert SameRun(rows, i, to);
        end := Max(end, to + 1);
      }
      i := i + 1;
    }
  }

  /** Cut c is in the partition so far exactly when it is closed. */
  ghost predicate Cuts(rows: seq<Row>, spans: seq<nat>, upTo: nat) {
    && |spans| > 0 && spans[0] == 0 && spans[|spans| - 1] == upTo
    && (forall i, j :: 0 <= i < j < |spans| ==> spans[i] < spans[j])
    && (forall i :: 0 <= i < |spans| ==> Closed(rows, 0, spans[i]))
    && (forall c: nat :: c <= upTo && Closed(rows, 0, c) ==> c in spans)
  }

  lemma CutsSnoc(rows: seq<Row>, spans: seq<nat>, start: nat, end: nat)
    requires Cuts(rows, spans, start) && start < end && Closed(rows, 0, end)
    requires forall c :: start < c < end ==> !Closed(rows, 0, c)
    ensures Cuts(rows, spans + [end], end)
  {
    hide Closed;
    var next := spans + [end];
    forall c: nat | c <= end && Closed(rows, 0, c) ensures c in next {
      if c <= start { assert c in spans; } else { assert next[|spans|] == c; }
    }
  }

  /** contextRunSpans: the finest partition into run-closed spans. A cut belongs
      to it if and only if no run straddles the cut. */
  method RunSpans(rows: seq<Row>) returns (spans: seq<nat>)
    ensures Cuts(rows, spans, |rows|)
    ensures forall c: nat :: c <= |rows| ==> (c in spans <==> Closed(rows, 0, c))
  {
    var last := LastIndex(rows);
    spans := [0];
    var start: nat := 0;
    while start < |rows|
      invariant start <= |rows| && Cuts(rows, spans, start) && Closed(rows, 0, start)
    {
      var end := SpanEnd(rows, last, start);
      CutsSnoc(rows, spans, start, end);
      spans := spans + [end];
      start := end;
    }
    hide Closed;
  }

  // ---- expandContextBoundary ----

  /** The last row of the session that belongs to a run of the batch, if any. */
  method LastOfRuns(rows: seq<Row>, batch: seq<Row>) returns (k: int)
    ensures -1 <= k < |rows|
    ensures k >= 0 ==> rows[k].runId != "" && exists b :: b in batch && b.runId == rows[k].runId
    ensures forall i, b :: k < i < |rows| && b in batch && b.runId != "" ==> rows[i].runId != b.runId
  {
    var seen: set<RunId> := {};
    for i := 0 to |batch|
      invariant forall id :: id in seen <==> id != "" && exists j :: 0 <= j < i && batch[j].runId == id
    {
      if batch[i].runId != "" {
        seen := seen + {batch[i].runId};
      }
    }
    k := |rows| - 1;
    while k >= 0 && rows[k].runId !in seen
      invariant -1 <= k < |rows|
      invariant forall i :: k < i < |rows| ==> rows[i].runId !in seen
    {
      k := k - 1;
    }
    forall i, b | k < i < |rows| && b in batch && b.runId != "" ensures rows[i].runId != b.runId {
      assert b.runId in seen;
    }
    if k >= 0 {
      var j :| 0 <= j < |batch| && batch[j].runId == rows[k].runId;
      assert batch[j] in batch;
    }
  }

  /** The later of the boundary and the last row of any run in the batch. */
  method ExpandBoundary(rows: seq<Row>, batch: seq<Row>, boundary: nat) returns (b: nat)
    requires Table(rows) && boundary < |rows|
    ensures boundary <= b < |rows|
    ensures b == boundary || exists x :: x in batch && x.runId != "" && x.runId == rows[b].runId
    ensures forall i, x :: b < i < |rows| && x in batch && x.runId != "" ==> rows[i].runId != x.runId
  {
    b := boundary;
    var last := LastOfRuns(rows, batch);
    if last >= 0 {
      OrderIsPosition(rows, last, boundary);
      if After(rows[last], rows[boundary]) {
        b := last;
      }
    }
  }

  // ---- planContextBudget ----

  function TextBytes(rows: seq<Row>): nat { if rows == [] then 0 else rows[0].text + TextBytes(rows[1..]) }
  function PrivateBytes(rows: seq<Row>): nat { if rows == [] then 0 else rows[0].private + PrivateBytes(rows[1..]) }

  lemma {:induction false} BytesSplit(rows: seq<Row>, from: nat, mid: nat)
    requires from <= mid <= |rows|
    ensures TextBytes(rows[from..]) == TextBytes(rows[from..mid]) + TextBytes(rows[mid..])
    ensures PrivateBytes(rows[from..]) == PrivateBytes(rows[from..mid]) + PrivateBytes(rows[mid..])
    decreases mid - from
  {
    if from < mid {
      assert rows[from..][1..] == rows[from + 1..];
      assert rows[from..mid][1..] == rows[from + 1..mid];
      BytesSplit(rows, from + 1, mid);
    }
  }

  /** The rows from the cut on can be sent whole. */
  ghost predicate Fits(rows: seq<Row>, cut: nat)
    requires cut <= |rows|
  {
    && TextBytes(rows[cut..]) <= 2 * 1024 * 1024
    && PrivateBytes(rows[cut..]) <= 4 * 1024 * 1024
    && forall i :: cut <= i < |rows| ==> rows[i].private <= 1024 * 1024 + 65 * 1024
  }

  lemma FitsLater(rows: seq<Row>, cut: nat, later: nat)
    requires cut <= later <= |rows| && Fits(rows, cut)
    ensures Fits(rows, later)
  {
    BytesSplit(rows, cut, later);
  }

  ghost predicate Holds(rows: seq<Row>, from: int, to: int, run: RunId) {
    run != "" && exists i :: 0 <= from <= i < to <= |rows| && rows[i].runId == run
  }

  /** The least closed cut whose remainder fits the budgets. */
  ghost predicate BudgetCut(rows: seq<Row>, cut: nat) {
    && Closed(rows, 0, cut) && Fits(rows, cut)
    && forall c: nat :: c < cut && Closed(rows, 0, c) ==> !Fits(rows, c)
  }

  lemma BudgetCutUnique(rows: seq<Row>, a: nat, b: nat)
    requires BudgetCut(rows, a) && BudgetCut(rows, b)
    ensures a == b
  {
    hide Closed, Fits;
  }

  datatype Plan = Keep(cut: nat) | TooLarge

  /** The plan drops everything before the least fitting cut, unless nothing
      fits or the span just before that cut holds the current run. */
  ghost predicate Planned(rows: seq<Row>, current: RunId, plan: Plan) {
    exists cut, older :: PlanAt(rows, current, plan, cut, older)
  }

  /** `older` is the closed cut before `cut`, which is the budget cut. */
  ghost predicate PlanAt(rows: seq<Row>, current: RunId, plan: Plan, cut: nat, older: nat) {
    && BudgetCut(rows, cut)
    && (cut > 0 ==> older < cut && Closed(rows, 0, older) && forall c :: older < c < cut ==> !Closed(rows, 0, c))
    && plan == if cut > 0 && (cut == |rows| || Holds(rows, older, cut, current)) then TooLarge else Keep(cut)
  }

  /** The rows and the current run determine the plan. */
  lemma PlanUnique(rows: seq<Row>, current: RunId, p: Plan, q: Plan)
    requires Planned(rows, current, p) && Planned(rows, current, q)
    ensures p == q
  {
    hide Closed, Fits, Holds;
    var a, older :| PlanAt(rows, current, p, a, older);
    var b, before :| PlanAt(rows, current, q, b, before);
    BudgetCutUnique(rows, a, b);
    assert a > 0 ==> older == before;
  }

  // ---- Which runs a plan drops ----

  /** The last row in [from, end) of a run, or from - 1. */
  ghost function LastOf(rows: seq<Row>, from: int, end: int, run: RunId): (k: int)
    requires 0 <= from <= end <= |rows|
    ensures from - 1 <= k < end && (k >= from ==> rows[k].runId == run)
    ensures forall i :: k < i < end ==> rows[i].runId != run
    decreases end - from
  {
    if end == from then from - 1 else if rows[end - 1].runId == run then end - 1 else LastOf(rows, from, end - 1, run)
  }

  /** The least closed cut after all rows of a run. */
  ghost function AfterRun(rows: seq<Row>, from: int, run: RunId): (cut: int)
    requires 0 <= from <= |rows|
    ensures from <= cut <= |rows| && Closed(rows, from, cut)
  {
    Least(rows, from, LastOf(rows, from, |rows|, run) + 1)
  }

  /** A run that a closed cut touches lies before it as a whole. */
  lemma TouchedWhole(rows: seq<Row>, from: nat, cut: nat, run: RunId)
    requires Closed(rows, from, cut) && Holds(rows, from, cut, run)
    ensures LastOf(rows, from, |rows|, run) + 1 <= cut && AfterRun(rows, from, run) <= cut
  {
    var i :| from <= i < cut && rows[i].runId == run;
    var last := LastOf(rows, from, |rows|, run);
    if last >= cut { assert SameRun(rows, i, last); }
  }

  /** A run before a cut, but not in the span before that cut, ends before the span. */
  lemma SpanBefore(rows: seq<Row>, older: nat, cut: nat, run: RunId)
    requires older < cut && Closed(rows, 0, older) && Closed(rows, 0, cut)
    requires Holds(rows, 0, cut, run) && !Holds(rows, older, cut, run)
    ensures AfterRun(rows, 0, run) <= older
  {
    TouchedWhole(rows, 0, cut, run);
    var last := LastOf(rows, 0, |rows|, run);
    assert last >= 0;
    hide Closed;
    assert older <= last < cut ==> Holds(rows, older, cut, run);
  }

  /** A successful plan drops the current run if and only if what comes after that
      run cannot be sent whole: a condition on the rows alone. */
  lemma DroppedIff(rows: seq<Row>, current: RunId, cut: nat)
    requires Planned(rows, current, Keep(cut))
    ensures Holds(rows, 0, cut, current) <==> Holds(rows, 0, |rows|, current) && !Fits(rows, AfterRun(rows, 0, current))
  {
    var older: nat :| PlanAt(rows, current, Keep(cut), cut, older);
    var e := AfterRun(rows, 0, current);
    if Holds(rows, 0, cut, current) {
      TouchedWhole(rows, 0, cut, current);
      SpanBefore(rows, older, cut, current);
    }
    if Holds(rows, 0, |rows|, current) && !Fits(rows, e) {
      if cut <= e { FitsLater(rows, cut, e); }
      var last := LastOf(rows, 0, |rows|, current);
      assert rows[last].runId == current;
      hide Fits, Closed;
    }
  }

  method SpanCost(rows: seq<Row>, start: nat, end: nat, current: RunId)
    returns (text: nat, private: nat, oversize: bool, holds: bool)
    requires start <= end <= |rows|
    ensures text == TextBytes(rows[start..end]) && private == PrivateBytes(rows[start..end])
    ensures oversize <==> exists i :: start <= i < end && rows[i].private > MAX_TOOL_READ_STATE
    ensures holds <==> Holds(rows, start, end, current)
  {
    text, private, oversize, holds := 0, 0, false, false;
    var k := end;
    while k > start
      invariant start <= k <= end
      invariant text == TextBytes(rows[k..end]) && private == PrivateBytes(rows[k..end])
      invariant oversize <==> exists i :: k <= i < end && rows[i].private > MAX_TOOL_READ_STATE
      invariant holds <==> Holds(rows, k, end, current)
    {
      k := k - 1;
      assert rows[k..end][1..] == rows[k + 1..end];
      text, private := text + rows[k].text, private + rows[k].private;
      oversize := oversize || rows[k].private > MAX_TOOL_READ_STATE;
      holds := holds || (current != "" && rows[k].runId == current);
    }
  }

  /** planContextBudget over the rows of the window. */
  method PlanBudget(rows: seq<Row>, current: RunId) returns (plan: Plan)
    ensures Planned(rows, current, plan)
  {
    var spans := RunSpans(rows);
    var text, private, kept := 0, 0, 0;
    var group := |spans| - 1;
    while group > 0
      invariant 0 <= group < |spans| && spans[group] <= |rows|
      invariant text == TextBytes(rows[spans[group]..]) && private == PrivateBytes(rows[spans[group]..])
      invariant kept == |rows| - spans[group]
      invariant Fits(rows, spans[group])
    {
      var start, end := spans[group - 1], spans[group];
      var groupText, groupPrivate, oversize, holds := SpanCost(rows, start, end, current);
      BytesSplit(rows, start, end);
      SpanNeighbours(rows, spans, group);
      if oversize || groupText > MAX_TEXT - text || groupPrivate > MAX_PRIVATE - private {
        assert !Fits(rows, start);
        OlderDoNotFit(rows, start, end);
        hide Fits, Closed, Holds;
        if kept == 0 || holds {
          plan := TooLarge;
        } else {
          plan := Keep(end);
        }
        assert PlanAt(rows, current, plan, end, start);
        return;
      }
      text, private, kept := text + groupText, private + groupPrivate, kept + (end - start);
      group := group - 1;
    }
    hide Fits, Closed, Holds;
    plan := Keep(0);
    assert PlanAt(rows, current, plan, 0, 0);
  }

  lemma SpanNeighbours(rows: seq<Row>, spans: seq<nat>, group: nat)
    requires Cuts(rows, spans, |rows|) && 0 < group < |spans|
    ensures spans[group - 1] < spans[group] <= |rows|
    ensures Closed(rows, 0, spans[group - 1]) && Closed(rows, 0, spans[group])
    ensures forall c :: spans[group - 1] < c < spans[group] ==> !Closed(rows, 0, c)
  {
    hide Closed;
    forall c: nat | spans[group - 1] < c < spans[group] ensures c !in spans {
      forall j | 0 <= j < |spans| ensures spans[j] != c {
        if j < group - 1 { assert spans[j] < spans[group - 1]; }
        if j > group { assert spans[group] < spans[j]; }
      }
    }
  }

  lemma OlderDoNotFit(rows: seq<Row>, start: nat, end: nat)
    requires start < end <= |rows| && !Fits(rows, start) && Fits(rows, end) && Closed(rows, 0, end)
    requires forall c :: start < c < end ==> !Closed(rows, 0, c)
    ensures BudgetCut(rows, end)
  {
    forall c: nat | c < end && Closed(rows, 0, c) ensures !Fits(rows, c) {
      if Fits(rows, c) { FitsLater(rows, c, start); }
    }
  }
}
