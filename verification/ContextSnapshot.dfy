/** The context of one model call (internal/ai/context.go): old rows are folded
    into a summary in three phases, each at a run-closed cut. */
module ContextSnapshot {
  import opened Prelude
  import opened ContextBudget

  const WINDOW_ROWS := 200
  const BATCH_ROWS := 100

  // ---- The store as a sorted table and a cursor ----

  function Index(rows: seq<Row>, id: nat): (k: int)
    ensures k == -1 || (0 <= k < |rows| && rows[k].id == id)
    ensures k == -1 ==> forall i :: 0 <= i < |rows| ==> rows[i].id != id
  {
    if rows == [] then -1
    else if rows[|rows| - 1].id == id then |rows| - 1
    else Index(rows[..|rows| - 1], id)
  }

  /** Number of rows up to the cursor. A cursor naming no row of the session
      compares with NULL, so that nothing follows it. */
  function Position(rows: seq<Row>, cursor: Option<nat>): (p: nat)
    ensures p <= |rows|
  {
    match cursor
    case None => 0
    case Some(id) => var k := Index(rows, id); if k == -1 then |rows| else k + 1
  }

  function ReadAfter(rows: seq<Row>, cursor: Option<nat>, limit: nat): seq<Row> {
    var p := Position(rows, cursor);
    rows[p..Min(|rows|, p + limit)]
  }

  lemma PositionOf(rows: seq<Row>, k: nat)
    requires Table(rows) && k < |rows|
    ensures Position(rows, Some(rows[k].id)) == k + 1
  {
    forall i | 0 <= i < |rows| && i != k ensures rows[i].id != rows[k].id {
      if i < k { assert rows[i].id != rows[k].id; } else { assert rows[k].id != rows[i].id; }
    }
    var j := Index(rows, rows[k].id);
  }

  // ---- Closed cuts relative to where folding started ----

  lemma NoRowsClosed(rows: seq<Row>, from: nat)
    requires from <= |rows|
    ensures Closed(rows, from, from) && Closed(rows, from, |rows|)
  {
  }

  lemma ClosedTransitive(rows: seq<Row>, a: nat, b: nat, c: nat)
    requires Closed(rows, a, b) && Closed(rows, b, c)
    ensures Closed(rows, a, c)
  {
  }

  /** Cuts of the rows after position b, seen in the whole table. */
  lemma ClosedShift(rows: seq<Row>, b: nat, cut: nat)
    requires b + cut <= |rows|
    ensures Closed(rows[b..], 0, cut) <==> Closed(rows, b, b + cut)
  {
    var w := rows[b..];
    if Closed(w, 0, cut) {
      forall i, j | b <= i < b + cut <= j < |rows| ensures !SameRun(rows, i, j) {
        assert !SameRun(w, i - b, j - b);
      }
    }
    if Closed(rows, b, b + cut) {
      forall i, j | 0 <= i < cut <= j < |w| ensures !SameRun(w, i, j) {
        assert !SameRun(rows, b + i, b + j);
      }
    }
  }

  /** Where the batched loop must stop. */
  ghost function Target(rows: seq<Row>, c0: nat): (cut: nat)
    requires c0 <= |rows|
    ensures c0 <= cut <= |rows| && Closed(rows, c0, cut) && |rows| - cut <= WINDOW_ROWS
  {
    NoRowsClosed(rows, c0);
    if |rows| - c0 <= WINDOW_ROWS then c0 else Least(rows, c0, |rows| - WINDOW_ROWS)
  }

  // ---- The batched summary loop ----

  lemma TargetBounds(rows: seq<Row>, c0: nat)
    requires c0 <= |rows|
    ensures var cut := Target(rows, c0);
            if |rows| - c0 <= WINDOW_ROWS then cut == c0 else |rows| - WINDOW_ROWS <= cut
  {
    hide Closed;
  }

  lemma TargetLeast(rows: seq<Row>, c0: nat, c: nat)
    requires c0 <= c <= |rows| && c <= Target(rows, c0) && |rows| - c <= WINDOW_ROWS && Closed(rows, c0, c)
    ensures c == Target(rows, c0)
  {
    hide Closed;
  }

  /** Between batches: rows [c0, c) are folded, the current phase began at the
      closed cut s, and `bound` rows reach up to the moving boundary. */
  ghost predicate Folding(rows: seq<Row>, c0: nat, s: nat, c: nat, bound: nat) {
    && c0 <= s <= c <= bound <= |rows|
    && Closed(rows, c0, s)
    && bound <= Target(rows, c0)
    && (bound == c ==> s == c)
    && forall i, j :: s <= i < c && bound <= j < |rows| ==> !SameRun(rows, i, j)
  }

  lemma FoldingDone(rows: seq<Row>, c0: nat, s: nat, c: nat, boundary: Option<nat>)
    requires boundary.None? && Folding(rows, c0, s, c, Bound(c, boundary))
    ensures c0 <= c <= Target(rows, c0) && Closed(rows, c0, c)
  {
    hide Target;
  }

  /** One more batch [c, to), after which the boundary is row `last`. */
  lemma BatchFolded(rows: seq<Row>, c0: nat, s: nat, c: nat, bound: nat, to: nat, last: nat)
    requires Folding(rows, c0, s, c, bound) && bound <= last + 1 && c < to <= last + 1 <= |rows|
    requires last < Target(rows, c0)
    requires forall i, x :: last < i < |rows| && x in rows[c..to] && x.runId != "" ==> rows[i].runId != x.runId
    ensures Folding(rows, c0, if last + 1 == to then to else s, to, last + 1)
  {
    hide Target;
    forall i, j | s <= i < to && last + 1 <= j < |rows| ensures !SameRun(rows, i, j) {
      if i >= c { assert rows[c..to][i - c] == rows[i]; }
    }
  }

  /** The boundary after a batch stays before the target. */
  lemma BoundaryWithin(rows: seq<Row>, c0: nat, c: nat, to: nat, b: nat, last: nat)
    requires c0 <= c < to <= |rows| && to <= Target(rows, c0) && b < Target(rows, c0) && b < |rows| && last < |rows|
    requires last == b || exists x :: x in rows[c..to] && x.runId != "" && x.runId == rows[last].runId
    ensures last < Target(rows, c0)
  {
    var cut := Target(rows, c0);
    hide Target;
    if last != b {
      var x :| x in rows[c..to] && x.runId != "" && x.runId == rows[last].runId;
      var i :| 0 <= i < to - c && rows[c..to][i] == x;
      assert SameRun(rows, c + i, last);
    }
  }

  lemma HeldLater(rows: seq<Row>, c0: nat, c: nat, to: nat, cut: nat, current: RunId)
    requires c0 <= c <= to <= cut <= |rows|
    ensures Holds(rows, c, to, current) ==> Holds(rows, c0, cut, current)
    ensures Holds(rows, c0, to, current) <==> Holds(rows, c0, c, current) || Holds(rows, c, to, current)
  {
  }

  /** The batch up to the boundary. The batch starts before the boundary, so it
      is never empty. */
  method UpTo(rows: seq<Row>, batch: seq<Row>, ghost c: nat, boundary: nat) returns (kept: seq<Row>)
    requires Table(rows) && c <= boundary < |rows| && c + |batch| <= |rows| && batch == rows[c..c + |batch|]
             && |batch| > 0
    ensures var to := Min(c + |batch|, boundary + 1); kept == rows[c..to] && c < to
  {
    var end := 0;
    OrderIsPosition(rows, c, boundary);
    while end < |batch| && !After(batch[end], rows[boundary])
      invariant 0 <= end <= |batch| && c + end <= boundary + 1
    {
      OrderIsPosition(rows, c + end, boundary);
      end := end + 1;
    }
    if end < |batch| { OrderIsPosition(rows, c + end, boundary); }
    return batch[..end];
  }

  method BatchHolds(ghost rows: seq<Row>, ghost c: nat, ghost to: nat, batch: seq<Row>, current: RunId)
    returns (b: bool)
    requires c <= to <= |rows| && batch == rows[c..to]
    ensures b <==> Holds(rows, c, to, current)
  {
    b := false;
    for i := 0 to |batch|
      invariant b <==> Holds(rows, c, c + i, current)
    {
      b := b || (current != "" && batch[i].runId == current);
    }
  }

  /** Bound of the folding phase: the rows up to the boundary, if there is one. */
  function Bound(c: nat, boundary: Option<nat>): nat {
    if boundary.Some? then boundary.value + 1 else c
  }

  /** Reads at most `limit` rows after the cursor and none past the boundary,
      which becomes the last row read when there is none yet. */
  method ReadBatch(rows: seq<Row>, cursor: Option<nat>, boundary: Option<nat>, limit: nat)
    returns (batch: seq<Row>, bound: nat)
    requires Table(rows) && limit > 0 && Position(rows, cursor) < |rows|
    requires boundary.Some? ==> Position(rows, cursor) <= boundary.value < |rows|
    ensures var c := Position(rows, cursor);
            var to := c + |batch|;
            && c < to <= |rows| && |batch| <= limit && batch == rows[c..to]
            && Bound(c, boundary) <= bound + 1 && to <= bound + 1 <= |rows|
            && (if boundary.Some? then bound == boundary.value else bound == to - 1)
  {
    ghost var c := Position(rows, cursor);
    batch := ReadAfter(rows, cursor, limit);
    if boundary.Some? {
      bound := boundary.value;
      hide Table, After;
      batch := UpTo(rows, batch, c, bound);
    } else {
      PositionOf(rows, c + |batch| - 1);
      bound := Index(rows, batch[|batch| - 1].id);
    }
  }

  /** One iteration of the summary loop: a batch is read and, unless it holds the
      current run, the boundary moves to the last row of any run read. */
  method FoldBatch(rows: seq<Row>, cursor: Option<nat>, boundary: Option<nat>, limit: nat, current: RunId,
                   ghost c0: nat, ghost s: nat)
    returns (held: bool, cursor': Option<nat>, boundary': Option<nat>, batch: seq<Row>, ghost s': nat)
    requires Table(rows) && limit > 0 && c0 <= |rows|
    requires var c := Position(rows, cursor);
             && Folding(rows, c0, s, c, Bound(c, boundary)) && c < |rows|
             && (if boundary.Some? then c <= boundary.value < |rows| else c + limit <= Target(rows, c0))
    ensures held ==> Holds(rows, c0, Target(rows, c0), current)
    ensures !held ==>
              var c := Position(rows, cursor);
              var to := c + |batch|;
              && c < to <= |rows| && batch == rows[c..to] && !Holds(rows, c, to, current)
              && Position(rows, cursor') == to
              && (boundary'.Some? ==> to <= boundary'.value < |rows|)
              && Folding(rows, c0, s', to, Bound(to, boundary'))
  {
    ghost var c := Position(rows, cursor);
    hide *;
    FoldingBounds(rows, c0, s, c, Bound(c, boundary));
    var bound;
    batch, bound := ReadBatch(rows, cursor, boundary, limit);
    ghost var to := c + |batch|;
    BatchBounds(rows, c0, c, boundary, to, bound);
    HeldLater(rows, c0, c, to, Target(rows, c0), current);
    held := BatchHolds(rows, c, to, batch, current);
    cursor', boundary', s' := cursor, boundary, s;
    if held {
      return;
    }
    var last := ExpandBoundary(rows, batch, bound);
    BoundaryWithin(rows, c0, c, to, bound, last);
    BatchFolded(rows, c0, s, c, Bound(c, boundary), to, last);
    LastRow(rows, c, to);
    cursor' := Some(batch[|batch| - 1].id);
    boundary' := if batch[|batch| - 1].id == rows[last].id then None else Some(last);
    s' := if boundary'.None? then to else s;
    BoundaryReached(rows, to, last);
  }

  lemma BatchBounds(rows: seq<Row>, c0: nat, c: nat, boundary: Option<nat>, to: nat, bound: nat)
    requires c0 <= |rows| && to <= bound + 1 <= |rows| && Bound(c, boundary) <= Target(rows, c0)
    requires if boundary.Some? then bound == boundary.value else bound == to - 1 && to <= Target(rows, c0)
    ensures to <= Target(rows, c0) && bound < Target(rows, c0)
  {
    hide Target;
  }

  /** The cursor has reached the boundary exactly when it names the same row. */
  lemma BoundaryReached(rows: seq<Row>, to: nat, last: nat)
    requires Table(rows) && 0 < to <= last + 1 <= |rows|
    ensures Position(rows, Some(rows[to - 1].id)) == to
    ensures rows[to - 1].id == rows[last].id <==> last == to - 1
    ensures Bound(to, None) == to && Bound(to, Some(last)) == last + 1
  {
    PositionOf(rows, to - 1);
    PositionOf(rows, last);
    hide Table, Position;
  }

  lemma LastRow(rows: seq<Row>, c: nat, to: nat)
    requires c < to <= |rows|
    ensures rows[c..to][to - c - 1] == rows[to - 1]
  {
  }

  lemma FoldingBounds(rows: seq<Row>, c0: nat, s: nat, c: nat, bound: nat)
    requires Folding(rows, c0, s, c, bound)
    ensures c0 <= s <= c <= bound <= |rows| && bound <= Target(rows, c0) <= |rows| && (bound == c ==> s == c)
  {
    hide Target;
  }

  datatype Folded = Folded(cursor: Option<nat>, rows: seq<Row>) | CurrentRunMet

  /** The summary loop sees at most 100 rows at a time and its boundary keeps
      moving, yet it stops at the target cut, unless it meets the current run. */
  method FoldOldRows(rows: seq<Row>, cursor0: Option<nat>, current: RunId) returns (r: Folded)
    requires Table(rows)
    ensures var c0 := Position(rows, cursor0);
            var cut := Target(rows, c0);
            if Holds(rows, c0, cut, current) then r == CurrentRunMet
            else r.Folded? && r.rows == rows[c0..cut] && Position(rows, r.cursor) == cut
                 && (cut == c0 ==> r.cursor == cursor0)
  {
    ghost var c0 := Position(rows, cursor0);
    ghost var s: nat, c: nat := c0, c0;
    var cursor, folded := cursor0, [];
    var count := |rows| - Position(rows, cursor);
    var boundary: Option<nat> := None;
    FoldingStarts(rows, c0, current);
    assert Taken(rows, c0, c, folded);
    hide *;
    while count > WINDOW_ROWS || boundary.Some?
      invariant c == Position(rows, cursor) && c0 <= c <= |rows| && count == |rows| - c && Taken(rows, c0, c, folded)
      invariant boundary.Some? ==> c <= boundary.value < |rows|
      invariant Folding(rows, c0, s, c, Bound(c, boundary))
      invariant !Holds(rows, c0, c, current)
      invariant c == c0 ==> cursor == cursor0
      decreases |rows| - c
    {
      WindowRows();
      ReadBounds(rows, c0, s, c, boundary);
      var limit: nat := if boundary.Some? then BATCH_ROWS else Min(count - WINDOW_ROWS, BATCH_ROWS);
      MinBounds(count - WINDOW_ROWS, BATCH_ROWS);
      var held, batch;
      held, cursor, boundary, batch, s := FoldBatch(rows, cursor, boundary, limit, current, c0, s);
      if held {
        return CurrentRunMet;
      }
      HeldLater(rows, c0, c, c + |batch|, c + |batch|, current);
      TakenMore(rows, c0, c, folded, batch);
      folded, count, c := folded + batch, count - |batch|, c + |batch|;
    }
    WindowRows();
    TakenIs(rows, c0, c, folded);
    FoldingDone(rows, c0, s, c, boundary);
    TargetLeast(rows, c0, c);
    return Folded(cursor, folded);
  }

  lemma WindowRows()
    ensures WINDOW_ROWS == 200 && BATCH_ROWS == 100
  {
  }

  lemma MinBounds(a: int, b: int)
    ensures Min(a, b) <= a && Min(a, b) <= b && (Min(a, b) == a || Min(a, b) == b)
  {
  }

  lemma FoldingStarts(rows: seq<Row>, c0: nat, current: RunId)
    requires c0 <= |rows|
    ensures Folding(rows, c0, c0, c0, Bound(c0, None)) && !Holds(rows, c0, c0, current)
  {
    NoRowsClosed(rows, c0);
  }

  lemma ReadBounds(rows: seq<Row>, c0: nat, s: nat, c: nat, boundary: Option<nat>)
    requires c0 <= c <= |rows| && Folding(rows, c0, s, c, Bound(c, boundary))
    ensures |rows| - c > WINDOW_ROWS ==> |rows| - WINDOW_ROWS <= Target(rows, c0)
  {
    TargetBounds(rows, c0);
    hide Target, Folding;
  }

  ghost predicate Taken(rows: seq<Row>, from: nat, to: nat, folded: seq<Row>) {
    from <= to <= |rows| && folded == rows[from..to]
  }

  lemma TakenMore(rows: seq<Row>, from: nat, to: nat, folded: seq<Row>, batch: seq<Row>)
    requires Taken(rows, from, to, folded) && to + |batch| <= |rows| && batch == rows[to..to + |batch|]
    ensures Taken(rows, from, to + |batch|, folded + batch)
  {
  }

  lemma TakenIs(rows: seq<Row>, from: nat, to: nat, folded: seq<Row>)
    requires Taken(rows, from, to, folded)
    ensures from <= to <= |rows| && folded == rows[from..to]
  {
  }

  // ---- The window split ----

  function Chars(row: Row): nat { row.text + row.private + row.attached }

  ghost function TotalChars(rows: seq<Row>): nat {
    if rows == [] then 0 else rows[0].text + rows[0].private + rows[0].attached + TotalChars(rows[1..])
  }

  method SumChars(rows: seq<Row>) returns (chars: nat)
    ensures chars == TotalChars(rows)
  {
    chars := 0;
    assert rows[0..] == rows;
    for i := 0 to |rows|
      invariant chars + TotalChars(rows[i..]) == TotalChars(rows)
    {
      assert rows[i..][1..] == rows[i + 1..];
      chars := chars + Chars(rows[i]);
    }
  }

  lemma {:induction false} CharsSplit(rows: seq<Row>, from: nat, mid: nat)
    requires from <= mid <= |rows|
    ensures TotalChars(rows[from..]) == TotalChars(rows[from..mid]) + TotalChars(rows[mid..])
    decreases mid - from
  {
    if from < mid {
      assert rows[from..][1..] == rows[from + 1..];
      assert rows[from..mid][1..] == rows[from + 1..mid];
      CharsSplit(rows, from + 1, mid);
    }
  }

  /** The longest suffix of whole rows within the allowance begins here; when
      every row fits, the source keeps the split at the end. */
  ghost predicate RawSplit(rows: seq<Row>, keep: nat, split: nat) {
    && split <= |rows|
    && (TotalChars(rows) <= keep ==> split == |rows|)
    && (TotalChars(rows) > keep ==> TotalChars(rows[split..]) <= keep
                                    && split > 0 && TotalChars(rows[split - 1..]) > keep)
  }

  method FindRawSplit(rows: seq<Row>, keep: nat) returns (split: nat)
    ensures RawSplit(rows, keep, split)
  {
    var running: nat, index := 0, |rows|;
    assert rows[|rows|..] == [];
    while index > 0
      invariant 0 <= index <= |rows| && running == TotalChars(rows[index..]) <= keep
    {
      index := index - 1;
      assert rows[index..][1..] == rows[index + 1..];
      running := running + Chars(rows[index]);
      if running > keep {
        CharsSplit(rows, 0, index);
        assert rows[0..] == rows;
        return index + 1;
      }
    }
    assert rows[0..] == rows;
    return |rows|;
  }

  /** Rounds a split inside the window up to the least run-closed cut. */
  method RoundUp(rows: seq<Row>, split: nat) returns (cut: nat)
    requires split <= |rows|
    ensures split <= cut <= |rows| && Closed(rows, 0, cut)
    ensures forall c :: split <= c < cut ==> !Closed(rows, 0, c)
  {
    var spans := RunSpans(rows);
    var i := 0;
    assert |rows| == spans[|spans| - 1];
    while spans[i] < split
      invariant 0 <= i < |spans|
      invariant forall k :: 0 <= k < i ==> spans[k] < split
      decreases |spans| - i
    {
      assert i < |spans| - 1;
      i := i + 1;
    }
    cut := spans[i];
    forall c: nat | split <= c < cut ensures c !in spans {
      forall k | 0 <= k < |spans| ensures spans[k] != c {
        if k > i { assert spans[i] < spans[k]; }
      }
    }
  }

  datatype Split = SplitAt(cut: nat) | HoldsCurrent

  function KeepChars(window: nat, summary: nat): nat {
    Max((window as real * 0.45 * 4.0).Floor - summary, 512)
  }

  function WindowChars(window: nat): int { (window as real * 0.7 * 4.0).Floor }

  /** A run-closed cut strictly inside the rows that leaves at most `keep` characters. */
  ghost predicate Leaves(rows: seq<Row>, keep: nat, cut: nat) {
    0 < cut < |rows| && Closed(rows, 0, cut) && TotalChars(rows[cut..]) <= keep
  }

  ghost predicate LeastLeaving(rows: seq<Row>, keep: nat, cut: nat) {
    Leaves(rows, keep, cut) && forall c :: 0 < c < cut ==> !Leaves(rows, keep, c)
  }

  /** A window is split when it holds at least 1024 tokens, the summary and the rows
      take more than 14/5 characters for each, and the rows alone more than is to be
      left: 9/5 characters a token less the summary, but at least 512. Then the least
      run-closed cut that leaves no more than that is taken, if there is one inside
      the rows; it may not hold the current run. */
  ghost predicate Trimmed(rows: seq<Row>, window: nat, summary: nat, current: RunId, r: Split) {
    var keep: nat := if 9 * window / 5 - summary < 512 then 512 else 9 * window / 5 - summary;
    if window >= 1024 && 5 * (summary + TotalChars(rows)) > 14 * window && TotalChars(rows) > keep
    then LeftWithin(rows, keep, current, r)
    else r == SplitAt(0)
  }

  ghost predicate LeftWithin(rows: seq<Row>, keep: nat, current: RunId, r: Split) {
    || (exists cut: nat :: CutAt(rows, keep, cut, current, r))
    || (r == SplitAt(0) && forall cut: nat :: !Leaves(rows, keep, cut))
  }

  ghost predicate CutAt(rows: seq<Row>, keep: nat, cut: nat, current: RunId, r: Split) {
    LeastLeaving(rows, keep, cut) && r == if Holds(rows, 0, cut, current) then HoldsCurrent else SplitAt(cut)
  }

  lemma WindowIs(window: nat, summary: nat)
    ensures WindowChars(window) == 14 * window / 5
    ensures KeepChars(window, summary) == if 9 * window / 5 - summary < 512 then 512 else 9 * window / 5 - summary
  {
    var w := window as real;
    assert w * 0.7 * 4.0 == (14 * window) as real / 5.0;
    assert w * 0.45 * 4.0 == (9 * window) as real / 5.0;
    FloorFifths(14 * window);
    FloorFifths(9 * window);
  }

  lemma FloorFifths(n: nat)
    ensures (n as real / 5.0).Floor == n / 5
  {
    var q, x := n / 5, n as real / 5.0;
    assert 5 * q <= n < 5 * q + 5;
    assert q as real <= x < q as real + 1.0;
  }

  /** Rounding the newest messages within the allowance up to a whole span finds the
      least cut that leaves no more than it. */
  lemma RoundedIsLeast(rows: seq<Row>, keep: nat, raw: nat, cut: nat)
    requires RawSplit(rows, keep, raw) && TotalChars(rows) > keep
    requires raw <= cut <= |rows| && Closed(rows, 0, cut) && forall c :: raw <= c < cut ==> !Closed(rows, 0, c)
    ensures cut > 0 && forall c: nat :: c < cut ==> !Leaves(rows, keep, c)
    ensures cut < |rows| ==> LeastLeaving(rows, keep, cut)
  {
    hide Closed, Leaves, TotalChars;
    forall c: nat | c < cut ensures !Leaves(rows, keep, c) {
      if c < raw { TooEarly(rows, keep, raw, c); } else { NotClosed(rows, keep, c); }
    }
    if cut < |rows| {
      CharsSplit(rows, raw, cut);
      LeavesDef(rows, keep, cut);
    }
  }

  lemma TooEarly(rows: seq<Row>, keep: nat, raw: nat, c: nat)
    requires RawSplit(rows, keep, raw) && TotalChars(rows) > keep && c < raw
    ensures !Leaves(rows, keep, c)
  {
    hide Closed, TotalChars;
    CharsSplit(rows, c, raw - 1);
  }

  lemma NotClosed(rows: seq<Row>, keep: nat, c: nat)
    ensures Leaves(rows, keep, c) ==> Closed(rows, 0, c)
  {
    hide Closed, TotalChars;
  }

  lemma LeavesDef(rows: seq<Row>, keep: nat, cut: nat)
    ensures Leaves(rows, keep, cut) <==> 0 < cut < |rows| && Closed(rows, 0, cut) && TotalChars(rows[cut..]) <= keep
  {
    hide Closed, TotalChars;
  }

  method TrimWindow(rows: seq<Row>, window: nat, summary: nat, current: RunId) returns (r: Split)
    ensures Trimmed(rows, window, summary, current, r)
  {
    if window < 1024 {
      return SplitAt(0);
    }
    WindowIs(window, summary);
    var chars := SumChars(rows);
    if summary + chars <= WindowChars(window) {
      return SplitAt(0);
    }
    var keep := KeepChars(window, summary);
    hide KeepChars, WindowChars, RawSplit, Closed, Holds, LeastLeaving;
    var raw := FindRawSplit(rows, keep);
    RawSplitBound(rows, keep, raw);
    var cut := raw;
    if raw > 0 && raw < |rows| {
      cut := RoundUp(rows, raw);
    } else {
      EndsClosed(rows, raw);
    }
    r := SplitAt(0);
    if cut > 0 && cut < |rows| {
      var held := BatchHolds(rows, 0, cut, rows[0..cut], current);
      r := if held then HoldsCurrent else SplitAt(cut);
    }
    RoundedTrims(rows, window, summary, current, keep, raw, cut, r);
  }

  lemma RawAtEnd(rows: seq<Row>, keep: nat, raw: nat)
    requires RawSplit(rows, keep, raw) && TotalChars(rows) <= keep
    ensures raw == |rows|
  {
  }

  lemma RoundedTrims(rows: seq<Row>, window: nat, summary: nat, current: RunId, keep: nat, raw: nat, cut: nat, r: Split)
    requires window >= 1024 && 5 * (summary + TotalChars(rows)) > 14 * window
    requires keep == if 9 * window / 5 - summary < 512 then 512 else 9 * window / 5 - summary
    requires RawSplit(rows, keep, raw)
    requires raw <= cut <= |rows| && Closed(rows, 0, cut) && forall c :: raw <= c < cut ==> !Closed(rows, 0, c)
    requires r == if cut == 0 || cut == |rows| then SplitAt(0)
                  else if Holds(rows, 0, cut, current) then HoldsCurrent else SplitAt(cut)
    ensures Trimmed(rows, window, summary, current, r)
  {
    hide Closed, Holds, TotalChars, RawSplit, Leaves;
    if TotalChars(rows) > keep {
      RoundedIsLeast(rows, keep, raw, cut);
      if cut < |rows| {
        assert CutAt(rows, keep, cut, current, r);
      } else {
        forall c: nat ensures !Leaves(rows, keep, c) { NotLater(rows, keep, c); }
      }
    } else {
      RawAtEnd(rows, keep, raw);
    }
  }

  lemma NotLater(rows: seq<Row>, keep: nat, cut: nat)
    ensures cut >= |rows| ==> !Leaves(rows, keep, cut)
  {
    hide Closed, TotalChars;
  }

  lemma LeastUnique(rows: seq<Row>, keep: nat, a: nat, b: nat)
    requires LeastLeaving(rows, keep, a) && LeastLeaving(rows, keep, b)
    ensures a == b
  {
    hide Leaves;
    LeavesInside(rows, keep, a);
    LeavesInside(rows, keep, b);
  }

  lemma LeavesInside(rows: seq<Row>, keep: nat, cut: nat)
    requires Leaves(rows, keep, cut)
    ensures 0 < cut < |rows|
  {
  }

  lemma RawSplitBound(rows: seq<Row>, keep: nat, raw: nat)
    requires RawSplit(rows, keep, raw)
    ensures raw <= |rows|
  {
  }

  lemma EndsClosed(rows: seq<Row>, cut: nat)
    requires cut == 0 || cut == |rows|
    ensures Closed(rows, 0, cut)
  {
  }

  /** A performed split keeps a run-closed, non-empty remainder within the allowance. */
  lemma SplitKeepsWithinAllowance(rows: seq<Row>, window: nat, summary: nat, current: RunId, cut: nat)
    requires Trimmed(rows, window, summary, current, SplitAt(cut)) && cut > 0
    ensures cut < |rows| && Closed(rows, 0, cut) && !Holds(rows, 0, cut, current)
    ensures 5 * (summary + TotalChars(rows)) > 14 * window
    ensures var keep := if 9 * window / 5 - summary < 512 then 512 else 9 * window / 5 - summary;
            && TotalChars(rows[cut..]) <= keep
            && forall c: nat :: c < cut && Closed(rows, 0, c) ==> TotalChars(rows[c..]) > keep
  {
    hide Leaves, Holds, TotalChars;
    var keep: nat := if 9 * window / 5 - summary < 512 then 512 else 9 * window / 5 - summary;
    assert CutAt(rows, keep, cut, current, SplitAt(cut));
    LeastIs(rows, keep, cut);
  }

  lemma LeastIs(rows: seq<Row>, keep: nat, cut: nat)
    requires LeastLeaving(rows, keep, cut) && TotalChars(rows) > keep
    ensures 0 < cut < |rows| && Closed(rows, 0, cut) && TotalChars(rows[cut..]) <= keep
    ensures forall c: nat :: c < cut && Closed(rows, 0, c) ==> TotalChars(rows[c..]) > keep
  {
    hide Closed, TotalChars;
    assert rows[0..] == rows;
    forall c: nat | c < cut && Closed(rows, 0, c) ensures TotalChars(rows[c..]) > keep {
      assert c > 0 ==> !Leaves(rows, keep, c);
    }
  }

  /** An oversized window that could be split is split, or refused because of the
      current run, if and only if the rows alone exceed what is to be left. */
  lemma SplitIff(rows: seq<Row>, window: nat, summary: nat, current: RunId, r: Split, keep: nat, inside: nat)
    requires Trimmed(rows, window, summary, current, r)
    requires window >= 1024 && 5 * (summary + TotalChars(rows)) > 14 * window
    requires keep == (if 9 * window / 5 - summary < 512 then 512 else 9 * window / 5 - summary) && Leaves(rows, keep, inside)
    ensures r != SplitAt(0) <==> TotalChars(rows) > keep
    ensures 5 * summary <= 4 * window ==> r != SplitAt(0)
  {
    hide Leaves, Holds, TotalChars;
    if TotalChars(rows) > keep {
      var cut: nat :| CutAt(rows, keep, cut, current, r);
      LeavesInside(rows, keep, cut);
    }
  }

  /** A long summary kept from a larger window, over a few short rows: the window is
      exceeded and a cut is there, and yet everything is sent. */
  lemma LongSummaryStays(a: Row, b: Row, current: RunId, r: Split)
    requires a.runId != b.runId && a.text == b.text == 100 && a.private == b.private == a.attached == b.attached == 0
    requires Trimmed([a, b], 1024, 8000, current, r)
    ensures Leaves([a, b], 512, 1) && 5 * (8000 + TotalChars([a, b])) > 14 * 1024 && r == SplitAt(0)
  {
    OneRow(b);
    TwoRows(a, b);
    assert SameRun([a, b], 0, 1) == false;
    assert [a, b][1..] == [b];
    hide TotalChars;
  }

  lemma OneRow(b: Row)
    ensures TotalChars([b]) == b.text + b.private + b.attached
  {
    assert [b][1..] == [];
  }

  lemma TwoRows(a: Row, b: Row)
    ensures TotalChars([a, b]) == a.text + a.private + a.attached + TotalChars([b])
  {
    assert [a, b][1..] == [b];
  }

  // ---- The whole snapshot ----

  lemma ReadsRest(rows: seq<Row>, cursor: Option<nat>)
    requires |rows| - Position(rows, cursor) <= WINDOW_ROWS
    ensures ReadAfter(rows, cursor, WINDOW_ROWS) == rows[Position(rows, cursor)..]
  {
    hide Position;
  }

  lemma FitsShift(rows: seq<Row>, c: nat, cut: nat)
    requires c + cut <= |rows|
    ensures Fits(rows[c..], cut) <==> Fits(rows, c + cut)
    ensures Fits(rows, c) <==> Fits(rows[c..], 0)
  {
    assert rows[c..][cut..] == rows[c + cut..];
    assert rows[c..][0..] == rows[c..];
    forall i | c <= i < |rows| ensures rows[i] == rows[c..][i - c] {}
  }

  /** Folding `cut` more rows of the window that starts at c keeps whole runs. */
  lemma CutKeeps(rows: seq<Row>, c0: nat, c: nat, cut: nat)
    requires Closed(rows, c0, c) && cut <= |rows| - c && Closed(rows[c..], 0, cut) && Fits(rows[c..], cut)
    ensures Closed(rows, c0, c + cut) && Fits(rows, c + cut)
  {
    ClosedShift(rows, c, cut);
    FitsShift(rows, c, cut);
    ClosedTransitive(rows, c0, c, c + cut);
  }

  lemma PlanCut(items: seq<Row>, current: RunId, cut: nat)
    requires Planned(items, current, Keep(cut))
    ensures cut <= |items| && Closed(items, 0, cut) && Fits(items, cut) && (cut > 0 ==> cut < |items|)
  {
    hide Fits, Holds;
  }

  lemma TrimCut(items: seq<Row>, window: nat, summary: nat, current: RunId, cut: nat)
    requires Trimmed(items, window, summary, current, SplitAt(cut)) && Fits(items, 0)
    ensures cut <= |items| && Closed(items, 0, cut) && Fits(items, cut) && (cut > 0 ==> cut < |items|)
  {
    EndsClosed(items, 0);
    if cut > 0 {
      SplitKeepsWithinAllowance(items, window, summary, current, cut);
      FitsLater(items, 0, cut);
    }
  }

  lemma ReadIs(rows: seq<Row>, cursor: Option<nat>, n: nat)
    requires Position(rows, cursor) + n <= |rows|
    ensures var c := Position(rows, cursor);
            ReadAfter(rows, cursor, n) == rows[c..c + n] && |ReadAfter(rows, cursor, n)| == n
  {
    hide Position;
  }

  /** Reads the next rows into the summary and moves the cursor to the last. */
  method Advance(rows: seq<Row>, cursor: Option<nat>, rowCount: nat, folded: seq<Row>, ghost c0: nat)
    returns (cursor': Option<nat>, folded': seq<Row>)
    requires Table(rows) && Position(rows, cursor) + rowCount <= |rows|
             && Taken(rows, c0, Position(rows, cursor), folded)
    ensures Position(rows, cursor') == Position(rows, cursor) + rowCount
    ensures Taken(rows, c0, Position(rows, cursor'), folded')
  {
    hide Table, Taken, Position, ReadAfter;
    cursor', folded' := cursor, folded;
    if rowCount > 0 {
      ghost var c := Position(rows, cursor);
      var batch := ReadAfter(rows, cursor, rowCount);
      ReadIs(rows, cursor, rowCount);
      LastRow(rows, c, c + rowCount);
      PositionOf(rows, c + rowCount - 1);
      TakenMore(rows, c0, c, folded, batch);
      cursor', folded' := Some(batch[|batch| - 1].id), folded + batch;
    }
  }

  /** The rows from c0 up to the cursor are folded and no run is split. */
  ghost predicate FoldedTo(rows: seq<Row>, c0: nat, cursor: Option<nat>, folded: seq<Row>) {
    && Taken(rows, c0, Position(rows, cursor), folded)
    && Closed(rows, c0, Position(rows, cursor))
    && |rows| - Position(rows, cursor) <= WINDOW_ROWS
  }

  datatype Phase = Phase(cursor: Option<nat>, folded: seq<Row>) | Stopped

  /** The byte-budget phase performs exactly the plan of the remaining rows. */
  method Compact(rows: seq<Row>, cursor: Option<nat>, folded: seq<Row>, current: RunId, ghost c0: nat)
    returns (r: Phase)
    requires Table(rows) && FoldedTo(rows, c0, cursor, folded)
    ensures r.Phase? ==> FoldedTo(rows, c0, r.cursor, r.folded) && Fits(rows, Position(rows, r.cursor))
    ensures r.Phase? ==> Position(rows, cursor) <= Position(rows, r.cursor)
    ensures Planned(rows[Position(rows, cursor)..], current,
                    if r.Phase? then Keep(Position(rows, r.cursor) - Position(rows, cursor)) else TooLarge)
  {
    ghost var c := Position(rows, cursor);
    hide Table, Closed, Fits, Taken, Planned, Position, ReadAfter;
    ReadsRest(rows, cursor);
    var items := ReadAfter(rows, cursor, WINDOW_ROWS);
    var plan := PlanBudget(items, current);
    if plan.TooLarge? {
      return Stopped;
    }
    PlanCut(items, current, plan.cut);
    CutKeeps(rows, c0, c, plan.cut);
    var cursor', folded' := Advance(rows, cursor, plan.cut, folded, c0);
    return Phase(cursor', folded');
  }

  /** The character-window phase performs exactly the specified split of them. */
  method Trim(rows: seq<Row>, cursor: Option<nat>, folded: seq<Row>, current: RunId, window: nat, summary: nat,
              ghost c0: nat)
    returns (r: Phase)
    requires Table(rows) && FoldedTo(rows, c0, cursor, folded) && Fits(rows, Position(rows, cursor))
    ensures r.Phase? ==> FoldedTo(rows, c0, r.cursor, r.folded) && Fits(rows, Position(rows, r.cursor))
    ensures r.Phase? ==> Position(rows, cursor) <= Position(rows, r.cursor)
    ensures Trimmed(rows[Position(rows, cursor)..], window, summary, current,
                    if r.Phase? then SplitAt(Position(rows, r.cursor) - Position(rows, cursor)) else HoldsCurrent)
  {
    ghost var c := Position(rows, cursor);
    hide Table, Closed, Fits, Taken, Trimmed, Position, ReadAfter;
    ReadsRest(rows, cursor);
    var messages := ReadAfter(rows, cursor, WINDOW_ROWS);
    FitsShift(rows, c, 0);
    var split := TrimWindow(messages, window, summary, current);
    if split.HoldsCurrent? {
      return Stopped;
    }
    TrimCut(messages, window, summary, current, split.cut);
    CutKeeps(rows, c0, c, split.cut);
    var cursor', folded' := Advance(rows, cursor, split.cut, folded, c0);
    return Phase(cursor', folded');
  }

  datatype Snapshot = Snapshot(folded: seq<Row>, messages: seq<Row>, cursor: Option<nat>) | Refused

  type SummaryLength = seq<Row> -> nat

  /** What the two later phases do to the rows from c1 on. */
  ghost predicate Phases(rows: seq<Row>, c0: nat, c1: nat, current: RunId, window: nat, summaryLength: SummaryLength,
                         plan: Plan, split: Split, r: Snapshot)
    requires c0 <= c1 <= |rows|
  {
    && Planned(rows[c1..], current, plan)
    && (plan.TooLarge? ==> r.Refused?)
    && (plan.Keep? && c1 + plan.cut <= |rows| ==>
          var c2 := c1 + plan.cut;
          && Trimmed(rows[c2..], window, summaryLength(rows[c0..c2]), current, split)
          && (split.HoldsCurrent? ==> r.Refused?)
          && (split.SplitAt? && c2 + split.cut <= |rows| ==>
                r.Snapshot? && r.folded == rows[c0..c2 + split.cut] && r.messages == rows[c2 + split.cut..]))
  }

  /** The result for the rows after position c0: the least cut that leaves at most
      200 rows, then the budget plan of the rest, then the window split of the rest.
      It is refused exactly when the first cut holds the current run, the plan does
      not exist, or the window split holds the current run. */
  ghost predicate Snapshotted(rows: seq<Row>, c0: nat, current: RunId, window: nat, summaryLength: SummaryLength,
                              r: Snapshot)
    requires c0 <= |rows|
  {
    if Holds(rows, c0, Target(rows, c0), current) then r.Refused?
    else exists plan, split :: Phases(rows, c0, Target(rows, c0), current, window, summaryLength, plan, split, r)
  }

  /** contextSnapshot without attachments: old rows are folded in order, the
      others are sent, no row is lost or sent twice, and no run is split. */
  method TakeSnapshot(rows: seq<Row>, cursor0: Option<nat>, current: RunId, window: nat, summaryLength: SummaryLength)
    returns (r: Snapshot)
    requires Table(rows)
    ensures Snapshotted(rows, Position(rows, cursor0), current, window, summaryLength, r)
    ensures r.Snapshot? ==>
              var c0 := Position(rows, cursor0);
              var cut := c0 + |r.folded|;
              && cut <= |rows| && r.folded == rows[c0..cut] && r.messages == rows[cut..]
              && Position(rows, r.cursor) == cut
              && Closed(rows, c0, cut)
              && |r.messages| <= WINDOW_ROWS && Fits(rows, cut)
  {
    ghost var c0 := Position(rows, cursor0);
    hide Table, Closed, Fits, Position, ReadAfter, Holds, Phases;
    var first := FoldOldRows(rows, cursor0, current);
    if first.CurrentRunMet? {
      return Refused;
    }
    ghost var c1: nat := Target(rows, c0);
    assert FoldedTo(rows, c0, first.cursor, first.rows);
    hide Target, FoldedTo;
    r := FoldNewer(rows, first.cursor, first.rows, current, window, summaryLength, c0, c1);
  }

  /** The two later phases, for the rows from c1 on. */
  method FoldNewer(rows: seq<Row>, cursor: Option<nat>, folded: seq<Row>, current: RunId, window: nat,
                   summaryLength: SummaryLength, ghost c0: nat, ghost c1: nat)
    returns (r: Snapshot)
    requires Table(rows) && FoldedTo(rows, c0, cursor, folded) && c0 <= c1 == Position(rows, cursor) <= |rows|
    ensures exists plan, split :: Phases(rows, c0, c1, current, window, summaryLength, plan, split, r)
    ensures r.Snapshot? ==>
              var cut := c0 + |r.folded|;
              && cut <= |rows| && r.folded == rows[c0..cut] && r.messages == rows[cut..]
              && Position(rows, r.cursor) == cut
              && Closed(rows, c0, cut)
              && |r.messages| <= WINDOW_ROWS && Fits(rows, cut)
  {
    hide Table, Closed, Fits, Position, ReadAfter, Holds, Phases, Planned, Trimmed, FoldedTo;
    var second := Compact(rows, cursor, folded, current, c0);
    if second.Stopped? {
      PlanRefuses(rows, c0, c1, current, window, summaryLength);
      return Refused;
    }
    ghost var c2: nat := Position(rows, second.cursor);
    SnapshotIs(rows, c0, second.cursor, second.folded);
    var third := Trim(rows, second.cursor, second.folded, current, window, summaryLength(second.folded), c0);
    if third.Stopped? {
      TrimRefuses(rows, c0, c1, c2, current, window, summaryLength);
      return Refused;
    }
    SnapshotIs(rows, c0, third.cursor, third.folded);
    r := Snapshot(third.folded, ReadAfter(rows, third.cursor, WINDOW_ROWS), third.cursor);
    SnapshotTaken(rows, c0, c1, c2, Position(rows, third.cursor), current, window, summaryLength, r);
  }

  lemma PlanRefuses(rows: seq<Row>, c0: nat, c1: nat, current: RunId, window: nat, summaryLength: SummaryLength)
    requires c0 <= c1 <= |rows| && Planned(rows[c1..], current, TooLarge)
    ensures exists plan, split :: Phases(rows, c0, c1, current, window, summaryLength, plan, split, Refused)
  {
    hide Planned, Trimmed;
    assert Phases(rows, c0, c1, current, window, summaryLength, TooLarge, HoldsCurrent, Refused);
  }

  lemma TrimRefuses(rows: seq<Row>, c0: nat, c1: nat, c2: nat, current: RunId, window: nat,
                    summaryLength: SummaryLength)
    requires c0 <= c1 <= c2 <= |rows| && Planned(rows[c1..], current, Keep(c2 - c1))
    requires Trimmed(rows[c2..], window, summaryLength(rows[c0..c2]), current, HoldsCurrent)
    ensures exists plan, split :: Phases(rows, c0, c1, current, window, summaryLength, plan, split, Refused)
  {
    hide Planned, Trimmed;
    assert Phases(rows, c0, c1, current, window, summaryLength, Keep(c2 - c1), HoldsCurrent, Refused);
  }

  lemma SnapshotTaken(rows: seq<Row>, c0: nat, c1: nat, c2: nat, c3: nat, current: RunId, window: nat,
                      summaryLength: SummaryLength, r: Snapshot)
    requires c0 <= c1 <= c2 <= c3 <= |rows| && Planned(rows[c1..], current, Keep(c2 - c1))
    requires Trimmed(rows[c2..], window, summaryLength(rows[c0..c2]), current, SplitAt(c3 - c2))
    requires r.Snapshot? && r.folded == rows[c0..c3] && r.messages == rows[c3..]
    ensures exists plan, split :: Phases(rows, c0, c1, current, window, summaryLength, plan, split, r)
  {
    hide Planned, Trimmed;
    assert Phases(rows, c0, c1, current, window, summaryLength, Keep(c2 - c1), SplitAt(c3 - c2), r);
  }

  lemma SnapshotIs(rows: seq<Row>, c0: nat, cursor: Option<nat>, folded: seq<Row>)
    requires FoldedTo(rows, c0, cursor, folded)
    ensures var cut := c0 + |folded|;
            && cut <= |rows| && folded == rows[c0..cut] && ReadAfter(rows, cursor, WINDOW_ROWS) == rows[cut..]
            && Position(rows, cursor) == cut && Closed(rows, c0, cut) && |rows[cut..]| <= WINDOW_ROWS
  {
    ReadsRest(rows, cursor);
    hide Position, Closed, ReadAfter;
  }

  // ---- What the snapshot is, and what becomes of the current run ----

  lemma TrimUnique(rows: seq<Row>, window: nat, summary: nat, current: RunId, p: Split, q: Split)
    requires Trimmed(rows, window, summary, current, p) && Trimmed(rows, window, summary, current, q)
    ensures p == q
  {
    hide Leaves, Holds, TotalChars;
    var keep: nat := if 9 * window / 5 - summary < 512 then 512 else 9 * window / 5 - summary;
    if window >= 1024 && 5 * (summary + TotalChars(rows)) > 14 * window && TotalChars(rows) > keep {
      if p != SplitAt(0) { CutUnique(rows, keep, current, p, q); }
      if q != SplitAt(0) { CutUnique(rows, keep, current, q, p); }
    }
  }

  lemma CutUnique(rows: seq<Row>, keep: nat, current: RunId, p: Split, q: Split)
    requires LeftWithin(rows, keep, current, p) && LeftWithin(rows, keep, current, q) && p != SplitAt(0)
    ensures p == q
  {
    hide Leaves, Holds;
    var a: nat :| CutAt(rows, keep, a, current, p);
    assert Leaves(rows, keep, a);
    var b: nat :| CutAt(rows, keep, b, current, q);
    LeastUnique(rows, keep, a, b);
  }

  /** The rows, the window and the current run determine the snapshot. */
  lemma SnapshotUnique(rows: seq<Row>, c0: nat, current: RunId, window: nat, summaryLength: SummaryLength, r: Snapshot,
                       q: Snapshot)
    requires c0 <= |rows|
    requires Snapshotted(rows, c0, current, window, summaryLength, r)
             && Snapshotted(rows, c0, current, window, summaryLength, q)
    ensures r.Refused? <==> q.Refused?
    ensures r.Snapshot? ==> r.folded == q.folded && r.messages == q.messages
  {
    hide Holds, Target, Planned, Trimmed;
    var c1: nat := Target(rows, c0);
    if !Holds(rows, c0, c1, current) {
      var plan, split :| Phases(rows, c0, c1, current, window, summaryLength, plan, split, r);
      var plan', split' :| Phases(rows, c0, c1, current, window, summaryLength, plan', split', q);
      PlanUnique(rows[c1..], current, plan, plan');
      if plan.Keep? {
        PlanCut(rows[c1..], current, plan.cut);
        var c2 := c1 + plan.cut;
        TrimUnique(rows[c2..], window, summaryLength(rows[c0..c2]), current, split, split');
        if split.SplitAt? { TrimBound(rows[c2..], window, summaryLength(rows[c0..c2]), current, split.cut); }
      }
    }
  }

  lemma TrimBound(rows: seq<Row>, window: nat, summary: nat, current: RunId, cut: nat)
    requires Trimmed(rows, window, summary, current, SplitAt(cut))
    ensures cut <= |rows| && !Holds(rows, 0, cut, current) && Closed(rows, 0, cut)
  {
    EndsClosed(rows, 0);
    if cut > 0 { SplitKeepsWithinAllowance(rows, window, summary, current, cut); }
    hide Trimmed, Closed;
  }

  lemma HoldsShift(rows: seq<Row>, c: nat, cut: nat, run: RunId)
    requires c + cut <= |rows|
    ensures Holds(rows[c..], 0, cut, run) <==> Holds(rows, c, c + cut, run)
  {
    if Holds(rows, c, c + cut, run) {
      var i :| c <= i < c + cut && rows[i].runId == run;
      assert rows[c..][i - c].runId == run;
    }
  }

  /** Rows before a closed cut without the run do not matter to where it ends. */
  lemma AfterRunShift(rows: seq<Row>, c0: nat, c: nat, run: RunId)
    requires Closed(rows, c0, c) && Holds(rows, c, |rows|, run)
    ensures c + AfterRun(rows[c..], 0, run) == AfterRun(rows, c0, run)
  {
    var rest := rows[c..];
    var last, k := LastOf(rows, c0, |rows|, run), LastOf(rest, 0, |rest|, run);
    assert last >= c;
    assert rest[last - c].runId == run;
    assert k >= 0 && rows[c + k].runId == run;
    assert c + k == last;
    var e, f := AfterRun(rows, c0, run), AfterRun(rest, 0, run);
    hide AfterRun, LastOf;
    ClosedShift(rows, c, f);
    ClosedTransitive(rows, c0, c, c + f);
    ClosedLater(rows, c0, c, e);
    ClosedShift(rows, c, e - c);
    AfterRunLeast(rows, c0, run, c + f);
    AfterRunLeast(rest, 0, run, e - c);
  }

  lemma ClosedLater(rows: seq<Row>, a: nat, b: nat, c: nat)
    requires Closed(rows, a, c) && a <= b <= c
    ensures Closed(rows, b, c)
  {
  }

  lemma AfterRunLeast(rows: seq<Row>, from: nat, run: RunId, c: nat)
    requires from <= c <= |rows| && Closed(rows, from, c) && LastOf(rows, from, |rows|, run) < c
    ensures LastOf(rows, from, |rows|, run) < AfterRun(rows, from, run) <= c
  {
    hide Closed;
  }

  /** A snapshot folds rows of the current run if and only if the rows after that run
      cannot be sent whole. */
  lemma CurrentFoldedIff(rows: seq<Row>, c0: nat, current: RunId, window: nat, summaryLength: SummaryLength,
                         r: Snapshot)
    requires c0 <= |rows| && r.Snapshot? && Snapshotted(rows, c0, current, window, summaryLength, r)
    ensures c0 + |r.folded| <= |rows|
    ensures Holds(rows, c0, c0 + |r.folded|, current)
            <==> Holds(rows, c0, |rows|, current) && !Fits(rows, AfterRun(rows, c0, current))
  {
    hide Planned, Trimmed, Fits, Closed, AfterRun;
    var c1: nat := Target(rows, c0);
    hide Target, Holds;
    var plan, split :| Phases(rows, c0, c1, current, window, summaryLength, plan, split, r);
    PlanCut(rows[c1..], current, plan.cut);
    var c2 := c1 + plan.cut;
    TrimBound(rows[c2..], window, summaryLength(rows[c0..c2]), current, split.cut);
    var c3 := c2 + split.cut;
    hide Phases;
    HoldsShift(rows, c1, plan.cut, current);
    HoldsShift(rows, c2, split.cut, current);
    HoldsShift(rows, c1, |rows| - c1, current);
    DroppedIff(rows[c1..], current, plan.cut);
    HoldsParts(rows, c0, c1, c2, c3, current);
    HoldsParts(rows, c0, c1, c2, |rows|, current);
    HoldsParts(rows, c1, c2, c3, |rows|, current);
    if Holds(rows, c1, |rows|, current) {
      AfterRunShift(rows, c0, c1, current);
      FitsShift(rows, c1, AfterRun(rows[c1..], 0, current));
    }
  }

  lemma HoldsParts(rows: seq<Row>, a: nat, b: nat, c: nat, d: nat, run: RunId)
    requires a <= b <= c <= d <= |rows|
    ensures Holds(rows, a, d, run) <==> Holds(rows, a, b, run) || Holds(rows, b, c, run) || Holds(rows, c, d, run)
    ensures Holds(rows, b, d, run) <==> Holds(rows, b, c, run) || Holds(rows, c, d, run)
  {
  }

  /** A run that owns the newest row of its session is never folded, not even in part. */
  lemma NewestRunNeverFolded(rows: seq<Row>, c0: nat, current: RunId, window: nat, summaryLength: SummaryLength,
                             r: Snapshot)
    requires c0 <= |rows| && r.Snapshot? && Snapshotted(rows, c0, current, window, summaryLength, r)
    requires rows != [] && rows[|rows| - 1].runId == current
    ensures c0 + |r.folded| <= |rows| && !Holds(rows, c0, c0 + |r.folded|, current)
  {
    hide Snapshotted, Closed;
    CurrentFoldedIff(rows, c0, current, window, summaryLength, r);
    if c0 < |rows| {
      assert LastOf(rows, c0, |rows|, current) == |rows| - 1;
      assert AfterRun(rows, c0, current) == |rows|;
      assert rows[|rows|..] == [];
    }
  }
}
