/** How the rows of a session come about while its runs are created, retried, cancelled
    and executed (internal/ai/service.go, store.go and runtime.go), and what that means
    for the run whose context is being taken. */
module SessionHistory {
  import opened Prelude
  import opened ContextBudget
  import opened ContextSnapshot
  import Own = RunOwnership

  const MAX_USER_BYTES := 16384
  const MAX_ASSISTANT_BYTES := 1048576
  const MAX_TOOL_BYTES := 65536 + 1024

  type SendId = nat

  /** A call of Send that has looked for an active run: it joins that run, is about to
      create one, or has created one. Its message is stored in a later transaction. */
  datatype Send = Joining(run: RunId) | Creating | Created(run: RunId)

  /** The runtime; when each run was created; the runs whose Run worker may start; the
      calls of Send; when each unfinished draft began; the messages; the time of the next
      one; and the ids of the messages stored for a run that was not active then. */
  datatype Session = Session(runtime: Own.State, born: map<RunId, nat>, ready: set<RunId>, sends: map<SendId, Send>,
                             drafts: map<Own.ThreadId, nat>, rows: seq<Row>, clock: nat, late: set<nat>)

  datatype Event =
    | Look(k: SendId, found: Option<RunId>)
    | Create(k: SendId, run: RunId)
    | StoreMessage(k: SendId, text: nat, attached: nat)
    | Abandon(k: SendId, marked: bool)
    | Retry(previous: RunId, run: RunId)
    | Draft(t: Own.ThreadId)
    | Answer(t: Own.ThreadId, text: nat)
    | ToolResult(t: Own.ThreadId, text: nat, private: nat)
    | Restart
    | Step(step: Own.Step)

  predicate ActiveStatus(status: Own.Status) { status.Queued? || status.Running? || status.PendingApproval? }

  predicate Active(s: Session, run: RunId) { run in s.born && ActiveStatus(Own.StatusOf(s.runtime, run)) }

  /** No run of the session but this one is active: what the unique index on active runs
      asks of a write that makes the run active. */
  ghost predicate OthersIdle(s: Session, run: RunId) { forall r :: r != run ==> !Active(s, r) }

  ghost predicate NoneActive(s: Session) { forall r :: !Active(s, r) }

  ghost predicate New(s: Session, run: RunId) { run != "" && run !in s.born && NoneActive(s) }

  predicate InLoop(s: Session, t: Own.ThreadId) { t in s.runtime.threads && s.runtime.threads[t].pc == Own.Working }

  /** A worker that may run a tool: in its loop, or carrying out a decision before it. */
  predicate Executes(s: Session, t: Own.ThreadId) { t in s.runtime.threads && Own.InRun(s.runtime.threads[t]) }

  predicate Begins(s: Session, step: Own.Step) {
    step.Do? && step.act == Own.Begin(true) && step.t in s.runtime.threads && s.runtime.threads[step.t].pc == Own.Starting
  }

  /** A retry creates a run without a message. A Run worker is started once its run has
      its message or is a retry; the index refuses a second active run. */
  ghost predicate Enabled(s: Session, e: Event) {
    match e
    case Look(k, found) => k !in s.sends && (if found.Some? then Active(s, found.value) else NoneActive(s))
    case Create(k, run) => k in s.sends && s.sends[k].Creating? && New(s, run)
    case StoreMessage(k, text, attached) => k in s.sends && !s.sends[k].Creating? && text <= MAX_USER_BYTES
    case Abandon(k, marked) => k in s.sends
    case Retry(previous, run) =>
      && previous in s.born && New(s, run)
      && (Own.StatusOf(s.runtime, previous).Failed? || Own.StatusOf(s.runtime, previous).Interrupted?)
    case Draft(t) => InLoop(s, t)
    case Answer(t, text) => InLoop(s, t) && t in s.drafts && text <= MAX_ASSISTANT_BYTES
    case ToolResult(t, text, private) => Executes(s, t) && text <= MAX_TOOL_BYTES && private <= MAX_TOOL_READ_STATE
    case Restart => true
    case Step(step) =>
      && (step.Start? ==> if step.resume then step.run in s.born else step.run in s.ready)
      && (step.Cancel? ==> step.run in s.born)
      && (Begins(s, step) ==> OthersIdle(s, s.runtime.threads[step.t].run))
  }

  /** The rows are read by their time, then by id. */
  function Insert(rows: seq<Row>, row: Row): seq<Row>
    decreases |rows|
  {
    if rows == [] then [row]
    else
      var last := rows[|rows| - 1];
      if ContextBudget.After(last, row) then Insert(rows[..|rows| - 1], row) + [last] else rows + [row]
  }

  function Store(s: Session, run: RunId, at: nat, text: nat, private: nat, attached: nat): Session {
    s.(rows := Insert(s.rows, Row(s.clock, at, run, text, private, attached)), clock := s.clock + 1,
       late := if Active(s, run) then s.late else s.late + {s.clock})
  }

  function NewRun(s: Session, run: RunId): Session {
    s.(runtime := s.runtime.(status := s.runtime.status[run := Own.Queued]), born := s.born[run := s.clock])
  }

  /** The panel restarts: queued and running runs are interrupted. */
  function Restarted(r: Own.State): Own.State {
    Own.State(map[], map[], map run | run in r.status :: if r.status[run].Queued? || r.status[run].Running? then Own.Interrupted else r.status[run], false, false)
  }

  function Apply(s: Session, e: Event): Session {
    match e
    case Look(k, found) => s.(sends := s.sends[k := if found.Some? then Joining(found.value) else Creating])
    case Create(k, run) => NewRun(s, run).(sends := s.sends[k := Created(run)])
    case StoreMessage(k, text, attached) =>
      if k !in s.sends || s.sends[k].Creating? then s
      else
        var run := s.sends[k].run;
        Store(s, run, s.clock, text, 0, attached)
          .(sends := s.sends - {k}, ready := if s.sends[k].Created? then s.ready + {run} else s.ready)
    case Abandon(k, marked) =>
      if k !in s.sends || !s.sends[k].Created? || !marked then s.(sends := s.sends - {k})
      else s.(sends := s.sends - {k}, runtime := s.runtime.(status := s.runtime.status[s.sends[k].run := Own.Failed]))
    case Retry(previous, run) => NewRun(s, run).(ready := s.ready + {run})
    case Draft(t) => s.(drafts := s.drafts[t := s.clock], clock := s.clock + 1)
    case Answer(t, text) =>
      if t !in s.drafts || t !in s.runtime.threads then s
      else Store(s, s.runtime.threads[t].run, s.drafts[t], text, 0, 0).(drafts := s.drafts - {t})
    case ToolResult(t, text, private) =>
      if t !in s.runtime.threads then s else Store(s, s.runtime.threads[t].run, s.clock, text, private, 0)
    case Restart => s.(runtime := Restarted(s.runtime), ready := {}, sends := map[], drafts := map[])
    case Step(step) =>
      s.(runtime := Own.Next(s.runtime, step), ready := if step.Start? && !step.resume then s.ready - {step.run} else s.ready)
  }

  function Play(s: Session, events: seq<Event>): Session
    decreases |events|
  {
    if events == [] then s else Play(Apply(s, events[0]), events[1..])
  }

  ghost predicate Admissible(s: Session, events: seq<Event>)
    decreases |events|
  {
    events == [] || (Enabled(s, events[0]) && Admissible(Apply(s, events[0]), events[1..]))
  }

  /** A worker enters its loop although the run is over. */
  predicate Overruns(s: Session, e: Event) {
    e.Step? && Begins(s, e.step) && !ActiveStatus(Own.StatusOf(s.runtime, s.runtime.threads[e.step.t].run))
  }

  ghost predicate NeverOverruns(s: Session, events: seq<Event>)
    decreases |events|
  {
    events == [] || (!Overruns(s, events[0]) && NeverOverruns(Apply(s, events[0]), events[1..]))
  }

  /** The run of the message that an event stores. */
  function RunOf(s: Session, e: Event): Option<RunId> {
    match e
    case StoreMessage(k, _, _) => if k in s.sends && !s.sends[k].Creating? then Some(s.sends[k].run) else None
    case Answer(t, _) => if t in s.runtime.threads && t in s.drafts then Some(s.runtime.threads[t].run) else None
    case ToolResult(t, _, _) => if t in s.runtime.threads then Some(s.runtime.threads[t].run) else None
    case _ => None
  }

  /** A message is stored for a run that is not active. */
  predicate Late(s: Session, e: Event) { RunOf(s, e).Some? && !Active(s, RunOf(s, e).value) }

  ghost predicate NeverLate(s: Session, events: seq<Event>)
    decreases |events|
  {
    events == [] || (!Late(s, events[0]) && NeverLate(Apply(s, events[0]), events[1..]))
  }

  const Empty: Session := Session(Own.Fresh, map[], {}, map[], map[], [], 0, {})

  // ---- The rows ----

  ghost predicate Sorted(rows: seq<Row>) { forall i, j :: 0 <= i < j < |rows| ==> ContextBudget.After(rows[j], rows[i]) }

  ghost predicate UniqueIds(rows: seq<Row>) { forall x, y :: x in rows && y in rows && x.id == y.id ==> x == y }

  /** A row was stored after its run was created and before now. */
  predicate Dated(row: Row, born: map<RunId, nat>, clock: nat) {
    row.id < clock && row.createdAt <= row.id && row.runId in born && born[row.runId] <= row.createdAt
  }

  ghost predicate RowsOk(rows: seq<Row>, born: map<RunId, nat>, clock: nat) {
    Sorted(rows) && UniqueIds(rows) && forall row :: row in rows ==> Dated(row, born, clock)
  }

  lemma SortedTable(rows: seq<Row>)
    requires Sorted(rows) && UniqueIds(rows)
    ensures Table(rows)
  {
    forall i, j | 0 <= i < j < |rows| ensures rows[i].id != rows[j].id {
      assert rows[i] in rows && rows[j] in rows && ContextBudget.After(rows[j], rows[i]);
    }
  }

  lemma {:induction false} InsertHas(rows: seq<Row>, row: Row)
    ensures forall x :: x in Insert(rows, row) <==> x in rows || x == row
    decreases |rows|
  {
    if rows != [] {
      var front, last := rows[..|rows| - 1], rows[|rows| - 1];
      assert rows == front + [last];
      InsertHas(front, row);
    }
  }

  lemma SortedFront(rows: seq<Row>)
    requires Sorted(rows) && rows != []
    ensures var front, last := rows[..|rows| - 1], rows[|rows| - 1];
            Sorted(front) && forall x :: x in front ==> x in rows && ContextBudget.After(last, x)
  {
    var front, last := rows[..|rows| - 1], rows[|rows| - 1];
    forall x | x in front ensures x in rows && ContextBudget.After(last, x) {
      var k :| 0 <= k < |front| && front[k] == x;
      assert rows[k] == x && ContextBudget.After(rows[|rows| - 1], rows[k]);
    }
  }

  lemma SortedSnoc(rows: seq<Row>, row: Row)
    requires Sorted(rows) && forall x :: x in rows ==> ContextBudget.After(row, x)
    ensures Sorted(rows + [row])
  {
  }

  lemma {:induction false} InsertSorted(rows: seq<Row>, row: Row)
    requires Sorted(rows) && forall x :: x in rows ==> x.id != row.id
    ensures Sorted(Insert(rows, row))
    decreases |rows|
  {
    if rows != [] {
      var front, last := rows[..|rows| - 1], rows[|rows| - 1];
      assert rows == front + [last] && last in rows;
      SortedFront(rows);
      if ContextBudget.After(last, row) {
        InsertSorted(front, row);
        InsertHas(front, row);
        SortedSnoc(Insert(front, row), last);
      } else {
        SortedSnoc(rows, row);
      }
    }
  }

  lemma StoreRows(s: Session, run: RunId, at: nat, text: nat, private: nat, attached: nat)
    requires RowsOk(s.rows, s.born, s.clock) && run in s.born && s.born[run] <= at <= s.clock
    ensures var s' := Store(s, run, at, text, private, attached); RowsOk(s'.rows, s'.born, s'.clock)
  {
    var row := Row(s.clock, at, run, text, private, attached);
    InsertHas(s.rows, row);
    InsertSorted(s.rows, row);
    hide Insert, Sorted;
  }

  lemma InsertLast(rows: seq<Row>, row: Row)
    requires rows != [] ==> !ContextBudget.After(rows[|rows| - 1], row)
    ensures Insert(rows, row) == rows + [row]
  {
  }

  // ---- What every event keeps ----

  ghost predicate ThreadsBorn(threads: map<Own.ThreadId, Own.Thread>, born: map<RunId, nat>) {
    forall t :: t in threads ==> threads[t].run in born
  }

  /** A thread of a run that waits for its message: a Resume that finds nothing to
      resume, or a Cancel. */
  predicate Waits(x: Own.Thread) {
    x.pc != Own.Starting && x.pc != Own.Working && (x.resume || Own.Idle(x.pc) || x.pc == Own.Gone)
  }

  ghost predicate NotStarted(r: Own.State, run: RunId) {
    !Own.StatusOf(r, run).PendingApproval? && forall t :: t in r.threads && r.threads[t].run == run ==> Waits(r.threads[t])
  }

  ghost predicate SendsOk(s: Session) {
    && s.ready <= s.born.Keys
    && (forall k :: k in s.sends && !s.sends[k].Creating? ==> s.sends[k].run in s.born)
    && (forall k :: k in s.sends && s.sends[k].Created? ==> s.sends[k].run !in s.ready && NotStarted(s.runtime, s.sends[k].run))
    && (forall k, l :: k in s.sends && l in s.sends && k != l && s.sends[k].Created? ==> s.sends[k] != s.sends[l])
  }

  ghost predicate DraftsOk(drafts: map<Own.ThreadId, nat>, threads: map<Own.ThreadId, Own.Thread>,
                           born: map<RunId, nat>, clock: nat) {
    forall t :: t in drafts ==> t in threads && threads[t].run in born && born[threads[t].run] <= drafts[t] < clock
  }

  ghost predicate BornOk(born: map<RunId, nat>, clock: nat) { forall r :: r in born ==> r != "" && born[r] <= clock }

  ghost predicate OneActive(s: Session) { forall a, b :: Active(s, a) && Active(s, b) ==> a == b }

  ghost predicate Core(s: Session) {
    && Own.Inv(s.runtime) && ThreadsBorn(s.runtime.threads, s.born) && SendsOk(s) && BornOk(s.born, s.clock)
    && RowsOk(s.rows, s.born, s.clock) && DraftsOk(s.drafts, s.runtime.threads, s.born, s.clock) && OneActive(s)
  }

  /** Every row since the active run was created is its own or was late. */
  predicate Latest(s: Session, run: RunId, row: Row) { run in s.born && row.createdAt >= s.born[run] ==> row.runId == run || row.id in s.late }

  ghost predicate AllLatest(s: Session) { forall r, row :: Active(s, r) && row in s.rows ==> Latest(s, r, row) }

  lemma StoreKeeps(s: Session, run: RunId, at: nat, text: nat, private: nat, attached: nat)
    requires Core(s) && run in s.born && s.born[run] <= at <= s.clock
    ensures Core(Store(s, run, at, text, private, attached))
  {
    StoreRows(s, run, at, text, private, attached);
    var s' := Store(s, run, at, text, private, attached);
    assert OneActive(s') by { assert forall r :: Active(s', r) <==> Active(s, r); }
    hide Insert, RowsOk, Own.Inv, NotStarted, Own.StatusOf;
  }

  lemma StoreLatest(s: Session, run: RunId, at: nat, text: nat, private: nat, attached: nat)
    requires OneActive(s) && AllLatest(s)
    ensures AllLatest(Store(s, run, at, text, private, attached))
  {
    var s' := Store(s, run, at, text, private, attached);
    var row := Row(s.clock, at, run, text, private, attached);
    InsertHas(s.rows, row);
    hide Insert;
    forall r, x | Active(s', r) && x in s'.rows ensures Latest(s', r, x) {
      assert Active(s, r);
      if x in s.rows { assert Latest(s, r, x); } else { assert x == row; }
    }
  }

  lemma NewRunKeeps(s: Session, run: RunId)
    requires Core(s) && New(s, run)
    ensures Core(NewRun(s, run)) && NotStarted(NewRun(s, run).runtime, run) && Active(NewRun(s, run), run)
    ensures AllLatest(NewRun(s, run))
  {
    NewRunRuntime(s, run);
    NewRunActive(s, run);
    NewRunRows(s, run);
    NewRunSends(s, run);
    NewRunBorn(s, run);
    hide Own.Inv, SendsOk, RowsOk, OneActive, AllLatest, NotStarted, ThreadsBorn, BornOk, DraftsOk, NewRun, New;
  }

  lemma NewRunBorn(s: Session, run: RunId)
    requires ThreadsBorn(s.runtime.threads, s.born) && BornOk(s.born, s.clock) && New(s, run)
    requires DraftsOk(s.drafts, s.runtime.threads, s.born, s.clock)
    ensures var s' := NewRun(s, run);
            ThreadsBorn(s'.runtime.threads, s'.born) && BornOk(s'.born, s'.clock) && DraftsOk(s'.drafts, s'.runtime.threads, s'.born, s'.clock)
  {
  }

  lemma NewRunRuntime(s: Session, run: RunId)
    requires Own.Inv(s.runtime) && ThreadsBorn(s.runtime.threads, s.born) && run !in s.born
    ensures Own.Inv(NewRun(s, run).runtime) && NotStarted(NewRun(s, run).runtime, run)
  {
    var r' := NewRun(s, run).runtime;
    forall t | t in r'.threads ensures Own.SettledIn(r', t) { assert Own.SettledIn(s.runtime, t) && s.runtime.threads[t].run in s.born; }
    Own.StatusApart(s.runtime, r'.status);
    assert forall t :: t in r'.threads ==> r'.threads[t].run != run;
    hide Own.SettledIn, Own.OwnersOk;
  }

  lemma NewRunActive(s: Session, run: RunId)
    requires New(s, run)
    ensures var s' := NewRun(s, run); OneActive(s') && Active(s', run) && forall r :: Active(s', r) ==> r == run
  {
    var s' := NewRun(s, run);
    forall r | Active(s', r) ensures r == run { assert r != run ==> (Active(s', r) <==> Active(s, r)); }
  }

  lemma NewRunRows(s: Session, run: RunId)
    requires RowsOk(s.rows, s.born, s.clock) && New(s, run)
    ensures var s' := NewRun(s, run); RowsOk(s'.rows, s'.born, s'.clock) && AllLatest(s')
  {
    NewRunActive(s, run);
    var s' := NewRun(s, run);
    forall row | row in s'.rows ensures Dated(row, s'.born, s'.clock) && Latest(s', run, row) { assert Dated(row, s.born, s.clock); }
    hide Sorted, UniqueIds, Active;
  }

  lemma NewRunSends(s: Session, run: RunId)
    requires SendsOk(s) && run !in s.born
    ensures SendsOk(NewRun(s, run))
  {
    var s' := NewRun(s, run);
    forall k | k in s'.sends && s'.sends[k].Created? ensures NotStarted(s'.runtime, s'.sends[k].run) {
      assert s.sends[k].run in s.born && NotStarted(s.runtime, s.sends[k].run);
    }
  }

  // ---- Steps of the runtime ----

  lemma EffectsOver(x: Own.Thread, status: Own.Status, unavailable: bool, act: Own.Act)
    requires Own.Settled(x, status, unavailable) && !ActiveStatus(status)
    ensures ActiveStatus(Own.Effects(x, status, unavailable, act).status)
            <==> act == Own.Begin(true) && x.pc == Own.Starting
  {
  }

  /** A run that is over becomes active again if and only if a worker that has read it
      stores that it is running. */
  lemma StaysOver(r: Own.State, step: Own.Step, run: RunId)
    requires Own.Inv(r) && !ActiveStatus(Own.StatusOf(r, run))
    ensures ActiveStatus(Own.StatusOf(Own.Next(r, step), run))
            <==> step.Do? && step.act == Own.Begin(true) && step.t in r.threads && r.threads[step.t].pc == Own.Starting && r.threads[step.t].run == run
  {
    Own.StatusOver(r, step, run);
    if step.DeleteProvider? { Own.DeletedStatus(r, step.runs, run); }
    if step.Do? && step.t in r.threads {
      assert Own.SettledIn(r, step.t);
      if Own.Acts(r, step, step.t) && r.threads[step.t].run == run {
        EffectsOver(r.threads[step.t], Own.StatusOf(r, run), r.unavailable, step.act);
      }
    }
    hide Own.Inv, Own.Next, Own.StatusOf, Own.Effects, Own.Deleted, ActiveStatus;
  }

  /** Only that run can become active. */
  lemma StepOneActive(s: Session, step: Own.Step)
    requires Core(s) && Enabled(s, Step(step))
    ensures OneActive(Apply(s, Step(step)))
  {
    var s' := Apply(s, Step(step));
    hide Own.Inv, SendsOk, RowsOk, ThreadsBorn, BornOk, DraftsOk, NotStarted, Own.Next, Own.StatusOf, ActiveStatus;
    forall a, b | Active(s', a) && Active(s', b) ensures a == b {
      if !Active(s, a) { StaysOver(s.runtime, step, a); }
      if !Active(s, b) { StaysOver(s.runtime, step, b); }
    }
  }

  lemma StepLatest(s: Session, step: Own.Step)
    requires Core(s) && AllLatest(s) && !Overruns(s, Step(step))
    ensures AllLatest(Apply(s, Step(step)))
  {
    var s' := Apply(s, Step(step));
    hide Own.Inv, SendsOk, RowsOk, ThreadsBorn, BornOk, DraftsOk, NotStarted, Own.Next, Own.StatusOf, ActiveStatus;
    forall r, row | Active(s', r) && row in s'.rows ensures Latest(s', r, row) {
      if !Active(s, r) { StaysOver(s.runtime, step, r); }
      assert Latest(s, r, row);
    }
  }

  lemma EffectsWait(x: Own.Thread, status: Own.Status, unavailable: bool, act: Own.Act)
    requires Waits(x) && !status.PendingApproval?
    ensures var e := Own.Effects(x, status, unavailable, act);
            Waits(x.(pc := e.pc, failed := e.failed)) && !e.status.PendingApproval?
  {
  }

  lemma StepNotStarted(r: Own.State, step: Own.Step, run: RunId)
    requires NotStarted(r, run) && (step.Start? && step.run == run ==> step.resume)
    ensures NotStarted(Own.Next(r, step), run)
  {
    var r' := Own.Next(r, step);
    Own.StatusOver(r, step, run);
    if step.DeleteProvider? { Own.DeletedStatus(r, step.runs, run); }
    if step.Do? && Own.Acts(r, step, step.t) && r.threads[step.t].run == run {
      EffectsWait(r.threads[step.t], Own.StatusOf(r, run), r.unavailable, step.act);
    }
    hide Own.Next, Own.StatusOf, Own.Effects, Own.Deleted;
    forall t | t in r'.threads && r'.threads[t].run == run ensures Waits(r'.threads[t]) {
      if t in r.threads { Own.ThreadOver(r, step, t); } else { Own.NewThread(r, step, t); }
    }
  }

  lemma StepThreads(s: Session, step: Own.Step)
    requires ThreadsBorn(s.runtime.threads, s.born) && DraftsOk(s.drafts, s.runtime.threads, s.born, s.clock)
             && s.ready <= s.born.Keys
    requires Enabled(s, Step(step))
    ensures var threads := Own.Next(s.runtime, step).threads;
            ThreadsBorn(threads, s.born) && DraftsOk(s.drafts, threads, s.born, s.clock)
  {
    var threads := Own.Next(s.runtime, step).threads;
    forall t | t in threads || t in s.runtime.threads
      ensures t in threads && threads[t].run in s.born
              && (t in s.runtime.threads ==> threads[t].run == s.runtime.threads[t].run)
    {
      if t in s.runtime.threads { Own.ThreadOver(s.runtime, step, t); } else { Own.NewThread(s.runtime, step, t); }
      hide Own.Next, Own.Effects;
    }
    hide Own.Next;
  }

  lemma StepSends(s: Session, step: Own.Step)
    requires SendsOk(s) && Enabled(s, Step(step))
    ensures SendsOk(Apply(s, Step(step)))
  {
    var s' := Apply(s, Step(step));
    hide Own.Next;
    forall k | k in s.sends && s.sends[k].Created? ensures s.sends[k].run !in s'.ready && NotStarted(s'.runtime, s.sends[k].run) {
      StepNotStarted(s.runtime, step, s.sends[k].run);
    }
    hide NotStarted, OthersIdle;
  }

  lemma StepKeeps(s: Session, step: Own.Step)
    requires Core(s) && Enabled(s, Step(step))
    ensures Core(Apply(s, Step(step)))
    ensures AllLatest(s) && !Overruns(s, Step(step)) ==> AllLatest(Apply(s, Step(step)))
  {
    StepOneActive(s, step);
    if AllLatest(s) && !Overruns(s, Step(step)) { StepLatest(s, step); }
    Own.StepKeeps(s.runtime, step);
    StepThreads(s, step);
    StepSends(s, step);
    hide Own.Inv, Own.Next, SendsOk, RowsOk, OneActive, AllLatest, ThreadsBorn, BornOk, DraftsOk, Overruns, OthersIdle;
  }

  // ---- The other events ----

  lemma LookKeeps(s: Session, k: SendId, found: Option<RunId>)
    requires Core(s) && Enabled(s, Look(k, found))
    ensures Core(Apply(s, Look(k, found))) && (AllLatest(s) ==> AllLatest(Apply(s, Look(k, found))))
  {
    var s' := Apply(s, Look(k, found));
    assert forall r :: Active(s', r) <==> Active(s, r);
    hide Own.Inv, RowsOk, ThreadsBorn, BornOk, DraftsOk, NotStarted, Own.StatusOf, ActiveStatus;
    assert forall r, row :: Latest(s', r, row) <==> Latest(s, r, row);
  }

  lemma CreateKeeps(s: Session, k: SendId, run: RunId)
    requires Core(s) && Enabled(s, Create(k, run))
    ensures Core(Apply(s, Create(k, run))) && AllLatest(Apply(s, Create(k, run)))
  {
    NewRunKeeps(s, run);
    var n, s' := NewRun(s, run), Apply(s, Create(k, run));
    assert forall r :: Active(s', r) <==> Active(n, r);
    assert forall r, row :: Latest(s', r, row) <==> Latest(n, r, row);
    CreateSends(s, k, run);
    hide Own.Inv, RowsOk, ThreadsBorn, BornOk, DraftsOk, NotStarted, SendsOk, Active, Latest, NewRun, New;
  }

  lemma CreateSends(s: Session, k: SendId, run: RunId)
    requires SendsOk(s) && SendsOk(NewRun(s, run)) && NotStarted(NewRun(s, run).runtime, run) && run !in s.born
    ensures SendsOk(NewRun(s, run).(sends := s.sends[k := Created(run)]))
  {
    hide NotStarted;
    assert run !in s.ready;
  }

  lemma MessageKeeps(s: Session, k: SendId, text: nat, attached: nat)
    requires Core(s) && Enabled(s, StoreMessage(k, text, attached))
    ensures Core(Apply(s, StoreMessage(k, text, attached)))
    ensures AllLatest(s) ==> AllLatest(Apply(s, StoreMessage(k, text, attached)))
  {
    var run := s.sends[k].run;
    StoreKeeps(s, run, s.clock, text, 0, attached);
    if AllLatest(s) { StoreLatest(s, run, s.clock, text, 0, attached); }
    var n, s' := Store(s, run, s.clock, text, 0, attached), Apply(s, StoreMessage(k, text, attached));
    assert forall r :: Active(s', r) <==> Active(n, r);
    assert forall r, row :: Latest(s', r, row) <==> Latest(n, r, row);
    MessageSends(n, k);
    hide Own.Inv, RowsOk, ThreadsBorn, BornOk, DraftsOk, NotStarted, SendsOk, Active, Latest, Store;
  }

  lemma MessageSends(s: Session, k: SendId)
    requires SendsOk(s) && k in s.sends && !s.sends[k].Creating?
    ensures SendsOk(s.(sends := s.sends - {k}, ready := if s.sends[k].Created? then s.ready + {s.sends[k].run} else s.ready))
  {
    hide NotStarted;
  }

  lemma AbandonKeeps(s: Session, k: SendId, marked: bool)
    requires Core(s) && Enabled(s, Abandon(k, marked))
    ensures Core(Apply(s, Abandon(k, marked))) && (AllLatest(s) ==> AllLatest(Apply(s, Abandon(k, marked))))
  {
    var s' := Apply(s, Abandon(k, marked));
    assert forall r :: Active(s', r) ==> Active(s, r);
    assert forall r, row :: Latest(s', r, row) <==> Latest(s, r, row);
    AbandonRuntime(s, k, marked);
    hide Own.Inv, RowsOk, ThreadsBorn, BornOk, DraftsOk, NotStarted, SendsOk, Active, Latest;
  }

  lemma AbandonRuntime(s: Session, k: SendId, marked: bool)
    requires Own.Inv(s.runtime) && SendsOk(s) && k in s.sends
    ensures var s' := Apply(s, Abandon(k, marked));
            Own.Inv(s'.runtime) && SendsOk(s') && s'.runtime.threads == s.runtime.threads
  {
    var s' := Apply(s, Abandon(k, marked));
    forall t | t in s'.runtime.threads ensures Own.SettledIn(s'.runtime, t) {
      assert Own.SettledIn(s.runtime, t);
      if s.sends[k].Created? && s.runtime.threads[t].run == s.sends[k].run { assert Waits(s.runtime.threads[t]); }
    }
    Own.StatusApart(s.runtime, s'.runtime.status);
    AbandonSends(s, k, marked);
    hide Own.SettledIn, Own.OwnersOk, SendsOk;
  }

  lemma AbandonSends(s: Session, k: SendId, marked: bool)
    requires SendsOk(s) && k in s.sends
    ensures SendsOk(Apply(s, Abandon(k, marked)))
  {
    var s' := Apply(s, Abandon(k, marked));
    forall l | l in s'.sends && s'.sends[l].Created? ensures s'.sends[l].run !in s'.ready && NotStarted(s'.runtime, s'.sends[l].run) {
      assert l in s.sends && NotStarted(s.runtime, s.sends[l].run);
    }
  }

  lemma RetryKeeps(s: Session, previous: RunId, run: RunId)
    requires Core(s) && Enabled(s, Retry(previous, run))
    ensures Core(Apply(s, Retry(previous, run))) && AllLatest(Apply(s, Retry(previous, run)))
  {
    NewRunKeeps(s, run);
    var n, s' := NewRun(s, run), Apply(s, Retry(previous, run));
    assert forall r :: Active(s', r) <==> Active(n, r);
    assert forall r, row :: Latest(s', r, row) <==> Latest(n, r, row);
    RetrySends(s, run);
    hide Own.Inv, RowsOk, ThreadsBorn, BornOk, DraftsOk, NotStarted, SendsOk, Active, Latest, NewRun, New;
  }

  lemma RetrySends(s: Session, run: RunId)
    requires SendsOk(s) && SendsOk(NewRun(s, run)) && run !in s.born
    ensures SendsOk(NewRun(s, run).(ready := s.ready + {run}))
  {
    hide NotStarted;
  }

  lemma RunBorn(s: Session, t: Own.ThreadId)
    requires Core(s) && t in s.runtime.threads
    ensures var run := s.runtime.threads[t].run;
            && run in s.born && s.born[run] <= s.clock && (t in s.drafts ==> s.born[run] <= s.drafts[t] <= s.clock)
  {
    hide Own.Inv, SendsOk, RowsOk, OneActive;
  }

  lemma DraftKeeps(s: Session, t: Own.ThreadId)
    requires Core(s) && InLoop(s, t)
    ensures Core(Apply(s, Draft(t))) && (AllLatest(s) ==> AllLatest(Apply(s, Draft(t))))
  {
    RunBorn(s, t);
    var s' := Apply(s, Draft(t));
    SameButTime(s, s');
    LaterClock(s.rows, s.born, s.clock);
    assert DraftsOk(s'.drafts, s'.runtime.threads, s'.born, s'.clock) && BornOk(s'.born, s'.clock);
    hide Own.Inv, RowsOk, SendsOk, OneActive, AllLatest, DraftsOk, BornOk;
  }

  lemma LaterClock(rows: seq<Row>, born: map<RunId, nat>, clock: nat)
    requires RowsOk(rows, born, clock)
    ensures RowsOk(rows, born, clock + 1)
  {
    hide Sorted, UniqueIds;
  }

  lemma UndraftKeeps(s: Session, t: Own.ThreadId)
    requires Core(s)
    ensures var s' := s.(drafts := s.drafts - {t}); Core(s') && (AllLatest(s) ==> AllLatest(s'))
  {
    var s' := s.(drafts := s.drafts - {t});
    SameButTime(s, s');
    assert DraftsOk(s'.drafts, s'.runtime.threads, s'.born, s'.clock);
    hide Own.Inv, RowsOk, SendsOk, OneActive, AllLatest, DraftsOk;
  }

  /** Drafts and the clock have no part in sends, activity and lateness. */
  lemma SameButTime(s: Session, s': Session)
    requires s' == s.(drafts := s'.drafts, clock := s'.clock)
    ensures SendsOk(s) ==> SendsOk(s')
    ensures OneActive(s) ==> OneActive(s')
    ensures AllLatest(s) ==> AllLatest(s')
  {
    assert forall r :: Active(s', r) <==> Active(s, r);
    assert forall r, row :: Latest(s', r, row) <==> Latest(s, r, row);
    hide NotStarted, Active, Latest;
  }

  lemma AnswerKeeps(s: Session, t: Own.ThreadId, text: nat)
    requires Core(s) && Enabled(s, Answer(t, text))
    ensures Core(Apply(s, Answer(t, text))) && (AllLatest(s) ==> AllLatest(Apply(s, Answer(t, text))))
  {
    var run := s.runtime.threads[t].run;
    var n := Store(s, run, s.drafts[t], text, 0, 0);
    assert Apply(s, Answer(t, text)) == n.(drafts := n.drafts - {t});
    hide *;
    RunBorn(s, t);
    StoreKeeps(s, run, s.drafts[t], text, 0, 0);
    CoreRows(s);
    if AllLatest(s) { StoreLatest(s, run, s.drafts[t], text, 0, 0); }
    UndraftKeeps(n, t);
  }

  lemma ToolKeeps(s: Session, t: Own.ThreadId, text: nat, private: nat)
    requires Core(s) && Executes(s, t)
    ensures Core(Apply(s, ToolResult(t, text, private)))
            && (AllLatest(s) ==> AllLatest(Apply(s, ToolResult(t, text, private))))
  {
    var run := s.runtime.threads[t].run;
    hide *;
    ToolIs(s, t, text, private);
    RunBorn(s, t);
    StoreKeeps(s, run, s.clock, text, private, 0);
    CoreRows(s);
    if AllLatest(s) { StoreLatest(s, run, s.clock, text, private, 0); }
  }

  lemma ToolIs(s: Session, t: Own.ThreadId, text: nat, private: nat)
    requires Executes(s, t)
    ensures t in s.runtime.threads
            && Apply(s, ToolResult(t, text, private)) == Store(s, s.runtime.threads[t].run, s.clock, text, private, 0)
  {
    hide Store;
  }

  lemma RestartKeeps(s: Session)
    requires Core(s)
    ensures Core(Apply(s, Restart)) && (AllLatest(s) ==> AllLatest(Apply(s, Restart)))
  {
    var s' := Apply(s, Restart);
    RestartRuntime(s);
    assert forall r, row :: Latest(s', r, row) <==> Latest(s, r, row);
    assert ThreadsBorn(s'.runtime.threads, s'.born) && DraftsOk(s'.drafts, s'.runtime.threads, s'.born, s'.clock);
    hide Own.Inv, RowsOk, BornOk, Active, Latest, SendsOk, Restarted, ThreadsBorn, DraftsOk;
  }

  lemma RestartRuntime(s: Session)
    ensures var s' := Apply(s, Restart);
            Own.Inv(s'.runtime) && SendsOk(s') && s'.runtime.threads == map[] && forall r :: Active(s', r) ==> Active(s, r)
  {
  }

  /** Every event of a session keeps its invariant, with at most one active run; unless
      the event is an overrun, what was stored since the active run was created stays its
      own or late. */
  lemma EventKeeps(s: Session, e: Event)
    requires Core(s) && Enabled(s, e)
    ensures Core(Apply(s, e))
    ensures AllLatest(s) && !Overruns(s, e) ==> AllLatest(Apply(s, e))
  {
    hide Core, AllLatest, Apply;
    match e
    case Look(k, found) => LookKeeps(s, k, found);
    case Create(k, run) => CreateKeeps(s, k, run);
    case StoreMessage(k, text, attached) => MessageKeeps(s, k, text, attached);
    case Abandon(k, marked) => AbandonKeeps(s, k, marked);
    case Retry(previous, run) => RetryKeeps(s, previous, run);
    case Draft(t) => DraftKeeps(s, t);
    case Answer(t, text) => AnswerKeeps(s, t, text);
    case ToolResult(t, text, private) => ToolKeeps(s, t, text, private);
    case Restart => RestartKeeps(s);
    case Step(step) => StepKeeps(s, step);
  }

  lemma {:induction false} PlayKeeps(s: Session, events: seq<Event>)
    requires Core(s) && Admissible(s, events)
    ensures Core(Play(s, events))
    ensures AllLatest(s) && NeverOverruns(s, events) ==> AllLatest(Play(s, events))
    decreases |events|
  {
    hide Core, AllLatest, Enabled, Overruns, Apply;
    if events != [] {
      EventKeeps(s, events[0]);
      PlayKeeps(Apply(s, events[0]), events[1..]);
    }
  }

  lemma EmptyKeeps()
    ensures Core(Empty) && AllLatest(Empty) && Empty.late == {}
  {
  }

  // ---- Which messages are late ----

  lemma LoopActive(s: Session, t: Own.ThreadId)
    requires Core(s) && InLoop(s, t)
    ensures Active(s, s.runtime.threads[t].run)
  {
    assert Own.SettledIn(s.runtime, t);
    assert s.runtime.threads[t].run in s.born;
    hide Own.OwnersOk, SendsOk, RowsOk, DraftsOk, OneActive;
  }

  /** A message is late if and only if Send joined, or created, a run that has ended
      since, or a Resume worker carries out a decision after its provider was deleted. */
  lemma LateIff(s: Session, e: Event)
    requires Core(s) && Enabled(s, e)
    ensures Late(s, e) <==> (e.StoreMessage? && !Active(s, s.sends[e.k].run)) || (e.ToolResult? && Own.Overtaken(s.runtime, e.t))
  {
    if e.Answer? { LoopActive(s, e.t); }
    if e.ToolResult? {
      var x := s.runtime.threads[e.t];
      assert Own.SettledIn(s.runtime, e.t) && x.run in s.born;
      if x.pc == Own.Working { LoopActive(s, e.t); }
    }
    hide Core;
  }

  /** A message stored right after the look or the creation is not late. */
  lemma AtOnceNotLate(s: Session, k: SendId, run: RunId, text: nat, attached: nat)
    ensures Enabled(s, Look(k, Some(run))) ==> !Late(Apply(s, Look(k, Some(run))), StoreMessage(k, text, attached))
    ensures Enabled(s, Create(k, run)) ==> !Late(Apply(s, Create(k, run)), StoreMessage(k, text, attached))
  {
    if Enabled(s, Create(k, run)) { NewRunActive(s, run); }
  }

  lemma LateSame(s: Session, e: Event)
    requires Enabled(s, e) && !Late(s, e)
    ensures Apply(s, e).late == s.late
  {
    hide Insert, Own.Next, OthersIdle, NoneActive, Restarted;
  }

  lemma {:induction false} NoneLate(s: Session, events: seq<Event>)
    requires Admissible(s, events) && NeverLate(s, events)
    ensures Play(s, events).late == s.late
    decreases |events|
  {
    hide Enabled, Late, Apply;
    if events != [] {
      LateSame(s, events[0]);
      NoneLate(Apply(s, events[0]), events[1..]);
    }
  }

  // ---- What a snapshot can fold ----

  predicate Newest(rows: seq<Row>, run: RunId) { rows != [] && rows[|rows| - 1].runId == run }

  /** Rows at or after a row of the active run, but not its own, are late. */
  lemma LaterIsLate(s: Session, run: RunId, i: nat, j: nat)
    requires RowsOk(s.rows, s.born, s.clock) && AllLatest(s) && Active(s, run)
    requires i <= j < |s.rows| && s.rows[i].runId == run
    ensures s.rows[j].runId == run || s.rows[j].id in s.late
  {
    assert Dated(s.rows[i], s.born, s.clock);
    assert i < j ==> ContextBudget.After(s.rows[j], s.rows[i]);
    assert Latest(s, run, s.rows[j]);
    hide Active, UniqueIds;
  }

  /** Without an overrun, a snapshot folds rows of the active run if and only if the rows
      after that run cannot be sent whole, and all of those rows are late. */
  lemma FoldedByLateOnly(s: Session, run: RunId, c0: nat, window: nat, summaryLength: SummaryLength, r: Snapshot)
    requires RowsOk(s.rows, s.born, s.clock) && AllLatest(s) && Active(s, run) && c0 <= |s.rows|
    requires r.Snapshot? && Snapshotted(s.rows, c0, run, window, summaryLength, r)
    ensures Holds(s.rows, c0, c0 + |r.folded|, run)
            <==> Holds(s.rows, c0, |s.rows|, run) && !Fits(s.rows, AfterRun(s.rows, c0, run))
    ensures Holds(s.rows, c0, |s.rows|, run) ==> forall j :: AfterRun(s.rows, c0, run) <= j < |s.rows| ==> s.rows[j].id in s.late
  {
    hide Snapshotted, Fits, RowsOk, AllLatest, Active;
    CurrentFoldedIff(s.rows, c0, run, window, summaryLength, r);
    if Holds(s.rows, c0, |s.rows|, run) {
      var last, cut := LastOf(s.rows, c0, |s.rows|, run), AfterRun(s.rows, c0, run);
      var i :| c0 <= i < |s.rows| && s.rows[i].runId == run;
      assert last >= c0 && cut > last;
      forall j | cut <= j < |s.rows| ensures s.rows[j].id in s.late { LaterIsLate(s, run, last, j); }
    }
  }

  /** Whatever happens in a session without an overrun and without a late message, the
      newest row belongs to the active run if that has a row, and no snapshot folds it. */
  lemma ActiveRunKept(events: seq<Event>, run: RunId, c0: nat, window: nat, summaryLength: SummaryLength, r: Snapshot)
    requires Admissible(Empty, events) && NeverOverruns(Empty, events) && NeverLate(Empty, events)
    requires var s := Play(Empty, events);
             Active(s, run) && c0 <= |s.rows| && r.Snapshot? && Snapshotted(s.rows, c0, run, window, summaryLength, r)
    ensures var s := Play(Empty, events);
            && Table(s.rows) && (Holds(s.rows, 0, |s.rows|, run) ==> Newest(s.rows, run))
            && !Holds(s.rows, c0, c0 + |r.folded|, run)
  {
    hide *;
    var s := Play(Empty, events);
    EmptyKeeps();
    PlayKeeps(Empty, events);
    NoneLate(Empty, events);
    CoreRows(s);
    FoldedByLateOnly(s, run, c0, window, summaryLength, r);
    OwnNewest(s, run, c0);
  }

  lemma CoreRows(s: Session)
    requires Core(s)
    ensures RowsOk(s.rows, s.born, s.clock) && Table(s.rows) && OneActive(s)
  {
    SortedTable(s.rows);
    hide Own.Inv, SendsOk, DraftsOk, OneActive, Table;
  }

  lemma OwnNewest(s: Session, run: RunId, c0: nat)
    requires RowsOk(s.rows, s.born, s.clock) && AllLatest(s) && Active(s, run) && s.late == {} && c0 <= |s.rows|
    ensures Holds(s.rows, 0, |s.rows|, run) ==> Newest(s.rows, run)
    ensures (forall j :: AfterRun(s.rows, c0, run) <= j < |s.rows| ==> s.rows[j].id in s.late) ==> Fits(s.rows, AfterRun(s.rows, c0, run))
  {
    hide RowsOk, AllLatest, Active, AfterRun;
    var cut := AfterRun(s.rows, c0, run);
    if forall j :: cut <= j < |s.rows| ==> s.rows[j].id in s.late {
      assert RowsOk(s.rows, s.born, s.clock);
      LateFits(s.rows, cut, s.born, s.clock, s.late);
    }
    if Holds(s.rows, 0, |s.rows|, run) {
      var i :| 0 <= i < |s.rows| && s.rows[i].runId == run;
      LaterIsLate(s, run, i, |s.rows| - 1);
    }
  }

  // ---- A few late messages do no harm ----

  const FEW := 128

  lemma {:induction false} SmallRows(rows: seq<Row>)
    requires forall i :: 0 <= i < |rows| ==> rows[i].text <= MAX_USER_BYTES && rows[i].private == 0
    ensures TextBytes(rows) <= |rows| * MAX_USER_BYTES && PrivateBytes(rows) == 0
    decreases |rows|
  {
    if rows != [] { SmallRows(rows[1..]); }
  }

  lemma {:induction false} FewerRows(rows: seq<Row>, ids: set<nat>)
    requires UniqueIds(rows) && Sorted(rows) && forall i :: 0 <= i < |rows| ==> rows[i].id in ids
    ensures |rows| <= |ids|
    decreases |rows|
  {
    if rows != [] {
      var front, last := rows[..|rows| - 1], rows[|rows| - 1];
      SortedFront(rows);
      forall i | 0 <= i < |front| ensures front[i].id in ids - {last.id} {
        assert front[i] in front && last in rows && ContextBudget.After(last, front[i]);
      }
      FewerRows(front, ids - {last.id});
    }
  }

  lemma SuffixOk(rows: seq<Row>, cut: nat)
    requires Sorted(rows) && UniqueIds(rows) && cut <= |rows|
    ensures Sorted(rows[cut..]) && UniqueIds(rows[cut..])
  {
  }

  /** Without an overrun, up to 128 late messages of users cannot make a snapshot fold the
      active run: together they are no more than the text budget. */
  lemma FewLateMessages(events: seq<Event>, run: RunId, c0: nat, window: nat, summaryLength: SummaryLength, r: Snapshot)
    requires Admissible(Empty, events) && NeverOverruns(Empty, events)
    requires var s := Play(Empty, events);
             && Active(s, run) && c0 <= |s.rows| && r.Snapshot?
             && Snapshotted(s.rows, c0, run, window, summaryLength, r)
             && |s.late| <= FEW && forall row :: row in s.rows && row.id in s.late ==> row.text <= MAX_USER_BYTES && row.private == 0
    ensures var s := Play(Empty, events); !Holds(s.rows, c0, c0 + |r.folded|, run)
  {
    hide *;
    var s := Play(Empty, events);
    EmptyKeeps();
    PlayKeeps(Empty, events);
    CoreRows(s);
    FoldedByLateOnly(s, run, c0, window, summaryLength, r);
    if Holds(s.rows, c0, |s.rows|, run) { LateFits(s.rows, AfterRun(s.rows, c0, run), s.born, s.clock, s.late); }
  }

  lemma LateFits(rows: seq<Row>, cut: nat, born: map<RunId, nat>, clock: nat, late: set<nat>)
    requires RowsOk(rows, born, clock) && cut <= |rows| && |late| <= FEW && forall j :: cut <= j < |rows| ==> rows[j].id in late
    requires forall row :: row in rows && row.id in late ==> row.text <= MAX_USER_BYTES && row.private == 0
    ensures Fits(rows, cut)
  {
    SuffixOk(rows, cut);
    hide Sorted, UniqueIds;
    var tail := rows[cut..];
    forall i | 0 <= i < |tail| ensures tail[i].id in late && tail[i].text <= MAX_USER_BYTES && tail[i].private == 0 {
      assert tail[i] == rows[cut + i] && rows[cut + i] in rows;
    }
    FewerRows(tail, late);
    SmallRows(tail);
    forall i | cut <= i < |rows| ensures rows[i].private <= MAX_TOOL_READ_STATE { assert tail[i - cut] == rows[i]; }
    assert TextBytes(tail) <= FEW * MAX_USER_BYTES;
  }

  // ---- An overrun makes it possible ----

  lemma {:induction false} PlayJoin(s: Session, a: seq<Event>, b: seq<Event>)
    requires Admissible(s, a) && Admissible(Play(s, a), b)
    ensures Admissible(s, a + b) && Play(s, a + b) == Play(Play(s, a), b)
    decreases |a|
  {
    hide Enabled, Apply;
    if a == [] {
      EmptyLeft(b);
    } else {
      assert (a + b)[0] == a[0] && (a + b)[1..] == a[1..] + b;
      PlayJoin(Apply(s, a[0]), a[1..], b);
    }
  }

  lemma PlayOne(s: Session, e: Event)
    requires Enabled(s, e)
    ensures Admissible(s, [e]) && Play(s, [e]) == Apply(s, e)
  {
    hide Enabled, Apply;
    assert [e][1..] == [];
  }

  function Steps(steps: seq<Own.Step>): seq<Event> { seq(|steps|, i requires 0 <= i < |steps| => Step(steps[i])) }

  /** Steps that start no worker and begin no run can always be taken. */
  predicate Free(s: Session, step: Own.Step) {
    !step.Start? && (step.Cancel? ==> step.run in s.born) && (step.Do? ==> step.act != Own.Begin(true))
  }

  lemma {:induction false} PlaySteps(s: Session, steps: seq<Own.Step>)
    requires forall i :: 0 <= i < |steps| ==> Free(s, steps[i])
    ensures Admissible(s, Steps(steps)) && Play(s, Steps(steps)) == s.(runtime := Own.Exec(s.runtime, steps))
    decreases |steps|
  {
    hide Own.Next;
    if steps != [] {
      assert Steps(steps)[1..] == Steps(steps[1..]) && Steps(steps)[0] == Step(steps[0]);
      assert Free(s, steps[0]);
      PlaySteps(Apply(s, Step(steps[0])), steps[1..]);
    }
  }

  /** Nothing is under way but what is named here. */
  ghost predicate At(s: Session, runs: set<RunId>, ready: set<RunId>, threads: set<Own.ThreadId>,
                     cancels: map<RunId, Own.ThreadId>, rows: seq<Row>, clock: nat) {
    && s.born.Keys == runs && s.ready == ready && s.runtime.threads.Keys == threads && s.runtime.cancels == cancels
    && !s.runtime.closing
    && s.sends == map[] && s.drafts == map[] && s.rows == rows && s.clock == clock
    && forall i :: 0 <= i < |rows| ==> rows[i].createdAt < clock
  }

  ghost predicate Working(s: Session, t: Own.ThreadId, run: RunId) {
    && t in s.runtime.threads && s.runtime.threads[t] == Own.Thread(run, Own.Working, false, false, false)
    && Own.StatusOf(s.runtime, run).Running? && OthersIdle(s, run)
  }

  /** A message that finds no active run. */
  function Opening(k: SendId, run: RunId): seq<Event> { [Look(k, None)] + ([Create(k, run)] + [StoreMessage(k, 10, 0)]) }

  lemma Opened(s: Session, k: SendId, run: RunId, runs: set<RunId>, ready: set<RunId>, threads: set<Own.ThreadId>,
               rows: seq<Row>, clock: nat)
    requires At(s, runs, ready, threads, map[], rows, clock) && NoneActive(s) && run != "" && run !in runs
    ensures Admissible(s, Opening(k, run))
    ensures var s' := Play(s, Opening(k, run));
            && At(s', runs + {run}, ready + {run}, threads, map[], rows + [Row(clock, clock, run, 10, 0, 0)], clock + 1)
            && OthersIdle(s', run) && Own.StatusOf(s'.runtime, run).Queued?
  {
    var e1, e2, e3 := Look(k, None), Create(k, run), StoreMessage(k, 10, 0);
    var s1 := Apply(s, e1);
    assert forall r :: Active(s1, r) <==> Active(s, r);
    var s2 := Apply(s1, e2);
    NewRunActive(s1, run);
    assert forall r :: Active(s2, r) <==> Active(NewRun(s1, run), r);
    OpenedRow(s2, k, run, rows);
    var s3 := Apply(s2, e3);
    assert forall r :: Active(s3, r) <==> Active(s2, r);
    PlayOne(s, e1);
    PlayOne(s1, e2);
    PlayOne(s2, e3);
    hide Admissible, Play, Active;
    PlayJoin(s1, [e2], [e3]);
    PlayJoin(s, [e1], [e2] + [e3]);
    assert s2.sends - {k} == s.sends;
  }

  lemma OpenedRow(s: Session, k: SendId, run: RunId, rows: seq<Row>)
    requires s.sends == map[k := Created(run)] && s.rows == rows && forall i :: 0 <= i < |rows| ==> rows[i].createdAt < s.clock
    ensures var s' := Apply(s, StoreMessage(k, 10, 0));
            && s'.rows == rows + [Row(s.clock, s.clock, run, 10, 0, 0)] && s'.clock == s.clock + 1 && s'.sends == map[]
            && s'.ready == s.ready + {run}
            && s'.runtime == s.runtime && s'.born == s.born && s'.drafts == s.drafts
  {
    InsertLast(rows, Row(s.clock, s.clock, run, 10, 0, 0));
    hide Insert;
    assert map[k := Created(run)] - {k} == map[];
  }

  /** Cancel finds the run before its worker does. */
  lemma CancelledEarly(s: Session, t: Own.ThreadId, run: RunId, runs: set<RunId>, ready: set<RunId>,
                       threads: set<Own.ThreadId>, rows: seq<Row>, clock: nat)
    requires At(s, runs, ready, threads, map[], rows, clock) && run in runs && t !in threads
    requires OthersIdle(s, run) && Own.StatusOf(s.runtime, run).Queued?
    ensures Admissible(s, Steps(Own.IdleCancel(t, run)))
    ensures var s' := Play(s, Steps(Own.IdleCancel(t, run)));
            At(s', runs, ready, threads + {t}, map[], rows, clock) && NoneActive(s')
  {
    PlaySteps(s, Own.IdleCancel(t, run));
    Own.IdleCancelled(s.runtime, t, run);
    var s' := Play(s, Steps(Own.IdleCancel(t, run)));
    hide Play, Admissible, Own.Exec, Own.IdleCancel, Steps;
    assert forall r :: r != run ==> (Active(s', r) <==> Active(s, r));
  }

  /** The Run worker of a run comes to its loop. */
  function Looking(t: Own.ThreadId, run: RunId): seq<Event> {
    [Step(Own.Start(t, run, false))] + Steps([Own.Do(t, Own.Acquire), Own.Do(t, Own.Look(true))])
  }

  function Entering(t: Own.ThreadId, run: RunId): seq<Event> { Looking(t, run) + [Step(Own.Do(t, Own.Begin(true)))] }

  lemma Looked(s: Session, t: Own.ThreadId, run: RunId)
    requires run in s.ready
    ensures Admissible(s, Looking(t, run))
    ensures Play(s, Looking(t, run)) == s.(runtime := Own.Exec(s.runtime, Own.LookAt(t, run, false)), ready := s.ready - {run})
  {
    var e, steps := Step(Own.Start(t, run, false)), [Own.Do(t, Own.Acquire), Own.Do(t, Own.Look(true))];
    EnteredParts(s.runtime, t, run);
    var s1 := Apply(s, e);
    assert Enabled(s, e) && s1 == s.(runtime := Own.Next(s.runtime, e.step), ready := s.ready - {run});
    assert forall i :: 0 <= i < |steps| ==> Free(s1, steps[i]);
    assert Looking(t, run) == [e] + Steps(steps) by { hide Steps; }
    hide *;
    EnteredParts(s.runtime, t, run);
    PlayOne(s, e);
    PlaySteps(s1, steps);
    PlayJoin(s, [e], Steps(steps));
  }

  /** Changing the status of one run leaves the others idle. */
  lemma StillIdle(s: Session, s': Session, run: RunId)
    requires OthersIdle(s, run) && s'.born == s.born && forall r :: r != run ==> Own.StatusOf(s'.runtime, r) == Own.StatusOf(s.runtime, r)
    ensures OthersIdle(s', run)
  {
    hide Own.StatusOf, ActiveStatus;
    forall r | r != run ensures !Active(s', r) { assert !Active(s, r); }
  }

  lemma EnteredLoop(s: Session, t: Own.ThreadId, run: RunId, runs: set<RunId>, ready: set<RunId>,
                    threads: set<Own.ThreadId>, rows: seq<Row>, clock: nat)
    requires At(s, runs, ready, threads, map[], rows, clock) && run in ready && run in runs && t !in threads
             && OthersIdle(s, run)
    ensures Admissible(s, Entering(t, run))
    ensures var s' := Play(s, Entering(t, run));
            At(s', runs, ready - {run}, threads + {t}, map[run := t], rows, clock) && Working(s', t, run)
  {
    Looked(s, t, run);
    Own.LooksAt(s.runtime, t, run, false);
    hide Own.Exec, Own.LookAt, Own.Next, Play, Admissible, Looking;
    var s2 := Play(s, Looking(t, run));
    StillIdle(s, s2, run);
    Began(s2, t, run);
    PlayJoin(s, Looking(t, run), [Step(Own.Do(t, Own.Begin(true)))]);
    hide OthersIdle;
  }

  lemma Began(s: Session, t: Own.ThreadId, run: RunId)
    requires t in s.runtime.threads && s.runtime.threads[t] == Own.Thread(run, Own.Starting, false, false, false)
             && OthersIdle(s, run)
    ensures Admissible(s, [Step(Own.Do(t, Own.Begin(true)))])
    ensures var s' := Play(s, [Step(Own.Do(t, Own.Begin(true)))]);
            && s' == s.(runtime := s'.runtime) && s'.runtime.threads.Keys == s.runtime.threads.Keys
            && s'.runtime.cancels == s.runtime.cancels
            && s'.runtime.closing == s.runtime.closing && Working(s', t, run)
  {
    var e := Step(Own.Do(t, Own.Begin(true)));
    PlayOne(s, e);
    Own.Begun(s.runtime, t);
    Own.ExecOne(s.runtime, Own.Do(t, Own.Begin(true)));
    hide Own.Next, Own.Exec, Play, Admissible;
    StillIdle(s, Play(s, [e]), run);
    hide OthersIdle;
  }

  lemma EnteredParts(r: Own.State, t: Own.ThreadId, run: RunId)
    ensures Own.Exec(r, Own.LookAt(t, run, false))
            == Own.Exec(Own.Next(r, Own.Start(t, run, false)), [Own.Do(t, Own.Acquire), Own.Do(t, Own.Look(true))])
  {
    hide Own.Next;
    assert Own.LookAt(t, run, false)[1..] == [Own.Do(t, Own.Acquire), Own.Do(t, Own.Look(true))];
  }

  /** An answer of the greatest length. */
  function LongAnswer(t: Own.ThreadId): seq<Event> { [Draft(t)] + [Answer(t, MAX_ASSISTANT_BYTES)] }

  lemma Answered(s: Session, t: Own.ThreadId, run: RunId, runs: set<RunId>, ready: set<RunId>,
                 threads: set<Own.ThreadId>, rows: seq<Row>, clock: nat)
    requires At(s, runs, ready, threads, map[run := t], rows, clock) && Working(s, t, run)
    ensures Admissible(s, LongAnswer(t))
    ensures var s' := Play(s, LongAnswer(t));
            && At(s', runs, ready, threads, map[run := t], rows + [Row(clock + 1, clock, run, MAX_ASSISTANT_BYTES, 0, 0)], clock + 2)
            && Working(s', t, run)
  {
    var s1 := Apply(s, Draft(t));
    PlayOne(s, Draft(t));
    PlayOne(s1, Answer(t, MAX_ASSISTANT_BYTES));
    InsertLast(rows, Row(clock + 1, clock, run, MAX_ASSISTANT_BYTES, 0, 0));
    var s2 := Apply(s1, Answer(t, MAX_ASSISTANT_BYTES));
    hide Play, Admissible, Insert;
    PlayJoin(s, [Draft(t)], [Answer(t, MAX_ASSISTANT_BYTES)]);
    assert forall r :: Active(s2, r) <==> Active(s, r);
    assert s1.drafts - {t} == s.drafts;
  }

  lemma Ended(s: Session, t: Own.ThreadId, run: RunId, runs: set<RunId>, ready: set<RunId>, threads: set<Own.ThreadId>,
              rows: seq<Row>, clock: nat)
    requires At(s, runs, ready, threads, map[run := t], rows, clock) && Working(s, t, run)
    ensures Admissible(s, Steps(Own.EndRun(t, Own.Completed)))
    ensures var s' := Play(s, Steps(Own.EndRun(t, Own.Completed)));
            At(s', runs, ready, threads, map[], rows, clock) && NoneActive(s')
  {
    PlaySteps(s, Own.EndRun(t, Own.Completed));
    Own.Done(s.runtime, t, run, Own.Completed);
    var s' := Play(s, Steps(Own.EndRun(t, Own.Completed)));
    hide Play, Admissible, Own.Exec, Own.EndRun, Steps;
    assert forall r :: r != run ==> (Active(s', r) <==> Active(s, r));
    assert map[run := t] - {run} == map[];
  }

  const RowA: Row := Row(0, 0, "a", 10, 0, 0)
  const RowB: Row := Row(1, 1, "b", 10, 0, 0)
  const Long1: Row := Row(3, 2, "b", MAX_ASSISTANT_BYTES, 0, 0)
  const Long2: Row := Row(5, 4, "b", MAX_ASSISTANT_BYTES, 0, 0)
  const Long3: Row := Row(7, 6, "b", MAX_ASSISTANT_BYTES, 0, 0)
  const RowC: Row := Row(8, 8, "c", 10, 0, 0)
  const EndRows: seq<Row> := [RowA, RowB, Long1, Long2, Long3, RowC]

  /** The run "a" is cancelled before its worker starts; "b" is created, stores three long
      answers and completes; "c" is created and completes; and only now the worker of "a"
      comes to its loop. */
  function PartA(): seq<Event> { Opening(1, "a") + Steps(Own.IdleCancel(1, "a")) }

  function PartB(): seq<Event> {
    (Opening(2, "b") + Entering(2, "b")) + ((LongAnswer(2) + (LongAnswer(2) + LongAnswer(2))) + Steps(Own.EndRun(2, Own.Completed)))
  }

  function PartC(): seq<Event> { Opening(3, "c") + (Entering(3, "c") + Steps(Own.EndRun(3, Own.Completed))) }

  function LateStart(): seq<Event> { PartA() + (PartB() + (PartC() + Entering(4, "a"))) }

  lemma PlayedA()
    ensures Admissible(Empty, PartA())
    ensures var s := Play(Empty, PartA()); At(s, {"a"}, {"a"}, {1}, map[], [RowA], 1) && NoneActive(s)
  {
    EmptyAt();
    hide *;
    Opened(Empty, 1, "a", {}, {}, {}, [], 0);
    PartsA();
    var s := Play(Empty, Opening(1, "a"));
    CancelledEarly(s, 1, "a", {"a"}, {"a"}, {}, [RowA], 1);
    PlayJoin(Empty, Opening(1, "a"), Steps(Own.IdleCancel(1, "a")));
  }

  lemma EmptyAt()
    ensures At(Empty, {}, {}, {}, map[], [], 0) && NoneActive(Empty)
  {
  }

  lemma PartsA()
    ensures PartA() == Opening(1, "a") + Steps(Own.IdleCancel(1, "a"))
    ensures {} + {"a"} == {"a"} && [] + [Row(0, 0, "a", 10, 0, 0)] == [RowA] && {} + {1 as nat} == {1}
  {
    hide Opening, Steps;
  }

  lemma PlayedB(s: Session)
    requires At(s, {"a"}, {"a"}, {1}, map[], [RowA], 1) && NoneActive(s)
    ensures Admissible(s, PartB())
    ensures var s' := Play(s, PartB());
            At(s', {"a", "b"}, {"a"}, {1, 2}, map[], [RowA, RowB, Long1, Long2, Long3], 8) && NoneActive(s')
  {
    hide *;
    PartsB();
    var runs, ready, threads := {"a", "b"}, {"a"}, {1, 2};
    Opened(s, 2, "b", {"a"}, {"a"}, {1}, [RowA], 1);
    var s1 := Play(s, Opening(2, "b"));
    EnteredLoop(s1, 2, "b", runs, {"a", "b"}, {1}, [RowA, RowB], 2);
    var s2 := Play(s1, Entering(2, "b"));
    PlayJoin(s, Opening(2, "b"), Entering(2, "b"));
    Answered(s2, 2, "b", runs, ready, threads, [RowA, RowB], 2);
    var s3 := Play(s2, LongAnswer(2));
    Answered(s3, 2, "b", runs, ready, threads, [RowA, RowB, Long1], 4);
    var s4 := Play(s3, LongAnswer(2));
    Answered(s4, 2, "b", runs, ready, threads, [RowA, RowB, Long1, Long2], 6);
    var s5 := Play(s4, LongAnswer(2));
    PlayJoin(s3, LongAnswer(2), LongAnswer(2));
    PlayJoin(s2, LongAnswer(2), LongAnswer(2) + LongAnswer(2));
    Ended(s5, 2, "b", runs, ready, threads, [RowA, RowB, Long1, Long2, Long3], 8);
    PlayJoin(s2, LongAnswer(2) + (LongAnswer(2) + LongAnswer(2)), Steps(Own.EndRun(2, Own.Completed)));
    PlayJoin(s, Opening(2, "b") + Entering(2, "b"), (LongAnswer(2) + (LongAnswer(2) + LongAnswer(2))) + Steps(Own.EndRun(2, Own.Completed)));
  }

  lemma PartsB()
    ensures PartB() == (Opening(2, "b") + Entering(2, "b")) + ((LongAnswer(2) + (LongAnswer(2) + LongAnswer(2))) + Steps(Own.EndRun(2, Own.Completed)))
    ensures {"a"} + {"b"} == {"a", "b"} && {"a", "b"} - {"b"} == {"a"} && {1 as nat} + {2} == {1, 2} && "b" != ""
    ensures [RowA] + [Row(1, 1, "b", 10, 0, 0)] == [RowA, RowB]
    ensures [RowA, RowB] + [Row(3, 2, "b", MAX_ASSISTANT_BYTES, 0, 0)] == [RowA, RowB, Long1]
    ensures [RowA, RowB, Long1] + [Row(5, 4, "b", MAX_ASSISTANT_BYTES, 0, 0)] == [RowA, RowB, Long1, Long2]
    ensures [RowA, RowB, Long1, Long2] + [Row(7, 6, "b", MAX_ASSISTANT_BYTES, 0, 0)] == [RowA, RowB, Long1, Long2, Long3]
  {
    hide Opening, Entering, LongAnswer, Steps;
  }

  lemma PlayedC(s: Session)
    requires At(s, {"a", "b"}, {"a"}, {1, 2}, map[], [RowA, RowB, Long1, Long2, Long3], 8) && NoneActive(s)
    ensures Admissible(s, PartC())
    ensures var s' := Play(s, PartC()); At(s', {"a", "b", "c"}, {"a"}, {1, 2, 3}, map[], EndRows, 9) && NoneActive(s')
  {
    hide *;
    PartsC();
    var runs, threads := {"a", "b", "c"}, {1, 2, 3};
    Opened(s, 3, "c", {"a", "b"}, {"a"}, {1, 2}, [RowA, RowB, Long1, Long2, Long3], 8);
    var s1 := Play(s, Opening(3, "c"));
    EnteredLoop(s1, 3, "c", runs, {"a", "c"}, {1, 2}, EndRows, 9);
    var s2 := Play(s1, Entering(3, "c"));
    Ended(s2, 3, "c", runs, {"a"}, threads, EndRows, 9);
    PlayJoin(s1, Entering(3, "c"), Steps(Own.EndRun(3, Own.Completed)));
    PlayJoin(s, Opening(3, "c"), Entering(3, "c") + Steps(Own.EndRun(3, Own.Completed)));
  }

  lemma PartsC()
    ensures PartC() == Opening(3, "c") + (Entering(3, "c") + Steps(Own.EndRun(3, Own.Completed)))
    ensures {"a", "b"} + {"c"} == {"a", "b", "c"} && {"a"} + {"c"} == {"a", "c"} && {"a", "c"} - {"c"} == {"a"}
            && {1 as nat, 2} + {3} == {1, 2, 3}
    ensures [RowA, RowB, Long1, Long2, Long3] + [Row(8, 8, "c", 10, 0, 0)] == EndRows && "c" != ""
  {
    hide Opening, Entering, Steps;
  }

  lemma LateStartPlayed()
    ensures Admissible(Empty, LateStart())
    ensures var s := Play(Empty, LateStart()); s.rows == EndRows && Working(s, 4, "a")
  {
    hide *;
    PlayedA();
    var s1 := Play(Empty, PartA());
    PlayedB(s1);
    var s2 := Play(s1, PartB());
    PlayedC(s2);
    var s3 := Play(s2, PartC());
    NoneOthers(s3, "a");
    EnteredLoop(s3, 4, "a", {"a", "b", "c"}, {"a"}, {1, 2, 3}, EndRows, 9);
    var s4 := Play(s3, Entering(4, "a"));
    PlayJoin(s2, PartC(), Entering(4, "a"));
    PlayJoin(s1, PartB(), PartC() + Entering(4, "a"));
    PlayJoin(Empty, PartA(), PartB() + (PartC() + Entering(4, "a")));
    LateStartIs(s4);
  }

  lemma NoneOthers(s: Session, run: RunId)
    requires NoneActive(s)
    ensures OthersIdle(s, run)
  {
  }

  lemma LateStartIs(s: Session)
    requires At(s, {"a", "b", "c"}, {"a"} - {"a"}, {1, 2, 3} + {4}, map["a" := 4], EndRows, 9)
    ensures s.rows == EndRows
    ensures LateStart() == PartA() + (PartB() + (PartC() + Entering(4, "a")))
  {
    hide PartA, PartB, PartC, Entering;
  }

  lemma Uncounted(row: Row, rest: seq<Row>)
    ensures TextBytes([row] + rest) == row.text + TextBytes(rest)
    ensures PrivateBytes([row] + rest) == row.private + PrivateBytes(rest)
  {
    ConsTail(row, rest);
  }

  /** The rows of "b" are too many to send. */
  lemma LongBytes()
    ensures Fits(EndRows, 5) && !Fits(EndRows, 1)
  {
    assert EndRows[1..] == [RowB] + ([Long1] + ([Long2] + ([Long3] + ([RowC] + []))));
    assert EndRows[5..] == [RowC] + [];
    Uncounted(RowC, []);
    Uncounted(Long3, [RowC] + []);
    Uncounted(Long2, [Long3] + ([RowC] + []));
    Uncounted(Long1, [Long2] + ([Long3] + ([RowC] + [])));
    Uncounted(RowB, [Long1] + ([Long2] + ([Long3] + ([RowC] + []))));
  }

  /** They are one span, and the row of "a" lies before it. */
  lemma LongSpan()
    ensures Table(EndRows) && Planned(EndRows, "a", Keep(5)) && Holds(EndRows, 0, 5, "a")
  {
    LongBytes();
    hide Fits;
    var rows := EndRows;
    assert SameRun(rows, 1, 4);
    assert Closed(rows, 0, 1) && Closed(rows, 0, 5);
    OlderDoNotFit(rows, 1, 5);
    assert Holds(rows, 0, 5, "a") by { assert rows[0].runId == "a"; }
    assert !Holds(rows, 1, 5, "a");
    hide Closed, BudgetCut, Holds;
    assert PlanAt(rows, "a", Keep(5), 5, 1);
  }

  /** So the promise that the executing run is never dropped fails after an overrun: an
      admissible history in which "a" is the only active run and its worker is in its
      loop, and its snapshot folds the only message of "a". */
  lemma CurrentRunCanBeDropped(summaryLength: SummaryLength)
    ensures Admissible(Empty, LateStart())
    ensures var s := Play(Empty, LateStart());
            && InLoop(s, 4) && s.runtime.threads[4].run == "a" && Active(s, "a") && OthersIdle(s, "a")
            && s.rows == EndRows && Table(s.rows)
            && Snapshotted(s.rows, 0, "a", 0, summaryLength, Snapshot(s.rows[..5], s.rows[5..], Some(4)))
            && Holds(s.rows, 0, 5, "a")
  {
    LateStartPlayed();
    LongSpan();
    DroppedSnapshot(summaryLength);
    var s := Play(Empty, LateStart());
    EmptyKeeps();
    PlayKeeps(Empty, LateStart());
    assert s.runtime.threads[4].run in s.born by { RunBorn(s, 4); }
    hide Planned, Play, Admissible, LateStart, Holds, Snapshotted, Table, OthersIdle;
  }

  lemma DroppedSnapshot(summaryLength: SummaryLength)
    ensures Snapshotted(EndRows, 0, "a", 0, summaryLength, Snapshot(EndRows[..5], EndRows[5..], Some(4)))
  {
    LongSpan();
    hide Planned, Closed;
    var rows := EndRows;
    assert Target(rows, 0) == 0;
    assert !Holds(rows, 0, 0, "a");
    assert rows[0..] == rows && rows[5..][0..] == rows[5..];
    hide Target, Holds;
    assert Trimmed(rows[5..], 0, summaryLength(rows[0..5]), "a", SplitAt(0));
    hide Trimmed;
    SnapshotTaken(rows, 0, 0, 5, 5, "a", 0, summaryLength, Snapshot(rows[..5], rows[5..], Some(4)));
  }
}
