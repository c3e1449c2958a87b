/** Ownership of runs by workers and cancellers (internal/ai/runtime.go). A state
    and one action per critical section or store operation; every interleaving of
    the actions is a behaviour. The class keeps the mutex-guarded part in place. */
module RunOwnership {
  import opened Prelude

  type RunId = string
  type ThreadId = nat

  datatype Status = Queued | Running | PendingApproval | Completed | Failed | Cancelled | Interrupted

  predicate Terminal(s: Status) { s == Completed || s == Failed || s == Cancelled }

  /** Where a Run or Resume worker, or a Cancel call that found no owner, stands. */
  datatype Pc =
    | Waiting    // registered, waiting for a processing slot
    | Entering   // has a slot, has not yet read the run
    | Starting   // has read the run, has not yet stored that it is running
    | Working    // in the model loop
    | Leaving    // returned, before the critical section of finishWorker
    | Closing    // cancelled owner, about to look at the hub and read the status
    | Writing    // cancelled owner, about to write the cancelled status
    | Removing   // about to give up ownership
    | Reserved   // idle Cancel: owns the run, about to read the status
    | Marking    // idle Cancel: about to write the cancelled status
    | Dropping   // idle Cancel: about to give up ownership
    | Gone

  predicate Idle(pc: Pc) { pc == Reserved || pc == Marking || pc == Dropping }

  /** `done`: the worker context is cancelled. `failed`: the call reports a store error. */
  datatype Thread = Thread(run: RunId, pc: Pc, resume: bool, done: bool, failed: bool)

  datatype State = State(cancels: map<RunId, ThreadId>, threads: map<ThreadId, Thread>, status: map<RunId, Status>,
                         unavailable: bool, closing: bool)

  /** What a thread does on its own; store operations carry whether they succeed. */
  datatype Act =
    | Acquire
    | StopWaiting(readOk: bool, ok: bool, failOk: bool)
    | Look(ok: bool)
    | Begin(ok: bool)
    | Fail(ok: bool)
    | Save(status: Status)
    | Stop(ok: bool, failOk: bool)
    | Return
    | Check(readOk: bool)
    | Write(ok: bool, failOk: bool)
    | Read(ok: bool)
    | Mark(ok: bool)

  datatype Step =
    | Start(t: ThreadId, run: RunId, resume: bool)
    | ParentDone(t: ThreadId)
    | Do(t: ThreadId, act: Act)
    | Finish(t: ThreadId)
    | Remove(t: ThreadId)
    | Cancel(t: ThreadId, run: RunId)
    | Drop(t: ThreadId)
    | DeleteProvider(runs: set<RunId>)
    | Close

  // ---- What a thread does to itself and to the status of its run ----

  datatype Effect = Effect(pc: Pc, status: Status, unavailable: bool, failed: bool)

  /** The status write of `cancelled`, with the fallback of `fail`. */
  function WriteCancelled(pc: Pc, e: Effect, ok: bool, failOk: bool): Effect {
    if ok then e.(pc := pc, status := Cancelled)
    else if failOk then e.(pc := pc, status := Failed)
    else e.(pc := pc, unavailable := true)
  }

  /** The status write of `fail`: if even that is lost the hub is shut down. */
  function WriteFailed(e: Effect, ok: bool): Effect {
    if ok then e.(pc := Leaving, status := Failed) else e.(pc := Leaving, unavailable := true)
  }

  /** Only a Resume worker looks at the stored status before it continues. */
  predicate Refuses(x: Thread, status: Status) { x.resume && status != PendingApproval }

  /** In the model loop, or carrying out the decision of a Resume before it. */
  predicate InRun(x: Thread) { x.pc == Working || (x.pc == Starting && x.resume) }

  /** The effect of an action of thread x; an action that is not enabled has none. */
  function Effects(x: Thread, status: Status, unavailable: bool, act: Act): Effect {
    var e := Effect(x.pc, status, unavailable, x.failed);
    match act
    case Acquire => if x.pc == Waiting then e.(pc := Entering) else e
    case StopWaiting(readOk, ok, failOk) =>
      if x.pc != Waiting || !x.done then e
      else if readOk then WriteCancelled(Leaving, e, ok, failOk)
      else e.(pc := Leaving, unavailable := true)
    case Look(ok) =>
      if x.pc != Entering then e
      else if !ok || Refuses(x, status) then e.(pc := Leaving)
      else e.(pc := Starting)
    case Begin(ok) =>
      if x.pc != Starting then e
      else if !ok then e.(pc := Leaving)
      else e.(pc := Working, status := Running)
    case Fail(ok) => if InRun(x) then WriteFailed(e, ok) else e
    case Save(saved) =>
      if x.pc != Working then e
      else if saved == Running then e.(status := Running)
      else if saved == PendingApproval || saved == Completed then e.(pc := Leaving, status := saved)
      else e
    case Stop(ok, failOk) => if x.pc == Working && x.done then WriteCancelled(Leaving, e, ok, failOk) else e
    case Return => if InRun(x) then e.(pc := Leaving) else e
    case Check(readOk) =>
      if x.pc != Closing then e
      else if unavailable then e.(pc := Removing)
      else if !readOk then e.(pc := Removing, unavailable := true)
      else if Terminal(status) then e.(pc := Removing)
      else e.(pc := Writing)
    case Write(ok, failOk) => if x.pc == Writing then WriteCancelled(Removing, e, ok, failOk) else e
    case Read(ok) =>
      if x.pc != Reserved then e
      else if !ok then e.(pc := Dropping, failed := true)
      else if Terminal(status) then e.(pc := Dropping)
      else e.(pc := Marking)
    case Mark(ok) =>
      if x.pc != Marking then e
      else if !ok then e.(pc := Dropping, failed := true)
      else e.(pc := Dropping, status := Cancelled)
  }

  // ---- The actions on the shared state ----

  function StatusOf(s: State, run: RunId): Status { if run in s.status then s.status[run] else Queued }

  function Owner(s: State, t: ThreadId): bool {
    t in s.threads && s.threads[t].run in s.cancels && s.cancels[s.threads[t].run] == t
  }

  function SetDone(s: State, t: ThreadId): State
    requires t in s.threads
  {
    s.(threads := s.threads[t := s.threads[t].(done := true)])
  }

  /** Gives up ownership: the entry of the run leaves the cancels map. */
  function Leave(s: State, t: ThreadId): State
    requires t in s.threads
  {
    s.(threads := s.threads[t := s.threads[t].(pc := Gone)], cancels := s.cancels - {s.threads[t].run})
  }

  function Register(s: State, t: ThreadId, thread: Thread): State {
    s.(cancels := s.cancels[thread.run := t], threads := s.threads[t := thread])
  }

  function Perform(s: State, t: ThreadId, act: Act): State
    requires t in s.threads
  {
    var x := s.threads[t];
    var e := Effects(x, StatusOf(s, x.run), s.unavailable, act);
    s.(threads := s.threads[t := x.(pc := e.pc, failed := e.failed)], status := s.status[x.run := e.status], unavailable := e.unavailable)
  }

  function CloseAll(s: State): State {
    s.(closing := true,
       threads := map t | t in s.threads ::
         s.threads[t].(done := s.threads[t].done || (Owner(s, t) && !Idle(s.threads[t].pc))))
  }

  /** Deleting a provider, of which `runs` are the runs, is refused while one of them is
      queued or running, and cancels those that wait for an approval. */
  predicate Deletable(s: State, runs: set<RunId>) {
    forall r :: r in runs ==> StatusOf(s, r) != Queued && StatusOf(s, r) != Running
  }

  function Deleted(s: State, runs: set<RunId>): State {
    if !Deletable(s, runs) then s
    else s.(status := map r | r in s.status :: if r in runs && s.status[r] == PendingApproval then Status.Cancelled else s.status[r])
  }

  lemma DeletedStatus(s: State, runs: set<RunId>, r: RunId)
    ensures StatusOf(Deleted(s, runs), r)
            == if Deletable(s, runs) && r in runs && StatusOf(s, r) == PendingApproval then Status.Cancelled else StatusOf(s, r)
  {
  }

  /** The state after a step; a step that is not enabled changes nothing. */
  function Next(s: State, step: Step): State {
    match step
    case Start(t, run, resume) =>
      if s.closing || run in s.cancels || t in s.threads then s
      else Register(s, t, Thread(run, Waiting, resume, false, false))
    case ParentDone(t) => if t in s.threads && !Idle(s.threads[t].pc) then SetDone(s, t) else s
    case Do(t, act) => if t in s.threads && s.threads[t].pc != Gone then Perform(s, t, act) else s
    case Finish(t) =>
      if t !in s.threads || s.threads[t].pc != Leaving then s
      else if s.threads[t].done then s.(threads := s.threads[t := s.threads[t].(pc := Closing)])
      else Leave(s, t)
    case Remove(t) => if t in s.threads && s.threads[t].pc == Removing then Leave(s, t) else s
    case Cancel(t, run) =>
      if run in s.cancels then
        var owner := s.cancels[run];
        if owner in s.threads && !Idle(s.threads[owner].pc) then SetDone(s, owner) else s
      else if t in s.threads then s
      else Register(s, t, Thread(run, Reserved, false, false, false))
    case Drop(t) => if t in s.threads && s.threads[t].pc == Dropping then Leave(s, t) else s
    case DeleteProvider(runs) => Deleted(s, runs)
    case Close => CloseAll(s)
  }

  // ---- The invariant ----

  /** The cancels map and the threads agree: a thread that has not given up owns
      its run, so that a run has at most one owner. */
  ghost predicate OwnersOk(s: State) {
    && (forall r :: r in s.cancels ==> s.cancels[r] in s.threads && s.threads[s.cancels[r]].run == r
                                       && s.threads[s.cancels[r]].pc != Gone)
    && (forall t :: t in s.threads && s.threads[t].pc != Gone ==> Owner(s, t))
  }

  /** A thread about to give up a cancelled run has made it durable, unless the
      hub has been shut down or the call reports its error. */
  predicate Settled(x: Thread, status: Status, unavailable: bool) {
    && (x.pc == Removing ==> x.done && (unavailable || Terminal(status)))
    && (x.pc == Closing || x.pc == Writing ==> x.done)
    && (x.pc == Dropping && !x.failed ==> Terminal(status))
    && (Idle(x.pc) ==> !x.done)
    && (x.pc == Working ==> status == Running)
    && (x.pc == Starting && x.resume ==> status == PendingApproval || Terminal(status))
  }

  predicate SettledIn(s: State, t: ThreadId)
    requires t in s.threads
  {
    Settled(s.threads[t], StatusOf(s, s.threads[t].run), s.unavailable)
  }

  ghost predicate AllSettled(s: State) { forall t :: t in s.threads ==> SettledIn(s, t) }

  ghost predicate Inv(s: State) { OwnersOk(s) && AllSettled(s) }

  lemma OneOwner(s: State, t: ThreadId, u: ThreadId)
    requires OwnersOk(s) && t in s.threads && u in s.threads && t != u
    requires s.threads[t].pc != Gone && s.threads[u].pc != Gone
    ensures s.threads[t].run != s.threads[u].run
  {
    assert Owner(s, t) && Owner(s, u);
  }

  /** The store operations of an action succeed. */
  predicate Works(act: Act) {
    match act
    case StopWaiting(readOk, ok, _) => readOk && ok
    case Fail(ok) => ok
    case Stop(ok, _) => ok
    case Check(readOk) => readOk
    case Write(ok, _) => ok
    case _ => true
  }

  /** An action keeps its thread settled, and only a failed store operation shuts
      the hub down. */
  lemma EffectsSettle(x: Thread, status: Status, unavailable: bool, act: Act)
    requires Settled(x, status, unavailable) && x.pc != Gone
    ensures var e := Effects(x, status, unavailable, act);
            && Settled(x.(pc := e.pc, failed := e.failed), e.status, e.unavailable)
            && e.pc != Gone && (Idle(x.pc) <==> Idle(e.pc)) && (unavailable ==> e.unavailable)
            && (e.unavailable ==> unavailable || !Works(act))
  {
  }

  lemma PerformOwners(s: State, t: ThreadId, act: Act)
    requires OwnersOk(s) && t in s.threads && s.threads[t].pc != Gone && Perform(s, t, act).threads[t].pc != Gone
    ensures OwnersOk(Perform(s, t, act))
  {
    var s' := Perform(s, t, act);
    hide Effects;
    forall u | u in s'.threads && s'.threads[u].pc != Gone ensures Owner(s', u) { assert u != t ==> Owner(s, u); assert Owner(s, t); }
  }

  lemma PerformSettles(s: State, t: ThreadId, act: Act)
    requires Inv(s) && t in s.threads && s.threads[t].pc != Gone
    ensures Perform(s, t, act).threads[t].pc != Gone && AllSettled(Perform(s, t, act))
  {
    var x, s' := s.threads[t], Perform(s, t, act);
    assert SettledIn(s, t);
    EffectsSettle(x, StatusOf(s, x.run), s.unavailable, act);
    hide Effects;
    forall u | u in s'.threads ensures SettledIn(s', u) {
      assert SettledIn(s, u);
      if u != t && s.threads[u].pc != Gone { OneOwner(s, t, u); }
    }
  }

  lemma LeaveKeeps(s: State, t: ThreadId)
    requires Inv(s) && t in s.threads && s.threads[t].pc != Gone
    ensures Inv(Leave(s, t))
  {
    LeaveOwners(s, t);
    var s' := Leave(s, t);
    forall u | u in s'.threads ensures SettledIn(s', u) { assert SettledIn(s, u); }
    hide OwnersOk, SettledIn, Leave;
  }

  lemma LeaveOwners(s: State, t: ThreadId)
    requires OwnersOk(s) && t in s.threads && s.threads[t].pc != Gone
    ensures OwnersOk(Leave(s, t))
  {
    var s' := Leave(s, t);
    forall u | u in s'.threads && s'.threads[u].pc != Gone ensures Owner(s', u) {
      assert Owner(s, u);
      OneOwner(s, t, u);
    }
    hide Owner;
  }

  lemma RegisterKeeps(s: State, t: ThreadId, thread: Thread)
    requires Inv(s) && thread.run !in s.cancels && t !in s.threads
    requires (thread.pc == Waiting || thread.pc == Reserved) && !thread.done
    ensures Inv(Register(s, t, thread))
  {
    RegisterOwners(s, t, thread);
    var s' := Register(s, t, thread);
    forall u | u in s'.threads ensures SettledIn(s', u) { assert u != t ==> SettledIn(s, u); }
    hide OwnersOk, SettledIn;
  }

  lemma RegisterOwners(s: State, t: ThreadId, thread: Thread)
    requires OwnersOk(s) && thread.run !in s.cancels && t !in s.threads && thread.pc != Gone
    ensures OwnersOk(Register(s, t, thread))
  {
    var s' := Register(s, t, thread);
    forall u | u in s'.threads && s'.threads[u].pc != Gone ensures Owner(s', u) { assert u != t ==> Owner(s, u); }
    hide Owner;
  }

  lemma DeleteKeeps(s: State, runs: set<RunId>)
    requires Inv(s)
    ensures Inv(Deleted(s, runs))
  {
    var s' := Deleted(s, runs);
    StatusApart(s, s'.status);
    assert s' == s.(status := s'.status);
    forall u | u in s'.threads ensures SettledIn(s', u) {
      assert SettledIn(s, u);
      DeletedStatus(s, runs, s.threads[u].run);
    }
    hide OwnersOk, SettledIn, Deleted;
  }

  /** Threads that only become done, or leave the loop cancelled. */
  ghost predicate OnlyDone(s: State, s': State) {
    && s'.cancels == s.cancels && s'.status == s.status && s'.unavailable == s.unavailable
    && s'.threads.Keys == s.threads.Keys
    && forall t :: t in s.threads ==> LittleChange(s.threads[t], s'.threads[t])
  }

  predicate LittleChange(x: Thread, y: Thread) {
    (y == x || y == x.(done := true) || (x.pc == Leaving && x.done && y == x.(pc := Closing))) && (Idle(x.pc) ==> y == x)
  }

  lemma OnlyDoneOwners(s: State, s': State)
    requires OwnersOk(s) && OnlyDone(s, s')
    ensures OwnersOk(s')
  {
    forall u | u in s'.threads && s'.threads[u].pc != Gone ensures Owner(s', u) { assert Owner(s, u); }
    forall r | r in s'.cancels ensures s'.cancels[r] in s'.threads && s'.threads[s'.cancels[r]].run == r
                                       && s'.threads[s'.cancels[r]].pc != Gone {
      assert LittleChange(s.threads[s.cancels[r]], s'.threads[s.cancels[r]]);
    }
    hide Owner, OnlyDone;
  }

  lemma SameButDone(s: State, s': State)
    requires Inv(s) && OnlyDone(s, s')
    ensures Inv(s')
  {
    OnlyDoneOwners(s, s');
    hide OwnersOk;
    forall u | u in s'.threads ensures SettledIn(s', u) {
      assert SettledIn(s, u) && LittleChange(s.threads[u], s'.threads[u]);
      LittleSettled(s.threads[u], s'.threads[u], StatusOf(s, s.threads[u].run), s.unavailable);
    }
    hide *;
  }

  lemma LittleSettled(x: Thread, y: Thread, status: Status, unavailable: bool)
    requires LittleChange(x, y) && Settled(x, status, unavailable)
    ensures y.run == x.run && Settled(y, status, unavailable)
  {
  }

  /** The stored status has no part in ownership. */
  lemma StatusApart(s: State, status: map<RunId, Status>)
    requires OwnersOk(s)
    ensures OwnersOk(s.(status := status))
  {
    var s' := s.(status := status);
    forall u | u in s'.threads && s'.threads[u].pc != Gone ensures Owner(s', u) { assert Owner(s, u); }
  }

  /** Every action in every reachable state keeps the invariant. */
  lemma StepKeeps(s: State, step: Step)
    requires Inv(s)
    ensures Inv(Next(s, step))
  {
    if Marks(s, step) {
      MarksOnly(s, step);
      SameButDone(s, Next(s, step));
      hide Inv, Next, OnlyDone;
    } else {
      hide Inv, Perform, Leave, Register, Owner, CloseAll, Idle, Deleted;
      match step
      case Start(t, run, resume) =>
        if !s.closing && run !in s.cancels && t !in s.threads { RegisterKeeps(s, t, Thread(run, Waiting, resume, false, false)); }
      case Do(t, act) => if t in s.threads && s.threads[t].pc != Gone { PerformKeeps(s, t, act); }
      case Remove(t) => if t in s.threads && s.threads[t].pc == Removing { LeaveKeeps(s, t); }
      case Drop(t) => if t in s.threads && s.threads[t].pc == Dropping { LeaveKeeps(s, t); }
      case Finish(t) => LeaveKeeps(s, t);
      case DeleteProvider(runs) => DeleteKeeps(s, runs);
      case Cancel(t, run) => RegisterKeeps(s, t, Thread(run, Reserved, false, false, false));
    }
  }

  lemma PerformKeeps(s: State, t: ThreadId, act: Act)
    requires Inv(s) && t in s.threads && s.threads[t].pc != Gone
    ensures Inv(Perform(s, t, act))
  {
    PerformSettles(s, t, act);
    PerformOwners(s, t, act);
    hide Perform, OwnersOk, AllSettled;
  }

  // ---- Ownership over one step ----

  predicate GivesUp(s: State, step: Step, t: ThreadId) {
    t in s.threads
    && ((step == Finish(t) && s.threads[t].pc == Leaving && !s.threads[t].done)
        || (step == Remove(t) && s.threads[t].pc == Removing)
        || (step == Drop(t) && s.threads[t].pc == Dropping))
  }

  lemma LeaveOther(s: State, t: ThreadId, u: ThreadId)
    requires Inv(s) && Owner(s, t) && u != t && u in s.threads && s.threads[u].pc != Gone
    ensures Owner(Leave(s, u), t)
  {
    OneOwner(s, t, u);
  }

  lemma RegisterOther(s: State, t: ThreadId, u: ThreadId, thread: Thread)
    requires Owner(s, t) && u !in s.threads && thread.run !in s.cancels
    ensures Owner(Register(s, u, thread), t)
  {
  }

  lemma PerformOwner(s: State, t: ThreadId, u: ThreadId, act: Act)
    requires Owner(s, t) && u in s.threads
    ensures Owner(Perform(s, u, act), t)
  {
    hide Effects;
  }

  lemma DeleteOwner(s: State, t: ThreadId, runs: set<RunId>)
    requires Owner(s, t)
    ensures Owner(Deleted(s, runs), t) && GivesUp(s, DeleteProvider(runs), t) == false
  {
  }

  lemma SameOwner(s: State, s': State, t: ThreadId)
    requires Owner(s, t) && OnlyDone(s, s')
    ensures Owner(s', t)
  {
    assert LittleChange(s.threads[t], s'.threads[t]);
  }

  /** An owner stays the owner until it gives up itself. */
  lemma OwnerStays(s: State, step: Step, t: ThreadId)
    requires Inv(s) && Owner(s, t)
    ensures GivesUp(s, step, t) ==> Next(s, step) == Leave(s, t)
    ensures !GivesUp(s, step, t) ==> Owner(Next(s, step), t)
  {
    OwnerAlive(s, t);
    if Marks(s, step) {
      MarksOnly(s, step);
      SameOwner(s, Next(s, step), t);
      hide Inv, Next, OnlyDone, Owner, Leave;
    } else {
      hide Inv, Perform, Leave, Register, Owner, CloseAll, Idle;
      match step
      case Start(u, run, resume) =>
        if !s.closing && run !in s.cancels && u !in s.threads { RegisterOther(s, t, u, Thread(run, Waiting, resume, false, false)); }
      case Do(u, act) => if u in s.threads && s.threads[u].pc != Gone { PerformOwner(s, t, u, act); }
      case Remove(u) => if u != t && u in s.threads && s.threads[u].pc == Removing { LeaveOther(s, t, u); }
      case Drop(u) => if u != t && u in s.threads && s.threads[u].pc == Dropping { LeaveOther(s, t, u); }
      case Finish(u) => if u != t { LeaveOther(s, t, u); }
      case Cancel(u, run) => RegisterOther(s, t, u, Thread(run, Reserved, false, false, false));
      case DeleteProvider(runs) => DeleteOwner(s, t, runs);
    }
  }

  /** The steps that touch neither ownership nor the stored status. */
  predicate Marks(s: State, step: Step) {
    match step
    case ParentDone(_) => true
    case Finish(t) => !(t in s.threads && s.threads[t].pc == Leaving && !s.threads[t].done)
    case Cancel(t, run) => run in s.cancels || t in s.threads
    case Close => true
    case _ => false
  }

  lemma MarksOnly(s: State, step: Step)
    requires Marks(s, step)
    ensures OnlyDone(s, Next(s, step))
  {
    if step.Close? { CloseDone(s); }
    hide Owner, CloseAll, Effects, Perform, Register, OnlyDone;
    NoneChanged(s);
    match step
    case ParentDone(t) => if t in s.threads && !Idle(s.threads[t].pc) { OneChanged(s, t, s.threads[t].(done := true)); }
    case Finish(t) => if t in s.threads && s.threads[t].pc == Leaving { OneChanged(s, t, s.threads[t].(pc := Closing)); }
    case Cancel(t, run) =>
      if run in s.cancels {
        var owner := s.cancels[run];
        if owner in s.threads && !Idle(s.threads[owner].pc) { OneChanged(s, owner, s.threads[owner].(done := true)); }
      }
    case Close =>
  }

  lemma NoneChanged(s: State)
    ensures OnlyDone(s, s)
  {
  }

  lemma OneChanged(s: State, t: ThreadId, y: Thread)
    requires t in s.threads && LittleChange(s.threads[t], y)
    ensures OnlyDone(s, s.(threads := s.threads[t := y]))
  {
  }

  lemma OwnerAlive(s: State, t: ThreadId)
    requires Inv(s) && Owner(s, t)
    ensures s.threads[t].pc != Gone
  {
    assert s.cancels[s.threads[t].run] == t;
  }

  lemma CloseDone(s: State)
    ensures OnlyDone(s, CloseAll(s))
  {
    hide Owner;
  }

  /** When a cancelled owner gives up, the stored status is terminal, or the hub
      has been shut down until restart because the store failed. */
  lemma CancelledOwnerSettles(s: State, step: Step, t: ThreadId)
    requires Inv(s) && Owner(s, t) && s.threads[t].done && GivesUp(s, step, t)
    ensures var s', r := Next(s, step), s.threads[t].run;
            r !in s'.cancels && (s'.unavailable || Terminal(StatusOf(s', r)))
  {
    OwnerStays(s, step, t);
    assert SettledIn(s, t);
    hide Inv, Next;
  }

  /** When an idle Cancel gives up without reporting an error, the status is terminal. */
  lemma IdleCancelSettles(s: State, step: Step, t: ThreadId)
    requires Inv(s) && Owner(s, t) && Idle(s.threads[t].pc) && !s.threads[t].failed && GivesUp(s, step, t)
    ensures var s', r := Next(s, step), s.threads[t].run; r !in s'.cancels && Terminal(StatusOf(s', r))
  {
    OwnerStays(s, step, t);
    assert SettledIn(s, t);
    hide Inv, Next;
  }

  lemma DoneStays(s: State, step: Step, t: ThreadId)
    requires t in s.threads && s.threads[t].done
    ensures var s' := Next(s, step); t in s'.threads && s'.threads[t].done && s'.threads[t].run == s.threads[t].run
  {
    hide Effects, Idle, Owner;
  }

  // ---- Whole runs ----

  function Exec(s: State, steps: seq<Step>): State
    decreases |steps|
  {
    if steps == [] then s else Exec(Next(s, steps[0]), steps[1..])
  }

  lemma {:induction false} ExecKeeps(s: State, steps: seq<Step>)
    requires Inv(s)
    ensures Inv(Exec(s, steps))
    decreases |steps|
  {
    if steps != [] {
      StepKeeps(s, steps[0]);
      hide Next, Inv;
      ExecKeeps(Next(s, steps[0]), steps[1..]);
    }
  }

  /** No cancellation is lost: once the context of the owner of a run is cancelled,
      then after any further steps either it still owns the run and is cancelled,
      or at some step k it gave up, with no other owner up to then and the status
      of the run terminal (or the hub shut down). */
  lemma {:induction false} CancellationNeverLost(s: State, steps: seq<Step>, t: ThreadId) returns (k: nat)
    requires Inv(s) && Owner(s, t) && s.threads[t].done
    ensures k <= |steps|
    ensures forall i :: 0 <= i <= k ==> Owner(Exec(s, steps[..i]), t)
    ensures k < |steps| ==>
              var after, r := Exec(s, steps[..k + 1]), s.threads[t].run;
              r !in after.cancels && (after.unavailable || Terminal(StatusOf(after, r)))
    decreases |steps|
  {
    k := 0;
    assert steps[..0] == [];
    if steps != [] {
      var s' := Next(s, steps[0]);
      assert steps[..1] == [steps[0]];
      ExecOne(s, steps[0]);
      OwnerStays(s, steps[0], t);
      hide Next, Inv;
      if !GivesUp(s, steps[0], t) {
        StepKeeps(s, steps[0]);
        DoneStays(s, steps[0], t);
        hide Owner, GivesUp;
        var n := CancellationNeverLost(s', steps[1..], t);
        k := n + 1;
        hide *;
        forall i | 1 <= i <= |steps| ensures Exec(s, steps[..i]) == Exec(s', steps[1..][..i - 1]) {
          ExecTail(s, steps, i);
        }
        ExecNone(s);
      } else {
        CancelledOwnerSettles(s, steps[0], t);
      }
    }
  }

  lemma ExecOne(s: State, step: Step)
    ensures Exec(s, [step]) == Next(s, step)
  {
    hide Next;
  }

  lemma ExecTail(s: State, steps: seq<Step>, i: nat)
    requires 1 <= i <= |steps|
    ensures Exec(s, steps[..i]) == Exec(Next(s, steps[0]), steps[1..][..i - 1])
  {
    hide Next;
    assert steps[..i][1..] == steps[1..][..i - 1];
  }

  predicate StoreWorks(step: Step) { step.Do? ==> Works(step.act) }

  /** With a working store the hub is never shut down, so that the status of every
      run given up by a cancelled owner is terminal. */
  lemma {:induction false} WorkingStore(s: State, steps: seq<Step>)
    requires !s.unavailable && forall i :: 0 <= i < |steps| ==> StoreWorks(steps[i])
    ensures !Exec(s, steps).unavailable
    decreases |steps|
  {
    if steps != [] {
      assert StoreWorks(steps[0]);
      assert !Next(s, steps[0]).unavailable;
      hide Next, StoreWorks;
      forall i | 0 <= i < |steps[1..]| ensures StoreWorks(steps[1..][i]) { assert steps[1..][i] == steps[i + 1]; }
      WorkingStore(Next(s, steps[0]), steps[1..]);
    }
  }

  // ---- Which status is stored ----

  /** The writes of `cancelled`: on the way out of the queue, out of the model loop, in
      the cleanup of a cancelled owner, and by an idle Cancel. */
  predicate StoresCancelled(x: Thread, act: Act) {
    match act
    case StopWaiting(readOk, ok, _) => x.pc == Waiting && x.done && readOk && ok
    case Stop(ok, _) => x.pc == Working && x.done && ok
    case Write(ok, _) => x.pc == Writing && ok
    case Mark(ok) => x.pc == Marking && ok
    case _ => false
  }

  /** The writes of `fail`: for an error in the run, and where the writes of a worker's
      `cancelled` fail. */
  predicate StoresFailed(x: Thread, act: Act) {
    match act
    case Fail(ok) => InRun(x) && ok
    case StopWaiting(readOk, ok, failOk) => x.pc == Waiting && x.done && readOk && !ok && failOk
    case Stop(ok, failOk) => x.pc == Working && x.done && !ok && failOk
    case Write(ok, failOk) => x.pc == Writing && !ok && failOk
    case _ => false
  }

  predicate StoresCompleted(x: Thread, act: Act) { x.pc == Working && act == Save(Completed) }

  lemma EffectStores(x: Thread, status: Status, unavailable: bool, act: Act)
    ensures var e := Effects(x, status, unavailable, act);
            && (StoresCancelled(x, act) ==> e.status == Status.Cancelled)
            && (StoresFailed(x, act) ==> e.status == Failed)
            && (StoresCompleted(x, act) ==> e.status == Completed)
            && (!StoresCancelled(x, act) && !StoresFailed(x, act) && !StoresCompleted(x, act) && Terminal(e.status) ==> e.status == status)
  {
  }

  /** A run becomes completed exactly by the save of a working owner, failed exactly by
      the writes of `fail`, and cancelled exactly by the writes of `cancelled` or when the
      provider is deleted while the run waits for an approval. */
  lemma StoredIff(s: State, step: Step, r: RunId)
    ensures var before, after, acts := StatusOf(s, r), StatusOf(Next(s, step), r),
              step.Do? && Acts(s, step, step.t) && s.threads[step.t].run == r;
            && (after == Completed && before != Completed <==>
                  before != Completed && acts && StoresCompleted(s.threads[step.t], step.act))
            && (after == Failed && before != Failed <==>
                  before != Failed && acts && StoresFailed(s.threads[step.t], step.act))
            && (after == Status.Cancelled && before != Status.Cancelled <==>
                  && before != Status.Cancelled
                  && ((acts && StoresCancelled(s.threads[step.t], step.act))
                      || (step.DeleteProvider? && Deletable(s, step.runs) && r in step.runs && before == PendingApproval)))
  {
    StatusOver(s, step, r);
    if step.Do? && Acts(s, step, step.t) && s.threads[step.t].run == r {
      EffectStores(s.threads[step.t], StatusOf(s, r), s.unavailable, step.act);
    }
    if step.DeleteProvider? { DeletedStatus(s, step.runs, r); }
    hide *;
    TerminalIs();
  }

  lemma TerminalIs()
    ensures Terminal(Completed) && Terminal(Failed) && Terminal(Status.Cancelled)
    ensures forall x: Thread, act: Act :: StoresCompleted(x, act) ==> !StoresFailed(x, act) && !StoresCancelled(x, act)
    ensures forall x: Thread, act: Act :: StoresFailed(x, act) ==> !StoresCancelled(x, act)
  {
  }

  /** The owner itself stores that its run completed, or failed. */
  predicate Ends(s: State, step: Step, t: ThreadId, status: Status) {
    && Acts(s, step, t)
    && ((status == Completed && StoresCompleted(s.threads[t], step.act)) || (status == Failed && StoresFailed(s.threads[t], step.act)))
  }

  ghost predicate Ended(s: State, steps: seq<Step>, k: nat, t: ThreadId, status: Status) {
    k <= |steps| && exists i :: 0 <= i < k && Ends(Exec(s, steps[..i]), steps[i], t, status)
  }

  /** On its way out, with a terminal status. */
  predicate Over(s: State, t: ThreadId) {
    t in s.threads && (s.threads[t].pc == Leaving || s.threads[t].pc == Closing || s.threads[t].pc == Removing)
    && Terminal(StatusOf(s, s.threads[t].run))
  }

  lemma EffectOver(x: Thread, status: Status, unavailable: bool, act: Act)
    ensures var e := Effects(x, status, unavailable, act);
            && ((x.pc == Leaving || x.pc == Closing || x.pc == Removing) && Terminal(status) ==>
                  (e.pc == Leaving || e.pc == Closing || e.pc == Removing) && e.status == status)
            && (StoresCompleted(x, act) || (StoresFailed(x, act) && Works(act)) ==> e.pc == Leaving)
            && (x.pc == Leaving || x.pc == Closing || x.pc == Removing ==> !StoresCompleted(x, act) && !StoresFailed(x, act))
  {
  }

  /** One step while the owner keeps its run. */
  lemma OwnStep(s: State, step: Step, t: ThreadId)
    requires Inv(s) && Owner(s, t) && Owner(Next(s, step), t) && StoreWorks(step)
    ensures var s', r := Next(s, step), s.threads[t].run;
            var before, after := StatusOf(s, r), StatusOf(s', r);
            && (forall f :: Ends(s, step, t, f) ==> after == f && Over(s', t))
            && (!Ends(s, step, t, after) && after != before ==> after != Completed && after != Failed)
            && (Over(s, t) ==> Over(s', t) && after == before && forall f :: !Ends(s, step, t, f))
  {
    var x := s.threads[t];
    var r := x.run;
    OwnerAlive(s, t);
    OwnerAliveNext(s, step, t);
    StoredIff(s, step, r);
    StatusOver(s, step, r);
    ThreadOver(s, step, t);
    if step.DeleteProvider? { DeletedStatus(s, step.runs, r); }
    if step.Do? && Acts(s, step, step.t) {
      if step.t == t {
        EffectOver(x, StatusOf(s, r), s.unavailable, step.act);
        EffectStores(x, StatusOf(s, r), s.unavailable, step.act);
      } else {
        OneOwner(s, t, step.t);
      }
    }
    hide Inv, Next, Effects, StatusOf, Deleted, StoresCompleted, StoresFailed, StoresCancelled;
  }

  lemma EndedTail(s: State, steps: seq<Step>, k: nat, t: ThreadId, status: Status)
    requires 1 <= k <= |steps|
    ensures Ended(s, steps, k, t, status)
            <==> Ends(s, steps[0], t, status) || Ended(Next(s, steps[0]), steps[1..], k - 1, t, status)
  {
    hide Next, Ends;
    var s', rest := Next(s, steps[0]), steps[1..];
    assert steps[..0] == [];
    forall i | 1 <= i < k ensures Exec(s, steps[..i]) == Exec(s', rest[..i - 1]) && steps[i] == rest[i - 1] { ExecTail(s, steps, i); }
    if Ended(s', rest, k - 1, t, status) {
      var j :| 0 <= j < k - 1 && Ends(Exec(s', rest[..j]), rest[j], t, status);
      assert Ends(Exec(s, steps[..j + 1]), steps[j + 1], t, status);
    }
    if Ends(s, steps[0], t, status) { assert Ends(Exec(s, steps[..0]), steps[0], t, status); }
  }

  /** Up to the step k at which the owner gives up, its run stays its own. */
  ghost predicate KeepsUntil(s: State, steps: seq<Step>, k: nat, t: ThreadId) {
    && k < |steps| && (forall i :: 0 <= i <= k ==> Owner(Exec(s, steps[..i]), t))
    && !Owner(Exec(s, steps[..k + 1]), t)
    && forall i :: 0 <= i < |steps| ==> StoreWorks(steps[i])
  }

  lemma KeepsTail(s: State, steps: seq<Step>, k: nat, t: ThreadId)
    requires k < |steps| && KeepsUntil(s, steps, k, t)
    ensures Owner(s, t) && StoreWorks(steps[0])
    ensures k > 0 ==> Owner(Next(s, steps[0]), t) && KeepsUntil(Next(s, steps[0]), steps[1..], k - 1, t)
    ensures k == 0 ==> !Owner(Next(s, steps[0]), t) && Exec(s, steps[..k + 1]) == Next(s, steps[0])
    ensures k > 0 ==> Exec(s, steps[..k + 1]) == Exec(Next(s, steps[0]), steps[1..][..k])
  {
    var s', rest := Next(s, steps[0]), steps[1..];
    hide Next, Owner, StoreWorks;
    assert steps[..0] == [];
    ExecNone(s);
    ExecNone(s');
    ExecTail(s, steps, k + 1);
    if k > 0 {
      ExecTail(s, steps, 1);
      forall i | 0 <= i <= k - 1 ensures Owner(Exec(s', rest[..i]), t) { ExecTail(s, steps, i + 1); }
      forall i | 0 <= i < |rest| ensures StoreWorks(rest[i]) { assert rest[i] == steps[i + 1]; }
    }
  }

  /** What a cancelled owner leaves behind when it gives its run up: completed or failed
      exactly if it stored that itself before, unless it had been stored before s and
      stayed; cancelled otherwise. */
  lemma {:induction false} LeavesCancelled(s: State, steps: seq<Step>, k: nat, t: ThreadId)
    requires Inv(s) && t in s.threads && s.threads[t].done && !s.unavailable
    requires k < |steps| && KeepsUntil(s, steps, k, t)
    ensures var r := s.threads[t].run;
            var before, after := StatusOf(s, r), StatusOf(Exec(s, steps[..k + 1]), r);
            && (before != Completed && before != Failed ==>
                  && (after == Completed <==> Ended(s, steps, k, t, Completed))
                  && (after == Failed <==> Ended(s, steps, k, t, Failed)))
            && (after == Completed || after == Failed ==>
                  Ended(s, steps, k, t, after) || forall i :: 0 <= i <= k ==> StatusOf(Exec(s, steps[..i]), r) == after)
            && (Over(s, t) ==> after == before && !Ended(s, steps, k, t, Completed) && !Ended(s, steps, k, t, Failed))
    decreases k
  {
    hide *;
    var s', r := Next(s, steps[0]), s.threads[t].run;
    KeepsTail(s, steps, k, t);
    if k == 0 {
      LeaveStatus(s, steps[0], t);
      NotEnded(s, steps, t);
      ExecNone(s);
      assert steps[..0] == [];
    } else {
      StepKeeps(s, steps[0]);
      DoneStays(s, steps[0], t);
      OwnStep(s, steps[0], t);
      StaysAvailable(s, steps[0]);
      LeavesCancelled(s', steps[1..], k - 1, t);
      EndedTail(s, steps, k, t, Completed);
      EndedTail(s, steps, k, t, Failed);
      var after := StatusOf(Exec(s, steps[..k + 1]), r);
      if forall i :: 0 <= i <= k - 1 ==> StatusOf(Exec(s', steps[1..][..i]), r) == after {
        SameThroughout(s, steps, k, r, after);
      }
    }
  }

  lemma SameThroughout(s: State, steps: seq<Step>, k: nat, r: RunId, status: Status)
    requires 1 <= k <= |steps|
    requires forall i :: 0 <= i <= k - 1 ==> StatusOf(Exec(Next(s, steps[0]), steps[1..][..i]), r) == status
    ensures StatusOf(Next(s, steps[0]), r) == status
    ensures StatusOf(s, r) == status ==> forall i :: 0 <= i <= k ==> StatusOf(Exec(s, steps[..i]), r) == status
  {
    hide Next, StatusOf;
    var s', rest := Next(s, steps[0]), steps[1..];
    assert rest[..0] == [] && steps[..0] == [];
    ExecNone(s);
    ExecNone(s');
    assert StatusOf(Exec(s', rest[..0]), r) == status;
    if StatusOf(s, r) == status {
      forall i | 0 <= i <= k ensures StatusOf(Exec(s, steps[..i]), r) == status {
        if i > 0 { ExecTail(s, steps, i); }
      }
    }
  }

  lemma LeaveStatus(s: State, step: Step, t: ThreadId)
    requires Inv(s) && Owner(s, t) && !Owner(Next(s, step), t)
    ensures StatusOf(Next(s, step), s.threads[t].run) == StatusOf(s, s.threads[t].run)
  {
    OwnerStays(s, step, t);
    hide Inv, Next, GivesUp, Owner;
  }

  lemma NotEnded(s: State, steps: seq<Step>, t: ThreadId)
    ensures forall f :: !Ended(s, steps, 0, t, f)
  {
  }

  lemma StaysAvailable(s: State, step: Step)
    requires !s.unavailable && StoreWorks(step)
    ensures !Next(s, step).unavailable
  {
  }

  /** With a working store no cancellation is lost: a cancelled owner keeps its run
      up to the step at which it gives it up. The status is then cancelled, unless the
      owner itself stored that the run completed or failed before it noticed, or that
      had been stored before and stayed. */
  lemma CancellationSettles(s: State, steps: seq<Step>, t: ThreadId) returns (k: nat)
    requires Inv(s) && Owner(s, t) && s.threads[t].done
    requires !s.unavailable && forall i :: 0 <= i < |steps| ==> StoreWorks(steps[i])
    ensures k <= |steps|
    ensures forall i :: 0 <= i <= k ==> Owner(Exec(s, steps[..i]), t)
    ensures k < |steps| ==>
              var after, r := Exec(s, steps[..k + 1]), s.threads[t].run;
              var stored := StatusOf(after, r);
              && r !in after.cancels && Terminal(stored)
              && (stored == Status.Cancelled || Ended(s, steps, k, t, stored)
                  || forall i :: 0 <= i <= k ==> StatusOf(Exec(s, steps[..i]), r) == stored)
              && (!Terminal(StatusOf(s, r)) ==>
                    (stored == Status.Cancelled <==> !Ended(s, steps, k, t, Completed) && !Ended(s, steps, k, t, Failed)))
  {
    hide *;
    k := CancellationNeverLost(s, steps, t);
    if k < |steps| {
      var until := steps[..k + 1];
      forall i | 0 <= i < |until| ensures StoreWorks(until[i]) { assert until[i] == steps[i]; }
      WorkingStore(s, until);
      OwnerIn(s, t);
      GaveUp(s, steps, k, t);
      LeavesCancelled(s, steps, k, t);
      TerminalOnly(StatusOf(s, s.threads[t].run));
      TerminalOnly(StatusOf(Exec(s, until), s.threads[t].run));
    }
  }

  lemma OwnerIn(s: State, t: ThreadId)
    ensures Owner(s, t) ==> t in s.threads
  {
  }

  lemma TerminalOnly(status: Status)
    ensures Terminal(status) <==> status == Completed || status == Failed || status == Status.Cancelled
  {
  }

  lemma GaveUp(s: State, steps: seq<Step>, k: nat, t: ThreadId)
    requires Inv(s) && k < |steps| && (forall i :: 0 <= i <= k ==> Owner(Exec(s, steps[..i]), t))
    requires t in s.threads && s.threads[t].run !in Exec(s, steps[..k + 1]).cancels
    requires forall i :: 0 <= i < |steps| ==> StoreWorks(steps[i])
    ensures KeepsUntil(s, steps, k, t)
  {
    hide Exec, StoreWorks;
    SameRun(s, steps[..k + 1], t);
  }

  lemma {:induction false} SameRun(s: State, steps: seq<Step>, t: ThreadId)
    requires t in s.threads
    ensures t in Exec(s, steps).threads && Exec(s, steps).threads[t].run == s.threads[t].run
    decreases |steps|
  {
    if steps != [] {
      ThreadOver(s, steps[0], t);
      hide Next, Effects;
      SameRun(Next(s, steps[0]), steps[1..], t);
    }
  }

  // ---- Shutdown ----

  lemma ClosingStays(s: State, step: Step)
    requires s.closing
    ensures Next(s, step).closing && !(step.Start? && Next(s, step) != s)
  {
    hide Effects, Owner, Idle, CloseAll;
    if step.Close? { ClosedIs(s); }
  }

  lemma ClosedIs(s: State)
    ensures CloseAll(s).closing
    ensures forall t :: Owner(s, t) && !Idle(s.threads[t].pc) ==> t in CloseAll(s).threads && CloseAll(s).threads[t].done
  {
  }

  /** Close cancels every owner that works or waits, and after it no worker is registered:
      whatever is new is a Cancel that found no owner. */
  lemma {:induction false} CloseStops(s: State, steps: seq<Step>)
    ensures forall t :: Owner(s, t) && !Idle(s.threads[t].pc) ==> t in Next(s, Close).threads && Next(s, Close).threads[t].done
    ensures var after := Exec(Next(s, Close), steps);
            forall t :: t in after.threads && t !in s.threads ==> Idle(after.threads[t].pc) || after.threads[t].pc == Gone
  {
    ClosedIs(s);
    CloseDone(s);
    hide Effects, Owner, CloseAll, Exec;
    NoneNew(Next(s, Close), steps, s.threads.Keys);
  }

  ghost predicate OnlyCancels(s: State, known: set<ThreadId>) {
    forall t :: t in s.threads && t !in known ==> Idle(s.threads[t].pc) || s.threads[t].pc == Gone
  }

  lemma EffectIdle(x: Thread, status: Status, unavailable: bool, act: Act)
    ensures Idle(x.pc) ==> Idle(Effects(x, status, unavailable, act).pc)
  {
  }

  lemma NewIdle(s: State, step: Step, known: set<ThreadId>)
    requires s.closing && OnlyCancels(s, known)
    ensures OnlyCancels(Next(s, step), known)
  {
    ClosingStays(s, step);
    hide Next, Effects, Owner, StatusOf, Idle;
    var s' := Next(s, step);
    forall t | t in s'.threads && t !in known ensures Idle(s'.threads[t].pc) || s'.threads[t].pc == Gone {
      if t in s.threads {
        ThreadOver(s, step, t);
        if Acts(s, step, t) { EffectIdle(s.threads[t], StatusOf(s, s.threads[t].run), s.unavailable, step.act); }
        LeavingBusy();
      } else {
        NewThread(s, step, t);
        LeavingBusy();
      }
    }
  }

  lemma LeavingBusy()
    ensures !Idle(Leaving) && Idle(Reserved)
  {
  }

  lemma {:induction false} NoneNew(s: State, steps: seq<Step>, known: set<ThreadId>)
    requires s.closing && OnlyCancels(s, known)
    ensures OnlyCancels(Exec(s, steps), known)
    decreases |steps|
  {
    hide OnlyCancels, Next;
    if steps != [] {
      ClosingStays(s, steps[0]);
      NewIdle(s, steps[0], known);
      NoneNew(Next(s, steps[0]), steps[1..], known);
    }
  }

  // ---- What can follow a cancellation ----

  lemma EffectsRevive(x: Thread, status: Status, unavailable: bool, act: Act)
    requires Settled(x, status, unavailable) && Terminal(status)
    ensures !Terminal(Effects(x, status, unavailable, act).status) <==> act == Begin(true) && x.pc == Starting
  {
  }

  /** A terminal status is left again if and only if a worker that has read its run
      stores that it is running: that write does not look at the stored status. */
  lemma RevivedIff(s: State, step: Step, r: RunId)
    requires Inv(s) && Terminal(StatusOf(s, r))
    ensures !Terminal(StatusOf(Next(s, step), r))
            <==> step.Do? && step.act == Begin(true) && step.t in s.threads && s.threads[step.t].pc == Starting
                 && s.threads[step.t].run == r
  {
    if step.Do? && step.t in s.threads && s.threads[step.t].pc != Gone {
      assert SettledIn(s, step.t);
      var x := s.threads[step.t];
      if x.run == r { EffectsRevive(x, StatusOf(s, r), s.unavailable, step.act); }
      hide Inv, Effects, Terminal;
    } else {
      if step.DeleteProvider? { DeletedStatus(s, step.runs, r); }
      hide Inv, Effects, Terminal, Owner, Idle, Deleted;
    }
  }

  lemma EffectsOvertake(x: Thread, status: Status, unavailable: bool, act: Act)
    requires Settled(x, status, unavailable) && x.pc == Starting && x.resume && !Terminal(status)
    ensures var e := Effects(x, status, unavailable, act); e.pc == Starting ==> e.status == status
  {
  }

  predicate Overtaken(s: State, t: ThreadId) {
    t in s.threads && s.threads[t].pc == Starting && Terminal(StatusOf(s, s.threads[t].run))
  }

  /** A Resume worker checks that its run waits for an approval. Before it stores that the
      run is running, the status becomes terminal if and only if the provider of the run
      is deleted. */
  lemma OvertakenIff(s: State, step: Step, t: ThreadId)
    requires Inv(s) && t in s.threads && s.threads[t].pc == Starting && s.threads[t].resume && !Overtaken(s, t)
    ensures Overtaken(Next(s, step), t)
            <==> step.DeleteProvider? && s.threads[t].run in step.runs && Deletable(s, step.runs)
  {
    var x, run := s.threads[t], s.threads[t].run;
    assert SettledIn(s, t);
    if step.Do? && step.t == t {
      DoStep(s, t, step.act);
      EffectsOvertake(x, StatusOf(s, run), s.unavailable, step.act);
      StatusSet(s, run, Effects(x, StatusOf(s, run), s.unavailable, step.act).status);
      hide *;
      OvertakenIs(s, t);
      OvertakenIs(Next(s, step), t);
    } else {
      hide Inv, Effects, Next, Deleted, Deletable, Terminal;
      Elsewhere(s, step, t);
      if step.DeleteProvider? { DeletedStatus(s, step.runs, run); }
    }
  }

  lemma OvertakenIs(s: State, t: ThreadId)
    ensures Overtaken(s, t)
            <==> t in s.threads && s.threads[t].pc == Starting && Terminal(StatusOf(s, s.threads[t].run))
  {
  }

  /** The action a step lets thread t perform. */
  predicate Acts(s: State, step: Step, t: ThreadId) { step.Do? && step.t == t && t in s.threads && s.threads[t].pc != Gone }

  /** What a step makes of the stored status of a run. */
  lemma StatusOver(s: State, step: Step, r: RunId)
    ensures StatusOf(Next(s, step), r)
            == if step.Do? && Acts(s, step, step.t) && s.threads[step.t].run == r
               then Effects(s.threads[step.t], StatusOf(s, r), s.unavailable, step.act).status
               else if step.DeleteProvider? then StatusOf(Deleted(s, step.runs), r) else StatusOf(s, r)
  {
    if step.Do? && Acts(s, step, step.t) {
      DoStep(s, step.t, step.act);
      hide Next, Effects;
    } else if Marks(s, step) {
      MarksOnly(s, step);
      hide Next, Marks;
    } else {
      hide Effects, Owner, Idle, Deleted, CloseAll;
    }
  }

  predicate Moves(x: Thread, y: Thread) {
    y.run == x.run && y.resume == x.resume && (y.pc == x.pc || y.pc == Gone || (x.pc == Leaving && y.pc == Closing))
  }

  /** What a step makes of a thread: its own action, or little. */
  lemma ThreadOver(s: State, step: Step, t: ThreadId)
    requires t in s.threads
    ensures t in Next(s, step).threads
    ensures !Acts(s, step, t) ==> Moves(s.threads[t], Next(s, step).threads[t])
    ensures Acts(s, step, t) ==>
              var x := s.threads[t]; var e := Effects(x, StatusOf(s, x.run), s.unavailable, step.act);
              Next(s, step).threads[t] == x.(pc := e.pc, failed := e.failed)
  {
    if step.Do? && Acts(s, step, step.t) {
      DoStep(s, step.t, step.act);
      hide Next, Effects;
    } else if Marks(s, step) {
      MarksOnly(s, step);
      hide Next, Marks;
      assert LittleChange(s.threads[t], Next(s, step).threads[t]);
    } else {
      hide Effects, Owner, Idle, Deleted, CloseAll, StatusOf;
    }
  }

  /** A new thread waits for a slot or is an idle Cancel. */
  lemma NewThread(s: State, step: Step, t: ThreadId)
    requires t !in s.threads && t in Next(s, step).threads
    ensures step.Start? || step.Cancel?
    ensures Next(s, step).threads[t] == Thread(step.run, if step.Start? then Waiting else Reserved, step.Start? && step.resume, false, false)
  {
    hide Effects, Owner, Idle, CloseAll, StatusOf;
    if step.Close? { CloseDone(s); }
  }

  /** What other threads do leaves a worker that enters its run alone. */
  lemma Elsewhere(s: State, step: Step, t: ThreadId)
    requires Inv(s) && t in s.threads && (s.threads[t].pc == Entering || s.threads[t].pc == Starting)
             && !(step.Do? && step.t == t)
    ensures var s', run := Next(s, step), s.threads[t].run;
            && t in s'.threads && s'.threads[t].pc == s.threads[t].pc && s'.threads[t].run == run
            && StatusOf(s', run) == if step.DeleteProvider? then StatusOf(Deleted(s, step.runs), run) else StatusOf(s, run)
  {
    StatusOver(s, step, s.threads[t].run);
    ThreadOver(s, step, t);
    if step.Do? && Acts(s, step, step.t) { OneOwner(s, t, step.t); }
    assert Owner(s, t);
    OwnerStays(s, step, t);
    OwnerAliveNext(s, step, t);
    hide Next, Effects, Deleted, Inv, StatusOf;
  }

  lemma OwnerAliveNext(s: State, step: Step, t: ThreadId)
    requires Inv(s) && Owner(Next(s, step), t)
    ensures Next(s, step).threads[t].pc != Gone
  {
    StepKeeps(s, step);
    OwnerAlive(Next(s, step), t);
    hide Inv, Next;
  }

  /** A Run worker is overtaken if and only if the run was over when it read it. */
  lemma StartsOverIff(s: State, step: Step, t: ThreadId)
    requires Inv(s) && t in s.threads && s.threads[t].pc == Entering && !s.threads[t].resume
    ensures Overtaken(Next(s, step), t) <==> step == Do(t, Look(true)) && Terminal(StatusOf(s, s.threads[t].run))
  {
    var x, run := s.threads[t], s.threads[t].run;
    if step.Do? && step.t == t {
      DoStep(s, t, step.act);
      EffectsLook(x, StatusOf(s, run), s.unavailable, step.act);
      StatusSet(s, run, Effects(x, StatusOf(s, run), s.unavailable, step.act).status);
    } else {
      Elsewhere(s, step, t);
    }
    hide *;
    OvertakenIs(Next(s, step), t);
  }

  lemma EffectsLook(x: Thread, status: Status, unavailable: bool, act: Act)
    requires x.pc == Entering && !x.resume
    ensures var e := Effects(x, status, unavailable, act);
            e.status == status && (e.pc == Starting <==> act == Look(true))
  {
  }

  const Fresh: State := State(map[], map[], map[], false, false)

  lemma FreshInv()
    ensures Inv(Fresh)
  {
  }

  /** Such a run: Cancel is called between the creation of a run and its worker,
      returns with the status cancelled, and the worker then runs all the same. */
  lemma EarlyCancelIsOverrun()
    ensures var cancelled := Exec(Fresh, [Cancel(1, "r"), Do(1, Read(true)), Do(1, Mark(true)), Drop(1)]);
            && StatusOf(cancelled, "r") == Status.Cancelled && cancelled.cancels == map[]
            && 1 in cancelled.threads && cancelled.threads[1].pc == Gone && !cancelled.threads[1].failed
            && StatusOf(Exec(cancelled, [Start(2, "r", false), Do(2, Acquire), Do(2, Look(true)), Do(2, Begin(true))]), "r") == Running
  {
    hide *;
    FreshIs();
    IdleCancelled(Fresh, 1, "r");
    var cancelled := Exec(Fresh, IdleCancel(1, "r"));
    StatusSet(Fresh.(threads := cancelled.threads), "r", Status.Cancelled);
    Entered(cancelled, 2, "r");
    StatusSet(cancelled.(cancels := map["r" := 2], threads := Exec(cancelled, EnterRun(2, "r")).threads), "r", Running);
  }

  lemma FreshIs()
    ensures Fresh == State(map[], map[], map[], false, false) && !Terminal(StatusOf(Fresh, "r"))
    ensures IdleCancel(1, "r") == [Cancel(1, "r"), Do(1, Read(true)), Do(1, Mark(true)), Drop(1)]
    ensures EnterRun(2, "r") == [Start(2, "r", false), Do(2, Acquire), Do(2, Look(true)), Do(2, Begin(true))]
  {
  }

  lemma StatusSet(s: State, run: RunId, status: Status)
    ensures StatusOf(s.(status := s.status[run := status]), run) == status
  {
  }

  /** One action of a thread, with the effect it has. */
  lemma DoStep(s: State, t: ThreadId, act: Act)
    requires t in s.threads && s.threads[t].pc != Gone
    ensures var x := s.threads[t]; var e := Effects(x, StatusOf(s, x.run), s.unavailable, act);
            Next(s, Do(t, act)) == s.(threads := s.threads[t := x.(pc := e.pc, failed := e.failed)],
                                      status := s.status[x.run := e.status], unavailable := e.unavailable)
  {
    hide Effects;
  }

  function IdleCancel(t: ThreadId, run: RunId): seq<Step> { [Cancel(t, run), Do(t, Read(true)), Do(t, Mark(true)), Drop(t)] }

  function EnterRun(t: ThreadId, run: RunId): seq<Step> { [Start(t, run, false), Do(t, Acquire), Do(t, Look(true)), Do(t, Begin(true))] }

  function EndRun(t: ThreadId, saved: Status): seq<Step> { [Do(t, Save(saved)), Finish(t)] }

  /** A Cancel that finds no owner and meets no error. */
  lemma IdleCancelled(s: State, t: ThreadId, run: RunId)
    requires run !in s.cancels && t !in s.threads && !Terminal(StatusOf(s, run))
    ensures Exec(s, IdleCancel(t, run))
            == s.(threads := s.threads[t := Thread(run, Gone, false, false, false)], status := s.status[run := Status.Cancelled])
  {
    var x := Thread(run, Reserved, false, false, false);
    var a := Next(s, Cancel(t, run));
    assert a == s.(cancels := s.cancels[run := t], threads := s.threads[t := x]);
    hide Next, Exec;
    DoStep(a, t, Read(true));
    var b := s.(cancels := s.cancels[run := t], threads := s.threads[t := x.(pc := Marking)], status := s.status[run := StatusOf(s, run)]);
    assert Next(a, Do(t, Read(true))) == b;
    Dropped(s, b, t, run, x);
    Exec2(s, Cancel(t, run), Do(t, Read(true)), [Do(t, Mark(true)), Drop(t)]);
    assert [Cancel(t, run), Do(t, Read(true))] + [Do(t, Mark(true)), Drop(t)] == IdleCancel(t, run);
  }

  lemma Dropped(s: State, b: State, t: ThreadId, run: RunId, x: Thread)
    requires x == Thread(run, Reserved, false, false, false) && run !in s.cancels
    requires b == s.(cancels := s.cancels[run := t], threads := s.threads[t := x.(pc := Marking)], status := s.status[run := StatusOf(s, run)])
    ensures Exec(b, [Do(t, Mark(true)), Drop(t)])
            == s.(threads := s.threads[t := x.(pc := Gone)], status := s.status[run := Status.Cancelled])
  {
    hide Exec, Next, Owner;
    DoStep(b, t, Mark(true));
    var c := b.(threads := s.threads[t := x.(pc := Dropping)], status := s.status[run := Status.Cancelled]);
    assert Next(b, Do(t, Mark(true))) == c;
    hide Effects, StatusOf;
    DropIs(s, c, t, run, x);
    Exec2(b, Do(t, Mark(true)), Drop(t), []);
    ExecNone(Next(c, Drop(t)));
    assert [Do(t, Mark(true)), Drop(t)] + [] == [Do(t, Mark(true)), Drop(t)];
  }

  lemma DropIs(s: State, c: State, t: ThreadId, run: RunId, x: Thread)
    requires run !in s.cancels && x.run == run
    requires c.cancels == s.cancels[run := t] && c.threads == s.threads[t := x.(pc := Dropping)]
    ensures Next(c, Drop(t)) == c.(threads := s.threads[t := x.(pc := Gone)], cancels := s.cancels)
  {
    assert c.cancels - {run} == s.cancels;
  }

  lemma ExecNone(s: State)
    ensures Exec(s, []) == s
  {
  }

  /** A Run worker gets its slot and enters its loop, whatever the stored status. */
  lemma Entered(s: State, t: ThreadId, run: RunId)
    requires run !in s.cancels && t !in s.threads && !s.closing
    ensures Exec(s, EnterRun(t, run))
            == s.(cancels := s.cancels[run := t], threads := s.threads[t := Thread(run, Working, false, false, false)],
                  status := s.status[run := Running])
  {
    hide *;
    LooksAt(s, t, run, false);
    var b := Exec(s, LookAt(t, run, false));
    Begun(b, t);
    StepsJoin(s, LookAt(t, run, false), [Do(t, Begin(true))]);
    EnterRunIs(s, t, run);
  }

  lemma EnterRunIs(s: State, t: ThreadId, run: RunId)
    ensures EnterRun(t, run) == LookAt(t, run, false) + [Do(t, Begin(true))]
    ensures s.status[run := StatusOf(s, run)][run := Running] == s.status[run := Running]
  {
  }

  /** A worker registers, gets its slot and reads the run. */
  function LookAt(t: ThreadId, run: RunId, resume: bool): seq<Step> { [Start(t, run, resume), Do(t, Acquire), Do(t, Look(true))] }

  lemma LooksAt(s: State, t: ThreadId, run: RunId, resume: bool)
    requires run !in s.cancels && t !in s.threads && !s.closing && (resume ==> StatusOf(s, run) == PendingApproval)
    ensures Exec(s, LookAt(t, run, resume))
            == s.(cancels := s.cancels[run := t], threads := s.threads[t := Thread(run, Starting, resume, false, false)],
                  status := s.status[run := StatusOf(s, run)])
  {
    var x := Thread(run, Waiting, resume, false, false);
    var a := s.(cancels := s.cancels[run := t], threads := s.threads[t := x]);
    assert Next(s, Start(t, run, resume)) == a;
    hide Next, Exec;
    var b := a.(threads := s.threads[t := x.(pc := Entering)], status := s.status[run := StatusOf(s, run)]);
    Acquired(s, a, b, t, x);
    LookedAt(s, b, t, x);
    Exec2(s, Start(t, run, resume), Do(t, Acquire), [Do(t, Look(true))]);
    ExecOne(b, Do(t, Look(true)));
    assert [Start(t, run, resume), Do(t, Acquire)] + [Do(t, Look(true))] == LookAt(t, run, resume);
  }

  lemma Acquired(s: State, a: State, b: State, t: ThreadId, x: Thread)
    requires x.pc == Waiting && a.threads == s.threads[t := x] && a.status == s.status
    requires b == a.(threads := s.threads[t := x.(pc := Entering)], status := s.status[x.run := StatusOf(s, x.run)])
    ensures Next(a, Do(t, Acquire)) == b
  {
    DoStep(a, t, Acquire);
    hide Next;
  }

  lemma LookedAt(s: State, b: State, t: ThreadId, x: Thread)
    requires b.threads == s.threads[t := x.(pc := Entering)] && b.status == s.status[x.run := StatusOf(s, x.run)]
    requires x.resume ==> StatusOf(s, x.run) == PendingApproval
    ensures Next(b, Do(t, Look(true))) == b.(threads := s.threads[t := x.(pc := Starting)])
  {
    DoStep(b, t, Look(true));
    hide Next;
  }

  lemma Begun(s: State, t: ThreadId)
    requires t in s.threads && s.threads[t].pc == Starting
    ensures Exec(s, [Do(t, Begin(true))])
            == s.(threads := s.threads[t := s.threads[t].(pc := Working)], status := s.status[s.threads[t].run := Running])
  {
    DoStep(s, t, Begin(true));
    hide Next, Exec;
    ExecOne(s, Do(t, Begin(true)));
  }

  lemma {:induction false} StepsJoin(s: State, a: seq<Step>, b: seq<Step>)
    ensures Exec(s, a + b) == Exec(Exec(s, a), b)
    decreases |a|
  {
    hide Next;
    if a == [] {
      EmptyLeft(b);
    } else {
      assert (a + b)[0] == a[0] && (a + b)[1..] == a[1..] + b;
      StepsJoin(Next(s, a[0]), a[1..], b);
    }
  }

  /** A worker that is not cancelled stores the end of its stay and leaves. */
  lemma Done(s: State, t: ThreadId, run: RunId, saved: Status)
    requires t in s.threads && s.threads[t] == Thread(run, Working, false, false, false)
             && (saved == Completed || saved == PendingApproval)
    ensures Exec(s, EndRun(t, saved))
            == s.(cancels := s.cancels - {run}, threads := s.threads[t := s.threads[t].(pc := Gone)], status := s.status[run := saved])
  {
    DoStep(s, t, Save(saved));
    var a := s.(threads := s.threads[t := s.threads[t].(pc := Leaving)], status := s.status[run := saved]);
    assert Next(s, Do(t, Save(saved))) == a;
    hide Effects, Exec;
    assert Next(a, Finish(t)) == a.(threads := s.threads[t := s.threads[t].(pc := Gone)], cancels := s.cancels - {run});
    hide Next;
    Exec2(s, Do(t, Save(saved)), Finish(t), []);
    ExecNone(Next(a, Finish(t)));
    assert [Do(t, Save(saved)), Finish(t)] + [] == EndRun(t, saved);
  }

  /** A run waits for an approval, its Resume worker has checked that, the provider is
      deleted, and the worker goes on: the run was cancelled and runs again. */
  function ResumeOverDeletion(): seq<Step> {
    (EnterRun(1, "r") + EndRun(1, PendingApproval)) + (LookAt(2, "r", true) + [DeleteProvider({"r"})])
  }

  lemma DeletionIsOverrun()
    ensures var s := Exec(Fresh, ResumeOverDeletion());
            && Overtaken(s, 2) && s.threads[2].run == "r" && s.threads[2].resume && StatusOf(s, "r") == Status.Cancelled
            && StatusOf(Exec(s, [Do(2, Begin(true))]), "r") == Running
  {
    hide *;
    FreshIs();
    Entered(Fresh, 1, "r");
    var s1 := Exec(Fresh, EnterRun(1, "r"));
    Done(s1, 1, "r", PendingApproval);
    StepsJoin(Fresh, EnterRun(1, "r"), EndRun(1, PendingApproval));
    var s2 := Exec(s1, EndRun(1, PendingApproval));
    StatusSet(s1.(cancels := s2.cancels, threads := s2.threads), "r", PendingApproval);
    LooksAt(s2, 2, "r", true);
    var s3 := Exec(s2, LookAt(2, "r", true));
    StatusSet(s2.(cancels := s3.cancels, threads := s3.threads), "r", PendingApproval);
    ProviderGone(s3, "r");
    var s4 := Deleted(s3, {"r"});
    StepsJoin(s2, LookAt(2, "r", true), [DeleteProvider({"r"})]);
    StepsJoin(Fresh, EnterRun(1, "r") + EndRun(1, PendingApproval), LookAt(2, "r", true) + [DeleteProvider({"r"})]);
    ResumeIs();
    OvertakenIs(s4, 2);
    Begun(s4, 2);
    StatusSet(s4.(threads := Exec(s4, [Do(2, Begin(true))]).threads), "r", Running);
  }

  lemma ResumeIs()
    ensures ResumeOverDeletion() == (EnterRun(1, "r") + EndRun(1, PendingApproval)) + (LookAt(2, "r", true) + [DeleteProvider({"r"})])
    ensures Terminal(Status.Cancelled)
  {
    hide EnterRun, EndRun, LookAt;
  }

  lemma ProviderGone(s: State, run: RunId)
    requires StatusOf(s, run) == PendingApproval
    ensures Exec(s, [DeleteProvider({run})]) == Deleted(s, {run})
            && StatusOf(Deleted(s, {run}), run) == Status.Cancelled
    ensures Deleted(s, {run}).threads == s.threads && Deleted(s, {run}).cancels == s.cancels
  {
    ExecOne(s, DeleteProvider({run}));
    DeletedStatus(s, {run}, run);
    hide Exec;
  }

  lemma Exec2(s: State, a: Step, b: Step, rest: seq<Step>)
    ensures Exec(s, [a, b] + rest) == Exec(Next(Next(s, a), b), rest)
  {
    hide Next;
    assert ([a, b] + rest)[1..] == [b] + rest;
    ConsTail(b, rest);
  }

  // ---- The mutex-guarded part in place ----

  /** The runtime: `cancels` is changed only under its mutex, one method per
      critical section. */
  class NativeRuntime {
    var cancels: map<RunId, ThreadId>
    var threads: map<ThreadId, Thread>
    var status: map<RunId, Status>
    var unavailable: bool
    var closing: bool

    function View(): State
      reads this
    {
      State(cancels, threads, status, unavailable, closing)
    }

    constructor ()
      ensures View() == Fresh && Inv(View())
    {
      cancels, threads, status, unavailable, closing := map[], map[], map[], false, false;
    }

    /** register: fails while closing and while the run has an owner. */
    method Register(t: ThreadId, run: RunId, resume: bool) returns (ok: bool)
      requires t !in threads && Inv(View())
      modifies this`cancels, this`threads
      ensures View() == Next(old(View()), Start(t, run, resume)) && Inv(View())
      ensures ok <==> run !in old(cancels) && !closing
    {
      StepKeeps(View(), Start(t, run, resume));
      hide Inv;
      if closing || run in cancels {
        return false;
      }
      cancels := cancels[run := t];
      threads := threads[t := Thread(run, Waiting, resume, false, false)];
      return true;
    }

    /** The critical section of Cancel: cancels the owner, or reserves the run. */
    method BeginCancel(t: ThreadId, run: RunId) returns (found: bool)
      requires t !in threads && Inv(View())
      modifies this`cancels, this`threads
      ensures View() == Next(old(View()), Cancel(t, run)) && Inv(View())
      ensures found <==> run in old(cancels)
      ensures found && !Idle(old(threads)[old(cancels)[run]].pc) ==> threads[cancels[run]].done
    {
      StepKeeps(View(), Cancel(t, run));
      found := run in cancels;
      if found {
        var owner := cancels[run];
        if !Idle(threads[owner].pc) {
          threads := threads[owner := threads[owner].(done := true)];
        }
      } else {
        cancels := cancels[run := t];
        threads := threads[t := Thread(run, Reserved, false, false, false)];
      }
    }

    /** The critical section of finishWorker: an owner that is not cancelled gives
        up here; a cancelled one keeps the run until its status is durable. */
    method FinishWorker(t: ThreadId) returns (released: bool)
      requires t in threads && threads[t].pc == Leaving && Inv(View())
      modifies this`cancels, this`threads
      ensures View() == Next(old(View()), Finish(t)) && Inv(View())
      ensures released <==> !old(threads)[t].done
    {
      StepKeeps(View(), Finish(t));
      hide Inv;
      released := !threads[t].done;
      if released {
        cancels := cancels - {threads[t].run};
        threads := threads[t := threads[t].(pc := Gone)];
      } else {
        threads := threads[t := threads[t].(pc := Closing)];
      }
    }

    method Unregister(t: ThreadId)
      requires t in threads && (threads[t].pc == Removing || threads[t].pc == Dropping) && Inv(View())
      modifies this`cancels, this`threads
      ensures Inv(View()) && t in threads && threads[t].run !in cancels
      ensures View() == Next(old(View()), if old(threads)[t].pc == Removing then Remove(t) else Drop(t))
    {
      ghost var step := if threads[t].pc == Removing then Remove(t) else Drop(t);
      StepKeeps(View(), step);
      assert Next(View(), step) == Leave(View(), t);
      hide Inv, Next;
      cancels := cancels - {threads[t].run};
      threads := threads[t := threads[t].(pc := Gone)];
    }
  }
}
