/** Shared process observations (internal/agent/process_reads.go): one collector at
    most, readers that join only an identical unfinished observation, and writes that
    seal it. Every method is one critical section. */
module ProcessReads {
  import opened Prelude

  const MAX_WAITERS := 8

  type Query = string
  type Sample = string
  type CallId = nat
  type ReaderId = nat

  /** An observation; its done channel is closed when `result` is set. `began` is
      the time of its creation on the clock that counts critical sections. */
  datatype Call = Call(key: Query, waiters: nat, sealed: bool, cancelled: bool, result: Option<Option<Sample>>, began: nat)

  datatype Admission = Joined(reader: ReaderId) | Busy | Closed

  /** A reader inside `read`: its call, its own query, and the time of its entry. */
  datatype Reader = Reader(call: CallId, key: Query, entered: nat, seen: nat)

  ghost function ReadersOf(readers: map<ReaderId, Reader>, c: CallId): set<ReaderId> {
    set r | r in readers && readers[r].call == c
  }

  /** What holds of one call: its waiters are the readers that have not left, it is
      cancelled once nobody waits, and an unsealed call began after the last seal. */
  ghost predicate CallOk(c: CallId, call: Call, readers: map<ReaderId, Reader>, active: Option<CallId>, lastSeal: nat,
                         now: nat) {
    && call.waiters == |ReadersOf(readers, c)| <= MAX_WAITERS
    && (call.waiters == 0 ==> call.cancelled)
    && (call.result.None? <==> active == Some(c))
    && call.began <= now
    && (active == Some(c) && !call.sealed ==> lastSeal < call.began)
  }

  /** What holds of one reader: it waits for an observation of its own query that
      began after the last seal it could know of when it entered. */
  ghost predicate ReaderOk(r: Reader, calls: map<CallId, Call>) {
    r.call in calls && calls[r.call].key == r.key && r.seen < calls[r.call].began
  }

  ghost predicate ReadersOk(readers: map<ReaderId, Reader>, calls: map<CallId, Call>) {
    forall r :: r in readers ==> ReaderOk(readers[r], calls)
  }

  ghost predicate Consistent(calls: map<CallId, Call>, readers: map<ReaderId, Reader>, active: Option<CallId>,
                             lastSeal: nat, now: nat) {
    && (active.Some? ==> active.value in calls)
    && (forall c :: c in calls ==> CallOk(c, calls[c], readers, active, lastSeal, now))
    && ReadersOk(readers, calls)
  }

  lemma ReadersAdd(readers: map<ReaderId, Reader>, r: ReaderId, reader: Reader, c: CallId)
    requires r !in readers
    ensures ReadersOf(readers[r := reader], c) == if reader.call == c then ReadersOf(readers, c) + {r} else ReadersOf(readers, c)
    ensures |ReadersOf(readers[r := reader], c)| == |ReadersOf(readers, c)| + if reader.call == c then 1 else 0
  {
    assert r !in ReadersOf(readers, c);
  }

  lemma ReadersRemove(readers: map<ReaderId, Reader>, r: ReaderId, c: CallId)
    requires r in readers
    ensures ReadersOf(readers - {r}, c) == ReadersOf(readers, c) - {r}
    ensures |ReadersOf(readers - {r}, c)| == |ReadersOf(readers, c)| - if readers[r].call == c then 1 else 0
  {
    assert readers[r].call == c <==> r in ReadersOf(readers, c);
  }

  lemma JoinKeeps(calls: map<CallId, Call>, readers: map<ReaderId, Reader>, c: CallId, lastSeal: nat, now: nat,
                  r: ReaderId, key: Query)
    requires Consistent(calls, readers, Some(c), lastSeal, now) && r !in readers
    requires calls[c].key == key && !calls[c].sealed && calls[c].waiters < MAX_WAITERS
    ensures Consistent(calls[c := calls[c].(waiters := calls[c].waiters + 1)], readers[r := Reader(c, key, now + 1, lastSeal)], Some(c), lastSeal, now + 1)
  {
    var calls', readers' := calls[c := calls[c].(waiters := calls[c].waiters + 1)], readers[r := Reader(c, key, now + 1, lastSeal)];
    assert CallOk(c, calls[c], readers, Some(c), lastSeal, now);
    forall d | d in calls' ensures CallOk(d, calls'[d], readers', Some(c), lastSeal, now + 1) {
      assert CallOk(d, calls[d], readers, Some(c), lastSeal, now);
      ReadersAdd(readers, r, Reader(c, key, now + 1, lastSeal), d);
    }
    hide CallOk;
    forall x | x in readers' ensures ReaderOk(readers'[x], calls') {
      if x != r { assert ReaderOk(readers[x], calls); }
    }
  }

  lemma StartKeeps(calls: map<CallId, Call>, readers: map<ReaderId, Reader>, lastSeal: nat, now: nat, c: CallId,
                   r: ReaderId, key: Query)
    requires Consistent(calls, readers, None, lastSeal, now) && r !in readers && c !in calls && lastSeal <= now
    ensures Consistent(calls[c := Call(key, 1, false, false, None, now + 1)], readers[r := Reader(c, key, now + 1, lastSeal)], Some(c), lastSeal, now + 1)
  {
    var calls', readers' := calls[c := Call(key, 1, false, false, None, now + 1)], readers[r := Reader(c, key, now + 1, lastSeal)];
    NobodyYet(calls, readers, lastSeal, now, c);
    hide ReaderOk, ReadersOf, CallOk;
    forall d | d in calls' ensures CallOk(d, calls'[d], readers', Some(c), lastSeal, now + 1) {
      if d != c { CallOther(calls[d], readers, lastSeal, now, c, d, r, key); } else { CallNew(readers, lastSeal, now, c, r, key); }
    }
    ReadersSince(calls, calls', readers, r, Reader(c, key, now + 1, lastSeal));
  }

  lemma CallOther(call: Call, readers: map<ReaderId, Reader>, lastSeal: nat, now: nat, c: CallId, d: CallId,
                  r: ReaderId, key: Query)
    requires CallOk(d, call, readers, None, lastSeal, now) && d != c && r !in readers
    ensures CallOk(d, call, readers[r := Reader(c, key, now + 1, lastSeal)], Some(c), lastSeal, now + 1)
  {
    ReadersAdd(readers, r, Reader(c, key, now + 1, lastSeal), d);
    hide ReadersOf;
  }

  lemma CallNew(readers: map<ReaderId, Reader>, lastSeal: nat, now: nat, c: CallId, r: ReaderId, key: Query)
    requires ReadersOf(readers, c) == {} && r !in readers && lastSeal <= now
    ensures CallOk(c, Call(key, 1, false, false, None, now + 1), readers[r := Reader(c, key, now + 1, lastSeal)], Some(c), lastSeal, now + 1)
  {
    ReadersAdd(readers, r, Reader(c, key, now + 1, lastSeal), c);
    hide ReadersOf;
  }

  lemma ReadersSince(calls: map<CallId, Call>, calls': map<CallId, Call>, readers: map<ReaderId, Reader>, r: ReaderId,
                     reader: Reader)
    requires forall x :: x in readers ==> ReaderOk(readers[x], calls)
    requires forall c :: c in calls ==> c in calls' && calls'[c].key == calls[c].key && calls'[c].began == calls[c].began
    requires reader.call in calls' && calls'[reader.call].key == reader.key && reader.seen < calls'[reader.call].began
    ensures ReadersOk(readers[r := reader], calls')
  {
    ReadersKeep(calls, calls', readers);
  }

  lemma NobodyYet(calls: map<CallId, Call>, readers: map<ReaderId, Reader>, lastSeal: nat, now: nat, c: CallId)
    requires Consistent(calls, readers, None, lastSeal, now) && c !in calls
    ensures ReadersOf(readers, c) == {}
  {
    hide CallOk;
    forall x | x in readers ensures readers[x].call != c {
      assert ReaderOk(readers[x], calls);
    }
  }

  /** A change of one call that keeps its key, its beginning and its readers. */
  lemma UpdateKeeps(calls: map<CallId, Call>, readers: map<ReaderId, Reader>, active: Option<CallId>, lastSeal: nat,
                    now: nat,
                    c: CallId, call: Call, active': Option<CallId>, lastSeal': nat)
    requires Consistent(calls, readers, active, lastSeal, now) && c in calls && lastSeal <= lastSeal'
    requires call.key == calls[c].key && call.began == calls[c].began && call.waiters == calls[c].waiters
    requires active == Some(c) && (active' == Some(c) || active' == None)
    requires calls[c].cancelled ==> call.cancelled
    requires call.result.None? <==> active' == Some(c)
    requires (lastSeal' == lastSeal && (calls[c].sealed ==> call.sealed)) || call.sealed
    ensures Consistent(calls[c := call], readers, active', lastSeal', now + 1)
  {
    var calls' := calls[c := call];
    forall d | d in calls' ensures CallOk(d, calls'[d], readers, active', lastSeal', now + 1) {
      assert CallOk(d, calls[d], readers, active, lastSeal, now);
    }
    hide CallOk;
    forall x | x in readers ensures ReaderOk(readers[x], calls') {
      assert ReaderOk(readers[x], calls);
    }
  }

  lemma LeaveKeeps(calls: map<CallId, Call>, readers: map<ReaderId, Reader>, active: Option<CallId>, lastSeal: nat,
                   now: nat, r: ReaderId)
    requires Consistent(calls, readers, active, lastSeal, now) && r in readers
    ensures readers[r].call in calls && calls[readers[r].call].waiters > 0
    ensures var c := readers[r].call;
            Consistent(calls[c := calls[c].(waiters := calls[c].waiters - 1, cancelled := calls[c].cancelled || calls[c].waiters == 1)],
                       readers - {r}, active, lastSeal, now + 1)
  {
    Entered(calls, readers, active, lastSeal, now, r);
    var c := readers[r].call;
    assert CallOk(c, calls[c], readers, active, lastSeal, now);
    ReadersRemove(readers, r, c);
    assert r in ReadersOf(readers, c);
    hide ReaderOk, ReadersOf, CallOk;
    var calls' := calls[c := calls[c].(waiters := calls[c].waiters - 1, cancelled := calls[c].cancelled || calls[c].waiters == 1)];
    forall d | d in calls' ensures CallOk(d, calls'[d], readers - {r}, active, lastSeal, now + 1) {
      CallLeft(calls[d], readers, active, lastSeal, now, d, r);
    }
    ReadersKeep(calls, calls', readers);
  }

  lemma CallLeft(call: Call, readers: map<ReaderId, Reader>, active: Option<CallId>, lastSeal: nat, now: nat, d: CallId,
                 r: ReaderId)
    requires CallOk(d, call, readers, active, lastSeal, now) && r in readers
    ensures readers[r].call != d ==> CallOk(d, call, readers - {r}, active, lastSeal, now + 1)
    ensures readers[r].call == d ==> call.waiters > 0
    ensures readers[r].call == d && call.waiters > 0 ==>
              CallOk(d, call.(waiters := call.waiters - 1, cancelled := call.cancelled || call.waiters == 1), readers - {r}, active, lastSeal, now + 1)
  {
    ReadersRemove(readers, r, d);
    if readers[r].call == d { assert r in ReadersOf(readers, d); }
    hide ReadersOf;
  }

  /** Readers do not mind changes of waiters, seals and results. */
  lemma ReadersKeep(calls: map<CallId, Call>, calls': map<CallId, Call>, readers: map<ReaderId, Reader>)
    requires forall r :: r in readers ==> ReaderOk(readers[r], calls)
    requires forall c :: c in calls ==> c in calls' && calls'[c].key == calls[c].key && calls'[c].began == calls[c].began
    ensures forall r :: r in readers ==> ReaderOk(readers[r], calls')
  {
  }

  class ProcessReads {
    var active: Option<CallId>
    var closed: bool
    var calls: map<CallId, Call>
    var nextCall: CallId
    var nextReader: ReaderId
    ghost var readers: map<ReaderId, Reader>
    /** Collectors that have not returned. */
    ghost var collecting: set<CallId>
    /** The clock counts critical sections; the program has no such field. */
    var lastSeal: nat
    var now: nat

    ghost predicate Valid()
      reads this
    {
      && Consistent(calls, readers, active, lastSeal, now) && lastSeal <= now
      && collecting == (if active.Some? then {active.value} else {})
      && (forall c :: c in calls ==> c < nextCall) && (forall r :: r in readers ==> r < nextReader)
    }

    constructor ()
      ensures Valid() && active == None && !closed && readers == map[] && collecting == {}
    {
      active, closed, calls, nextCall, nextReader := None, false, map[], 0, 0;
      readers, collecting, lastSeal, now := map[], {}, 0, 0;
    }

    /** The entry of `read`. `expired` is whether the shared context has run out. */
    method Enter(key: Query, expired: bool) returns (a: Admission)
      requires Valid()
      modifies this
      ensures Valid() && closed == old(closed) && lastSeal == old(lastSeal)
      ensures a.Closed? <==> closed
      ensures a.Busy? <==> !closed && old(active).Some? && old(active).value in old(calls)
                           && var call := old(calls)[old(active).value];
                              call.key != key || call.sealed || call.waiters >= 8 || call.cancelled || expired
      ensures !a.Joined? ==> readers == old(readers) && calls == old(calls) && collecting == old(collecting)
      ensures a.Joined? ==> a.reader !in old(readers) && active.Some?
                            && readers == old(readers)[a.reader := Reader(active.value, key, now, lastSeal)]
      ensures a.Joined? && old(active).Some? ==> active == old(active)
    {
      if closed {
        return Closed;
      }
      hide Consistent, CallOk, ReaderOk;
      if active.Some? {
        ActiveKnown(calls, readers, active, lastSeal, now);
        var call := calls[active.value];
        if call.key != key || call.sealed || call.waiters >= MAX_WAITERS || call.cancelled || expired {
          return Busy;
        }
        Join(key);
      } else {
        Start(key);
      }
      return Joined(nextReader - 1);
    }

    method Join(key: Query)
      requires Valid() && active.Some? && active.value in calls
      requires var call := calls[active.value]; call.key == key && !call.sealed && call.waiters < MAX_WAITERS
      modifies this`calls, this`readers, this`nextReader, this`now
      ensures Valid() && nextReader == old(nextReader) + 1 && old(nextReader) !in old(readers)
      ensures readers == old(readers)[old(nextReader) := Reader(active.value, key, now, lastSeal)]
    {
      hide Consistent, CallOk, ReaderOk;
      var c := active.value;
      JoinKeeps(calls, readers, c, lastSeal, now, nextReader, key);
      calls := calls[c := calls[c].(waiters := calls[c].waiters + 1)];
      now := now + 1;
      readers := readers[nextReader := Reader(c, key, now, lastSeal)];
      nextReader := nextReader + 1;
    }

    method Start(key: Query)
      requires Valid() && active.None?
      modifies this`active, this`calls, this`nextCall, this`collecting, this`readers, this`nextReader, this`now
      ensures Valid() && nextReader == old(nextReader) + 1 && active.Some? && old(nextReader) !in old(readers)
      ensures readers == old(readers)[old(nextReader) := Reader(active.value, key, now, lastSeal)]
    {
      hide Consistent, CallOk, ReaderOk;
      var c := nextCall;
      StartKeeps(calls, readers, lastSeal, now, c, nextReader, key);
      calls := calls[c := Call(key, 1, false, false, None, now + 1)];
      active, collecting, nextCall, now := Some(c), {c}, nextCall + 1, now + 1;
      readers := readers[nextReader := Reader(c, key, now, lastSeal)];
      nextReader := nextReader + 1;
    }

    /** The collector returns: its call is finished and no longer active. */
    method Finish(result: Option<Sample>)
      requires Valid() && active.Some?
      modifies this
      ensures Valid() && active == None && collecting == {} && readers == old(readers) && lastSeal == old(lastSeal)
      ensures old(active).value in old(calls)
              && calls == old(calls)[old(active).value := old(calls)[old(active).value].(result := Some(result), cancelled := true)]
    {
      hide Consistent, CallOk, ReaderOk;
      ActiveKnown(calls, readers, active, lastSeal, now);
      var c := active.value;
      UpdateKeeps(calls, readers, active, lastSeal, now, c, calls[c].(result := Some(result), cancelled := true), None, lastSeal);
      calls := calls[c := calls[c].(result := Some(result), cancelled := true)];
      active, collecting, now := None, {}, now + 1;
    }

    /** A reader leaves, with the sample of its call if that is done. Nobody waiting
        any more cancels the call, which stays active until its collector returns. */
    method Leave(r: ReaderId, c: CallId) returns (sample: Option<Sample>)
      requires Valid() && r in readers && readers[r].call == c
      modifies this
      ensures Valid() && readers == old(readers) - {r} && active == old(active) && lastSeal == old(lastSeal)
      ensures c in old(calls) && old(calls)[c].key == old(readers)[r].key && old(calls)[c].waiters > 0
      ensures old(readers)[r].seen < old(calls)[c].began
      ensures sample.Some? ==> old(calls)[c].result == Some(sample)
      ensures c in calls && calls[c] == old(calls)[c].(waiters := old(calls)[c].waiters - 1, cancelled := old(calls)[c].cancelled || old(calls)[c].waiters == 1)
    {
      hide Consistent, CallOk, ReaderOk;
      LeaveKeeps(calls, readers, active, lastSeal, now, r);
      Entered(calls, readers, active, lastSeal, now, r);
      var call := calls[c];
      sample := if call.result.Some? then call.result.value else None;
      calls := calls[c := call.(waiters := call.waiters - 1, cancelled := call.cancelled || call.waiters == 1)];
      readers := readers - {r};
      now := now + 1;
    }

    /** A write boundary. */
    method Seal()
      requires Valid()
      modifies this
      ensures Valid() && lastSeal == now == old(now) + 1 && readers == old(readers) && active == old(active)
              && collecting == old(collecting)
      ensures forall c :: c in calls ==> c in old(calls) && calls[c].began <= old(now) < lastSeal
    {
      hide Consistent, CallOk, ReaderOk;
      if active.Some? {
        ActiveKnown(calls, readers, active, lastSeal, now);
        var c := active.value;
        UpdateKeeps(calls, readers, active, lastSeal, now, c, calls[c].(sealed := true), active, now + 1);
        BeganBefore(calls, readers, active, lastSeal, now);
        calls := calls[c := calls[c].(sealed := true)];
      } else {
        BeganBefore(calls, readers, active, lastSeal, now);
        IdleKeeps(calls, readers, lastSeal, now);
      }
      now := now + 1;
      lastSeal := now;
    }

    method Close()
      requires Valid()
      modifies this
      ensures Valid() && closed && readers == old(readers) && active == old(active) && collecting == old(collecting)
    {
      hide Consistent, CallOk, ReaderOk;
      closed := true;
      if active.Some? {
        ActiveKnown(calls, readers, active, lastSeal, now);
        var c := active.value;
        UpdateKeeps(calls, readers, active, lastSeal, now, c, calls[c].(cancelled := true), active, lastSeal);
        calls := calls[c := calls[c].(cancelled := true)];
        now := now + 1;
      }
    }
  }

  lemma ActiveKnown(calls: map<CallId, Call>, readers: map<ReaderId, Reader>, active: Option<CallId>, lastSeal: nat,
                    now: nat)
    requires Consistent(calls, readers, active, lastSeal, now) && active.Some?
    ensures active.value in calls && calls[active.value].result.None?
  {
    hide ReaderOk;
    assert CallOk(active.value, calls[active.value], readers, active, lastSeal, now);
  }

  lemma Entered(calls: map<CallId, Call>, readers: map<ReaderId, Reader>, active: Option<CallId>, lastSeal: nat,
                now: nat, r: ReaderId)
    requires Consistent(calls, readers, active, lastSeal, now) && r in readers
    ensures readers[r].call in calls && calls[readers[r].call].key == readers[r].key
            && readers[r].seen < calls[readers[r].call].began
  {
    hide CallOk;
    assert ReaderOk(readers[r], calls);
  }

  lemma BeganBefore(calls: map<CallId, Call>, readers: map<ReaderId, Reader>, active: Option<CallId>, lastSeal: nat,
                    now: nat)
    requires Consistent(calls, readers, active, lastSeal, now)
    ensures forall c :: c in calls ==> calls[c].began <= now
  {
    forall c | c in calls ensures calls[c].began <= now {
      assert CallOk(c, calls[c], readers, active, lastSeal, now);
    }
  }

  lemma IdleKeeps(calls: map<CallId, Call>, readers: map<ReaderId, Reader>, lastSeal: nat, now: nat)
    requires Consistent(calls, readers, None, lastSeal, now)
    ensures Consistent(calls, readers, None, now + 1, now + 1)
  {
    forall c | c in calls ensures CallOk(c, calls[c], readers, None, now + 1, now + 1) {
      assert CallOk(c, calls[c], readers, None, lastSeal, now);
    }
    hide CallOk;
  }
}
