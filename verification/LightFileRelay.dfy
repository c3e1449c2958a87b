/** The light-node file relay (lightFileControl in cmd/kejilion-node/light_file.go):
    a polling protocol in which polls, receipts and commands may be lost or repeated
    in any pattern. Each method is one uninterrupted action of the control loop, of
    a handler, of a body worker or of a context; a run is any sequence of calls. */
module LightFileRelay {
  import opened Prelude
  import opened LightFileStream

  const EVENT_LIMIT := 16
  const LOG_LIMIT := 128
  const MAX_REQUESTS := 128

  datatype FlowMode = Legacy | Probe | Selective

  datatype CommandKind = Request | Body | Cancel | Unsupported

  /** `parses` says whether an HTTP request can be built from the command. */
  datatype Command = Command(id: Id, kind: CommandKind, requestID: Id, parses: bool, head: bool, hasBody: bool, offset: nat, data: Text, final: bool)

  /** What a relay reply says about the flow: the marker, a receipt for the event
      at an index of the poll, or anything else. */
  datatype Reply = Marker | Receipt(index: nat, requestID: Id) | Other

  datatype BodyResult = BodyResult(written: nat, failed: bool)

  /** The fields of the response writer of a session. */
  datatype Writer = Writer(started: bool, offset: nat, ended: bool)

  /** `events` is the channel filled by the handler, `bodyResult` that of the body
      worker; `cancelled` says that the session context is done. */
  datatype Session = Session(
    bodyWriter: bool, bodyOffset: nat, bodyDiscard: bool, bodyCommand: Option<Command>, bodyResult: Option<BodyResult>,
    handlerDone: bool, head: bool, events: seq<Event>, pending: seq<Event>, cancelled: bool, writer: Writer)

  /** The history of one session: stream events of an earlier session with the
      same id still in flight when it started, what its handler emitted, what the
      center acknowledged, and the body blocks accepted. */
  datatype Trace = Trace(residual: seq<Event>, emitted: seq<Event>, acked: seq<Event>, blocks: seq<Command>)

  // ---- Projection of a queue on one stream ----

  function Only(e: Event, id: Id): seq<Event> { if InStream(e) && e.requestID == id then [e] else [] }

  function Proj(es: seq<Event>, id: Id): seq<Event> {
    if es == [] then [] else Only(es[0], id) + Proj(es[1..], id)
  }

  lemma {:induction false} ProjSum(a: seq<Event>, b: seq<Event>, id: Id)
    ensures Proj(a + b, id) == Proj(a, id) + Proj(b, id)
  {
    if a == [] {
      EmptyLeft(b);
      EmptyLeft(Proj(b, id));
    } else {
      ProjSum(a[1..], b, id);
      assert (a + b)[1..] == a[1..] + b;
      hide Only;
      Assoc(Only(a[0], id), Proj(a[1..], id), Proj(b, id));
    }
  }

  lemma ProjOne(e: Event, id: Id)
    ensures Proj([e], id) == Only(e, id)
  {
    EmptyRight(Only(e, id));
  }

  lemma {:induction false} ProjNone(es: seq<Event>, id: Id)
    requires forall e :: e in es ==> e.requestID != id
    ensures Proj(es, id) == []
  {
    if es != [] {
      assert es[0] in es;
      ProjNone(es[1..], id);
    }
  }

  lemma ProjFront(e: Event, rest: seq<Event>, id: Id)
    ensures Proj([e] + rest, id) == Only(e, id) + Proj(rest, id)
  {
    ProjSum([e], rest, id);
    ProjOne(e, id);
  }

  /** Removing an event of another stream, or none of the stream at all. */
  lemma ProjMiddle(u: seq<Event>, e: Event, r: seq<Event>, id: Id)
    ensures Proj(u + ([e] + r), id) == Proj(u, id) + (Only(e, id) + Proj(r, id))
  {
    ProjSum(u, [e] + r, id);
    ProjFront(e, r, id);
  }

  // ---- The invariant ----

  /** acknowledged ++ in flight ++ pending ++ channel == residual ++ emitted. */
  ghost predicate Balanced(t: Trace, flight: seq<Event>, s: Session, id: Id) {
    t.acked + (Proj(flight, id) + (Proj(s.pending, id) + s.events)) == t.residual + t.emitted
  }

  function Total(blocks: seq<Command>): nat {
    if blocks == [] then 0 else Total(blocks[..|blocks| - 1]) + |blocks[|blocks| - 1].data|
  }

  /** Every accepted block starts where the blocks before it end. */
  ghost predicate Contiguous(blocks: seq<Command>) {
    forall k :: 0 <= k < |blocks| ==> blocks[k].offset == Total(blocks[..k])
  }

  function InWrite(s: Session): nat { if s.bodyCommand.Some? then |s.bodyCommand.value.data| else 0 }

  /** The body of a session: at most one write is in flight, it is the last block
      accepted, and until the session is cancelled the offset counts exactly the
      bytes of the other blocks. */
  ghost predicate BodyOk(s: Session, t: Trace) {
    && Contiguous(t.blocks)
    && (s.bodyCommand.Some? ==> t.blocks != [] && t.blocks[|t.blocks| - 1] == s.bodyCommand.value)
    && (s.bodyResult.Some? ==> s.bodyCommand.Some?)
    && s.bodyOffset + InWrite(s) <= Total(t.blocks)
    && (!s.cancelled ==> s.bodyOffset + InWrite(s) == Total(t.blocks))
  }

  ghost predicate QueuesOk(id: Id, s: Session, t: Trace) {
    && (forall e :: e in s.pending ==> e.requestID == id)
    && (s.bodyCommand.Some? ==> s.bodyCommand.value.requestID == id)
    && |s.events| <= EVENT_LIMIT
    && (forall e :: e in s.events ==> InStream(e) && e.requestID == id)
    && WellFormed(t.emitted, s.head)
    && WriterOf(s.writer, t.emitted)
  }

  ghost predicate WriterOf(w: Writer, emitted: seq<Event>) {
    (w.started <==> emitted != []) && w.offset == |Bytes(emitted)| && (w.ended <==> LightFileStream.Ended(emitted))
  }

  /** What the response writer can send next. */
  predicate Sendable(w: Writer, head: bool, e: Event) {
    && InStream(e) && !w.ended
    && (e.kind == Response ==> !w.started)
    && (e.kind == Data ==> w.started && !head && e.offset == w.offset && 0 < |e.data| <= CHUNK_BYTES)
    && (e.kind == End ==> w.started)
  }

  function Sent(w: Writer, e: Event): Writer {
    Writer(true, w.offset + (if e.kind == Data then |e.data| else 0), e.kind == End)
  }

  lemma SentKeeps(w: Writer, head: bool, emitted: seq<Event>, e: Event)
    requires WriterOf(w, emitted) && Sendable(w, head, e)
    ensures LegalNext(emitted, head, e) && WriterOf(Sent(w, e), emitted + [e])
  {
    BytesSnoc(emitted, e);
  }

  ghost predicate Good(id: Id, s: Session, t: Trace, flight: seq<Event>) {
    Balanced(t, flight, s, id) && BodyOk(s, t) && QueuesOk(id, s, t) && NoEnd(t.acked)
  }

  /** No stream ends here. A session whose end is acknowledged leaves, so that none
      is ever acknowledged for a live one. */
  ghost predicate NoEnd(es: seq<Event>) { forall e :: e in es ==> e.kind != End }

  ghost predicate Live(sessions: map<Id, Session>, traces: map<Id, Trace>, flight: seq<Event>) {
    && traces.Keys == sessions.Keys
    && forall id :: id in sessions ==> Good(id, sessions[id], traces[id], flight)
  }

  // ---- What the actions do to the invariant ----

  lemma LiveAt(sessions: map<Id, Session>, traces: map<Id, Trace>, flight: seq<Event>, id: Id)
    requires Live(sessions, traces, flight) && id in sessions
    ensures id in traces && Good(id, sessions[id], traces[id], flight)
  {
    hide Good;
  }

  /** Every session but one is good. */
  ghost predicate OthersGood(sessions: map<Id, Session>, traces: map<Id, Trace>, flight: seq<Event>, id: Id) {
    && traces.Keys == sessions.Keys
    && forall other :: other in sessions && other != id ==> Good(other, sessions[other], traces[other], flight)
  }

  lemma Rebuilt(sessions: map<Id, Session>, traces: map<Id, Trace>, flight: seq<Event>, id: Id, s: Session, t: Trace)
    requires OthersGood(sessions, traces, flight, id) && Good(id, s, t, flight)
    ensures Live(sessions[id := s], traces[id := t], flight)
  {
    hide Good;
  }

  lemma Kept(sessions: map<Id, Session>, traces: map<Id, Trace>, flight: seq<Event>, id: Id)
    requires OthersGood(sessions, traces, flight, id) && (id in sessions ==> Good(id, sessions[id], traces[id], flight))
    ensures Live(sessions, traces, flight)
  {
    hide Good;
  }

  lemma Replaced(sessions: map<Id, Session>, traces: map<Id, Trace>, flight: seq<Event>, id: Id, s: Session, t: Trace)
    requires Live(sessions, traces, flight) && Good(id, s, t, flight)
    ensures Live(sessions[id := s], traces[id := t], flight)
  {
    hide Good;
  }

  lemma Removed(sessions: map<Id, Session>, traces: map<Id, Trace>, flight: seq<Event>, id: Id)
    requires Live(sessions, traces, flight)
    ensures Live(sessions - {id}, traces - {id}, flight)
  {
    hide Good;
  }

  lemma Added(sessions: map<Id, Session>, traces: map<Id, Trace>, flight: seq<Event>, id: Id, s: Session)
    requires Live(sessions, traces, flight) && id !in sessions
    requires s.events == [] && s.pending == [] && s.bodyOffset == 0 && s.bodyCommand.None? && s.bodyResult.None?
    requires s.writer == Writer(false, 0, false)
    ensures Live(sessions[id := s], traces[id := Trace(Proj(flight, id), [], [], [])], flight)
  {
    var t := Trace(Proj(flight, id), [], [], []);
    FreshGood(id, s, t, flight);
    hide Good, Proj;
  }

  lemma FreshGood(id: Id, s: Session, t: Trace, flight: seq<Event>)
    requires s.events == [] && s.pending == [] && s.bodyOffset == 0 && s.bodyCommand.None? && s.bodyResult.None?
    requires s.writer == Writer(false, 0, false)
    requires t == Trace(Proj(flight, id), [], [], [])
    ensures Good(id, s, t, flight)
  {
    assert Proj(s.pending, id) == [] && BodyOk(s, t) && QueuesOk(id, s, t);
    hide Proj, BodyOk, QueuesOk;
    EmptyLeft(Proj(flight, id));
    EmptyRight(Proj(flight, id));
  }

  lemma SameFlight(id: Id, s: Session, t: Trace, flight: seq<Event>, flight': seq<Event>)
    requires Good(id, s, t, flight) && Proj(flight, id) == Proj(flight', id)
    ensures Good(id, s, t, flight')
  {
    hide BodyOk, QueuesOk;
  }

  /** The in-flight events may change in any way the other streams do not notice. */
  lemma OthersReflown(sessions: map<Id, Session>, traces: map<Id, Trace>, flight: seq<Event>, flight': seq<Event>,
                      id: Id)
    requires Live(sessions, traces, flight)
    requires forall other :: other in sessions && other != id ==> Proj(flight, other) == Proj(flight', other)
    ensures OthersGood(sessions, traces, flight', id)
  {
    hide Good, Proj;
    forall other | other in sessions && other != id ensures Good(other, sessions[other], traces[other], flight') {
      LiveAt(sessions, traces, flight, other);
      SameFlight(other, sessions[other], traces[other], flight, flight');
    }
  }

  lemma ProjSnoc(flight: seq<Event>, e: Event, id: Id)
    requires Only(e, id) == []
    ensures Proj(flight + [e], id) == Proj(flight, id)
  {
    ProjSum(flight, [e], id);
    ProjOne(e, id);
    EmptyRight(Proj(flight, id));
  }

  lemma ProjWithout(u: seq<Event>, e: Event, r: seq<Event>, id: Id)
    requires Only(e, id) == []
    ensures Proj(u + ([e] + r), id) == Proj(u + r, id)
  {
    ProjMiddle(u, e, r, id);
    ProjSum(u, r, id);
    EmptyLeft(Proj(r, id));
  }

  lemma OthersWithout(sessions: map<Id, Session>, traces: map<Id, Trace>, u: seq<Event>, e: Event, r: seq<Event>)
    requires Live(sessions, traces, u + ([e] + r))
    ensures OthersGood(sessions, traces, u + r, e.requestID)
  {
    forall other | other != e.requestID ensures Proj(u + ([e] + r), other) == Proj(u + r, other) { ProjWithout(u, e, r, other); }
    hide *;
    OthersReflown(sessions, traces, u + ([e] + r), u + r, e.requestID);
  }

  /** An event that belongs to no stream may be queued at any time. */
  lemma Queued(sessions: map<Id, Session>, traces: map<Id, Trace>, flight: seq<Event>, e: Event)
    requires Live(sessions, traces, flight) && !InStream(e)
    ensures Live(sessions, traces, flight + [e])
  {
    forall id | id in sessions ensures Good(id, sessions[id], traces[id], flight + [e]) {
      LiveAt(sessions, traces, flight, id);
      ProjSnoc(flight, e, id);
      SameFlight(id, sessions[id], traces[id], flight, flight + [e]);
    }
    hide Good;
  }

  /** Moving the first pending event of a session to the end of the poll. */
  lemma Taken(sessions: map<Id, Session>, traces: map<Id, Trace>, flight: seq<Event>, id: Id)
    requires Live(sessions, traces, flight) && id in sessions && id in traces && sessions[id].pending != []
    ensures var s := sessions[id];
            s.pending[0].requestID == id
            && Live(sessions[id := s.(pending := s.pending[1..])], traces[id := traces[id]], flight + [s.pending[0]])
  {
    var s := sessions[id];
    var e := s.pending[0];
    LiveAt(sessions, traces, flight, id);
    TakenOne(id, s, s.(pending := s.pending[1..]), traces[id], flight);
    forall other | other != id ensures Proj(flight, other) == Proj(flight + [e], other) { ProjSnoc(flight, e, other); }
    hide *;
    OthersReflown(sessions, traces, flight, flight + [e], id);
    Rebuilt(sessions, traces, flight + [e], id, s.(pending := s.pending[1..]), traces[id]);
  }

  lemma TakenOne(id: Id, s: Session, s': Session, t: Trace, flight: seq<Event>)
    requires Good(id, s, t, flight) && s.pending != [] && s' == s.(pending := s.pending[1..])
    ensures s.pending[0].requestID == id && Good(id, s', t, flight + [s.pending[0]])
  {
    var e, rest := s.pending[0], s.pending[1..];
    assert e in s.pending;
    ProjSum(flight, [e], id);
    ProjOne(e, id);
    Uncons(s.pending);
    ProjFront(e, rest, id);
    hide BodyOk, Contiguous, Total, Proj, Only;
    Regroup(Proj(flight, id), Only(e, id), Proj(rest, id), s.events);
    assert QueuesOk(id, s', t);
    assert BodyOk(s', t) by { SameBody(s, s', t); }
  }

  lemma Regroup<T>(a: seq<T>, b: seq<T>, c: seq<T>, d: seq<T>)
    ensures (a + b) + (c + d) == a + ((b + c) + d)
  {
  }

  lemma SameBody(s: Session, s': Session, t: Trace)
    requires BodyOk(s, t)
    requires s'.bodyCommand == s.bodyCommand && s'.bodyResult == s.bodyResult && s'.bodyOffset == s.bodyOffset
    requires s.cancelled ==> s'.cancelled
    ensures BodyOk(s', t)
  {
    hide Contiguous, Total;
  }

  // ---- Acknowledging a poll ----

  function AckTrace(t: Trace, e: Event, id: Id): Trace { t.(acked := t.acked + Only(e, id)) }

  /** Acknowledging e is sound when no earlier event of its stream is unacknowledged. */
  lemma Acked(sessions: map<Id, Session>, traces: map<Id, Trace>, u: seq<Event>, e: Event, r: seq<Event>)
    requires Live(sessions, traces, u + ([e] + r)) && forall x :: x in u ==> x.requestID != e.requestID
    ensures e.requestID in sessions && e.kind != End ==>
              e.requestID in traces
              && Live(sessions, traces[e.requestID := AckTrace(traces[e.requestID], e, e.requestID)], u + r)
    ensures e.requestID in sessions && e.kind == End ==>
              e.requestID in traces && EndIs(AckTrace(traces[e.requestID], e, e.requestID))
              && Live(sessions - {e.requestID}, traces - {e.requestID}, u + r)
    ensures e.requestID !in sessions ==> Live(sessions, traces, u + r)
  {
    var id, before := e.requestID, u + ([e] + r);
    hide *;
    OthersWithout(sessions, traces, u, e, r);
    ProjNone(u, id);
    if id !in sessions {
      Kept(sessions, traces, u + r, id);
    } else {
      LiveAt(sessions, traces, before, id);
      AckedOne(id, sessions[id], traces[id], u, e, r);
      if e.kind == End {
        EndAcked(id, sessions[id], traces[id], u + r, e);
        Dropped(sessions, traces, u + r, id);
      } else {
        StillOpen(id, sessions[id], traces[id], u + r, e);
        Rebuilt(sessions, traces, u + r, id, sessions[id], AckTrace(traces[id], e, id));
        assert sessions[id := sessions[id]] == sessions;
      }
    }
  }

  lemma Dropped(sessions: map<Id, Session>, traces: map<Id, Trace>, flight: seq<Event>, id: Id)
    requires OthersGood(sessions, traces, flight, id)
    ensures Live(sessions - {id}, traces - {id}, flight)
  {
    hide Good;
  }

  /** Everything but the openness of the acknowledged part. */
  ghost predicate Sound(id: Id, s: Session, t: Trace, flight: seq<Event>) {
    Balanced(t, flight, s, id) && BodyOk(s, t) && QueuesOk(id, s, t)
  }

  lemma StillOpen(id: Id, s: Session, t: Trace, flight: seq<Event>, e: Event)
    requires Sound(id, s, AckTrace(t, e, id), flight) && NoEnd(t.acked) && e.kind != End
    ensures Good(id, s, AckTrace(t, e, id), flight)
  {
    hide Balanced, BodyOk, QueuesOk;
    forall x | x in t.acked + Only(e, id) ensures x.kind != End {}
  }

  lemma AckedOne(id: Id, s: Session, t: Trace, u: seq<Event>, e: Event, r: seq<Event>)
    requires Good(id, s, t, u + ([e] + r)) && Proj(u, id) == []
    ensures Sound(id, s, AckTrace(t, e, id), u + r) && NoEnd(t.acked)
  {
    ProjMiddle(u, e, r, id);
    ProjSum(u, r, id);
    hide BodyOk, QueuesOk, Proj, Only, NoEnd;
    var tail := Proj(s.pending, id) + s.events;
    EmptyLeft(Proj(r, id));
    EmptyLeft(Only(e, id) + Proj(r, id));
    Assoc(Only(e, id), Proj(r, id), tail);
    Assoc(t.acked, Only(e, id), Proj(r, id) + tail);
    assert BodyOk(s, AckTrace(t, e, id)) by { SameBlocks(s, t, AckTrace(t, e, id)); }
    assert QueuesOk(id, s, AckTrace(t, e, id)) by { SameQueues(id, s, t, AckTrace(t, e, id)); }
  }

  lemma SameBlocks(s: Session, t: Trace, t': Trace)
    requires BodyOk(s, t) && t'.blocks == t.blocks
    ensures BodyOk(s, t')
  {
    hide Contiguous, Total;
  }

  lemma SameQueues(id: Id, s: Session, t: Trace, t': Trace)
    requires QueuesOk(id, s, t) && t'.emitted == t.emitted
    ensures QueuesOk(id, s, t')
  {
    hide WellFormed, WriterOf;
  }

  /** An unacknowledged event goes back to the front of its session. */
  lemma PutBack(sessions: map<Id, Session>, traces: map<Id, Trace>, u: seq<Event>, e: Event, o: seq<Event>)
    requires Live(sessions, traces, u + ([e] + o)) && e.requestID in sessions
    requires forall x :: x in o ==> x.requestID !in sessions
    ensures var s := sessions[e.requestID];
            Live(sessions[e.requestID := s.(pending := [e] + s.pending)], traces, u + o)
  {
    var id, before := e.requestID, u + ([e] + o);
    var s := sessions[id];
    var s' := s.(pending := [e] + s.pending);
    hide *;
    OthersWithout(sessions, traces, u, e, o);
    ProjNone(o, id);
    LiveAt(sessions, traces, before, id);
    PutBackOne(id, s, s', traces[id], u, e, o);
    Rebuilt(sessions, traces, u + o, id, s', traces[id]);
    assert traces[id := traces[id]] == traces;
  }

  lemma PutBackOne(id: Id, s: Session, s': Session, t: Trace, u: seq<Event>, e: Event, o: seq<Event>)
    requires Good(id, s, t, u + ([e] + o)) && Proj(o, id) == [] && e.requestID == id
    requires s' == s.(pending := [e] + s.pending)
    ensures Good(id, s', t, u + o)
  {
    ProjMiddle(u, e, o, id);
    ProjSum(u, o, id);
    ProjFront(e, s.pending, id);
    assert QueuesOk(id, s', t);
    hide QueuesOk, BodyOk, Proj, Only;
    EmptyRight(Only(e, id));
    EmptyRight(Proj(u, id));
    Regroup(Proj(u, id), Only(e, id), Proj(s.pending, id), s.events);
    assert BodyOk(s', t) by { SameBody(s, s', t); }
  }

  // ---- Body blocks ----

  lemma ContiguousSnoc(blocks: seq<Command>, c: Command)
    requires Contiguous(blocks) && c.offset == Total(blocks)
    ensures Contiguous(blocks + [c]) && Total(blocks + [c]) == Total(blocks) + |c.data|
  {
    var next := blocks + [c];
    assert next[..|blocks|] == blocks;
    forall k | 0 <= k < |next| ensures next[k].offset == Total(next[..k]) {
      assert next[..k] == blocks[..k];
      if k == |blocks| { assert blocks[..k] == blocks; }
    }
  }

  lemma {:induction false} TotalMonotone(blocks: seq<Command>, k: nat)
    requires k <= |blocks|
    ensures Total(blocks[..k]) <= Total(blocks)
  {
    if k == |blocks| {
      assert blocks[..k] == blocks;
    } else {
      var front := blocks[..|blocks| - 1];
      TotalMonotone(front, k);
      assert front[..k] == blocks[..k];
    }
  }

  /** Accepted blocks never overlap: each byte of the body is accepted once, and
      the blocks in order leave no gap. */
  lemma BlocksDisjoint(blocks: seq<Command>, i: nat, j: nat)
    requires Contiguous(blocks) && i < j < |blocks|
    ensures blocks[i].offset + |blocks[i].data| <= blocks[j].offset
    ensures j == i + 1 ==> blocks[i].offset + |blocks[i].data| == blocks[j].offset
  {
    assert blocks[..j][..i + 1] == blocks[..i + 1];
    assert blocks[..i + 1][..i] == blocks[..i];
    TotalMonotone(blocks[..j], i + 1);
    hide Contiguous;
  }

  // ---- Command results ----

  predicate Distinct(ids: seq<Id>) { forall i, j :: 0 <= i < j < |ids| ==> ids[i] != ids[j] }

  /** `results` are the ids of all results since the last reset. */
  ghost predicate LogOk(processed: map<Id, Event>, ids: seq<Id>, results: seq<Id>) {
    && ids == RememberAll([], results)
    && |ids| <= LOG_LIMIT
    && Distinct(ids)
    && (forall id :: id in processed <==> id in ids)
    && (forall id :: id in processed ==> !InStream(processed[id]))
  }

  /** The bounded log of command results: first result wins, oldest leaves first. */
  function Remember(ids: seq<Id>, id: Id): seq<Id> {
    if id in ids then ids
    else if |ids| < LOG_LIMIT then ids + [id]
    else (ids + [id])[1..]
  }

  lemma RememberTwice(ids: seq<Id>, id: Id)
    ensures Remember(Remember(ids, id), id) == Remember(ids, id)
  {
    assert (ids + [id])[|ids|] == id;
    if |ids| >= LOG_LIMIT { assert (ids + [id])[1..][|ids| - 1] == id; }
  }

  lemma DropFirst(ids: seq<Id>)
    requires ids != [] && Distinct(ids)
    ensures forall x :: x in ids[1..] <==> x in ids && x != ids[0]
  {
    forall x | x in ids && x != ids[0] ensures x in ids[1..] {
      var k :| 0 <= k < |ids| && ids[k] == x;
      assert ids[1..][k - 1] == x;
    }
  }

  /** The events of one request, and those of no live session, in order. */
  function For(events: seq<Event>, id: Id): seq<Event> {
    if events == [] then [] else (if events[0].requestID == id then [events[0]] else []) + For(events[1..], id)
  }

  function NotLive(events: seq<Event>, live: set<Id>): (r: seq<Event>)
    ensures |r| <= |events| && forall e :: e in r ==> e.requestID !in live
  {
    if events == [] then [] else (if events[0].requestID !in live then [events[0]] else []) + NotLive(events[1..], live)
  }

  lemma ForStep(events: seq<Event>, i: nat, live: set<Id>)
    requires i < |events|
    ensures forall id :: For(events[i..], id) == (if events[i].requestID == id then [events[i]] else []) + For(events[i + 1..], id)
    ensures NotLive(events[i..], live) == (if events[i].requestID !in live then [events[i]] else []) + NotLive(events[i + 1..], live)
  {
    assert events[i..][1..] == events[i + 1..];
  }

  lemma ForNone(events: seq<Event>, live: set<Id>)
    ensures forall id :: For(events[|events|..], id) == []
    ensures NotLive(events[|events|..], live) == [] && events[0..] == events
  {
  }

  /** The events went back to the front of their sessions, in order. */
  ghost predicate Returned(before: map<Id, Session>, events: seq<Event>, now: map<Id, Session>) {
    && now.Keys == before.Keys
    && forall id :: id in now ==> now[id] == before[id].(pending := For(events, id) + before[id].pending)
  }

  lemma NoneReturned(sessions: map<Id, Session>, events: seq<Event>)
    requires forall id :: For(events, id) == []
    ensures Returned(sessions, events, sessions)
  {
    forall id | id in sessions ensures sessions[id] == sessions[id].(pending := For(events, id) + sessions[id].pending) {
      EmptyLeft(sessions[id].pending);
    }
  }

  lemma OneReturned(before: map<Id, Session>, events: seq<Event>, i: nat, now: map<Id, Session>, s: Session)
    requires i < |events| && Returned(before, events[i + 1..], now) && events[i].requestID in now
    requires s == now[events[i].requestID].(pending := [events[i]] + now[events[i].requestID].pending)
    ensures Returned(before, events[i..], now[events[i].requestID := s])
  {
    var id := events[i].requestID;
    ForStep(events, i, {});
    hide For, NotLive;
    Assoc([events[i]], For(events[i + 1..], id), before[id].pending);
    forall x ensures x != id ==> For(events[i..], x) == For(events[i + 1..], x) { EmptyLeft(For(events[i + 1..], x)); }
  }

  lemma OtherReturned(before: map<Id, Session>, events: seq<Event>, i: nat, now: map<Id, Session>)
    requires i < |events| && Returned(before, events[i + 1..], now) && events[i].requestID !in now
    ensures Returned(before, events[i..], now)
  {
    ForStep(events, i, {});
    hide For, NotLive;
    forall x ensures x != events[i].requestID ==> For(events[i..], x) == For(events[i + 1..], x) { EmptyLeft(For(events[i + 1..], x)); }
  }

  predicate ReceiptFor(replies: seq<Reply>, index: nat, id: Id) { Receipt(index, id) in replies }

  /** A session as it starts. */
  function Opened(c: Command): Session {
    Session(c.hasBody, 0, false, None, None, false, c.head, [], [], false, Writer(false, 0, false))
  }

  /** Only the session `id` may have changed. */
  ghost predicate SameOthers(a: map<Id, Session>, b: map<Id, Session>, id: Id) {
    forall x :: x in a && x != id ==> x in b && b[x] == a[x]
  }

  lemma SameOthersSelf(a: map<Id, Session>, id: Id)
    ensures SameOthers(a, a, id)
  {
  }

  lemma SameOthersPut(a: map<Id, Session>, b: map<Id, Session>, id: Id, s: Session)
    requires SameOthers(a, b, id)
    ensures SameOthers(a, b[id := s], id)
  {
  }

  lemma SameOthersWithout(a: map<Id, Session>, b: map<Id, Session>, id: Id)
    requires SameOthers(a, b, id)
    ensures SameOthers(a, b - {id}, id)
  {
  }

  /** What the handler has sent and no poll has taken. */
  function Waiting(s: Session): seq<Event> { s.pending + s.events }

  /** The answer to come of a finished body write. */
  function Report(s: Session): seq<Event> {
    if s.bodyCommand.Some? && s.bodyResult.Some? then [ReportOf(s)] else []
  }

  /** All that a session has for the polls: what waits, then the answer of its write. */
  function Owed(s: Session): seq<Event> { s.pending + (s.events + Report(s)) }

  function Uses(used: map<Id, nat>, id: Id): nat { if id in used then used[id] else 0 }

  /** Only the queues of the session have changed. */
  predicate Moved(s: Session, s': Session) { s' == s.(pending := s'.pending, events := s'.events) }

  /** Beside its queues, at most the write of the session has been reported. */
  predicate Later(s: Session, s': Session) {
    Moved(s, s') || (s.bodyCommand.Some? && s.bodyResult.Some? && Moved(Reported(s), s'))
  }

  lemma LaterTrans(a: Session, b: Session, c: Session)
    requires Later(a, b) && Later(b, c)
    ensures Later(a, c)
  {
    if Moved(a, b) && Moved(b, c) {
      assert Moved(a, c);
    } else if Moved(a, b) {
      ReportedMoved(a, b);
    }
  }

  lemma ReportedMoved(a: Session, b: Session)
    requires Moved(a, b) && b.bodyCommand.Some? && b.bodyResult.Some?
    ensures a.bodyCommand.Some? && a.bodyResult.Some? && ReportOf(a) == ReportOf(b) && Moved(Reported(a), Reported(b))
  {
  }

  lemma OwedMoved(s: Session, s': Session)
    requires Moved(s, s') && Waiting(s') == Waiting(s)
    ensures Owed(s') == Owed(s)
  {
    Assoc(s.pending, s.events, Report(s));
    Assoc(s'.pending, s'.events, Report(s));
    if s'.bodyCommand.Some? && s'.bodyResult.Some? { ReportedMoved(s, s'); }
    hide ReportOf;
  }

  lemma OwedReported(s: Session)
    requires s.bodyCommand.Some? && s.bodyResult.Some? && s.events == []
    ensures Owed(Reported(s)) == Owed(s) && Later(s, Reported(s))
  {
    hide ReportOf;
    EmptyLeft([ReportOf(s)]);
    EmptyRight(s.pending + [ReportOf(s)]);
  }

  lemma OwedHead(s: Session)
    ensures s.pending == [] && s.events == [] && (s.bodyCommand.None? || s.bodyResult.None?) ==> Owed(s) == []
    ensures s.pending != []
            ==> Owed(s) != [] && Owed(s)[0] == s.pending[0] && Owed(s.(pending := s.pending[1..])) == Owed(s)[1..]
  {
    if s.pending != [] {
      var next := s.(pending := s.pending[1..]);
      Uncons(s.pending);
      Assoc([s.pending[0]], s.pending[1..], s.events + Report(s));
      ConsTail(s.pending[0], s.pending[1..] + (s.events + Report(s)));
      assert Report(next) == Report(s);
    }
    hide ReportOf;
  }

  /** One visit of a session: its first event moves if the poll still fits with it, and
      the legacy mode lets it go with its end. */
  ghost predicate Visited(fits: (FlowMode, seq<Event>, set<Id>) -> bool, mode: FlowMode, flight: seq<Event>,
                          live: set<Id>,
                          id: Id, s: Session, moved: Option<Event>, now: map<Id, Session>)
  {
    if Owed(s) != [] && fits(mode, flight + [Owed(s)[0]], live)
    then && moved == Some(Owed(s)[0]) && moved.value.requestID == id
         && if mode == Legacy && moved.value.kind == End then id !in now
            else id in now && Later(s, now[id]) && Owed(now[id]) == Owed(s)[1..]
    else moved.None? && id in now && Later(s, now[id]) && Owed(now[id]) == Owed(s)
  }

  // ---- What a poll takes from each session ----

  /** The events of one session in a poll are the first of those it had; the rest is
      left to it. Only the legacy mode lets a session go, with its end. */
  ghost predicate Share(before: map<Id, Session>, now: map<Id, Session>, added: seq<Event>, id: Id, mode: FlowMode) {
    if id !in before then id !in now && For(added, id) == []
    else if id in now then Later(before[id], now[id]) && Owed(before[id]) == For(added, id) + Owed(now[id])
    else mode == Legacy && For(added, id) != [] && For(added, id) <= Owed(before[id]) && For(added, id)[|For(added, id)| - 1].kind == End
  }

  ghost predicate Shares(before: map<Id, Session>, now: map<Id, Session>, added: seq<Event>, mode: FlowMode) {
    forall id :: Share(before, now, added, id, mode)
  }

  /** A session that gives nothing more to the poll: it has nothing, its next event does
      not fit, or it has used its share. */
  ghost predicate Stuck(fits: (FlowMode, seq<Event>, set<Id>) -> bool, mode: FlowMode, flight: seq<Event>,
                        live: set<Id>, s: Session, uses: nat, share: nat) {
    Owed(s) == [] || !fits(mode, flight + [Owed(s)[0]], live) || (mode != Legacy && uses >= share)
  }

  ghost predicate AllFit(fits: (FlowMode, seq<Event>, set<Id>) -> bool, mode: FlowMode,
                         live: set<Id>) { forall es :: fits(mode, es, live) }

  /** The first sessions of the order have got their first event into the poll. */
  ghost predicate Served(before: map<Id, Session>, added: seq<Event>, order: seq<Id>, n: nat) {
    forall k :: 0 <= k < n <= |order| && order[k] in before && Owed(before[order[k]]) != [] ==> For(added, order[k]) != []
  }

  /** A poll of at most 16 events, or 15 beside the flow marker, filled from the sessions
      `before`: each gives its share, one event when there are others and two when there
      are none, except in the legacy mode. It ends when the poll is full or no session of
      the order has more to give. If all fits, everyone in the order gets its turn. */
  ghost predicate Filled(fits: (FlowMode, seq<Event>, set<Id>) -> bool, mode: FlowMode, order: seq<Id>,
                         before: map<Id, Session>, flight: seq<Event>, now: map<Id, Session>, flight': seq<Event>)
  {
    flight <= flight' &&
    var added, limit, share := flight'[|flight|..], if mode == Legacy then 16 else 15, if |before| == 1 then 2 else 1;
    && |flight'| <= limit
    && Shares(before, now, added, mode)
    && (mode != Legacy ==> forall id :: |For(added, id)| <= share)
    && (|flight'| < limit ==> forall k :: 0 <= k < |order| && order[k] in now ==>
                                Stuck(fits, mode, flight', before.Keys, now[order[k]], |For(added, order[k])|, share))
    && (AllFit(fits, mode, before.Keys) && |flight| + |order| <= limit ==> Served(before, added, order, |order|))
  }

  /** The poll while it is being filled; `used` counts the events of each session. */
  ghost predicate Filling(before: map<Id, Session>, now: map<Id, Session>, flight: seq<Event>, flight': seq<Event>,
                          used: map<Id, nat>, mode: FlowMode, share: nat)
  {
    && flight <= flight'
    && Shares(before, now, flight'[|flight|..], mode)
    && forall id :: Uses(used, id) == |For(flight'[|flight|..], id)| && (mode != Legacy ==> Uses(used, id) <= share)
  }

  ghost predicate AllStuck(fits: (FlowMode, seq<Event>, set<Id>) -> bool, mode: FlowMode, flight: seq<Event>,
                           live: set<Id>, now: map<Id, Session>,
                           used: map<Id, nat>, order: seq<Id>, n: nat, share: nat)
  {
    forall k :: 0 <= k < n <= |order| && order[k] in now ==> Stuck(fits, mode, flight, live, now[order[k]], Uses(used, order[k]), share)
  }

  lemma {:induction false} ForSnoc(events: seq<Event>, e: Event, id: Id)
    ensures For(events + [e], id) == For(events, id) + if e.requestID == id then [e] else []
    decreases |events|
  {
    if events == [] {
      assert [] + [e] == [e] && [e][1..] == [];
    } else {
      assert (events + [e])[1..] == events[1..] + [e];
      ForSnoc(events[1..], e, id);
    }
  }

  /** A visit without an event changes nobody's share. */
  lemma ShareKept(before: map<Id, Session>, mid: map<Id, Session>, now: map<Id, Session>, added: seq<Event>,
                  mode: FlowMode, id: Id)
    requires Shares(before, mid, added, mode) && SameOthers(mid, now, id) && now.Keys <= mid.Keys
    requires id in mid && id in now && Later(mid[id], now[id]) && Owed(now[id]) == Owed(mid[id])
    ensures Shares(before, now, added, mode)
  {
    hide Later, Owed, For;
    forall x ensures Share(before, now, added, x, mode) {
      assert Share(before, mid, added, x, mode);
      if x == id && id in before { LaterTrans(before[id], mid[id], now[id]); }
    }
  }

  /** The next event of a session joins its share. */
  lemma ShareNext(before: map<Id, Session>, mid: map<Id, Session>, now: map<Id, Session>, added: seq<Event>,
                  mode: FlowMode, id: Id, e: Event)
    requires Shares(before, mid, added, mode) && SameOthers(mid, now, id) && now.Keys <= mid.Keys
    requires id in mid && Owed(mid[id]) != [] && e == Owed(mid[id])[0] && e.requestID == id
    requires if mode == Legacy && e.kind == End then id !in now
             else id in now && Later(mid[id], now[id]) && Owed(now[id]) == Owed(mid[id])[1..]
    ensures Shares(before, now, added + [e], mode)
  {
    hide Later, Owed, For, Shares;
    forall x ensures Share(before, now, added + [e], x, mode) {
      ShareOf(before, mid, added, mode, x);
      ForSnoc(added, e, x);
      if x == id && id in before {
        Uncons(Owed(mid[id]));
        Assoc(For(added, id), [e], Owed(mid[id])[1..]);
        if id in now { LaterTrans(before[id], mid[id], now[id]); }
      } else {
        EmptyRight(For(added, x));
      }
    }
    SharesAll(before, now, added + [e], mode);
  }

  lemma ShareOf(before: map<Id, Session>, now: map<Id, Session>, added: seq<Event>, mode: FlowMode, id: Id)
    requires Shares(before, now, added, mode)
    ensures Share(before, now, added, id, mode)
  {
    hide Share;
  }

  lemma SharesAll(before: map<Id, Session>, now: map<Id, Session>, added: seq<Event>, mode: FlowMode)
    requires forall id :: Share(before, now, added, id, mode)
    ensures Shares(before, now, added, mode)
  {
    hide Share;
  }

  lemma FillingStarts(sessions: map<Id, Session>, flight: seq<Event>, mode: FlowMode, share: nat)
    ensures Filling(sessions, sessions, flight, flight, map[], mode, share)
  {
    assert flight[|flight|..] == [];
    forall id ensures Share(sessions, sessions, [], id, mode) {
      if id in sessions { EmptyLeft(Owed(sessions[id])); }
    }
    hide Share, Owed;
  }

  lemma FillingKept(before: map<Id, Session>, mid: map<Id, Session>, now: map<Id, Session>, flight: seq<Event>,
                    flight': seq<Event>,
                    used: map<Id, nat>, mode: FlowMode, share: nat, id: Id)
    requires Filling(before, mid, flight, flight', used, mode, share) && SameOthers(mid, now, id)
             && now.Keys <= mid.Keys
    requires id in mid && id in now && Later(mid[id], now[id]) && Owed(now[id]) == Owed(mid[id])
    ensures Filling(before, now, flight, flight', used, mode, share)
  {
    hide Shares, Later, Owed, For;
    ShareKept(before, mid, now, flight'[|flight|..], mode, id);
  }

  lemma FillingNext(before: map<Id, Session>, mid: map<Id, Session>, now: map<Id, Session>, flight: seq<Event>,
                    flight': seq<Event>,
                    used: map<Id, nat>, mode: FlowMode, share: nat, id: Id, e: Event)
    requires Filling(before, mid, flight, flight', used, mode, share) && SameOthers(mid, now, id)
             && now.Keys <= mid.Keys
    requires id in mid && Owed(mid[id]) != [] && e == Owed(mid[id])[0] && e.requestID == id
    requires if mode == Legacy && e.kind == End then id !in now
             else id in now && Later(mid[id], now[id]) && Owed(now[id]) == Owed(mid[id])[1..]
    requires mode == Legacy || Uses(used, id) < share
    ensures Filling(before, now, flight, flight' + [e], used[id := Uses(used, id) + 1], mode, share)
  {
    hide Shares, Later, Owed, For;
    var added := flight'[|flight|..];
    assert (flight' + [e])[|flight|..] == added + [e];
    ShareNext(before, mid, now, added, mode, id, e);
    forall x ensures |For(added + [e], x)| == |For(added, x)| + if x == id then 1 else 0 { ForSnoc(added, e, x); }
  }

  lemma UsesOf(before: map<Id, Session>, now: map<Id, Session>, flight: seq<Event>, flight': seq<Event>,
               used: map<Id, nat>, mode: FlowMode, share: nat, id: Id)
    requires Filling(before, now, flight, flight', used, mode, share)
    ensures flight <= flight' && Share(before, now, flight'[|flight|..], id, mode)
    ensures Uses(used, id) == |For(flight'[|flight|..], id)| && (mode != Legacy ==> Uses(used, id) <= share)
  {
    hide Share, For;
  }

  lemma StuckNext(fits: (FlowMode, seq<Event>, set<Id>) -> bool, mode: FlowMode, flight: seq<Event>, live: set<Id>,
                  mid: map<Id, Session>, now: map<Id, Session>,
                  used: map<Id, nat>, order: seq<Id>, n: nat, share: nat)
    requires n < |order| && AllStuck(fits, mode, flight, live, mid, used, order, n, share)
    requires SameOthers(mid, now, order[n]) && now.Keys <= mid.Keys
    requires order[n] in now
             ==> Owed(now[order[n]]) == Owed(mid[order[n]]) && Stuck(fits, mode, flight, live, now[order[n]], Uses(used, order[n]), share)
    ensures AllStuck(fits, mode, flight, live, now, used, order, n + 1, share)
  {
    hide Owed;
    forall k | 0 <= k < n + 1 && order[k] in now ensures Stuck(fits, mode, flight, live, now[order[k]], Uses(used, order[k]), share) {
      assert order[k] in mid;
    }
  }

  lemma ServedNext(before: map<Id, Session>, now: map<Id, Session>, added: seq<Event>, mode: FlowMode,
                   added': seq<Event>, order: seq<Id>, n: nat, moved: Option<Event>)
    requires n < |order| && Served(before, added, order, n)
    requires added' == added + if moved.Some? then [moved.value] else []
    requires order[n] in before && Owed(before[order[n]]) != [] ==> For(added', order[n]) != []
    ensures Served(before, added', order, n + 1)
  {
    hide Owed, For;
    forall k | 0 <= k < n + 1 && order[k] in before && Owed(before[order[k]]) != [] ensures For(added', order[k]) != [] {
      if k < n {
        EmptyRight(added);
        if moved.Some? { ForSnoc(added, moved.value, order[k]); }
      }
    }
  }

  lemma ServedMore(before: map<Id, Session>, added: seq<Event>, more: seq<Event>, order: seq<Id>, n: nat)
    requires Served(before, added, order, n) && added <= more
    ensures Served(before, more, order, n)
  {
    hide Owed, For;
    forall k | 0 <= k < n <= |order| && order[k] in before && Owed(before[order[k]]) != [] ensures For(more, order[k]) != [] {
      ForGrows(added, more, order[k]);
    }
  }

  lemma {:induction false} ForGrows(added: seq<Event>, more: seq<Event>, id: Id)
    requires added <= more
    ensures For(added, id) <= For(more, id)
    decreases |more|
  {
    if added == more {
    } else {
      var before := more[..|more| - 1];
      assert more == before + [more[|more| - 1]];
      ForGrows(added, before, id);
      ForSnoc(before, more[|more| - 1], id);
    }
  }

  /** A session in turn has something in the poll: before, or now if it had anything. */
  lemma TurnTaken(fits: (FlowMode, seq<Event>, set<Id>) -> bool, mode: FlowMode, live: set<Id>,
                  before: map<Id, Session>, mid: map<Id, Session>, now: map<Id, Session>,
                  flight: seq<Event>, flight': seq<Event>, used: map<Id, nat>, share: nat, id: Id, moved: Option<Event>)
    requires Filling(before, mid, flight, flight', used, mode, share) && flight <= flight' && id in before
             && Owed(before[id]) != []
    requires AllFit(fits, mode, live)
    requires id in mid && Visited(fits, mode, flight', live, id, mid[id], moved, now)
    ensures var added := flight'[|flight|..]; For(added + (if moved.Some? then [moved.value] else []), id) != []
  {
    hide Shares, For, Later, Owed;
    var added := flight'[|flight|..];
    UsesOf(before, mid, flight, flight', used, mode, share, id);
    EmptyRight(added);
    if moved.Some? {
      ForSnoc(added, moved.value, id);
    } else {
      assert Owed(mid[id]) == [] || !fits(mode, flight' + [Owed(mid[id])[0]], live);
      EmptyRight(For(added, id));
    }
  }

  /** Every poll fits and there is room: the first event of each session in the order is
      taken, and what is taken of it is what it had first. */
  lemma FirstTaken(fits: (FlowMode, seq<Event>, set<Id>) -> bool, mode: FlowMode, order: seq<Id>,
                   before: map<Id, Session>, flight: seq<Event>, now: map<Id, Session>, flight': seq<Event>, id: Id)
    requires Filled(fits, mode, order, before, flight, now, flight') && AllFit(fits, mode, before.Keys)
    requires |flight| + |order| <= (if mode == Legacy then 16 else 15) && id in order && id in before && Owed(before[id]) != []
    ensures var taken := For(flight'[|flight|..], id);
            taken != [] && taken <= Owed(before[id]) && taken[0] == Owed(before[id])[0]
  {
    hide Owed, For, Later, Stuck, AllFit;
    var k :| 0 <= k < |order| && order[k] == id;
    assert Share(before, now, flight'[|flight|..], id, mode);
  }

  /** The only live session, and it has no write in flight. */
  predicate Alone(id: Id, sessions: map<Id, Session>) {
    sessions.Keys == {id} && !sessions[id].cancelled && sessions[id].bodyCommand.None?
  }

  /** A session that is alone gives two events to a poll. */
  lemma AloneTaken(fits: (FlowMode, seq<Event>, set<Id>) -> bool, mode: FlowMode, id: Id, before: map<Id, Session>,
                   now: map<Id, Session>, flight: seq<Event>)
    requires Filled(fits, mode, [id], before, [], now, flight) && mode != Legacy && AllFit(fits, mode, {id})
             && Alone(id, before)
    ensures now.Keys == {id} && Moved(before[id], now[id])
    ensures Waiting(before[id]) == flight + Waiting(now[id]) && |flight| == if |Waiting(before[id])| < 2 then |Waiting(before[id])| else 2
  {
    hide For, Owed, AllFit;
    assert flight[0..] == flight;
    assert |before.Keys| == |before| == 1;
    forall x ensures x != id ==> For(flight, x) == [] { assert Share(before, now, flight, x, mode); }
    OneFor(flight, id);
    assert Share(before, now, flight, id, mode);
    forall x | x in now ensures x == id { assert Share(before, now, flight, x, mode); }
    OwedAlone(before[id]);
    OwedAlone(now[id]);
    assert [id][0] == id;
    assert Stuck(fits, mode, flight, {id}, now[id], |flight|, 2);
    AllFitAt(fits, mode, {id}, flight, Owed(now[id]));
  }

  lemma AllFitAt(fits: (FlowMode, seq<Event>, set<Id>) -> bool, mode: FlowMode, live: set<Id>, flight: seq<Event>,
                 owed: seq<Event>)
    requires AllFit(fits, mode, live)
    ensures owed != [] ==> fits(mode, flight + [owed[0]], live)
  {
  }

  lemma OwedAlone(s: Session)
    ensures s.bodyCommand.None? ==> Owed(s) == Waiting(s)
  {
    EmptyRight(s.events);
  }

  lemma {:induction false} OneFor(events: seq<Event>, id: Id)
    requires forall x :: x != id ==> For(events, x) == []
    ensures For(events, id) == events
    decreases |events|
  {
    if events != [] {
      assert events[0].requestID != id ==> For(events, events[0].requestID) == [];
      forall x ensures x != id ==> For(events[1..], x) == [] {
        assert x != id ==> For(events, x) == [];
      }
      OneFor(events[1..], id);
      Uncons(events);
    }
  }

  /** The poll after an answer was put into it, if there is room and it fits. */
  ghost function Offer(fits: (FlowMode, seq<Event>, set<Id>) -> bool, mode: FlowMode, flight: seq<Event>, live: set<Id>,
                       e: Event): seq<Event> {
    if |flight| < (if mode == Legacy then 16 else 15) && fits(mode, flight + [e], live) then flight + [e] else flight
  }

  /** An accepted command is answered so; where something new was begun and that answer
      finds no room, an error is offered in its place. */
  ghost function AnswerOf(fits: (FlowMode, seq<Event>, set<Id>) -> bool, mode: FlowMode, flight: seq<Event>,
                          live: set<Id>, c: Command, begun: bool): seq<Event> {
    var accepted := Offer(fits, mode, flight, live, AcceptedFor(c));
    if begun && accepted == flight then Offer(fits, mode, flight, live, FailedFor(c)) else accepted
  }

  datatype Outcome = Refuse | Accept(begun: bool) | Writes

  /** What becomes of a new command. */
  ghost function OutcomeOf(sessions: map<Id, Session>, c: Command): Outcome {
    var known := c.requestID in sessions;
    match c.kind
    case Unsupported => Refuse
    case Cancel => Accept(false)
    case Request =>
      if known then Accept(false) else if |sessions| >= 128 || !c.parses then Refuse else Accept(true)
    case Body =>
      if !known then Refuse
      else
        var s := sessions[c.requestID];
        if s.bodyCommand.Some? then if s.bodyCommand.value.id == c.id then Writes else Refuse
        else if c.offset != s.bodyOffset || s.cancelled then Refuse
        else if s.bodyDiscard then Accept(true)
        else if s.bodyWriter then Writes
        else Refuse
  }

  /** The sessions whose context is not done. */
  function Uncancelled(sessions: map<Id, Session>): map<Id, Session> {
    map id | id in sessions && !sessions[id].cancelled :: sessions[id]
  }

  ghost predicate NoWrites(sessions: map<Id, Session>) { forall id :: id in sessions ==> sessions[id].bodyCommand.None? }

  lemma NoWriteHere(before: map<Id, Session>, now: map<Id, Session>, flight: seq<Event>, flight': seq<Event>,
                    used: map<Id, nat>, mode: FlowMode, share: nat, id: Id)
    requires Filling(before, now, flight, flight', used, mode, share) && id in now
    ensures NoWrites(before) ==> now[id].bodyCommand.None?
  {
    hide Owed, For;
    UsesOf(before, now, flight, flight', used, mode, share, id);
  }

  lemma SameWaiting(s: Session, s': Session)
    requires s'.pending + s'.events == s.pending + s.events
    ensures Waiting(s') == Waiting(s)
  {
  }

  predicate BlockAccepted(sessions: map<Id, Session>, c: Command) {
    c.requestID in sessions &&
    var s := sessions[c.requestID];
    s.bodyCommand.None? && c.offset == s.bodyOffset && !s.cancelled && (s.bodyDiscard || s.bodyWriter)
  }

  /** A session that accepted a block: it is being written, or discarded after an
      early response. */
  function WithBlock(s: Session, c: Command): Session {
    if s.bodyDiscard then s.(bodyOffset := s.bodyOffset + |c.data|) else s.(bodyCommand := Some(c))
  }

  /** A write fails unless the handler took the whole block or had already answered. */
  predicate WriteFailed(s: Session)
    requires s.bodyCommand.Some? && s.bodyResult.Some?
  {
    !s.handlerDone && (s.bodyResult.value.failed || s.bodyResult.value.written != |s.bodyCommand.value.data|)
  }

  function ReportOf(s: Session): Event
    requires s.bodyCommand.Some? && s.bodyResult.Some?
  {
    var e := AcceptedFor(s.bodyCommand.value);
    if WriteFailed(s) then e.(kind := Error, error := "file relay request body write failed") else e
  }

  /** The offset moves over a block that was not refused; the body ends with its final
      block, with an early response, or with the session. */
  function Reported(s: Session): Session
    requires s.bodyCommand.Some? && s.bodyResult.Some?
  {
    var c := s.bodyCommand.value;
    var next := s.(bodyCommand := None, bodyResult := None, pending := s.pending + [ReportOf(s)]);
    if WriteFailed(s) then next.(cancelled := true)
    else next.(bodyOffset := s.bodyOffset + |c.data|,
               bodyDiscard := if s.handlerDone then !c.final else s.bodyDiscard,
               bodyWriter := s.bodyWriter && !c.final && !s.handlerDone)
  }

  lemma ReportedWaits(s: Session)
    requires s.bodyCommand.Some? && s.bodyResult.Some?
    ensures Reported(s).pending != []
  {
  }

  lemma MovedLater(a: Session, s: Session, s': Session)
    requires Later(a, s) && Moved(s, s')
    ensures Later(a, s')
  {
    assert Later(s, s');
    LaterTrans(a, s, s');
  }

  lemma UncancelledAll(sessions: map<Id, Session>)
    ensures Uncancelled(sessions) == sessions ==> forall id :: id in sessions ==> !sessions[id].cancelled
    ensures NoWrites(sessions) ==> NoWrites(Uncancelled(sessions))
  {
    forall id ensures Uncancelled(sessions) == sessions && id in sessions ==> !sessions[id].cancelled {
      if Uncancelled(sessions) == sessions && id in sessions { assert id in Uncancelled(sessions); }
    }
  }

  lemma NoneYet(fits: (FlowMode, seq<Event>, set<Id>) -> bool, mode: FlowMode, flight: seq<Event>, live: set<Id>,
                now: map<Id, Session>, used: map<Id, nat>,
                order: seq<Id>, share: nat, before: map<Id, Session>, added: seq<Event>)
    ensures AllStuck(fits, mode, flight, live, now, used, order, 0, share) && Served(before, added, order, 0)
  {
  }

  lemma FilledIs(fits: (FlowMode, seq<Event>, set<Id>) -> bool, mode: FlowMode, order: seq<Id>,
                 before: map<Id, Session>, flight: seq<Event>, now: map<Id, Session>, flight': seq<Event>,
                 used: map<Id, nat>, share: nat)
    requires flight <= flight' && Filling(before, now, flight, flight', used, mode, share) && share == if |before| == 1 then 2 else 1
    requires |flight'| <= if mode == Legacy then 16 else 15
    requires |flight'| < (if mode == Legacy then 16 else 15) ==> AllStuck(fits, mode, flight', before.Keys, now, used, order, |order|, share)
    requires AllFit(fits, mode, before.Keys) && |flight| + |order| <= (if mode == Legacy then 16 else 15) ==>
               Served(before, flight'[|flight|..], order, |order|)
    ensures Filled(fits, mode, order, before, flight, now, flight')
  {
    hide Shares, For, Stuck, Served, AllFit;
  }

  /** One visit of a pass. */
  lemma VisitStep(fits: (FlowMode, seq<Event>, set<Id>) -> bool, mode: FlowMode, live: set<Id>,
                  before: map<Id, Session>, mid: map<Id, Session>, now: map<Id, Session>,
                  flight: seq<Event>, flight': seq<Event>, used: map<Id, nat>, share: nat, order: seq<Id>, n: nat,
                  moved: Option<Event>)
    requires n < |order| && flight <= flight' && Filling(before, mid, flight, flight', used, mode, share)
    requires SameOthers(mid, now, order[n]) && now.Keys <= mid.Keys && (mode == Legacy || Uses(used, order[n]) < share)
    requires order[n] in mid ==> Visited(fits, mode, flight', live, order[n], mid[order[n]], moved, now)
    requires order[n] !in mid ==> moved.None? && now == mid
    ensures moved.Some? ==> Filling(before, now, flight, flight' + [moved.value], used[order[n] := Uses(used, order[n]) + 1], mode, share)
    ensures moved.None? ==> Filling(before, now, flight, flight', used, mode, share)
    ensures moved.None? && AllStuck(fits, mode, flight', live, mid, used, order, n, share) ==>
              AllStuck(fits, mode, flight', live, now, used, order, n + 1, share)
    ensures AllFit(fits, mode, live) && Served(before, flight'[|flight|..], order, n) ==>
              moved.Some? ==> Served(before, (flight' + [moved.value])[|flight|..], order, n + 1)
    ensures AllFit(fits, mode, live) && Served(before, flight'[|flight|..], order, n) ==>
              moved.None? ==> Served(before, flight'[|flight|..], order, n + 1)
  {
    var id, added := order[n], flight'[|flight|..];
    hide Filling, Served, AllStuck, AllFit, SameOthers, Later, Owed, For;
    VisitFills(fits, mode, live, before, mid, now, flight, flight', used, share, id, moved);
    if moved.None? && AllStuck(fits, mode, flight', live, mid, used, order, n, share) {
      StuckNext(fits, mode, flight', live, mid, now, used, order, n, share);
    }
    if AllFit(fits, mode, live) && Served(before, added, order, n) {
      var added' := added + if moved.Some? then [moved.value] else [];
      assert moved.Some? ==> (flight' + [moved.value])[|flight|..] == added';
      EmptyRight(added);
      if id in before && Owed(before[id]) != [] {
        if id in mid {
          TurnTaken(fits, mode, live, before, mid, now, flight, flight', used, share, id, moved);
        } else {
          UsesOf(before, mid, flight, flight', used, mode, share, id);
        }
      }
      ServedNext(before, now, added, mode, added', order, n, moved);
    }
  }

  lemma VisitFills(fits: (FlowMode, seq<Event>, set<Id>) -> bool, mode: FlowMode, live: set<Id>,
                   before: map<Id, Session>, mid: map<Id, Session>, now: map<Id, Session>,
                   flight: seq<Event>, flight': seq<Event>, used: map<Id, nat>, share: nat, id: Id,
                   moved: Option<Event>)
    requires Filling(before, mid, flight, flight', used, mode, share)
    requires SameOthers(mid, now, id) && now.Keys <= mid.Keys && (mode == Legacy || Uses(used, id) < share)
    requires id in mid ==> Visited(fits, mode, flight', live, id, mid[id], moved, now)
    requires id !in mid ==> moved.None? && now == mid
    ensures moved.Some? ==> Filling(before, now, flight, flight' + [moved.value], used[id := Uses(used, id) + 1], mode, share)
    ensures moved.None? ==> Filling(before, now, flight, flight', used, mode, share)
  {
    hide Filling, SameOthers, Later, Owed, Uses;
    if moved.Some? {
      FillingNext(before, mid, now, flight, flight', used, mode, share, id, moved.value);
    } else if id in mid {
      FillingKept(before, mid, now, flight, flight', used, mode, share, id);
    }
  }

  /** A session passed over because the poll is full or its share is used. */
  lemma SkipStep(fits: (FlowMode, seq<Event>, set<Id>) -> bool, mode: FlowMode, live: set<Id>, before: map<Id, Session>,
                 now: map<Id, Session>,
                 flight: seq<Event>, flight': seq<Event>, used: map<Id, nat>, share: nat, order: seq<Id>, n: nat)
    requires n < |order| && share > 0 && Filling(before, now, flight, flight', used, mode, share) && flight <= flight'
    ensures mode != Legacy && Uses(used, order[n]) >= share
            && AllStuck(fits, mode, flight', live, now, used, order, n, share) ==>
              AllStuck(fits, mode, flight', live, now, used, order, n + 1, share)
    ensures Uses(used, order[n]) >= share && Served(before, flight'[|flight|..], order, n)
            ==> Served(before, flight'[|flight|..], order, n + 1)
  {
    hide Filling, Owed, Share, For, Uses, Served;
    UsesOf(before, now, flight, flight', used, mode, share, order[n]);
    EmptyRight(flight'[|flight|..]);
    SameOthersSelf(now, order[n]);
    hide AllStuck;
    if mode != Legacy && Uses(used, order[n]) >= share && AllStuck(fits, mode, flight', live, now, used, order, n, share) {
      StuckNext(fits, mode, flight', live, now, now, used, order, n, share);
    }
    if Uses(used, order[n]) >= share && Served(before, flight'[|flight|..], order, n) {
      ServedNext(before, now, flight'[|flight|..], mode, flight'[|flight|..], order, n, None);
    }
  }

  class LightFileControl {
    var sessions: map<Id, Session>
    var pendingEvents: seq<Event>
    var processed: map<Id, Event>
    var processedIDs: seq<Id>
    var centerEpoch: string
    var flowMode: FlowMode
    /** Whether a poll with these events fits the payload limit. */
    const fits: (FlowMode, seq<Event>, set<Id>) -> bool
    ghost var traces: map<Id, Trace>
    /** For each reply, the sessions that left because their end was acknowledged. */
    ghost var departed: seq<map<Id, Trace>>
    /** The command ids whose results were remembered since the last reset. */
    ghost var results: seq<Id>

    ghost predicate Valid()
      reads this
    {
      && Live(sessions, traces, pendingEvents)
      && History(departed)
      && LogOk(processed, processedIDs, results)
      && |pendingEvents| <= EVENT_LIMIT
    }

    constructor (fits: (FlowMode, seq<Event>, set<Id>) -> bool)
      ensures Valid() && sessions == map[] && pendingEvents == [] && processedIDs == [] && flowMode == Probe
              && centerEpoch == "" && this.fits == fits
    {
      this.fits := fits;
      sessions, pendingEvents, processed, processedIDs := map[], [], map[], [];
      centerEpoch, flowMode, traces, departed, results := "", Probe, map[], [], [];
    }

    function EventLimit(): nat
      reads this`flowMode
    {
      if flowMode == Legacy then EVENT_LIMIT else EVENT_LIMIT - 1
    }

    // -- Steps of handlers, body workers and contexts --

    /** The response writer of a handler puts its next event into the channel. */
    method HandlerSend(id: Id, e: Event)
      requires Valid() && id in sessions
      requires e.requestID == id && !sessions[id].cancelled && |sessions[id].events| < EVENT_LIMIT
      requires Sendable(sessions[id].writer, sessions[id].head, e)
      modifies this`sessions, this`traces
      ensures Valid() && id in old(traces) && sessions.Keys == old(sessions).Keys
      ensures traces == old(traces)[id := old(traces)[id].(emitted := old(traces)[id].emitted + [e])]
      ensures sessions == old(sessions)[id := old(sessions)[id].(events := old(sessions)[id].events + [e], writer := Sent(old(sessions)[id].writer, e))]
    {
      hide Live, Good, Sendable, Sent, LogOk, History;
      SameKeys(sessions, traces, pendingEvents);
      LiveAt(sessions, traces, pendingEvents, id);
      SendKeeps(id, sessions[id], traces[id], pendingEvents, e);
      var s := sessions[id].(events := sessions[id].events + [e], writer := Sent(sessions[id].writer, e));
      ghost var t := traces[id].(emitted := traces[id].emitted + [e]);
      Replaced(sessions, traces, pendingEvents, id, s, t);
      sessions, traces := sessions[id := s], traces[id := t];
    }

    method HandlerExit(id: Id)
      requires Valid() && id in sessions
      modifies this`sessions
      ensures Valid() && sessions == old(sessions)[id := old(sessions)[id].(handlerDone := true)]
    {
      Quiet(id, sessions[id].(handlerDone := true));
    }

    method ContextDone(id: Id)
      requires Valid() && id in sessions
      modifies this`sessions
      ensures Valid() && sessions == old(sessions)[id := old(sessions)[id].(cancelled := true)]
    {
      Quiet(id, sessions[id].(cancelled := true));
    }

    /** The body worker reports how much of its one write the handler consumed. */
    method WorkerDone(id: Id, r: BodyResult)
      requires Valid() && id in sessions && sessions[id].bodyCommand.Some? && sessions[id].bodyResult.None?
      modifies this`sessions
      ensures Valid() && sessions == old(sessions)[id := old(sessions)[id].(bodyResult := Some(r))]
    {
      Quiet(id, sessions[id].(bodyResult := Some(r)));
    }

    /** Changes of a session that touch neither its queues nor its body offset. */
    method Quiet(id: Id, s: Session)
      requires Valid() && id in sessions
      requires var o := sessions[id];
               && s.events == o.events && s.pending == o.pending && s.head == o.head && s.writer == o.writer
               && s.bodyCommand == o.bodyCommand && s.bodyOffset == o.bodyOffset
               && (s.bodyResult.Some? ==> s.bodyCommand.Some?)
               && (o.cancelled ==> s.cancelled)
      modifies this`sessions
      ensures Valid() && sessions == old(sessions)[id := s]
    {
      hide Live, Good, LogOk, History;
      SameKeys(sessions, traces, pendingEvents);
      LiveAt(sessions, traces, pendingEvents, id);
      QuietKeeps(id, sessions[id], s, traces[id], pendingEvents);
      Replaced(sessions, traces, pendingEvents, id, s, traces[id]);
      assert traces[id := traces[id]] == traces;
      sessions := sessions[id := s];
    }
  
    // -- The control loop --

    method ResetSessions()
      requires History(departed)
      modifies this`sessions, this`pendingEvents, this`processed, this`processedIDs, this`results, this`traces
      ensures Valid() && sessions == map[] && pendingEvents == [] && processed == map[] && processedIDs == []
    {
      sessions, pendingEvents, processed, processedIDs, traces, results := map[], [], map[], [], map[], [];
      assert sessions.Keys == {} && traces.Keys == {};
      LogEmpty(processed);
    }

    method RememberCommandResult(id: Id, e: Event)
      requires LogOk(processed, processedIDs, results) && !InStream(e)
      modifies this`processed, this`processedIDs, this`results
      ensures LogOk(processed, processedIDs, results) && processedIDs == Remember(old(processedIDs), id)
              && results == old(results) + [id]
      ensures id in processed && processed[id] == if id in old(processed) then old(processed)[id] else e
      ensures forall x :: x in processed && x != id ==> x in old(processed) && processed[x] == old(processed)[x]
    {
      RememberAllSnoc([], results, id);
      results := results + [id];
      if id in processed {
        return;
      }
      processed := processed[id := e];
      processedIDs := processedIDs + [id];
      if |processedIDs| <= LOG_LIMIT {
        return;
      }
      DropFirst(processedIDs);
      processed := processed - {processedIDs[0]};
      processedIDs := processedIDs[1..];
    }

    method QueueEvent(e: Event) returns (ok: bool)
      requires Valid() && !InStream(e)
      modifies this`pendingEvents
      ensures Valid()
      ensures pendingEvents == Offer(fits, flowMode, old(pendingEvents), sessions.Keys, e)
              && (ok <==> pendingEvents != old(pendingEvents))
    {
      hide Live, LogOk;
      if |pendingEvents| >= EventLimit() {
        return false;
      }
      if !fits(flowMode, pendingEvents + [e], sessions.Keys) {
        return false;
      }
      Queued(sessions, traces, pendingEvents, e);
      pendingEvents := pendingEvents + [e];
      return true;
    }

    /** Logs a command result and queues it. */
    method Answer(c: Command, e: Event) returns (ok: bool)
      requires Valid() && !InStream(e)
      modifies this`pendingEvents, this`processed, this`processedIDs, this`results
      ensures Valid() && Logged(old(processed), processed, c.id, e)
      ensures processedIDs == Remember(old(processedIDs), c.id)
      ensures pendingEvents == Offer(fits, flowMode, old(pendingEvents), sessions.Keys, e)
              && (ok <==> pendingEvents != old(pendingEvents))
    {
      hide Live, LogOk;
      RememberCommandResult(c.id, e);
      ok := QueueEvent(e);
    }

    /** Starts a session, or repeats the answer for a live one. Its trace begins with
        whatever stream events of an earlier session with the same id are still in
        flight. */
    method StartRequest(c: Command) returns (ok: bool)
      requires Valid()
      modifies this`pendingEvents, this`processed, this`processedIDs, this`results, this`sessions, this`traces
      ensures Valid()
      ensures c.requestID in old(sessions) ==>
                && ok && sessions == old(sessions) && traces == old(traces)
                && processedIDs == Remember(old(processedIDs), c.id)
                && Logged(old(processed), processed, c.id, AcceptedFor(c))
                && pendingEvents == Offer(fits, flowMode, old(pendingEvents), sessions.Keys, AcceptedFor(c))
      ensures c.requestID !in old(sessions) && (|old(sessions)| >= 128 || !c.parses) ==>
                !ok && sessions == old(sessions) && traces == old(traces) && processed == old(processed) && processedIDs == old(processedIDs) && pendingEvents == old(pendingEvents)
      ensures c.requestID !in old(sessions) && |old(sessions)| < 128 && c.parses ==>
                && sessions == old(sessions)[c.requestID := Opened(c)]
                && processedIDs == Remember(old(processedIDs), c.id)
                && Logged(old(processed), processed, c.id, AcceptedFor(c))
                && traces == old(traces)[c.requestID := Trace(Proj(old(pendingEvents), c.requestID), [], [], [])]
                && pendingEvents == Offer(fits, flowMode, old(pendingEvents), sessions.Keys, AcceptedFor(c))
                && (ok <==> pendingEvents != old(pendingEvents))
    {
      hide Live, LogOk, Proj;
      if c.requestID in sessions {
        var _ := Answer(c, AcceptedFor(c));
        return true;
      }
      if |sessions| >= MAX_REQUESTS || !c.parses {
        return false;
      }
      var s := Opened(c);
      Added(sessions, traces, pendingEvents, c.requestID, s);
      traces := traces[c.requestID := Trace(Proj(pendingEvents, c.requestID), [], [], [])];
      sessions := sessions[c.requestID := s];
      ok := Answer(c, AcceptedFor(c));
    }

    /** One body block. It is accepted exactly at the current end of the body, while
        no write is in flight, the session is alive and its body is still open. */
    method WriteRequestBody(c: Command) returns (ok: bool)
      requires Valid()
      modifies this`pendingEvents, this`processed, this`processedIDs, this`results, this`sessions, this`traces
      ensures Valid() && sessions.Keys == old(sessions).Keys
      ensures !BlockAccepted(old(sessions), c) ==>
                && sessions == old(sessions) && traces == old(traces) && processed == old(processed)
                && pendingEvents == old(pendingEvents)
                && (ok <==> c.requestID in sessions && sessions[c.requestID].bodyCommand.Some? && sessions[c.requestID].bodyCommand.value.id == c.id)
      ensures BlockAccepted(old(sessions), c) ==>
                && c.requestID in old(traces)
                && c.offset == Total(old(traces)[c.requestID].blocks)
                && traces == old(traces)[c.requestID := old(traces)[c.requestID].(blocks := old(traces)[c.requestID].blocks + [c])]
                && sessions == old(sessions)[c.requestID := WithBlock(old(sessions)[c.requestID], c)]
                && (if old(sessions)[c.requestID].bodyDiscard
                    then && Logged(old(processed), processed, c.id, AcceptedFor(c)) && (ok <==> pendingEvents != old(pendingEvents))
                         && pendingEvents == Offer(fits, flowMode, old(pendingEvents), sessions.Keys, AcceptedFor(c))
                    else ok && processed == old(processed) && pendingEvents == old(pendingEvents))
    {
      hide Live, LogOk, Good, Total;
      var id := c.requestID;
      if id in sessions && sessions[id].bodyCommand.Some? {
        return sessions[id].bodyCommand.value.id == c.id;
      }
      if id !in sessions || c.offset != sessions[id].bodyOffset {
        return false;
      }
      if sessions[id].cancelled {
        return false;
      }
      var s := sessions[id];
      LiveAt(sessions, traces, pendingEvents, id);
      ghost var t := traces[id].(blocks := traces[id].blocks + [c]);
      if s.bodyDiscard {
        BlockDiscarded(id, s, traces[id], pendingEvents, c);
        Replaced(sessions, traces, pendingEvents, id, WithBlock(s, c), t);
        sessions := sessions[id := s.(bodyOffset := s.bodyOffset + |c.data|)];
        traces := traces[id := t];
        ok := Answer(c, AcceptedFor(c));
        return;
      }
      if !s.bodyWriter {
        return false;
      }
      BlockStarted(id, s, traces[id], pendingEvents, c);
      Replaced(sessions, traces, pendingEvents, id, s.(bodyCommand := Some(c)), t);
      sessions := sessions[id := s.(bodyCommand := Some(c))];
      traces := traces[id := t];
      return true;
    }

    method CancelRequest(c: Command)
      requires Valid()
      modifies this`pendingEvents, this`processed, this`processedIDs, this`results, this`sessions, this`traces
      ensures Valid() && c.requestID !in sessions
      ensures sessions == old(sessions) - {c.requestID} && traces == old(traces) - {c.requestID}
      ensures Logged(old(processed), processed, c.id, AcceptedFor(c))
              && pendingEvents == Offer(fits, flowMode, old(pendingEvents), sessions.Keys, AcceptedFor(c))
      ensures processedIDs == Remember(old(processedIDs), c.id)
    {
      hide Live, LogOk;
      Removed(sessions, traces, pendingEvents, c.requestID);
      sessions, traces := sessions - {c.requestID}, traces - {c.requestID};
      var _ := Answer(c, AcceptedFor(c));
    }

    /** Collects the result of the write in flight, if there is one. The body
        offset then counts the whole block, or the session is cancelled. */
    method CollectBodyResult(id: Id)
      requires Valid() && id in sessions
      modifies this`processed, this`processedIDs, this`results, this`sessions
      ensures Valid() && sessions.Keys == old(sessions).Keys
      ensures var s := old(sessions)[id];
              if s.bodyCommand.None? || |s.pending| >= EVENT_LIMIT || s.bodyResult.None? then sessions == old(sessions) && processed == old(processed) && processedIDs == old(processedIDs)
              else && sessions == old(sessions)[id := Reported(s)] && s.bodyCommand.value.id in processed
                   && processedIDs == Remember(old(processedIDs), s.bodyCommand.value.id)
    {
      hide Live, LogOk, Good;
      var s := sessions[id];
      if s.bodyCommand.None? || |s.pending| >= EVENT_LIMIT || s.bodyResult.None? {
        return;
      }
      LiveAt(sessions, traces, pendingEvents, id);
      WriteOf(id, s, traces[id], pendingEvents);
      var next, e := AfterResult(s);
      ResultKeeps(id, s, next, traces[id], pendingEvents, e);
      RememberCommandResult(s.bodyCommand.value.id, e);
      Replaced(sessions, traces, pendingEvents, id, next, traces[id]);
      assert traces[id := traces[id]] == traces;
      sessions := sessions[id := next];
    }

    /** The session after its write in flight has been reported, and the answer. */
    method AfterResult(s: Session) returns (next: Session, e: Event)
      requires s.bodyCommand.Some? && s.bodyResult.Some?
      ensures e == ReportOf(s) && next == Reported(s)
    {
      var c, result, finished := s.bodyCommand.value, s.bodyResult.value, s.handlerDone;
      next, e := s.(bodyCommand := None, bodyResult := None), AcceptedFor(c);
      if (result.failed || result.written != |c.data|) && !finished {
        e := e.(kind := Error, error := "file relay request body write failed");
        next := next.(cancelled := true);
      } else {
        if finished {
          next := next.(bodyOffset := s.bodyOffset + |c.data|, bodyDiscard := !c.final);
        } else {
          next := next.(bodyOffset := s.bodyOffset + result.written);
        }
        if c.final || finished {
          next := next.(bodyWriter := false);
        }
      }
      next := next.(pending := s.pending + [e]);
    }

    /** Moves events from the channel to the session while there is room. */
    method Drain(id: Id)
      requires Valid() && id in sessions
      modifies this`sessions
      ensures Valid() && sessions.Keys == old(sessions).Keys
      ensures SameOthers(old(sessions), sessions, id)
      ensures var s, s' := old(sessions)[id], sessions[id];
              && s' == s.(pending := s'.pending, events := s'.events) && s.pending <= s'.pending
              && s'.pending + s'.events == s.pending + s.events
      ensures sessions[id].events == [] || |sessions[id].pending| >= 16
      ensures sessions[id].pending != old(sessions)[id].pending ==> |sessions[id].pending| <= 16
    {
      hide Live, LogOk, Good;
      while |sessions[id].pending| < EVENT_LIMIT && sessions[id].events != []
        invariant Valid() && sessions.Keys == old(sessions).Keys && id in sessions
        invariant SameOthers(old(sessions), sessions, id)
        invariant var s, s' := old(sessions)[id], sessions[id];
                  && s' == s.(pending := s'.pending, events := s'.events) && s.pending <= s'.pending
                  && s'.pending + s'.events == s.pending + s.events && (s'.pending != s.pending ==> |s'.pending| <= 16)
        decreases |sessions[id].events|
      {
        var s := sessions[id];
        var next := s.(pending := s.pending + [s.events[0]], events := s.events[1..]);
        LiveAt(sessions, traces, pendingEvents, id);
        DrainKeeps(id, s, next, traces[id], pendingEvents);
        Uncons(s.events);
        Assoc(s.pending, [s.events[0]], s.events[1..]);
        Replaced(sessions, traces, pendingEvents, id, next, traces[id]);
        assert traces[id := traces[id]] == traces;
        sessions := sessions[id := next];
      }
    }

    // -- Collecting a poll --

    /** Sessions whose context is done leave, with whatever they still held. */
    method Expire()
      requires Valid()
      modifies this`sessions, this`traces
      ensures Valid() && Submap(traces, old(traces)) && Submap(sessions, old(sessions))
      ensures sessions == Uncancelled(old(sessions))
      ensures (forall id :: id in old(sessions) ==> !old(sessions)[id].cancelled) ==> traces == old(traces) && sessions == old(sessions)
    {
      hide Good, LogOk, Proj;
      var done := set id | id in sessions && sessions[id].cancelled;
      sessions, traces := sessions - done, traces - done;
    }

    /** What the handler and the body worker have produced comes to the session. */
    method Gather(id: Id)
      requires Valid() && id in sessions
      modifies this`sessions, this`processed, this`processedIDs, this`results
      ensures Valid() && sessions.Keys == old(sessions).Keys && SameOthers(old(sessions), sessions, id)
      ensures Later(old(sessions)[id], sessions[id]) && Owed(sessions[id]) == Owed(old(sessions)[id])
      ensures sessions[id].pending == [] ==> Owed(sessions[id]) == []
      ensures old(sessions)[id].bodyCommand.None? ==> processedIDs == old(processedIDs)
    {
      hide Live, LogOk, Good, SameOthers, Reported, ReportOf, Owed;
      Drain(id);
      ghost var s := sessions[id];
      SameWaiting(old(sessions)[id], s);
      OwedMoved(old(sessions)[id], s);
      assert Later(s, s);
      if s.bodyCommand.Some? && s.bodyResult.Some? {
        SameOthersPut(old(sessions), sessions, id, Reported(s));
        if s.events == [] { OwedReported(s); }
      }
      CollectBodyResult(id);
      LaterTrans(old(sessions)[id], s, sessions[id]);
      OwedHead(sessions[id]);
      if s.bodyCommand.Some? && s.bodyResult.Some? { ReportedWaits(s); }
    }

    /** Offers the next event of one session to the poll being built. */
    method CollectOne(id: Id, live: set<Id>) returns (moved: Option<Event>)
      requires Valid() && |pendingEvents| < EventLimit()
      modifies this`sessions, this`pendingEvents, this`processed, this`processedIDs, this`results, this`traces
      ensures Valid() && Submap(traces, old(traces)) && (flowMode != Legacy ==> traces == old(traces))
      ensures pendingEvents == old(pendingEvents) + (if moved.Some? then [moved.value] else [])
      ensures SameOthers(old(sessions), sessions, id) && sessions.Keys <= old(sessions).Keys
      ensures id in old(sessions)
              ==> Visited(fits, flowMode, old(pendingEvents), live, id, old(sessions)[id], moved, sessions)
      ensures id !in old(sessions) ==> moved.None? && sessions == old(sessions) && processedIDs == old(processedIDs)
      ensures id in old(sessions) && old(sessions)[id].bodyCommand.None? ==> processedIDs == old(processedIDs)
    {
      hide Live, LogOk, Good, Submap, Owed, SameOthers, Later;
      SubmapSame(traces);
      EmptyRight(pendingEvents);
      if id !in sessions {
        SameOthersSelf(sessions, id);
        return None;
      }
      Gather(id);
      OwedHead(sessions[id]);
      if sessions[id].pending == [] {
        return None;
      }
      var candidate := sessions[id].pending[0];
      if !fits(flowMode, pendingEvents + [candidate], live) {
        return None;
      }
      ghost var s := sessions[id];
      SameOthersPut(old(sessions), sessions, id, s.(pending := s.pending[1..]));
      MovedLater(old(sessions)[id], s, s.(pending := s.pending[1..]));
      Take(id);
      if candidate.kind == End && flowMode == Legacy {
        Removed(sessions, traces, pendingEvents, id);
        SubmapRemoved(traces, id);
        SameOthersWithout(old(sessions), sessions, id);
        sessions, traces := sessions - {id}, traces - {id};
      }
      return Some(candidate);
    }

    /** Moves the first pending event of a session into the poll. */
    method Take(id: Id)
      requires Valid() && id in sessions && sessions[id].pending != [] && |pendingEvents| < EVENT_LIMIT
      modifies this`sessions, this`pendingEvents
      ensures Valid() && sessions.Keys == old(sessions).Keys && old(sessions)[id].pending[0].requestID == id
      ensures pendingEvents == old(pendingEvents) + [old(sessions)[id].pending[0]]
      ensures sessions == old(sessions)[id := old(sessions)[id].(pending := old(sessions)[id].pending[1..])]
    {
      hide Live, LogOk, Good;
      SameKeys(sessions, traces, pendingEvents);
      Taken(sessions, traces, pendingEvents, id);
      assert traces[id := traces[id]] == traces;
      var s := sessions[id];
      pendingEvents := pendingEvents + [s.pending[0]];
      sessions := sessions[id := s.(pending := s.pending[1..])];
    }

    /** Builds the next poll. `order` is the visiting order of the sessions, which
        the source rotates. A poll that has not been acknowledged is offered again
        unchanged, except that the legacy mode fills it up. */
    method CollectEvents(order: seq<Id>) returns (events: seq<Event>)
      requires Valid()
      modifies this`sessions, this`pendingEvents, this`processed, this`processedIDs, this`results, this`traces
      ensures Valid() && events == pendingEvents && Submap(traces, old(traces))
      ensures var alive, limit := Uncancelled(old(sessions)), if flowMode == Legacy then 16 else 15;
              if (flowMode != Legacy && old(pendingEvents) != []) || |old(pendingEvents)| >= limit
              then pendingEvents == old(pendingEvents) && sessions == alive && processedIDs == old(processedIDs)
              else Filled(fits, flowMode, order, alive, old(pendingEvents), sessions, pendingEvents)
      ensures flowMode != Legacy && Uncancelled(old(sessions)) == old(sessions) ==> traces == old(traces)
      ensures NoWrites(old(sessions)) ==> processedIDs == old(processedIDs)
    {
      hide Live, LogOk, Good, Submap, Filled;
      UncancelledAll(sessions);
      Expire();
      SubmapSame(traces);
      if (flowMode != Legacy && |pendingEvents| > 0) || |pendingEvents| >= EventLimit() {
        return pendingEvents;
      }
      ghost var before := traces;
      FillPoll(order);
      SubmapTrans(traces, before, old(traces));
      return pendingEvents;
    }

    /** Passes over the sessions until nothing moves or the poll is full. */
    method FillPoll(order: seq<Id>)
      requires Valid() && |pendingEvents| < EventLimit()
      modifies this`sessions, this`pendingEvents, this`processed, this`processedIDs, this`results, this`traces
      ensures Valid() && Submap(traces, old(traces)) && (flowMode != Legacy ==> traces == old(traces))
      ensures Filled(fits, flowMode, order, old(sessions), old(pendingEvents), sessions, pendingEvents)
      ensures NoWrites(old(sessions)) ==> processedIDs == old(processedIDs)
    {
      hide Live, LogOk, Good, Submap, Filling, Filled, AllStuck, Served, AllFit, NoWrites;
      SubmapSame(traces);
      ghost var before, flight := sessions, pendingEvents;
      var live := sessions.Keys;
      var used: map<Id, nat> := map[];
      var share := if |sessions| == 1 then 2 else 1;
      var progressed := true;
      FillingStarts(sessions, pendingEvents, flowMode, share);
      ghost var first := true;
      while progressed && |pendingEvents| < EventLimit()
        invariant Valid() && Submap(traces, old(traces)) && (flowMode != Legacy ==> traces == old(traces))
        invariant |pendingEvents| <= EventLimit() && flight <= pendingEvents
        invariant first ==> progressed && pendingEvents == flight
        invariant Filling(before, sessions, flight, pendingEvents, used, flowMode, share)
        invariant !progressed && |pendingEvents| < EventLimit() ==>
                    AllStuck(fits, flowMode, pendingEvents, live, sessions, used, order, |order|, share)
        invariant !first && AllFit(fits, flowMode, live) && |flight| + |order| <= EventLimit() ==>
                    Served(before, pendingEvents[|flight|..], order, |order|)
        invariant NoWrites(before) ==> processedIDs == old(processedIDs)
        decreases EventLimit() - |pendingEvents|, progressed
      {
        ghost var traces0, flight0 := traces, pendingEvents;
        progressed, used := CollectPass(order, used, share, live, before, flight);
        SubmapTrans(traces, traces0, old(traces));
        if !first && AllFit(fits, flowMode, live) && |flight| + |order| <= EventLimit() {
          ServedMore(before, flight0[|flight|..], pendingEvents[|flight|..], order, |order|);
        }
        first := false;
      }
      FilledIs(fits, flowMode, order, before, flight, sessions, pendingEvents, used, share);
    }

    /** One pass over the sessions: at most `share` events of each per poll. */
    method CollectPass(order: seq<Id>, used0: map<Id, nat>, share: nat, live: set<Id>, ghost before: map<Id, Session>,
                       ghost flight: seq<Event>)
      returns (progressed: bool, used: map<Id, nat>)
      requires Valid() && |pendingEvents| < EventLimit() && share > 0 && flight <= pendingEvents
      requires Filling(before, sessions, flight, pendingEvents, used0, flowMode, share)
      modifies this`sessions, this`pendingEvents, this`processed, this`processedIDs, this`results, this`traces
      ensures Valid() && Submap(traces, old(traces)) && (flowMode != Legacy ==> traces == old(traces))
      ensures old(pendingEvents) <= pendingEvents && |pendingEvents| <= EventLimit()
      ensures progressed <==> |pendingEvents| > |old(pendingEvents)|
      ensures Filling(before, sessions, flight, pendingEvents, used, flowMode, share)
      ensures !progressed ==> AllStuck(fits, flowMode, pendingEvents, live, sessions, used, order, |order|, share)
      ensures AllFit(fits, flowMode, live) && |old(pendingEvents)| + |order| <= EventLimit() ==>
                Served(before, pendingEvents[|flight|..], order, |order|)
      ensures NoWrites(before) ==> processedIDs == old(processedIDs)
    {
      hide Live, LogOk, Good, Submap, Filling, AllStuck, Served, AllFit, NoWrites, Visited, SameOthers, Owed, Later, Share, For;
      progressed, used := false, used0;
      SubmapSame(traces);
      NoneYet(fits, flowMode, pendingEvents, live, sessions, used, order, share, before, pendingEvents[|flight|..]);
      for i := 0 to |order|
        invariant Valid() && Submap(traces, old(traces)) && (flowMode != Legacy ==> traces == old(traces))
        invariant old(pendingEvents) <= pendingEvents && |pendingEvents| <= EventLimit()
                  && |pendingEvents| <= |old(pendingEvents)| + i
        invariant progressed <==> |pendingEvents| > |old(pendingEvents)|
        invariant Filling(before, sessions, flight, pendingEvents, used, flowMode, share)
        invariant !progressed ==> AllStuck(fits, flowMode, pendingEvents, live, sessions, used, order, i, share)
        invariant AllFit(fits, flowMode, live) && |old(pendingEvents)| + |order| <= EventLimit() ==>
                    Served(before, pendingEvents[|flight|..], order, i)
        invariant NoWrites(before) ==> processedIDs == old(processedIDs)
      {
        var id := order[i];
        var count := Uses(used, id);
        ghost var traces0, sessions0, flight0 := traces, sessions, pendingEvents;
        if |pendingEvents| < EventLimit() && (flowMode == Legacy || count < share) {
          if id in sessions { NoWriteHere(before, sessions, flight, pendingEvents, used, flowMode, share, id); }
          var moved := CollectOne(id, live);
          EmptyRight(flight0);
          SubmapTrans(traces, traces0, old(traces));
          VisitStep(fits, flowMode, live, before, sessions0, sessions, flight, flight0, used, share, order, i, moved);
          if moved.Some? {
            used := used[id := count + 1];
            progressed := true;
          }
        } else {
          SkipStep(fits, flowMode, live, before, sessions, flight, pendingEvents, used, share, order, i);
        }
      }
    }

    // -- Accepting a reply --

    /** Decides which events of the poll are acknowledged: in selective mode those
        with a receipt and no event of the same request before them without one.
        Returns the others, with their indices, and the sessions whose end was
        acknowledged. */
    method Acknowledge(pending: seq<Event>, replies: seq<Reply>)
      returns (unacknowledged: seq<Event>, ghost kept: seq<nat>, ghost ended: map<Id, Trace>)
      requires Live(sessions, traces, pending)
      modifies this`sessions, this`traces
      ensures Live(sessions, traces, unacknowledged) && |unacknowledged| <= |pending|
      ensures Grown(traces, old(traces)) && Grown(ended, old(traces)) && EndedOk(ended)
      ensures EndedBy(ended.Keys, old(sessions).Keys, flowMode, pending, replies, |pending|)
      ensures flowMode == Legacy ==> unacknowledged == []
      ensures flowMode != Legacy ==> Selection(pending, replies, |pending|, unacknowledged, kept)
      ensures sessions == old(sessions) - ended.Keys
    {
      hide Live, Grown, EndedOk, EndedBy, Selection, ReceiptFor;
      unacknowledged, kept, ended := [], [], map[];
      assert ended.Keys == {};
      var blocked: set<Id> := {};
      GrownSame(traces);
      EndedNone(old(traces));
      EndedByNone(old(sessions).Keys, flowMode, pending, replies);
      SelectionNone(pending, replies);
      EmptyLeft(pending);
      assert pending[0..] == pending;
      for index := 0 to |pending|
        invariant Live(sessions, traces, unacknowledged + pending[index..])
        invariant forall x :: x in unacknowledged ==> x.requestID in blocked
        invariant |unacknowledged| <= index && (flowMode == Legacy ==> blocked == {} && unacknowledged == [])
        invariant flowMode != Legacy ==> Selection(pending, replies, index, unacknowledged, kept)
        invariant forall id :: id in blocked <==> flowMode != Legacy && Without(pending, replies, index, id)
        invariant Grown(traces, old(traces)) && Grown(ended, old(traces)) && EndedOk(ended)
        invariant sessions == old(sessions) - ended.Keys
                  && EndedBy(ended.Keys, old(sessions).Keys, flowMode, pending, replies, index)
      {
        var e := pending[index];
        Uncons(pending[index..]);
        assert pending[index..][1..] == pending[index + 1..];
        var acknowledged := flowMode == Legacy || ReceiptFor(replies, index, e.requestID);
        SelectionNext(pending, replies, index, unacknowledged, kept);
        ghost var was := ended.Keys;
        EndedByNext(was, old(sessions).Keys, flowMode, pending, replies, index);
        if acknowledged && e.requestID !in blocked {
          ended := AcknowledgeOne(unacknowledged, e, pending[index + 1..], ended, old(traces));
          assert old(sessions) - (was + {e.requestID}) == (old(sessions) - was) - {e.requestID};
          assert ended.Keys == if e.kind == End && e.requestID in old(sessions) then was + {e.requestID} else was;
        } else {
          blocked := blocked + {e.requestID};
          Assoc(unacknowledged, [e], pending[index + 1..]);
          unacknowledged, kept := unacknowledged + [e], kept + [index];
        }
      }
      EmptyRight(unacknowledged);
    }

    method AcknowledgeOne(ghost u: seq<Event>, e: Event, ghost r: seq<Event>, ghost ended0: map<Id, Trace>,
                          ghost before: map<Id, Trace>)
      returns (ghost ended: map<Id, Trace>)
      requires Live(sessions, traces, u + ([e] + r)) && EndedOk(ended0) && Grown(ended0, before)
               && Grown(traces, before)
      requires forall x :: x in u ==> x.requestID != e.requestID
      modifies this`sessions, this`traces
      ensures Live(sessions, traces, u + r) && EndedOk(ended) && Grown(ended, before) && Grown(traces, before)
      ensures if e.requestID in old(sessions) && e.kind == End
              then sessions == old(sessions) - {e.requestID} && ended.Keys == ended0.Keys + {e.requestID}
              else sessions == old(sessions) && ended == ended0
    {
      hide Live, Grown, EndedOk, EndIs, AckTrace, Good;
      ended := ended0;
      Acked(sessions, traces, u, e, r);
      SameKeys(sessions, traces, u + ([e] + r));
      var id := e.requestID;
      if id in sessions {
        ghost var t := AckTrace(traces[id], e, id);
        AckGrows(traces, before, e);
        if e.kind == End {
          EndedAdd(ended0, id, t);
          EndedGrows(ended0, traces[id := t], before, id);
          ended := ended0[id := t];
          GrownRemoved(traces, before, id);
          sessions, traces := sessions - {id}, traces - {id};
        } else {
          traces := traces[id := t];
        }
      }
    }

    /** Unacknowledged events return to the front of their sessions in order;
        those of no live session stay in the poll. */
    method ReturnEvents(unacknowledged: seq<Event>)
      requires Live(sessions, traces, unacknowledged) && History(departed) && LogOk(processed, processedIDs, results)
               && |unacknowledged| <= EVENT_LIMIT
      modifies this`sessions, this`pendingEvents
      ensures Valid() && traces == old(traces) && sessions.Keys == old(sessions).Keys
      ensures Returned(old(sessions), unacknowledged, sessions)
      ensures pendingEvents == NotLive(unacknowledged, sessions.Keys)
    {
      hide Live, LogOk, History, For, NotLive, Returned;
      pendingEvents := [];
      var i := |unacknowledged|;
      ForNone(unacknowledged, sessions.Keys);
      NoneReturned(sessions, unacknowledged[i..]);
      assert unacknowledged[..i] == unacknowledged;
      EmptyRight(unacknowledged);
      while i > 0
        invariant 0 <= i <= |unacknowledged| && |pendingEvents| <= |unacknowledged| - i
        invariant Live(sessions, traces, unacknowledged[..i] + pendingEvents) && sessions.Keys == old(sessions).Keys
        invariant Returned(old(sessions), unacknowledged[i..], sessions)
        invariant pendingEvents == NotLive(unacknowledged[i..], sessions.Keys)
      {
        i := i - 1;
        ForStep(unacknowledged, i, sessions.Keys);
        var e, u := unacknowledged[i], unacknowledged[..i];
        assert unacknowledged[..i + 1] == u + [e];
        Assoc(u, [e], pendingEvents);
        if e.requestID in sessions {
          PutBack(sessions, traces, u, e, pendingEvents);
          var s := sessions[e.requestID];
          OneReturned(old(sessions), unacknowledged, i, sessions, s.(pending := [e] + s.pending));
          sessions := sessions[e.requestID := s.(pending := [e] + s.pending)];
        } else {
          OtherReturned(old(sessions), unacknowledged, i, sessions);
          pendingEvents := [e] + pendingEvents;
        }
      }
      EmptyLeft(pendingEvents);
    }

    /** An authenticated reply. A new epoch, or a selective peer that stops sending
        receipts, resets everything; otherwise each live stream keeps its history
        and its acknowledged part only grows, in order. */
    method AcceptRelayResponse(epoch: string, replies: seq<Reply>)
      returns (ghost ended: map<Id, Trace>, ghost rejected: seq<Event>, ghost kept: seq<nat>)
      requires Valid()
      modifies this
      ensures Valid()
      ensures (epoch != "" && old(centerEpoch) != "" && old(centerEpoch) != epoch)
              || (old(flowMode) == Selective && Marker !in replies)
              ==> sessions == map[] && pendingEvents == [] && processed == map[] && flowMode == Probe && centerEpoch == epoch
                  && departed == old(departed)
      ensures !((epoch != "" && old(centerEpoch) != "" && old(centerEpoch) != epoch)
              || (old(flowMode) == Selective && Marker !in replies))
              ==> && Grown(traces, old(traces)) && Grown(ended, old(traces)) && EndedOk(ended)
                  && EndedBy(ended.Keys, old(sessions).Keys, flowMode, old(pendingEvents), replies, |old(pendingEvents)|)
                  && flowMode == (if old(flowMode) == Legacy || Marker !in replies then Legacy else Selective)
                  && (if flowMode == Legacy then rejected == [] else Selection(old(pendingEvents), replies, |old(pendingEvents)|, rejected, kept))
                  && sessions.Keys == old(sessions).Keys - ended.Keys
                  && pendingEvents == NotLive(rejected, sessions.Keys)
                  && Returned(old(sessions) - ended.Keys, rejected, sessions)
                  && centerEpoch == (if epoch == "" then old(centerEpoch) else epoch)
                  && processed == old(processed) && processedIDs == old(processedIDs)
                  && departed == old(departed) + [ended]
    {
      hide Live, LogOk, Grown, EndedOk, EndedBy, History, Selection, Returned, NotLive;
      ended, rejected, kept := map[], [], [];
      if epoch != "" && centerEpoch != "" && centerEpoch != epoch {
        ResetSessions();
        flowMode, centerEpoch := Probe, epoch;
        return;
      }
      var marker := Marker in replies;
      if flowMode == Probe && !marker {
        flowMode := Legacy;
      } else if flowMode != Legacy && marker {
        flowMode := Selective;
      } else if flowMode == Selective && !marker {
        ResetSessions();
        flowMode, centerEpoch := Probe, epoch;
        return;
      }
      var unacknowledged;
      unacknowledged, kept, ended := Acknowledge(pendingEvents, replies);
      rejected := unacknowledged;
      ReturnEvents(unacknowledged);
      HistoryNext(departed, ended);
      departed := departed + [ended];
      if epoch != "" {
        centerEpoch := epoch;
      }
    }

    /** One delivery of a command. A command whose result is still logged only
        has its result repeated; a new one is refused, accepted, or answered later by
        its body write. */
    method HandleCommand(c: Command)
      requires Valid()
      modifies this`pendingEvents, this`processed, this`processedIDs, this`results, this`sessions, this`traces
      ensures Valid()
      ensures c.id in old(processed) ==>
                && sessions == old(sessions) && traces == old(traces) && processed == old(processed)
                && pendingEvents == Offer(fits, flowMode, old(pendingEvents), sessions.Keys, old(processed)[c.id])
      ensures c.id !in old(processed) ==>
                match OutcomeOf(old(sessions), c)
                case Refuse => Logged(map[], processed, c.id, FailedFor(c)) && pendingEvents == Offer(fits, flowMode, old(pendingEvents), sessions.Keys, FailedFor(c))
                case Accept(begun) => Logged(map[], processed, c.id, AcceptedFor(c)) && pendingEvents == AnswerOf(fits, flowMode, old(pendingEvents), sessions.Keys, c, begun)
                case Writes => processed == old(processed) && pendingEvents == old(pendingEvents)
      ensures c.kind == Body && c.id !in old(processed) && BlockAccepted(old(sessions), c) ==>
                && c.requestID in old(traces)
                && c.offset == Total(old(traces)[c.requestID].blocks)
                && traces == old(traces)[c.requestID := old(traces)[c.requestID].(blocks := old(traces)[c.requestID].blocks + [c])]
                && sessions == old(sessions)[c.requestID := WithBlock(old(sessions)[c.requestID], c)]
      ensures c.kind == Body && (c.id in old(processed) || !BlockAccepted(old(sessions), c))
              ==> sessions == old(sessions) && traces == old(traces)
      ensures c.kind == Request && c.id !in old(processed)
              && (c.requestID in old(sessions) || |old(sessions)| >= 128 || !c.parses) ==>
                sessions == old(sessions) && traces == old(traces)
      ensures c.kind == Request && c.id !in old(processed) && c.requestID !in old(sessions) && |old(sessions)| < 128
              && c.parses ==>
                && sessions == old(sessions)[c.requestID := Opened(c)]
                && traces == old(traces)[c.requestID := Trace(Proj(old(pendingEvents), c.requestID), [], [], [])]
                && (|old(pendingEvents)| < EventLimit() && fits(flowMode, old(pendingEvents) + [AcceptedFor(c)], sessions.Keys) ==>
                      pendingEvents == old(pendingEvents) + [AcceptedFor(c)])
      ensures c.kind == Cancel && c.id !in old(processed) ==> sessions == old(sessions) - {c.requestID}
      ensures c.kind != Body ==> processedIDs == Remember(old(processedIDs), c.id)
      ensures c.kind != Body ==> c.id in processed
      ensures c.kind == Body && c.id !in processed
              ==> c.requestID in sessions && sessions[c.requestID].bodyCommand.Some? && sessions[c.requestID].bodyCommand.value.id == c.id
    {
      hide Live, Total, Proj, Offer, OutcomeOf, AnswerOf, BlockAccepted, Logged;
      if c.id in processed {
        LoggedResult(processed, processedIDs, results, c.id);
        hide LogOk;
        var _ := QueueEvent(processed[c.id]);
      } else {
        HandleNew(c);
      }
    }

    /** A command whose result is not logged. */
    method HandleNew(c: Command)
      requires Valid() && c.id !in processed
      modifies this`pendingEvents, this`processed, this`processedIDs, this`results, this`sessions, this`traces
      ensures Valid()
      ensures match OutcomeOf(old(sessions), c)
                case Refuse => Logged(map[], processed, c.id, FailedFor(c)) && pendingEvents == Offer(fits, flowMode, old(pendingEvents), sessions.Keys, FailedFor(c))
                case Accept(begun) => Logged(map[], processed, c.id, AcceptedFor(c)) && pendingEvents == AnswerOf(fits, flowMode, old(pendingEvents), sessions.Keys, c, begun)
                case Writes => processed == old(processed) && pendingEvents == old(pendingEvents)
      ensures c.kind == Body && BlockAccepted(old(sessions), c) ==>
                && c.requestID in old(traces)
                && c.offset == Total(old(traces)[c.requestID].blocks)
                && traces == old(traces)[c.requestID := old(traces)[c.requestID].(blocks := old(traces)[c.requestID].blocks + [c])]
                && sessions == old(sessions)[c.requestID := WithBlock(old(sessions)[c.requestID], c)]
      ensures c.kind == Body && !BlockAccepted(old(sessions), c) ==> sessions == old(sessions) && traces == old(traces)
      ensures c.kind == Request && (c.requestID in old(sessions) || |old(sessions)| >= 128 || !c.parses) ==>
                sessions == old(sessions) && traces == old(traces)
      ensures c.kind == Request && c.requestID !in old(sessions) && |old(sessions)| < 128 && c.parses ==>
                && sessions == old(sessions)[c.requestID := Opened(c)]
                && traces == old(traces)[c.requestID := Trace(Proj(old(pendingEvents), c.requestID), [], [], [])]
                && (|old(pendingEvents)| < EventLimit() && fits(flowMode, old(pendingEvents) + [AcceptedFor(c)], sessions.Keys) ==>
                      pendingEvents == old(pendingEvents) + [AcceptedFor(c)])
      ensures c.kind == Cancel ==> sessions == old(sessions) - {c.requestID}
      ensures c.kind != Body ==> processedIDs == Remember(old(processedIDs), c.id)
      ensures c.kind != Body ==> c.id in processed
      ensures c.kind == Body && c.id !in processed
              ==> c.requestID in sessions && sessions[c.requestID].bodyCommand.Some? && sessions[c.requestID].bodyCommand.value.id == c.id
    {
      hide Live, Total, Proj, LogOk;
      var ok := false;
      match c.kind {
        case Request => ok := StartRequest(c);
        case Body => ok := WriteRequestBody(c);
        case Cancel => CancelRequest(c); ok := true;
        case Unsupported => ok := false;
      }
      if !ok {
        RememberTwice(old(processedIDs), c.id);
        var _ := Answer(c, FailedFor(c));
      }
    }
  }

  /** Live streams only gain acknowledged events. */
  ghost predicate Grown(now: map<Id, Trace>, before: map<Id, Trace>) {
    forall id :: id in now ==> id in before && Grew(now[id], before[id])
  }

  predicate Grew(now: Trace, before: Trace) {
    now.emitted == before.emitted && now.residual == before.residual && now.blocks == before.blocks && before.acked <= now.acked
  }

  lemma GrownSame(t: map<Id, Trace>)
    ensures Grown(t, t)
  {
  }

  lemma AckGrows(t: map<Id, Trace>, before: map<Id, Trace>, e: Event)
    requires e.requestID in t && Grown(t, before)
    ensures Grown(t[e.requestID := AckTrace(t[e.requestID], e, e.requestID)], before)
  {
    hide Only;
  }

  lemma EndedGrows(ended: map<Id, Trace>, t: map<Id, Trace>, before: map<Id, Trace>, id: Id)
    requires Grown(ended, before) && Grown(t, before) && id in t
    ensures Grown(ended[id := t[id]], before)
  {
    hide Grew;
  }

  lemma GrownRemoved(t: map<Id, Trace>, before: map<Id, Trace>, id: Id)
    requires Grown(t, before)
    ensures Grown(t - {id}, before)
  {
    hide Grew;
  }

  /** Everything the handler emitted has been acknowledged, up to its end. */
  ghost predicate Whole(t: Trace) {
    LightFileStream.Ended(t.emitted) && t.acked == t.residual + t.emitted
  }

  /** What an acknowledged end means. The session has been delivered whole if and
      only if no `end` of its request id was in flight when it started, and nothing
      else was delivered for it if and only if no stream event was. Otherwise all that
      was acknowledged is part of the leftover. */
  ghost predicate EndIs(t: Trace) {
    && (Whole(t) <==> NoEnd(t.residual))
    && (Whole(t) && t.acked == t.emitted <==> t.residual == [])
    && (!NoEnd(t.residual) ==> t.acked <= t.residual)
  }

  ghost predicate EndedOk(ended: map<Id, Trace>) {
    forall id :: id in ended ==> EndIs(ended[id])
  }

  ghost predicate History(departed: seq<map<Id, Trace>>) { forall m :: m in departed ==> EndedOk(m) }

  lemma HistoryNext(departed: seq<map<Id, Trace>>, ended: map<Id, Trace>)
    requires History(departed) && EndedOk(ended)
    ensures History(departed + [ended])
  {
    hide EndedOk;
  }

  lemma EndedNone(before: map<Id, Trace>)
    ensures EndedOk(map[]) && Grown(map[], before)
  {
  }

  lemma EndedAdd(ended: map<Id, Trace>, id: Id, t: Trace)
    requires EndedOk(ended) && EndIs(t)
    ensures EndedOk(ended[id := t])
  {
    hide EndIs;
  }

  lemma EndAcked(id: Id, s: Session, t: Trace, flight: seq<Event>, e: Event)
    requires Sound(id, s, AckTrace(t, e, id), flight) && NoEnd(t.acked) && e.kind == End && e.requestID == id
    ensures EndIs(AckTrace(t, e, id))
  {
    var all := t.residual + t.emitted;
    assert Only(e, id) == [e];
    assert t.acked + [e] <= all && WellFormed(t.emitted, s.head) by { hide BodyOk, WellFormed, Proj, Only, NoEnd; }
    hide Sound;
    if NoEnd(t.residual) {
      EndIsLast(t.residual, t.emitted, s.head, t.acked, e);
    } else {
      EndIsEarly(t.residual, t.emitted, t.acked, e);
    }
  }

  lemma EndIsLast(residual: seq<Event>, emitted: seq<Event>, head: bool, acked: seq<Event>, e: Event)
    requires acked + [e] <= residual + emitted && WellFormed(emitted, head) && NoEnd(residual) && e.kind == End
    ensures acked + [e] == residual + emitted && LightFileStream.Ended(emitted)
  {
    NextIs(residual, emitted, acked, e);
    hide WellFormed;
    var k := |acked| - |residual|;
    assert emitted[..k + 1][k] == e;
    ReceivedPrefix(emitted, head, emitted[..k + 1]);
  }

  lemma NextIs(residual: seq<Event>, emitted: seq<Event>, acked: seq<Event>, e: Event)
    requires acked + [e] <= residual + emitted
    ensures |acked| < |residual| ==> e in residual
    ensures |acked| >= |residual| ==> |acked| - |residual| < |emitted| && emitted[|acked| - |residual|] == e
  {
    assert (acked + [e])[|acked|] == (residual + emitted)[|acked|];
  }

  lemma EndIsEarly(residual: seq<Event>, emitted: seq<Event>, acked: seq<Event>, e: Event)
    requires acked + [e] <= residual + emitted && NoEnd(acked) && !NoEnd(residual)
    ensures acked + [e] <= residual
  {
    CommonPart(residual, emitted, acked, e);
    var x :| x in residual && x.kind == End;
    var k :| 0 <= k < |residual| && residual[k] == x;
  }

  lemma CommonPart(residual: seq<Event>, emitted: seq<Event>, acked: seq<Event>, e: Event)
    requires acked + [e] <= residual + emitted
    ensures forall k :: 0 <= k < |acked| && k < |residual| ==> residual[k] in acked
  {
    forall k | 0 <= k < |acked| && k < |residual| ensures residual[k] in acked {
      assert (acked + [e])[k] == acked[k] == (residual + emitted)[k];
    }
  }

  /** Some event of the request among the first n of the poll has no receipt. */
  ghost predicate Without(pending: seq<Event>, replies: seq<Reply>, n: int, id: Id) {
    exists j :: 0 <= j < n && j < |pending| && pending[j].requestID == id && !ReceiptFor(replies, j, id)
  }

  /** Of the first n events, exactly those are kept that lack a receipt or follow
      an event of the same request that lacks one; their order is unchanged. */
  ghost predicate Selection(pending: seq<Event>, replies: seq<Reply>, n: nat, unacknowledged: seq<Event>,
                            kept: seq<nat>) {
    && |kept| == |unacknowledged|
    && (forall k :: 0 <= k < |kept| ==> kept[k] < n && kept[k] < |pending| && unacknowledged[k] == pending[kept[k]])
    && (forall k, l :: 0 <= k < l < |kept| ==> kept[k] < kept[l])
    && (forall i: nat :: i < n && i < |pending| ==> (i in kept <==> Without(pending, replies, i + 1, pending[i].requestID)))
  }

  /** The sessions that leave are those for which one of the first n events is an
      acknowledged end. */
  ghost predicate EndedBy(ended: set<Id>, live: set<Id>, mode: FlowMode, pending: seq<Event>, replies: seq<Reply>,
                          n: int) {
    forall id :: id in ended <==> id in live && EndBefore(mode, pending, replies, n, id)
  }

  ghost predicate EndBefore(mode: FlowMode, pending: seq<Event>, replies: seq<Reply>, n: int, id: Id) {
    exists j :: 0 <= j < n && j < |pending| && pending[j].requestID == id && pending[j].kind == End
      && (mode == Legacy || !Without(pending, replies, j + 1, id))
  }

  lemma EndedByNone(live: set<Id>, mode: FlowMode, pending: seq<Event>, replies: seq<Reply>)
    ensures EndedBy({}, live, mode, pending, replies, 0)
  {
  }

  lemma EndedByNext(ended: set<Id>, live: set<Id>, mode: FlowMode, pending: seq<Event>, replies: seq<Reply>, n: nat)
    requires n < |pending| && EndedBy(ended, live, mode, pending, replies, n)
    ensures var e := pending[n];
            EndedBy(if e.kind == End && e.requestID in live && (mode == Legacy || !Without(pending, replies, n + 1, e.requestID))
                    then ended + {e.requestID} else ended, live, mode, pending, replies, n + 1)
  {
    hide Without;
    forall id
      ensures EndBefore(mode, pending, replies, n + 1, id)
              <==> (EndBefore(mode, pending, replies, n, id)
                    || (id == pending[n].requestID && pending[n].kind == End && (mode == Legacy || !Without(pending, replies, n + 1, id))))
    {
      if id == pending[n].requestID && pending[n].kind == End && (mode == Legacy || !Without(pending, replies, n + 1, id)) {
        assert EndBefore(mode, pending, replies, n + 1, id);
      }
    }
    hide EndBefore;
  }

  lemma SelectionNone(pending: seq<Event>, replies: seq<Reply>)
    ensures Selection(pending, replies, 0, [], [])
    ensures forall id :: !Without(pending, replies, 0, id)
  {
  }

  lemma SelectionNext(pending: seq<Event>, replies: seq<Reply>, n: nat, unacknowledged: seq<Event>, kept: seq<nat>)
    requires n < |pending|
    ensures var id := pending[n].requestID;
            && (forall x :: Without(pending, replies, n + 1, x) <==> Without(pending, replies, n, x) || (x == id && !ReceiptFor(replies, n, id)))
            && (Selection(pending, replies, n, unacknowledged, kept) ==>
                  if Without(pending, replies, n + 1, id)
                  then Selection(pending, replies, n + 1, unacknowledged + [pending[n]], kept + [n])
                  else Selection(pending, replies, n + 1, unacknowledged, kept))
  {
    WithoutNext(pending, replies, n);
    if Selection(pending, replies, n, unacknowledged, kept) {
      if Without(pending, replies, n + 1, pending[n].requestID) {
        SelectionKeeps(pending, replies, n, unacknowledged, kept);
      } else {
        SelectionSkips(pending, replies, n, unacknowledged, kept);
      }
    }
    hide Selection, Without, ReceiptFor;
  }

  lemma SelectionKeeps(pending: seq<Event>, replies: seq<Reply>, n: nat, unacknowledged: seq<Event>, kept: seq<nat>)
    requires n < |pending| && Selection(pending, replies, n, unacknowledged, kept)
    requires Without(pending, replies, n + 1, pending[n].requestID)
    ensures Selection(pending, replies, n + 1, unacknowledged + [pending[n]], kept + [n])
  {
    hide Without;
    forall i: nat | i < n + 1 && i < |pending|
      ensures i in kept + [n] <==> Without(pending, replies, i + 1, pending[i].requestID)
    {
      assert i in kept + [n] <==> i in kept || i == n;
    }
  }

  lemma SelectionSkips(pending: seq<Event>, replies: seq<Reply>, n: nat, unacknowledged: seq<Event>, kept: seq<nat>)
    requires n < |pending| && Selection(pending, replies, n, unacknowledged, kept)
    requires !Without(pending, replies, n + 1, pending[n].requestID)
    ensures Selection(pending, replies, n + 1, unacknowledged, kept)
  {
    hide Without;
    assert n !in kept;
  }

  lemma WithoutNext(pending: seq<Event>, replies: seq<Reply>, n: nat)
    requires n < |pending|
    ensures var id := pending[n].requestID;
            forall x :: Without(pending, replies, n + 1, x) <==> Without(pending, replies, n, x) || (x == id && !ReceiptFor(replies, n, id))
  {
    hide ReceiptFor;
    var id := pending[n].requestID;
    forall x ensures Without(pending, replies, n + 1, x) <==> Without(pending, replies, n, x) || (x == id && !ReceiptFor(replies, n, id)) {
      if !ReceiptFor(replies, n, id) && x == id { assert pending[n].requestID == x; }
    }
  }

  ghost predicate Submap<V>(a: map<Id, V>, b: map<Id, V>) {
    forall id :: id in a ==> id in b && a[id] == b[id]
  }

  lemma SubmapSame<V>(a: map<Id, V>)
    ensures Submap(a, a)
  {
  }

  lemma SubmapTrans<V>(a: map<Id, V>, b: map<Id, V>, c: map<Id, V>)
    requires Submap(a, b) && Submap(b, c)
    ensures Submap(a, c)
  {
  }

  lemma SubmapRemoved<V>(a: map<Id, V>, id: Id)
    ensures Submap(a - {id}, a)
  {
  }

  lemma SameKeys(sessions: map<Id, Session>, traces: map<Id, Trace>, flight: seq<Event>)
    requires Live(sessions, traces, flight)
    ensures traces.Keys == sessions.Keys
  {
  }

  // ---- What the invariant says about a stream ----

  /** What the node took as acknowledged is a prefix, in order, of what was in flight at
      the start followed by what the handler emitted. The center may hold more: the
      events of a poll whose reply was lost. */
  lemma AcknowledgedPrefix(id: Id, s: Session, t: Trace, flight: seq<Event>)
    requires Good(id, s, t, flight)
    ensures t.acked <= t.residual + t.emitted
    ensures t.residual == []
            ==> Bytes(t.acked) <= Bytes(t.emitted) && (LightFileStream.Ended(t.acked) ==> t.acked == t.emitted)
  {
    hide BodyOk, WellFormed, Proj, Bytes;
    if t.residual == [] {
      EmptyLeft(t.emitted);
      assert t.acked <= t.emitted;
      ReceivedPrefix(t.emitted, s.head, t.acked);
    }
  }

  // ---- Commands that come again ----

  /** The log after further commands, and how many of them were not in it. */
  function RememberAll(ids: seq<Id>, later: seq<Id>): seq<Id>
    decreases |later|
  {
    if later == [] then ids else RememberAll(Remember(ids, later[0]), later[1..])
  }

  function Unknown(ids: seq<Id>, later: seq<Id>): nat
    decreases |later|
  {
    if later == [] then 0 else (if later[0] in ids then 0 else 1) + Unknown(Remember(ids, later[0]), later[1..])
  }

  lemma RememberKeeps(ids: seq<Id>, x: Id)
    requires Distinct(ids) && |ids| <= LOG_LIMIT
    ensures Distinct(Remember(ids, x)) && |Remember(ids, x)| <= LOG_LIMIT
    ensures forall id :: id != x && id !in ids ==> id !in Remember(ids, x)
  {
  }

  lemma {:induction false} ForgottenStays(ids: seq<Id>, id: Id, later: seq<Id>)
    requires Distinct(ids) && |ids| <= LOG_LIMIT && id !in ids && id !in later
    ensures id !in RememberAll(ids, later)
    decreases |later|
  {
    if later != [] {
      RememberKeeps(ids, later[0]);
      hide Remember, Distinct;
      ForgottenStays(Remember(ids, later[0]), id, later[1..]);
    }
  }

  /** Where an entry of the log stands after one more command. */
  lemma EntryMoves(ids: seq<Id>, k: nat, x: Id)
    requires Distinct(ids) && |ids| <= LOG_LIMIT && k < |ids| && x != ids[k]
    ensures var next := Remember(ids, x);
            if x in ids then next == ids
            else if |ids| < LOG_LIMIT then |next| == |ids| + 1 && next[k] == ids[k]
            else |next| == |ids| && if k == 0 then ids[k] !in next else next[k - 1] == ids[k]
  {
    if x !in ids && |ids| >= LOG_LIMIT {
      assert Remember(ids, x) == ids[1..] + [x];
    }
  }

  lemma {:induction false} RememberAllSnoc(ids: seq<Id>, later: seq<Id>, x: Id)
    ensures RememberAll(ids, later + [x]) == Remember(RememberAll(ids, later), x)
    decreases |later|
  {
    hide Remember;
    if later == [] {
      assert [] + [x] == [x] && [x][1..] == [];
    } else {
      assert (later + [x])[0] == later[0] && (later + [x])[1..] == later[1..] + [x];
      RememberAllSnoc(Remember(ids, later[0]), later[1..], x);
    }
  }

  lemma {:induction false} RememberAllJoin(ids: seq<Id>, a: seq<Id>, b: seq<Id>)
    ensures RememberAll(ids, a + b) == RememberAll(RememberAll(ids, a), b)
    decreases |a|
  {
    hide Remember;
    if a == [] {
      EmptyLeft(b);
    } else {
      assert (a + b)[0] == a[0] && (a + b)[1..] == a[1..] + b;
      RememberAllJoin(Remember(ids, a[0]), a[1..], b);
    }
  }

  lemma {:induction false} RememberAllOk(ids: seq<Id>, later: seq<Id>)
    requires Distinct(ids) && |ids| <= LOG_LIMIT
    ensures Distinct(RememberAll(ids, later)) && |RememberAll(ids, later)| <= LOG_LIMIT
    decreases |later|
  {
    if later != [] {
      RememberKeeps(ids, later[0]);
      hide Remember, Distinct;
      RememberAllOk(Remember(ids, later[0]), later[1..]);
    }
  }

  /** An entry leaves the log with the command that finds it oldest and the log full. */
  lemma {:induction false} LoggedIff(ids: seq<Id>, k: nat, later: seq<Id>)
    requires Distinct(ids) && |ids| <= LOG_LIMIT && k < |ids| && ids[k] !in later
    ensures ids[k] in RememberAll(ids, later) <==> Unknown(ids, later) <= k + LOG_LIMIT - |ids|
    decreases |later|
  {
    if later != [] {
      var x, next := later[0], Remember(ids, later[0]);
      RememberKeeps(ids, x);
      EntryMoves(ids, k, x);
      if x in ids || |ids| < LOG_LIMIT {
        hide Remember, Distinct;
        LoggedIff(next, k, later[1..]);
      } else if k > 0 {
        hide Remember, Distinct;
        LoggedIff(next, k - 1, later[1..]);
      } else {
        hide Remember, Distinct;
        ForgottenStays(next, ids[k], later[1..]);
      }
    }
  }

  /** How many commands that the log did not know have been logged since the k-th result. */
  function NewSince(results: seq<Id>, k: nat): nat
    requires k < |results|
  {
    Unknown(RememberAll([], results[..k + 1]), results[k + 1..])
  }

  lemma LastRemembered(ids: seq<Id>, id: Id)
    requires Distinct(ids) && |ids| <= LOG_LIMIT && id !in ids
    ensures var next := Remember(ids, id); |next| > 0 && next[|next| - 1] == id
  {
  }

  /** In every state of a run, the k-th result is still logged if and only if fewer than
      128 new commands were logged since, where the log did not know it before and it was
      not logged again. */
  lemma LoggedSince(processed: map<Id, Event>, ids: seq<Id>, results: seq<Id>, k: nat)
    requires LogOk(processed, ids, results) && k < |results|
    requires results[k] !in RememberAll([], results[..k]) && results[k] !in results[k + 1..]
    ensures results[k] in processed <==> NewSince(results, k) < 128
  {
    var before, logged, later := RememberAll([], results[..k]), RememberAll([], results[..k + 1]), results[k + 1..];
    assert results[..k] + [results[k]] == results[..k + 1] && results[..k + 1] + later == results;
    RememberAllSnoc([], results[..k], results[k]);
    RememberAllJoin([], results[..k + 1], later);
    RememberAllOk([], results[..k]);
    RememberAllOk([], results[..k + 1]);
    hide Remember, RememberAll, Unknown;
    LastRemembered(before, results[k]);
    LoggedIff(logged, |logged| - 1, later);
  }

  /** In every state of a run, a request command that comes again is carried out again if
      and only if 128 or more new commands were logged since its result. Once its session
      is gone it then opens a new one, in which exactly a block at the start of the body
      is accepted once more. */
  lemma RedeliveredIff(c: LightFileControl, k: nat, request: Command, block: Command)
    requires c.Valid() && k < |c.results| && c.results[k] == request.id
    requires c.results[k] !in RememberAll([], c.results[..k]) && c.results[k] !in c.results[k + 1..]
    requires request.hasBody && block.requestID == request.requestID
    ensures request.id !in c.processed <==> NewSince(c.results, k) >= 128
    ensures BlockAccepted(c.sessions[request.requestID := Opened(request)], block) <==> block.offset == 0
  {
    LoggedSince(c.processed, c.processedIDs, c.results, k);
    hide LogOk, Live, History, RememberAll, NewSince;
  }

  // ---- A request id used twice ----

  const ALL_FIT: (FlowMode, seq<Event>, set<Id>) -> bool := (mode, events, live) => true

  function Get(id: Id): Command { Command(id, Request, "a", true, false, false, 0, [], false) }

  function First(status: int): Event { Event(Response, "a", "", status, 0, [], "") }

  function Last(): Event { Event(End, "a", "", 0, 0, [], "") }

  /** The session "a" is the only one. Its handler has sent `emitted`, of which `waiting`
      is not in a poll yet; the current poll carries `flight`. */
  ghost predicate Stage(c: LightFileControl, log: seq<Id>, flight: seq<Event>, residual: seq<Event>,
                        emitted: seq<Event>, waiting: seq<Event>)
    reads c
  {
    && c.Valid() && c.flowMode == Selective && c.centerEpoch == "" && c.fits == ALL_FIT && c.processedIDs == log
    && c.pendingEvents == flight && Alone("a", c.sessions) && Waiting(c.sessions["a"]) == waiting
    && !c.sessions["a"].head
    && "a" in c.traces && c.traces["a"].residual == residual && c.traces["a"].emitted == emitted
  }

  lemma AllReceipted(pending: seq<Event>, replies: seq<Reply>, unacknowledged: seq<Event>, kept: seq<nat>)
    requires Selection(pending, replies, |pending|, unacknowledged, kept)
    requires forall i :: 0 <= i < |pending| ==> ReceiptFor(replies, i, pending[i].requestID)
    ensures unacknowledged == []
    ensures forall live :: NotLive(unacknowledged, live) == []
    ensures forall id :: For(unacknowledged, id) == []
  {
    FirstIn(kept);
  }

  /** Without receipts every event is rejected. */
  lemma NoReceipts(pending: seq<Event>, replies: seq<Reply>, unacknowledged: seq<Event>, kept: seq<nat>)
    requires Selection(pending, replies, |pending|, unacknowledged, kept)
    requires forall i, id :: !ReceiptFor(replies, i, id)
    ensures unacknowledged == pending
  {
    forall i: nat | i < |pending| ensures i in kept {}
    Everything(kept, |pending|);
  }

  lemma LogIds(processed: map<Id, Event>, ids: seq<Id>, results: seq<Id>)
    requires LogOk(processed, ids, results)
    ensures forall id :: id in processed <==> id in ids
  {
  }

  lemma FirstIn(kept: seq<nat>)
    ensures kept != [] ==> kept[0] in kept
  {
  }

  lemma {:induction false} Everything(kept: seq<nat>, n: nat)
    requires forall k, l :: 0 <= k < l < |kept| ==> kept[k] < kept[l]
    requires forall k :: 0 <= k < |kept| ==> kept[k] < n
    requires forall i: nat :: i < n ==> i in kept
    ensures |kept| == n && forall k :: 0 <= k < n ==> kept[k] == k
    decreases n
  {
    FirstIn(kept);
    if n > 0 {
      var last := |kept| - 1;
      assert n - 1 in kept;
      assert kept[last] == n - 1;
      forall i: nat | i < n - 1 ensures i in kept[..last] { assert i in kept; }
      Everything(kept[..last], n - 1);
    }
  }

  lemma NothingEnds(ended: set<Id>, live: set<Id>, mode: FlowMode, pending: seq<Event>, replies: seq<Reply>)
    requires EndedBy(ended, live, mode, pending, replies, |pending|)
    requires live == {} || NoEnd(pending)
    ensures ended == {}
  {
    hide Without;
  }

  method Begin() returns (c: LightFileControl)
    ensures fresh(c) && Stage(c, ["1"], [AcceptedFor(Get("1"))], [], [], [])
  {
    hide Live, LogOk, Good, Selection, EndedBy, Grown, EndedOk, NotLive, For, NoEnd;
    c := new LightFileControl(ALL_FIT);
    assert c.sessions.Keys == {};
    ghost var ended, rejected, kept := c.AcceptRelayResponse("", [Marker]);
    assert Marker in [Marker];
    assert c.flowMode == Selective;
    AllReceipted([], [Marker], rejected, kept);
    NothingEnds(ended.Keys, {}, Selective, [], [Marker]);
    assert c.sessions == map[];
    LogIds(c.processed, c.processedIDs, c.results);
    assert c.processedIDs == [];
    ghost var flight := c.pendingEvents;
    assert flight == [] && Proj(flight, "a") == [];
    c.HandleCommand(Get("1"));
    assert c.sessions.Keys == {"a"} && c.sessions["a"] == Opened(Get("1"));
    assert c.processedIDs == ["1"];
    assert c.pendingEvents == [AcceptedFor(Get("1"))];
    assert c.traces["a"] == Trace([], [], [], []);
  }

  lemma WriterIs(id: Id, s: Session, t: Trace, flight: seq<Event>)
    requires Good(id, s, t, flight)
    ensures (s.writer.started <==> t.emitted != []) && (s.writer.ended <==> LightFileStream.Ended(t.emitted))
  {
  }

  /** The handler sends its response or its end. */
  method Send(c: LightFileControl, e: Event, ghost log: seq<Id>, ghost flight: seq<Event>, ghost residual: seq<Event>,
              ghost emitted: seq<Event>, ghost waiting: seq<Event>)
    requires Stage(c, log, flight, residual, emitted, waiting) && |waiting| < EVENT_LIMIT
             && !LightFileStream.Ended(emitted)
    requires e.requestID == "a" && if emitted == [] then e.kind == Response else e.kind == End
    modifies c
    ensures Stage(c, log, flight, residual, emitted + [e], waiting + [e])
  {
    hide Live, LogOk, Good, Sent, LightFileStream.Ended;
    LiveAt(c.sessions, c.traces, c.pendingEvents, "a");
    WriterIs("a", c.sessions["a"], c.traces["a"], c.pendingEvents);
    ghost var s := c.sessions["a"];
    Assoc(s.pending, s.events, [e]);
    c.HandlerSend("a", e);
  }

  /** A poll whose request or reply is lost. */
  method LosePoll(c: LightFileControl, ghost log: seq<Id>, ghost flight: seq<Event>, ghost residual: seq<Event>,
                  ghost emitted: seq<Event>, ghost waiting: seq<Event>)
    requires Stage(c, log, flight, residual, emitted, waiting) && (flight == [] ==> |waiting| == 2)
    modifies c
    ensures if flight == [] then Stage(c, log, waiting, residual, emitted, []) else Stage(c, log, flight, residual, emitted, waiting)
  {
    hide Live, LogOk, Good;
    SameKeys(c.sessions, c.traces, c.pendingEvents);
    ghost var before := c.sessions;
    AloneIs("a", c.sessions);
    var _ := c.CollectEvents(["a"]);
    if flight == [] { AloneTaken(ALL_FIT, Selective, "a", before, c.sessions, c.pendingEvents); }
    SameKeys(c.sessions, c.traces, c.pendingEvents);
    LiveAt(c.sessions, c.traces, c.pendingEvents, "a");
  }

  lemma AloneIs(id: Id, sessions: map<Id, Session>)
    requires Alone(id, sessions)
    ensures NoWrites(sessions) && Uncancelled(sessions) == sessions
  {
  }

  /** The reply to the first poll acknowledges that the request was accepted. */
  method AnswerFirst(c: LightFileControl, ghost emitted: seq<Event>)
    requires Stage(c, ["1"], [AcceptedFor(Get("1"))], [], emitted, emitted)
    modifies c
    ensures Stage(c, ["1"], [], [], emitted, emitted)
  {
    hide Live, LogOk, Good, Selection, EndedBy, Grown, EndedOk, NotLive, For;
    SameKeys(c.sessions, c.traces, c.pendingEvents);
    var replies := [Marker, Receipt(0, "a")];
    assert replies[0] == Marker && replies[1] == Receipt(0, "a");
    ghost var flight, before := c.pendingEvents, c.traces;
    ghost var ended, rejected, kept := c.AcceptRelayResponse("", replies);
    AllReceipted(flight, replies, rejected, kept);
    NothingEnds(ended.Keys, {"a"}, Selective, flight, replies);
    SameKeys(c.sessions, c.traces, c.pendingEvents);
    GrownAt(c.traces, before, "a");
    EmptyLeft(emitted);
  }

  lemma GrownAt(now: map<Id, Trace>, before: map<Id, Trace>, id: Id)
    requires Grown(now, before) && id in now
    ensures id in before && now[id].residual == before[id].residual && now[id].emitted == before[id].emitted
  {
  }

  /** The session is gone; its events are still offered. */
  ghost predicate Gone(c: LightFileControl, log: seq<Id>, flight: seq<Event>)
    reads c
  {
    && c.Valid() && c.flowMode == Selective && c.centerEpoch == "" && c.fits == ALL_FIT && c.processedIDs == log
    && c.pendingEvents == flight && c.sessions == map[]
  }

  /** The session outlives its time; the next poll is answered without receipts. */
  method TimeOut(c: LightFileControl, ghost flight: seq<Event>, ghost emitted: seq<Event>)
    requires Stage(c, ["1"], flight, [], emitted, []) && flight != []
    modifies c
    ensures Gone(c, ["1"], flight)
  {
    hide Live, LogOk, Good, Selection, EndedBy, Grown, EndedOk, NotLive, For;
    c.ContextDone("a");
    var _ := c.CollectEvents(["a"]);
    assert c.sessions == map[] && c.sessions.Keys == {};
    ghost var ended, rejected, kept := c.AcceptRelayResponse("", [Marker]);
    assert Marker in [Marker];
    NoReceipts(flight, [Marker], rejected, kept);
    NothingEnds(ended.Keys, {}, Selective, flight, [Marker]);
    AllNotLive(flight);
  }

  lemma {:induction false} AllNotLive(events: seq<Event>)
    ensures NotLive(events, {}) == events
  {
    if events != [] { AllNotLive(events[1..]); }
  }

  /** The same request id comes again, and the new handler answers. */
  method Reopen(c: LightFileControl, ghost flight: seq<Event>)
    requires Gone(c, ["1"], flight) && |flight| <= 2 && Proj(flight, "a") == flight
    modifies c
    ensures Stage(c, ["1", "2"], flight + [AcceptedFor(Get("2"))], flight, [First(404)], [First(404)])
  {
    hide Live, LogOk, Good, Proj, History, OutcomeOf, AnswerOf, Offer, Logged, BlockAccepted, WithBlock;
    LogIds(c.processed, c.processedIDs, c.results);
    c.HandleCommand(Get("2"));
    assert c.sessions.Keys == {"a"} && c.sessions["a"] == Opened(Get("2"));
    assert c.processedIDs == ["1", "2"];
    Send(c, First(404), ["1", "2"], flight + [AcceptedFor(Get("2"))], flight, [], []);
  }

  /** The center acknowledges everything offered so far: the `end` of the first
      stream takes the second session away, whose response is never offered. */
  method Overtaken(c: LightFileControl, ghost flight: seq<Event>)
    requires Stage(c, ["1", "2"], flight + [AcceptedFor(Get("2"))], flight, [First(404)], [First(404)])
    requires flight == [First(200), Last()]
    modifies c
    ensures c.Valid() && c.sessions == map[] && Left(c, flight, [First(404)])
  {
    hide Live, LogOk, Good, Selection, EndedBy, Grown, EndIs, NotLive, For;
    LosePoll(c, ["1", "2"], c.pendingEvents, flight, [First(404)], [First(404)]);
    var replies := [Marker, Receipt(0, "a"), Receipt(1, "a"), Receipt(2, "a")];
    assert replies[0] == Marker && replies[1] == Receipt(0, "a") && replies[2] == Receipt(1, "a")
           && replies[3] == Receipt(2, "a");
    ghost var before, offered := c.traces, c.pendingEvents;
    ghost var ended, rejected, kept := c.AcceptRelayResponse("", replies);
    assert offered[1] == Last();
    EndLeaves(ended.Keys, {"a"}, offered, replies, 1);
    GrownAt(ended, before, "a");
    EndedAt(ended, "a");
  }

  /** The last reply took session "a" away. */
  ghost predicate Left(c: LightFileControl, residual: seq<Event>, emitted: seq<Event>)
    reads c
  {
    c.departed != [] && var m := c.departed[|c.departed| - 1]; "a" in m && m["a"].residual == residual && m["a"].emitted == emitted && EndIs(m["a"])
  }

  lemma EndedAt(ended: map<Id, Trace>, id: Id)
    requires EndedOk(ended) && id in ended
    ensures EndIs(ended[id])
  {
    hide EndIs;
  }

  lemma EndLeaves(ended: set<Id>, live: set<Id>, pending: seq<Event>, replies: seq<Reply>, k: nat)
    requires EndedBy(ended, live, Selective, pending, replies, |pending|)
    requires k < |pending| && pending[k].kind == End && pending[k].requestID in live
    requires forall i :: 0 <= i <= k ==> ReceiptFor(replies, i, pending[i].requestID)
    ensures pending[k].requestID in ended
  {
    hide ReceiptFor;
    assert !Without(pending, replies, k + 1, pending[k].requestID);
  }

  /** A run that uses a request id twice. The first session sends its whole stream;
      the poll that carries it is lost, and the session times out. The second
      session then starts with that stream in flight, and the acknowledged `end` of
      the first stream deletes it: nothing of the second stream is ever offered. */
  method ReusedId() returns (c: LightFileControl)
    ensures fresh(c) && c.Valid() && c.sessions == map[]
    ensures c.departed != [] && var m := c.departed[|c.departed| - 1];
            && "a" in m && m["a"].residual == [First(200), Last()] && m["a"].emitted == [First(404)]
            && !Whole(m["a"]) && m["a"].acked <= m["a"].residual
  {
    hide Live, LogOk, Good, Stage, Gone, Proj, Whole;
    c := Begin();
    var first := First(200);
    ghost var all := [first, Last()];
    assert [] + [first] == [first] && [first] + [Last()] == all;
    Send(c, first, ["1"], [AcceptedFor(Get("1"))], [], [], []);
    Send(c, Last(), ["1"], [AcceptedFor(Get("1"))], [], [first], [first]);
    LosePoll(c, ["1"], [AcceptedFor(Get("1"))], [], all, all);
    AnswerFirst(c, all);
    LosePoll(c, ["1"], [], [], all, all);
    LosePoll(c, ["1"], all, [], all, []);
    TimeOut(c, all, all);
    LeftoverIs();
    Reopen(c, all);
    Overtaken(c, all);
    assert all[1] == Last() && !NoEnd(all);
    LeftIs(c, all, [First(404)]);
  }

  lemma LeftIs(c: LightFileControl, residual: seq<Event>, emitted: seq<Event>)
    requires Left(c, residual, emitted) && !NoEnd(residual)
    ensures c.departed != [] && var m := c.departed[|c.departed| - 1];
            "a" in m && m["a"].residual == residual && m["a"].emitted == emitted && !Whole(m["a"]) && m["a"].acked <= residual
  {
    hide Whole, NoEnd;
  }

  lemma LeftoverIs()
    ensures Proj([First(200), Last()], "a") == [First(200), Last()]
  {
    var first, last := First(200), Last();
    ProjFront(first, [last], "a");
    ProjOne(last, "a");
    assert [first] + [last] == [first, last];
  }

  // ---- Whole runs ----

  datatype Answer = Lost | Reply(epoch: string, replies: seq<Reply>, command: Option<Command>)

  /** `Incapable`: the node may not serve files now; all sessions are reset, while the flow
      mode and the epoch stay. */
  datatype Action =
    | Poll(order: seq<Id>, answer: Answer)
    | Emit(id: Id, e: Event)
    | Exit(id: Id)
    | Done(id: Id)
    | Work(id: Id, result: BodyResult)
    | Incapable

  /** Any run: polls that are lost or answered in any way, with any command, between
      any steps of handlers, workers and contexts. Steps that cannot happen in the
      state reached are skipped. */
  method Run(fits: (FlowMode, seq<Event>, set<Id>) -> bool, actions: seq<Action>) returns (c: LightFileControl)
    ensures c.Valid()
    ensures forall m, id :: m in c.departed && id in m ==> EndIs(m[id])
    ensures c.processedIDs == RememberAll([], c.results) && forall id :: id in c.processed <==> id in c.processedIDs
    ensures forall id :: id in c.sessions ==>
              && id in c.traces
              && c.traces[id].acked <= c.traces[id].residual + c.traces[id].emitted
              && Contiguous(c.traces[id].blocks)
              && (!c.sessions[id].cancelled ==> c.sessions[id].bodyOffset + InWrite(c.sessions[id]) == Total(c.traces[id].blocks))
  {
    c := new LightFileControl(fits);
    for i := 0 to |actions|
      invariant c.Valid() && fresh(c)
    {
      Act(c, actions[i]);
    }
    forall id | id in c.sessions
      ensures id in c.traces && c.traces[id].acked <= c.traces[id].residual + c.traces[id].emitted
              && BodyOk(c.sessions[id], c.traces[id])
    {
      LiveAt(c.sessions, c.traces, c.pendingEvents, id);
      AcknowledgedPrefix(id, c.sessions[id], c.traces[id], c.pendingEvents);
    }
    hide Live, LogOk, Good;
  }

  method Act(c: LightFileControl, action: Action)
    requires c.Valid()
    modifies c
    ensures c.Valid()
  {
    hide Live, LogOk, Good;
    SameKeys(c.sessions, c.traces, c.pendingEvents);
    match action
    case Poll(order, answer) =>
      var _ := c.CollectEvents(order);
      if answer.Reply? {
        ghost var _, _, _ := c.AcceptRelayResponse(answer.epoch, answer.replies);
        if answer.command.Some? {
          c.HandleCommand(answer.command.value);
        }
      }
    case Emit(id, e) =>
      if id in c.sessions && e.requestID == id && !c.sessions[id].cancelled && |c.sessions[id].events| < EVENT_LIMIT
         && Sendable(c.sessions[id].writer, c.sessions[id].head, e) {
        c.HandlerSend(id, e);
      }
    case Exit(id) => if id in c.sessions { c.HandlerExit(id); }
    case Done(id) => if id in c.sessions { c.ContextDone(id); }
    case Work(id, r) =>
      if id in c.sessions && c.sessions[id].bodyCommand.Some? && c.sessions[id].bodyResult.None? {
        c.WorkerDone(id, r);
      }
    case Incapable => c.ResetSessions();
  }

  /** A result is remembered once: a repeated one does not replace it. */
  ghost predicate Logged(before: map<Id, Event>, now: map<Id, Event>, id: Id, e: Event) {
    id in now && now[id] == if id in before then before[id] else e
  }

  lemma LogEmpty(processed: map<Id, Event>)
    requires processed == map[]
    ensures LogOk(processed, [], [])
  {
    assert forall id: Id :: id !in processed;
  }

  lemma LoggedResult(processed: map<Id, Event>, ids: seq<Id>, results: seq<Id>, id: Id)
    requires LogOk(processed, ids, results) && id in processed
    ensures !InStream(processed[id])
    ensures Remember(ids, id) == ids
  {
  }

  function AcceptedFor(c: Command): (e: Event)
    ensures !InStream(e) && e.requestID == c.requestID
  {
    Event(Accepted, c.requestID, c.id, 0, 0, [], "")
  }

  function FailedFor(c: Command): (e: Event)
    ensures !InStream(e) && e.requestID == c.requestID
  {
    Event(Error, c.requestID, c.id, 0, 0, [], "file relay command failed")
  }

  lemma WriteOf(id: Id, s: Session, t: Trace, flight: seq<Event>)
    requires Good(id, s, t, flight) && s.bodyCommand.Some?
    ensures s.bodyCommand.value.requestID == id
  {
  }

  lemma ResultKeeps(id: Id, s: Session, next: Session, t: Trace, flight: seq<Event>, e: Event)
    requires Good(id, s, t, flight) && s.bodyCommand.Some? && !InStream(e) && e.requestID == id
    requires && next.pending == s.pending + [e] && next.events == s.events && next.head == s.head
             && next.writer == s.writer
             && next.bodyCommand.None? && next.bodyResult.None? && (s.cancelled ==> next.cancelled)
             && (next.bodyOffset == s.bodyOffset + |s.bodyCommand.value.data| || (next.cancelled && next.bodyOffset == s.bodyOffset))
    ensures Good(id, next, t, flight)
  {
    ProjSnoc(s.pending, e, id);
    hide Contiguous, Total, WellFormed, Proj, WriterOf;
  }

  lemma DrainKeeps(id: Id, s: Session, next: Session, t: Trace, flight: seq<Event>)
    requires Good(id, s, t, flight) && s.events != []
    requires next == s.(pending := s.pending + [s.events[0]], events := s.events[1..])
    ensures Good(id, next, t, flight)
  {
    var e := s.events[0];
    assert e in s.events;
    ProjSum(s.pending, [e], id);
    ProjOne(e, id);
    Uncons(s.events);
    assert Only(e, id) == [e];
    assert BodyOk(next, t) by { SameBody(s, next, t); }
    assert QueuesOk(id, next, t) by { DrainQueues(id, s, next, t); }
    hide BodyOk, QueuesOk, Proj, Only;
    Assoc(Proj(s.pending, id), [e], next.events);
  }

  lemma DrainQueues(id: Id, s: Session, next: Session, t: Trace)
    requires QueuesOk(id, s, t) && s.events != []
    requires next == s.(pending := s.pending + [s.events[0]], events := s.events[1..])
    ensures QueuesOk(id, next, t)
  {
    hide WellFormed;
    assert s.events[0] in s.events;
    forall e | e in next.events ensures e in s.events {}
    forall e | e in next.pending ensures e in s.pending || e == s.events[0] {}
  }

  lemma BlockStarted(id: Id, s: Session, t: Trace, flight: seq<Event>, c: Command)
    requires Good(id, s, t, flight) && s.bodyCommand.None? && !s.cancelled && c.offset == s.bodyOffset
             && c.requestID == id
    ensures c.offset == Total(t.blocks)
    ensures Good(id, s.(bodyCommand := Some(c)), t.(blocks := t.blocks + [c]), flight)
  {
    BlockBody(s, t, c);
    BlockRest(id, s, s.(bodyCommand := Some(c)), t, t.(blocks := t.blocks + [c]), flight);
    hide Balanced, BodyOk, QueuesOk, NoEnd;
  }

  lemma BlockDiscarded(id: Id, s: Session, t: Trace, flight: seq<Event>, c: Command)
    requires Good(id, s, t, flight) && s.bodyCommand.None? && !s.cancelled && c.offset == s.bodyOffset
    ensures c.offset == Total(t.blocks)
    ensures Good(id, s.(bodyOffset := s.bodyOffset + |c.data|), t.(blocks := t.blocks + [c]), flight)
  {
    BlockBody(s, t, c);
    BlockRest(id, s, s.(bodyOffset := s.bodyOffset + |c.data|), t, t.(blocks := t.blocks + [c]), flight);
    hide Balanced, BodyOk, QueuesOk, NoEnd;
  }

  lemma BlockBody(s: Session, t: Trace, c: Command)
    requires BodyOk(s, t) && s.bodyCommand.None? && !s.cancelled && c.offset == s.bodyOffset
    ensures c.offset == Total(t.blocks)
    ensures BodyOk(s.(bodyCommand := Some(c)), t.(blocks := t.blocks + [c]))
    ensures BodyOk(s.(bodyOffset := s.bodyOffset + |c.data|), t.(blocks := t.blocks + [c]))
  {
    ContiguousSnoc(t.blocks, c);
    hide Contiguous, Total;
  }

  lemma BlockRest(id: Id, s: Session, s': Session, t: Trace, t': Trace, flight: seq<Event>)
    requires Balanced(t, flight, s, id) && QueuesOk(id, s, t)
    requires t' == t.(blocks := t'.blocks) && s'.pending == s.pending && s'.events == s.events && s'.head == s.head
             && s'.writer == s.writer
    requires s'.bodyCommand.Some? ==> s'.bodyCommand.value.requestID == id
    ensures Balanced(t', flight, s', id) && QueuesOk(id, s', t')
  {
    hide WellFormed, WriterOf, Proj;
  }

  lemma SendKeeps(id: Id, s: Session, t: Trace, flight: seq<Event>, e: Event)
    requires Good(id, s, t, flight) && Sendable(s.writer, s.head, e) && |s.events| < EVENT_LIMIT && e.requestID == id
    ensures Good(id, s.(events := s.events + [e], writer := Sent(s.writer, e)), t.(emitted := t.emitted + [e]), flight)
  {
    var s', t' := s.(events := s.events + [e], writer := Sent(s.writer, e)), t.(emitted := t.emitted + [e]);
    SentKeeps(s.writer, s.head, t.emitted, e);
    WellFormedSnoc(t.emitted, s.head, e);
    hide BodyOk, WellFormed, LegalNext, Proj, WriterOf, Sent;
    forall x | x in s'.events ensures x in s.events || x == e {}
    assert BodyOk(s', t') by { SameBody(s, s', t); SameBlocks(s', t, t'); }
    SendBalance(t.acked, Proj(flight, id), Proj(s.pending, id), s.events, [e]);
    Assoc(t.residual, t.emitted, [e]);
  }

  lemma SendBalance<T>(a: seq<T>, f: seq<T>, p: seq<T>, c: seq<T>, e: seq<T>)
    ensures a + (f + (p + (c + e))) == (a + (f + (p + c))) + e
  {
  }

  lemma QuietKeeps(id: Id, o: Session, s: Session, t: Trace, flight: seq<Event>)
    requires Good(id, o, t, flight)
    requires && s.events == o.events && s.pending == o.pending && s.head == o.head && s.writer == o.writer
             && s.bodyCommand == o.bodyCommand && s.bodyOffset == o.bodyOffset
             && (s.bodyResult.Some? ==> s.bodyCommand.Some?)
             && (o.cancelled ==> s.cancelled)
    ensures Good(id, s, t, flight)
  {
    hide Contiguous, Total, WellFormed, Proj, WriterOf;
  }
}
