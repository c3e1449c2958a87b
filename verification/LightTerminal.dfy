/** The terminal relay of a light node (cmd/kejilion-node/light_terminal.go): terminal
    output is polled into events that must fit a request, and lost polls are sent
    again. Whether a set of events fits is a parameter with the shape of a size bound. */
module LightTerminal {
  import opened Prelude
  import Relay = LightFileRelay

  const EVENT_LIMIT := 32
  const OUTPUT_LIMIT := 0x8000
  const MANAGER_LIMIT := 0x1_0000
  const LOG_LIMIT := 128

  type SessionId = string
  type CommandId = string

  datatype Event =
    | Output(session: SessionId, offset: int, next: int, data: Text, truncated: bool, exited: bool, closed: bool)
    | Reply(command: CommandId, session: SessionId, kind: string, offset: int, retained: bool, error: string)

  /** A terminal as its manager holds it: everything printed so far, of which the
      bytes before `base` are gone. */
  datatype Screen = Screen(log: Text, base: nat, exited: bool, closed: bool)

  datatype Session = Session(local: string, offset: int)

  // ---- Fitting ----

  type Fits = (set<SessionId>, seq<Event>) -> bool

  /** An output event with only the first k bytes of its data. */
  function Cut(e: Event, k: nat): Event
    requires e.Output? && k <= |e.data|
  {
    e.(data := e.data[..k], next := e.offset + k)
  }

  /** Fewer sessions, no events, or less data never need more room. Offsets count bytes
      from the start, so that a smaller one has no more decimal digits. */
  ghost predicate Bound(fits: Fits) {
    && (forall ids: set<SessionId>, more, es :: ids <= more && fits(more, es) ==> fits(ids, es))
    && (forall ids, es :: fits(ids, es) ==> fits(ids, []))
    && (forall ids, es, e: Event, k: nat, m: nat :: e.Output? && e.offset >= 0 && k <= m <= |e.data| && fits(ids, es + [Cut(e, m)]) ==>
          fits(ids, es + [Cut(e, k)]))
    && (forall ids, es, e: Event :: e.Output? && fits(ids, es + [e]) ==> fits(ids, es + [Unended(e)]))
  }

  /** An output event that does not end its session. */
  function Unended(e: Event): Event
    requires e.Output?
  {
    e.(exited := false, closed := false)
  }

  lemma OpenFits(fits: Fits, ids: set<SessionId>, es: seq<Event>, e: Event)
    requires Bound(fits) && e.Output? && fits(ids, es + [e])
    ensures fits(ids, es + [Unended(e)])
  {
  }

  lemma CutFits(fits: Fits, ids: set<SessionId>, es: seq<Event>, e: Event, k: nat, m: nat)
    requires Bound(fits) && e.Output? && e.offset >= 0 && k <= m <= |e.data| && fits(ids, es + [Cut(e, m)])
    ensures fits(ids, es + [Cut(e, k)])
  {
  }

  lemma LessFits(fits: Fits, ids: set<SessionId>, more: set<SessionId>, es: seq<Event>)
    requires Bound(fits) && ids <= more && fits(more, es)
    ensures fits(ids, es) && fits(ids, [])
  {
  }

  // ---- The size of an encoded poll ----

  function Digits(n: nat): nat { if n < 10 then 1 else 1 + Digits(n / 10) }

  function Decimal(n: int): nat { if n < 0 then 1 + Digits(-n) else Digits(n) }

  /** A member of a JSON object with its comma: quoted name, colon, value. */
  function Member(name: nat, value: nat): nat { name + 4 + value }

  /** A number member that is omitted when it is zero. */
  function NumberSize(name: nat, n: int): nat { if n == 0 then 0 else Member(name, Decimal(n)) }

  /** A member of bytes in Base64, omitted when there are none. */
  function DataSize(length: nat): nat { if length == 0 then 0 else Member(4, 2 + (length + 2) / 3 * 4) }

  /** The length of an event as JSON, given that of a quoted string and of the fields
      that tell of an exit. Zero offsets, empty data and false flags are omitted. */
  function EventSize(quoted: string -> nat, exit: nat, e: Event): nat {
    match e
    case Reply(command, session, kind, offset, retained, error) =>
      1 + (if retained then Member(8, 4) else 0) + (if command == "" then 0 else Member(9, quoted(command))) + Member(4, quoted(kind))
      + Member(9, quoted(session)) + NumberSize(6, offset) + (if error == "" then 0 else Member(5, quoted(error)))
    case Output(session, offset, next, data, truncated, exited, closed) =>
      1 + Member(4, quoted("output")) + Member(9, quoted(session))
      + NumberSize(6, offset) + NumberSize(10, next) + DataSize(|data|)
      + (if truncated then Member(9, 4) else 0) + (if exited then exit else 0) + (if closed then Member(6, 4) else 0)
  }

  function EventsSize(quoted: string -> nat, exit: nat, events: seq<Event>): nat {
    if events == [] then 0 else EventsSize(quoted, exit, events[..|events| - 1]) + EventSize(quoted, exit, events[|events| - 1]) + 1
  }

  ghost function IdsSize(quoted: string -> nat, ids: set<SessionId>): nat {
    if ids == {} then 0 else var id :| id in ids; IdsSize(quoted, ids - {id}) + quoted(id) + 1
  }

  /** The length of a poll as JSON; empty lists are omitted. */
  ghost function PollSize(quoted: string -> nat, exit: nat, ids: set<SessionId>, events: seq<Event>): nat {
    2 + (if ids == {} then 0 else Member(10, 1 + IdsSize(quoted, ids)))
      + (if events == [] then 0 else Member(6, 1 + EventsSize(quoted, exit, events)))
      - (if ids == {} && events == [] then 0 else 1)
  }

  lemma {:induction false} DigitsGrow(a: nat, b: nat)
    requires a <= b
    ensures Digits(a) <= Digits(b)
    decreases b
  {
    if b >= 10 && a >= 10 { DigitsGrow(a / 10, b / 10); }
  }

  lemma {:induction false} IdsWithout(quoted: string -> nat, ids: set<SessionId>, id: SessionId)
    requires id in ids
    ensures IdsSize(quoted, ids) == IdsSize(quoted, ids - {id}) + quoted(id) + 1
    decreases |ids|
  {
    var other :| other in ids && IdsSize(quoted, ids) == IdsSize(quoted, ids - {other}) + quoted(other) + 1;
    if other != id {
      IdsWithout(quoted, ids - {other}, id);
      IdsWithout(quoted, ids - {id}, other);
      assert ids - {other} - {id} == ids - {id} - {other};
    }
  }

  lemma {:induction false} IdsGrow(quoted: string -> nat, ids: set<SessionId>, more: set<SessionId>)
    requires ids <= more
    ensures IdsSize(quoted, ids) <= IdsSize(quoted, more)
    decreases |more|
  {
    if ids != more {
      var id :| id in more && id !in ids;
      IdsWithout(quoted, more, id);
      IdsGrow(quoted, ids, more - {id});
    }
  }

  lemma NumberGrows(name: nat, a: nat, b: nat)
    requires a <= b
    ensures NumberSize(name, a) <= NumberSize(name, b)
  {
    DigitsGrow(a, b);
    hide Digits;
  }

  lemma DataGrows(k: nat, m: nat)
    requires k <= m
    ensures DataSize(k) <= DataSize(m)
  {
    assert (k + 2) / 3 <= (m + 2) / 3;
  }

  lemma CutSmaller(quoted: string -> nat, exit: nat, e: Event, k: nat, m: nat)
    requires e.Output? && e.offset >= 0 && k <= m <= |e.data|
    ensures EventSize(quoted, exit, Cut(e, k)) <= EventSize(quoted, exit, Cut(e, m))
  {
    NumberGrows(10, e.offset + k, e.offset + m);
    DataGrows(k, m);
    hide NumberSize, DataSize;
  }

  lemma OpenSmaller(quoted: string -> nat, exit: nat, e: Event)
    requires e.Output?
    ensures EventSize(quoted, exit, Unended(e)) <= EventSize(quoted, exit, e)
  {
    hide NumberSize, DataSize;
  }

  lemma LastEvent(quoted: string -> nat, exit: nat, events: seq<Event>, e: Event)
    ensures EventsSize(quoted, exit, events + [e]) == EventsSize(quoted, exit, events) + EventSize(quoted, exit, e) + 1
  {
    hide EventSize;
    assert (events + [e])[..|events|] == events;
  }

  /** A limit on the length of the encoded poll is a bound in this sense. */
  lemma PollSizeIsBound(quoted: string -> nat, exit: nat, limit: nat, fits: Fits)
    requires forall ids, es :: fits(ids, es) <==> PollSize(quoted, exit, ids, es) <= limit
    ensures Bound(fits)
  {
    hide EventSize, EventsSize, IdsSize, Cut, Unended;
    forall ids: set<SessionId>, more: set<SessionId>, es | ids <= more && fits(more, es) ensures fits(ids, es) {
      IdsGrow(quoted, ids, more);
    }
    forall ids, es, e: Event, k: nat, m: nat | e.Output? && e.offset >= 0 && k <= m <= |e.data| && fits(ids, es + [Cut(e, m)])
      ensures fits(ids, es + [Cut(e, k)])
    {
      CutSmaller(quoted, exit, e, k, m);
      LastEvent(quoted, exit, es, Cut(e, k));
      LastEvent(quoted, exit, es, Cut(e, m));
    }
    forall ids, es, e: Event | e.Output? && fits(ids, es + [e]) ensures fits(ids, es + [Unended(e)]) {
      OpenSmaller(quoted, exit, e);
      LastEvent(quoted, exit, es, e);
      LastEvent(quoted, exit, es, Unended(e));
    }
  }

  /** The largest part of an output event that fits behind the pending ones. */
  method FitOutputEvent(fits: Fits, ids: set<SessionId>, pending: seq<Event>, event: Event) returns (r: Option<Event>)
    requires Bound(fits) && event.Output? && event.offset >= 0 && event.next == event.offset + |event.data|
    ensures r.Some? ==> exists k: nat :: k <= |event.data| && r.value == Cut(event, k) && fits(ids, pending + [r.value])
                          && (event.data != [] ==> k > 0) && forall m :: k < m <= |event.data| ==> !fits(ids, pending + [Cut(event, m)])
    ensures r.None? ==> !fits(ids, pending + [event]) && forall m :: 0 < m <= |event.data| ==> !fits(ids, pending + [Cut(event, m)])
  {
    assert Cut(event, |event.data|) == event;
    hide Bound, Cut;
    if fits(ids, pending + [event]) {
      return Some(event);
    }
    if |event.data| == 0 {
      return None;
    }
    var low, high := 1, |event.data|;
    var best := 0;
    while low <= high
      invariant 1 <= low <= high + 1 <= |event.data| + 1 && best == low - 1
      invariant best > 0 ==> fits(ids, pending + [Cut(event, best)])
      invariant forall m :: high < m <= |event.data| ==> !fits(ids, pending + [Cut(event, m)])
      decreases high - low
    {
      var middle := low + (high - low) / 2;
      if fits(ids, pending + [Cut(event, middle)]) {
        best := middle;
        low := middle + 1;
      } else {
        forall m | middle <= m <= |event.data| ensures !fits(ids, pending + [Cut(event, m)]) {
          if fits(ids, pending + [Cut(event, m)]) { CutFits(fits, ids, pending, event, middle, m); }
        }
        high := middle - 1;
      }
    }
    if best == 0 {
      return None;
    }
    return Some(Cut(event, best));
  }

  // ---- What was sent ----

  /** An event that carries terminal bytes and does not end its session. */
  ghost predicate Carries(e: Event, log: Text) {
    e.Output? && 0 <= e.offset <= e.next <= |log| && e.data == log[e.offset..e.next] && !e.exited && !e.closed
  }

  /** The next output starts where the last one stopped, or later if the manager
      dropped bytes in between and says so. */
  predicate Follows(at: int, e: Event) { e.Output? && (e.offset == at || (e.truncated && e.offset > at)) }

  predicate Chained(start: int, sent: seq<Event>) {
    sent == [] || (
      var before, e := sent[..|sent| - 1], sent[|sent| - 1];
      Chained(start, before) && Follows(End(start, before), e))
  }

  function End(start: int, sent: seq<Event>): int {
    if sent == [] then start else if sent[|sent| - 1].Output? then sent[|sent| - 1].next else 0
  }

  datatype Track = Track(start: nat, sent: seq<Event>)

  ghost predicate TrackOk(t: Track, offset: int, log: Text) {
    && Chained(t.start, t.sent) && offset == End(t.start, t.sent)
    && forall i :: 0 <= i < |t.sent| ==> Carries(t.sent[i], log)
  }

  lemma TrackGrows(t: Track, offset: int, log: Text, longer: Text, e: Event)
    requires TrackOk(t, offset, log) && log <= longer && Carries(e, longer) && Follows(offset, e)
    ensures TrackOk(t.(sent := t.sent + [e]), e.next, longer)
  {
    assert (t.sent + [e])[..|t.sent|] == t.sent;
    assert forall i :: 0 <= i < |t.sent| ==> (t.sent + [e])[i] == t.sent[i];
  }

  function Bytes(sent: seq<Event>): Text {
    if sent == [] then []
    else Bytes(sent[..|sent| - 1]) + if sent[|sent| - 1].Output? then sent[|sent| - 1].data else []
  }

  /** Without truncation the queued outputs together are the terminal's bytes from
      the start of the session up to its offset: nothing lost, repeated or moved. */
  lemma {:induction false} StreamIntact(t: Track, offset: int, log: Text)
    requires TrackOk(t, offset, log) && forall i :: 0 <= i < |t.sent| ==> t.sent[i].Output? && !t.sent[i].truncated
    ensures t.sent != [] ==> t.start <= offset <= |log| && Bytes(t.sent) == log[t.start..offset]
    decreases |t.sent|
  {
    if t.sent != [] {
      var before, e := t.sent[..|t.sent| - 1], t.sent[|t.sent| - 1];
      assert Carries(e, log);
      assert forall i :: 0 <= i < |before| ==> before[i] == t.sent[i];
      StreamIntact(Track(t.start, before), End(t.start, before), log);
      if before != [] {
        assert log[t.start..offset] == log[t.start..e.offset] + log[e.offset..offset];
      }
    }
  }

  // ---- The control loop ----

  predicate PendingOutput(pending: seq<Event>, id: SessionId) { exists i :: 0 <= i < |pending| && pending[i].Output? && pending[i].session == id }

  predicate LastOf(sent: seq<Event>, e: Event) { sent != [] && sent[|sent| - 1] == e }

  /** Pending output of an open session is the last that was queued for it, and the
      only one: a lost poll is repeated before anything newer is read. */
  ghost predicate PendingOk(pending: seq<Event>, sessions: map<SessionId, Session>, tracks: map<SessionId, Track>) {
    && (forall i :: 0 <= i < |pending| && pending[i].Output? && pending[i].session in sessions ==>
          pending[i].session in tracks && LastOf(tracks[pending[i].session].sent, pending[i]))
    && (forall i, j :: 0 <= i < j < |pending| && pending[i].Output? && pending[j].Output? ==> pending[i].session != pending[j].session)
  }

  ghost predicate TracksOk(sessions: map<SessionId, Session>, tracks: map<SessionId, Track>,
                           logs: map<SessionId, Text>) {
    forall id :: id in sessions ==> id in tracks && id in logs && TrackOk(tracks[id], sessions[id].offset, logs[id])
  }

  ghost predicate ResultsOk(processed: map<CommandId, Event>, ids: seq<CommandId>) {
    && |ids| <= LOG_LIMIT
    && (forall i, j :: 0 <= i < j < |ids| ==> ids[i] != ids[j])
    && (forall id :: id in processed <==> id in ids)
    && (forall id :: id in processed ==> processed[id].Reply?)
  }

  /** What the terminal manager answers for one session. */
  datatype Read = Gone | Unavailable | Got(screen: Screen)

  /** The last event of a session: all remaining bytes and the end, or only the end. */
  ghost predicate Ends(e: Event, at: int, read: Read) {
    && e.Output? && (e.exited || e.closed) && e.next == e.offset + |e.data|
    && !read.Unavailable?
    && (read.Gone? ==> e.offset == at && e.data == [])
    && (read.Got? ==> Follows(at, e) && 0 <= e.offset <= e.next == |read.screen.log| && e.data == read.screen.log[e.offset..])
  }

  datatype Action = Open(terminal: Option<(string, nat, bool)>) | Accept(ok: bool) | Close(ok: bool) | Invalid

  /** `error` is what an error result of the command says. */
  datatype Command = Command(id: CommandId, session: SessionId, action: Action, error: string)

  function Answer(command: Command, kind: string): Event { Reply(command.id, command.session, kind, 0, false, "") }

  function Announce(command: Command, offset: nat, retained: bool): Event {
    Reply(command.id, command.session, "opened", offset, retained, "")
  }

  datatype Poll = Failed | Answered(epoch: string, command: Option<Command>)

  lemma QueuedKeeps(sessions: map<SessionId, Session>, tracks: map<SessionId, Track>, logs: map<SessionId, Text>,
                    pending: seq<Event>,
                    id: SessionId, e: Event, log: Text)
    requires TracksOk(sessions, tracks, logs) && PendingOk(pending, sessions, tracks)
    requires id in sessions && id in logs && id in tracks && !PendingOutput(pending, id)
    requires logs[id] <= log && Carries(e, log) && e.session == id && Follows(sessions[id].offset, e)
    ensures TracksOk(sessions[id := sessions[id].(offset := e.next)], tracks[id := tracks[id].(sent := tracks[id].sent + [e])], logs[id := log])
    ensures PendingOk(pending + [e], sessions[id := sessions[id].(offset := e.next)], tracks[id := tracks[id].(sent := tracks[id].sent + [e])])
  {
    TrackGrows(tracks[id], sessions[id].offset, logs[id], log, e);
    LastIs(tracks[id].sent, e);
    hide TrackOk, Carries, Follows, PendingOk, LastOf, PendingOutput;
    PendingWith(sessions, tracks, pending, id, sessions[id].(offset := e.next), tracks[id].(sent := tracks[id].sent + [e]), e);
  }

  lemma LastIs(sent: seq<Event>, e: Event)
    ensures LastOf(sent + [e], e)
  {
  }

  lemma PendingWith(sessions: map<SessionId, Session>, tracks: map<SessionId, Track>, pending: seq<Event>,
                    id: SessionId, session: Session, track: Track, e: Event)
    requires PendingOk(pending, sessions, tracks) && !PendingOutput(pending, id)
    requires id in sessions && e.Output? && e.session == id && LastOf(track.sent, e)
    ensures PendingOk(pending + [e], sessions[id := session], tracks[id := track])
  {
    hide LastOf;
  }

  lemma EndedKeeps(sessions: map<SessionId, Session>, tracks: map<SessionId, Track>, logs: map<SessionId, Text>,
                   pending: seq<Event>, id: SessionId, e: Event)
    requires TracksOk(sessions, tracks, logs) && PendingOk(pending, sessions, tracks) && !PendingOutput(pending, id)
    requires e.Output? && e.session == id
    ensures TracksOk(sessions - {id}, tracks, logs) && PendingOk(pending + [e], sessions - {id}, tracks)
  {
    hide TrackOk, LastOf;
  }

  lemma Tracked(sessions: map<SessionId, Session>, tracks: map<SessionId, Track>, logs: map<SessionId, Text>,
                id: SessionId)
    requires TracksOk(sessions, tracks, logs) && id in sessions
    ensures id in tracks && id in logs && TrackOk(tracks[id], sessions[id].offset, logs[id])
  {
    hide TrackOk;
  }

  /** The offset of a session counts bytes from the start. */
  lemma OffsetNatural(sessions: map<SessionId, Session>, tracks: map<SessionId, Track>, logs: map<SessionId, Text>,
                      id: SessionId)
    requires TracksOk(sessions, tracks, logs) && id in sessions
    ensures sessions[id].offset >= 0
  {
    Tracked(sessions, tracks, logs, id);
    var sent := tracks[id].sent;
    if sent != [] { assert Carries(sent[|sent| - 1], logs[id]); }
    hide TracksOk;
  }

  /** What the manager returns from an offset: at most MANAGER_LIMIT bytes it still
      has, from the first of them if the offset is gone; none for an offset it never had. */
  function ManagerOutput(screen: Screen, offset: int): (r: Option<(int, Text)>)
    requires screen.base <= |screen.log|
    ensures r.Some? ==> r.value.0 >= 0
  {
    if offset < 0 || offset > |screen.log| then None
    else var from := Max(offset, screen.base); Some((from, screen.log[from..Min(from + MANAGER_LIMIT, |screen.log|)]))
  }

  /** An event made of the first k bytes of what the manager returned. */
  lemma CutCarries(screen: Screen, at: int, id: SessionId, k: nat)
    requires screen.base <= |screen.log| && ManagerOutput(screen, at).Some?
    requires k <= |ManagerOutput(screen, at).value.1|
    ensures var (from, data) := ManagerOutput(screen, at).value;
            var e := Output(id, from, from + k, data[..k], at < screen.base, false, false);
            Carries(e, screen.log) && Follows(at, e)
            && (k == |data| && k < 0x1_0000 ==> from + k == |screen.log| && data[..k] == screen.log[from..])
  {
    var (from, data) := ManagerOutput(screen, at).value;
    assert data[..k] == screen.log[from..from + k];
  }

  /** What one read of a session may do: nothing; queue bytes that follow the last
      ones; or queue the end of the session and drop it. */
  ghost predicate Step(id: SessionId, at: int, read: Read, sessions: map<SessionId, Session>, pending: seq<Event>,
                       logs: map<SessionId, Text>,
                       sessions': map<SessionId, Session>, pending': seq<Event>, logs': map<SessionId, Text>) {
    || (sessions' == sessions && pending' == pending && logs' == logs)
    || (exists e :: read.Got? && Carries(e, read.screen.log) && e.session == id && Follows(at, e) && id in sessions
          && sessions' == sessions[id := sessions[id].(offset := e.next)] && pending' == pending + [e]
          && logs' == logs[id := read.screen.log])
    || (exists e :: Ends(e, at, read) && e.session == id && sessions' == sessions - {id} && pending' == pending + [e] && logs' == logs)
  }

  lemma OutputOf(e: Event, log: Text)
    requires Carries(e, log)
    ensures e.Output?
  {
  }

  /** What one read of a live terminal sends: the longest first part of at most 32 KiB that
      fits, without the end of the session while bytes are left; nothing if there is
      nothing new, or if not even one byte fits. */
  ghost predicate Sends(fits: Fits, ids: set<SessionId>, pending: seq<Event>, id: SessionId, at: int, screen: Screen,
                        added: Option<Event>)
    requires screen.base <= |screen.log|
  {
    var read := ManagerOutput(screen, at);
    if read.None? || (read.value.1 == [] && !screen.exited && !screen.closed) then added.None?
    else
      var whole := WholeOf(read.value.0, read.value.1, id, at, screen);
      if added.None? then !fits(ids, pending + [whole]) && forall m :: 0 < m <= |whole.data| ==> !fits(ids, pending + [Cut(whole, m)])
      else exists k: nat :: k <= |whole.data| && SendsPart(fits, ids, pending, whole, k, |read.value.1|, added.value)
  }

  /** The output event of all that may go into one poll. */
  ghost function WholeOf(from: int, data: Text, id: SessionId, at: int, screen: Screen): (e: Event)
    ensures e.Output? && e.session == id
  {
    var n := if |data| > 32 * 1024 then 32 * 1024 else |data|;
    Output(id, from, from + n, data[..n], at < screen.base, screen.exited, screen.closed)
  }

  ghost predicate SendsPart(fits: Fits, ids: set<SessionId>, pending: seq<Event>, whole: Event, k: nat, available: nat,
                            e: Event)
    requires whole.Output? && k <= |whole.data|
  {
    && e == (if k < available then Unended(Cut(whole, k)) else Cut(whole, k))
    && (whole.data != [] ==> k > 0) && forall m :: k < m <= |whole.data| ==> !fits(ids, pending + [Cut(whole, m)])
  }

  /** What one read of a session sends. */
  ghost predicate Reads(fits: Fits, ids: set<SessionId>, pending: seq<Event>, id: SessionId, at: int, read: Read,
                        added: Option<Event>)
    requires read.Got? ==> read.screen.base <= |read.screen.log|
  {
    match read
    case Unavailable => added.None?
    case Gone =>
      var e := Output(id, at, at, [], false, false, true);
      added == if fits(ids, pending + [e]) then Some(e) else None
    case Got(screen) => Sends(fits, ids, pending, id, at, screen, added)
  }

  /** The state after a read: an event that ends its session takes it away. */
  ghost predicate Sent(id: SessionId, added: Option<Event>, sessions: map<SessionId, Session>, pending: seq<Event>,
                       sessions': map<SessionId, Session>, pending': seq<Event>) {
    match added
    case None => sessions' == sessions && pending' == pending
    case Some(e) =>
      && id in sessions && e.Output? && pending' == pending + [e]
      && sessions' == if e.exited || e.closed then sessions - {id} else sessions[id := sessions[id].(offset := e.next)]
  }

  /** The manager has something new for the session. */
  predicate News(answers: map<SessionId, Read>, id: SessionId, at: int) {
    id in answers && !answers[id].Unavailable?
    && (answers[id].Got? ==>
          var screen := answers[id].screen;
          && screen.base <= |screen.log| && ManagerOutput(screen, at).Some?
          && (ManagerOutput(screen, at).value.1 != [] || screen.exited || screen.closed))
  }

  lemma NewsSent(fits: Fits, ids: set<SessionId>, pending: seq<Event>, answers: map<SessionId, Read>, id: SessionId,
                 at: int, added: Option<Event>)
    requires News(answers, id, at) && (answers[id].Got? ==> answers[id].screen.base <= |answers[id].screen.log|)
    requires Reads(fits, ids, pending, id, at, answers[id], added) && AllFit(fits)
    ensures added.Some? && added.value.Output? && added.value.session == id
  {
    hide ManagerOutput;
    if answers[id].Got? {
      var screen := answers[id].screen;
      var (from, data) := ManagerOutput(screen, at).value;
      var whole := WholeOf(from, data, id, at, screen);
      hide WholeOf;
      assert fits(ids, pending + [whole]);
      assert added.Some?;
      var k: nat :| k <= |whole.data| && SendsPart(fits, ids, pending, whole, k, |data|, added.value);
    } else {
      assert fits(ids, pending + [Output(id, at, at, [], false, false, true)]);
    }
  }

  ghost predicate AllFit(fits: Fits) { forall ids, es :: fits(ids, es) }

  /** The first pending output. */
  ghost predicate FirstOutput(pending: seq<Event>, i: nat) {
    i < |pending| && pending[i].Output? && forall j :: 0 <= j < i ==> !pending[j].Output?
  }

  /** The queue after an event was put into it, if the poll still fits. */
  ghost function Put(fits: Fits, ids: set<SessionId>, pending: seq<Event>, e: Event): (queue: seq<Event>)
    ensures |queue| <= |pending| + 1
  {
    if fits(ids, pending + [e]) then pending + [e] else pending
  }

  /** The result of a new command, and the sessions after it. */
  ghost function Replied(fits: Fits, sessions: map<SessionId, Session>, c: Command): (Event, map<SessionId, Session>) {
    var failed := Reply(c.id, c.session, "error", 0, false, c.error);
    match c.action
    case Invalid => (failed, sessions)
    case Open(terminal) =>
      if terminal.None? then (failed, sessions)
      else
        var announced := Reply(c.id, c.session, "opened", terminal.value.1, terminal.value.2, "");
        var next := sessions[c.session := Session(terminal.value.0, terminal.value.1)];
        if fits(next.Keys, [announced]) then (announced, next) else (failed, sessions - {c.session})
    case Accept(ok) =>
      if c.session in sessions && ok then (Reply(c.id, c.session, "accepted", 0, false, ""), sessions) else (failed, sessions)
    case Close(ok) =>
      if c.session in sessions && !ok then (failed, sessions) else (Reply(c.id, c.session, "closed", 0, false, ""), sessions - {c.session})
  }

  class LightTerminalControl {
    const fits: Fits
    var sessions: map<SessionId, Session>
    var pending: seq<Event>
    var processed: map<CommandId, Event>
    var processedIDs: seq<CommandId>
    var centerEpoch: string
    /** What every open session sent so far, and the terminal bytes known then. */
    ghost var tracks: map<SessionId, Track>
    ghost var logs: map<SessionId, Text>
    /** How often a pending output event was displaced by a command result. */
    ghost var displaced: nat

    ghost predicate Valid()
      reads this
    {
      && Bound(fits) && |pending| <= EVENT_LIMIT && fits(sessions.Keys, pending)
      && TracksOk(sessions, tracks, logs) && PendingOk(pending, sessions, tracks) && ResultsOk(processed, processedIDs)
    }

    constructor (fits: Fits)
      requires Bound(fits) && fits({}, [])
      ensures Valid() && sessions == map[] && pending == [] && this.fits == fits && displaced == 0
    {
      this.fits := fits;
      sessions, pending, processed, processedIDs, centerEpoch := map[], [], map[], [], "";
      tracks, logs, displaced := map[], map[], 0;
      new;
      assert sessions.Keys == {};
    }

    /** Adds an event that fits. With a full queue a command result may take the
        place of the oldest pending output. */
    method QueueEvent(event: Event) returns (ok: bool)
      modifies this`pending, this`displaced
      ensures ok ==> fits(sessions.Keys, pending)
      ensures !ok ==> pending == old(pending) && displaced == old(displaced)
      ensures |old(pending)| < 32 ==> ok == fits(sessions.Keys, old(pending) + [event]) && displaced == old(displaced)
                                               && (ok ==> pending == old(pending) + [event])
      ensures |old(pending)| >= 32 && (event.Output? || forall i :: 0 <= i < |old(pending)| ==> !old(pending)[i].Output?) ==> !ok
      ensures |old(pending)| >= 32 && event.Reply? ==>
                forall i: nat :: FirstOutput(old(pending), i) ==>
                  var next := old(pending)[..i] + old(pending)[i + 1..] + [event];
                  && (ok <==> fits(sessions.Keys, next))
                  && (ok ==> pending == next && displaced == old(displaced) + 1)
    {
      if |pending| < EVENT_LIMIT {
        if !fits(sessions.Keys, pending + [event]) {
          return false;
        }
        pending := pending + [event];
        return true;
      }
      if event.Output? {
        return false;
      }
      var index := 0;
      while index < |pending|
        invariant pending == old(pending) && displaced == old(displaced) && index <= |pending|
        invariant forall j :: 0 <= j < index ==> !pending[j].Output?
      {
        if pending[index].Output? {
          var candidate := pending[..index] + pending[index + 1..] + [event];
          if !fits(sessions.Keys, candidate) {
            return false;
          }
          pending := candidate;
          displaced := displaced + 1;
          return true;
        }
        index := index + 1;
      }
      return false;
    }

    /** Queues the last event of a session, which then leaves. */
    method Finish(id: SessionId, e: Event)
      requires Valid() && id in sessions && |pending| < EVENT_LIMIT && !PendingOutput(pending, id) && e.Output?
               && e.session == id
      modifies this`sessions, this`pending, this`displaced
      ensures Valid() && displaced == old(displaced)
      ensures if fits(old(sessions).Keys, old(pending) + [e]) then sessions == old(sessions) - {id} && pending == old(pending) + [e]
              else sessions == old(sessions) && pending == old(pending)
    {
      hide Bound, TracksOk, PendingOk, ResultsOk, PendingOutput;
      EndedKeeps(sessions, tracks, logs, pending, id, e);
      var ok := QueueEvent(e);
      if ok {
        LessFits(fits, (sessions - {id}).Keys, sessions.Keys, pending);
        sessions := sessions - {id};
      }
    }

    /** Queues terminal bytes of a session, which goes on. */
    method Continue(id: SessionId, e: Event, ghost log: Text)
      requires Valid() && id in sessions && |pending| < EVENT_LIMIT && !PendingOutput(pending, id) && id in logs
               && logs[id] <= log
      requires Carries(e, log) && e.session == id && Follows(sessions[id].offset, e)
      modifies this`sessions, this`pending, this`tracks, this`logs, this`displaced
      ensures Valid() && displaced == old(displaced)
      ensures if fits(old(sessions).Keys, old(pending) + [e])
              then sessions == old(sessions)[id := old(sessions)[id].(offset := e.next)] && pending == old(pending) + [e] && logs == old(logs)[id := log]
              else sessions == old(sessions) && pending == old(pending) && logs == old(logs)
    {
      hide Bound, TracksOk, PendingOk, ResultsOk, PendingOutput, Carries, Follows;
      Tracked(sessions, tracks, logs, id);
      OutputOf(e, log);
      QueuedKeeps(sessions, tracks, logs, pending, id, e, log);
      var ok := QueueEvent(e);
      if ok {
        var item := sessions[id];
        assert sessions[id := item.(offset := e.next)].Keys == sessions.Keys;
        sessions := sessions[id := item.(offset := e.next)];
        tracks := tracks[id := tracks[id].(sent := tracks[id].sent + [e])];
        logs := logs[id := log];
      }
    }

    /** Reads one session without pending output and queues what fits. */
    method CollectOne(id: SessionId, read: Read) returns (ghost added: Option<Event>)
      requires Valid() && id in sessions && |pending| < EVENT_LIMIT && !PendingOutput(pending, id) && id in logs
      requires read.Got? ==> logs[id] <= read.screen.log && read.screen.base <= |read.screen.log|
      modifies this`sessions, this`pending, this`tracks, this`logs, this`displaced
      ensures Valid() && displaced == old(displaced)
      ensures Step(id, old(sessions)[id].offset, read, old(sessions), old(pending), old(logs), sessions, pending, logs)
      ensures Reads(fits, old(sessions).Keys, old(pending), id, old(sessions)[id].offset, read, added)
      ensures Sent(id, added, old(sessions), old(pending), sessions, pending)
    {
      hide Bound, TracksOk, PendingOk, ResultsOk, PendingOutput, Step, Sends;
      var item := sessions[id];
      added := None;
      StepNone(id, item.offset, read, sessions, pending, logs);
      match read
      case Unavailable =>
      case Gone =>
        StepEnd(id, item.offset, read, sessions, pending, logs, Output(id, item.offset, item.offset, [], false, false, true));
        Finish(id, Output(id, item.offset, item.offset, [], false, false, true));
        if pending != old(pending) { added := Some(Output(id, item.offset, item.offset, [], false, false, true)); }
      case Got(screen) =>
        added := CollectScreen(id, screen);
    }

    /** What to send of a live terminal: cut to the output limit and to what fits. The
        end of the session is kept back while the manager has unread bytes. */
    method NextOutput(id: SessionId, screen: Screen) returns (event: Option<Event>)
      requires Bound(fits) && id in sessions && screen.base <= |screen.log|
      ensures Sends(fits, sessions.Keys, pending, id, sessions[id].offset, screen, event)
      ensures event.Some? ==>
                var e := event.value;
                && e.Output? && e.session == id && fits(sessions.Keys, pending + [e])
                && (e.exited || e.closed ==> Ends(e, sessions[id].offset, Got(screen)))
                && (!e.exited && !e.closed ==> Carries(e, screen.log) && Follows(sessions[id].offset, e))
    {
      hide Bound, PendingOutput, Carries, Follows, Ends, ManagerOutput, Sends;
      var at := sessions[id].offset;
      var read := ManagerOutput(screen, at);
      SendsNone(fits, sessions.Keys, pending, id, at, screen, if read.None? then Output(id, 0, 0, [], false, false, false) else WholeOf(read.value.0, read.value.1, id, at, screen));
      if read.None? {
        return None;
      }
      var (from, data) := read.value;
      if |data| == 0 && !screen.exited && !screen.closed {
        return None;
      }
      var available := from + |data|;
      var cut := if |data| > OUTPUT_LIMIT then data[..OUTPUT_LIMIT] else data;
      ghost var whole := Output(id, from, from + |cut|, cut, at < screen.base, screen.exited, screen.closed);
      WholeIs(from, data, id, at, screen, cut);
      hide WholeOf;
      event := FitOutputEvent(fits, sessions.Keys, pending, Output(id, from, from + |cut|, cut, at < screen.base, screen.exited, screen.closed));
      if event.None? {
        return;
      }
      ghost var k: nat :| k <= |cut| && event.value == Cut(whole, k) && (cut != [] ==> k > 0)
                          && forall m :: k < m <= |cut| ==> !fits(sessions.Keys, pending + [Cut(whole, m)]);
      assert cut[..k] == data[..k];
      CutCarries(screen, at, id, k);
      PartFits(fits, sessions.Keys, pending, whole, k, |data|, event.value);
      if event.value.next < available {
        event := Some(event.value.(exited := false, closed := false));
      }
      SendsSome(fits, sessions.Keys, pending, id, at, screen, k, event.value);
      if event.value.exited || event.value.closed { EndsIs(event.value, at, screen, from, data, k); }
    }

    /** Queues the next output of a live terminal. */
    method CollectScreen(id: SessionId, screen: Screen) returns (ghost added: Option<Event>)
      requires Valid() && id in sessions && |pending| < EVENT_LIMIT && !PendingOutput(pending, id) && id in logs
      requires logs[id] <= screen.log && screen.base <= |screen.log|
      modifies this`sessions, this`pending, this`tracks, this`logs, this`displaced
      ensures Valid() && displaced == old(displaced)
      ensures Step(id, old(sessions)[id].offset, Got(screen), old(sessions), old(pending), old(logs), sessions, pending, logs)
      ensures Sends(fits, old(sessions).Keys, old(pending), id, old(sessions)[id].offset, screen, added)
      ensures Sent(id, added, old(sessions), old(pending), sessions, pending)
    {
      hide Bound, TracksOk, PendingOk, ResultsOk, PendingOutput, Carries, Follows, Step, Ends, ManagerOutput, Sends;
      ghost var sessions0, pending0, logs0 := sessions, pending, logs;
      var at := sessions[id].offset;
      StepNone(id, at, Got(screen), sessions, pending, logs);
      var event := NextOutput(id, screen);
      added := event;
      if event.None? {
        return;
      }
      if event.value.exited || event.value.closed {
        Finish(id, event.value);
        StepEnd(id, at, Got(screen), sessions0, pending0, logs0, event.value);
      } else {
        Continue(id, event.value, screen.log);
        StepGo(id, at, screen, sessions0, pending0, logs0, event.value);
      }
    }

    /** Reads every session that has no output pending, while there is room. The
        result and the open sessions fit one poll; if everything fits and there is room,
        every session with something new has output pending. */
    method CollectEvents(answers: map<SessionId, Read>)
      requires Valid() && ReadsOk(answers, sessions, logs, sessions.Keys)
      modifies this`sessions, this`pending, this`tracks, this`logs, this`displaced
      ensures Valid() && displaced == old(displaced) && fits(sessions.Keys, pending)
      ensures forall id :: id in sessions ==> sessions[id].offset >= 0
      ensures old(pending) <= pending && |pending| <= 32
      ensures AllFit(fits) && |old(pending)| + |old(sessions)| <= 32 ==>
                forall id :: id in old(sessions) && News(answers, id, old(sessions)[id].offset) ==> PendingOutput(pending, id)
    {
      hide Bound, TracksOk, PendingOk, ResultsOk, PendingOutput, Step, ReadsOk, News, Reads, AllFit;
      var todo := sessions.Keys;
      assert |todo| == |sessions|;
      while todo != {} && |pending| < EVENT_LIMIT
        invariant Valid() && displaced == old(displaced) && ReadsOk(answers, sessions, logs, todo)
        invariant todo <= old(sessions).Keys && forall id :: id in todo ==> id in sessions && sessions[id] == old(sessions)[id]
        invariant old(pending) <= pending && |pending| + |todo| <= |old(pending)| + |old(sessions)|
        invariant AllFit(fits) ==>
                    forall id :: id in old(sessions) && id !in todo && News(answers, id, old(sessions)[id].offset) ==> PendingOutput(pending, id)
        decreases |todo|
      {
        var id :| id in todo;
        ReadOf(answers, sessions, logs, todo, id);
        todo := todo - {id};
        PendingStays(pending, pending);
        if !PendingOutput(pending, id) {
          ghost var sessions0, pending0, logs0 := sessions, pending, logs;
          var read := if id in answers then answers[id] else Unavailable;
          ghost var added := CollectOne(id, read);
          TurnRead(fits, answers, id, read, added, sessions0, pending0, sessions, pending);
          StepFrame(answers, todo, id, sessions0[id].offset, read, sessions0, pending0, logs0, sessions, pending, logs);
        }
      }
      forall id | id in sessions ensures sessions[id].offset >= 0 { OffsetNatural(sessions, tracks, logs, id); }
    }

    /** An answered poll delivered everything pending. A new epoch starts over. */
    method AcceptRelayResponse(epoch: string)
      requires Valid()
      modifies this`sessions, this`pending, this`processed, this`processedIDs, this`centerEpoch
      ensures Valid() && pending == []
      ensures centerEpoch == if epoch == "" then old(centerEpoch) else epoch
      ensures epoch != "" && old(centerEpoch) != "" && epoch != old(centerEpoch)
              ==> sessions == map[] && processed == map[] && processedIDs == []
      ensures epoch == "" || old(centerEpoch) == "" || epoch == old(centerEpoch)
              ==> sessions == old(sessions) && processed == old(processed)
    {
      hide TracksOk;
      LessFits(fits, sessions.Keys, sessions.Keys, pending);
      pending := [];
      if epoch == "" {
        return;
      }
      if centerEpoch != "" && centerEpoch != epoch {
        NoTracks(tracks, logs);
        sessions, processed, processedIDs := map[], map[], [];
        assert sessions.Keys == {};
        LessFits(fits, {}, old(sessions).Keys, []);
      }
      centerEpoch := epoch;
    }

    method RememberCommandResult(id: CommandId, event: Event)
      requires ResultsOk(processed, processedIDs) && event.Reply?
      modifies this`processed, this`processedIDs
      ensures ResultsOk(processed, processedIDs) && processedIDs == Relay.Remember(old(processedIDs), id)
      ensures id in processed && processed[id] == if id in old(processed) then old(processed)[id] else event
    {
      if id in processed {
        return;
      }
      processed := processed[id := event];
      processedIDs := processedIDs + [id];
      if |processedIDs| <= LOG_LIMIT {
        return;
      }
      Relay.DropFirst(processedIDs);
      processed := processed - {processedIDs[0]};
      processedIDs := processedIDs[1..];
    }

    /** Queues a command result behind nothing or one other. */
    method QueueReply(event: Event) returns (ok: bool)
      requires Valid() && event.Reply? && |pending| < EVENT_LIMIT
      modifies this`pending, this`displaced
      ensures Valid() && displaced == old(displaced) && pending == Put(fits, sessions.Keys, old(pending), event)
    {
      hide Bound, TracksOk, ResultsOk;
      ok := QueueEvent(event);
    }

    method QueueError(command: Command)
      requires Valid() && |pending| < EVENT_LIMIT
      modifies this`pending, this`displaced, this`processed, this`processedIDs
      ensures Valid() && displaced == old(displaced) && |pending| <= |old(pending)| + 1
      ensures var failed := Reply(command.id, command.session, "error", 0, false, command.error);
              && command.id in processed
              && processed[command.id] == (if command.id in old(processed) then old(processed)[command.id] else failed)
              && pending == Put(fits, sessions.Keys, old(pending), failed)
    {
      hide Bound, TracksOk, PendingOk, ResultsOk;
      var event := Reply(command.id, command.session, "error", 0, false, command.error);
      RememberCommandResult(command.id, event);
      var ok := QueueReply(event);
    }

    /** Opens a session; one that cannot be announced is closed again. */
    method OpenSession(command: Command, local: string, offset: nat, retained: bool) returns (ok: bool)
      requires Valid() && pending == []
      modifies this`sessions, this`pending, this`displaced, this`tracks, this`logs
      ensures Valid() && displaced == old(displaced)
      ensures ok ==> pending == [Announce(command, offset, retained)] && sessions == old(sessions)[command.session := Session(local, offset)]
                     && command.session in tracks && tracks[command.session] == Track(offset, [])
      ensures !ok ==> pending == [] && sessions == old(sessions) - {command.session}
      ensures ok <==> fits(old(sessions)[command.session := Session(local, offset)].Keys, [Announce(command, offset, retained)])
    {
      hide Bound, TracksOk, ResultsOk;
      var id := command.session;
      EmptyLeft([Announce(command, offset, retained)]);
      OpenedTracks(sessions, tracks, logs, id, Session(local, offset));
      tracks, logs := tracks[id := Track(offset, [])], logs[id := []];
      sessions := sessions[id := Session(local, offset)];
      ok := QueueEvent(Announce(command, offset, retained));
      if !ok {
        ClosedTracks(sessions, tracks, logs, id);
        assert (sessions - {id}).Keys == (old(sessions) - {id}).Keys;
        LessFits(fits, (sessions - {id}).Keys, old(sessions).Keys, []);
        sessions := sessions - {id};
        assert sessions == old(sessions) - {id};
      }
    }

    /** Runs a command once; a repeated one is answered from the log. At most one
        result is queued, so a pending output is never displaced. */
    method ExecuteCommand(command: Command)
      requires Valid() && pending == []
      modifies this`sessions, this`pending, this`displaced, this`tracks, this`logs, this`processed, this`processedIDs
      ensures Valid() && displaced == old(displaced) && |pending| <= 1
      ensures command.id in old(processed) ==>
                sessions == old(sessions) && processed == old(processed) && pending == Put(fits, sessions.Keys, [], old(processed)[command.id])
      ensures command.id !in old(processed) ==>
                var (reply, next) := Replied(fits, old(sessions), command);
                && sessions == next && command.id in processed && processed[command.id] == reply
                && pending == Put(fits, next.Keys, [], reply)
    {
      hide Bound, TracksOk, PendingOk, Replied, ResultsOk, Put;
      if command.id in processed {
        LoggedReply(processed, processedIDs, command.id);
        var ok := QueueReply(processed[command.id]);
      } else {
        ExecuteNew(command);
      }
    }

    /** A command whose result is not logged. */
    method ExecuteNew(command: Command)
      requires Valid() && pending == [] && command.id !in processed
      modifies this`sessions, this`pending, this`displaced, this`tracks, this`logs, this`processed, this`processedIDs
      ensures Valid() && displaced == old(displaced) && |pending| <= 1
      ensures var (reply, next) := Replied(fits, old(sessions), command);
              && sessions == next && command.id in processed && processed[command.id] == reply
              && pending == Put(fits, next.Keys, [], reply)
    {
      hide Bound, TracksOk, PendingOk, ResultsOk, Put;
      match command.action
      case Invalid => QueueError(command);
      case Open(terminal) =>
        if terminal.None? {
          QueueError(command);
          return;
        }
        AnnouncedIs(fits, sessions[command.session := Session(terminal.value.0, terminal.value.1)].Keys, command, terminal.value.1, terminal.value.2);
        var ok := OpenSession(command, terminal.value.0, terminal.value.1, terminal.value.2);
        if ok {
          RememberCommandResult(command.id, Announce(command, terminal.value.1, terminal.value.2));
        } else {
          QueueError(command);
        }
      case Accept(accepted) =>
        if command.session !in sessions || !accepted {
          QueueError(command);
          return;
        }
        RememberCommandResult(command.id, Answer(command, "accepted"));
        var ok := QueueReply(Answer(command, "accepted"));
      case Close(closed) =>
        if command.session in sessions {
          if !closed {
            QueueError(command);
            return;
          }
          CloseSession(command.session);
        }
        assert sessions == old(sessions) - {command.session};
        RememberCommandResult(command.id, Answer(command, "closed"));
        var ok := QueueReply(Answer(command, "closed"));
    }

    method CloseSession(id: SessionId)
      requires Valid() && pending == []
      modifies this`sessions
      ensures Valid() && sessions == old(sessions) - {id}
    {
      hide Bound, TracksOk, ResultsOk;
      ClosedTracks(sessions, tracks, logs, id);
      LessFits(fits, (sessions - {id}).Keys, sessions.Keys, []);
      sessions := sessions - {id};
    }

    /** One turn of the control loop, with any outcome of the poll. No turn ever
        displaces a pending output event. */
    method Turn(answers: map<SessionId, Read>, poll: Poll)
      requires Valid() && ReadsOk(answers, sessions, logs, sessions.Keys)
      modifies this
      ensures Valid() && displaced == old(displaced)
      ensures poll.Answered? ==> |pending| <= 1
    {
      hide Bound, TracksOk, PendingOk, ResultsOk, ReadsOk;
      CollectEvents(answers);
      if poll.Failed? {
        return;
      }
      AcceptRelayResponse(poll.epoch);
      if poll.command.Some? {
        ExecuteCommand(poll.command.value);
      }
    }
  }

  /** The manager's terminals only grow: what is read now begins with what was known. */
  ghost predicate ReadsOk(answers: map<SessionId, Read>, sessions: map<SessionId, Session>, logs: map<SessionId, Text>,
                          ids: set<SessionId>) {
    forall id :: id in ids ==>
      id in sessions && id in logs
      && (id in answers && answers[id].Got? ==> logs[id] <= answers[id].screen.log && answers[id].screen.base <= |answers[id].screen.log|)
  }

  lemma ReadOf(answers: map<SessionId, Read>, sessions: map<SessionId, Session>, logs: map<SessionId, Text>,
               ids: set<SessionId>, id: SessionId)
    requires ReadsOk(answers, sessions, logs, ids) && id in ids
    ensures id in sessions && id in logs
    ensures id in answers && answers[id].Got?
            ==> logs[id] <= answers[id].screen.log && answers[id].screen.base <= |answers[id].screen.log|
    ensures ReadsOk(answers, sessions, logs, ids - {id})
  {
  }

  lemma StepFrame(answers: map<SessionId, Read>, todo: set<SessionId>, id: SessionId, at: int, read: Read,
                  sessions: map<SessionId, Session>, pending: seq<Event>, logs: map<SessionId, Text>,
                  sessions': map<SessionId, Session>, pending': seq<Event>, logs': map<SessionId, Text>)
    requires ReadsOk(answers, sessions, logs, todo) && id !in todo
             && Step(id, at, read, sessions, pending, logs, sessions', pending', logs')
    ensures ReadsOk(answers, sessions', logs', todo)
  {
    hide Carries, Ends, Follows;
  }

  /** Nothing to send, or nothing fits. */
  lemma SendsNone(fits: Fits, ids: set<SessionId>, pending: seq<Event>, id: SessionId, at: int, screen: Screen,
                  whole: Event)
    requires screen.base <= |screen.log|
    ensures var read := ManagerOutput(screen, at);
            && (read.None? || (read.value.1 == [] && !screen.exited && !screen.closed) ==> Sends(fits, ids, pending, id, at, screen, None))
            && (read.Some? && whole == WholeOf(read.value.0, read.value.1, id, at, screen) && !fits(ids, pending + [whole])
                && (forall m :: 0 < m <= |whole.data| ==> !fits(ids, pending + [Cut(whole, m)]))
                ==> Sends(fits, ids, pending, id, at, screen, None))
  {
    hide ManagerOutput, WholeOf;
  }

  lemma WholeIs(from: int, data: Text, id: SessionId, at: int, screen: Screen, cut: Text)
    requires cut == if |data| > OUTPUT_LIMIT then data[..OUTPUT_LIMIT] else data
    ensures WholeOf(from, data, id, at, screen) == Output(id, from, from + |cut|, cut, at < screen.base, screen.exited, screen.closed)
  {
    assert |data| <= OUTPUT_LIMIT ==> data[..|data|] == data;
  }

  lemma SendsSome(fits: Fits, ids: set<SessionId>, pending: seq<Event>, id: SessionId, at: int, screen: Screen, k: nat,
                  e: Event)
    requires screen.base <= |screen.log| && ManagerOutput(screen, at).Some?
    requires var (from, data) := ManagerOutput(screen, at).value;
             && !(data == [] && !screen.exited && !screen.closed)
             && k <= |WholeOf(from, data, id, at, screen).data|
             && SendsPart(fits, ids, pending, WholeOf(from, data, id, at, screen), k, |data|, e)
    ensures Sends(fits, ids, pending, id, at, screen, Some(e))
  {
    hide ManagerOutput, SendsPart, WholeOf;
  }

  lemma PartFits(fits: Fits, ids: set<SessionId>, pending: seq<Event>, whole: Event, k: nat, available: nat, e: Event)
    requires Bound(fits) && whole.Output? && k <= |whole.data| <= available && e == Cut(whole, k)
             && fits(ids, pending + [e])
    requires (whole.data != [] ==> k > 0) && forall m :: k < m <= |whole.data| ==> !fits(ids, pending + [Cut(whole, m)])
    ensures var next := if k < available then Unended(e) else e;
            SendsPart(fits, ids, pending, whole, k, available, next) && fits(ids, pending + [next])
  {
    OpenFits(fits, ids, pending, e);
    hide Bound;
  }

  lemma LoggedReply(processed: map<CommandId, Event>, ids: seq<CommandId>, id: CommandId)
    requires ResultsOk(processed, ids) && id in processed
    ensures processed[id].Reply?
  {
  }

  lemma AnnouncedIs(fits: Fits, ids: set<SessionId>, c: Command, offset: nat, retained: bool)
    ensures Put(fits, ids, [], Announce(c, offset, retained))
            == if fits(ids, [Announce(c, offset, retained)]) then [Announce(c, offset, retained)] else []
  {
    EmptyLeft([Announce(c, offset, retained)]);
  }

  /** Whatever is queued behind it, output stays pending. */
  lemma PendingStays(pending: seq<Event>, more: seq<Event>)
    requires pending <= more
    ensures forall id :: PendingOutput(pending, id) ==> PendingOutput(more, id)
  {
    forall id | PendingOutput(pending, id) ensures PendingOutput(more, id) {
      var i :| 0 <= i < |pending| && pending[i].Output? && pending[i].session == id;
      assert more[i].Output? && more[i].session == id;
    }
  }

  /** One session's turn: with news, if all fits, it has output pending afterwards. */
  lemma TurnRead(fits: Fits, answers: map<SessionId, Read>, id: SessionId, read: Read, added: Option<Event>,
                 sessions: map<SessionId, Session>, pending: seq<Event>, sessions': map<SessionId, Session>,
                 pending': seq<Event>)
    requires id in sessions && read == (if id in answers then answers[id] else Unavailable)
    requires read.Got? ==> read.screen.base <= |read.screen.log|
    requires Reads(fits, sessions.Keys, pending, id, sessions[id].offset, read, added)
             && Sent(id, added, sessions, pending, sessions', pending')
    ensures pending <= pending' && |pending'| <= |pending| + 1
    ensures forall other :: other in sessions && other != id ==> other in sessions' && sessions'[other] == sessions[other]
    ensures forall other :: PendingOutput(pending, other) ==> PendingOutput(pending', other)
    ensures AllFit(fits) && News(answers, id, sessions[id].offset) ==> PendingOutput(pending', id)
  {
    PendingStays(pending, pending');
    if AllFit(fits) && News(answers, id, sessions[id].offset) {
      NewsSent(fits, sessions.Keys, pending, answers, id, sessions[id].offset, added);
      assert pending'[|pending|] == added.value;
    }
    hide Reads, News, AllFit;
  }

  lemma NoTracks(tracks: map<SessionId, Track>, logs: map<SessionId, Text>)
    ensures TracksOk(map[], tracks, logs)
  {
  }

  lemma OpenedTracks(sessions: map<SessionId, Session>, tracks: map<SessionId, Track>, logs: map<SessionId, Text>,
                     id: SessionId, session: Session)
    requires TracksOk(sessions, tracks, logs) && session.offset >= 0
    ensures TracksOk(sessions[id := session], tracks[id := Track(session.offset, [])], logs[id := []])
  {
    assert TrackOk(Track(session.offset, []), session.offset, []);
    hide TrackOk;
  }

  lemma ClosedTracks(sessions: map<SessionId, Session>, tracks: map<SessionId, Track>, logs: map<SessionId, Text>,
                     id: SessionId)
    requires TracksOk(sessions, tracks, logs)
    ensures TracksOk(sessions - {id}, tracks, logs)
  {
    hide TrackOk;
  }

  lemma StepNone(id: SessionId, at: int, read: Read, sessions: map<SessionId, Session>, pending: seq<Event>,
                 logs: map<SessionId, Text>)
    ensures Step(id, at, read, sessions, pending, logs, sessions, pending, logs)
  {
  }

  lemma StepEnd(id: SessionId, at: int, read: Read, sessions: map<SessionId, Session>, pending: seq<Event>,
                logs: map<SessionId, Text>, e: Event)
    requires Ends(e, at, read) && e.session == id
    ensures Step(id, at, read, sessions, pending, logs, sessions - {id}, pending + [e], logs)
  {
    hide Ends, Carries, Follows;
  }

  lemma StepGo(id: SessionId, at: int, screen: Screen, sessions: map<SessionId, Session>, pending: seq<Event>,
               logs: map<SessionId, Text>, e: Event)
    requires Carries(e, screen.log) && e.session == id && Follows(at, e) && id in sessions && e.Output?
    ensures Step(id, at, Got(screen), sessions, pending, logs, sessions[id := sessions[id].(offset := e.next)], pending + [e], logs[id := screen.log])
  {
    hide Ends, Carries, Follows;
  }

  /** The end is announced only together with the last byte. */
  lemma EndsIs(e: Event, at: int, screen: Screen, from: int, data: Text, k: nat)
    requires screen.base <= |screen.log| && ManagerOutput(screen, at) == Some((from, data)) && k <= |data|
             && k <= OUTPUT_LIMIT
    requires e.Output? && e.offset == from && e.next == from + k && e.data == data[..k]
             && e.truncated == (at < screen.base)
    requires e.exited || e.closed
    requires e.next >= from + |data|
    ensures Ends(e, at, Got(screen))
  {
    CutCarries(screen, at, e.session, k);
  }
}
