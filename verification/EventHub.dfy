/** Live events and snapshots (internal/ai/event_hub.go). Every method is one
    critical section; `Receive` is a reader taking one event from its channel. */
module EventHub {
  import opened Prelude

  type RunId = string
  type ChannelId = nat

  const CHANNEL_SIZE := 32
  const MAX_LIVE := 2
  const MAX_ASSISTANT_BYTES := 0x10_0000

  datatype Event = Delta(text: Text) | Completed(messageID: nat) | Ended | Note(text: Text)

  datatype Message = Message(id: nat, content: Text)

  datatype Channel = Channel(run: RunId, buffer: seq<Event>, closed: bool)

  /** How a subscription began: the length of the log of its run at the cut and the
      live content of that moment; and what its reader has taken since. */
  datatype Cut = Cut(at: nat, content: Text, received: seq<Event>)

  /** How the live message of a run came about: the length of the log when it began, and
      whether every content accepted since was the one before it and its delta. */
  datatype Begun = Begun(start: nat, honest: bool)

  type Logs = map<RunId, seq<Event>>

  function LogOf(logs: Logs, run: RunId): seq<Event> { if run in logs then logs[run] else [] }

  function Deltas(events: seq<Event>): Text {
    if events == [] then [] else
      var last := events[|events| - 1];
      Deltas(events[..|events| - 1]) + (if last.Delta? then last.text else [])
  }

  lemma {:induction false} DeltasSum(a: seq<Event>, b: seq<Event>)
    ensures Deltas(a + b) == Deltas(a) + Deltas(b)
    decreases |b|
  {
    if b == [] {
      EmptyRight(a);
      EmptyRight(Deltas(a));
    } else {
      var c, e := b[..|b| - 1], b[|b| - 1];
      assert (a + b)[..|a + b| - 1] == a + c;
      DeltasSum(a, c);
      Assoc(Deltas(a), Deltas(c), if e.Delta? then e.text else []);
    }
  }

  lemma DeltasSnoc(a: seq<Event>, e: Event)
    ensures Deltas(a + [e]) == Deltas(a) + (if e.Delta? then e.text else [])
  {
    assert (a + [e])[..|a|] == a;
  }

  // ---- The invariant of one channel ----

  /** What the reader has or can still take is a gap-free run of events from its
      cut on. While registered it is all of them; otherwise the channel is closed. */
  ghost predicate ChannelOk(ch: Channel, cut: Cut, log: seq<Event>, registered: bool) {
    var n := cut.at + |cut.received| + |ch.buffer|;
    && n <= |log|
    && cut.received + ch.buffer == log[cut.at..n]
    && |ch.buffer| <= CHANNEL_SIZE
    && ch.closed == !registered
    && (registered ==> n == |log|)
  }

  lemma LogGrows(ch: Channel, cut: Cut, log: seq<Event>, e: Event)
    requires ChannelOk(ch, cut, log, false)
    ensures ChannelOk(ch, cut, log + [e], false)
  {
    var n := cut.at + |cut.received| + |ch.buffer|;
    assert (log + [e])[cut.at..n] == log[cut.at..n];
  }

  lemma Delivered(ch: Channel, cut: Cut, log: seq<Event>, e: Event)
    requires ChannelOk(ch, cut, log, true) && |ch.buffer| < CHANNEL_SIZE
    ensures ChannelOk(ch.(buffer := ch.buffer + [e]), cut, log + [e], true)
  {
    Assoc(cut.received, ch.buffer, [e]);
    assert (log + [e])[cut.at..|log| + 1] == log[cut.at..|log|] + [e];
  }

  lemma Dropped(ch: Channel, cut: Cut, log: seq<Event>)
    requires ChannelOk(ch, cut, log, true)
    ensures ChannelOk(ch.(closed := true), cut, log, false)
  {
  }

  lemma Taken(ch: Channel, cut: Cut, log: seq<Event>, registered: bool)
    requires ChannelOk(ch, cut, log, registered) && ch.buffer != []
    ensures ChannelOk(ch.(buffer := ch.buffer[1..]), cut.(received := cut.received + [ch.buffer[0]]), log, registered)
  {
    Uncons(ch.buffer);
    Assoc(cut.received, [ch.buffer[0]], ch.buffer[1..]);
  }

  lemma Opened(run: RunId, log: seq<Event>, cut: Cut)
    requires cut.at == |log| && cut.received == []
    ensures ChannelOk(Channel(run, [], false), cut, log, true)
  {
  }

  /** A message that was live at the cut: what it held then is what was published. */
  ghost predicate CutExact(cut: Cut, begun: Begun, log: seq<Event>) {
    begun.honest && begun.start < cut.at ==> cut.at <= |log| && cut.content == Deltas(log[begun.start..cut.at])
  }

  lemma CutGrows(cut: Cut, begun: Begun, log: seq<Event>, longer: seq<Event>)
    requires CutExact(cut, begun, log) && log <= longer
    ensures CutExact(cut, begun, longer)
  {
    if begun.honest && begun.start < cut.at {
      assert longer[begun.start..cut.at] == log[begun.start..cut.at];
    }
  }

  /** The content of a message, seen from the cut of a registered subscriber. */
  function Seen(cut: Cut, start: nat, later: seq<Event>): Text {
    if start < cut.at then cut.content + Deltas(later)
    else if start - cut.at <= |later| then Deltas(later[start - cut.at..]) else []
  }

  /** Content at the cut and deltas since make up the content of the message; of a
      message that began later, the deltas since it began. */
  lemma Joined(m: Message, begun: Begun, ch: Channel, cut: Cut, log: seq<Event>)
    requires MessageOk(m, begun, log) && ChannelOk(ch, cut, log, true) && CutExact(cut, begun, log) && begun.honest
    ensures m.content == Seen(cut, begun.start, cut.received + ch.buffer)
  {
    hide Deltas;
    assert log[cut.at..] == log[cut.at..|log|];
    if begun.start < cut.at {
      assert log[begun.start..] == log[begun.start..cut.at] + log[cut.at..];
      DeltasSum(log[begun.start..cut.at], log[cut.at..]);
    } else {
      assert log[begun.start..] == log[cut.at..][begun.start - cut.at..];
    }
  }

  // ---- The hub ----

  type Subscribers = map<RunId, set<ChannelId>>

  predicate Registered(subscribers: Subscribers, run: RunId, c: ChannelId) { run in subscribers && c in subscribers[run] }

  /** What holds at one channel number: a registered channel exists and belongs to
      the run it is registered for, and an existing one is in order. */
  ghost predicate At(sub: Subscribers, channels: map<ChannelId, Channel>, cuts: map<ChannelId, Cut>, logs: Logs,
                     c: ChannelId) {
    && (c in channels <==> c in cuts)
    && (forall r :: Registered(sub, r, c) ==> c in channels && channels[c].run == r)
    && (c in channels && c in cuts ==>
          ChannelOk(channels[c], cuts[c], LogOf(logs, channels[c].run), Registered(sub, channels[c].run, c)))
  }

  ghost predicate ChannelsOk(sub: Subscribers, channels: map<ChannelId, Channel>, cuts: map<ChannelId, Cut>,
                             logs: Logs) {
    forall c: ChannelId :: At(sub, channels, cuts, logs, c)
  }

  lemma Open(sub: Subscribers, channels: map<ChannelId, Channel>, cuts: map<ChannelId, Cut>, logs: Logs, c: ChannelId)
    requires ChannelsOk(sub, channels, cuts, logs)
    ensures At(sub, channels, cuts, logs, c)
  {
    hide At;
  }

  lemma AtRegistered(sub: Subscribers, channels: map<ChannelId, Channel>, cuts: map<ChannelId, Cut>, logs: Logs,
                     run: RunId, c: ChannelId)
    requires ChannelsOk(sub, channels, cuts, logs) && Registered(sub, run, c)
    ensures c in channels && c in cuts && channels[c].run == run && !channels[c].closed
    ensures ChannelOk(channels[c], cuts[c], LogOf(logs, run), true)
  {
    Open(sub, channels, cuts, logs, c);
    hide ChannelsOk, LogOf;
  }

  /** Removing a channel from its run, and the run with its last channel. */
  function Without(subscribers: Subscribers, run: RunId, c: ChannelId): Subscribers
    requires run in subscribers
  {
    var rest := subscribers[run] - {c};
    if rest == {} then subscribers - {run} else subscribers[run := rest]
  }

  function Shut(ch: Channel): Channel { ch.(closed := true) }

  lemma WithoutKeeps(sub: Subscribers, run: RunId, c: ChannelId, r: RunId, d: ChannelId)
    requires run in sub
    ensures Registered(Without(sub, run, c), r, d) <==> Registered(sub, r, d) && !(r == run && d == c)
  {
    var rest := sub[run] - {c};
    assert d in rest <==> d in sub[run] && d != c;
  }

  lemma RemovedAt(sub: Subscribers, channels: map<ChannelId, Channel>, cuts: map<ChannelId, Cut>, logs: Logs,
                  run: RunId, c: ChannelId, d: ChannelId)
    requires At(sub, channels, cuts, logs, c) && At(sub, channels, cuts, logs, d) && Registered(sub, run, c)
    ensures c in channels && channels[c].run == run
    ensures At(Without(sub, run, c), channels[c := Shut(channels[c])], cuts, logs, d)
  {
    var after := Without(sub, run, c);
    assert run in sub;
    forall r: RunId ensures Registered(after, r, d) <==> Registered(sub, r, d) && !(r == run && d == c) {
      WithoutKeeps(sub, run, c, r, d);
    }
    hide Without, Registered, LogOf;
    if d == c { Dropped(channels[c], cuts[c], LogOf(logs, run)); }
    hide ChannelOk;
  }

  lemma RemovedKeeps(sub: Subscribers, channels: map<ChannelId, Channel>, cuts: map<ChannelId, Cut>, logs: Logs,
                     run: RunId, c: ChannelId)
    requires ChannelsOk(sub, channels, cuts, logs) && Registered(sub, run, c)
    ensures c in channels && !channels[c].closed && channels[c].run == run
    ensures ChannelsOk(Without(sub, run, c), channels[c := Shut(channels[c])], cuts, logs)
  {
    AtRegistered(sub, channels, cuts, logs, run, c);
    var after, next := Without(sub, run, c), channels[c := Shut(channels[c])];
    hide At, Without, ChannelOk, LogOf, Registered, Shut;
    forall d: ChannelId ensures At(after, next, cuts, logs, d) {
      RemovedAt(sub, channels, cuts, logs, run, c, d);
    }
  }

  /** What publishing does to one registered channel. */
  function Offered(ch: Channel, e: Event): Channel {
    if |ch.buffer| < 32 then ch.(buffer := ch.buffer + [e]) else Shut(ch)
  }

  predicate HasRoom(ch: Channel) { |ch.buffer| < CHANNEL_SIZE }

  /** Publishing e to a run, with the channels in `todo` not offered e yet. */
  ghost predicate Publishing(sub0: Subscribers, ch0: map<ChannelId, Channel>, sub: Subscribers,
                             ch: map<ChannelId, Channel>,
                             run: RunId, e: Event, todo: set<ChannelId>) {
    && ch.Keys == ch0.Keys
    && (forall c :: c in ch0 ==> ch[c] == if Registered(sub0, run, c) && c !in todo then Offered(ch0[c], e) else ch0[c])
    && (forall r, c :: Registered(sub, r, c) <==> Registered(sub0, r, c) && (r != run || c in todo || (c in ch0 && HasRoom(ch0[c]))))
  }

  lemma PublishingStarts(sub: Subscribers, ch: map<ChannelId, Channel>, cuts: map<ChannelId, Cut>, logs: Logs,
                         run: RunId, e: Event, todo: set<ChannelId>)
    requires ChannelsOk(sub, ch, cuts, logs) && todo == if run in sub then sub[run] else {}
    ensures Publishing(sub, ch, sub, ch, run, e, todo)
    ensures forall c :: c in todo ==> Registered(sub, run, c) && c in ch && !ch[c].closed
  {
    forall c | c in todo ensures Registered(sub, run, c) && c in ch && !ch[c].closed {
      AtRegistered(sub, ch, cuts, logs, run, c);
    }
    hide ChannelsOk, At;
  }

  lemma PublishingAt(sub0: Subscribers, ch0: map<ChannelId, Channel>, sub: Subscribers, ch: map<ChannelId, Channel>,
                     run: RunId, e: Event, todo: set<ChannelId>, c: ChannelId)
    requires Publishing(sub0, ch0, sub, ch, run, e, todo) && c in todo && Registered(sub0, run, c) && c in ch0
    ensures c in ch && ch[c] == ch0[c] && Registered(sub, run, c)
    ensures HasRoom(ch[c])
            ==> Publishing(sub0, ch0, sub, ch[c := ch[c].(buffer := ch[c].buffer + [e])], run, e, todo - {c})
    ensures !HasRoom(ch[c]) ==> Publishing(sub0, ch0, Without(sub, run, c), ch[c := Shut(ch[c])], run, e, todo - {c})
  {
    assert Registered(sub, run, c);
    if !HasRoom(ch[c]) {
      forall r, d ensures Registered(Without(sub, run, c), r, d) <==> Registered(sub, r, d) && !(r == run && d == c) {
        WithoutKeeps(sub, run, c, r, d);
      }
      assert ch[c := Shut(ch[c])].Keys == ch0.Keys;
      hide Without, Registered, Shut;
    } else {
      assert ch[c := ch[c].(buffer := ch[c].buffer + [e])].Keys == ch0.Keys;
      hide Registered;
    }
  }

  lemma PublishedAt(sub0: Subscribers, ch0: map<ChannelId, Channel>, sub: Subscribers, ch: map<ChannelId, Channel>,
                    cuts: map<ChannelId, Cut>, logs: Logs, run: RunId, e: Event, c: ChannelId)
    requires At(sub0, ch0, cuts, logs, c) && Publishing(sub0, ch0, sub, ch, run, e, {})
    ensures At(sub, ch, cuts, logs[run := LogOf(logs, run) + [e]], c)
  {
    assert c in ch <==> c in ch0;
    forall r: RunId ensures Registered(sub, r, c) <==> Registered(sub0, r, c) && (r != run || (c in ch0 && HasRoom(ch0[c]))) {}
    if c in ch0 {
      assert ch[c] == if Registered(sub0, run, c) then Offered(ch0[c], e) else ch0[c];
      hide Publishing, Registered;
      PublishedChannel(ch0[c], cuts[c], LogOf(logs, ch0[c].run), ch0[c].run == run, Registered(sub0, ch0[c].run, c), e);
      hide ChannelOk, Offered;
    }
  }

  /** One channel of the run, or of another run, across one event. */
  lemma PublishedChannel(ch: Channel, cut: Cut, log: seq<Event>, same: bool, registered: bool, e: Event)
    requires ChannelOk(ch, cut, log, registered)
    ensures same && registered ==> ChannelOk(Offered(ch, e), cut, log + [e], HasRoom(ch))
    ensures same && !registered ==> ChannelOk(ch, cut, log + [e], false)
    ensures Offered(ch, e).run == ch.run
  {
    hide ChannelOk;
    if same && registered {
      if HasRoom(ch) { ChannelOkRoom(ch, cut, log); Delivered(ch, cut, log, e); }
      else { Dropped(ch, cut, log); LogGrows(Shut(ch), cut, log, e); }
    } else if same {
      LogGrows(ch, cut, log, e);
    }
  }

  lemma ChannelOkRoom(ch: Channel, cut: Cut, log: seq<Event>)
    requires HasRoom(ch)
    ensures |ch.buffer| < CHANNEL_SIZE
  {
  }

  lemma PublishedKeeps(sub0: Subscribers, ch0: map<ChannelId, Channel>, sub: Subscribers, ch: map<ChannelId, Channel>,
                       cuts: map<ChannelId, Cut>, logs: Logs, run: RunId, e: Event)
    requires ChannelsOk(sub0, ch0, cuts, logs) && Publishing(sub0, ch0, sub, ch, run, e, {})
    ensures ChannelsOk(sub, ch, cuts, logs[run := LogOf(logs, run) + [e]])
  {
    var next := logs[run := LogOf(logs, run) + [e]];
    hide Publishing, At, LogOf;
    forall c: ChannelId ensures At(sub, ch, cuts, next, c) {
      PublishedAt(sub0, ch0, sub, ch, cuts, logs, run, e, c);
    }
  }

  lemma SubscribedKeeps(sub: Subscribers, channels: map<ChannelId, Channel>, cuts: map<ChannelId, Cut>, logs: Logs,
                        sub': Subscribers, run: RunId, c: ChannelId, cut: Cut)
    requires ChannelsOk(sub, channels, cuts, logs) && c !in channels
    requires cut.at == |LogOf(logs, run)| && cut.received == []
    requires forall r, d :: Registered(sub', r, d) <==> Registered(sub, r, d) || (r == run && d == c)
    ensures ChannelsOk(sub', channels[c := Channel(run, [], false)], cuts[c := cut], logs)
  {
    var channels', cuts' := channels[c := Channel(run, [], false)], cuts[c := cut];
    hide Registered, LogOf;
    forall d: ChannelId ensures At(sub', channels', cuts', logs, d) {
      assert At(sub, channels, cuts, logs, d);
      if d == c {
        Opened(run, LogOf(logs, run), cut);
      }
      hide ChannelOk;
    }
    hide At;
  }

  lemma ReceivedKeeps(sub: Subscribers, channels: map<ChannelId, Channel>, cuts: map<ChannelId, Cut>, logs: Logs,
                      c: ChannelId)
    requires ChannelsOk(sub, channels, cuts, logs) && c in channels && channels[c].buffer != []
    ensures c in cuts
    ensures ChannelsOk(sub, channels[c := channels[c].(buffer := channels[c].buffer[1..])],
                       cuts[c := cuts[c].(received := cuts[c].received + [channels[c].buffer[0]])], logs)
  {
    hide Registered, LogOf;
    assert At(sub, channels, cuts, logs, c);
    var channels', cuts' := channels[c := channels[c].(buffer := channels[c].buffer[1..])],
                            cuts[c := cuts[c].(received := cuts[c].received + [channels[c].buffer[0]])];
    Taken(channels[c], cuts[c], LogOf(logs, channels[c].run), Registered(sub, channels[c].run, c));
    hide ChannelOk;
    forall d: ChannelId ensures At(sub, channels', cuts', logs, d) {
      assert At(sub, channels, cuts, logs, d);
    }
    hide At;
  }

  /** Channels after some of them were closed. */
  ghost predicate Shutting(ch0: map<ChannelId, Channel>, ch: map<ChannelId, Channel>) {
    ch.Keys == ch0.Keys && forall c :: c in ch0 ==> ch[c] == ch0[c] || ch[c] == Shut(ch0[c])
  }

  lemma ShuttingStarts(ch: map<ChannelId, Channel>)
    ensures Shutting(ch, ch)
  {
  }

  lemma ShuttingStep(ch0: map<ChannelId, Channel>, ch: map<ChannelId, Channel>, c: ChannelId)
    requires Shutting(ch0, ch)
    ensures c in ch ==> Shutting(ch0, ch[c := Shut(ch[c])])
  {
    if c in ch {
      assert ch[c := Shut(ch[c])].Keys == ch0.Keys;
    }
  }

  lemma ShuttingJoin(ch0: map<ChannelId, Channel>, ch1: map<ChannelId, Channel>, ch2: map<ChannelId, Channel>)
    requires Shutting(ch0, ch1) && Shutting(ch1, ch2)
    ensures Shutting(ch0, ch2)
  {
  }

  lemma RemovingStarts(sub: Subscribers, run: RunId, todo: set<ChannelId>)
    requires todo == if run in sub then sub[run] else {}
    ensures forall r, c :: Registered(sub, r, c) ==> r != run || c in todo
  {
  }

  lemma RunsListed(sub: Subscribers)
    ensures forall r, c :: Registered(sub, r, c) ==> r in sub
  {
  }

  lemma RemovingStep(sub0: Subscribers, sub: Subscribers, run: RunId, todo: set<ChannelId>, c: ChannelId)
    requires forall r, d :: Registered(sub, r, d) ==> Registered(sub0, r, d) && (r != run || d in todo)
    ensures Registered(sub, run, c) ==>
              run in sub && forall r, d :: Registered(Without(sub, run, c), r, d) ==> Registered(sub0, r, d) && (r != run || d in todo - {c})
    ensures !Registered(sub, run, c) ==> forall r, d :: Registered(sub, r, d) ==> r != run || d in todo - {c}
  {
    if Registered(sub, run, c) {
      forall r, d ensures Registered(Without(sub, run, c), r, d) <==> Registered(sub, r, d) && !(r == run && d == c) {
        WithoutKeeps(sub, run, c, r, d);
      }
    }
    hide Registered, Without;
  }

  lemma AllShut(sub: Subscribers, ch0: map<ChannelId, Channel>, channels: map<ChannelId, Channel>,
                cuts: map<ChannelId, Cut>, logs: Logs)
    requires ChannelsOk(sub, channels, cuts, logs) && Shutting(ch0, channels) && forall r, c :: !Registered(sub, r, c)
    ensures channels.Keys == ch0.Keys && forall c :: c in channels ==> channels[c] == Shut(ch0[c])
  {
    forall c | c in channels ensures channels[c].closed {
      Open(sub, channels, cuts, logs, c);
    }
    hide ChannelsOk, Registered;
  }

  /** Live messages: at most two, each within its limit, and holding exactly the
      deltas published since it began, if its contents were honest. */
  ghost predicate LiveOk(live: map<RunId, Message>, begun: map<RunId, Begun>, logs: Logs) {
    && |live| <= MAX_LIVE
    && (forall r :: r in live ==> r in begun && MessageOk(live[r], begun[r], LogOf(logs, r)))
  }

  ghost predicate MessageOk(m: Message, begun: Begun, log: seq<Event>) {
    begun.start <= |log| && |m.content| <= MAX_ASSISTANT_BYTES && (begun.honest ==> m.content == Deltas(log[begun.start..]))
  }

  /** Every cut is exact for the message of its run that is live now. */
  ghost predicate CutsOk(channels: map<ChannelId, Channel>, cuts: map<ChannelId, Cut>, live: map<RunId, Message>,
                         begun: map<RunId, Begun>, logs: Logs) {
    forall c :: c in channels && c in cuts && channels[c].run in live && channels[c].run in begun ==>
      CutExact(cuts[c], begun[channels[c].run], LogOf(logs, channels[c].run))
  }

  /** Logs that grow, messages that go or lose their honesty, and readers that take
      events keep the cuts exact. */
  lemma CutsFrame(ch: map<ChannelId, Channel>, cuts: map<ChannelId, Cut>, live: map<RunId, Message>,
                  begun: map<RunId, Begun>, logs: Logs,
                  ch': map<ChannelId, Channel>, cuts': map<ChannelId, Cut>, live': map<RunId, Message>,
                  begun': map<RunId, Begun>, logs': Logs)
    requires CutsOk(ch, cuts, live, begun, logs)
    requires forall c :: c in ch' ==> c in ch && ch'[c].run == ch[c].run
    requires forall c :: c in cuts' ==> c in cuts && cuts'[c].at == cuts[c].at && cuts'[c].content == cuts[c].content
    requires forall r :: r in live' ==> r in live
    requires forall r :: r in begun' ==> r in begun && begun'[r].start == begun[r].start && (begun'[r].honest ==> begun[r].honest)
    requires forall r :: LogOf(logs, r) <= LogOf(logs', r)
    ensures CutsOk(ch', cuts', live', begun', logs')
  {
    hide LogOf, CutExact;
    forall c | c in ch' && c in cuts' && ch'[c].run in live' && ch'[c].run in begun'
      ensures CutExact(cuts'[c], begun'[ch'[c].run], LogOf(logs', ch'[c].run))
    {
      var r := ch[c].run;
      CutGrows(cuts[c], begun[r], LogOf(logs, r), LogOf(logs', r));
      CutLike(cuts[c], cuts'[c], begun[r], begun'[r], LogOf(logs', r));
    }
  }

  lemma CutLike(cut: Cut, cut': Cut, begun: Begun, begun': Begun, log: seq<Event>)
    requires CutExact(cut, begun, log) && cut'.at == cut.at && cut'.content == cut.content
    requires begun'.start == begun.start && (begun'.honest ==> begun.honest)
    ensures CutExact(cut', begun', log)
  {
  }

  lemma LogsGrow(logs: Logs, run: RunId, e: Event)
    ensures forall r :: LogOf(logs, r) <= LogOf(logs[run := LogOf(logs, run) + [e]], r)
  {
  }

  /** A message that begins now began after every cut. */
  lemma CutsBegin(sub: Subscribers, ch: map<ChannelId, Channel>, cuts: map<ChannelId, Cut>, live: map<RunId, Message>,
                  begun: map<RunId, Begun>,
                  logs: Logs, run: RunId, m: Message)
    requires ChannelsOk(sub, ch, cuts, logs) && CutsOk(ch, cuts, live, begun, logs) && run !in live
    ensures CutsOk(ch, cuts, live[run := m], begun[run := Begun(|LogOf(logs, run)|, true)], logs)
  {
    forall c | c in ch && c in cuts ensures cuts[c].at <= |LogOf(logs, ch[c].run)| {
      Open(sub, ch, cuts, logs, c);
    }
    hide ChannelsOk, LogOf;
  }

  /** A new cut is exact for the message that is live now. */
  lemma CutsOpened(ch: map<ChannelId, Channel>, cuts: map<ChannelId, Cut>, live: map<RunId, Message>,
                   begun: map<RunId, Begun>, logs: Logs,
                   run: RunId, c: ChannelId, cut: Cut)
    requires CutsOk(ch, cuts, live, begun, logs) && LiveOk(live, begun, logs) && c !in ch
    requires cut.at == |LogOf(logs, run)| && cut.content == if run in live then live[run].content else []
    ensures CutsOk(ch[c := Channel(run, [], false)], cuts[c := cut], live, begun, logs)
  {
    if run in live {
      assert MessageOk(live[run], begun[run], LogOf(logs, run));
      NowExact(live[run], begun[run], LogOf(logs, run), cut);
    }
    hide LiveOk, LogOf, CutExact;
  }

  lemma NowExact(m: Message, begun: Begun, log: seq<Event>, cut: Cut)
    requires MessageOk(m, begun, log) && cut.at == |log| && cut.content == m.content
    ensures CutExact(cut, begun, log)
  {
    assert log[begun.start..|log|] == log[begun.start..];
  }

  lemma MessageGrows(m: Message, begun: Begun, log: seq<Event>, e: Event, content: Text, honest: bool)
    requires MessageOk(m, begun, log) && |content| <= MAX_ASSISTANT_BYTES
    requires honest ==> begun.honest && content == m.content + (if e.Delta? then e.text else [])
    ensures MessageOk(m.(content := content), begun.(honest := honest), log + [e])
  {
    assert (log + [e])[begun.start..] == log[begun.start..] + [e];
    DeltasSnoc(log[begun.start..], e);
  }

  lemma LiveRemoved(live: map<RunId, Message>, begun: map<RunId, Begun>, logs: Logs, run: RunId)
    requires LiveOk(live, begun, logs)
    ensures LiveOk(live - {run}, begun, logs)
  {
    hide MessageOk;
    SmallerMap(live, run);
  }

  lemma SmallerMap(m: map<RunId, Message>, run: RunId)
    ensures |m - {run}| <= |m|
  {
    if run in m {
      assert m.Keys == (m - {run}).Keys + {run};
    } else {
      assert m - {run} == m;
    }
  }

  /** Events other than deltas leave the contents as they are. */
  lemma LiveAfter(live: map<RunId, Message>, begun: map<RunId, Begun>, logs: Logs, run: RunId, e: Event)
    requires LiveOk(live, begun, logs) && !e.Delta?
    ensures LiveOk(live, begun, logs[run := LogOf(logs, run) + [e]])
  {
    var next := logs[run := LogOf(logs, run) + [e]];
    forall r | r in live ensures MessageOk(live[r], begun[r], LogOf(next, r)) {
      if r == run {
        EmptyRight(live[r].content);
        MessageGrows(live[r], begun[r], LogOf(logs, r), e, live[r].content, begun[r].honest);
      }
    }
    hide MessageOk;
  }

  lemma LiveDelta(live: map<RunId, Message>, begun: map<RunId, Begun>, logs: Logs, run: RunId, content: Text,
                  delta: Text, honest: bool)
    requires LiveOk(live, begun, logs) && run in live && run in begun && |content| <= MAX_ASSISTANT_BYTES
    requires honest ==> begun[run].honest && content == live[run].content + delta
    ensures LiveOk(live[run := live[run].(content := content)], begun[run := begun[run].(honest := honest)],
                   logs[run := LogOf(logs, run) + [Delta(delta)]])
  {
    var next, now := logs[run := LogOf(logs, run) + [Delta(delta)]], live[run := live[run].(content := content)];
    MessageGrows(live[run], begun[run], LogOf(logs, run), Delta(delta), content, honest);
    hide MessageOk;
    forall r | r in now && r != run ensures r in begun && MessageOk(now[r], begun[r], LogOf(next, r)) {
      assert MessageOk(live[r], begun[r], LogOf(logs, r));
    }
    SameSize(live, run, live[run].(content := content));
    hide LogOf;
  }

  lemma LiveKnown(live: map<RunId, Message>, begun: map<RunId, Begun>, logs: Logs, run: RunId)
    requires LiveOk(live, begun, logs) && run in live
    ensures run in begun && MessageOk(live[run], begun[run], LogOf(logs, run))
  {
    hide MessageOk;
  }

  lemma LiveBegun(live: map<RunId, Message>, begun: map<RunId, Begun>, logs: Logs, run: RunId, id: nat)
    requires LiveOk(live, begun, logs) && run !in live && |live| < MAX_LIVE
    ensures LiveOk(live[run := Message(id, [])], begun[run := Begun(|LogOf(logs, run)|, true)], logs)
  {
    assert live[run := Message(id, [])].Keys == live.Keys + {run};
    assert LogOf(logs, run)[|LogOf(logs, run)|..] == [];
  }

  lemma SameSize(live: map<RunId, Message>, run: RunId, m: Message)
    requires run in live
    ensures |live[run := m]| == |live|
  {
    assert live[run := m].Keys == live.Keys;
  }

  class EventHub {
    var subscribers: Subscribers
    var channels: map<ChannelId, Channel>
    var live: map<RunId, Message>
    var unavailable: bool
    var nextChannel: ChannelId
    /** Everything published, and where each live message began. */
    ghost var logs: Logs
    ghost var begun: map<RunId, Begun>
    ghost var cuts: map<ChannelId, Cut>

    ghost predicate Valid()
      reads this
    {
      && ChannelsOk(subscribers, channels, cuts, logs)
      && LiveOk(live, begun, logs)
      && CutsOk(channels, cuts, live, begun, logs)
      && (forall c :: c in channels ==> c < nextChannel)
    }

    constructor ()
      ensures Valid() && channels == map[] && live == map[] && subscribers == map[] && !unavailable
    {
      subscribers, channels, live, unavailable, nextChannel := map[], map[], map[], false, 0;
      logs, begun, cuts := map[], map[], map[];
      new;
      assert channels.Keys == {} && cuts.Keys == {};
    }

    /** Removes and closes a registered channel. Closing a channel twice would
        panic; a registered channel is never closed. */
    method RemoveLocked(run: RunId, c: ChannelId)
      requires ChannelsOk(subscribers, channels, cuts, logs)
      modifies this`subscribers, this`channels
      ensures ChannelsOk(subscribers, channels, cuts, logs)
      ensures if Registered(old(subscribers), run, c)
              then c in old(channels) && !old(channels)[c].closed
                   && subscribers == Without(old(subscribers), run, c)
                   && channels == old(channels)[c := Shut(old(channels)[c])]
              else subscribers == old(subscribers) && channels == old(channels)
    {
      if run in subscribers && c in subscribers[run] {
        RemovedKeeps(subscribers, channels, cuts, logs, run, c);
        hide ChannelsOk;
        channels := channels[c := channels[c].(closed := true)];
        var rest := subscribers[run] - {c};
        subscribers := if rest == {} then subscribers - {run} else subscribers[run := rest];
      }
    }

    /** The stop function of a subscription, which may be called any number of times. */
    method Unsubscribe(run: RunId, c: ChannelId)
      requires Valid()
      modifies this`subscribers, this`channels
      ensures Valid() && !Registered(subscribers, run, c)
      ensures if Registered(old(subscribers), run, c)
              then c in old(channels) && subscribers == Without(old(subscribers), run, c) && channels == old(channels)[c := Shut(old(channels)[c])]
              else subscribers == old(subscribers) && channels == old(channels)
    {
      hide ChannelsOk, LiveOk, CutsOk;
      RemoveLocked(run, c);
      CutsFrame(old(channels), cuts, live, begun, logs, channels, cuts, live, begun, logs);
      if run in old(subscribers) && c in old(subscribers)[run] {
        forall r, d ensures Registered(subscribers, r, d) ==> Registered(old(subscribers), r, d) && !(r == run && d == c) {
          WithoutKeeps(old(subscribers), run, c, r, d);
        }
      }
      hide Without;
    }

    /** Registers a channel at the current end of the log of its run. */
    method SubscribeLocked(run: RunId, ghost cut: Cut) returns (c: ChannelId)
      requires Valid() && cut == Cut(|LogOf(logs, run)|, if run in live then live[run].content else [], [])
      modifies this`subscribers, this`channels, this`nextChannel, this`cuts
      ensures Valid() && c !in old(channels)
      ensures forall r, d :: Registered(subscribers, r, d) <==> Registered(old(subscribers), r, d) || (r == run && d == c)
      ensures channels == old(channels)[c := Channel(run, [], false)]
      ensures cuts == old(cuts)[c := cut]
    {
      c := nextChannel;
      nextChannel := nextChannel + 1;
      subscribers := subscribers[run := (if run in subscribers then subscribers[run] else {}) + {c}];
      SubscribedKeeps(old(subscribers), channels, cuts, logs, subscribers, run, c, cut);
      CutsOpened(channels, cuts, live, begun, logs, run, c, cut);
      hide ChannelsOk, LiveOk, LogOf, CutsOk;
      channels := channels[c := Channel(run, [], false)];
      cuts := cuts[c := cut];
    }

    /** A cut through the stream: the content the callback saw and a channel that
        starts exactly there. Fails after the hub was shut down or when the
        callback fails, without a subscription. */
    method SnapshotSubscribe(run: RunId, callbackOk: bool) returns (r: Option<(Text, ChannelId)>)
      requires Valid()
      modifies this`subscribers, this`channels, this`nextChannel, this`cuts
      ensures Valid()
      ensures r.None? <==> unavailable || !callbackOk
      ensures r.None? ==> subscribers == old(subscribers) && channels == old(channels) && cuts == old(cuts)
      ensures r.Some? ==>
                && r.value.0 == (if run in live then live[run].content else [])
                && Registered(subscribers, run, r.value.1) && r.value.1 in cuts
                && cuts[r.value.1] == Cut(|LogOf(logs, run)|, r.value.0, [])
    {
      hide ChannelsOk, LiveOk, LogOf, Registered, CutsOk;
      if unavailable {
        return None;
      }
      var content := if run in live then live[run].content else [];
      if !callbackOk {
        return None;
      }
      var c := SubscribeLocked(run, Cut(|LogOf(logs, run)|, content, []));
      return Some((content, c));
    }

    method BeginMessage(run: RunId, id: nat) returns (ok: bool)
      requires Valid()
      modifies this`live, this`begun
      ensures Valid()
      ensures ok <==> run !in old(live) && |old(live)| < 2 && !unavailable
      ensures live == if ok then old(live)[run := Message(id, [])] else old(live)
      ensures begun == if ok then old(begun)[run := Begun(|LogOf(logs, run)|, true)] else old(begun)
    {
      hide ChannelsOk, CutsOk;
      if run in live || |live| >= MAX_LIVE || unavailable {
        return false;
      }
      CutsBegin(subscribers, channels, cuts, live, begun, logs, run, Message(id, []));
      LiveBegun(live, begun, logs, run, id);
      live := live[run := Message(id, [])];
      begun := begun[run := Begun(|LogOf(logs, run)|, true)];
      return true;
    }

    /** Sends one event to every channel of the run; a full channel is closed
        instead, which makes its reader fetch a new snapshot. */
    method PublishLocked(run: RunId, e: Event)
      requires ChannelsOk(subscribers, channels, cuts, logs)
      modifies this`subscribers, this`channels, this`logs
      ensures ChannelsOk(subscribers, channels, cuts, logs)
      ensures logs == old(logs)[run := LogOf(old(logs), run) + [e]]
      ensures Publishing(old(subscribers), old(channels), subscribers, channels, run, e, {})
    {
      ghost var sub0, ch0 := subscribers, channels;
      var todo := if run in subscribers then subscribers[run] else {};
      PublishingStarts(subscribers, channels, cuts, logs, run, e, todo);
      hide Publishing, ChannelsOk, Offered, Without, LogOf;
      while todo != {}
        invariant logs == old(logs)
        invariant Publishing(sub0, ch0, subscribers, channels, run, e, todo)
        invariant forall c :: c in todo ==> Registered(sub0, run, c) && c in ch0 && !ch0[c].closed
        decreases |todo|
      {
        var c :| c in todo;
        PublishingAt(sub0, ch0, subscribers, channels, run, e, todo, c);
        if |channels[c].buffer| < CHANNEL_SIZE {
          channels := channels[c := channels[c].(buffer := channels[c].buffer + [e])];
        } else {
          assert !channels[c].closed;
          channels := channels[c := channels[c].(closed := true)];
          subscribers := Without(subscribers, run, c);
        }
        todo := todo - {c};
      }
      PublishedKeeps(sub0, ch0, subscribers, channels, cuts, logs, run, e);
      logs := logs[run := LogOf(logs, run) + [e]];
    }

    /** A filtered delta of the live message. The content passed by the caller is
        checked against the current one by length only. */
    method PublishDelta(run: RunId, id: nat, content: Text, delta: Text) returns (ok: bool)
      requires Valid()
      modifies this`live, this`subscribers, this`channels, this`logs, this`begun
      ensures Valid()
      ensures ok <==> run in old(live) && old(live)[run].id == id && |content| <= 1024 * 1024
                      && |content| == |old(live)[run].content| + |delta|
      ensures ok ==> logs == old(logs)[run := LogOf(old(logs), run) + [Delta(delta)]]
                     && live == old(live)[run := Message(id, content)]
                     && run in old(begun) && begun == old(begun)[run := old(begun)[run].(honest := old(begun)[run].honest && content == old(live)[run].content + delta)]
      ensures ok ==> Publishing(old(subscribers), old(channels), subscribers, channels, run, Delta(delta), {})
      ensures !ok ==> logs == old(logs) && live == old(live) && channels == old(channels) && subscribers == old(subscribers) && begun == old(begun)
    {
      hide ChannelsOk, LogOf, LiveOk, Publishing, CutsOk;
      if run !in live || live[run].id != id || |content| > MAX_ASSISTANT_BYTES || |content| != |live[run].content| + |delta| {
        return false;
      }
      LiveKnown(live, begun, logs, run);
      ghost var honest := begun[run].honest && content == live[run].content + delta;
      LiveDelta(live, begun, logs, run, content, delta, honest);
      LogsGrow(logs, run, Delta(delta));
      live := live[run := live[run].(content := content)];
      begun := begun[run := begun[run].(honest := honest)];
      PublishLocked(run, Delta(delta));
      PublishingShut(old(subscribers), old(channels), subscribers, channels, run, Delta(delta));
      CutsFrame(old(channels), cuts, old(live), old(begun), old(logs), channels, cuts, live, begun, logs);
      return true;
    }

    /** Any other event. A completed message and a finished run are no longer live. */
    method Publish(run: RunId, e: Event)
      requires Valid() && !e.Delta?
      modifies this`live, this`subscribers, this`channels, this`logs
      ensures Valid()
      ensures logs == old(logs)[run := LogOf(old(logs), run) + [e]]
      ensures Publishing(old(subscribers), old(channels), subscribers, channels, run, e, {})
      ensures live == if run in old(live) && (e.Ended? || (e.Completed? && e.messageID == old(live)[run].id)) then old(live) - {run} else old(live)
    {
      hide ChannelsOk, LogOf, LiveOk, Publishing, CutsOk;
      LogsGrow(logs, run, e);
      if e.Completed? && run in live && live[run].id == e.messageID {
        LiveRemoved(live, begun, logs, run);
        live := live - {run};
      }
      if e.Ended? {
        LiveRemoved(live, begun, logs, run);
        live := live - {run};
      }
      LiveAfter(live, begun, logs, run, e);
      PublishLocked(run, e);
      PublishingShut(old(subscribers), old(channels), subscribers, channels, run, e);
      CutsFrame(old(channels), cuts, old(live), begun, old(logs), channels, cuts, live, begun, logs);
    }

    method ClearLive(run: RunId)
      requires Valid()
      modifies this`live
      ensures Valid() && live == old(live) - {run}
    {
      hide ChannelsOk, LogOf, LiveOk, CutsOk;
      LiveRemoved(live, begun, logs, run);
      live := live - {run};
      CutsFrame(channels, cuts, old(live), begun, logs, channels, cuts, live, begun, logs);
    }

    /** Closes every channel of one run. */
    method RemoveAll(run: RunId)
      requires ChannelsOk(subscribers, channels, cuts, logs)
      modifies this`subscribers, this`channels
      ensures ChannelsOk(subscribers, channels, cuts, logs) && Shutting(old(channels), channels)
      ensures forall r, c :: Registered(subscribers, r, c) ==> Registered(old(subscribers), r, c) && r != run
    {
      hide ChannelsOk, Without, Registered, Shutting;
      ghost var sub0, ch0 := subscribers, channels;
      var todo := if run in subscribers then subscribers[run] else {};
      RemovingStarts(subscribers, run, todo);
      ShuttingStarts(channels);
      while todo != {}
        invariant ChannelsOk(subscribers, channels, cuts, logs) && Shutting(ch0, channels)
        invariant forall r, c :: Registered(subscribers, r, c) ==> Registered(sub0, r, c) && (r != run || c in todo)
        decreases |todo|
      {
        var c :| c in todo;
        RemovingStep(sub0, subscribers, run, todo, c);
        ShuttingStep(ch0, channels, c);
        RemoveLocked(run, c);
        todo := todo - {c};
      }
    }

    /** Shuts the hub down: every channel is closed, once, and no snapshot is given
        until restart. */
    method InvalidateSnapshots()
      requires Valid()
      modifies this`subscribers, this`channels, this`unavailable
      ensures Valid() && unavailable && forall r, c :: !Registered(subscribers, r, c)
      ensures channels.Keys == old(channels).Keys && forall c :: c in channels ==> channels[c] == Shut(old(channels)[c])
    {
      hide LiveOk, ChannelsOk, Registered, Shutting, CutsOk;
      unavailable := true;
      ghost var sub0, ch0 := subscribers, channels;
      var runs := subscribers.Keys;
      RunsListed(subscribers);
      ShuttingStarts(channels);
      while runs != {}
        invariant ChannelsOk(subscribers, channels, cuts, logs) && Shutting(ch0, channels)
        invariant unavailable && forall r, c :: Registered(subscribers, r, c) ==> r in runs
        decreases |runs|
      {
        var run :| run in runs;
        ghost var ch1 := channels;
        RemoveAll(run);
        ShuttingJoin(ch0, ch1, channels);
        runs := runs - {run};
      }
      AllShut(subscribers, ch0, channels, cuts, logs);
      CutsFrame(ch0, cuts, live, begun, logs, channels, cuts, live, begun, logs);
    }

    /** A reader takes the next event; after the buffer it sees the close. */
    method Receive(c: ChannelId) returns (e: Option<Event>)
      requires Valid() && c in channels
      modifies this`channels, this`cuts
      ensures Valid() && c in cuts && c in old(cuts) && subscribers == old(subscribers)
      ensures e.None? <==> old(channels)[c].buffer == []
      ensures e.None? ==> cuts == old(cuts) && channels == old(channels)
      ensures e.Some? ==> cuts == old(cuts)[c := old(cuts)[c].(received := old(cuts)[c].received + [e.value])]
    {
      Open(subscribers, channels, cuts, logs, c);
      hide LiveOk, LogOf, Registered, ChannelsOk, ChannelOk, CutsOk;
      var ch := channels[c];
      if ch.buffer == [] {
        return None;
      }
      ReceivedKeeps(subscribers, channels, cuts, logs, c);
      cuts := cuts[c := cuts[c].(received := cuts[c].received + [ch.buffer[0]])];
      channels := channels[c := ch.(buffer := ch.buffer[1..])];
      CutsFrame(old(channels), old(cuts), live, begun, logs, channels, cuts, live, begun, logs);
      return Some(ch.buffer[0]);
    }

    // ---- What a subscriber knows ----

    /** What a reader has taken is a gap-free prefix of the events of its run after
        its cut; while it is registered, received and buffered together are all of them. */
    lemma GapFree(c: ChannelId)
      requires Valid() && c in channels
      ensures c in cuts && var log := LogOf(logs, channels[c].run);
              && cuts[c].at <= |log|
              && cuts[c].received + channels[c].buffer <= log[cuts[c].at..]
              && (Registered(subscribers, channels[c].run, c) ==> cuts[c].received + channels[c].buffer == log[cuts[c].at..])
              && (channels[c].closed <==> !Registered(subscribers, channels[c].run, c))
    {
      var log := LogOf(logs, channels[c].run);
      Open(subscribers, channels, cuts, logs, c);
      hide ChannelsOk, LiveOk, LogOf;
      var n := cuts[c].at + |cuts[c].received| + |channels[c].buffer|;
      assert log[cuts[c].at..n] <= log[cuts[c].at..];
    }

    /** The cut: every registered subscriber, whenever it subscribed, has received or can
        still take the content of the live message: the snapshot and the deltas after
        it, or of a message that began later, the deltas since then. */
    lemma SnapshotCut(run: RunId, c: ChannelId)
      requires Valid() && run in live && Registered(subscribers, run, c) && (run in begun ==> begun[run].honest)
      ensures run in begun && c in channels && c in cuts
      ensures live[run].content == Seen(cuts[c], begun[run].start, cuts[c].received + channels[c].buffer)
    {
      AtRegistered(subscribers, channels, cuts, logs, run, c);
      LiveKnown(live, begun, logs, run);
      hide ChannelsOk, LiveOk, LogOf, Registered, MessageOk, CutExact, Seen, ChannelOk;
      Joined(live[run], begun[run], channels[c], cuts[c], LogOf(logs, run));
    }
  }

  lemma PublishingShut(sub0: Subscribers, ch0: map<ChannelId, Channel>, sub: Subscribers, ch: map<ChannelId, Channel>,
                       run: RunId, e: Event)
    requires Publishing(sub0, ch0, sub, ch, run, e, {})
    ensures ch.Keys == ch0.Keys && forall r, c :: Registered(sub, r, c) ==> Registered(sub0, r, c)
    ensures forall c :: c in ch ==> ch[c].run == ch0[c].run
  {
    hide Registered;
  }

  // ---- The stream of a worker, and whole runs ----

  /** The builders of the workers: a live message is honest and holds what the builder
      of its run holds. */
  ghost predicate DraftsOk(live: map<RunId, Message>, begun: map<RunId, Begun>, drafts: map<RunId, Message>) {
    forall r :: r in live ==> r in drafts && drafts[r] == live[r] && r in begun && begun[r].honest
  }

  lemma DraftOf(live: map<RunId, Message>, begun: map<RunId, Begun>, drafts: map<RunId, Message>, run: RunId)
    requires DraftsOk(live, begun, drafts) && run in live
    ensures run in drafts && drafts[run] == live[run] && run in begun && begun[run].honest
  {
  }

  /** What a worker does with a delta of its provider: it extends its builder, within
      the limit, and publishes the builder and the delta. */
  method EmitDelta(hub: EventHub, run: RunId, drafts: map<RunId, Message>, delta: Text)
    returns (after: map<RunId, Message>)
    requires hub.Valid() && run in drafts && DraftsOk(hub.live, hub.begun, drafts)
    modifies hub
    ensures hub.Valid() && DraftsOk(hub.live, hub.begun, after)
    ensures var text := drafts[run].content + delta;
            after == if |text| <= MAX_ASSISTANT_BYTES then drafts[run := drafts[run].(content := text)] else drafts
    ensures run in old(hub.live) && |drafts[run].content + delta| <= MAX_ASSISTANT_BYTES ==>
              hub.live == old(hub.live)[run := after[run]]
              && hub.logs == old(hub.logs)[run := LogOf(old(hub.logs), run) + [Delta(delta)]]
  {
    after := drafts;
    if |drafts[run].content| + |delta| > MAX_ASSISTANT_BYTES {
      return;
    }
    after := after[run := drafts[run].(content := drafts[run].content + delta)];
    if run in hub.live { DraftOf(hub.live, hub.begun, drafts, run); }
    var ok := hub.PublishDelta(run, drafts[run].id, after[run].content, delta);
  }

  datatype Act =
    | Begin(run: RunId, id: nat)
    | Emit(run: RunId, delta: Text)
    | Announce(run: RunId, e: Event)
    | Clear(run: RunId)
    | Subscribe(run: RunId, callbackOk: bool)
    | Stop(run: RunId, c: ChannelId)
    | Take(c: ChannelId)
    | Invalidate

  /** Any interleaving of workers, subscribers and readers: every live message is honest,
      and every registered subscriber sees exactly its content. */
  method Run(acts: seq<Act>) returns (hub: EventHub)
    ensures hub.Valid()
    ensures forall run, c :: run in hub.live && Registered(hub.subscribers, run, c) ==>
              && run in hub.begun && c in hub.channels && c in hub.cuts
              && hub.live[run].content == Seen(hub.cuts[c], hub.begun[run].start, hub.cuts[c].received + hub.channels[c].buffer)
  {
    hub := new EventHub();
    var drafts: map<RunId, Message> := map[];
    for i := 0 to |acts|
      invariant hub.Valid() && fresh(hub) && DraftsOk(hub.live, hub.begun, drafts)
    {
      drafts := Perform(hub, drafts, acts[i]);
    }
    forall run, c | run in hub.live && Registered(hub.subscribers, run, c)
      ensures run in hub.begun && c in hub.channels && c in hub.cuts
      ensures hub.live[run].content == Seen(hub.cuts[c], hub.begun[run].start, hub.cuts[c].received + hub.channels[c].buffer)
    {
      DraftOf(hub.live, hub.begun, drafts, run);
      hub.SnapshotCut(run, c);
    }
    hide *;
  }

  method Perform(hub: EventHub, drafts: map<RunId, Message>, act: Act) returns (after: map<RunId, Message>)
    requires hub.Valid() && DraftsOk(hub.live, hub.begun, drafts)
    modifies hub
    ensures hub.Valid() && DraftsOk(hub.live, hub.begun, after)
  {
    hide ChannelsOk, LiveOk, CutsOk, Publishing, LogOf, Seen;
    after := drafts;
    match act
    case Begin(run, id) =>
      var ok := hub.BeginMessage(run, id);
      if ok { after := drafts[run := Message(id, [])]; }
    case Emit(run, delta) => if run in drafts { after := EmitDelta(hub, run, drafts, delta); }
    case Announce(run, e) => if !e.Delta? { hub.Publish(run, e); }
    case Clear(run) => hub.ClearLive(run);
    case Subscribe(run, callbackOk) => var _ := hub.SnapshotSubscribe(run, callbackOk);
    case Stop(run, c) => hub.Unsubscribe(run, c);
    case Take(c) => if c in hub.channels { var _ := hub.Receive(c); }
    case Invalidate => hub.InvalidateSnapshots();
  }
}
