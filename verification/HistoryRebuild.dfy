/** Rebuilding the provider conversation from stored messages
    (NativeRuntime.completionMessages in internal/ai/runtime.go). */
module HistoryRebuild {
  import opened Prelude

  const MAX_PRIVATE_BYTES := 0x40_0000

  datatype Role = User | Assistant | Tool

  type Attachment = string

  /** A stored message; `call` is empty unless it holds the result of a tool call. */
  datatype Message = Message(id: string, role: Role, content: Text, attachments: seq<Attachment>, run: string, call: string)

  /** A stored tool call with its private state. */
  datatype Call = Call(id: string, name: string, arguments: Text, provider: Text)

  datatype Chat = Chat(id: string, role: Role, content: Text, attachments: seq<Attachment>, calls: seq<Call>, call: string, current: bool)

  /** Tool calls by run and id. */
  type Store = map<(string, string), Call>

  function CallOf(store: Store, m: Message): Call {
    if (m.run, m.call) in store then store[(m.run, m.call)] else Call(m.call, "", [], [])
  }

  function PrivateSize(store: Store, m: Message): nat {
    if m.call == "" then 0 else |CallOf(store, m).arguments| + |CallOf(store, m).provider|
  }

  function PrivateBytes(store: Store, history: seq<Message>): nat {
    if history == [] then 0
    else PrivateBytes(store, history[..|history| - 1]) + PrivateSize(store, history[|history| - 1])
  }

  lemma PrivateBytesSnoc(store: Store, history: seq<Message>, n: nat)
    requires n < |history|
    ensures PrivateBytes(store, history[..n + 1]) == PrivateBytes(store, history[..n]) + PrivateSize(store, history[n])
  {
    assert history[..n + 1][..n] == history[..n];
  }

  lemma {:induction false} PrivateBytesGrow(store: Store, history: seq<Message>, n: nat)
    requires n <= |history|
    ensures PrivateBytes(store, history[..n]) <= PrivateBytes(store, history)
    decreases |history| - n
  {
    if n < |history| {
      PrivateBytesSnoc(store, history, n);
      PrivateBytesGrow(store, history, n + 1);
    } else {
      assert history[..n] == history;
    }
  }

  predicate Found(store: Store, m: Message) { m.call != "" ==> (m.run, m.call) in store }

  ghost predicate AllFound(store: Store, h: seq<Message>, from: nat, to: nat) {
    forall k :: from <= k < to && k < |h| ==> Found(store, h[k])
  }

  lemma FoundJoin(store: Store, h: seq<Message>, a: nat, b: nat, c: nat)
    requires AllFound(store, h, a, b) && AllFound(store, h, b, c)
    ensures AllFound(store, h, a, c)
  {
  }

  /** When rebuilding succeeds. */
  ghost predicate Available(store: Store, history: seq<Message>) {
    && AllFound(store, history, 0, |history|)
    && PrivateBytes(store, history) <= 4 * 1024 * 1024
  }

  lemma IsAvailable(store: Store, history: seq<Message>)
    requires AllFound(store, history, 0, |history|) && PrivateBytes(store, history[..|history|]) <= MAX_PRIVATE_BYTES
    ensures Available(store, history)
  {
    assert history[..|history|] == history;
  }

  lemma NotAvailable(store: Store, history: seq<Message>, k: nat)
    requires k < |history|
    ensures !Found(store, history[k]) || PrivateBytes(store, history[..k + 1]) > MAX_PRIVATE_BYTES
            ==> !Available(store, history)
  {
    PrivateBytesGrow(store, history, k + 1);
  }

  // ---- Turns ----

  /** One stretch of history: a plain message, or the results of consecutive calls
      of one run with the assistant message that made them, when it is adjacent. */
  datatype Turn = Plain(message: Message) | Batch(lead: Option<Message>, results: seq<Message>)

  predicate Results(results: seq<Message>) {
    && results != []
    && forall k :: 0 <= k < |results| ==> results[k].call != "" && results[k].run == results[0].run
  }

  predicate LeadOf(lead: Message, first: Message) {
    lead.role.Assistant? && lead.call == "" && first.call != "" && lead.run == first.run
  }

  predicate TurnOk(t: Turn) {
    match t
    case Plain(m) => m.call == ""
    case Batch(lead, results) => Results(results) && (lead.Some? ==> LeadOf(lead.value, results[0]))
  }

  function Source(t: Turn): seq<Message> {
    match t
    case Plain(m) => [m]
    case Batch(lead, results) => (if lead.Some? then [lead.value] else []) + results
  }

  function Flatten(turns: seq<Turn>): seq<Message> {
    if turns == [] then [] else Source(turns[0]) + Flatten(turns[1..])
  }

  function GroupEnd(h: seq<Message>, i: nat): (r: nat)
    requires i < |h| && h[i].call != ""
    ensures i < r <= |h|
    decreases |h| - i
  {
    if i + 1 < |h| && h[i + 1].call != "" && h[i + 1].run == h[i].run then GroupEnd(h, i + 1) else i + 1
  }

  /** A group holds results of one run and is as long as possible. */
  lemma {:induction false} GroupIs(h: seq<Message>, i: nat)
    requires i < |h| && h[i].call != ""
    ensures Results(h[i..GroupEnd(h, i)])
    ensures forall k :: i <= k < GroupEnd(h, i) ==> h[k].call != "" && h[k].run == h[i].run
    ensures GroupEnd(h, i) < |h| ==> h[GroupEnd(h, i)].call == "" || h[GroupEnd(h, i)].run != h[i].run
    decreases |h| - i
  {
    if i + 1 < |h| && h[i + 1].call != "" && h[i + 1].run == h[i].run {
      GroupIs(h, i + 1);
    }
  }

  predicate Leads(h: seq<Message>, i: nat) { i + 1 < |h| && LeadOf(h[i], h[i + 1]) }

  /** Where the turn at i ends. */
  function TurnEnd(h: seq<Message>, i: nat): (j: nat)
    requires i < |h|
    ensures i < j <= |h|
  {
    if h[i].call != "" then GroupEnd(h, i) else if Leads(h, i) then GroupEnd(h, i + 1) else i + 1
  }

  /** The turn at i. */
  function TurnOf(h: seq<Message>, i: nat): (t: Turn)
    requires i < |h|
    ensures TurnOk(t) && Source(t) == h[i..TurnEnd(h, i)]
  {
    if h[i].call != "" then
      GroupIs(h, i);
      EmptyLeft(h[i..GroupEnd(h, i)]);
      Batch(None, h[i..GroupEnd(h, i)])
    else if Leads(h, i) then
      GroupIs(h, i + 1);
      assert h[i..GroupEnd(h, i + 1)] == [h[i]] + h[i + 1..GroupEnd(h, i + 1)];
      Batch(Some(h[i]), h[i + 1..GroupEnd(h, i + 1)])
    else Plain(h[i])
  }

  /** The turns of a history from position i on; groups are as long as possible. */
  function Turns(h: seq<Message>, i: nat): seq<Turn>
    requires i <= |h|
    decreases |h| - i
  {
    if i == |h| then [] else [TurnOf(h, i)] + Turns(h, TurnEnd(h, i))
  }

  lemma TurnsCons(h: seq<Message>, i: nat)
    requires i < |h|
    ensures Turns(h, i) == [TurnOf(h, i)] + Turns(h, TurnEnd(h, i))
  {
  }

  lemma Cut(h: seq<Message>, i: nat, j: nat)
    requires i <= j <= |h|
    ensures h[i..] == h[i..j] + h[j..]
  {
  }

  lemma FlattenCons(t: Turn, turns: seq<Turn>)
    ensures Flatten([t] + turns) == Source(t) + Flatten(turns)
  {
    hide Source;
    ConsTail(t, turns);
  }

  lemma {:induction false} TurnsValid(h: seq<Message>, i: nat)
    requires i <= |h|
    ensures forall k :: 0 <= k < |Turns(h, i)| ==> TurnOk(Turns(h, i)[k])
    decreases |h| - i
  {
    if i < |h| {
      TurnsValid(h, TurnEnd(h, i));
      hide TurnOf, TurnOk, TurnEnd, Source;
    }
  }

  /** No message is lost, repeated or moved. */
  lemma {:induction false} TurnsKeepOrder(h: seq<Message>, i: nat)
    requires i <= |h|
    ensures Flatten(Turns(h, i)) == h[i..]
    decreases |h| - i
  {
    if i < |h| {
      var j := TurnEnd(h, i);
      TurnsKeepOrder(h, j);
      FlattenCons(TurnOf(h, i), Turns(h, j));
      TurnsCons(h, i);
      hide *;
      Cut(h, i, j);
    }
  }

  // ---- Rendering ----

  type Redact = Text -> Text

  function PlainChat(m: Message, currentRun: string): Chat {
    Chat(m.id, m.role, m.content, m.attachments, [], "", m.run == currentRun)
  }

  function ResultChat(store: Store, m: Message, currentRun: string, redact: Redact): Chat {
    Chat(m.id, Tool, redact(m.content), [], [], CallOf(store, m).id, m.run == currentRun)
  }

  function CallId(leadId: string, firstId: string): string {
    if leadId != "" then leadId else if firstId != "" then firstId + "_call" else ""
  }

  function Calls(store: Store, results: seq<Message>): seq<Call> {
    seq(|results|, k requires 0 <= k < |results| => CallOf(store, results[k]))
  }

  function Replies(store: Store, results: seq<Message>, currentRun: string, redact: Redact): seq<Chat> {
    seq(|results|, k requires 0 <= k < |results| => ResultChat(store, results[k], currentRun, redact))
  }

  function CallChat(store: Store, lead: Option<Message>, results: seq<Message>, currentRun: string): Chat
    requires results != []
  {
    var from := if lead.Some? then lead.value else Message("", Assistant, [], [], "", "");
    Chat(CallId(from.id, results[0].id), Assistant, from.content, from.attachments, Calls(store, results), "", results[0].run == currentRun)
  }

  function Render(store: Store, t: Turn, currentRun: string, redact: Redact): seq<Chat>
    requires TurnOk(t)
  {
    match t
    case Plain(m) => [PlainChat(m, currentRun)]
    case Batch(lead, results) => [CallChat(store, lead, results, currentRun)] + Replies(store, results, currentRun, redact)
  }

  function RenderAll(store: Store, turns: seq<Turn>, currentRun: string, redact: Redact): seq<Chat>
    requires forall k :: 0 <= k < |turns| ==> TurnOk(turns[k])
  {
    if turns == [] then [] else Render(store, turns[0], currentRun, redact) + RenderAll(store, turns[1..], currentRun, redact)
  }

  /** The chats of the history from position i on. */
  function Rest(store: Store, h: seq<Message>, i: nat, currentRun: string, redact: Redact): seq<Chat>
    requires i <= |h|
  {
    TurnsValid(h, i);
    RenderAll(store, Turns(h, i), currentRun, redact)
  }

  lemma RestPlain(store: Store, h: seq<Message>, i: nat, currentRun: string, redact: Redact)
    requires i < |h| && h[i].call == "" && !Leads(h, i)
    ensures Rest(store, h, i, currentRun, redact) == [PlainChat(h[i], currentRun)] + Rest(store, h, i + 1, currentRun, redact)
  {
    TurnsValid(h, i);
    TurnsValid(h, i + 1);
    assert Turns(h, i)[1..] == Turns(h, i + 1);
    hide Turns, TurnOk, Flatten, PlainChat;
  }

  lemma RestBatch(store: Store, h: seq<Message>, i: nat, led: bool, currentRun: string, redact: Redact)
    requires i < |h| && h[i].call != "" && (led ==> i > 0 && Leads(h, i - 1))
    ensures var j, lead := GroupEnd(h, i), if led then Some(h[i - 1]) else None;
            Rest(store, h, if led then i - 1 else i, currentRun, redact)
            == ([CallChat(store, lead, h[i..j], currentRun)] + Replies(store, h[i..j], currentRun, redact)) + Rest(store, h, j, currentRun, redact)
  {
    var j, lead, k := GroupEnd(h, i), if led then Some(h[i - 1]) else None, if led then i - 1 else i;
    TurnsValid(h, k);
    TurnsValid(h, j);
    assert Turns(h, k) == [Batch(lead, h[i..j])] + Turns(h, j);
    assert Turns(h, k)[1..] == Turns(h, j);
    hide Turns, TurnOk, Flatten, CallChat, Replies, GroupEnd;
  }

  // ---- The loop ----

  /** One run of consecutive results: their calls and replies, or none when a call
      cannot be read or the private budget is exceeded. */
  method CollectGroup(history: seq<Message>, index: nat, store: Store, currentRun: string, redact: Redact, used: nat)
    returns (ok: bool, calls: seq<Call>, results: seq<Chat>, bytes: nat)
    requires index < |history| && history[index].call != "" && used <= MAX_PRIVATE_BYTES
    requires used == PrivateBytes(store, history[..index])
    ensures !ok ==> !Available(store, history)
    ensures ok ==>
              var group := history[index..GroupEnd(history, index)];
              && index + |calls| == GroupEnd(history, index)
              && calls == Calls(store, group) && results == Replies(store, group, currentRun, redact)
              && bytes == PrivateBytes(store, history[..GroupEnd(history, index)]) <= MAX_PRIVATE_BYTES
              && AllFound(store, history, index, GroupEnd(history, index))
  {
    ok, calls, results, bytes := false, [], [], used;
    var next := index;
    hide Available, PrivateBytes, Calls, Replies, ResultChat, AllFound;
    GroupEmpty(store, history, index, currentRun, redact);
    while next < |history|
      invariant index <= next <= |history|
      invariant forall k :: index <= k < next ==> history[k].call != "" && history[k].run == history[index].run && Found(store, history[k])
      invariant calls == Calls(store, history[index..next])
                && results == Replies(store, history[index..next], currentRun, redact)
      invariant bytes == PrivateBytes(store, history[..next]) <= MAX_PRIVATE_BYTES
    {
      var m := history[next];
      if m.call == "" || m.run != history[index].run {
        break;
      }
      NotAvailable(store, history, next);
      if (m.run, m.call) !in store {
        return;
      }
      var call := store[(m.run, m.call)];
      PrivateBytesSnoc(store, history, next);
      if bytes > MAX_PRIVATE_BYTES - (|call.arguments| + |call.provider|) {
        return;
      }
      GroupSnoc(store, history, index, next, currentRun, redact);
      bytes := bytes + (|call.arguments| + |call.provider|);
      calls := calls + [call];
      ResultChatIs(store, m, currentRun, redact);
      results := results + [Chat(m.id, Tool, redact(m.content), [], [], call.id, m.run == currentRun)];
      next := next + 1;
    }
    GroupEndIs(history, index, next);
    GroupShape(store, history, index);
    FoundGroup(store, history, index, next);
    ok := true;
  }

  lemma ResultChatIs(store: Store, m: Message, currentRun: string, redact: Redact)
    requires (m.run, m.call) in store
    ensures ResultChat(store, m, currentRun, redact)
            == Chat(m.id, Tool, redact(m.content), [], [], store[(m.run, m.call)].id, m.run == currentRun)
  {
  }

  lemma GroupEmpty(store: Store, h: seq<Message>, i: nat, currentRun: string, redact: Redact)
    requires i <= |h|
    ensures Calls(store, h[i..i]) == [] && Replies(store, h[i..i], currentRun, redact) == []
  {
  }

  lemma FoundGroup(store: Store, h: seq<Message>, i: nat, j: nat)
    requires forall k :: i <= k < j && k < |h| ==> Found(store, h[k])
    ensures AllFound(store, h, i, j)
  {
  }

  lemma GroupSnoc(store: Store, h: seq<Message>, i: nat, n: nat, currentRun: string, redact: Redact)
    requires i <= n < |h|
    ensures Calls(store, h[i..n + 1]) == Calls(store, h[i..n]) + [CallOf(store, h[n])]
    ensures Replies(store, h[i..n + 1], currentRun, redact) == Replies(store, h[i..n], currentRun, redact) + [ResultChat(store, h[n], currentRun, redact)]
  {
    hide CallOf, ResultChat;
    var a, b := h[i..n], h[i..n + 1];
    assert |b| == |a| + 1 && b[|a|] == h[n] && forall k :: 0 <= k < |a| ==> b[k] == a[k];
  }

  lemma {:induction false} GroupEndIs(h: seq<Message>, i: nat, n: nat)
    requires i < n <= |h| && forall k :: i <= k < n ==> h[k].call != "" && h[k].run == h[i].run
    requires n < |h| ==> h[n].call == "" || h[n].run != h[i].run
    ensures GroupEnd(h, i) == n
    decreases n - i
  {
    if i + 1 < n { GroupEndIs(h, i + 1, n); }
  }

  /** Appends one group behind its assistant turn, which absorbs the assistant
      message just before it. */
  method AppendBatch(history: seq<Message>, index: nat, store: Store, currentRun: string, redact: Redact,
                     ghost sent: seq<Chat>,
                     messages: seq<Chat>, ghost all: seq<Chat>, calls: seq<Call>,
                     results: seq<Chat>) returns (next: seq<Chat>)
    requires index < |history| && history[index].call != ""
             && Progress(store, history, index, currentRun, redact, sent, messages, all)
    requires var group := history[index..GroupEnd(history, index)];
             calls == Calls(store, group) && results == Replies(store, group, currentRun, redact)
    ensures Progress(store, history, GroupEnd(history, index), currentRun, redact, next, next, all)
    ensures var led := index > 0 && LeadOf(history[index - 1], history[index]);
            && (led ==> messages != [])
            && next == (if led then messages[..|messages| - 1] else messages)
                       + [CallChat(store, if led then Some(history[index - 1]) else None, history[index..GroupEnd(history, index)], currentRun)] + results
  {
    var message := history[index];
    GroupShape(store, history, index);
    BatchProgress(store, history, index, currentRun, redact, sent, messages, all);
    hide Progress, Calls, Replies, GroupEnd;
    next := messages;
    var lead: Option<Message> := None;
    if index > 0 {
      var assistant := history[index - 1];
      if assistant.role.Assistant? && assistant.call == "" && assistant.run == message.run && |next| > 0 && next[|next| - 1].id == assistant.id {
        lead := Some(assistant);
        next := next[..|next| - 1];
      }
    }
    var from := if lead.Some? then lead.value else Message("", Assistant, [], [], "", "");
    var id := if from.id != "" then from.id else if message.id != "" then message.id + "_call" else "";
    var callMessage := Chat(id, Assistant, from.content, from.attachments, calls, "", message.run == currentRun);
    CallChatIs(store, lead, history[index..GroupEnd(history, index)], currentRun);
    hide CallChat;
    next := next + [callMessage];
    next := next + results;
  }

  /** The messages sent to a provider: the history's turns in order, each group of
      results right after one assistant turn with exactly those calls. */
  method CompletionMessages(history: seq<Message>, store: Store, currentRun: string, redact: Redact)
    returns (r: Result<seq<Chat>>)
    ensures r.Ok? <==> Available(store, history)
    ensures r.Ok? ==> r.value == Rest(store, history, 0, currentRun, redact)
  {
    var messages, used := [], 0;
    var index := 0;
    Begins(store, history, currentRun, redact);
    hide *;
    while index < |history|
      invariant index <= |history| && Upto(store, history, index, used, currentRun, redact, messages)
      decreases |history| - index
    {
      if history[index].call != "" {
        var ok;
        ok, messages, used, index := AddGroup(history, index, store, currentRun, redact, messages, used);
        if !ok {
          return Err;
        }
      } else {
        PlainStep(store, history, index, used, currentRun, redact, messages);
        var m := history[index];
        PlainChatIs(m, currentRun);
        messages := messages + [Chat(m.id, m.role, m.content, m.attachments, [], "", m.run == currentRun)];
        index := index + 1;
      }
    }
    Finished(store, history, used, currentRun, redact, messages);
    return Ok(messages);
  }

  /** Collects the group at `index` and appends it. */
  method AddGroup(history: seq<Message>, index: nat, store: Store, currentRun: string, redact: Redact,
                  messages: seq<Chat>, used: nat)
    returns (ok: bool, next: seq<Chat>, bytes: nat, end: nat)
    requires index < |history| && history[index].call != ""
             && Upto(store, history, index, used, currentRun, redact, messages)
    ensures !ok ==> !Available(store, history)
    ensures ok ==> index < end <= |history| && Upto(store, history, end, bytes, currentRun, redact, next)
  {
    hide *;
    ghost var all := Rest(store, history, 0, currentRun, redact);
    ghost var sent := UptoDef(store, history, index, used, currentRun, redact, messages);
    var calls, results;
    next, end := messages, index;
    ok, calls, results, bytes := CollectGroup(history, index, store, currentRun, redact, used);
    if !ok {
      return;
    }
    next := AppendBatch(history, index, store, currentRun, redact, sent, messages, all, calls, results);
    end := index + |calls|;
    FoundJoin(store, history, 0, index, end);
    UptoIs(store, history, end, bytes, currentRun, redact, next, next);
  }

  /** The loop invariant: what is found, counted and rendered before position i. */
  ghost predicate Upto(store: Store, h: seq<Message>, i: nat, used: nat, currentRun: string, redact: Redact,
                       messages: seq<Chat>) {
    && i <= |h|
    && used == PrivateBytes(store, h[..i]) <= MAX_PRIVATE_BYTES
    && AllFound(store, h, 0, i)
    && exists sent :: Progress(store, h, i, currentRun, redact, sent, messages, Rest(store, h, 0, currentRun, redact))
  }

  lemma UptoDef(store: Store, h: seq<Message>, i: nat, used: nat, currentRun: string, redact: Redact,
                messages: seq<Chat>) returns (sent: seq<Chat>)
    requires Upto(store, h, i, used, currentRun, redact, messages)
    ensures i <= |h| && used == PrivateBytes(store, h[..i]) <= MAX_PRIVATE_BYTES && AllFound(store, h, 0, i)
    ensures Progress(store, h, i, currentRun, redact, sent, messages, Rest(store, h, 0, currentRun, redact))
  {
    hide Progress, Rest, AllFound;
    sent :| Progress(store, h, i, currentRun, redact, sent, messages, Rest(store, h, 0, currentRun, redact));
  }

  lemma UptoIs(store: Store, h: seq<Message>, i: nat, used: nat, currentRun: string, redact: Redact, sent: seq<Chat>,
               messages: seq<Chat>)
    requires i <= |h| && used == PrivateBytes(store, h[..i]) <= MAX_PRIVATE_BYTES && AllFound(store, h, 0, i)
    requires Progress(store, h, i, currentRun, redact, sent, messages, Rest(store, h, 0, currentRun, redact))
    ensures Upto(store, h, i, used, currentRun, redact, messages)
  {
  }

  /** What the loop has so far: everything before `index`, where an assistant
      message that the next group will absorb is still there as a plain one. */
  ghost predicate Progress(store: Store, h: seq<Message>, i: nat, currentRun: string, redact: Redact, sent: seq<Chat>,
                           messages: seq<Chat>, all: seq<Chat>) {
    && i <= |h|
    && var led := i > 0 && Leads(h, i - 1);
    && messages == (if led then sent + [PlainChat(h[i - 1], currentRun)] else sent)
    && sent + Rest(store, h, if led then i - 1 else i, currentRun, redact) == all
  }

  lemma Begins(store: Store, h: seq<Message>, currentRun: string, redact: Redact)
    ensures Upto(store, h, 0, 0, currentRun, redact, [])
  {
    EmptyLeft(Rest(store, h, 0, currentRun, redact));
    assert Progress(store, h, 0, currentRun, redact, [], [], Rest(store, h, 0, currentRun, redact));
  }

  lemma BatchProgress(store: Store, h: seq<Message>, i: nat, currentRun: string, redact: Redact, sent: seq<Chat>,
                      messages: seq<Chat>, all: seq<Chat>)
    requires i < |h| && h[i].call != "" && Progress(store, h, i, currentRun, redact, sent, messages, all)
    ensures var led, j := i > 0 && Leads(h, i - 1), GroupEnd(h, i);
            && (i > 0 && LeadOf(h[i - 1], h[i]) <==> led)
            && (led ==> |messages| > 0 && messages[|messages| - 1].id == h[i - 1].id && messages[..|messages| - 1] == sent)
            && (!led ==> messages == sent)
            && var chat := [CallChat(store, if led then Some(h[i - 1]) else None, h[i..j], currentRun)];
               Progress(store, h, j, currentRun, redact, sent + chat + Replies(store, h[i..j], currentRun, redact),
                        sent + chat + Replies(store, h[i..j], currentRun, redact), all)
  {
    var led, j := i > 0 && Leads(h, i - 1), GroupEnd(h, i);
    RestBatch(store, h, i, led, currentRun, redact);
    var chat, replies := [CallChat(store, if led then Some(h[i - 1]) else None, h[i..j], currentRun)], Replies(store, h[i..j], currentRun, redact);
    GroupIs(h, i);
    assert !Leads(h, j - 1);
    assert messages == if led then sent + [PlainChat(h[i - 1], currentRun)] else sent;
    assert i > 0 && LeadOf(h[i - 1], h[i]) <==> led;
    PlainChatId(h, i, currentRun);
    hide *;
    var next := sent + chat + replies;
    if led { ConsLast(sent, PlainChat(h[i - 1], currentRun)); }
    ProgressDef(store, h, i, currentRun, redact, sent, messages, all);
    ProgressDef(store, h, j, currentRun, redact, next, next, all);
    Assoc(sent, chat, replies);
    Assoc(sent, chat + replies, Rest(store, h, j, currentRun, redact));
  }

  lemma PlainChatIs(m: Message, currentRun: string)
    ensures PlainChat(m, currentRun) == Chat(m.id, m.role, m.content, m.attachments, [], "", m.run == currentRun)
  {
  }

  lemma PlainChatId(h: seq<Message>, i: nat, currentRun: string)
    ensures 0 < i <= |h| ==> PlainChat(h[i - 1], currentRun).id == h[i - 1].id
  {
  }

  lemma ConsLast<T>(s: seq<T>, x: T)
    ensures |s + [x]| > 0 && (s + [x])[|s + [x]| - 1] == x && (s + [x])[..|s + [x]| - 1] == s
  {
  }

  lemma PlainProgress(store: Store, h: seq<Message>, i: nat, currentRun: string, redact: Redact, sent: seq<Chat>,
                      messages: seq<Chat>, all: seq<Chat>)
    requires i < |h| && h[i].call == "" && Progress(store, h, i, currentRun, redact, sent, messages, all)
    ensures Progress(store, h, i + 1, currentRun, redact, if Leads(h, i) then sent else sent + [PlainChat(h[i], currentRun)],
                     messages + [PlainChat(h[i], currentRun)], all)
  {
    assert !(i > 0 && Leads(h, i - 1));
    if !Leads(h, i) {
      RestPlain(store, h, i, currentRun, redact);
      hide *;
      ProgressDef(store, h, i, currentRun, redact, sent, messages, all);
      ProgressDef(store, h, i + 1, currentRun, redact, sent + [PlainChat(h[i], currentRun)], messages + [PlainChat(h[i], currentRun)], all);
      Assoc(sent, [PlainChat(h[i], currentRun)], Rest(store, h, i + 1, currentRun, redact));
    }
  }

  lemma PlainStep(store: Store, h: seq<Message>, i: nat, used: nat, currentRun: string, redact: Redact,
                  messages: seq<Chat>)
    requires i < |h| && h[i].call == "" && Upto(store, h, i, used, currentRun, redact, messages)
    ensures Upto(store, h, i + 1, used, currentRun, redact, messages + [PlainChat(h[i], currentRun)])
  {
    PlainUses(store, h, i);
    hide *;
    var sent := UptoDef(store, h, i, used, currentRun, redact, messages);
    PlainProgress(store, h, i, currentRun, redact, sent, messages, Rest(store, h, 0, currentRun, redact));
    FoundJoin(store, h, 0, i, i + 1);
    UptoIs(store, h, i + 1, used, currentRun, redact, if Leads(h, i) then sent else sent + [PlainChat(h[i], currentRun)],
           messages + [PlainChat(h[i], currentRun)]);
  }

  lemma PlainUses(store: Store, h: seq<Message>, i: nat)
    requires i < |h| && h[i].call == ""
    ensures PrivateBytes(store, h[..i + 1]) == PrivateBytes(store, h[..i]) && AllFound(store, h, i, i + 1)
  {
    PrivateBytesSnoc(store, h, i);
    hide PrivateBytes;
  }

  lemma ProgressDef(store: Store, h: seq<Message>, i: nat, currentRun: string, redact: Redact, sent: seq<Chat>,
                    messages: seq<Chat>, all: seq<Chat>)
    requires i <= |h|
    ensures Progress(store, h, i, currentRun, redact, sent, messages, all) <==>
              var led := i > 0 && Leads(h, i - 1);
              && messages == (if led then sent + [PlainChat(h[i - 1], currentRun)] else sent)
              && sent + Rest(store, h, if led then i - 1 else i, currentRun, redact) == all
  {
  }

  lemma Finished(store: Store, h: seq<Message>, used: nat, currentRun: string, redact: Redact, messages: seq<Chat>)
    requires Upto(store, h, |h|, used, currentRun, redact, messages)
    ensures messages == Rest(store, h, 0, currentRun, redact) && Available(store, h)
  {
    var all := Rest(store, h, 0, currentRun, redact);
    var sent :| Progress(store, h, |h|, currentRun, redact, sent, messages, all);
    assert Rest(store, h, |h|, currentRun, redact) == [];
    EmptyRight(sent);
    IsAvailable(store, h);
    hide Rest, Available;
  }

  lemma GroupShape(store: Store, h: seq<Message>, i: nat)
    requires i < |h| && h[i].call != ""
    ensures |h[i..GroupEnd(h, i)]| == GroupEnd(h, i) - i > 0 && h[i..GroupEnd(h, i)][0] == h[i]
    ensures |Calls(store, h[i..GroupEnd(h, i)])| == GroupEnd(h, i) - i
  {
  }

  lemma CallChatIs(store: Store, lead: Option<Message>, results: seq<Message>, currentRun: string)
    requires results != []
    ensures var from := if lead.Some? then lead.value else Message("", Assistant, [], [], "", "");
            CallChat(store, lead, results, currentRun)
            == Chat(CallId(from.id, results[0].id), Assistant, from.content, from.attachments, Calls(store, results), "", results[0].run == currentRun)
    ensures |Calls(store, results)| == |results|
  {
  }

  /** A message that is no part of a batch is sent as it is stored. */
  lemma PlainSent(store: Store, h: seq<Message>, i: nat, currentRun: string, redact: Redact)
    requires i < |h| && h[i].call == "" && !Leads(h, i)
    ensures Rest(store, h, i, currentRun, redact)
            == [Chat(h[i].id, h[i].role, h[i].content, h[i].attachments, [], "", h[i].run == currentRun)] + Rest(store, h, i + 1, currentRun, redact)
  {
    RestPlain(store, h, i, currentRun, redact);
    hide Rest;
  }

  /** A group of results is sent behind one turn with their calls, which holds the id,
      the text and the attachments of the assistant message just before the group. */
  lemma BatchSent(store: Store, h: seq<Message>, i: nat, led: bool, currentRun: string, redact: Redact)
    returns (turn: Chat, replies: seq<Chat>)
    requires i < |h| && h[i].call != "" && (led ==> i > 0 && Leads(h, i - 1))
    ensures Rest(store, h, if led then i - 1 else i, currentRun, redact) == ([turn] + replies) + Rest(store, h, GroupEnd(h, i), currentRun, redact)
    ensures turn == Chat(if led && h[i - 1].id != "" then h[i - 1].id else if h[i].id != "" then h[i].id + "_call" else "",
                         Assistant, if led then h[i - 1].content else [], if led then h[i - 1].attachments else [],
                         turn.calls, "", h[i].run == currentRun)
    ensures |turn.calls| == |replies| == GroupEnd(h, i) - i
    ensures forall l :: i <= l < GroupEnd(h, i) ==> turn.calls[l - i] == CallOf(store, h[l])
    ensures forall l :: i <= l < GroupEnd(h, i) ==>
              replies[l - i] == Chat(h[l].id, Tool, redact(h[l].content), [], [], CallOf(store, h[l]).id, h[l].run == currentRun)
  {
    var j, lead := GroupEnd(h, i), if led then Some(h[i - 1]) else None;
    RestBatch(store, h, i, led, currentRun, redact);
    GroupShape(store, h, i);
    turn, replies := CallChat(store, lead, h[i..j], currentRun), Replies(store, h[i..j], currentRun, redact);
    GroupAt(store, h, i, j, currentRun, redact);
    hide Rest, GroupEnd, CallOf, Leads, Calls, Replies;
  }

  lemma GroupAt(store: Store, h: seq<Message>, i: nat, j: nat, currentRun: string, redact: Redact)
    requires i <= j <= |h|
    ensures |Calls(store, h[i..j])| == |Replies(store, h[i..j], currentRun, redact)| == j - i
    ensures forall l :: i <= l < j ==> Calls(store, h[i..j])[l - i] == CallOf(store, h[l])
    ensures forall l :: i <= l < j ==>
              Replies(store, h[i..j], currentRun, redact)[l - i]
              == Chat(h[l].id, Tool, redact(h[l].content), [], [], CallOf(store, h[l]).id, h[l].run == currentRun)
  {
    hide CallOf;
    assert forall l :: i <= l < j ==> h[i..j][l - i] == h[l];
  }

  // ---- What a provider needs ----

  /** Read off the chats alone: every result stands in a group that follows one
      assistant turn whose calls are, in order, exactly those of the group. */
  predicate Paired(chats: seq<Chat>)
    decreases |chats|
  {
    chats == [] || (
      var n := |chats[0].calls|;
      && chats[0].call == ""
      && n < |chats|
      && (forall k :: 0 <= k < n ==> chats[1 + k].call == chats[0].calls[k].id && chats[1 + k].calls == [])
      && (n > 0 ==> chats[0].role.Assistant?)
      && Paired(chats[1 + n..]))
  }

  lemma {:induction false} TurnsPaired(store: Store, turns: seq<Turn>, currentRun: string, redact: Redact)
    requires forall k :: 0 <= k < |turns| ==> TurnOk(turns[k])
    ensures Paired(RenderAll(store, turns, currentRun, redact))
    decreases |turns|
  {
    if turns != [] {
      TurnsPaired(store, turns[1..], currentRun, redact);
      TurnPaired(store, turns[0], currentRun, redact, RenderAll(store, turns[1..], currentRun, redact));
      hide Paired, Render, TurnOk;
    }
  }

  lemma TurnPaired(store: Store, t: Turn, currentRun: string, redact: Redact, rest: seq<Chat>)
    requires TurnOk(t) && Paired(rest)
    ensures Paired(Render(store, t, currentRun, redact) + rest)
  {
    var first := Render(store, t, currentRun, redact);
    var n := |first[0].calls|;
    assert |first| == 1 + n;
    assert forall k :: 0 <= k < n ==> first[1 + k].call == first[0].calls[k].id && first[1 + k].calls == [];
    assert first[0].call == "" && (n > 0 ==> first[0].role.Assistant?);
    hide Render, TurnOk;
    assert (first + rest)[1 + n..] == rest;
    var all := first + rest;
    forall k | 0 <= k < n ensures all[1 + k].call == all[0].calls[k].id && all[1 + k].calls == [] {
      assert all[1 + k] == first[1 + k];
    }
  }

  /** Rebuilding keeps calls and results paired. */
  lemma RebuiltPaired(store: Store, history: seq<Message>, currentRun: string, redact: Redact)
    ensures Paired(Rest(store, history, 0, currentRun, redact))
  {
    TurnsValid(history, 0);
    TurnsPaired(store, Turns(history, 0), currentRun, redact);
  }
}
