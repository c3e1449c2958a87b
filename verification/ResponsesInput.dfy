/** The input of a Responses request, built from a rebuilt conversation
    (streamOpenAIResponsesAttempt in internal/ai/client.go). */
module ResponsesInput {
  import opened Prelude
  import opened HistoryRebuild

  /** Input items; an output without text is the placeholder for a result that was
      never recorded. */
  datatype Item =
    | FunctionCall(id: string, name: string, arguments: Text)
    | Output(id: string, text: Option<Text>)
    | Say(role: Role, content: Text, attachments: seq<Attachment>)
    | System(content: Text)
    | Other(raw: Text)

  /** One stored native output item. */
  datatype RawItem = Unreadable | Reasoning(raw: Text) | RawCall(id: string, name: string, arguments: Text) | RawOther(raw: Text)

  /** Native data of a call that matches the provider and model of the request. */
  datatype Native = Native(complete: bool, items: seq<RawItem>)

  /** Decodes the provider data of a call; none when it is absent, of another kind,
      empty, or belongs to another provider or model. */
  type Decode = Call -> Option<Native>

  function ReasoningItems(items: seq<RawItem>): seq<Item> {
    if items == [] then []
    else ReasoningItems(items[..|items| - 1]) + (if items[|items| - 1].Reasoning? then [Other(items[|items| - 1].raw)] else [])
  }

  function Parsed(items: seq<RawItem>): seq<Item> {
    if items == [] then []
    else Parsed(items[..|items| - 1]) + (match items[|items| - 1]
      case Unreadable => []
      case Reasoning(raw) => [Other(raw)]
      case RawCall(id, name, arguments) => [FunctionCall(id, name, arguments)]
      case RawOther(raw) => [Other(raw)])
  }

  /** A complete batch is replayed whole if every item is readable; otherwise only
      its reasoning is. */
  function ProviderItems(native: Native): (seq<Item>, bool) {
    if native.complete && Unreadable !in native.items then (Parsed(native.items), Parsed(native.items) != [])
    else (ReasoningItems(native.items), false)
  }

  /** The first call with matching native data speaks for the whole turn. */
  function ProviderOutput(calls: seq<Call>, decode: Decode): (seq<Item>, bool) {
    if calls == [] then ([], false)
    else match decode(calls[0])
      case Some(native) => if native.items != [] then ProviderItems(native) else ProviderOutput(calls[1..], decode)
      case None => ProviderOutput(calls[1..], decode)
  }

  // ---- Counting items ----

  function CallCount(items: seq<Item>, t: string): nat {
    if items == [] then 0
    else var x := items[|items| - 1];
      CallCount(items[..|items| - 1], t) + if x.FunctionCall? && x.id == t then 1 else 0
  }

  function OutputCount(items: seq<Item>, t: string): nat {
    if items == [] then 0
    else var x := items[|items| - 1];
      OutputCount(items[..|items| - 1], t) + if x.Output? && x.id == t then 1 else 0
  }

  /** No output stands before the call it answers. */
  predicate Ordered(items: seq<Item>) {
    items == [] || (
      var x, before := items[|items| - 1], items[..|items| - 1];
      Ordered(before) && (x.Output? ==> CallCount(before, x.id) > 0))
  }

  /** What the conversation says, in order: texts and recorded results. */
  function Spoken(items: seq<Item>): seq<Item> {
    if items == [] then []
    else var x := items[|items| - 1];
      Spoken(items[..|items| - 1]) + if x.Say? || (x.Output? && x.text.Some?) then [x] else []
  }

  lemma {:induction false} Snoc(items: seq<Item>, x: Item, t: string)
    ensures CallCount(items + [x], t) == CallCount(items, t) + if x.FunctionCall? && x.id == t then 1 else 0
    ensures OutputCount(items + [x], t) == OutputCount(items, t) + if x.Output? && x.id == t then 1 else 0
    ensures Ordered(items + [x]) == (Ordered(items) && (x.Output? ==> CallCount(items, x.id) > 0))
    ensures Spoken(items + [x]) == Spoken(items) + if x.Say? || (x.Output? && x.text.Some?) then [x] else []
  {
    assert (items + [x])[..|items|] == items;
  }

  lemma {:induction false} Nothing(t: string)
    ensures CallCount([], t) == 0 && OutputCount([], t) == 0 && Ordered([]) && Spoken([]) == []
  {
  }

  /** Native items are calls and unspecified items, nothing else. */
  predicate NativeOnly(items: seq<Item>) { forall k :: 0 <= k < |items| ==> items[k].FunctionCall? || items[k].Other? }

  lemma {:induction false} ProviderItemsNative(native: Native)
    ensures NativeOnly(ProviderItems(native).0)
    ensures !ProviderItems(native).1 ==> Ids(ProviderItems(native).0) == {}
  {
    ParsedNative(native.items);
    ReasoningNative(native.items);
    if Parsed(native.items) == [] {}
  }

  lemma {:induction false} ParsedNative(items: seq<RawItem>)
    ensures NativeOnly(Parsed(items))
    decreases |items|
  {
    if items != [] { ParsedNative(items[..|items| - 1]); }
  }

  lemma {:induction false} ReasoningNative(items: seq<RawItem>)
    ensures forall k :: 0 <= k < |ReasoningItems(items)| ==> ReasoningItems(items)[k].Other?
    decreases |items|
  {
    if items != [] { ReasoningNative(items[..|items| - 1]); }
  }

  /** Native calls are replayed only with a whole batch, so a turn never mixes
      native and stored calls. */
  lemma {:induction false} WholeOrNone(calls: seq<Call>, decode: Decode)
    ensures NativeOnly(ProviderOutput(calls, decode).0)
    ensures !ProviderOutput(calls, decode).1 ==> Ids(ProviderOutput(calls, decode).0) == {}
    decreases |calls|
  {
    if calls != [] {
      match decode(calls[0])
      case Some(native) =>
        if native.items != [] { ProviderItemsNative(native); } else { WholeOrNone(calls[1..], decode); }
      case None => WholeOrNone(calls[1..], decode);
    }
  }

  // ---- What a conversation should lead to ----

  function Ids(items: seq<Item>): set<string> {
    set k | 0 <= k < |items| && items[k].FunctionCall? :: items[k].id
  }

  function StoredIds(calls: seq<Call>): set<string> {
    set k | 0 <= k < |calls| :: calls[k].id
  }

  function NativeIds(m: Chat, decode: Decode): set<string> { Ids(ProviderOutput(m.calls, decode).0) }

  /** The call ids a turn brings: those of its native batch, or its stored ones. */
  function TurnIds(m: Chat, decode: Decode): set<string> {
    if ProviderOutput(m.calls, decode).1 then NativeIds(m, decode) else StoredIds(m.calls)
  }

  function AllNative(messages: seq<Chat>, n: nat, decode: Decode): set<string>
    requires n <= |messages|
  {
    if n == 0 then {} else AllNative(messages, n - 1, decode) + NativeIds(messages[n - 1], decode)
  }

  function AllCalls(messages: seq<Chat>, n: nat, decode: Decode): set<string>
    requires n <= |messages|
  {
    if n == 0 then {} else AllCalls(messages, n - 1, decode) + TurnIds(messages[n - 1], decode)
  }

  function RecordedIds(messages: seq<Chat>): set<string> {
    set k | 0 <= k < |messages| :: messages[k].call
  }

  /** Results recorded for t among the first n messages. */
  function RecordedCount(messages: seq<Chat>, n: nat, t: string): nat
    requires n <= |messages|
  {
    if n == 0 then 0 else RecordedCount(messages, n - 1, t) + if messages[n - 1].call == t then 1 else 0
  }

  /** What one message says: its result, or its text unless native data holds it. */
  function Speech(m: Chat, decode: Decode): seq<Item> {
    if m.call != "" then [Output(m.call, Some(m.content))]
    else if !ProviderOutput(m.calls, decode).1 && (m.content != [] || m.attachments != []) then [Say(m.role, m.content, m.attachments)]
    else []
  }

  function AllSpeech(messages: seq<Chat>, n: nat, decode: Decode): seq<Item>
    requires n <= |messages|
  {
    if n == 0 then [] else AllSpeech(messages, n - 1, decode) + Speech(messages[n - 1], decode)
  }

  /** Every recorded result comes after a call with its id. */
  ghost predicate Announced(messages: seq<Chat>, n: nat, decode: Decode)
    requires n <= |messages|
  {
    forall k :: 0 <= k < n && messages[k].call != "" ==> messages[k].call in AllCalls(messages, k + 1, decode)
  }

  // ---- The turns one after another ----

  function StoredItems(calls: seq<Call>): seq<Item> {
    if calls == [] then []
    else var call := calls[|calls| - 1];
      StoredItems(calls[..|calls| - 1]) + [FunctionCall(call.id, call.name, call.arguments)]
  }

  /** What a message brings beside native items: its text and stored calls, unless a
      whole native batch holds them, and its result. */
  function OwnItems(m: Chat, decode: Decode): seq<Item> {
    (if ProviderOutput(m.calls, decode).1 then [] else Words(m) + StoredItems(m.calls))
    + (if m.call != "" then [Output(m.call, Some(m.content))] else [])
  }

  function Words(m: Chat): seq<Item> {
    if (m.content != [] || m.attachments != []) && m.call == "" then [Say(m.role, m.content, m.attachments)] else []
  }

  /** All that one message would send by itself. */
  function Turn(m: Chat, decode: Decode): seq<Item> { ProviderOutput(m.calls, decode).0 + OwnItems(m, decode) }

  function Turns(messages: seq<Chat>, n: nat, decode: Decode): seq<Item>
    requires n <= |messages|
  {
    if n == 0 then [] else Turns(messages, n - 1, decode) + Turn(messages[n - 1], decode)
  }

  /** The items without placeholders, without calls that have no id, and without the
      later calls of an id. */
  function Kept(items: seq<Item>): seq<Item> {
    if items == [] then []
    else var x, before := items[|items| - 1], items[..|items| - 1];
      Kept(before) + if (x.Output? && x.text.None?) || (x.FunctionCall? && (x.id == "" || x.id in Ids(before))) then [] else [x]
  }

  /** The input follows the turns: the same items in the same order, each call id
      where it comes first; c holds the ids seen. */
  ghost predicate Follows(input: seq<Item>, turns: seq<Item>, c: set<string>) {
    && Kept(input) == Kept(turns)
    && forall t :: t != "" ==> (t in c <==> t in Ids(input)) && (t in c <==> t in Ids(turns))
  }

  lemma {:induction false} KeptSnoc(items: seq<Item>, x: Item)
    ensures Kept(items + [x]) == Kept(items)
              + if (x.Output? && x.text.None?) || (x.FunctionCall? && (x.id == "" || x.id in Ids(items))) then [] else [x]
    ensures Ids(items + [x]) == Ids(items) + if x.FunctionCall? then {x.id} else {}
  {
    var all := items + [x];
    assert all[..|items|] == items;
    IdsSnoc(all, |items|);
    assert all[..|items| + 1] == all;
  }

  /** The next item of the turns, appended or, when it is a call already seen, left out. */
  lemma {:induction false} FollowStep(input: seq<Item>, turns: seq<Item>, c: set<string>, x: Item)
    ensures Follows(input, turns, c) && !(x.FunctionCall? && x.id != "" && x.id in c)
            ==> Follows(input + [x], turns + [x], if x.FunctionCall? then c + {x.id} else c)
    ensures Follows(input, turns, c) && x.FunctionCall? && x.id == "" ==> Follows(input + [x], turns + [x], c)
    ensures Follows(input, turns, c) && x.FunctionCall? && (x.id == "" || x.id in c) ==> Follows(input, turns + [x], c)
    ensures Follows(input, turns, c) && x.Output? && x.text.None? ==> Follows(input + [x], turns, c)
  {
    KeptSnoc(input, x);
    KeptSnoc(turns, x);
    EmptyRight(Kept(input));
    EmptyRight(Kept(turns));
    hide Kept, Ids;
  }

  lemma {:induction false} FollowStored(input: seq<Item>, turns: seq<Item>, calls: seq<Call>, i: nat, c: set<string>)
    requires i < |calls|
    ensures var x := FunctionCall(calls[i].id, calls[i].name, calls[i].arguments);
            && turns + StoredItems(calls[..i + 1]) == (turns + StoredItems(calls[..i])) + [x]
            && Unseen(calls[..i + 1], c) == Unseen(calls[..i], c) + (if calls[i].id in c || calls[i].id in StoredIds(calls[..i]) then [] else [x])
  {
    assert calls[..i + 1][..i] == calls[..i];
    Assoc(turns, StoredItems(calls[..i]), [FunctionCall(calls[i].id, calls[i].name, calls[i].arguments)]);
    hide Unseen;
    UnseenSnoc(calls, i, c);
  }

  lemma {:induction false} UnseenSnoc(calls: seq<Call>, i: nat, c: set<string>)
    requires i < |calls|
    ensures Unseen(calls[..i + 1], c) == Unseen(calls[..i], c)
              + if calls[i].id in c || calls[i].id in StoredIds(calls[..i]) then [] else [FunctionCall(calls[i].id, calls[i].name, calls[i].arguments)]
  {
    assert calls[..i + 1][..i] == calls[..i];
  }

  /** The calls whose id is not among the given ones, each id once, with its own name
      and arguments. */
  function Unseen(calls: seq<Call>, c: set<string>): seq<Item> {
    if calls == [] then []
    else var call, before := calls[|calls| - 1], calls[..|calls| - 1];
      Unseen(before, c) + if call.id in c || call.id in StoredIds(before) then [] else [FunctionCall(call.id, call.name, call.arguments)]
  }

  // ---- Steps ----

  /** Calls with the given ids were added, each once and none twice. */
  ghost predicate CallsGrow(in0: seq<Item>, c0: set<string>, in1: seq<Item>, c1: set<string>, ids: set<string>) {
    forall t :: t != "" ==>
      && (t in c1 <==> t in c0 || t in ids)
      && CallCount(in1, t) == CallCount(in0, t) + if t in c1 && t !in c0 then 1 else 0
  }

  ghost predicate OutputsGrow(in0: seq<Item>, o0: set<string>, in1: seq<Item>, o1: set<string>, ids: set<string>) {
    forall t :: t != "" ==>
      && (t in o1 <==> t in o0 || t in ids)
      && OutputCount(in1, t) == OutputCount(in0, t) + if t in o1 && t !in o0 then 1 else 0
  }

  ghost predicate SameCalls(in0: seq<Item>, in1: seq<Item>) { forall t :: CallCount(in1, t) == CallCount(in0, t) }

  ghost predicate SameOutputs(in0: seq<Item>, in1: seq<Item>) { forall t :: OutputCount(in1, t) == OutputCount(in0, t) }

  lemma {:induction false} IdsSnoc(items: seq<Item>, n: nat)
    requires n < |items|
    ensures items[n].FunctionCall? ==> Ids(items[..n + 1]) == Ids(items[..n]) + {items[n].id}
    ensures !items[n].FunctionCall? ==> Ids(items[..n + 1]) == Ids(items[..n])
  {
    assert forall k :: 0 <= k < n ==> items[..n + 1][k] == items[k];
    assert items[..n + 1][n] == items[n];
  }

  lemma {:induction false} StoredSnoc(calls: seq<Call>, n: nat)
    requires n < |calls|
    ensures StoredIds(calls[..n + 1]) == StoredIds(calls[..n]) + {calls[n].id}
  {
    assert forall k :: 0 <= k < n ==> calls[..n + 1][k] == calls[k];
    assert calls[..n + 1][n] == calls[n];
  }

  /** Appending a call or an unspecified item. */
  lemma {:induction false} CallStep(in0: seq<Item>, c0: set<string>, input: seq<Item>, c: set<string>, ids: set<string>,
                                    x: Item)
    requires CallsGrow(in0, c0, input, c, ids) && SameOutputs(in0, input) && (x.FunctionCall? || x.Other?)
    ensures x.FunctionCall? && (x.id == "" || x.id !in c) ==>
              CallsGrow(in0, c0, input + [x], if x.id == "" then c else c + {x.id}, ids + {x.id}) && CallsGrow(in0, c0, input + [x], c + {x.id}, ids + {x.id})
    ensures x.FunctionCall? && x.id in c ==> CallsGrow(in0, c0, input, c, ids + {x.id})
    ensures x.Other? ==> CallsGrow(in0, c0, input + [x], c, ids)
    ensures SameOutputs(in0, input + [x]) && Spoken(input + [x]) == Spoken(input)
            && Ordered(input + [x]) == Ordered(input)
  {
    forall t ensures CallCount(input + [x], t) == CallCount(input, t) + (if x.FunctionCall? && x.id == t then 1 else 0)
                     && OutputCount(input + [x], t) == OutputCount(input, t) {
      Snoc(input, x, t);
    }
    Snoc(input, x, "");
    EmptyRight(Spoken(input));
    hide CallCount, OutputCount, Ordered, Spoken;
  }

  /** Replays native items, but no call id a second time. */
  method AddNative(items: seq<Item>, in0: seq<Item>, c0: set<string>, ghost turns: seq<Item>)
    returns (input: seq<Item>, callIDs: set<string>)
    requires NativeOnly(items)
    ensures Follows(in0, turns, c0) ==> Follows(input, turns + items, callIDs)
    ensures CallsGrow(in0, c0, input, callIDs, Ids(items)) && SameOutputs(in0, input)
    ensures Spoken(input) == Spoken(in0) && Ordered(input) == Ordered(in0) && in0 <= input
  {
    hide *;
    input, callIDs := in0, c0;
    GrowStarts(in0, c0, c0);
    IdsEmpty(items);
    EmptyRight(turns);
    for i := 0 to |items|
      invariant Follows(in0, turns, c0) ==> Follows(input, turns + items[..i], callIDs)
      invariant CallsGrow(in0, c0, input, callIDs, Ids(items[..i])) && SameOutputs(in0, input)
      invariant Spoken(input) == Spoken(in0) && Ordered(input) == Ordered(in0) && in0 <= input
    {
      var native := items[i];
      NativeAt(items, i);
      IdsSnoc(items, i);
      CallStep(in0, c0, input, callIDs, Ids(items[..i]), native);
      FollowStep(input, turns + items[..i], callIDs, native);
      ItemsSnoc(turns, items, i);
      if native.FunctionCall? && native.id != "" {
        if native.id in callIDs {
          continue;
        }
        callIDs := callIDs + {native.id};
      }
      input := input + [native];
    }
    IdsFull(items);
  }

  lemma {:induction false} GrowStarts(input: seq<Item>, c: set<string>, o: set<string>)
    ensures CallsGrow(input, c, input, c, {}) && OutputsGrow(input, o, input, o, {}) && SameOutputs(input, input)
            && SameCalls(input, input)
  {
  }

  lemma {:induction false} ItemsSnoc(turns: seq<Item>, items: seq<Item>, i: nat)
    requires i < |items|
    ensures turns + items[..i + 1] == (turns + items[..i]) + [items[i]]
  {
    hide *;
  }

  lemma {:induction false} IdsEmpty(items: seq<Item>)
    ensures Ids(items[..0]) == {} && items[..0] == []
  {
  }

  lemma {:induction false} IdsFull(items: seq<Item>)
    ensures items[..|items|] == items
  {
  }

  lemma {:induction false} NativeAt(items: seq<Item>, i: nat)
    requires NativeOnly(items) && i < |items|
    ensures items[i].FunctionCall? || items[i].Other?
  {
  }

  /** Appending a placeholder for a call that is already in the input. */
  lemma {:induction false} PlaceholderStep(in0: seq<Item>, o0: set<string>, input: seq<Item>, o: set<string>,
                                           ids: set<string>, id: string)
    requires OutputsGrow(in0, o0, input, o, ids) && SameCalls(in0, input) && id != ""
    ensures id in o ==> OutputsGrow(in0, o0, input, o, ids + {id})
    ensures id !in o ==> OutputsGrow(in0, o0, input + [Output(id, None)], o + {id}, ids + {id})
    ensures SameCalls(in0, input + [Output(id, None)]) && Spoken(input + [Output(id, None)]) == Spoken(input)
    ensures CallCount(in0, id) > 0 ==> Ordered(input + [Output(id, None)]) == Ordered(input)
  {
    var x := Output(id, None);
    forall t ensures CallCount(input + [x], t) == CallCount(input, t) && OutputCount(input + [x], t) == OutputCount(input, t) + (if id == t then 1 else 0) {
      Snoc(input, x, t);
    }
    Snoc(input, x, "");
    EmptyRight(Spoken(input));
    hide CallCount, OutputCount, Ordered, Spoken;
  }

  ghost predicate Present(items: seq<Item>, input: seq<Item>) {
    forall k :: 0 <= k < |items| && items[k].FunctionCall? && items[k].id != "" ==> CallCount(input, items[k].id) > 0
  }

  lemma {:induction false} PresentAt(items: seq<Item>, input: seq<Item>, k: nat)
    requires Present(items, input) && k < |items| && items[k].FunctionCall? && items[k].id != ""
    ensures CallCount(input, items[k].id) > 0
  {
    hide CallCount;
  }

  lemma {:induction false} GrowNone(in0: seq<Item>, o0: set<string>, input: seq<Item>, o: set<string>, ids: set<string>)
    requires OutputsGrow(in0, o0, input, o, ids)
    ensures OutputsGrow(in0, o0, input, o, ids + {""})
  {
    hide OutputCount;
  }

  /** One placeholder for every native call without a recorded result. */
  method AddPlaceholders(items: seq<Item>, in0: seq<Item>, o0: set<string>, ghost turns: seq<Item>,
                         ghost c: set<string>)
    returns (input: seq<Item>, outputIDs: set<string>)
    requires Present(items, in0)
    ensures Follows(in0, turns, c) ==> Follows(input, turns, c)
    ensures OutputsGrow(in0, o0, input, outputIDs, Ids(items)) && SameCalls(in0, input)
    ensures Spoken(input) == Spoken(in0) && Ordered(input) == Ordered(in0) && in0 <= input
  {
    hide *;
    input, outputIDs := in0, o0;
    GrowStarts(in0, o0, o0);
    IdsEmpty(items);
    for i := 0 to |items|
      invariant Follows(in0, turns, c) ==> Follows(input, turns, c)
      invariant OutputsGrow(in0, o0, input, outputIDs, Ids(items[..i])) && SameCalls(in0, input)
      invariant Spoken(input) == Spoken(in0) && Ordered(input) == Ordered(in0) && in0 <= input
    {
      var native := items[i];
      IdsSnoc(items, i);
      if !native.FunctionCall? {
        continue;
      }
      if native.id == "" {
        GrowNone(in0, o0, input, outputIDs, Ids(items[..i]));
        continue;
      }
      PresentAt(items, in0, i);
      PlaceholderStep(in0, o0, input, outputIDs, Ids(items[..i]), native.id);
      FollowStep(input, turns, c, Output(native.id, None));
      if native.id in outputIDs {
        continue;
      }
      input := input + [Output(native.id, None)];
      outputIDs := outputIDs + {native.id};
    }
    IdsFull(items);
  }

  /** Stored calls of a turn without a native batch. */
  method AddStored(calls: seq<Call>, in0: seq<Item>, c0: set<string>, ghost turns: seq<Item>)
    returns (input: seq<Item>, callIDs: set<string>)
    ensures input == in0 + Unseen(calls, c0) && callIDs == c0 + StoredIds(calls)
    ensures Follows(in0, turns, c0) ==> Follows(input, turns + StoredItems(calls), callIDs)
    ensures CallsGrow(in0, c0, input, callIDs, StoredIds(calls)) && SameOutputs(in0, input)
    ensures Spoken(input) == Spoken(in0) && Ordered(input) == Ordered(in0) && in0 <= input
  {
    hide *;
    input, callIDs := in0, c0;
    GrowStarts(in0, c0, c0);
    StoredEnds(calls);
    EmptyRight(turns);
    EmptyRight(in0);
    for i := 0 to |calls|
      invariant input == in0 + Unseen(calls[..i], c0) && callIDs == c0 + StoredIds(calls[..i])
      invariant Follows(in0, turns, c0) ==> Follows(input, turns + StoredItems(calls[..i]), callIDs)
      invariant CallsGrow(in0, c0, input, callIDs, StoredIds(calls[..i])) && SameOutputs(in0, input)
      invariant Spoken(input) == Spoken(in0) && Ordered(input) == Ordered(in0) && in0 <= input
    {
      var x := FunctionCall(calls[i].id, calls[i].name, calls[i].arguments);
      StoredSnoc(calls, i);
      CallStep(in0, c0, input, callIDs, StoredIds(calls[..i]), x);
      FollowStep(input, turns + StoredItems(calls[..i]), callIDs, x);
      FollowStored(input, turns, calls, i, c0);
      EmptyRight(Unseen(calls[..i], c0));
      Assoc(in0, Unseen(calls[..i], c0), [x]);
      if calls[i].id in callIDs {
        continue;
      }
      callIDs := callIDs + {calls[i].id};
      input := input + [x];
    }
  }

  lemma {:induction false} StoredEnds(calls: seq<Call>)
    ensures StoredIds(calls[..0]) == {} && calls[..|calls|] == calls && calls[..0] == [] && StoredItems([]) == []
    ensures forall c :: Unseen([], c) == []
  {
  }

  // ---- The whole input ----

  /** Everything known of one call id after n messages. */
  ghost predicate AtId(messages: seq<Chat>, n: nat, decode: Decode, input: seq<Item>, c: set<string>, o: set<string>,
                       t: string)
    requires n <= |messages|
  {
    && (t in c <==> t in AllCalls(messages, n, decode))
    && (t in o <==> t in RecordedIds(messages) || t in AllNative(messages, n, decode))
    && CallCount(input, t) == (if t in AllCalls(messages, n, decode) then 1 else 0)
    && OutputCount(input, t) == RecordedCount(messages, n, t) + if t in AllNative(messages, n, decode) && t !in RecordedIds(messages) then 1 else 0
  }

  ghost predicate Built(messages: seq<Chat>, n: nat, decode: Decode, input: seq<Item>, c: set<string>, o: set<string>)
    requires n <= |messages|
  {
    && (forall t :: t != "" ==> AtId(messages, n, decode, input, c, o, t))
    && Spoken(input) == AllSpeech(messages, n, decode)
    && (Ordered(input) <==> Announced(messages, n, decode))
  }

  lemma {:induction false} BuiltStarts(messages: seq<Chat>, decode: Decode, input: seq<Item>, o: set<string>)
    requires input == [] || exists x :: input == [System(x)]
    requires o == RecordedIds(messages) - {""}
    ensures Built(messages, 0, decode, input, {}, o)
  {
    var x: Item;
    if input != [] {
      var y :| input == [System(y)];
      x := System(y);
      EmptyLeft([x]);
    }
    forall t | t != "" ensures AtId(messages, 0, decode, input, {}, o, t) {
      Nothing(t);
      if input != [] { Snoc([], x, t); }
    }
    Nothing("");
    if input != [] { Snoc([], x, ""); }
    hide AtId, Ordered, Spoken;
  }

  /** What one message adds to the counts of one call id. */
  ghost predicate Adds(m: Chat, decode: Decode, input: seq<Item>, c: set<string>, o: set<string>,
                       input': seq<Item>, c': set<string>, o': set<string>, t: string) {
    && (t in c' <==> t in c || t in TurnIds(m, decode))
    && (t in o' <==> t in o || t in NativeIds(m, decode))
    && CallCount(input', t) == CallCount(input, t) + (if t in c' && t !in c then 1 else 0)
    && OutputCount(input', t) == OutputCount(input, t) + (if t in o' && t !in o then 1 else 0) + if m.call == t then 1 else 0
  }

  lemma {:induction false} AtStep(messages: seq<Chat>, n: nat, decode: Decode, input: seq<Item>, c: set<string>,
                                  o: set<string>,
               input': seq<Item>, c': set<string>, o': set<string>, t: string)
    requires n < |messages| && AtId(messages, n, decode, input, c, o, t)
    requires Adds(messages[n], decode, input, c, o, input', c', o', t)
    ensures AtId(messages, n + 1, decode, input', c', o', t)
  {
    hide CallCount, OutputCount, NativeIds, TurnIds, RecordedIds;
  }

  lemma {:induction false} AnnouncedSnoc(messages: seq<Chat>, n: nat, decode: Decode)
    requires n < |messages|
    ensures Announced(messages, n + 1, decode)
            <==> Announced(messages, n, decode) && (messages[n].call != "" ==> messages[n].call in AllCalls(messages, n + 1, decode))
  {
    hide AllCalls;
  }

  lemma {:induction false} AtOf(messages: seq<Chat>, n: nat, decode: Decode, input: seq<Item>, c: set<string>,
                                o: set<string>, t: string)
    requires n <= |messages| && Built(messages, n, decode, input, c, o) && t != ""
    ensures AtId(messages, n, decode, input, c, o, t) && (t in c <==> t in AllCalls(messages, n, decode))
    ensures CallCount(input, t) == if t in c then 1 else 0
  {
    hide CallCount, OutputCount, Ordered, Spoken, AllSpeech, Announced, AllCalls, AllNative, RecordedIds, RecordedCount;
  }

  lemma {:induction false} BuiltStep(messages: seq<Chat>, n: nat, decode: Decode, input: seq<Item>, c: set<string>,
                                     o: set<string>,
                  input': seq<Item>, c': set<string>, o': set<string>)
    requires n < |messages| && Built(messages, n, decode, input, c, o)
    requires forall t :: t != "" ==> Adds(messages[n], decode, input, c, o, input', c', o', t)
    requires Spoken(input') == Spoken(input) + Speech(messages[n], decode)
    requires Ordered(input') <==> Ordered(input) && (messages[n].call != "" ==> messages[n].call in c')
    ensures Built(messages, n + 1, decode, input', c', o')
  {
    hide Adds, AtId, Ordered, Spoken, Speech, AllCalls, Announced;
    var k := n + 1;
    forall t | t != "" ensures AtId(messages, k, decode, input', c', o', t) {
      AtStep(messages, n, decode, input, c, o, input', c', o', t);
    }
    AnnouncedSnoc(messages, n, decode);
    var call := messages[n].call;
    if call != "" { InCalls(messages, n + 1, decode, input', c', o', call); }
  }

  lemma {:induction false} InCalls(messages: seq<Chat>, n: nat, decode: Decode, input: seq<Item>, c: set<string>,
                                   o: set<string>, t: string)
    requires n <= |messages| && AtId(messages, n, decode, input, c, o, t)
    ensures t in c <==> t in AllCalls(messages, n, decode)
  {
    hide CallCount, OutputCount, AllCalls, AllNative, RecordedIds, RecordedCount;
  }

  lemma {:induction false} PresentNative(messages: seq<Chat>, n: nat, decode: Decode, input: seq<Item>, c: set<string>,
                                         o: set<string>,
                      items: seq<Item>, in1: seq<Item>, c1: set<string>)
    requires n <= |messages| && Built(messages, n, decode, input, c, o) && CallsGrow(input, c, in1, c1, Ids(items))
    ensures Present(items, in1)
  {
    forall k | 0 <= k < |items| && items[k].FunctionCall? && items[k].id != "" ensures CallCount(in1, items[k].id) > 0 {
      var t := items[k].id;
      AtOf(messages, n, decode, input, c, o, t);
      assert t in Ids(items);
      hide CallCount, AtId, Built;
    }
  }

  /** The text of a message, when native data does not hold it already. */
  lemma {:induction false} SpeechStep(input: seq<Item>, x: Item)
    requires x.Say? || (x.Output? && x.text.Some?)
    ensures Spoken(input + [x]) == Spoken(input) + [x]
    ensures x.Say? ==> SameCalls(input, input + [x]) && SameOutputs(input, input + [x]) && Ordered(input + [x]) == Ordered(input)
    ensures x.Output? ==> SameCalls(input, input + [x]) && (Ordered(input + [x]) <==> Ordered(input) && CallCount(input, x.id) > 0)
    ensures forall t :: OutputCount(input + [x], t) == OutputCount(input, t) + if x.Output? && x.id == t then 1 else 0
  {
    var next := input + [x];
    forall t ensures CallCount(next, t) == CallCount(input, t) { Snoc(input, x, t); }
    forall t ensures OutputCount(next, t) == OutputCount(input, t) + (if x.Output? && x.id == t then 1 else 0) { Snoc(input, x, t); }
    Snoc(input, x, "");
    hide CallCount, OutputCount, Ordered, Spoken;
  }

  /** The calls, text and result of one message. */
  method AddMessage(m: Chat, decode: Decode, in0: seq<Item>, c0: set<string>, complete: bool, ghost turns: seq<Item>)
    returns (input: seq<Item>, callIDs: set<string>)
    requires complete == ProviderOutput(m.calls, decode).1
    ensures Follows(in0, turns, c0) ==> Follows(input, turns + OwnItems(m, decode), callIDs)
    ensures CallsGrow(in0, c0, input, callIDs, if complete then {} else StoredIds(m.calls))
    ensures forall t :: OutputCount(input, t) == OutputCount(in0, t) + if m.call == t && t != "" then 1 else 0
    ensures Spoken(input) == Spoken(in0) + Speech(m, decode)
    ensures in0 <= input && (m.call == "" ==> Ordered(input) == Ordered(in0))
    ensures m.call != "" ==> (Ordered(input) <==> Ordered(in0) && CallCount(input, m.call) > 0)
  {
    hide *;
    input, callIDs := in0, c0;
    GrowStarts(in0, c0, {});
    EmptyRight(Spoken(in0));
    if !complete {
      if (m.content != [] || m.attachments != []) && m.call == "" {
        SpeechStep(input, Say(m.role, m.content, m.attachments));
        FollowStep(input, turns, callIDs, Say(m.role, m.content, m.attachments));
        input := input + [Say(m.role, m.content, m.attachments)];
      }
      ghost var said := input;
      assert Follows(in0, turns, c0) ==> Follows(said, turns + Words(m), callIDs) by { TextIs(m); EmptyRight(turns); }
      input, callIDs := AddStored(m.calls, input, callIDs, turns + Words(m));
      GrowAfter(in0, said, c0, input, callIDs, StoredIds(m.calls));
    }
    ghost var called := input;
    OwnIs(m, decode, turns);
    GrowStarts(called, c0, {});
    if m.call != "" {
      SpeechStep(input, Output(m.call, Some(m.content)));
      FollowStep(input, turns + OwnCalls(m, decode), callIDs, Output(m.call, Some(m.content)));
      input := input + [Output(m.call, Some(m.content))];
    }
    GrowThen(in0, c0, called, callIDs, if complete then {} else StoredIds(m.calls), input);
    SpeechIs(m, decode);
    SameOutputsAt(in0, called);
    SameCallsAt(called, input, m.call);
    GrowStarts(in0, c0, {});
  }

  ghost function OwnCalls(m: Chat, decode: Decode): seq<Item> {
    if ProviderOutput(m.calls, decode).1 then [] else Words(m) + StoredItems(m.calls)
  }

  lemma {:induction false} TextIs(m: Chat)
    ensures Words(m) == if (m.content != [] || m.attachments != []) && m.call == "" then [Say(m.role, m.content, m.attachments)] else []
  {
  }

  lemma {:induction false} OwnIs(m: Chat, decode: Decode, turns: seq<Item>)
    ensures turns + OwnItems(m, decode) == (turns + OwnCalls(m, decode)) + if m.call != "" then [Output(m.call, Some(m.content))] else []
    ensures m.call == "" ==> turns + OwnItems(m, decode) == turns + OwnCalls(m, decode)
    ensures turns + OwnCalls(m, decode) == if ProviderOutput(m.calls, decode).1 then turns else (turns + Words(m)) + StoredItems(m.calls)
  {
    var calls, last := OwnCalls(m, decode), if m.call != "" then [Output(m.call, Some(m.content))] else [];
    assert OwnItems(m, decode) == calls + last;
    Assoc(turns, calls, last);
    Assoc(turns, Words(m), StoredItems(m.calls));
    EmptyRight(turns + calls);
    EmptyRight(turns);
    hide Words, StoredItems, ProviderOutput;
  }

  lemma {:induction false} SpeechIs(m: Chat, decode: Decode)
    ensures Speech(m, decode) ==
              if m.call != "" then [Output(m.call, Some(m.content))]
              else if !ProviderOutput(m.calls, decode).1 && (m.content != [] || m.attachments != []) then [Say(m.role, m.content, m.attachments)]
              else []
  {
  }

  lemma {:induction false} SameOutputsAt(in0: seq<Item>, in1: seq<Item>)
    ensures SameOutputs(in0, in1) ==> forall t :: OutputCount(in1, t) == OutputCount(in0, t)
  {
  }

  lemma {:induction false} SameCallsAt(in0: seq<Item>, in1: seq<Item>, t: string)
    ensures SameCalls(in0, in1) ==> CallCount(in1, t) == CallCount(in0, t)
  {
  }

  lemma {:induction false} GrowAfter(in0: seq<Item>, said: seq<Item>, c0: set<string>, input: seq<Item>, c: set<string>,
                                     ids: set<string>)
    requires SameCalls(in0, said) && SameOutputs(in0, said) && CallsGrow(said, c0, input, c, ids)
             && SameOutputs(said, input)
    ensures CallsGrow(in0, c0, input, c, ids) && SameOutputs(in0, input)
  {
    hide CallCount, OutputCount;
  }

  lemma {:induction false} GrowThen(in0: seq<Item>, c0: set<string>, called: seq<Item>, c: set<string>,
                                    ids: set<string>, input: seq<Item>)
    requires CallsGrow(in0, c0, called, c, ids) && SameCalls(called, input)
    ensures CallsGrow(in0, c0, input, c, ids)
  {
    hide CallCount;
  }

  lemma {:induction false} AddsAll(m: Chat, decode: Decode, input: seq<Item>, c: set<string>, o: set<string>,
                                   in1: seq<Item>, c1: set<string>,
                in2: seq<Item>, o2: set<string>, in3: seq<Item>, c3: set<string>)
    requires CallsGrow(input, c, in1, c1, NativeIds(m, decode)) && SameOutputs(input, in1)
    requires OutputsGrow(in1, o, in2, o2, NativeIds(m, decode)) && SameCalls(in1, in2)
    requires CallsGrow(in2, c1, in3, c3, if ProviderOutput(m.calls, decode).1 then {} else StoredIds(m.calls))
    requires forall t :: OutputCount(in3, t) == OutputCount(in2, t) + if m.call == t && t != "" then 1 else 0
    ensures forall t :: t != "" ==> Adds(m, decode, input, c, o, in3, c3, o2, t)
  {
    WholeOrNone(m.calls, decode);
    hide CallCount, OutputCount, ProviderOutput, StoredIds, Ids;
  }

  /** Builds the input of a request, message by message. */
  method BuildInput(messages: seq<Chat>, decode: Decode, system: Text, includeMessageIDs: bool)
    returns (input: seq<Item>)
    ensures exists c, o :: Built(messages, |messages|, decode, input, c, o)
    ensures Kept(input) == Kept((if includeMessageIDs && system != [] then [System(system)] else []) + Turns(messages, |messages|, decode))
    ensures includeMessageIDs && system != [] ==> input != [] && input[0] == System(system)
  {
    hide *;
    input := [];
    var callIDs: set<string> := {};
    var outputIDs := RecordedIds(messages) - {""};
    if includeMessageIDs && system != [] {
      input := [System(system)];
    }
    BuiltStarts(messages, decode, input, outputIDs);
    ghost var start := input;
    FollowStarts(start, messages, decode);
    for i := 0 to |messages|
      invariant Follows(input, start + Turns(messages, i, decode), callIDs)
      invariant Built(messages, i, decode, input, callIDs, outputIDs)
      invariant includeMessageIDs && system != [] ==> input != [] && input[0] == System(system)
    {
      input, callIDs, outputIDs := BuildMessage(messages, i, decode, input, callIDs, outputIDs, start + Turns(messages, i, decode));
      TurnsSnoc(start, messages, i, decode);
    }
    FollowsKept(input, start + Turns(messages, |messages|, decode), callIDs);
  }

  lemma {:induction false} FollowStarts(start: seq<Item>, messages: seq<Chat>, decode: Decode)
    requires start == [] || exists x :: start == [System(x)]
    ensures Follows(start, start + Turns(messages, 0, decode), {})
  {
    EmptyRight(start);
  }

  lemma {:induction false} FollowsKept(input: seq<Item>, turns: seq<Item>, c: set<string>)
    requires Follows(input, turns, c)
    ensures Kept(input) == Kept(turns)
  {
    hide Kept;
  }

  lemma {:induction false} TurnsSnoc(start: seq<Item>, messages: seq<Chat>, n: nat, decode: Decode)
    requires n < |messages|
    ensures start + Turns(messages, n + 1, decode) == (start + Turns(messages, n, decode)) + Turn(messages[n], decode)
  {
    Assoc(start, Turns(messages, n, decode), Turn(messages[n], decode));
    hide Turn;
  }

  lemma {:induction false} TurnIs(turns: seq<Item>, m: Chat, decode: Decode)
    ensures turns + Turn(m, decode) == (turns + ProviderOutput(m.calls, decode).0) + OwnItems(m, decode)
  {
    Assoc(turns, ProviderOutput(m.calls, decode).0, OwnItems(m, decode));
    hide ProviderOutput, OwnItems;
  }

  method BuildMessage(messages: seq<Chat>, n: nat, decode: Decode, in0: seq<Item>, c0: set<string>, o0: set<string>,
                      ghost turns: seq<Item>)
    returns (input: seq<Item>, callIDs: set<string>, outputIDs: set<string>)
    requires n < |messages| && Built(messages, n, decode, in0, c0, o0)
    ensures Follows(in0, turns, c0) ==> Follows(input, turns + Turn(messages[n], decode), callIDs)
    ensures Built(messages, n + 1, decode, input, callIDs, outputIDs) && in0 <= input
  {
    hide *;
    var m := messages[n];
    var (items, complete) := ProviderOutput(m.calls, decode);
    WholeOrNone(m.calls, decode);
    NativeIdsIs(m, decode);
    TurnIs(turns, m, decode);
    input, callIDs := AddNative(items, in0, c0, turns);
    ghost var in1, c1 := input, callIDs;
    PresentNative(messages, n, decode, in0, c0, o0, items, input, callIDs);
    input, outputIDs := AddPlaceholders(items, input, o0, turns + items, callIDs);
    ghost var in2 := input;
    input, callIDs := AddMessage(m, decode, input, callIDs, complete, turns + items);
    AddsAll(m, decode, in0, c0, o0, in1, c1, in2, outputIDs, input, callIDs);
    if m.call != "" { CountIs(messages, n, decode, in0, c0, o0, input, callIDs, outputIDs, m.call); }
    BuiltStep(messages, n, decode, in0, c0, o0, input, callIDs, outputIDs);
  }

  lemma {:induction false} NativeIdsIs(m: Chat, decode: Decode)
    ensures NativeIds(m, decode) == Ids(ProviderOutput(m.calls, decode).0)
  {
  }

  lemma {:induction false} CountIs(messages: seq<Chat>, n: nat, decode: Decode, in0: seq<Item>, c0: set<string>,
                                   o0: set<string>,
                input: seq<Item>, c: set<string>, o: set<string>, t: string)
    requires n < |messages| && Built(messages, n, decode, in0, c0, o0) && t != ""
    requires Adds(messages[n], decode, in0, c0, o0, input, c, o, t)
    ensures CallCount(input, t) > 0 <==> t in c
  {
    AtOf(messages, n, decode, in0, c0, o0, t);
    hide CallCount, OutputCount, AtId, Built;
  }

  // ---- What the provider receives ----

  /** Of all non-empty call ids: the input holds a call at most once, exactly when a
      turn brings it; a result for each recorded one, and one placeholder for a
      native call without any; all text and results in order. No result stands before
      its call exactly when the conversation announces each result's call in time. */
  lemma {:induction false} InputSound(messages: seq<Chat>, decode: Decode, input: seq<Item>, t: string)
    requires t != "" && exists c, o :: Built(messages, |messages|, decode, input, c, o)
    ensures CallCount(input, t) == if t in AllCalls(messages, |messages|, decode) then 1 else 0
    ensures OutputCount(input, t) == if t in RecordedIds(messages) then RecordedCount(messages, |messages|, t)
                                     else if t in AllNative(messages, |messages|, decode) then 1 else 0
    ensures t in RecordedIds(messages) ==> RecordedCount(messages, |messages|, t) > 0
    ensures Spoken(input) == AllSpeech(messages, |messages|, decode)
    ensures Ordered(input) <==> Announced(messages, |messages|, decode)
  {
    var c, o :| Built(messages, |messages|, decode, input, c, o);
    AtOf(messages, |messages|, decode, input, c, o, t);
    Counted(messages, |messages|, t);
    hide CallCount, OutputCount, Ordered, Spoken, AllCalls, AllNative, Announced, AllSpeech;
  }

  /** The first call of an id among items. */
  function FirstCall(items: seq<Item>, t: string): Option<Item> {
    if items == [] then None
    else if items[0].FunctionCall? && items[0].id == t then Some(items[0]) else FirstCall(items[1..], t)
  }

  lemma {:induction false} FirstOf(a: seq<Item>, b: seq<Item>, t: string)
    ensures FirstCall(a + b, t) == if FirstCall(a, t).Some? then FirstCall(a, t) else FirstCall(b, t)
    decreases |a|
  {
    if a == [] {
      EmptyLeft(b);
    } else {
      assert (a + b)[1..] == a[1..] + b;
      FirstOf(a[1..], b, t);
    }
  }

  lemma {:induction false} FirstSnoc(items: seq<Item>, x: Item, t: string)
    ensures FirstCall(items + [x], t) == if FirstCall(items, t).Some? then FirstCall(items, t)
                                         else if x.FunctionCall? && x.id == t then Some(x) else None
  {
    FirstOf(items, [x], t);
    assert [x][1..] == [];
  }

  lemma {:induction false} FirstKept(items: seq<Item>, t: string)
    requires t != ""
    ensures FirstCall(Kept(items), t) == FirstCall(items, t) && (t in Ids(items) <==> FirstCall(items, t).Some?)
    decreases |items|
  {
    if items == [] {
    } else {
      var x, before := items[|items| - 1], items[..|items| - 1];
      assert items == before + [x];
      hide *;
      FirstKept(before, t);
      KeptSnoc(before, x);
      FirstSnoc(before, x, t);
      FirstSnoc(Kept(before), x, t);
      EmptyRight(Kept(before));
    }
  }

  lemma {:induction false} OnlyCall(items: seq<Item>, k: nat, t: string)
    requires k < |items| && items[k].FunctionCall? && items[k].id == t && CallCount(items, t) <= 1
    ensures FirstCall(items, t) == Some(items[k])
    decreases |items|
  {
    var x, before := items[|items| - 1], items[..|items| - 1];
    assert items == before + [x];
    FirstSnoc(before, x, t);
    if k < |items| - 1 {
      assert before[k] == items[k];
      OnlyCall(before, k, t);
    } else {
      NoCall(before, t);
    }
  }

  lemma {:induction false} NoCall(items: seq<Item>, t: string)
    ensures CallCount(items, t) == 0 ==> FirstCall(items, t).None?
    decreases |items|
  {
    if items != [] {
      var x, before := items[|items| - 1], items[..|items| - 1];
      assert items == before + [x];
      FirstSnoc(before, x, t);
      NoCall(before, t);
    }
  }

  lemma {:induction false} FirstIndex(items: seq<Item>, j: nat, t: string)
    requires j < |items| && items[j].FunctionCall? && items[j].id == t
    requires forall l :: 0 <= l < j ==> !(items[l].FunctionCall? && items[l].id == t)
    ensures FirstCall(items, t) == Some(items[j])
    decreases j
  {
    if j > 0 { FirstIndex(items[1..], j - 1, t); }
  }

  lemma {:induction false} FirstTurn(messages: seq<Chat>, n: nat, decode: Decode, i: nat, t: string)
    requires i < n <= |messages| && t != "" && FirstCall(Turn(messages[i], decode), t).Some?
    requires forall h :: 0 <= h < i ==> t !in Ids(Turn(messages[h], decode))
    ensures FirstCall(Turns(messages, n, decode), t) == FirstCall(Turn(messages[i], decode), t)
    decreases n
  {
    hide Turn, Ids, FirstCall;
    FirstOf(Turns(messages, n - 1, decode), Turn(messages[n - 1], decode), t);
    if i < n - 1 {
      FirstTurn(messages, n - 1, decode, i, t);
    } else {
      NotYet(messages, i, decode, t);
    }
  }

  lemma {:induction false} NotYet(messages: seq<Chat>, n: nat, decode: Decode, t: string)
    requires n <= |messages| && t != "" && forall h :: 0 <= h < n ==> t !in Ids(Turn(messages[h], decode))
    ensures FirstCall(Turns(messages, n, decode), t).None?
    decreases n
  {
    hide *;
    TurnsEnd(messages, n, decode, t);
    if n > 0 {
      NotYet(messages, n - 1, decode, t);
      FirstOf(Turns(messages, n - 1, decode), Turn(messages[n - 1], decode), t);
      FirstKept(Turn(messages[n - 1], decode), t);
    }
  }

  lemma {:induction false} TurnsEnd(messages: seq<Chat>, n: nat, decode: Decode, t: string)
    requires n <= |messages|
    ensures n == 0 ==> FirstCall(Turns(messages, n, decode), t).None?
    ensures n > 0 ==> Turns(messages, n, decode) == Turns(messages, n - 1, decode) + Turn(messages[n - 1], decode)
  {
    hide Turn;
  }

  /** A call in the input is the one of the first turn that brings its id, with the
      name and the arguments it has there; j is its place in that turn. */
  lemma {:induction false} CallIsFirst(messages: seq<Chat>, decode: Decode, system: seq<Item>, input: seq<Item>, k: nat,
                                       i: nat, j: nat)
    requires Kept(input) == Kept(system + Turns(messages, |messages|, decode)) && Ids(system) == {}
    requires exists c, o :: Built(messages, |messages|, decode, input, c, o)
    requires k < |input| && input[k].FunctionCall? && input[k].id != ""
    requires i < |messages| && forall h :: 0 <= h < i ==> input[k].id !in Ids(Turn(messages[h], decode))
    requires var turn := Turn(messages[i], decode);
             && j < |turn| && turn[j].FunctionCall? && turn[j].id == input[k].id
             && forall l :: 0 <= l < j ==> !(turn[l].FunctionCall? && turn[l].id == input[k].id)
    ensures input[k] == Turn(messages[i], decode)[j]
  {
    hide *;
    var t := input[k].id;
    InputSound(messages, decode, input, t);
    OnlyCall(input, k, t);
    FirstKept(input, t);
    FirstKept(system + Turns(messages, |messages|, decode), t);
    FirstKept(system, t);
    FirstOf(system, Turns(messages, |messages|, decode), t);
    FirstIndex(Turn(messages[i], decode), j, t);
    FirstTurn(messages, |messages|, decode, i, t);
  }

  /** A stored call is sent with its own id, name and arguments. */
  lemma {:induction false} StoredAt(calls: seq<Call>, j: nat)
    requires j < |calls|
    ensures |StoredItems(calls)| == |calls|
            && StoredItems(calls)[j] == FunctionCall(calls[j].id, calls[j].name, calls[j].arguments)
    decreases |calls|
  {
    var before := calls[..|calls| - 1];
    if j < |before| { StoredAt(before, j); } else if before != [] { StoredAt(before, 0); }
  }

  /** The first call with matching native data speaks for its turn: a readable
      complete batch as it was parsed, otherwise its reasoning items in order. */
  lemma {:induction false} NativeOf(calls: seq<Call>, decode: Decode, k: nat)
    requires k < |calls| && decode(calls[k]).Some? && decode(calls[k]).value.items != []
    requires forall i :: 0 <= i < k ==> decode(calls[i]).None? || decode(calls[i]).value.items == []
    ensures var native := decode(calls[k]).value;
            var (items, complete) := ProviderOutput(calls, decode);
            && (complete <==> native.complete && Unreadable !in native.items)
            && (complete ==> |items| == |native.items| && forall j :: 0 <= j < |items| ==> Same(native.items[j], items[j]))
            && (!complete ==> items == ReasoningItems(native.items))
    decreases k
  {
    hide ReasoningItems;
    if k > 0 {
      NativeOf(calls[1..], decode, k - 1);
    } else {
      var native := decode(calls[k]).value;
      ParsedSame(native.items);
    }
  }

  predicate Same(raw: RawItem, item: Item) {
    match raw
    case Unreadable => false
    case Reasoning(r) => item == Other(r)
    case RawCall(id, name, arguments) => item == FunctionCall(id, name, arguments)
    case RawOther(r) => item == Other(r)
  }

  lemma {:induction false} ParsedSame(items: seq<RawItem>)
    ensures Unreadable !in items ==> |Parsed(items)| == |items| && forall j :: 0 <= j < |items| ==> Same(items[j], Parsed(items)[j])
    decreases |items|
  {
    if items != [] {
      var x, before := items[|items| - 1], items[..|items| - 1];
      assert items == before + [x];
      ParsedSame(before);
    }
  }

  /** Reasoning items are kept in order, each unchanged. */
  lemma {:induction false} ReasoningAt(items: seq<RawItem>, k: nat)
    requires k < |items|
    ensures items[k].Reasoning? ==> |ReasoningItems(items[..k])| < |ReasoningItems(items)|
                                    && ReasoningItems(items)[|ReasoningItems(items[..k])|] == Other(items[k].raw)
    ensures |ReasoningItems(items[..k + 1])| == |ReasoningItems(items[..k])| + if items[k].Reasoning? then 1 else 0
    decreases |items|
  {
    assert items[..k + 1][..k] == items[..k];
    if k < |items| - 1 {
      var before := items[..|items| - 1];
      ReasoningAt(before, k);
      assert before[..k] == items[..k];
    } else {
      assert items[..k + 1] == items;
    }
  }

  lemma {:induction false} Counted(messages: seq<Chat>, n: nat, t: string)
    requires n <= |messages|
    ensures RecordedCount(messages, n, t) > 0 <==> exists k :: 0 <= k < n && messages[k].call == t
  {
    if n > 0 { Counted(messages, n - 1, t); }
  }

  lemma {:induction false} ResultHasNoCalls(messages: seq<Chat>, k: nat)
    requires Paired(messages) && 0 < k < |messages| && k <= |messages[0].calls|
    ensures messages[k].calls == []
  {
    assert messages[1 + (k - 1)].call == messages[0].calls[k - 1].id;
  }

  /** In a paired conversation every call has a recorded result. */
  lemma {:induction false} PairedAnswered(messages: seq<Chat>, k: nat, j: nat)
    requires Paired(messages) && k < |messages| && j < |messages[k].calls|
    ensures exists i :: k < i < |messages| && messages[i].call == messages[k].calls[j].id
    decreases |messages|
  {
    var n := |messages[0].calls|;
    if k == 0 {
      assert messages[1 + j].call == messages[0].calls[j].id;
    } else if k <= n {
      ResultHasNoCalls(messages, k);
      assert false;
    } else {
      var rest := messages[1 + n..];
      PairedAnswered(rest, k - (1 + n), j);
      var i :| k - (1 + n) < i < |rest| && rest[i].call == rest[k - (1 + n)].calls[j].id;
      assert messages[1 + n + i].call == messages[k].calls[j].id;
    }
  }

  /** Every call in the input built from a rebuilt history has a result. */
  lemma {:induction false} EveryCallAnswered(messages: seq<Chat>, decode: Decode, input: seq<Item>, t: string)
    requires t != "" && Paired(messages) && exists c, o :: Built(messages, |messages|, decode, input, c, o)
    ensures CallCount(input, t) <= 1
    ensures CallCount(input, t) == 1 ==> OutputCount(input, t) >= 1
    ensures t !in RecordedIds(messages) ==> OutputCount(input, t) == CallCount(input, t)
  {
    hide *;
    InputSound(messages, decode, input, t);
    if t in AllCalls(messages, |messages|, decode) {
      CallOrigin(messages, |messages|, decode, t);
    }
    if t in AllNative(messages, |messages|, decode) {
      NativeAnnounced(messages, |messages|, decode, t);
    }
  }

  lemma {:induction false} NativeAnnounced(messages: seq<Chat>, n: nat, decode: Decode, t: string)
    requires n <= |messages| && t in AllNative(messages, n, decode)
    ensures t in AllCalls(messages, n, decode)
  {
    if t in NativeIds(messages[n - 1], decode) {
      WholeOrNone(messages[n - 1].calls, decode);
    } else {
      NativeAnnounced(messages, n - 1, decode, t);
    }
  }

  lemma {:induction false} CallOrigin(messages: seq<Chat>, n: nat, decode: Decode, t: string)
    requires n <= |messages| && t in AllCalls(messages, n, decode) && Paired(messages)
    ensures t in AllNative(messages, n, decode) || t in RecordedIds(messages)
  {
    var m := messages[n - 1];
    if t in TurnIds(m, decode) {
      if !ProviderOutput(m.calls, decode).1 {
        var j :| 0 <= j < |m.calls| && m.calls[j].id == t;
        PairedAnswered(messages, n - 1, j);
        var i :| n - 1 < i < |messages| && messages[i].call == t;
        assert messages[i].call in RecordedIds(messages);
      }
    } else {
      CallOrigin(messages, n - 1, decode, t);
    }
  }

  /** The native batch of a turn, if there is a whole one, holds all its stored calls. */
  predicate Covered(m: Chat, decode: Decode) { StoredIds(m.calls) <= TurnIds(m, decode) }

  /** With such turns no result stands before its call, or without one. */
  lemma {:induction false} CoveredOrdered(messages: seq<Chat>, decode: Decode)
    requires Paired(messages) && forall k :: 0 <= k < |messages| ==> Covered(messages[k], decode)
    ensures Announced(messages, |messages|, decode)
  {
    forall k | 0 <= k < |messages| && messages[k].call != "" ensures messages[k].call in AllCalls(messages, k + 1, decode) {
      CalledBefore(messages, k, decode);
    }
  }

  lemma {:induction false} CalledBefore(messages: seq<Chat>, k: nat, decode: Decode)
    requires Paired(messages) && k < |messages| && messages[k].call != "" && forall i :: 0 <= i < k ==> Covered(messages[i], decode)
    ensures messages[k].call in AllCalls(messages, k + 1, decode)
  {
    hide *;
    var i, j := PairedCall(messages, k);
    CoveredCall(messages, i, j, decode);
    AllCallsGrow(messages, i + 1, k + 1, decode);
  }

  lemma {:induction false} CoveredCall(messages: seq<Chat>, i: nat, j: nat, decode: Decode)
    requires i < |messages| && j < |messages[i].calls| && Covered(messages[i], decode)
    ensures messages[i].calls[j].id in AllCalls(messages, i + 1, decode)
  {
    hide ProviderOutput;
    assert messages[i].calls[j].id in StoredIds(messages[i].calls);
    hide StoredIds, TurnIds;
  }

  lemma {:induction false} AllCallsGrow(messages: seq<Chat>, a: nat, b: nat, decode: Decode)
    requires a <= b <= |messages|
    ensures AllCalls(messages, a, decode) <= AllCalls(messages, b, decode)
    decreases b
  {
    if a < b { AllCallsGrow(messages, a, b - 1, decode); }
  }

  /** The turn and call a result answers. */
  lemma {:induction false} PairedCall(messages: seq<Chat>, k: nat) returns (i: nat, j: nat)
    requires Paired(messages) && k < |messages| && messages[k].call != ""
    ensures i < k && j < |messages[i].calls| && messages[i].calls[j].id == messages[k].call
    decreases |messages|
  {
    var n := |messages[0].calls|;
    if k <= n {
      i, j := 0, k - 1;
      assert messages[1 + j].call == messages[0].calls[j].id;
    } else {
      i, j := PairedCall(messages[1 + n..], k - (1 + n));
      i := 1 + n + i;
    }
  }

  // ---- Two rounds that share a millisecond ----

  /** A row of the message table: creation time in milliseconds, and the message. */
  datatype Row = Row(createdAt: nat, message: Message)

  predicate Smaller(a: string, b: string) {
    b != [] && (a == [] || a[0] < b[0] || (a[0] == b[0] && Smaller(a[1..], b[1..])))
  }

  /** The table is read by creation time, then by id. */
  predicate Before(l: Row, r: Row) {
    l.createdAt < r.createdAt || (l.createdAt == r.createdAt && Smaller(l.message.id, r.message.id))
  }

  function Said(id: string, content: Text): Message { Message(id, Assistant, content, [], "run", "") }

  function Result(id: string, content: Text, call: Call): Message { Message(id, Tool, content, [], "run", call.id) }

  /** Two rounds of one run as they are written: the assistant message, then the
      result of its one call. The second assistant message begins in the millisecond
      in which the first result is written; ids are random. */
  function Written(a: Call, b: Call, texts: (Text, Text, Text, Text)): seq<Row> {
    [Row(1, Said("1", texts.0)), Row(2, Result("3", texts.1, a)), Row(2, Said("2", texts.2)), Row(3, Result("4", texts.3, b))]
  }

  /** The same rows as they are read. */
  function Table(a: Call, b: Call, texts: (Text, Text, Text, Text)): seq<Row> {
    [Row(1, Said("1", texts.0)), Row(2, Said("2", texts.2)), Row(2, Result("3", texts.1, a)), Row(3, Result("4", texts.3, b))]
  }

  function History(a: Call, b: Call, texts: (Text, Text, Text, Text)): seq<Message> {
    [Said("1", texts.0), Said("2", texts.2), Result("3", texts.1, a), Result("4", texts.3, b)]
  }

  function TwoCalls(a: Call, b: Call): Store { map[("run", a.id) := a, ("run", b.id) := b] }

  lemma {:induction false} ReadInOrder(a: Call, b: Call, texts: (Text, Text, Text, Text))
    ensures multiset(Table(a, b, texts)) == multiset(Written(a, b, texts))
    ensures forall i :: 0 <= i < 4 ==> Table(a, b, texts)[i].message == History(a, b, texts)[i]
    ensures forall i, j :: 0 <= i < j < 4 ==> Written(a, b, texts)[i].createdAt <= Written(a, b, texts)[j].createdAt
    ensures var rows := Table(a, b, texts);
            forall i, j :: 0 <= i < j < 4 ==> Before(rows[i], rows[j])
  {
    MiddleSwapped(Row(1, Said("1", texts.0)), Row(2, Result("3", texts.1, a)), Row(2, Said("2", texts.2)), Row(3, Result("4", texts.3, b)));
    TimesGrow(Written(a, b, texts));
    TableSorted(a, b, texts);
    hide Before;
  }

  lemma {:induction false} TableSorted(a: Call, b: Call, texts: (Text, Text, Text, Text))
    ensures var rows := Table(a, b, texts);
            forall i, j :: 0 <= i < j < 4 ==> Before(rows[i], rows[j])
  {
    var rows := Table(a, b, texts);
    assert Smaller("2", "3");
    assert Before(rows[0], rows[1]) && Before(rows[0], rows[2]) && Before(rows[0], rows[3]);
    assert Before(rows[1], rows[2]) && Before(rows[1], rows[3]) && Before(rows[2], rows[3]);
    hide Before;
  }

  lemma MiddleSwapped<T>(a: T, b: T, c: T, d: T)
    ensures multiset([a, c, b, d]) == multiset([a, b, c, d])
  {
  }

  lemma TimesGrow(rows: seq<Row>)
    requires |rows| == 4 && rows[0].createdAt <= rows[1].createdAt <= rows[2].createdAt <= rows[3].createdAt
    ensures forall i, j :: 0 <= i < j < 4 ==> rows[i].createdAt <= rows[j].createdAt
  {
  }

  /** The conversation rebuilt from it: both results form one group, and the second
      assistant message becomes the turn of both calls. */
  function TwoBatches(a: Call, b: Call, texts: (Text, Text, Text, Text), redact: Redact): seq<Chat> {
    [Chat("1", Assistant, texts.0, [], [], "", true), Chat("2", Assistant, texts.2, [], [a, b], "", true),
     Chat("3", Tool, redact(texts.1), [], [], a.id, true), Chat("4", Tool, redact(texts.3), [], [], b.id, true)]
  }

  lemma {:induction false} RebuiltTwoBatches(a: Call, b: Call, texts: (Text, Text, Text, Text), redact: Redact)
    requires a.id != "" && b.id != "" && a.id != b.id
    ensures Rest(TwoCalls(a, b), History(a, b, texts), 0, "run", redact) == TwoBatches(a, b, texts, redact)
  {
    hide *;
    var store, h := TwoCalls(a, b), History(a, b, texts);
    GroupOfBoth(a, b, texts, redact);
    RestPlain(store, h, 0, "run", redact);
    RestBatch(store, h, 2, true, "run", redact);
    RestOfBoth(a, b, texts, redact);
  }

  lemma {:induction false} GroupOfBoth(a: Call, b: Call, texts: (Text, Text, Text, Text), redact: Redact)
    requires a.id != "" && b.id != "" && a.id != b.id
    ensures var store, h := TwoCalls(a, b), History(a, b, texts);
            && |h| == 4 && h[0].call == "" && !Leads(h, 0) && h[2].call != "" && Leads(h, 1) && GroupEnd(h, 2) == 4
            && h[2..4] == [h[2], h[3]]
            && CallOf(store, h[2]) == a && CallOf(store, h[3]) == b && Rest(store, h, 4, "run", redact) == []
  {
    var h := History(a, b, texts);
    assert GroupEnd(h, 3) == 4;
  }

  lemma {:induction false} RestOfBoth(a: Call, b: Call, texts: (Text, Text, Text, Text), redact: Redact)
    requires a.id != "" && b.id != "" && a.id != b.id
    ensures var store, h := TwoCalls(a, b), History(a, b, texts);
            [PlainChat(h[0], "run")] + (([CallChat(store, Some(h[1]), [h[2], h[3]], "run")] + Replies(store, [h[2], h[3]], "run", redact)) + [])
            == TwoBatches(a, b, texts, redact)
  {
    var store, h := TwoCalls(a, b), History(a, b, texts);
    assert CallOf(store, h[2]) == a && CallOf(store, h[3]) == b;
    assert Calls(store, [h[2], h[3]]) == [a, b];
    assert Replies(store, [h[2], h[3]], "run", redact) == [ResultChat(store, h[2], "run", redact), ResultChat(store, h[3], "run", redact)];
  }

  /** Without covering batches it can happen: when the results of two batches became
      one group, the first batch's native items speak for both, and the second result
      has no call. */
  lemma {:induction false} SplitBatchOrphans(decode: Decode, a: Call, b: Call, texts: (Text, Text, Text, Text),
                                             redact: Redact, input: seq<Item>)
    requires a.id != "" && b.id != "" && a.id != b.id
    requires decode(a) == Some(Native(true, [RawCall(a.id, a.name, a.arguments)]))
    requires var messages := Rest(TwoCalls(a, b), History(a, b, texts), 0, "run", redact);
             exists c, o :: Built(messages, |messages|, decode, input, c, o)
    ensures Paired(Rest(TwoCalls(a, b), History(a, b, texts), 0, "run", redact))
    ensures CallCount(input, b.id) == 0 && OutputCount(input, b.id) == 1 && !Ordered(input)
  {
    hide *;
    RebuiltPaired(TwoCalls(a, b), History(a, b, texts), "run", redact);
    RebuiltTwoBatches(a, b, texts, redact);
    var messages := TwoBatches(a, b, texts, redact);
    TwoBatchesAre(decode, a, b, texts, redact);
    InputSound(messages, decode, input, b.id);
  }

  lemma {:induction false} TwoBatchesAre(decode: Decode, a: Call, b: Call, texts: (Text, Text, Text, Text),
                                         redact: Redact)
    requires a.id != "" && b.id != "" && a.id != b.id
    requires decode(a) == Some(Native(true, [RawCall(a.id, a.name, a.arguments)]))
    ensures var messages := TwoBatches(a, b, texts, redact);
            && |messages| == 4 && b.id !in AllCalls(messages, |messages|, decode) && b.id in RecordedIds(messages)
            && RecordedCount(messages, |messages|, b.id) == 1 && !Announced(messages, |messages|, decode)
  {
    var messages := TwoBatches(a, b, texts, redact);
    TwoBatchesCalls(decode, a, b, texts, redact);
    assert messages[3].call == b.id && messages[3].call in RecordedIds(messages);
    assert RecordedCount(messages, 4, b.id) == 1 by {
      assert RecordedCount(messages, 0, b.id) == RecordedCount(messages, 1, b.id) == 0;
      assert RecordedCount(messages, 2, b.id) == RecordedCount(messages, 3, b.id) == 0;
    }
    hide AllCalls;
    assert !Announced(messages, 4, decode);
  }

  lemma {:induction false} TwoBatchesCalls(decode: Decode, a: Call, b: Call, texts: (Text, Text, Text, Text),
                                           redact: Redact)
    requires decode(a) == Some(Native(true, [RawCall(a.id, a.name, a.arguments)]))
    ensures AllCalls(TwoBatches(a, b, texts, redact), 4, decode) == {a.id}
  {
    var messages, x := TwoBatches(a, b, texts, redact), FunctionCall(a.id, a.name, a.arguments);
    var raws := [RawCall(a.id, a.name, a.arguments)];
    assert raws[..0] == [] && Parsed(raws[..0]) == [];
    assert Parsed(raws) == [x];
    assert raws[0] != Unreadable;
    assert ProviderOutput([a, b], decode) == ([x], true);
    assert [x][0].id in Ids([x]);
    assert Ids([x]) == {a.id};
    assert TurnIds(messages[1], decode) == {a.id};
    assert StoredIds([]) == {} && ProviderOutput([], decode) == ([], false);
    assert TurnIds(messages[0], decode) == {} && TurnIds(messages[2], decode) == {}
           && TurnIds(messages[3], decode) == {};
    hide TurnIds, ProviderOutput, Parsed, Ids;
    assert AllCalls(messages, 0, decode) == {};
    assert AllCalls(messages, 1, decode) == {};
    assert AllCalls(messages, 2, decode) == {a.id};
    assert AllCalls(messages, 3, decode) == {a.id};
  }

  /** From the stored rows to the request: rebuilding succeeds, and the request holds
      the second result without any call. */
  method ReplayTwoRounds(decode: Decode, a: Call, b: Call, texts: (Text, Text, Text, Text), redact: Redact,
                         system: Text, includeMessageIDs: bool)
    returns (input: Option<seq<Item>>)
    requires a.id != "" && b.id != "" && a.id != b.id
    requires decode(a) == Some(Native(true, [RawCall(a.id, a.name, a.arguments)]))
    ensures input.Some? <==> |a.arguments| + |a.provider| + |b.arguments| + |b.provider| <= MAX_PRIVATE_BYTES
    ensures input.Some? ==> CallCount(input.value, b.id) == 0 && OutputCount(input.value, b.id) == 1 && !Ordered(input.value)
  {
    hide *;
    TwoCallsAvailable(a, b, texts);
    var messages := CompletionMessages(History(a, b, texts), TwoCalls(a, b), "run", redact);
    if messages.Err? {
      return None;
    }
    var items := BuildInput(messages.value, decode, system, includeMessageIDs);
    SplitBatchOrphans(decode, a, b, texts, redact, items);
    return Some(items);
  }

  lemma {:induction false} TwoCallsAvailable(a: Call, b: Call, texts: (Text, Text, Text, Text))
    requires a.id != "" && b.id != "" && a.id != b.id
    ensures Available(TwoCalls(a, b), History(a, b, texts))
            <==> |a.arguments| + |a.provider| + |b.arguments| + |b.provider| <= MAX_PRIVATE_BYTES
  {
    var store, h := TwoCalls(a, b), History(a, b, texts);
    assert CallOf(store, h[2]) == a && CallOf(store, h[3]) == b;
    assert h[..0] == [] && h[..4] == h;
    PrivateBytesSnoc(store, h, 0);
    PrivateBytesSnoc(store, h, 1);
    PrivateBytesSnoc(store, h, 2);
    PrivateBytesSnoc(store, h, 3);
    hide PrivateBytes;
    assert PrivateBytes(store, h[..0]) == 0;
  }
}
