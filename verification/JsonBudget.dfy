/** The size of an encoding before it is made (internal/ai/json_budget.go),
    against the encoding itself: HTML-escaped JSON as encoding/json writes it. */
module JsonBudget {
  import opened Prelude

  const MAX_DEPTH := 64
  const MAX_NODES := 16384

  datatype FieldKind = Plain | Hidden | Broken

  datatype Field = Field(kind: FieldKind, name: Text, omitEmpty: bool, value: Value)

  /** The payload shapes. A nil pointer, interface, slice, map or raw message is
      Null; numbers carry the digits both sides print; a raw message carries what its
      admission costs, if the decoder accepts it. */
  datatype Value =
    | Null
    | Pointer(target: Value)
    | String(text: Text)
    | Bool(flag: bool)
    | Number(digits: Text, zero: bool)
    | JsonNumber(digits: Text)
    | Bytes(data: Text)
    | List(items: seq<Value>)
    | Map(entries: seq<Entry>)
    | Struct(fields: seq<Field>)
    | Raw(raw: Text, tokens: nat, accepted: bool)
    | Unsupported

  datatype Entry = Entry(key: Text, value: Value)

  // ---- Strings ----

  predicate Cont(s: Text, i: nat) { i < |s| && 0x80 <= s[i] < 0xC0 }

  /** The width of the UTF-8 sequence a text starts with, 0 if it is malformed. */
  function Width(s: Text): (w: nat)
    requires s != []
    ensures w <= 4 && w <= |s|
    ensures s[0] < 0x80 <==> w == 1
  {
    var c := s[0];
    var second := if |s| > 1 then s[1] else 0;
    if c < 0x80 then 1
    else if 0xC2 <= c < 0xE0 && Cont(s, 1) then 2
    else if 0xE0 <= c < 0xF0 && Cont(s, 1) && Cont(s, 2) && (c == 0xE0 ==> second >= 0xA0) && (c == 0xED ==> second < 0xA0) then 3
    else if 0xF0 <= c < 0xF5 && Cont(s, 1) && Cont(s, 2) && Cont(s, 3) && (c == 0xF0 ==> second >= 0x90) && (c == 0xF4 ==> second < 0x90) then 4
    else 0
  }

  predicate ValidText(s: Text)
    decreases |s|
  {
    s == [] || (Width(s) > 0 && ValidText(s[Width(s)..]))
  }

  predicate Short(c: Byte) { c == 34 || c == 92 || c == 8 || c == 12 || c == 10 || c == 13 || c == 9 }

  function ShortLetter(c: Byte): Byte {
    if c == 8 then 98 else if c == 12 then 102 else if c == 10 then 110 else if c == 13 then 114 else if c == 9 then 116 else c
  }

  function Hex(d: nat): Byte
    requires d < 16
  {
    if d < 10 then 48 + d else 87 + d
  }

  /** One character as the encoder writes it. */
  function Escape(u: Text): Text
    requires u != []
  {
    if Short(u[0]) then [92, ShortLetter(u[0])]
    else if u[0] < 0x20 || u[0] == 60 || u[0] == 62 || u[0] == 38 then [92, 117, 48, 48, Hex(u[0] / 16), Hex(u[0] % 16)]
    else if u == [0xE2, 0x80, 0xA8] || u == [0xE2, 0x80, 0xA9] then [92, 117, 50, 48, 50, u[2] - 112]
    else u
  }

  function Escaped(s: Text): Text
    decreases |s|
  {
    if s == [] || Width(s) == 0 then [] else Escape(s[..Width(s)]) + Escaped(s[Width(s)..])
  }

  function Quoted(s: Text): Text { [34] + Escaped(s) + [34] }

  // ---- The encoding ----

  function Digit64(d: nat): Byte
    requires d < 64
  {
    if d < 26 then 65 + d else if d < 52 then 71 + d else if d < 62 then d - 4 else if d == 62 then 43 else 47
  }

  /** Base64 with padding (section 4 of RFC 4648). */
  function Base64(s: Text): Text
    decreases |s|
  {
    if s == [] then []
    else if |s| == 1 then [Digit64(s[0] / 4), Digit64(s[0] % 4 * 16), 61, 61]
    else if |s| == 2 then [Digit64(s[0] / 4), Digit64(s[0] % 4 * 16 + s[1] / 16), Digit64(s[1] % 16 * 4), 61]
    else [Digit64(s[0] / 4), Digit64(s[0] % 4 * 16 + s[1] / 16), Digit64(s[1] % 16 * 4 + s[2] / 64), Digit64(s[2] % 64)] + Base64(s[3..])
  }

  predicate Separator(raw: Text) { |raw| >= 3 && raw[0] == 0xE2 && raw[1] == 0x80 && (raw[2] == 0xA8 || raw[2] == 0xA9) }

  predicate Html(c: Byte) { c == 60 || c == 62 || c == 38 }

  predicate Space(c: Byte) { c == 32 || c == 9 || c == 10 || c == 13 }

  /** A raw message is compacted and HTML-escaped: white space outside strings goes. */
  function Compacted(raw: Text, inString: bool, escaped: bool): Text
    decreases |raw|
  {
    if raw == [] then []
    else if Separator(raw) then [92, 117, 50, 48, 50, raw[2] - 112] + Compacted(raw[3..], inString, false)
    else
      var c, rest := raw[0], raw[1..];
      (if !inString && Space(c) then [] else if Html(c) then [92, 117, 48, 48, Hex(c / 16), Hex(c % 16)] else [c])
      + Compacted(rest, if c == 34 && !escaped then !inString else inString, inString && c == 92 && !escaped)
  }

  /** The encoder leaves an omitempty field out when it is false, zero, a nil pointer or
      interface, or an empty string, number, list or map. */
  predicate Omitted(v: Value) {
    || v == Null || v == String([]) || v == Bool(false) || (v.Number? && v.zero) || v == JsonNumber([])
    || v == Bytes([]) || v == List([]) || v == Map([]) || (v.Raw? && |v.raw| == 0)
  }

  /** What the budget takes for empty. */
  predicate Empty(v: Value): (empty: bool)
    ensures empty <==> Omitted(v)
  {
    match v
    case Null => true
    case String(s) => s == []
    case Bool(b) => !b
    case Number(_, zero) => zero
    case JsonNumber(d) => d == []
    case Bytes(d) => d == []
    case List(items) => items == []
    case Map(entries) => entries == []
    case Raw(r, _, _) => r == []
    case _ => false
  }

  predicate Written(f: Field) { f.kind.Plain? && !(f.omitEmpty && Omitted(f.value)) }

  function Comma(first: bool): Text { if first then [] else [44] }

  function WrittenCount(fields: seq<Field>): nat {
    if fields == [] then 0
    else WrittenCount(fields[..|fields| - 1]) + if Written(fields[|fields| - 1]) then 1 else 0
  }

  function Encode(v: Value): Text
    decreases v
  {
    match v
    case Null => [110, 117, 108, 108]
    case Pointer(t) => Encode(t)
    case String(s) => Quoted(s)
    case Bool(b) => if b then [116, 114, 117, 101] else [102, 97, 108, 115, 101]
    case Number(d, _) => d
    case JsonNumber(d) => if d == [] then [48] else d
    case Bytes(d) => [34] + Base64(d) + [34]
    case List(items) => [91] + EncodeItems(items) + [93]
    case Map(entries) => [123] + EncodeEntries(entries) + [125]
    case Struct(fields) => [123] + EncodeFields(fields) + [125]
    case Raw(r, _, _) => Compacted(r, false, false)
    case Unsupported => []
  }

  function EncodeItems(items: seq<Value>): Text
    decreases items
  {
    if items == [] then []
    else EncodeItems(items[..|items| - 1]) + Comma(|items| == 1) + Encode(items[|items| - 1])
  }

  function EncodeEntries(entries: seq<Entry>): Text
    decreases entries
  {
    if entries == [] then []
    else EncodeEntries(entries[..|entries| - 1]) + Comma(|entries| == 1) + Quoted(entries[|entries| - 1].key) + [58] + Encode(entries[|entries| - 1].value)
  }

  function EncodeFields(fields: seq<Field>): Text
    decreases fields
  {
    if fields == [] then []
    else
      var before, f := fields[..|fields| - 1], fields[|fields| - 1];
      if Written(f) then EncodeFields(before) + Comma(WrittenCount(before) == 0) + Quoted(f.name) + [58] + Encode(f.value) else EncodeFields(before)
  }

  // ---- What the budget counts ----

  function HtmlCount(raw: Text): nat {
    if raw == [] then 0 else (if Html(raw[0]) then 1 else 0) + HtmlCount(raw[1..])
  }

  function SeparatorCount(raw: Text): nat {
    if raw == [] then 0 else (if Separator(raw) then 1 else 0) + SeparatorCount(raw[1..])
  }

  function RawSize(raw: Text): nat { |raw| + 5 * HtmlCount(raw) + 3 * SeparatorCount(raw) }

  function Size(v: Value): nat
    decreases v
  {
    match v
    case Null => 4
    case Pointer(t) => Size(t)
    case String(s) => 2 + |Escaped(s)|
    case Bool(b) => if b then 4 else 5
    case Number(d, _) => |d|
    case JsonNumber(d) => |d|
    case Bytes(d) => 2 + (|d| + 2) / 3 * 4
    case List(items) => 2 + Max(0, |items| - 1) + SizeItems(items)
    case Map(entries) => 2 + Max(0, |entries| - 1) + SizeEntries(entries)
    case Struct(fields) => 2 + SizeFields(fields)
    case Raw(r, _, _) => RawSize(r)
    case Unsupported => 0
  }

  function SizeItems(items: seq<Value>): nat
    decreases items
  {
    if items == [] then 0 else SizeItems(items[..|items| - 1]) + Size(items[|items| - 1])
  }

  function SizeEntries(entries: seq<Entry>): nat
    decreases entries
  {
    if entries == [] then 0
    else SizeEntries(entries[..|entries| - 1]) + (2 + |Escaped(entries[|entries| - 1].key)|) + 1 + Size(entries[|entries| - 1].value)
  }

  function SizeFields(fields: seq<Field>): nat
    decreases fields
  {
    if fields == [] then 0
    else
      var before, f := fields[..|fields| - 1], fields[|fields| - 1];
      SizeFields(before) + if Written(f) then 2 + |Escaped(f.name)| + (1 + Min(WrittenCount(before), 1)) + Size(f.value) else 0
  }

  function Nodes(v: Value): nat
    decreases v
  {
    1 + match v
        case Pointer(t) => Nodes(t)
        case List(items) => NodesItems(items)
        case Map(entries) => NodesEntries(entries)
        case Struct(fields) => NodesFields(fields)
        case Raw(_, tokens, _) => tokens
        case _ => 0
  }

  function NodesItems(items: seq<Value>): nat
    decreases items
  {
    if items == [] then 0 else NodesItems(items[..|items| - 1]) + Nodes(items[|items| - 1])
  }

  function NodesEntries(entries: seq<Entry>): nat
    decreases entries
  {
    if entries == [] then 0 else NodesEntries(entries[..|entries| - 1]) + Nodes(entries[|entries| - 1].value)
  }

  function NodesFields(fields: seq<Field>): nat
    decreases fields
  {
    if fields == [] then 0
    else NodesFields(fields[..|fields| - 1]) + if Written(fields[|fields| - 1]) then Nodes(fields[|fields| - 1].value) else 0
  }

  /** Every part is of a supported shape and lies at most `room` levels down. */
  predicate Fine(v: Value, room: int)
    decreases v
  {
    room >= 0 &&
    match v
    case Pointer(t) => Fine(t, room - 1)
    case String(s) => ValidText(s)
    case List(items) => forall k :: 0 <= k < |items| ==> Fine(items[k], room - 1)
    case Map(entries) => forall k :: 0 <= k < |entries| ==> ValidText(entries[k].key) && Fine(entries[k].value, room - 1)
    case Struct(fields) => forall k :: 0 <= k < |fields| ==> FineField(fields[k], room - 1)
    case Raw(_, _, accepted) => accepted
    case Unsupported => false
    case _ => true
  }

  predicate FineField(f: Field, room: int)
    decreases f
  {
    !f.kind.Broken? && (Written(f) ==> ValidText(f.name) && Fine(f.value, room))
  }

  // ---- The walk ----

  lemma {:induction false} EscapedStep(s: Text, i: nat)
    requires i < |s|
    ensures ValidText(s[i..]) <==> Width(s[i..]) > 0 && ValidText(s[i + Width(s[i..])..])
    ensures Width(s[i..]) > 0 ==> Escaped(s[i..]) == Escape(s[i..][..Width(s[i..])]) + Escaped(s[i + Width(s[i..])..])
  {
    var w := Width(s[i..]);
    assert s[i..][w..] == s[i + w..];
  }

  lemma {:induction false} TextEnds(s: Text)
    ensures ValidText(s[|s|..]) && Escaped(s[|s|..]) == []
  {
  }

  /** The cost and the width of the next character, as the code decides them. */
  method Measure(s: Text) returns (size: nat, width: nat)
    requires s != []
    ensures width == Width(s)
    ensures width > 0 ==> size == |Escape(s[..width])|
  {
    var c := s[0];
    size, width := 1, 1;
    if c == 34 || c == 92 || c == 8 || c == 12 || c == 10 || c == 13 || c == 9 {
      size := 2;
    } else if c < 0x20 || c == 60 || c == 62 || c == 38 {
      size := 6;
    } else if c >= 0x80 {
      width := Width(s);
      size := width;
      if width == 3 && (s[..3] == [0xE2, 0x80, 0xA8] || s[..3] == [0xE2, 0x80, 0xA9]) {
        size := 6;
      }
    }
  }

  class JsonSizeBudget {
    var remaining: int
    var nodes: int

    constructor (limit: int, maxNodes: int)
      ensures remaining == limit && nodes == maxNodes
    {
      remaining, nodes := limit, maxNodes;
    }

    method Charge(size: nat) returns (ok: bool)
      modifies this`remaining
      ensures ok <==> size <= old(remaining)
      ensures remaining == if ok then old(remaining) - size else old(remaining)
    {
      if size > remaining {
        return false;
      }
      remaining := remaining - size;
      return true;
    }

    /** A string is charged exactly the length of its quoted, escaped form. */
    method Text(value: Text) returns (ok: bool)
      modifies this`remaining
      ensures ok <==> ValidText(value) && |Quoted(value)| <= old(remaining)
      ensures ok ==> remaining == old(remaining) - |Quoted(value)|
    {
      hide ValidText, Escaped, Escape, Width;
      ok := Charge(2);
      if !ok {
        return;
      }
      var i := 0;
      assert value[0..] == value;
      while i < |value|
        invariant 0 <= i <= |value| && remaining >= 0
        invariant ValidText(value) <==> ValidText(value[i..])
        invariant |Quoted(value)| == old(remaining) - remaining + |Escaped(value[i..])| || !ValidText(value)
        decreases |value| - i
      {
        EscapedStep(value, i);
        var size, width := Measure(value[i..]);
        if width == 0 {
          return false;
        }
        ok := Charge(size);
        if !ok {
          return;
        }
        i := i + width;
      }
      TextEnds(value);
    }

    /** A raw message is reserved in full, and more for each escape it may need. */
    method RawMessage(raw: Text, tokens: nat, accepted: bool) returns (ok: bool)
      modifies this
      requires nodes >= 0
      ensures ok <==> accepted && RawSize(raw) <= old(remaining) && tokens <= old(nodes)
      ensures ok ==> remaining == old(remaining) - RawSize(raw) && nodes == old(nodes) - tokens
    {
      hide HtmlCount, SeparatorCount, Separator;
      ok := Charge(|raw|);
      if !ok {
        return;
      }
      nodes := nodes - tokens;
      if nodes < 0 || !accepted {
        return false;
      }
      var i := 0;
      assert raw[0..] == raw;
      while i < |raw|
        invariant 0 <= i <= |raw| && remaining >= 0 && nodes == old(nodes) - tokens
        invariant |raw| + 5 * HtmlCount(raw) == old(remaining) - remaining + 5 * HtmlCount(raw[i..])
      {
        CountStep(raw, i);
        if Html(raw[i]) {
          ok := Charge(5);
          if !ok {
            return;
          }
        }
        i := i + 1;
      }
      CountEnds(raw, |raw|);
      i := 0;
      while i + 2 < |raw|
        invariant 0 <= i <= |raw| && remaining >= 0 && nodes == old(nodes) - tokens
        invariant RawSize(raw) == old(remaining) - remaining + 3 * SeparatorCount(raw[i..])
      {
        CountStep(raw, i);
        SeparatorAt(raw, i);
        if raw[i] == 0xE2 && raw[i + 1] == 0x80 && (raw[i + 2] == 0xA8 || raw[i + 2] == 0xA9) {
          ok := Charge(3);
          if !ok {
            return;
          }
        }
        i := i + 1;
      }
      CountEnds(raw, i);
      ok := true;
    }

    /** The walk succeeds exactly on supported values whose size, parts and depth are
        within the budget, and then takes exactly those from it. */
    method Value(v: Value, depth: nat) returns (ok: bool)
      modifies this
      ensures ok <==> Fine(v, MAX_DEPTH - depth) && Size(v) <= old(remaining) && Nodes(v) <= old(nodes)
      ensures ok ==> remaining == old(remaining) - Size(v) && nodes == old(nodes) - Nodes(v)
      decreases v, 1
    {
      NodesPositive(v);
      RoomIs(v, MAX_DEPTH - depth);
      hide Size, Nodes, Fine;
      nodes := nodes - 1;
      if depth > MAX_DEPTH || nodes < 0 {
        return false;
      }
      ok := Content(v, depth);
    }

    /** What is charged beside the node itself. */
    method Content(v: Value, depth: nat) returns (ok: bool)
      requires nodes >= 0 && depth <= MAX_DEPTH
      modifies this
      ensures ok <==> Fine(v, MAX_DEPTH - depth) && Size(v) <= old(remaining) && Nodes(v) - 1 <= old(nodes)
      ensures ok ==> remaining == old(remaining) - Size(v) && nodes == old(nodes) - (Nodes(v) - 1)
      decreases v, 0
    {
      hide SizeItems, SizeEntries, SizeFields, NodesItems, NodesEntries, NodesFields, Escaped, ValidText, FineField, RawSize, Omitted, Empty, Written, WrittenCount, Base64, Encode;
      match v
      case Null => ok := Charge(4);
      case Pointer(target) => ok := Value(target, depth + 1);
      case String(text) =>
        ok := Text(text);
      case Bool(flag) => ok := Charge(if flag then 4 else 5);
      case Number(digits, _) => ok := Charge(|digits|);
      case JsonNumber(digits) => ok := Charge(|digits|);
      case Bytes(data) =>
        if |data| > remaining {
          return false;
        }
        ok := Charge(2 + (|data| + 2) / 3 * 4);
      case List(items) =>
        ok := Charge(2 + Max(0, |items| - 1));
        if ok {
          ok := Items(items, depth);
        }
      case Map(entries) =>
        ok := Charge(2 + Max(0, |entries| - 1));
        if ok {
          ok := Entries(entries, depth);
        }
      case Struct(fields) =>
        ok := Charge(2);
        if ok {
          ok := Fields(fields, depth);
        }
      case Raw(raw, tokens, accepted) => ok := RawMessage(raw, tokens, accepted);
      case Unsupported => ok := false;
    }

    method Items(items: seq<Value>, depth: nat) returns (ok: bool)
      requires remaining >= 0 && nodes >= 0
      modifies this
      ensures ok <==> (forall k :: 0 <= k < |items| ==> Fine(items[k], MAX_DEPTH - depth - 1))
                      && SizeItems(items) <= old(remaining) && NodesItems(items) <= old(nodes)
      ensures ok ==> remaining == old(remaining) - SizeItems(items) && nodes == old(nodes) - NodesItems(items)
      decreases items, 0
    {
      hide Size, Nodes, Fine;
      for i := 0 to |items|
        invariant remaining >= 0 && nodes >= 0
        invariant remaining == old(remaining) - SizeItems(items[..i]) && nodes == old(nodes) - NodesItems(items[..i])
        invariant forall k :: 0 <= k < i ==> Fine(items[k], MAX_DEPTH - depth - 1)
      {
        ItemsStep(items, i);
        ok := Value(items[i], depth + 1);
        if !ok {
          return;
        }
      }
      assert items[..|items|] == items;
      ok := true;
    }

    method Entries(entries: seq<Entry>, depth: nat) returns (ok: bool)
      requires remaining >= 0 && nodes >= 0
      modifies this
      ensures ok <==> (forall k :: 0 <= k < |entries| ==> ValidText(entries[k].key) && Fine(entries[k].value, MAX_DEPTH - depth - 1))
                      && SizeEntries(entries) <= old(remaining) && NodesEntries(entries) <= old(nodes)
      ensures ok ==> remaining == old(remaining) - SizeEntries(entries) && nodes == old(nodes) - NodesEntries(entries)
      decreases entries, 0
    {
      hide Size, Nodes, Fine, ValidText, Escaped;
      for i := 0 to |entries|
        invariant remaining >= 0 && nodes >= 0
        invariant remaining == old(remaining) - SizeEntries(entries[..i])
                  && nodes == old(nodes) - NodesEntries(entries[..i])
        invariant forall k :: 0 <= k < i ==> ValidText(entries[k].key) && Fine(entries[k].value, MAX_DEPTH - depth - 1)
      {
        EntriesStep(entries, i);
        ok := Text(entries[i].key);
        if !ok {
          return;
        }
        ok := Charge(1);
        if !ok {
          return;
        }
        ok := Value(entries[i].value, depth + 1);
        if !ok {
          return;
        }
      }
      assert entries[..|entries|] == entries;
      ok := true;
    }

    method Fields(fields: seq<Field>, depth: nat) returns (ok: bool)
      requires remaining >= 0 && nodes >= 0
      modifies this
      ensures ok <==> (forall k :: 0 <= k < |fields| ==> FineField(fields[k], MAX_DEPTH - depth - 1))
                      && SizeFields(fields) <= old(remaining) && NodesFields(fields) <= old(nodes)
      ensures ok ==> remaining == old(remaining) - SizeFields(fields) && nodes == old(nodes) - NodesFields(fields)
      decreases fields, 0
    {
      hide Size, Nodes, Fine, ValidText, Escaped, FineField, Written;
      var written := 0;
      for i := 0 to |fields|
        invariant remaining >= 0 && nodes >= 0 && written == WrittenCount(fields[..i])
        invariant remaining == old(remaining) - SizeFields(fields[..i])
                  && nodes == old(nodes) - NodesFields(fields[..i])
        invariant forall k :: 0 <= k < i ==> FineField(fields[k], MAX_DEPTH - depth - 1)
      {
        var field := fields[i];
        FieldsStep(fields, i, MAX_DEPTH - depth - 1);
        if field.kind.Broken? {
          return false;
        }
        if field.kind.Hidden? || (field.omitEmpty && Empty(field.value)) {
          continue;
        }
        ok := Text(field.name);
        if !ok {
          return;
        }
        ok := Charge(1 + Min(written, 1));
        if !ok {
          return;
        }
        written := written + 1;
        ok := Value(field.value, depth + 1);
        if !ok {
          return;
        }
      }
      assert fields[..|fields|] == fields;
      ok := true;
    }
  }

  lemma RoomIs(v: Value, room: int)
    ensures Fine(v, room) ==> room >= 0
  {
    hide FineField, ValidText;
  }

  lemma NodesPositive(v: Value)
    ensures Nodes(v) >= 1
  {
    hide NodesItems, NodesEntries, NodesFields;
  }

  lemma {:induction false} CountStep(raw: Text, i: nat)
    requires i < |raw|
    ensures HtmlCount(raw[i..]) == (if Html(raw[i]) then 1 else 0) + HtmlCount(raw[i + 1..])
    ensures SeparatorCount(raw[i..]) == (if Separator(raw[i..]) then 1 else 0) + SeparatorCount(raw[i + 1..])
  {
    assert raw[i..][1..] == raw[i + 1..];
  }

  lemma SeparatorAt(raw: Text, i: nat)
    requires i + 2 < |raw|
    ensures Separator(raw[i..]) <==> raw[i] == 0xE2 && raw[i + 1] == 0x80 && (raw[i + 2] == 0xA8 || raw[i + 2] == 0xA9)
  {
  }

  /** The last two bytes hold no separator. */
  lemma {:induction false} CountEnds(raw: Text, i: nat)
    requires i <= |raw| <= i + 2
    ensures SeparatorCount(raw[i..]) == 0 && (i == |raw| ==> HtmlCount(raw[i..]) == 0)
    ensures raw[0..] == raw
    decreases |raw| - i
  {
    if i < |raw| {
      CountStep(raw, i);
      CountEnds(raw, i + 1);
    }
  }

  lemma {:induction false} ItemsStep(items: seq<Value>, i: nat)
    requires i < |items|
    ensures SizeItems(items[..i + 1]) == SizeItems(items[..i]) + Size(items[i]) <= SizeItems(items)
    ensures NodesItems(items[..i + 1]) == NodesItems(items[..i]) + Nodes(items[i]) <= NodesItems(items)
    decreases |items| - i
  {
    hide Size, Nodes;
    assert items[..i + 1][..i] == items[..i];
    if i + 1 < |items| { ItemsStep(items, i + 1); } else { assert items[..i + 1] == items; }
  }

  lemma {:induction false} EntriesStep(entries: seq<Entry>, i: nat)
    requires i < |entries|
    ensures SizeEntries(entries[..i + 1]) == SizeEntries(entries[..i]) + |Quoted(entries[i].key)| + 1 + Size(entries[i].value) <= SizeEntries(entries)
    ensures NodesEntries(entries[..i + 1]) == NodesEntries(entries[..i]) + Nodes(entries[i].value) <= NodesEntries(entries)
    decreases |entries| - i
  {
    hide Size, Nodes, Escaped;
    assert entries[..i + 1][..i] == entries[..i];
    if i + 1 < |entries| { EntriesStep(entries, i + 1); } else { assert entries[..i + 1] == entries; }
  }

  lemma {:induction false} FieldsStep(fields: seq<Field>, i: nat, room: int)
    requires i < |fields|
    ensures WrittenCount(fields[..i + 1]) == WrittenCount(fields[..i]) + if Written(fields[i]) then 1 else 0
    ensures SizeFields(fields[..i + 1]) == SizeFields(fields[..i])
              + (if Written(fields[i]) then |Quoted(fields[i].name)| + (1 + Min(WrittenCount(fields[..i]), 1)) + Size(fields[i].value) else 0)
            <= SizeFields(fields)
    ensures NodesFields(fields[..i + 1]) == NodesFields(fields[..i]) + (if Written(fields[i]) then Nodes(fields[i].value) else 0) <= NodesFields(fields)
    ensures FineField(fields[i], room)
            <==> !fields[i].kind.Broken? && (Written(fields[i]) ==> ValidText(fields[i].name) && Fine(fields[i].value, room))
    ensures Written(fields[i]) <==> fields[i].kind.Plain? && !(fields[i].omitEmpty && Empty(fields[i].value))
    decreases |fields| - i
  {
    hide Size, Nodes, Escaped, Fine, Written, ValidText, Empty;
    assert fields[..i + 1][..i] == fields[..i];
    WrittenDef(fields[i]);
    if i + 1 < |fields| { FieldsStep(fields, i + 1, room); } else { assert fields[..i + 1] == fields; }
  }

  lemma WrittenDef(f: Field)
    ensures Written(f) <==> f.kind.Plain? && !(f.omitEmpty && Empty(f.value))
  {
  }

  // ---- Exactness ----

  function EmptyNumbers(v: Value): nat
    decreases v
  {
    match v
    case JsonNumber(d) => if d == [] then 1 else 0
    case Pointer(t) => EmptyNumbers(t)
    case List(items) => EmptyItems(items)
    case Map(entries) => EmptyEntries(entries)
    case Struct(fields) => EmptyFields(fields)
    case _ => 0
  }

  function EmptyItems(items: seq<Value>): nat
    decreases items
  {
    if items == [] then 0 else EmptyItems(items[..|items| - 1]) + EmptyNumbers(items[|items| - 1])
  }

  function EmptyEntries(entries: seq<Entry>): nat
    decreases entries
  {
    if entries == [] then 0 else EmptyEntries(entries[..|entries| - 1]) + EmptyNumbers(entries[|entries| - 1].value)
  }

  function EmptyFields(fields: seq<Field>): nat
    decreases fields
  {
    if fields == [] then 0
    else EmptyFields(fields[..|fields| - 1]) + if Written(fields[|fields| - 1]) then EmptyNumbers(fields[|fields| - 1].value) else 0
  }

  predicate NoRaw(v: Value)
    decreases v
  {
    match v
    case Raw(_, _, _) => false
    case Unsupported => false
    case Pointer(t) => NoRaw(t)
    case List(items) => NoRawItems(items)
    case Map(entries) => NoRawEntries(entries)
    case Struct(fields) => NoRawFields(fields)
    case _ => true
  }

  predicate NoRawItems(items: seq<Value>)
    decreases items
  {
    items == [] || (NoRawItems(items[..|items| - 1]) && NoRaw(items[|items| - 1]))
  }

  predicate NoRawEntries(entries: seq<Entry>)
    decreases entries
  {
    entries == [] || (NoRawEntries(entries[..|entries| - 1]) && NoRaw(entries[|entries| - 1].value))
  }

  predicate NoRawFields(fields: seq<Field>)
    decreases fields
  {
    fields == [] || (NoRawFields(fields[..|fields| - 1]) && (Written(fields[|fields| - 1]) ==> NoRaw(fields[|fields| - 1].value)))
  }

  lemma {:induction false} Base64Length(s: Text)
    ensures |Base64(s)| == (|s| + 2) / 3 * 4
    decreases |s|
  {
    if |s| >= 3 { Base64Length(s[3..]); }
  }

  /** A raw message never needs more than was reserved for it. */
  lemma {:induction false} RawBound(raw: Text, inString: bool, escaped: bool)
    ensures |Compacted(raw, inString, escaped)| <= RawSize(raw)
    decreases |raw|
  {
    if raw != [] {
      if Separator(raw) {
        SeparatorSkips(raw);
        RawBound(raw[3..], inString, false);
      } else {
        var c := raw[0];
        RawBound(raw[1..], if c == 34 && !escaped then !inString else inString, inString && c == 92 && !escaped);
      }
    }
  }

  lemma {:induction false} SeparatorSkips(raw: Text)
    requires Separator(raw)
    ensures RawSize(raw) == 6 + RawSize(raw[3..])
  {
    assert raw[1..][1..] == raw[2..] && raw[2..][1..] == raw[3..];
    assert !Separator(raw[1..]) && !Separator(raw[2..]);
    assert HtmlCount(raw) == HtmlCount(raw[1..]) == HtmlCount(raw[2..]) == HtmlCount(raw[3..]);
    assert SeparatorCount(raw) == 1 + SeparatorCount(raw[1..]);
    assert SeparatorCount(raw[1..]) == SeparatorCount(raw[2..]) == SeparatorCount(raw[3..]);
  }

  /** The bytes charged are the length of the encoding, but for empty json.Number
      values, which the encoder writes as 0; a raw message can only be overcharged. */
  lemma {:induction false} SizeIsLength(v: Value)
    ensures |Encode(v)| <= Size(v) + EmptyNumbers(v)
    ensures NoRaw(v) ==> |Encode(v)| == Size(v) + EmptyNumbers(v)
    decreases v
  {
    match v
    case Pointer(t) => SizeIsLength(t);
    case Bytes(d) => Base64Length(d);
    case List(items) => SizeItemsIsLength(items);
    case Map(entries) => SizeEntriesIsLength(entries);
    case Struct(fields) => SizeFieldsIsLength(fields);
    case Raw(raw, _, _) => RawBound(raw, false, false);
    case _ =>
  }

  lemma {:induction false} SizeItemsIsLength(items: seq<Value>)
    ensures |EncodeItems(items)| <= Max(0, |items| - 1) + SizeItems(items) + EmptyItems(items)
    ensures NoRawItems(items) ==> |EncodeItems(items)| == Max(0, |items| - 1) + SizeItems(items) + EmptyItems(items)
    decreases items
  {
    if items != [] {
      SizeItemsIsLength(items[..|items| - 1]);
      SizeIsLength(items[|items| - 1]);
    }
  }

  lemma {:induction false} SizeEntriesIsLength(entries: seq<Entry>)
    ensures |EncodeEntries(entries)| <= Max(0, |entries| - 1) + SizeEntries(entries) + EmptyEntries(entries)
    ensures NoRawEntries(entries)
            ==> |EncodeEntries(entries)| == Max(0, |entries| - 1) + SizeEntries(entries) + EmptyEntries(entries)
    decreases entries
  {
    if entries != [] {
      SizeEntriesIsLength(entries[..|entries| - 1]);
      SizeIsLength(entries[|entries| - 1].value);
    }
  }

  lemma {:induction false} SizeFieldsIsLength(fields: seq<Field>)
    ensures |EncodeFields(fields)| <= SizeFields(fields) + EmptyFields(fields)
    ensures NoRawFields(fields) ==> |EncodeFields(fields)| == SizeFields(fields) + EmptyFields(fields)
    decreases fields
  {
    if fields != [] {
      SizeFieldsIsLength(fields[..|fields| - 1]);
      SizeIsLength(fields[|fields| - 1].value);
    }
  }

  /** Sizing a value without raw messages succeeds exactly when its encoding fits the
      limit, it has at most MAX_NODES parts and is not too deep. */
  method ProviderJSONSize(v: Value, limit: int) returns (r: Option<int>)
    ensures r.Some? <==> Fine(v, 64) && Size(v) <= limit && Nodes(v) <= 16384
    ensures r.Some? ==> r.value == Size(v) && |Encode(v)| <= r.value + EmptyNumbers(v)
    ensures NoRaw(v) && EmptyNumbers(v) == 0 ==>
              && (r.Some? <==> Fine(v, 64) && |Encode(v)| <= limit && Nodes(v) <= 16384)
              && (r.Some? ==> r.value == |Encode(v)|)
  {
    assert MAX_DEPTH == 64 && MAX_NODES == 16384;
    hide *;
    SizeIsLength(v);
    var budget := new JsonSizeBudget(limit, MAX_NODES);
    var ok := budget.Value(v, 0);
    return if ok then Some(limit - budget.remaining) else None;
  }

  /** The one shape whose length is not charged in full. */
  lemma EmptyNumberUndercharged()
    ensures Size(JsonNumber([])) == 0 && |Encode(JsonNumber([]))| == 1 && NoRaw(JsonNumber([]))
  {
  }

  // ---- The string form is a faithful one ----

  function UnHex(c: Byte): nat { if 48 <= c <= 57 then c - 48 else if 97 <= c <= 102 then c - 87 else if 65 <= c <= 70 then c - 55 else 0 }

  function Utf8(code: nat): Text
    requires code < 0x10000
  {
    if code < 0x80 then [code]
    else if code < 0x800 then [0xC0 + code / 64, 0x80 + code % 64]
    else [0xE0 + code / 4096, 0x80 + code / 64 % 64, 0x80 + code % 64]
  }

  function LetterByte(c: Byte): Byte {
    if c == 98 then 8 else if c == 102 then 12 else if c == 110 then 10 else if c == 114 then 13 else if c == 116 then 9 else c
  }

  /** Reading a string body back (section 7 of RFC 8259), without surrogate pairs. */
  function Unescaped(t: Text): Text
    decreases |t|
  {
    if t == [] then []
    else if t[0] != 92 then [t[0]] + Unescaped(t[1..])
    else if |t| >= 6 && t[1] == 117 then Utf8(UnHex(t[2]) * 4096 + UnHex(t[3]) * 256 + UnHex(t[4]) * 16 + UnHex(t[5])) + Unescaped(t[6..])
    else if |t| >= 2 then [LetterByte(t[1])] + Unescaped(t[2..])
    else []
  }

  lemma {:induction false} UnescapedPlain(u: Text, rest: Text)
    requires forall k :: 0 <= k < |u| ==> u[k] != 92
    ensures Unescaped(u + rest) == u + Unescaped(rest)
    decreases |u|
  {
    if u == [] {
      EmptyLeft(rest);
      EmptyLeft(Unescaped(rest));
    } else {
      var t := u + rest;
      assert t[0] == u[0] && t[1..] == u[1..] + rest;
      UnescapedPlain(u[1..], rest);
      Uncons(u);
      Assoc([u[0]], u[1..], Unescaped(rest));
    }
  }

  lemma HexPair(c: Byte)
    ensures UnHex(Hex(c / 16)) * 16 + UnHex(Hex(c % 16)) == c
  {
  }

  lemma {:induction false} UnescapedOne(u: Text, rest: Text)
    requires u != [] && Width(u) == |u|
    ensures Unescaped(Escape(u) + rest) == u + Unescaped(rest)
  {
    var t := Escape(u) + rest;
    if Short(u[0]) {
      assert t[0] == 92 && t[1] == ShortLetter(u[0]) && t[2..] == rest;
      assert u == [u[0]];
    } else if u[0] < 0x20 || u[0] == 60 || u[0] == 62 || u[0] == 38 {
      HexPair(u[0]);
      assert t[0] == 92 && t[1] == 117 && t[2] == 48 && t[3] == 48 && t[6..] == rest;
      assert u == [u[0]];
    } else if u == [0xE2, 0x80, 0xA8] || u == [0xE2, 0x80, 0xA9] {
      assert t[0] == 92 && t[1] == 117 && t[2] == 50 && t[3] == 48 && t[4] == 50 && t[5] == u[2] - 112
             && t[6..] == rest;
      var code: nat := if u[2] == 0xA8 then 0x2028 else 0x2029;
      assert Utf8(code) == u;
    } else {
      WidthHigh(u);
      UnescapedPlain(u, rest);
    }
  }

  /** Only single bytes are below 0x80. */
  lemma WidthHigh(u: Text)
    requires u != [] && Width(u) == |u| && !Short(u[0])
    ensures forall k :: 0 <= k < |u| ==> u[k] != 92
  {
  }

  /** A valid text is read back from its escaped form, so that form loses nothing. */
  lemma {:induction false} EscapedRoundTrip(s: Text)
    requires ValidText(s)
    ensures Unescaped(Escaped(s)) == s
    decreases |s|
  {
    if s != [] {
      var w := Width(s);
      EscapedRoundTrip(s[w..]);
      WidthTake(s);
      UnescapedOne(s[..w], Escaped(s[w..]));
      Split(s, w);
    }
  }

  lemma WidthTake(s: Text)
    requires s != [] && Width(s) > 0
    ensures Width(s[..Width(s)]) == Width(s)
  {
  }
}
