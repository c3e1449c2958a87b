/** The credential projection of a whole text (internal/ai/encoded_credential.go) without
    budgets and without streaming: what it makes of a text, what that costs, and what room
    it needs. The streaming filter yields exactly this, and accepts exactly the texts whose
    cost and room are within its limits. */
module WholeProjection {
  import opened Prelude
  import opened CredentialMatcher
  import opened EncodedCredential

  // ---- The segments of a text ----

  /** A byte outside string tokens, or one string token. */
  datatype Segment = Plain(b: Byte) | Quoted(raw: Text, complete: bool)

  /** The segments of `value`, where `token` has been read already. */
  function Segments(token: Text, escaped: bool, value: Text): seq<Segment>
    decreases |value|
  {
    if value == [] then (if token == [] then [] else [Quoted(token, false)])
    else
      var b, rest := value[0], value[1..];
      if token == [] then
        if b == QUOTE then Segments([QUOTE], false, rest) else [Plain(b)] + Segments([], false, rest)
      else if escaped then Segments(token + [b], false, rest)
      else if b == BACKSLASH then Segments(token + [b], true, rest)
      else if b == QUOTE then [Quoted(token + [b], true)] + Segments([], false, rest)
      else Segments(token + [b], false, rest)
  }

  function Plains(text: Text): seq<Segment> { if text == [] then [] else [Plain(text[0])] + Plains(text[1..]) }

  lemma {:induction false} SkipPlains(value: Text, start: nat, index: nat)
    requires start <= index <= |value|
    requires forall i :: start <= i < index ==> value[i] != QUOTE
    ensures Segments([], false, value[start..]) == Plains(value[start..index]) + Segments([], false, value[index..])
    decreases index - start
  {
    if start < index {
      assert value[start..][1..] == value[start + 1..];
      assert value[start..index][1..] == value[start + 1..index];
      SkipPlains(value, start + 1, index);
      Assoc([Plain(value[start])], Plains(value[start + 1..index]), Segments([], false, value[index..]));
    } else {
      assert value[start..index] == [];
      EmptyLeft(Segments([], false, value[index..]));
    }
  }

  /** One byte inside a token. */
  lemma InTokenStep(value: Text, index: nat, at: nat, escaped: bool)
    requires index < at < |value|
    ensures Segments(value[index..at], escaped, value[at..])
            == if escaped then Segments(value[index..at + 1], false, value[at + 1..])
               else if value[at] == BACKSLASH then Segments(value[index..at + 1], true, value[at + 1..])
               else if value[at] == QUOTE then [Quoted(value[index..at + 1], true)] + Segments([], false, value[at + 1..])
               else Segments(value[index..at + 1], false, value[at + 1..])
  {
    var token, rest := value[index..at], value[at..];
    assert |token| == at - index && rest != [] && rest[0] == value[at];
    assert rest[1..] == value[at + 1..];
    assert token + [rest[0]] == value[index..at + 1];
  }

  lemma LastToken(token: Text, escaped: bool)
    requires token != []
    ensures Segments(token, escaped, []) == [Quoted(token, false)] + Segments([], false, [])
  {
  }

  lemma {:induction false} InToken(value: Text, index: nat, at: nat, escaped: bool)
    requires index < at <= |value|
    ensures var (end, complete) := TokenEnd(value, at, escaped);
            Segments(value[index..at], escaped, value[at..]) == [Quoted(value[index..end], complete)] + Segments([], false, value[end..])
    decreases |value| - at
  {
    hide Segments;
    if at < |value| {
      InTokenStep(value, index, at, escaped);
      if escaped {
        InToken(value, index, at + 1, false);
      } else if value[at] == BACKSLASH {
        InToken(value, index, at + 1, true);
      } else if value[at] != QUOTE {
        InToken(value, index, at + 1, false);
      }
    } else {
      assert value[at..] == [];
      LastToken(value[index..at], escaped);
    }
  }

  /** The scanning loops find the same tokens. */
  lemma NextSegments(value: Text, start: nat, index: nat)
    requires start <= index < |value| && value[index] == QUOTE
    requires forall i :: start <= i < index ==> value[i] != QUOTE
    ensures var (end, complete) := TokenEnd(value, index + 1, false);
            Segments([], false, value[start..])
            == Plains(value[start..index]) + ([Quoted(value[index..end], complete)] + Segments([], false, value[end..]))
  {
    SkipPlains(value, start, index);
    assert value[index..][1..] == value[index + 1..];
    assert value[index..index + 1] == [QUOTE];
    assert Segments([], false, value[index..]) == Segments([QUOTE], false, value[index + 1..]);
    InToken(value, index, index + 1, false);
  }

  // ---- What the segments cost ----

  /** Bytes to process, number of texts, the longest text and its deepest nesting. */
  datatype Load = Load(work: nat, charges: nat, largest: nat, deepest: nat)

  const NOTHING := Load(0, 0, 0, 0)

  function Both(a: Load, b: Load): Load {
    Load(a.work + b.work, a.charges + b.charges, if a.largest < b.largest then b.largest else a.largest,
         if a.deepest < b.deepest then b.deepest else a.deepest)
  }

  /** A token without escapes counts as two texts, the second empty; one that decodes
      counts with its decoded text. Below depth 32 nothing needs to be counted. */
  function TokenLoad(c: Codec, raw: Text, complete: bool, depth: nat): Load
    decreases 34 - depth, 0
  {
    var own := Load(|raw|, 1, |raw|, depth);
    if depth > 32 then own
    else if BACKSLASH !in raw then Both(own, Load(0, 1, 0, depth + 1))
    else match c.decode(Source(raw, complete))
      case None => own
      case Some(value) => Both(own, LayerLoad(c, value, depth + 1))
  }

  /** A decoded text counts with its own string tokens. */
  function LayerLoad(c: Codec, value: Text, depth: nat): Load
    decreases 34 - depth, |value| + 2
  {
    var own := Load(|value|, 1, |value|, depth);
    if depth > 32 then own else Both(own, SegmentsLoad(c, Segments([], false, value), depth + 1))
  }

  function SegmentLoad(c: Codec, s: Segment, depth: nat): Load
    decreases 34 - depth, 1
  {
    match s
    case Plain(_) => NOTHING
    case Quoted(raw, complete) => TokenLoad(c, raw, complete, depth)
  }

  function SegmentsLoad(c: Codec, segments: seq<Segment>, depth: nat): Load
    decreases 34 - depth, |segments| + 2
  {
    if segments == [] then NOTHING else Both(SegmentLoad(c, segments[0], depth), SegmentsLoad(c, segments[1..], depth))
  }

  /** The load fits the budget: 32 levels, the nodes left, the size limit, and 64 MiB. */
  predicate Affords(b: Budget, l: Load) {
    l.charges == 0 || (l.deepest <= 32 && l.charges <= b.nodes && l.largest <= b.limit && b.work + l.work <= 64 * 1024 * 1024)
  }

  function Pay(b: Budget, l: Load): Budget { b.(work := b.work + l.work, nodes := b.nodes - l.charges) }

  predicate Proper(l: Load) { l.charges == 0 ==> l == NOTHING }

  lemma AffordsBoth(b: Budget, l: Load, m: Load)
    requires Proper(l) && Proper(m)
    ensures Affords(b, Both(l, m)) <==> Affords(b, l) && Affords(Pay(b, l), m)
    ensures Pay(b, Both(l, m)) == Pay(Pay(b, l), m) && Proper(Both(l, m))
  {
    BothIs(l, m);
    PayIs(b, l);
    hide Both, Pay;
    if l.charges == 0 {
      assert Affords(b, l) && Pay(b, l) == b;
    } else if m.charges == 0 {
      assert Affords(Pay(b, l), m);
    }
    PayBoth(b, l, m);
  }

  lemma BothIs(l: Load, m: Load)
    ensures var t := Both(l, m);
            && t.work == l.work + m.work && t.charges == l.charges + m.charges
            && l.largest <= t.largest && m.largest <= t.largest && (t.largest == l.largest || t.largest == m.largest)
            && l.deepest <= t.deepest && m.deepest <= t.deepest && (t.deepest == l.deepest || t.deepest == m.deepest)
    ensures m == NOTHING ==> Both(l, m) == l
    ensures l == NOTHING ==> Both(l, m) == m
    ensures Proper(l) && Proper(m) ==> Proper(Both(l, m))
  {
  }

  lemma PayIs(b: Budget, l: Load)
    ensures var p := Pay(b, l); p.work == b.work + l.work && p.nodes == b.nodes - l.charges && p.limit == b.limit
    ensures l == NOTHING ==> Pay(b, l) == b
  {
  }

  lemma PayBoth(b: Budget, l: Load, m: Load)
    ensures Pay(b, Both(l, m)) == Pay(Pay(b, l), m)
  {
  }

  lemma ChargeIs(b: Budget, size: nat, depth: nat)
    ensures var (b', ok) := Charge(b, size, depth); var l := Load(size, 1, size, depth);
            && (ok <==> Affords(b, l)) && (ok ==> b' == Pay(b, l)) && Proper(l)
  {
  }

  lemma {:induction false} LayerProper(c: Codec, value: Text, depth: nat)
    ensures Proper(LayerLoad(c, value, depth))
  {
    hide SegmentsLoad, Segments;
  }

  lemma {:induction false} SegmentProper(c: Codec, s: Segment, depth: nat)
    ensures Proper(SegmentLoad(c, s, depth))
  {
    hide LayerLoad;
  }

  lemma NothingProper()
    ensures Proper(NOTHING)
  {
  }

  lemma {:induction false} SegmentsProper(c: Codec, segments: seq<Segment>, depth: nat)
    ensures Proper(SegmentsLoad(c, segments, depth))
    decreases |segments|
  {
    hide SegmentLoad, Both, Proper;
    if segments != [] {
      SegmentProper(c, segments[0], depth);
      SegmentsProper(c, segments[1..], depth);
      BothIs(SegmentLoad(c, segments[0], depth), SegmentsLoad(c, segments[1..], depth));
    } else {
      NothingProper();
    }
  }

  // ---- What becomes of them ----

  /** Literal replacement of a text. */
  ghost function Replaced(text: Text, key: Text): Projection
    requires key != []
  {
    Projection(ReplaceAll(text, key, Replacement(key)), Occurs(text, key))
  }

  /** A token whose decoded text is changed is encoded again, in the shape it had. */
  ghost function TokenText(c: Codec, raw: Text, complete: bool, key: Text, depth: nat): Projection
    requires key != []
    decreases 34 - depth, 0
  {
    if depth > 32 then Projection(raw, false)
    else if BACKSLASH !in raw || c.decode(Source(raw, complete)).None? then Replaced(raw, key)
    else
      var p := LayerText(c, c.decode(Source(raw, complete)).value, key, depth + 1);
      if !p.changed || c.encode(p.text).None? then Projection(raw, false)
      else
        var last := if complete then [QUOTE] else if Trailing(raw, complete) then [BACKSLASH] else [];
        Projection([QUOTE] + c.encode(p.text).value + last, true)
  }

  /** A decoded text: its string tokens first, then the whole as literal text. */
  ghost function LayerText(c: Codec, value: Text, key: Text, depth: nat): Projection
    requires key != []
    decreases 34 - depth, |value| + 2
  {
    if depth > 32 then Projection(value, false)
    else
      var p := SegmentsText(c, Segments([], false, value), key, depth + 1);
      Projection(Replaced(p.text, key).text, p.changed || Occurs(p.text, key))
  }

  ghost function SegmentText(c: Codec, s: Segment, key: Text, depth: nat): Projection
    requires key != []
    decreases 34 - depth, 1
  {
    match s
    case Plain(b) => Projection([b], false)
    case Quoted(raw, complete) => TokenText(c, raw, complete, key, depth)
  }

  ghost function SegmentsText(c: Codec, segments: seq<Segment>, key: Text, depth: nat): Projection
    requires key != []
    decreases 34 - depth, |segments| + 2
  {
    if segments == [] then Projection([], false)
    else
      var first, rest := SegmentText(c, segments[0], key, depth), SegmentsText(c, segments[1..], key, depth);
      Projection(first.text + rest.text, first.changed || rest.changed)
  }

  // ---- The room this needs ----

  ghost predicate ReplacedFits(text: Text, key: Text, limit: nat)
    requires key != []
  {
    Occurs(text, key) ==> |Replaced(text, key).text| <= limit
  }

  /** Each replaced or encoded text is within the limit; a changed text can be encoded. */
  ghost predicate TokenRoom(c: Codec, raw: Text, complete: bool, key: Text, limit: nat, depth: nat)
    requires key != []
    decreases 34 - depth, 0
  {
    if depth > 32 then true
    else if BACKSLASH !in raw || c.decode(Source(raw, complete)).None? then ReplacedFits(raw, key, limit)
    else
      var value := c.decode(Source(raw, complete)).value;
      var p := LayerText(c, value, key, depth + 1);
      LayerRoom(c, value, key, limit, depth + 1) && (p.changed ==> c.encode(p.text).Some? && |c.encode(p.text).value| + 2 <= limit)
  }

  ghost predicate LayerRoom(c: Codec, value: Text, key: Text, limit: nat, depth: nat)
    requires key != []
    decreases 34 - depth, |value| + 2
  {
    depth > 32 || (
      var segments := Segments([], false, value);
      var text := SegmentsText(c, segments, key, depth + 1).text;
      SegmentsRoom(c, segments, key, limit, depth + 1) && |text| <= limit && ReplacedFits(text, key, limit))
  }

  ghost predicate SegmentRoom(c: Codec, s: Segment, key: Text, limit: nat, depth: nat)
    requires key != []
    decreases 34 - depth, 1
  {
    s.Quoted? ==> TokenRoom(c, s.raw, s.complete, key, limit, depth)
  }

  ghost predicate SegmentsRoom(c: Codec, segments: seq<Segment>, key: Text, limit: nat, depth: nat)
    requires key != []
    decreases 34 - depth, |segments| + 2
  {
    segments == [] || (SegmentRoom(c, segments[0], key, limit, depth) && SegmentsRoom(c, segments[1..], key, limit, depth))
  }

  /** One more segment in front. */
  lemma Next(c: Codec, s: Segment, segments: seq<Segment>, key: Text, depth: nat, b: Budget)
    requires key != []
    ensures var all, l, rest := SegmentsLoad(c, [s] + segments, depth), SegmentLoad(c, s, depth), SegmentsLoad(c, segments, depth);
            && (Affords(b, all) <==> Affords(b, l) && Affords(Pay(b, l), rest)) && Pay(b, all) == Pay(Pay(b, l), rest)
            && Pay(b, l).limit == b.limit
    ensures var all, p, rest := SegmentsText(c, [s] + segments, key, depth), SegmentText(c, s, key, depth), SegmentsText(c, segments, key, depth);
            all.text == p.text + rest.text && all.changed == (p.changed || rest.changed)
    ensures SegmentsRoom(c, [s] + segments, key, b.limit, depth)
            <==> SegmentRoom(c, s, key, b.limit, depth) && SegmentsRoom(c, segments, key, b.limit, depth)
  {
    hide SegmentLoad, SegmentText, SegmentRoom, Affords;
    ConsTail(s, segments);
    SegmentProper(c, s, depth);
    SegmentsProper(c, segments, depth);
    AffordsBoth(b, SegmentLoad(c, s, depth), SegmentsLoad(c, segments, depth));
  }

  lemma PlainIs(c: Codec, x: Byte, key: Text, depth: nat, b: Budget)
    requires key != []
    ensures SegmentLoad(c, Plain(x), depth) == NOTHING && SegmentText(c, Plain(x), key, depth) == Projection([x], false)
    ensures SegmentRoom(c, Plain(x), key, b.limit, depth) && Affords(b, NOTHING) && Pay(b, NOTHING) == b
  {
  }

  lemma QuotedIs(c: Codec, raw: Text, complete: bool, key: Text, depth: nat, limit: nat)
    requires key != []
    ensures SegmentLoad(c, Quoted(raw, complete), depth) == TokenLoad(c, raw, complete, depth)
    ensures SegmentText(c, Quoted(raw, complete), key, depth) == TokenText(c, raw, complete, key, depth)
    ensures SegmentRoom(c, Quoted(raw, complete), key, limit, depth) == TokenRoom(c, raw, complete, key, limit, depth)
  {
    hide TokenLoad, TokenText, TokenRoom;
  }

  lemma NoSegments(c: Codec, key: Text, depth: nat, b: Budget)
    requires key != []
    ensures SegmentsLoad(c, [], depth) == NOTHING && SegmentsText(c, [], key, depth) == Projection([], false)
    ensures SegmentsRoom(c, [], key, b.limit, depth) && Affords(b, NOTHING) && Pay(b, NOTHING) == b
  {
  }

  /** Bytes in front of the segments. */
  lemma {:induction false} NextPlains(c: Codec, text: Text, segments: seq<Segment>, key: Text, depth: nat, b: Budget)
    requires key != []
    ensures var all, rest := SegmentsLoad(c, Plains(text) + segments, depth), SegmentsLoad(c, segments, depth);
            (Affords(b, all) <==> Affords(b, rest)) && Pay(b, all) == Pay(b, rest)
    ensures var all, rest := SegmentsText(c, Plains(text) + segments, key, depth), SegmentsText(c, segments, key, depth);
            all.text == text + rest.text && all.changed == rest.changed
    ensures SegmentsRoom(c, Plains(text) + segments, key, b.limit, depth)
            <==> SegmentsRoom(c, segments, key, b.limit, depth)
    decreases |text|
  {
    PlainsDef(text);
    hide *;
    if text == [] {
      EmptyLeft(segments);
      EmptyLeft(SegmentsText(c, segments, key, depth).text);
    } else {
      NextPlains(c, text[1..], segments, key, depth, b);
      Assoc([Plain(text[0])], Plains(text[1..]), segments);
      Next(c, Plain(text[0]), Plains(text[1..]) + segments, key, depth, b);
      PlainIs(c, text[0], key, depth, b);
      Uncons(text);
      Assoc([text[0]], text[1..], SegmentsText(c, segments, key, depth).text);
    }
  }

  lemma PlainsDef(text: Text)
    ensures Plains(text) == if text == [] then [] else [Plain(text[0])] + Plains(text[1..])
  {
  }

  // ---- The projection with budgets ----

  lemma LiteralIs(value: Text, key: Text, limit: nat)
    requires key != []
    ensures var r := Literal(value, key, limit);
            (r.Ok? <==> ReplacedFits(value, key, limit)) && (r.Ok? ==> r.value == Replaced(value, key))
  {
    LiteralExact(value, key, limit);
    FindNone(value, key);
    ReplaceAllDef(value, key, Replacement(key));
    hide Literal, ReplaceAll, Replacement, Occurs, Find;
  }

  lemma ReencodeIs(c: Codec, text: Text, raw: Text, complete: bool, limit: nat)
    ensures var r := Reencode(c, text, raw, complete, limit);
            && (r.Ok? <==> c.encode(text).Some? && |c.encode(text).value| + 2 <= limit)
            && (r.Ok? ==> r.value == [QUOTE] + c.encode(text).value
                                     + if complete then [QUOTE] else if Trailing(raw, complete) then [BACKSLASH] else [])
  {
    if c.encode(text).Some? { EmptyRight([QUOTE] + c.encode(text).value); }
    hide Trailing;
  }

  /** The projection of a token succeeds if and only if its load fits the budget and it
      has room; it pays the load. */
  lemma {:induction false} TokenIs(c: Codec, raw: Text, complete: bool, key: Text, b: Budget, depth: nat)
    requires key != []
    ensures var o, l := Token(c, raw, complete, key, b, depth), TokenLoad(c, raw, complete, depth);
            && (o.result.Ok? <==> Affords(b, l) && TokenRoom(c, raw, complete, key, b.limit, depth))
            && (o.result.Ok? ==> o == Outcome(Pay(b, l), Ok(TokenText(c, raw, complete, key, depth))))
    decreases 34 - depth, 0
  {
    hide *;
    var own := Load(|raw|, 1, |raw|, depth);
    var b1 := Pay(b, own);
    ChargeIs(b, |raw|, depth);
    PayIs(b, own);
    TokenParts(c, raw, complete, key, b, depth);
    LiteralIs(raw, key, b.limit);
    if depth <= 32 && BACKSLASH !in raw {
      ChargeIs(b1, 0, depth + 1);
      AffordsBoth(b, own, Load(0, 1, 0, depth + 1));
    } else if depth <= 32 && c.decode(Source(raw, complete)).Some? {
      var value := c.decode(Source(raw, complete)).value;
      LayerIs(c, value, key, b1, depth + 1);
      LayerProper(c, value, depth + 1);
      AffordsBoth(b, own, LayerLoad(c, value, depth + 1));
      ReencodeIs(c, LayerText(c, value, key, depth + 1).text, raw, complete, b.limit);
    }
    TooDeep(b, own);
  }

  lemma TooDeep(b: Budget, l: Load)
    ensures l.charges > 0 && l.deepest > 32 ==> !Affords(b, l)
  {
  }

  /** The cases of a token. */
  lemma TokenParts(c: Codec, raw: Text, complete: bool, key: Text, b: Budget, depth: nat)
    requires key != []
    ensures var own := Load(|raw|, 1, |raw|, depth);
            var o, l, p := Token(c, raw, complete, key, b, depth), TokenLoad(c, raw, complete, depth), TokenText(c, raw, complete, key, depth);
            var room := TokenRoom(c, raw, complete, key, b.limit, depth);
            var (b1, ok) := Charge(b, |raw|, depth);
            && (!ok ==> o.result.Err?)
            && (depth > 32 ==> l == own)
            && (depth <= 32 ==>
                  if BACKSLASH !in raw then
                    && l == Both(own, Load(0, 1, 0, depth + 1)) && p == Replaced(raw, key)
                    && (room <==> ReplacedFits(raw, key, b.limit))
                    && (ok ==> o == var (b2, ok2) := Charge(b1, 0, depth + 1); if ok2 then Outcome(b2, Literal(raw, key, b.limit)) else Outcome(b2, Err))
                  else match c.decode(Source(raw, complete))
                    case None => l == own && p == Replaced(raw, key) && (room <==> ReplacedFits(raw, key, b.limit))
                                 && (ok ==> o == Outcome(b1, Literal(raw, key, b.limit)))
                    case Some(value) =>
                      var q, inner := LayerText(c, value, key, depth + 1), Layer(c, value, key, b1, depth + 1);
                      && l == Both(own, LayerLoad(c, value, depth + 1))
                      && (room <==> LayerRoom(c, value, key, b.limit, depth + 1) && (q.changed ==> c.encode(q.text).Some? && |c.encode(q.text).value| + 2 <= b.limit))
                      && (!q.changed ==> p == Projection(raw, false))
                      && (q.changed && c.encode(q.text).Some? ==>
                            p == Projection([QUOTE] + c.encode(q.text).value + if complete then [QUOTE] else if Trailing(raw, complete) then [BACKSLASH] else [], true))
                      && (ok ==> o == match inner.result
                              case Err => inner
                              case Ok(d) =>
                                if !d.changed then Outcome(inner.budget, Ok(Projection(raw, false)))
                                else match Reencode(c, d.text, raw, complete, b.limit)
                                  case Err => Outcome(inner.budget, Err)
                                  case Ok(text) => Outcome(inner.budget, Ok(Projection(text, true)))))
  {
    hide LayerLoad, LayerText, LayerRoom, Layer, Charge, Literal, Source, Reencode, Occurs, Replaced, ReplacedFits, Trailing;
  }

  /** The same of a decoded text. */
  lemma {:induction false} LayerIs(c: Codec, value: Text, key: Text, b: Budget, depth: nat)
    requires key != []
    ensures var o, l := Layer(c, value, key, b, depth), LayerLoad(c, value, depth);
            && (o.result.Ok? <==> Affords(b, l) && LayerRoom(c, value, key, b.limit, depth))
            && (o.result.Ok? ==> o == Outcome(Pay(b, l), Ok(LayerText(c, value, key, depth))))
    decreases 34 - depth, |value| + 2
  {
    var own := Load(|value|, 1, |value|, depth);
    var segments := Segments([], false, value);
    ChargeIs(b, |value|, depth);
    PayIs(b, own);
    if depth <= 32 && Affords(b, own) {
      assert value[0..] == value;
      PartsAre(c, value, 0, [], false, key, Pay(b, own), depth);
      EmptyLeft(SegmentsText(c, segments, key, depth + 1).text);
      LiteralIs(SegmentsText(c, segments, key, depth + 1).text, key, b.limit);
    }
    SegmentsProper(c, segments, depth + 1);
    AffordsBoth(b, own, SegmentsLoad(c, segments, depth + 1));
    assert depth > 32 ==> !Affords(b, own);
    hide SegmentsLoad, SegmentsText, SegmentsRoom, Segments, Parts, Charge, Pay, Affords, Both, Literal, Occurs, ReplacedFits;
  }

  lemma {:induction false} PartsAre(c: Codec, value: Text, start: nat, out: Text, changed: bool, key: Text, b: Budget,
                                    depth: nat)
    requires key != [] && start <= |value| && |out| <= b.limit && depth <= 32
    ensures var segments := Segments([], false, value[start..]);
            var o, l, p := Parts(c, value, start, out, changed, key, b, depth), SegmentsLoad(c, segments, depth + 1), SegmentsText(c, segments, key, depth + 1);
            && (o.result.Ok? <==> Affords(b, l) && SegmentsRoom(c, segments, key, b.limit, depth + 1) && |out| + |p.text| <= b.limit)
            && (o.result.Ok? ==> o == Outcome(Pay(b, l), Ok(Projection(out + p.text, changed || p.changed))))
    decreases 34 - depth, |value| - start, 1
  {
    hide *;
    var index := IndexQuote(value, start);
    PartsIs(c, value, start, out, changed, key, b, depth);
    if index < 0 {
      OnlyPlains(c, value, start, key, depth + 1, b);
    } else {
      var (end, complete) := TokenEnd(value, index + 1, false);
      var raw, before := value[index..end], value[start..index];
      NextAre(c, value, start, index, key, b, depth);
      TokenIs(c, raw, complete, key, b, depth + 1);
      var l, p := TokenLoad(c, raw, complete, depth + 1), TokenText(c, raw, complete, key, depth + 1);
      var tail := SegmentsText(c, Segments([], false, value[end..]), key, depth + 1);
      Regroup(out, before, p.text, tail.text);
      if Affords(b, l) && TokenRoom(c, raw, complete, key, b.limit, depth + 1) && |out| + |before| + |p.text| <= b.limit {
        PartsAre(c, value, end, (out + before) + p.text, changed || p.changed, key, Pay(b, l), depth);
      }
    }
  }

  lemma Regroup(a: Text, b: Text, c: Text, d: Text)
    ensures ((a + b) + c) + d == a + (b + (c + d))
    ensures |(a + b) + c| == |a| + |b| + |c| && |b + (c + d)| == |b| + |c| + |d|
  {
  }

  lemma OnlyPlains(c: Codec, value: Text, start: nat, key: Text, depth: nat, b: Budget)
    requires key != [] && start <= |value| && forall i :: start <= i < |value| ==> value[i] != QUOTE
    ensures var segments := Segments([], false, value[start..]);
            && Affords(b, SegmentsLoad(c, segments, depth)) && Pay(b, SegmentsLoad(c, segments, depth)) == b
            && SegmentsRoom(c, segments, key, b.limit, depth)
            && SegmentsText(c, segments, key, depth) == Projection(value[start..], false)
  {
    hide *;
    SkipPlains(value, start, |value|);
    AtEnd(value, start);
    NextPlains(c, value[start..], [], key, depth, b);
    NoSegments(c, key, depth, b);
    EmptyRight(value[start..]);
  }

  lemma AtEnd(value: Text, start: nat)
    requires start <= |value|
    ensures Segments([], false, value[|value|..]) == [] && value[start..|value|] == value[start..]
  {
  }

  /** The segments up to the end of the next token. */
  lemma NextAre(c: Codec, value: Text, start: nat, index: nat, key: Text, b: Budget, depth: nat)
    requires key != [] && start <= index < |value| && value[index] == QUOTE && depth <= 32
    requires forall i :: start <= i < index ==> value[i] != QUOTE
    ensures var (end, complete) := TokenEnd(value, index + 1, false);
            var raw := value[index..end];
            var segments, tail := Segments([], false, value[start..]), Segments([], false, value[end..]);
            var all, l, rest := SegmentsLoad(c, segments, depth + 1), TokenLoad(c, raw, complete, depth + 1), SegmentsLoad(c, tail, depth + 1);
            var text, p, q := SegmentsText(c, segments, key, depth + 1), TokenText(c, raw, complete, key, depth + 1), SegmentsText(c, tail, key, depth + 1);
            && (Affords(b, all) <==> Affords(b, l) && Affords(Pay(b, l), rest)) && Pay(b, all) == Pay(Pay(b, l), rest)
            && Pay(b, l).limit == b.limit
            && text.text == value[start..index] + (p.text + q.text) && text.changed == (p.changed || q.changed)
            && (SegmentsRoom(c, segments, key, b.limit, depth + 1)
                <==> TokenRoom(c, raw, complete, key, b.limit, depth + 1) && SegmentsRoom(c, tail, key, b.limit, depth + 1))
  {
    hide *;
    var (end, complete) := TokenEnd(value, index + 1, false);
    var raw, tail := value[index..end], Segments([], false, value[end..]);
    NextSegments(value, start, index);
    NextPlains(c, value[start..index], [Quoted(raw, complete)] + tail, key, depth + 1, b);
    Next(c, Quoted(raw, complete), tail, key, depth + 1, b);
    QuotedIs(c, raw, complete, key, depth + 1, b.limit);
  }

  /** The scanning loop at one of its rounds. */
  lemma PartsIs(c: Codec, value: Text, start: nat, out: Text, changed: bool, key: Text, b: Budget, depth: nat)
    requires key != [] && start <= |value| && |out| <= b.limit && depth <= 32
    ensures var o := Parts(c, value, start, out, changed, key, b, depth);
            var index := IndexQuote(value, start);
            if index < 0 then
              && (o.result.Ok? <==> |out| + |value[start..]| <= b.limit)
              && (o.result.Ok? ==> o == Outcome(b, Ok(Projection(out + value[start..], changed))))
            else
              var (end, complete) := TokenEnd(value, index + 1, false);
              var before, token := value[start..index], Token(c, value[index..end], complete, key, b, depth + 1);
              if |out| + |before| > b.limit || token.result.Err? || |out| + |before| + |token.result.value.text| > b.limit then o.result.Err?
              else o == Parts(c, value, end, (out + before) + token.result.value.text, changed || token.result.value.changed, key, token.budget, depth)
  {
    hide *;
    PartsEnd(c, value, out, changed, key, b, depth);
    PartsEnd(c, value, out + value[start..], changed, key, b, depth);
    if start < |value| {
      PartsDef(c, value, start, out, changed, key, b, depth);
      PieceIs(c, value, start, out, key, b, depth);
    } else {
      assert value[start..] == [];
      EmptyRight(out);
    }
  }

  lemma PartsEnd(c: Codec, value: Text, out: Text, changed: bool, key: Text, b: Budget, depth: nat)
    requires key != [] && depth <= 32
    ensures Parts(c, value, |value|, out, changed, key, b, depth) == Outcome(b, Ok(Projection(out, changed)))
  {
  }

  lemma PartsDef(c: Codec, value: Text, start: nat, out: Text, changed: bool, key: Text, b: Budget, depth: nat)
    requires key != [] && start < |value| && depth <= 32
    ensures var (piece, end) := Piece(c, value, start, out, key, b, depth);
            Parts(c, value, start, out, changed, key, b, depth)
            == match piece.result
               case Err => piece
               case Ok(p) => Parts(c, value, end, p.text, changed || p.changed, key, piece.budget, depth)
  {
    hide Piece;
  }

  lemma PieceIs(c: Codec, value: Text, start: nat, out: Text, key: Text, b: Budget, depth: nat)
    requires key != [] && start < |value| && |out| <= b.limit && depth <= 32
    ensures var (piece, next) := Piece(c, value, start, out, key, b, depth);
            var index := IndexQuote(value, start);
            if index < 0 then
              && (piece.result.Ok? <==> |out| + |value[start..]| <= b.limit)
              && (piece.result.Ok? ==> next == |value| && piece == Outcome(b, Ok(Projection(out + value[start..], false))))
            else
              var (end, complete) := TokenEnd(value, index + 1, false);
              var before, token := value[start..index], Token(c, value[index..end], complete, key, b, depth + 1);
              if |out| + |before| > b.limit || token.result.Err? || |out| + |before| + |token.result.value.text| > b.limit then piece.result.Err?
              else next == end && piece == Outcome(token.budget, Ok(Projection((out + before) + token.result.value.text, token.result.value.changed)))
  {
    hide Token, IndexQuote, TokenEnd;
  }

  // ---- The stream ----

  /** What the stream still has to make of the token it reads and the text to come. */
  ghost function Pending(c: Codec, key: Text, s: State, value: Text): Projection
    requires key != []
  {
    SegmentsText(c, Segments(s.token, s.escaped, value), key, 0)
  }

  function Due(c: Codec, s: State, value: Text): Load { SegmentsLoad(c, Segments(s.token, s.escaped, value), 0) }

  ghost predicate Room(c: Codec, key: Text, s: State, value: Text)
    requires key != []
  {
    SegmentsRoom(c, Segments(s.token, s.escaped, value), key, s.budget.limit, 0)
  }

  ghost function Matcher(c: Codec, key: Text, s: State, value: Text): Scanned
    requires s.q < |key|
  {
    Scan(key, Replacement(key), s.q, Pending(c, key, s, value).text)
  }

  /** The costs, the room and the whole output are within the limits. */
  ghost predicate Admits(c: Codec, key: Text, s: State, value: Text)
    requires s.q < |key|
  {
    && Affords(s.budget, Due(c, s, value)) && Room(c, key, s, value)
    && s.output + |Matcher(c, key, s, value).out| + Matcher(c, key, s, value).matched <= s.budget.limit
  }

  /** The output to come and the mark it leaves. */
  ghost predicate Yields(c: Codec, key: Text, s: State, value: Text, out: Text, last: State)
    requires s.q < |key|
  {
    var m := Matcher(c, key, s, value);
    && m.matched < |key| && out == m.out + key[..m.matched]
    && last.redacted == (s.redacted || Pending(c, key, s, value).changed || m.hit)
    && last.budget == Pay(s.budget, Due(c, s, value))
  }

  /** Text and cost of a segment that leaves the tokenizer: `s'` has paid and matched it. */
  ghost predicate Passes(c: Codec, key: Text, s: State, x: Segment, s': State, out: Text)
    requires s.q < |key| && s'.q < |key|
  {
    var p, l := SegmentText(c, x, key, 0), SegmentLoad(c, x, 0);
    var m := Scan(key, Replacement(key), s.q, p.text);
    && Affords(s.budget, l) && SegmentRoom(c, x, key, s.budget.limit, 0)
    && s'.budget == Pay(s.budget, l) && s'.token == [] && s'.q == m.matched && out == m.out
    && s'.output == s.output + |m.out| && s'.redacted == (s.redacted || p.changed || m.hit)
  }

  /** It cannot pass. */
  ghost predicate Fails(c: Codec, key: Text, s: State, x: Segment)
    requires s.q < |key|
  {
    var p, l := SegmentText(c, x, key, 0), SegmentLoad(c, x, 0);
    !Affords(s.budget, l) || !SegmentRoom(c, x, key, s.budget.limit, 0)
    || s.output + |Scan(key, Replacement(key), s.q, p.text).out| > s.budget.limit
  }

  lemma PlainPasses(c: Codec, key: Text, s: State, b: Byte)
    requires s.q < |key| && s.token == []
    ensures var r := Emit(key, s, [b]);
            (r.Refused? ==> Fails(c, key, s, Plain(b))) && (r.Done? ==> Passes(c, key, s, Plain(b), r.state, r.out) && r.state.escaped == s.escaped)
  {
    hide Affords, Pay, Scan, Replacement;
    PlainIs(c, b, key, 0, s.budget);
    EmitDef(key, s, [b]);
    hide Emit, SegmentText, SegmentLoad, SegmentRoom;
  }

  lemma ClosedPasses(c: Codec, key: Text, s: State, complete: bool)
    requires s.q < |key|
    ensures var r, x := Closed(c, key, s, complete), Quoted(s.token, complete);
            (r.Refused? ==> Fails(c, key, s, x)) && (r.Done? ==> Passes(c, key, s, x, r.state, r.out) && r.state.escaped == s.escaped)
  {
    TokenIs(c, s.token, complete, key, s.budget, 0);
    QuotedIs(c, s.token, complete, key, 0, s.budget.limit);
    var l, p := TokenLoad(c, s.token, complete, 0), TokenText(c, s.token, complete, key, 0);
    PayIs(s.budget, l);
    var after := s.(token := [], budget := Pay(s.budget, l), redacted := s.redacted || p.changed);
    EmitDef(key, after, p.text);
    hide Token, TokenLoad, TokenText, TokenRoom, SegmentLoad, SegmentText, SegmentRoom, Affords, Pay, Emit, Scan, Replacement;
  }

  /** With one segment passed, the rest decides; with one that fails, nothing helps. */
  lemma SegmentStep(c: Codec, key: Text, s: State, x: Segment, s': State, out: Text, rest: Text, value: Text)
    requires s.q < |key| && s'.q < |key|
    requires Segments(s.token, s.escaped, value) == [x] + Segments([], false, rest)
    ensures Fails(c, key, s, x) ==> !Admits(c, key, s, value)
    ensures Passes(c, key, s, x, s', out) && Segments([], s'.escaped, rest) == Segments([], false, rest) ==>
              && s'.budget.limit == s.budget.limit
              && (Admits(c, key, s, value) <==> Admits(c, key, s', rest))
              && forall more, last :: Yields(c, key, s', rest, more, last) ==> Yields(c, key, s, value, out + more, last)
  {
    hide Segments, SegmentsText, SegmentsLoad, SegmentsRoom, SegmentText, SegmentLoad, SegmentRoom, Affords, Pay, Scan, Replacement;
    var segments := Segments([], false, rest);
    Next(c, x, segments, key, 0, s.budget);
    var p, q := SegmentText(c, x, key, 0), SegmentsText(c, segments, key, 0);
    ScanSplit(key, Replacement(key), s.q, p.text, q.text);
    var m := Scan(key, Replacement(key), s.q, p.text);
    var n := Scan(key, Replacement(key), m.matched, q.text);
    assert |m.out + n.out| == |m.out| + |n.out|;
    Assoc(m.out, n.out, key[..n.matched]);
  }

  /** The segments after one byte. */
  lemma SegmentsStep(token: Text, escaped: bool, b: Byte, rest: Text)
    ensures Segments(token, escaped, [b] + rest)
            == if token == [] then (if b == QUOTE then Segments([QUOTE], false, rest) else [Plain(b)] + Segments([], false, rest))
               else if escaped then Segments(token + [b], false, rest)
               else if b == BACKSLASH then Segments(token + [b], true, rest)
               else if b == QUOTE then [Quoted(token + [b], true)] + Segments([], false, rest)
               else Segments(token + [b], false, rest)
    ensures Segments([], escaped, rest) == Segments([], false, rest)
  {
    ConsTail(b, rest);
  }

  /** A token that has reached the limit makes its load too large. */
  lemma {:induction false} TooLong(token: Text, escaped: bool, value: Text)
    returns (raw: Text, complete: bool, rest: Text)
    requires token != []
    ensures Segments(token, escaped, value) == [Quoted(raw, complete)] + Segments([], false, rest)
    ensures |raw| >= |token| && (value != [] ==> |raw| > |token|)
    decreases |value|
  {
    if value == [] {
      raw, complete, rest := token, false, [];
      LastToken(token, escaped);
    } else {
      var b := value[0];
      Uncons(value);
      SegmentsStep(token, escaped, b, value[1..]);
      hide Segments;
      if !escaped && b == QUOTE && b != BACKSLASH {
        raw, complete, rest := token + [b], true, value[1..];
      } else {
        raw, complete, rest := TooLong(token + [b], !escaped && b == BACKSLASH, value[1..]);
      }
    }
  }

  lemma LongFails(c: Codec, key: Text, s: State, raw: Text, complete: bool)
    requires s.q < |key| && |raw| > s.budget.limit
    ensures Fails(c, key, s, Quoted(raw, complete))
  {
    var own := Load(|raw|, 1, |raw|, 0);
    QuotedIs(c, raw, complete, key, 0, s.budget.limit);
    if BACKSLASH in raw && c.decode(Source(raw, complete)).Some? {
      BothIs(own, LayerLoad(c, c.decode(Source(raw, complete)).value, 1));
    }
    BothIs(own, Load(0, 1, 0, 1));
    hide LayerLoad, Both, Scan, Replacement, TokenText, TokenRoom, SegmentText, SegmentRoom;
  }

  /** The same segments are pending with a state that differs in its token only. */
  lemma SamePending(c: Codec, key: Text, s: State, value: Text, s': State, rest: Text)
    requires s.q < |key| && s' == s.(token := s'.token, escaped := s'.escaped)
    requires Segments(s.token, s.escaped, value) == Segments(s'.token, s'.escaped, rest)
    ensures Admits(c, key, s, value) <==> Admits(c, key, s', rest)
    ensures forall more, last :: Yields(c, key, s', rest, more, last) ==> Yields(c, key, s, value, more, last)
  {
    hide Segments, SegmentsText, SegmentsLoad, SegmentsRoom, Affords, Pay, Scan, Replacement;
  }

  /** One byte of the stream. */
  lemma StreamStep(c: Codec, key: Text, s: State, b: Byte, rest: Text)
    requires s.q < |key|
    ensures var r := TakeByte(c, key, s, b);
            && (r.Refused? ==> !Admits(c, key, s, [b] + rest))
            && (r.Done? ==> && (Admits(c, key, s, [b] + rest) <==> Admits(c, key, r.state, rest))
                            && forall more, last :: Yields(c, key, r.state, rest, more, last) ==> Yields(c, key, s, [b] + rest, r.out + more, last))
  {
    var r, grown := TakeByte(c, key, s, b), s.(token := s.token + [b]);
    hide *;
    Escapes();
    TakeByteIs(c, key, s, b);
    SegmentsStep(s.token, s.escaped, b, rest);
    if r.Done? { SegmentsStep([], r.state.escaped, b, rest); }
    if s.token == [] && b != QUOTE {
      PlainPasses(c, key, s, b);
      SegmentStep(c, key, s, Plain(b), if r.Done? then r.state else s, if r.Done? then r.out else [], rest, [b] + rest);
    } else if s.token != [] && |s.token| >= s.budget.limit {
      var raw, complete, after := TooLong(s.token, s.escaped, [b] + rest);
      LongFails(c, key, s, raw, complete);
      SegmentStep(c, key, s, Quoted(raw, complete), s, [], after, [b] + rest);
    } else if s.token != [] && !s.escaped && b == QUOTE {
      ClosedPasses(c, key, grown, true);
      GrownPasses(c, key, s, grown, r);
      SegmentStep(c, key, s, Quoted(grown.token, true), if r.Done? then r.state else s, if r.Done? then r.out else [], rest, [b] + rest);
    } else {
      EmptyLeft([b]);
      SamePending(c, key, s, [b] + rest, r.state, rest);
      forall more: Text ensures [] + more == more { EmptyLeft(more); }
    }
  }

  lemma GrownPasses(c: Codec, key: Text, s: State, grown: State, r: Fed)
    requires s.q < |key| && grown == s.(token := grown.token) && (r.Done? ==> r.state.q < |key|)
    ensures var x := Quoted(grown.token, true);
            (Fails(c, key, grown, x) ==> Fails(c, key, s, x))
            && (r.Done? && Passes(c, key, grown, x, r.state, r.out) ==> Passes(c, key, s, x, r.state, r.out))
  {
    hide SegmentText, SegmentLoad, SegmentRoom, Affords, Pay, Scan, Replacement;
  }

  lemma Escapes()
    ensures QUOTE != BACKSLASH
  {
  }

  /** The end of the stream. */
  lemma StreamEnd(c: Codec, key: Text, s: State)
    requires s.q < |key|
    ensures var end := Ended(c, key, s);
            (end.Done? <==> Admits(c, key, s, [])) && (end.Done? ==> Yields(c, key, s, [], end.out, end.state))
  {
    hide *;
    var r := if s.token == [] then Done([], s) else Closed(c, key, s, false);
    EndIs(c, key, s, r);
    SegmentsStep([], s.escaped, 0, []);
    if s.token == [] {
      NothingPends(c, key, s);
    } else {
      ClosedPasses(c, key, s, false);
      LastToken(s.token, s.escaped);
      SegmentStep(c, key, s, Quoted(s.token, false), if r.Done? then r.state else s, if r.Done? then r.out else [], [], []);
      if r.Done? {
        SegmentsStep([], r.state.escaped, 0, []);
        PassedToken(c, key, s, Quoted(s.token, false), r.state, r.out);
        NothingPends(c, key, r.state);
      }
    }
  }

  lemma PassedToken(c: Codec, key: Text, s: State, x: Segment, s': State, out: Text)
    requires s.q < |key| && s'.q < |key| && Passes(c, key, s, x, s', out)
    ensures s'.token == []
  {
    hide Scan, Replacement, SegmentText, SegmentLoad, SegmentRoom, Affords, Pay;
  }

  /** Nothing is pending but the withheld prefix of the key. */
  lemma NothingPends(c: Codec, key: Text, s: State)
    requires s.q < |key| && s.token == []
    ensures Admits(c, key, s, []) <==> s.output + s.q <= s.budget.limit
    ensures forall last: State :: last.redacted == s.redacted && last.budget == s.budget ==> Yields(c, key, s, [], key[..s.q], last)
  {
    NoSegments(c, key, 0, s.budget);
    assert Segments(s.token, s.escaped, []) == [];
    assert Scan(key, Replacement(key), s.q, []) == Scanned([], s.q, false);
    EmptyLeft(key[..s.q]);
    hide Segments, SegmentsText, SegmentsLoad, SegmentsRoom, Affords, Pay, Scan, Replacement;
  }

  lemma EndIs(c: Codec, key: Text, s: State, r: Fed)
    requires s.q < |key| && r == if s.token == [] then Done([], s) else Closed(c, key, s, false)
    ensures r.Done? ==> r.state.q < |key|
    ensures var end := Ended(c, key, s);
            && (end.Done? <==> r.Done? && r.state.output + r.state.q <= r.state.budget.limit)
            && (end.Done? ==> && end.out == r.out + key[..r.state.q]
                              && end.state.redacted == r.state.redacted && end.state.budget == r.state.budget
                              && (s.token == [] ==> end.out == key[..s.q]))
  {
    EmptyLeft(key[..s.q]);
    hide Closed;
  }

  lemma {:induction false} StreamIs(c: Codec, key: Text, s: State, value: Text)
    requires s.q < |key|
    ensures var run := Fold(c, key, s, value);
            var done := run.Done? && Ended(c, key, run.state).Done?;
            && (done <==> Admits(c, key, s, value))
            && (done ==> Yields(c, key, s, value, run.out + Ended(c, key, run.state).out, Ended(c, key, run.state).state))
    decreases |value|
  {
    if value == [] {
      assert Fold(c, key, s, value) == Done([], s);
      StreamEnd(c, key, s);
      if Ended(c, key, s).Done? { EmptyLeft(Ended(c, key, s).out); }
      hide *;
    } else {
      hide *;
      var b, rest := value[0], value[1..];
      Uncons(value);
      FoldDef(c, key, s, b, rest);
      StreamStep(c, key, s, b, rest);
      var first := TakeByte(c, key, s, b);
      ThenDef(first, c, key, rest);
      if first.Done? {
        StreamIs(c, key, first.state, rest);
        var run := Fold(c, key, first.state, rest);
        PrependIs(first.out, run);
        if run.Done? && Ended(c, key, run.state).Done? { Assoc(first.out, run.out, Ended(c, key, run.state).out); }
      }
    }
  }

  lemma PrependIs(out: Text, r: Fed)
    ensures Prepend(out, r).Done? <==> r.Done?
    ensures r.Done? ==> Prepend(out, r) == Done(out + r.out, r.state)
  {
  }

  /** For every text, split into writes in any way: no write and no finish refuses it if
      and only if the cost of its tokens fits the budget, each projection of a token has
      room, and the output is within the limit. The output is then the literal replacement
      of the projected segments, and the mark says whether anything was replaced. */
  lemma StreamIsProjection(c: Codec, key: Text, budget: Budget, chunks: seq<Text>)
    requires key != []
    ensures var run, segments := WriteAll(c, key, Start(budget), chunks), Segments([], false, Concat(chunks));
            var p := SegmentsText(c, segments, key, 0);
            var output := ReplaceAll(p.text, key, Replacement(key));
            var done := run.Done? && run.state.q < |key| && Ended(c, key, run.state).Done?;
            && (done <==> && Affords(budget, SegmentsLoad(c, segments, 0)) && SegmentsRoom(c, segments, key, budget.limit, 0)
                          && |output| <= budget.limit)
            && (done ==> && run.out + Ended(c, key, run.state).out == output
                         && (Ended(c, key, run.state).state.redacted <==> p.changed || Occurs(p.text, key)))
  {
    var text, s := Concat(chunks), Start(budget);
    var p := SegmentsText(c, Segments([], false, text), key, 0);
    AtStart(c, key, budget, text);
    hide *;
    ChunkingIndependent(c, key, s, chunks);
    StreamIs(c, key, s, text);
    var m := Scan(key, Replacement(key), 0, p.text);
    ScanProjects(key, Replacement(key), 0, p.text);
    WholeOutput(key, p.text, m);
    var run := Fold(c, key, s, text);
    if run.Done? && Ended(c, key, run.state).Done? {
      YieldsIs(c, key, s, text, run.out + Ended(c, key, run.state).out, Ended(c, key, run.state).state);
    }
  }

  lemma WholeOutput(key: Text, text: Text, m: Scanned)
    requires key != [] && Projects(key, Replacement(key), 0, text, m)
    ensures m.matched < |key| && m.out + key[..m.matched] == ReplaceAll(text, key, Replacement(key))
            && (m.hit <==> Occurs(text, key))
    ensures |ReplaceAll(text, key, Replacement(key))| == |m.out| + m.matched
  {
    EmptyLeft(text);
    FindNone(text, key);
    hide ReplaceAll, Replacement, Find, Tail, Longest, Occurs;
    assert |m.out + key[..m.matched]| == |m.out| + m.matched;
  }

  lemma AtStart(c: Codec, key: Text, budget: Budget, text: Text)
    requires key != []
    ensures var s, segments := Start(budget), Segments([], false, text);
            var p := SegmentsText(c, segments, key, 0);
            var m := Scan(key, Replacement(key), 0, p.text);
            && s.q == 0 && !s.redacted && s.budget == budget
            && Pending(c, key, s, text) == p && Matcher(c, key, s, text) == m
            && (Admits(c, key, s, text) <==> && Affords(budget, SegmentsLoad(c, segments, 0)) && SegmentsRoom(c, segments, key, budget.limit, 0)
                                             && |m.out| + m.matched <= budget.limit)
  {
    hide Segments, SegmentsText, SegmentsLoad, SegmentsRoom, Affords, Scan, Replacement;
  }

  lemma YieldsIs(c: Codec, key: Text, s: State, value: Text, out: Text, last: State)
    requires s.q < |key| && Yields(c, key, s, value, out, last)
    ensures var m := Matcher(c, key, s, value);
            && m.matched < |key| && out == m.out + key[..m.matched]
            && last.redacted == (s.redacted || Pending(c, key, s, value).changed || m.hit)
  {
    hide Matcher, Pending, Pay, Due;
  }

  // ---- Texts without the key ----

  function Bytes(segments: seq<Segment>): Text {
    if segments == [] then [] else (match segments[0] case Plain(b) => [b] case Quoted(raw, _) => raw) + Bytes(segments[1..])
  }

  lemma BytesNext(x: Segment, segments: seq<Segment>)
    ensures Bytes([x] + segments) == (match x case Plain(b) => [b] case Quoted(raw, _) => raw) + Bytes(segments)
  {
    ConsTail(x, segments);
  }

  ghost predicate SegmentsClean(c: Codec, segments: seq<Segment>, key: Text, depth: nat) {
    segments == []
    || ((segments[0].Quoted? ==> TokenClean(c, segments[0].raw, segments[0].complete, key, depth)) && SegmentsClean(c, segments[1..], key, depth))
  }

  lemma CleanNext(c: Codec, x: Segment, segments: seq<Segment>, key: Text, depth: nat)
    ensures SegmentsClean(c, [x] + segments, key, depth)
            <==> (x.Quoted? ==> TokenClean(c, x.raw, x.complete, key, depth)) && SegmentsClean(c, segments, key, depth)
  {
    hide TokenClean;
    ConsTail(x, segments);
  }

  /** The segments hold every byte of the text, and are clean with it. */
  lemma {:induction false} SegmentsHold(c: Codec, token: Text, escaped: bool, value: Text, key: Text, depth: nat)
    requires depth <= 33
    ensures Bytes(Segments(token, escaped, value)) == token + value
    ensures !Occurs(value, key)
            ==> (TokensClean(c, token, escaped, value, key, depth) <==> SegmentsClean(c, Segments(token, escaped, value), key, depth))
    decreases |value|
  {
    hide *;
    if value == [] {
      EmptyRight(token);
      HoldLast(c, token, escaped, key, depth);
    } else {
      var b, rest := value[0], value[1..];
      Escapes();
      Uncons(value);
      Assoc(token, [b], rest);
      EmptyLeft([b]);
      EmptyLeft(rest);
      EmptyLeft(value);
      OccursRest([b], rest, key);
      CleanStepAt(c, token, escaped, b, rest, key, depth);
      SegmentsStep(token, escaped, b, rest);
      if token == [] && b != QUOTE {
        SegmentsHold(c, [], false, rest, key, depth);
        BytesNext(Plain(b), Segments([], false, rest));
        CleanNext(c, Plain(b), Segments([], false, rest), key, depth);
      } else if token != [] && !escaped && b == QUOTE {
        SegmentsHold(c, [], false, rest, key, depth);
        BytesNext(Quoted(token + [b], true), Segments([], false, rest));
        CleanNext(c, Quoted(token + [b], true), Segments([], false, rest), key, depth);
      } else {
        SegmentsHold(c, token + [b], token != [] && !escaped && b == BACKSLASH, rest, key, depth);
      }
    }
  }

  lemma HoldLast(c: Codec, token: Text, escaped: bool, key: Text, depth: nat)
    requires depth <= 33
    ensures Bytes(Segments(token, escaped, [])) == token
    ensures TokensClean(c, token, escaped, [], key, depth)
            <==> SegmentsClean(c, Segments(token, escaped, []), key, depth)
  {
    EmptyRight(token);
    hide TokenClean;
  }

  lemma CleanStepAt(c: Codec, token: Text, escaped: bool, b: Byte, rest: Text, key: Text, depth: nat)
    requires depth <= 33
    ensures TokensClean(c, token, escaped, [b] + rest, key, depth)
            == if token == [] then TokensClean(c, if b == QUOTE then [QUOTE] else [], false, rest, key, depth)
               else if escaped then TokensClean(c, token + [b], false, rest, key, depth)
               else if b == BACKSLASH then TokensClean(c, token + [b], true, rest, key, depth)
               else if b == QUOTE then TokenClean(c, token + [b], true, key, depth) && TokensClean(c, [], false, rest, key, depth)
               else TokensClean(c, token + [b], false, rest, key, depth)
  {
    ConsTail(b, rest);
    hide TokenClean;
  }

  lemma NotReplaced(text: Text, key: Text, limit: nat)
    requires key != [] && !Occurs(text, key)
    ensures Replaced(text, key) == Projection(text, false) && ReplacedFits(text, key, limit)
    ensures ReplaceAll(text, key, Replacement(key)) == text
  {
    FindNone(text, key);
    ReplaceAllDef(text, key, Replacement(key));
    hide ReplaceAll, Replacement, Find, Occurs;
  }

  /** A token without the key in any layer stays as it is, and what fits the budget has
      room. */
  lemma {:induction false} TokenStays(c: Codec, raw: Text, complete: bool, key: Text, b: Budget, depth: nat)
    requires key != [] && TokenClean(c, raw, complete, key, depth)
    ensures TokenText(c, raw, complete, key, depth) == Projection(raw, false)
    ensures Affords(b, TokenLoad(c, raw, complete, depth)) ==> TokenRoom(c, raw, complete, key, b.limit, depth)
    decreases 34 - depth, 0
  {
    NotReplaced(raw, key, b.limit);
    if depth <= 32 && BACKSLASH in raw && c.decode(Source(raw, complete)).Some? {
      var value := c.decode(Source(raw, complete)).value;
      var own := Load(|raw|, 1, |raw|, depth);
      LayerStays(c, value, key, Pay(b, own), depth + 1);
      LayerProper(c, value, depth + 1);
      AffordsBoth(b, own, LayerLoad(c, value, depth + 1));
      PayIs(b, own);
    }
    hide LayerLoad, LayerText, LayerRoom, LayerClean, Affords, Pay, Both, Replaced, ReplacedFits, Source, Occurs;
  }

  lemma {:induction false} LayerStays(c: Codec, value: Text, key: Text, b: Budget, depth: nat)
    requires key != [] && LayerClean(c, value, key, depth)
    ensures LayerText(c, value, key, depth) == Projection(value, false)
    ensures Affords(b, LayerLoad(c, value, depth)) ==> LayerRoom(c, value, key, b.limit, depth)
    decreases 34 - depth, |value| + 2
  {
    NotReplaced(value, key, b.limit);
    if depth <= 32 {
      var own, segments := Load(|value|, 1, |value|, depth), Segments([], false, value);
      SegmentsHold(c, [], false, value, key, depth + 1);
      EmptyLeft(value);
      SegmentsStay(c, segments, key, Pay(b, own), depth + 1);
      SegmentsProper(c, segments, depth + 1);
      AffordsBoth(b, own, SegmentsLoad(c, segments, depth + 1));
      PayIs(b, own);
      OwnFits(b, own);
    }
    hide SegmentsLoad, SegmentsText, SegmentsRoom, SegmentsClean, Segments, TokensClean, Bytes, Affords, Pay, Both, Replaced, ReplacedFits, Occurs;
  }

  lemma OwnFits(b: Budget, l: Load)
    ensures Affords(b, l) && l.charges > 0 ==> l.largest <= b.limit
  {
  }

  lemma {:induction false} SegmentsStay(c: Codec, segments: seq<Segment>, key: Text, b: Budget, depth: nat)
    requires key != [] && SegmentsClean(c, segments, key, depth)
    ensures SegmentsText(c, segments, key, depth) == Projection(Bytes(segments), false)
    ensures Affords(b, SegmentsLoad(c, segments, depth)) ==> SegmentsRoom(c, segments, key, b.limit, depth)
    decreases 34 - depth, |segments| + 2
  {
    if segments == [] {
    } else {
      var x, rest := segments[0], segments[1..];
      hide *;
      Uncons(segments);
      CleanNext(c, x, rest, key, depth);
      BytesNext(x, rest);
      Next(c, x, rest, key, depth, b);
      SegmentsStay(c, rest, key, Pay(b, SegmentLoad(c, x, depth)), depth);
      if x.Plain? {
        PlainIs(c, x.b, key, depth, b);
      } else {
        QuotedIs(c, x.raw, x.complete, key, depth, b.limit);
        TokenStays(c, x.raw, x.complete, key, b, depth);
      }
    }
  }

  /** A text without the key in any layer is never refused, by any write or by finish and
      however it is split into writes, if and only if it is no longer than the limit and
      the cost of its tokens fits the budget. */
  lemma CleanAcceptedIff(c: Codec, key: Text, budget: Budget, chunks: seq<Text>)
    requires key != [] && !Occurs(Concat(chunks), key) && TokensClean(c, [], false, Concat(chunks), key, 0)
    ensures var run, text := WriteAll(c, key, Start(budget), chunks), Concat(chunks);
            run.Done? && run.state.q < |key| && Ended(c, key, run.state).Done?
            <==> |text| <= budget.limit && Affords(budget, SegmentsLoad(c, Segments([], false, text), 0))
  {
    var text := Concat(chunks);
    hide *;
    StreamIsProjection(c, key, budget, chunks);
    SegmentsHold(c, [], false, text, key, 0);
    EmptyLeft(text);
    SegmentsStay(c, Segments([], false, text), key, budget, 0);
    NotReplaced(text, key, budget.limit);
  }

  // ---- Texts without escapes ----

  /** The string tokens among the segments. */
  function TokenCount(segments: seq<Segment>): nat {
    if segments == [] then 0 else (if segments[0].Quoted? then 1 else 0) + TokenCount(segments[1..])
  }

  /** Two texts for each token, whose bytes are bytes of the text. */
  ghost predicate Light(l: Load, tokens: nat, bytes: nat) {
    l.charges == 2 * tokens && l.work <= bytes && l.largest <= bytes && l.deepest <= 1
  }

  lemma LightNext(c: Codec, x: Segment, segments: seq<Segment>, bytes: nat)
    requires Light(SegmentsLoad(c, segments, 0), TokenCount(segments), bytes)
    requires x.Quoted? ==> BACKSLASH !in x.raw
    ensures var n := if x.Quoted? then |x.raw| else 1;
            Light(SegmentsLoad(c, [x] + segments, 0), TokenCount([x] + segments), n + bytes)
  {
    hide *;
    CountNext(c, x, segments);
    var rest := SegmentsLoad(c, segments, 0);
    if x.Quoted? {
      TokenLight(c, x.raw, x.complete);
      LightBoth(Load(|x.raw|, 2, |x.raw|, 1), rest, TokenCount(segments), bytes, 1, |x.raw|);
    } else {
      NothingIs();
      LightBoth(NOTHING, rest, TokenCount(segments), bytes, 0, 1);
    }
  }

  lemma NothingIs()
    ensures NOTHING == Load(0, 0, 0, 0)
  {
  }

  lemma CountNext(c: Codec, x: Segment, segments: seq<Segment>)
    ensures TokenCount([x] + segments) == (if x.Quoted? then 1 else 0) + TokenCount(segments)
    ensures SegmentsLoad(c, [x] + segments, 0)
            == Both(if x.Quoted? then TokenLoad(c, x.raw, x.complete, 0) else NOTHING, SegmentsLoad(c, segments, 0))
  {
    ConsTail(x, segments);
    hide TokenLoad, Both;
  }

  lemma LightBoth(l: Load, rest: Load, tokens: nat, bytes: nat, k: nat, n: nat)
    requires Light(rest, tokens, bytes) && l.charges == 2 * k && l.work <= n && l.largest <= n && l.deepest <= 1
    ensures Light(Both(l, rest), k + tokens, n + bytes)
  {
    BothIs(l, rest);
    hide Both;
  }

  lemma TokenLight(c: Codec, raw: Text, complete: bool)
    requires BACKSLASH !in raw
    ensures TokenLoad(c, raw, complete, 0) == Load(|raw|, 2, |raw|, 1)
  {
  }

  lemma {:induction false} LightText(c: Codec, token: Text, value: Text)
    requires BACKSLASH !in token && BACKSLASH !in value
    ensures var segments := Segments(token, false, value);
            Light(SegmentsLoad(c, segments, 0), TokenCount(segments), |token| + |value|)
    decreases |value|
  {
    if value == [] {
      if token != [] {
        LightNext(c, Quoted(token, false), [], 0);
        LastToken(token, false);
      }
      assert Light(SegmentsLoad(c, [], 0), TokenCount([]), 0);
      hide *;
    } else {
      var b, rest := value[0], value[1..];
      NoSlash(token, value);
      hide *;
      Escapes();
      Uncons(value);
      SegmentsStep(token, false, b, rest);
      EmptyLeft([b]);
      if token == [] && b != QUOTE {
        LightText(c, [], rest);
        LightNext(c, Plain(b), Segments([], false, rest), |rest|);
      } else if token != [] && b == QUOTE {
        LightText(c, [], rest);
        LightNext(c, Quoted(token + [b], true), Segments([], false, rest), |rest|);
      } else {
        LightText(c, token + [b], rest);
      }
    }
  }

  lemma NoSlash(token: Text, value: Text)
    requires value != [] && BACKSLASH !in token && BACKSLASH !in value
    ensures value[0] != BACKSLASH && BACKSLASH !in value[1..] && BACKSLASH !in token + [value[0]]
    ensures var none: Text := []; BACKSLASH !in none
  {
    assert value[0] in value;
  }

  lemma {:induction false} PlainClean(c: Codec, token: Text, value: Text, key: Text)
    requires BACKSLASH !in token && BACKSLASH !in value && !Occurs(token + value, key)
    ensures TokensClean(c, token, false, value, key, 0)
    decreases |value|
  {
    if value == [] {
      EmptyRight(token);
      hide Occurs;
    } else {
      var b, rest := value[0], value[1..];
      NoSlash(token, value);
      assert BACKSLASH !in token + [b]
             ==> (!Occurs(token + [b], key) ==> TokenClean(c, token + [b], true, key, 0)) by { hide Occurs; }
      hide *;
      Escapes();
      Uncons(value);
      Assoc(token, [b], rest);
      EmptyLeft([b]);
      EmptyLeft(rest);
      EmptyLeft(value);
      OccursRest(token + [b], rest, key);
      OccursRest([b], rest, key);
      CleanUnfold(c, token, false, b, rest, key);
      if token != [] && b == QUOTE {
        PlainClean(c, [], rest, key);
      } else if token == [] && b != QUOTE {
        PlainClean(c, [], rest, key);
      } else {
        PlainClean(c, token + [b], rest, key);
      }
    }
  }

  /** A text without backslashes and without the key: with the limits of the assistant's
      stream it is accepted if and only if it has at most 1 MiB and 131072 string tokens. */
  lemma PlainAcceptedIff(c: Codec, key: Text, chunks: seq<Text>)
    requires key != [] && BACKSLASH !in Concat(chunks) && !Occurs(Concat(chunks), key)
    ensures var run, text := WriteAll(c, key, Start(Budget(0, 262144, 1048576)), chunks), Concat(chunks);
            run.Done? && run.state.q < |key| && Ended(c, key, run.state).Done?
            <==> |text| <= 1048576 && TokenCount(Segments([], false, text)) <= 131072
  {
    var text := Concat(chunks);
    var none: Text := [];
    assert BACKSLASH !in none;
    LightAffords(SegmentsLoad(c, Segments([], false, text), 0), TokenCount(Segments([], false, text)), |text|);
    hide *;
    EmptyLeft(text);
    PlainClean(c, [], text, key);
    LightText(c, [], text);
    CleanAcceptedIff(c, key, Budget(0, 262144, 1048576), chunks);
  }

  lemma LightAffords(l: Load, tokens: nat, bytes: nat)
    ensures Light(l, tokens, bytes) && bytes <= 1048576
            ==> (Affords(Budget(0, 262144, 1048576), l) <==> tokens <= 131072)
  {
  }
}
