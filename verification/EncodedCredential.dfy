/** The streaming credential projection over JSON strings
    (internal/ai/encoded_credential.go). `Fold` specifies one run byte by byte,
    `Token` and `Layer` the nested decoding; the classes are proved against them. */
module EncodedCredential {
  import opened Prelude
  import opened CredentialMatcher

  const QUOTE: Byte := 34
  const BACKSLASH: Byte := 92
  const MAX_WORK := 0x400_0000
  const MAX_DEPTH := 32

  /** encoding/json on strings: `decode` reads a whole quoted token, `encode`
      gives the bytes between the quotes, or None for invalid UTF-8. */
  datatype Codec = Codec(decode: Text -> Option<Text>, encode: Text -> Option<Text>)

  datatype Budget = Budget(work: int, nodes: int, limit: nat)

  /** The budget after a charge, and whether the charge was accepted. */
  function Charge(b: Budget, size: nat, depth: int): (Budget, bool) {
    var spent := b.(nodes := b.nodes - 1);
    if depth > MAX_DEPTH || spent.nodes < 0 || size > b.limit || b.work > MAX_WORK - size
    then (spent, false)
    else (spent.(work := b.work + size), true)
  }

  datatype Projection = Projection(text: Text, changed: bool)

  datatype Outcome = Outcome(budget: Budget, result: Result<Projection>)

  /** Literal replacement of one text, refused when the result would be too long. */
  function Literal(value: Text, key: Text, limit: nat): Result<Projection>
    requires key != []
  {
    var count := Count(value, key);
    if count == 0 then Ok(Projection(value, false))
    else if |value| + count * (|Replacement(key)| - |key|) > limit then Err
    else Ok(Projection(ReplaceAll(value, key, Replacement(key)), true))
  }

  /** The literal replacement fails exactly when its result exceeds the limit. */
  lemma LiteralExact(value: Text, key: Text, limit: nat)
    requires key != []
    ensures Literal(value, key, limit)
            == if !Occurs(value, key) then Ok(Projection(value, false))
               else if |ReplaceAll(value, key, Replacement(key))| > limit then Err
               else Ok(Projection(ReplaceAll(value, key, Replacement(key)), true))
  {
    ReplaceAllLength(value, key, Replacement(key));
    hide Count, ReplaceAll, Replacement, Occurs;
  }

  // ---- Tokens ----

  function IndexQuote(value: Text, start: nat): (k: int)
    ensures k == -1 || (start <= k < |value| && value[k] == QUOTE)
    ensures forall i :: start <= i < |value| && (k == -1 || i < k) ==> value[i] != QUOTE
    decreases |value| - start
  {
    if start >= |value| then -1
    else if value[start] == QUOTE then start
    else IndexQuote(value, start + 1)
  }

  /** End of the string token whose body starts at `at`, and whether it is closed. */
  function TokenEnd(value: Text, at: nat, escaped: bool): (r: (nat, bool))
    requires at <= |value|
    ensures at <= r.0 <= |value|
    decreases |value| - at
  {
    if at == |value| then (at, false)
    else if escaped then TokenEnd(value, at + 1, false)
    else if value[at] == BACKSLASH then TokenEnd(value, at + 1, true)
    else if value[at] == QUOTE then (at + 1, true)
    else TokenEnd(value, at + 1, false)
  }

  /** Number of backslashes that end a text. */
  function Slashes(raw: Text): nat {
    if raw != [] && raw[|raw| - 1] == BACKSLASH then 1 + Slashes(raw[..|raw| - 1]) else 0
  }

  predicate Trailing(raw: Text, complete: bool) { !complete && Slashes(raw) % 2 != 0 }

  lemma TrailingNonEmpty(raw: Text, complete: bool)
    requires Trailing(raw, complete)
    ensures raw != []
  {
  }

  /** The closed token handed to the decoder. */
  function Source(raw: Text, complete: bool): Text {
    if complete then raw
    else if Trailing(raw, complete) then TrailingNonEmpty(raw, complete); raw[..|raw| - 1] + [QUOTE]
    else raw + [QUOTE]
  }

  /** Re-encoded text of a changed token, in the shape of the original token. */
  function Reencode(c: Codec, text: Text, raw: Text, complete: bool, limit: nat): Result<Text> {
    match c.encode(text)
    case None => Err
    case Some(body) =>
      if |body| + 2 > limit then Err
      else if complete then Ok([QUOTE] + body + [QUOTE])
      else if Trailing(raw, complete) then Ok([QUOTE] + body + [BACKSLASH])
      else Ok([QUOTE] + body)
  }

  /** Projection of one JSON string token. */
  function Token(c: Codec, raw: Text, complete: bool, key: Text, b: Budget, depth: int): Outcome
    requires key != []
    decreases 34 - depth, 0
  {
    var (b1, ok) := Charge(b, |raw|, depth);
    if !ok then Outcome(b1, Err)
    else if BACKSLASH !in raw then
      var (b2, ok2) := Charge(b1, 0, depth + 1);
      if !ok2 then Outcome(b2, Err) else Outcome(b2, Literal(raw, key, b.limit))
    else match c.decode(Source(raw, complete))
      case None => Outcome(b1, Literal(raw, key, b.limit))
      case Some(decoded) =>
        var inner := Layer(c, decoded, key, b1, depth + 1);
        match inner.result
        case Err => inner
        case Ok(p) =>
          if !p.changed then Outcome(inner.budget, Ok(Projection(raw, false)))
          else match Reencode(c, p.text, raw, complete, b.limit)
            case Err => Outcome(inner.budget, Err)
            case Ok(text) => Outcome(inner.budget, Ok(Projection(text, true)))
  }

  /** Projection of one decoded layer: its string tokens first, then the layer
      itself as literal text. */
  function Layer(c: Codec, value: Text, key: Text, b: Budget, depth: int): Outcome
    requires key != []
    decreases 34 - depth, |value| + 1
  {
    var (b1, ok) := Charge(b, |value|, depth);
    if !ok then Outcome(b1, Err) else
      var parts := Parts(c, value, 0, [], false, key, b1, depth);
      match parts.result
      case Err => parts
      case Ok(p) =>
        match Literal(p.text, key, b.limit)
        case Err => Outcome(parts.budget, Err)
        case Ok(last) => Outcome(parts.budget, Ok(Projection(last.text, p.changed || last.changed)))
  }

  /** The text up to the next string token and that token, appended to `out`. */
  function Piece(c: Codec, value: Text, start: nat, out: Text, key: Text, b: Budget, depth: int): (r: (Outcome, nat))
    requires key != [] && start < |value| && depth <= MAX_DEPTH
    ensures start < r.1 <= |value|
    decreases 34 - depth, |value| - start, 0
  {
    var index := IndexQuote(value, start);
    if index < 0 then
      if |value| - start > b.limit - |out| then (Outcome(b, Err), |value|)
      else (Outcome(b, Ok(Projection(out + value[start..], false))), |value|)
    else if index - start > b.limit - |out| then (Outcome(b, Err), |value|) else
      var (end, complete) := TokenEnd(value, index + 1, false);
      var token := Token(c, value[index..end], complete, key, b, depth + 1);
      match token.result
      case Err => (token, end)
      case Ok(p) =>
        var copied := out + value[start..index];
        if |p.text| > b.limit - |copied| then (Outcome(token.budget, Err), end)
        else (Outcome(token.budget, Ok(Projection(copied + p.text, p.changed))), end)
  }

  function Parts(c: Codec, value: Text, start: nat, out: Text, changed: bool, key: Text, b: Budget, depth: int): Outcome
    requires key != [] && start <= |value| && depth <= MAX_DEPTH
    decreases 34 - depth, |value| - start, 1
  {
    if start == |value| then Outcome(b, Ok(Projection(out, changed))) else
      var (piece, end) := Piece(c, value, start, out, key, b, depth);
      match piece.result
      case Err => piece
      case Ok(p) => Parts(c, value, end, p.text, changed || p.changed, key, piece.budget, depth)
  }

  // ---- The streaming filter, one byte at a time ----

  datatype State = State(q: nat, token: Text, escaped: bool, budget: Budget, output: nat, redacted: bool)

  datatype Fed = Done(out: Text, state: State) | Refused(budget: Budget)

  /** Passes text through the literal matcher under the output limit. */
  function Emit(key: Text, s: State, value: Text): (r: Fed)
    requires s.q < |key|
    ensures r.Done? ==> r.state.q < |key|
  {
    var m := Scan(key, Replacement(key), s.q, value);
    if |m.out| > s.budget.limit - s.output then Refused(s.budget)
    else Done(m.out, s.(q := m.matched, output := s.output + |m.out|, redacted := s.redacted || m.hit))
  }

  function Closed(c: Codec, key: Text, s: State, complete: bool): (r: Fed)
    requires s.q < |key|
    ensures r.Done? ==> r.state.q < |key|
  {
    var t := Token(c, s.token, complete, key, s.budget, 0);
    match t.result
    case Err => Refused(t.budget)
    case Ok(p) => Emit(key, s.(token := [], budget := t.budget, redacted := s.redacted || p.changed), p.text)
  }

  function TakeByte(c: Codec, key: Text, s: State, b: Byte): (r: Fed)
    requires s.q < |key|
    ensures r.Done? ==> r.state.q < |key|
  {
    if s.token == [] then
      if b == QUOTE then Done([], s.(token := [QUOTE], escaped := false)) else Emit(key, s, [b])
    else if |s.token| >= s.budget.limit then Refused(s.budget)
    else
      var s' := s.(token := s.token + [b]);
      if s.escaped then Done([], s'.(escaped := false))
      else if b == BACKSLASH then Done([], s'.(escaped := true))
      else if b == QUOTE then Closed(c, key, s', true)
      else Done([], s')
  }

  function Prepend(out: Text, r: Fed): Fed {
    match r
    case Done(o, s) => Done(out + o, s)
    case Refused(b) => Refused(b)
  }

  function Fold(c: Codec, key: Text, s: State, value: Text): (r: Fed)
    requires s.q < |key|
    ensures r.Done? ==> r.state.q < |key|
    decreases |value|
  {
    if value == [] then Done([], s) else
      match TakeByte(c, key, s, value[0])
      case Refused(b) => Refused(b)
      case Done(o, s') => Prepend(o, Fold(c, key, s', value[1..]))
  }

  /** Ends the stream: an unfinished token is projected, the withheld key prefix released. */
  function Ended(c: Codec, key: Text, s: State): Fed
    requires s.q < |key|
  {
    var last := if s.token == [] then Done([], s) else Closed(c, key, s, false);
    match last
    case Refused(b) => Refused(b)
    case Done(o, s') =>
      if s'.q > s'.budget.limit - s'.output then Refused(s'.budget)
      else Done(o + key[..s'.q], s'.(q := 0, output := s'.output + s'.q))
  }

  lemma PrependAssoc(a: Text, b: Text, r: Fed)
    ensures Prepend(a, Prepend(b, r)) == Prepend(a + b, r)
  {
    if r.Done? { Assoc(a, b, r.out); }
  }

  lemma PrependNothing(r: Fed)
    ensures Prepend([], r) == r
  {
    if r.Done? { EmptyLeft(r.out); }
  }

  /** One run continued by another. */
  function Then(first: Fed, c: Codec, key: Text, value: Text): Fed
    requires first.Done? ==> first.state.q < |key|
  {
    match first
    case Refused(b) => Refused(b)
    case Done(o, s) => Prepend(o, Fold(c, key, s, value))
  }

  lemma FoldDef(c: Codec, key: Text, s: State, b: Byte, rest: Text)
    requires s.q < |key|
    ensures Fold(c, key, s, [b] + rest) == Then(TakeByte(c, key, s, b), c, key, rest)
  {
    hide TakeByte;
    ConsTail(b, rest);
  }

  lemma ThenAssoc(first: Fed, c: Codec, key: Text, o: Text, value: Text)
    requires first.Done? ==> first.state.q < |key|
    ensures Then(Prepend(o, first), c, key, value) == Prepend(o, Then(first, c, key, value))
  {
    hide Fold;
    if first.Done? { PrependAssoc(o, first.out, Fold(c, key, first.state, value)); }
  }

  /** Splitting a write in two changes nothing: same output, same state, and on
      failure the same refusal. */
  lemma {:induction false} FoldSplit(c: Codec, key: Text, s: State, a: Text, b: Text)
    requires s.q < |key|
    ensures Fold(c, key, s, a + b) == Then(Fold(c, key, s, a), c, key, b)
    decreases |a|
  {
    if a == [] {
      EmptyLeft(b);
      PrependNothing(Fold(c, key, s, b));
    } else {
      var first := TakeByte(c, key, s, a[0]);
      Uncons(a);
      Assoc([a[0]], a[1..], b);
      FoldDef(c, key, s, a[0], a[1..] + b);
      FoldDef(c, key, s, a[0], a[1..]);
      hide Fold, TakeByte, Prepend;
      if first.Done? {
        FoldSplit(c, key, first.state, a[1..], b);
        ThenAssoc(Fold(c, key, first.state, a[1..]), c, key, first.out, b);
      }
    }
  }

  function WriteAll(c: Codec, key: Text, s: State, chunks: seq<Text>): Fed
    requires s.q < |key|
    decreases |chunks|
  {
    if chunks == [] then Done([], s) else
      match Fold(c, key, s, chunks[0])
      case Refused(b) => Refused(b)
      case Done(o, s') => Prepend(o, WriteAll(c, key, s', chunks[1..]))
  }

  /** A run of writes over any split of a text is the run over the whole text:
      the same output and final state, or a refusal in both with the same budget. */
  lemma {:induction false} ChunkingIndependent(c: Codec, key: Text, s: State, chunks: seq<Text>)
    requires s.q < |key|
    ensures WriteAll(c, key, s, chunks) == Fold(c, key, s, Concat(chunks))
    decreases |chunks|
  {
    if chunks != [] {
      var first := Fold(c, key, s, chunks[0]);
      FoldSplit(c, key, s, chunks[0], Concat(chunks[1..]));
      hide Fold;
      if first.Done? { ChunkingIndependent(c, key, first.state, chunks[1..]); }
    }
  }

  // ---- Bulk output ----

  lemma EmitNothing(key: Text, s: State)
    requires s.q < |key| && s.output <= s.budget.limit
    ensures Emit(key, s, []) == Done([], s)
  {
  }

  lemma EmitDef(key: Text, s: State, value: Text)
    requires s.q < |key|
    ensures var m := Scan(key, Replacement(key), s.q, value);
            Emit(key, s, value)
            == if s.output + |m.out| > s.budget.limit then Refused(s.budget)
               else Done(m.out, s.(q := m.matched, output := s.output + |m.out|, redacted := s.redacted || m.hit))
  {
    hide Scan, Replacement;
  }

  lemma EmitSplit(key: Text, s: State, a: Text, b: Text)
    requires s.q < |key|
    ensures var first := Emit(key, s, a);
            Emit(key, s, a + b)
            == match first
               case Refused(x) => Refused(x)
               case Done(o, s') => Prepend(o, Emit(key, s', b))
  {
    var marker := Replacement(key);
    var m := Scan(key, marker, s.q, a);
    var n := Scan(key, marker, m.matched, b);
    hide Scan, Replacement, Emit;
    ScanSplit(key, marker, s.q, a, b);
    EmitDef(key, s, a);
    EmitDef(key, s, a + b);
    assert |m.out + n.out| == |m.out| + |n.out|;
    if Emit(key, s, a).Done? { EmitDef(key, Emit(key, s, a).state, b); }
  }

  /** Text without a quote, outside a token, goes to the matcher in one piece. */
  lemma {:induction false} FoldPlain(c: Codec, key: Text, s: State, value: Text)
    requires s.q < |key| && s.token == [] && s.output <= s.budget.limit
    requires forall i :: 0 <= i < |value| ==> value[i] != QUOTE
    ensures Fold(c, key, s, value) == Emit(key, s, value)
    decreases |value|
  {
    if value == [] {
      EmitNothing(key, s);
    } else {
      Uncons(value);
      FoldDef(c, key, s, value[0], value[1..]);
      EmitSplit(key, s, [value[0]], value[1..]);
      var first := Emit(key, s, [value[0]]);
      assert TakeByte(c, key, s, value[0]) == first;
      assert first.Done? ==> first.state.token == [] && first.state.output <= first.state.budget.limit;
      hide Fold, TakeByte, Emit, Prepend;
      if first.Done? { FoldPlain(c, key, first.state, value[1..]); }
    }
  }

  // ---- The work budget ----

  predicate WithinWork(b: Budget) { b.work <= MAX_WORK }

  /** Charges only grow the work, spend nodes, and never pass 64 MiB. */
  predicate Spent(b: Budget, b': Budget) {
    b'.limit == b.limit && b'.nodes <= b.nodes && b.work <= b'.work && (WithinWork(b) ==> WithinWork(b'))
  }

  lemma {:induction false} TokenWork(c: Codec, raw: Text, complete: bool, key: Text, b: Budget, depth: int)
    requires key != []
    ensures Spent(b, Token(c, raw, complete, key, b, depth).budget)
    decreases 34 - depth, 0
  {
    var (b1, ok) := Charge(b, |raw|, depth);
    hide Layer, Literal, Reencode, Source;
    if ok && BACKSLASH in raw {
      var d := c.decode(Source(raw, complete));
      if d.Some? { LayerWork(c, d.value, key, b1, depth + 1); }
    }
  }

  lemma {:induction false} LayerWork(c: Codec, value: Text, key: Text, b: Budget, depth: int)
    requires key != []
    ensures Spent(b, Layer(c, value, key, b, depth).budget)
    decreases 34 - depth, |value| + 1
  {
    var (b1, ok) := Charge(b, |value|, depth);
    hide Parts, Literal;
    if ok { PartsWork(c, value, 0, [], false, key, b1, depth); }
  }

  lemma {:induction false} PieceWork(c: Codec, value: Text, start: nat, out: Text, key: Text, b: Budget, depth: int)
    requires key != [] && start < |value| && depth <= MAX_DEPTH
    ensures Spent(b, Piece(c, value, start, out, key, b, depth).0.budget)
    decreases 34 - depth, |value| - start, 0
  {
    var index := IndexQuote(value, start);
    if index >= 0 {
      var (end, complete) := TokenEnd(value, index + 1, false);
      TokenWork(c, value[index..end], complete, key, b, depth + 1);
    }
    hide Token, IndexQuote, TokenEnd;
  }

  lemma {:induction false} PartsWork(c: Codec, value: Text, start: nat, out: Text, changed: bool, key: Text, b: Budget,
                                     depth: int)
    requires key != [] && start <= |value| && depth <= MAX_DEPTH
    ensures Spent(b, Parts(c, value, start, out, changed, key, b, depth).budget)
    decreases 34 - depth, |value| - start, 1
  {
    hide Piece;
    if start < |value| {
      PieceWork(c, value, start, out, key, b, depth);
      var (piece, end) := Piece(c, value, start, out, key, b, depth);
      if piece.result.Ok? {
        PartsWork(c, value, end, piece.result.value.text, changed || piece.result.value.changed, key, piece.budget, depth);
      }
    }
  }

  /** Whatever the input, one write charges at most 64 MiB of nested work. */
  lemma {:induction false} FoldWork(c: Codec, key: Text, s: State, value: Text)
    requires s.q < |key|
    ensures var r := Fold(c, key, s, value); Spent(s.budget, BudgetOf(r))
    decreases |value|
  {
    if value != [] {
      TokenWork(c, s.token + [value[0]], true, key, s.budget, 0);
      var first := TakeByte(c, key, s, value[0]);
      assert Spent(s.budget, BudgetOf(first)) by { hide Token, Scan, Replacement; }
      hide TakeByte;
      if first.Done? { FoldWork(c, key, first.state, value[1..]); }
    }
  }

  function BudgetOf(r: Fed): Budget { if r.Done? then r.state.budget else r.budget }

  lemma EndedWork(c: Codec, key: Text, s: State)
    requires s.q < |key|
    ensures Spent(s.budget, BudgetOf(Ended(c, key, s)))
  {
    if s.token != [] { TokenWork(c, s.token, false, key, s.budget, 0); }
    hide Token, Scan, Replacement;
  }

  /** A whole run, its finish included, charges at most 64 MiB of nested work,
      over any split of the text into writes. */
  lemma RunWork(c: Codec, key: Text, budget: Budget, chunks: seq<Text>)
    requires key != []
    ensures var run := WriteAll(c, key, Start(budget), chunks);
            && Spent(budget, BudgetOf(run))
            && (run.Done? ==> run.state.q < |key| && Spent(budget, BudgetOf(Ended(c, key, run.state))))
  {
    hide *;
    StartIs(budget);
    ChunkingIndependent(c, key, Start(budget), chunks);
    FoldWork(c, key, Start(budget), Concat(chunks));
    var run := Fold(c, key, Start(budget), Concat(chunks));
    if run.Done? {
      EndedWork(c, key, run.state);
      BudgetIs(run);
      SpentTrans(budget, BudgetOf(run), BudgetOf(Ended(c, key, run.state)));
    }
  }

  lemma BudgetIs(r: Fed)
    requires r.Done?
    ensures BudgetOf(r) == r.state.budget
  {
  }

  lemma SpentTrans(a: Budget, b: Budget, c: Budget)
    ensures Spent(a, b) && Spent(b, c) ==> Spent(a, c)
  {
  }

  // ---- Texts that contain no key in any layer ----

  /** No layer reachable from this token contains the key. */
  ghost predicate TokenClean(c: Codec, raw: Text, complete: bool, key: Text, depth: int)
    decreases 34 - depth, 0, 0
  {
    && !Occurs(raw, key)
    && (depth <= MAX_DEPTH && BACKSLASH in raw ==>
          var d := c.decode(Source(raw, complete));
          d.Some? ==> LayerClean(c, d.value, key, depth + 1))
  }

  ghost predicate LayerClean(c: Codec, value: Text, key: Text, depth: int)
    decreases 34 - depth, |value| + 1
  {
    !Occurs(value, key) && (depth <= MAX_DEPTH ==> TokensClean(c, [], false, value, key, depth + 1))
  }

  /** Every string token of `value` is clean, where `token` has been read already. */
  ghost predicate TokensClean(c: Codec, token: Text, escaped: bool, value: Text, key: Text, depth: int)
    requires depth <= MAX_DEPTH + 1
    decreases 34 - depth, |value|, 1
  {
    if value == [] then token == [] || TokenClean(c, token, false, key, depth)
    else
      var b, rest := value[0], value[1..];
      if token == [] then TokensClean(c, if b == QUOTE then [QUOTE] else [], false, rest, key, depth)
      else if escaped then TokensClean(c, token + [b], false, rest, key, depth)
      else if b == BACKSLASH then TokensClean(c, token + [b], true, rest, key, depth)
      else if b == QUOTE then TokenClean(c, token + [b], true, key, depth) && TokensClean(c, [], false, rest, key, depth)
      else TokensClean(c, token + [b], false, rest, key, depth)
  }

  lemma LiteralClean(value: Text, key: Text, limit: nat)
    requires key != [] && !Occurs(value, key)
    ensures Literal(value, key, limit) == Ok(Projection(value, false))
  {
    LiteralExact(value, key, limit);
    hide *;
  }

  lemma LiteralSame(value: Text, key: Text, limit: nat)
    requires key != []
    ensures var r := Literal(value, key, limit);
            r.Ok? ==> (r.value.changed <==> Occurs(value, key)) && (!r.value.changed ==> r.value.text == value)
  {
    LiteralExact(value, key, limit);
    hide Literal, Occurs;
  }

  lemma SliceOfSlice(value: Text, i: nat, j: nat, k: int, l: int)
    requires i <= j <= |value| && 0 <= k <= l <= j - i
    ensures value[i..j][k..l] == value[i + k..i + l]
  {
    var a, b := value[i..j][k..l], value[i + k..i + l];
    assert |a| == |b| == l - k;
    forall x | 0 <= x < l - k ensures a[x] == b[x] {
      assert a[x] == value[i + k + x];
      assert b[x] == value[i + k + x];
    }
  }

  lemma OccursPart(value: Text, key: Text, i: nat, j: nat)
    requires i <= j <= |value| && Occurs(value[i..j], key)
    ensures Occurs(value, key)
  {
    var part := value[i..j];
    var k :| OccursAt(part, key, k);
    var n := i + k;
    SliceOfSlice(value, i, j, k, k + |key|);
    assert OccursAt(value, key, n);
  }

  // ---- An unchanged projection keeps the text ----

  lemma TokenSame(c: Codec, raw: Text, complete: bool, key: Text, b: Budget, depth: int)
    requires key != []
    ensures var r := Token(c, raw, complete, key, b, depth).result;
            r.Ok? && !r.value.changed ==> r.value.text == raw
  {
    LiteralSame(raw, key, b.limit);
    hide Literal, Layer, Source, Reencode, Occurs;
  }

  lemma PieceSame(c: Codec, value: Text, start: nat, out: Text, key: Text, b: Budget, depth: int)
    requires key != [] && start < |value| && depth <= MAX_DEPTH
    ensures var (piece, end) := Piece(c, value, start, out, key, b, depth);
            piece.result.Ok? && !piece.result.value.changed ==> piece.result.value.text == out + value[start..end]
  {
    var index := IndexQuote(value, start);
    if index >= 0 {
      var (end, complete) := TokenEnd(value, index + 1, false);
      TokenSame(c, value[index..end], complete, key, b, depth + 1);
      TwoSlices(out, value, start, index, end);
    }
    hide Token, IndexQuote, TokenEnd;
  }

  lemma TwoSlices(out: Text, value: Text, i: nat, j: nat, k: nat)
    requires i <= j <= k <= |value|
    ensures (out + value[i..j]) + value[j..k] == out + value[i..k]
  {
    assert value[i..k] == value[i..j] + value[j..k];
    Assoc(out, value[i..j], value[j..k]);
  }

  lemma {:induction false} PartsSame(c: Codec, value: Text, start: nat, out: Text, changed: bool, key: Text, b: Budget,
                                     depth: int)
    requires key != [] && start <= |value| && depth <= MAX_DEPTH
    ensures var r := Parts(c, value, start, out, changed, key, b, depth).result;
            r.Ok? && !r.value.changed ==> r.value.text == out + value[start..]
    ensures var r := Parts(c, value, start, out, changed, key, b, depth).result;
            r.Ok? && changed ==> r.value.changed
    decreases 34 - depth, |value| - start, 1
  {
    hide Piece;
    if start < |value| {
      PieceSame(c, value, start, out, key, b, depth);
      var (piece, end) := Piece(c, value, start, out, key, b, depth);
      if piece.result.Ok? {
        var p := piece.result.value;
        PartsSame(c, value, end, p.text, changed || p.changed, key, piece.budget, depth);
        TwoSlices(out, value, start, end, |value|);
      }
    } else {
      EmptyRight(out);
    }
  }

  // ---- A projection changes a text if and only if some layer contains the key ----

  lemma {:induction false} TokenChangedIff(c: Codec, raw: Text, complete: bool, key: Text, b: Budget, depth: int)
    requires key != [] && !Occurs(raw, key)
    ensures var r := Token(c, raw, complete, key, b, depth).result;
            r.Ok? ==> (r.value.changed <==> !TokenClean(c, raw, complete, key, depth))
    decreases 34 - depth, 0
  {
    LiteralClean(raw, key, b.limit);
    var (b1, ok) := Charge(b, |raw|, depth);
    var d := c.decode(Source(raw, complete));
    hide Literal, LayerClean, Layer, Source, Reencode, Occurs;
    if ok && BACKSLASH in raw && d.Some? {
      LayerChangedIff(c, d.value, key, b1, depth + 1);
    }
  }

  /** Whenever the budgets admit it, a decoded text is changed if and only if it or a
      layer nested in it contains the key, and is otherwise kept as it is. */
  lemma {:induction false} LayerChangedIff(c: Codec, value: Text, key: Text, b: Budget, depth: int)
    requires key != []
    ensures var r := Layer(c, value, key, b, depth).result;
            r.Ok? ==> (r.value.changed <==> !LayerClean(c, value, key, depth)) && (!r.value.changed ==> r.value.text == value)
    decreases 34 - depth, |value| + 1
  {
    var (b1, ok) := Charge(b, |value|, depth);
    if ok {
      var p := Parts(c, value, 0, [], false, key, b1, depth).result;
      assert value[0..] == value;
      EmptyLeft(value);
      PartsSame(c, value, 0, [], false, key, b1, depth);
      if p.Ok? { LiteralSame(p.value.text, key, b.limit); }
      if !Occurs(value, key) { PartsChangedIff(c, value, 0, [], false, key, b1, depth); }
    }
    hide Literal, Parts, TokensClean, Occurs;
  }

  lemma PieceDef(c: Codec, value: Text, start: nat, out: Text, key: Text, b: Budget, depth: int)
    requires key != [] && start < |value| && depth <= MAX_DEPTH
    ensures var index := IndexQuote(value, start);
            var (piece, next) := Piece(c, value, start, out, key, b, depth);
            piece.result.Ok? ==>
              if index < 0 then next == |value| && !piece.result.value.changed
              else
                var (end, complete) := TokenEnd(value, index + 1, false);
                var token := Token(c, value[index..end], complete, key, b, depth + 1);
                next == end && token.result.Ok? && piece.result.value.changed == token.result.value.changed
  {
    hide Token, TokenEnd, IndexQuote;
  }

  lemma {:induction false} PieceChangedIff(c: Codec, value: Text, start: nat, out: Text, key: Text, b: Budget,
                                           depth: int)
    requires key != [] && start < |value| && depth <= MAX_DEPTH && !Occurs(value, key)
    ensures var (piece, end) := Piece(c, value, start, out, key, b, depth);
            piece.result.Ok? ==>
              (TokensClean(c, [], false, value[start..], key, depth + 1)
               <==> !piece.result.value.changed && TokensClean(c, [], false, value[end..], key, depth + 1))
    decreases 34 - depth, |value| - start, 0
  {
    assert depth <= 32;
    hide *;
    var index := IndexQuote(value, start);
    PieceDef(c, value, start, out, key, b, depth);
    if index < 0 {
      SkipPlain(c, value, start, |value|, key, depth + 1);
    } else {
      NextChangedIff(c, value, start, index, key, b, depth);
    }
  }

  lemma {:induction false} NextChangedIff(c: Codec, value: Text, start: nat, index: nat, key: Text, b: Budget,
                                          depth: int)
    requires key != [] && start <= index < |value| && value[index] == QUOTE && depth <= MAX_DEPTH && !Occurs(value, key)
    requires forall i :: start <= i < index ==> value[i] != QUOTE
    ensures var (end, complete) := TokenEnd(value, index + 1, false);
            var token := Token(c, value[index..end], complete, key, b, depth + 1);
            token.result.Ok? ==>
              (TokensClean(c, [], false, value[start..], key, depth + 1)
               <==> !token.result.value.changed && TokensClean(c, [], false, value[end..], key, depth + 1))
    decreases 33 - depth, 1
  {
    assert depth <= 32;
    hide *;
    var (end, complete) := TokenEnd(value, index + 1, false);
    NextToken(c, value, start, index, key, depth + 1);
    PartFree(value, key, index, end);
    TokenChangedIff(c, value[index..end], complete, key, b, depth + 1);
  }

  lemma PartFree(value: Text, key: Text, i: nat, j: nat)
    requires i <= j <= |value| && !Occurs(value, key)
    ensures !Occurs(value[i..j], key)
  {
    if Occurs(value[i..j], key) { OccursPart(value, key, i, j); }
    hide Occurs;
  }

  lemma {:induction false} PartsChangedIff(c: Codec, value: Text, start: nat, out: Text, changed: bool, key: Text,
                                           b: Budget, depth: int)
    requires key != [] && start <= |value| && depth <= MAX_DEPTH && !Occurs(value, key)
    ensures var r := Parts(c, value, start, out, changed, key, b, depth).result;
            r.Ok? ==> (r.value.changed <==> changed || !TokensClean(c, [], false, value[start..], key, depth + 1))
    decreases 34 - depth, |value| - start, 1
  {
    if start < |value| {
      PieceChangedIff(c, value, start, out, key, b, depth);
      var (piece, end) := Piece(c, value, start, out, key, b, depth);
      if piece.result.Ok? {
        var p := piece.result.value;
        PartsChangedIff(c, value, end, p.text, changed || p.changed, key, piece.budget, depth);
      }
      hide Piece, TokensClean, Occurs;
    }
  }

  lemma TokenUnchanged(c: Codec, raw: Text, complete: bool, key: Text, b: Budget, depth: int)
    requires key != [] && TokenClean(c, raw, complete, key, depth)
    ensures var r := Token(c, raw, complete, key, b, depth).result;
            r.Ok? ==> r.value == Projection(raw, false)
  {
    assert !Occurs(raw, key);
    TokenChangedIff(c, raw, complete, key, b, depth);
    TokenSame(c, raw, complete, key, b, depth);
    hide Token, TokenClean, Occurs;
  }

  /** The scanning loops find the tokens that TokensClean describes. */
  lemma NextToken(c: Codec, value: Text, start: nat, index: nat, key: Text, depth: int)
    requires start <= index < |value| && value[index] == QUOTE && depth <= MAX_DEPTH + 1
    requires forall i :: start <= i < index ==> value[i] != QUOTE
    ensures var (end, complete) := TokenEnd(value, index + 1, false);
            TokensClean(c, [], false, value[start..], key, depth)
            <==> TokenClean(c, value[index..end], complete, key, depth) && TokensClean(c, [], false, value[end..], key, depth)
  {
    SkipPlain(c, value, start, index, key, depth);
    hide TokenClean;
    assert value[index..][1..] == value[index + 1..];
    assert value[index..][0] == QUOTE;
    assert value[index..index + 1] == [QUOTE];
    assert TokensClean(c, [QUOTE], false, value[index + 1..], key, depth) == TokensClean(c, [], false, value[index..], key, depth);
    InToken(c, value, index, index + 1, false, key, depth);
  }

  lemma {:induction false} SkipPlain(c: Codec, value: Text, start: nat, index: nat, key: Text, depth: int)
    requires start <= index <= |value| && depth <= MAX_DEPTH + 1
    requires forall i :: start <= i < index ==> value[i] != QUOTE
    ensures TokensClean(c, [], false, value[start..], key, depth) == TokensClean(c, [], false, value[index..], key, depth)
    decreases index - start
  {
    if start < index {
      hide TokenClean;
      assert value[start..][1..] == value[start + 1..];
      SkipPlain(c, value, start + 1, index, key, depth);
    }
  }

  lemma {:induction false} InToken(c: Codec, value: Text, index: nat, at: nat, escaped: bool, key: Text, depth: int)
    requires index < at <= |value| && depth <= MAX_DEPTH + 1
    ensures var (end, complete) := TokenEnd(value, at, escaped);
            TokensClean(c, value[index..at], escaped, value[at..], key, depth)
            <==> TokenClean(c, value[index..end], complete, key, depth) && TokensClean(c, [], false, value[end..], key, depth)
    decreases |value| - at
  {
    hide TokenClean;
    if at < |value| {
      InTokenDef(c, value, index, at, escaped, key, depth);
      hide TokensClean;
      if escaped {
        InToken(c, value, index, at + 1, false, key, depth);
      } else if value[at] == BACKSLASH {
        InToken(c, value, index, at + 1, true, key, depth);
      } else if value[at] != QUOTE {
        InToken(c, value, index, at + 1, false, key, depth);
      }
    }
  }

  /** One byte inside a token. */
  lemma InTokenDef(c: Codec, value: Text, index: nat, at: nat, escaped: bool, key: Text, depth: int)
    requires index < at < |value| && depth <= MAX_DEPTH + 1
    ensures TokensClean(c, value[index..at], escaped, value[at..], key, depth)
            == if escaped then TokensClean(c, value[index..at + 1], false, value[at + 1..], key, depth)
               else if value[at] == BACKSLASH then TokensClean(c, value[index..at + 1], true, value[at + 1..], key, depth)
               else if value[at] == QUOTE
               then TokenClean(c, value[index..at + 1], true, key, depth) && TokensClean(c, [], false, value[at + 1..], key, depth)
               else TokensClean(c, value[index..at + 1], false, value[at + 1..], key, depth)
  {
    hide TokenClean;
    var token, rest := value[index..at], value[at..];
    assert |token| == at - index && rest != [] && rest[0] == value[at];
    assert rest[1..] == value[at + 1..];
    assert token + [rest[0]] == value[index..at + 1];
  }

  // ---- Clean streams pass through byte for byte ----

  /** A run and its end release what the literal matcher makes of `value`. */
  ghost predicate Released(c: Codec, key: Text, s: State, value: Text, run: Fed)
    requires s.q < |key| && (run.Done? ==> run.state.q < |key|)
  {
    run.Done? && Ended(c, key, run.state).Done? ==>
      var end := Ended(c, key, run.state);
      var m := Scan(key, Replacement(key), s.q, value);
      && run.out + end.out == m.out + key[..m.matched]
      && end.state.q == 0
      && end.state.redacted == (s.redacted || m.hit)
  }

  /** What one step of a clean run has done: `m` is what the matcher produced. */
  ghost predicate Advances(c: Codec, key: Text, s: State, s': State, out: Text, hit: bool, b: Byte, rest: Text)
    requires s.q < |key| && s'.q < |key|
  {
    && s'.redacted == (s.redacted || hit)
    && TokensClean(c, s'.token, s'.escaped, rest, key, 0)
    && Scan(key, Replacement(key), s.q, s.token + ([b] + rest))
       == CredentialMatcher.Then(Scanned(out, s'.q, hit), Scan(key, Replacement(key), s'.q, s'.token + rest))
  }

  lemma ClosedClean(c: Codec, key: Text, s: State, complete: bool)
    requires s.q < |key| && TokenClean(c, s.token, complete, key, 0)
    ensures var r := Closed(c, key, s, complete);
            var m := Scan(key, Replacement(key), s.q, s.token);
            r.Done? ==> r.out == m.out && r.state.q == m.matched && r.state.token == []
                        && r.state.redacted == (s.redacted || m.hit)
  {
    TokenUnchanged(c, s.token, complete, key, s.budget, 0);
    hide Token, TokenClean, Scan, Replacement;
  }

  lemma ThenNothing(m: Scanned)
    ensures CredentialMatcher.Then(Scanned([], m.matched, false), m) == m
    ensures forall q :: CredentialMatcher.Then(Scanned([], q, false), m) == m
  {
    EmptyLeft(m.out);
  }

  lemma StepInToken(c: Codec, key: Text, s: State, b: Byte, rest: Text, escaped: bool)
    requires s.q < |key|
    requires TokensClean(c, s.token + [b], escaped, rest, key, 0)
    ensures Advances(c, key, s, s.(token := s.token + [b], escaped := escaped), [], false, b, rest)
  {
    hide *;
    Assoc(s.token, [b], rest);
    ThenNothing(Scan(key, Replacement(key), s.q, (s.token + [b]) + rest));
    AdvancesIntro(c, key, s, s.(token := s.token + [b], escaped := escaped), [], false, b, rest);
  }

  lemma AdvancesIntro(c: Codec, key: Text, s: State, s': State, out: Text, hit: bool, b: Byte, rest: Text)
    requires s.q < |key| && s'.q < |key|
    requires s'.redacted == (s.redacted || hit)
    requires TokensClean(c, s'.token, s'.escaped, rest, key, 0)
    requires Scan(key, Replacement(key), s.q, s.token + ([b] + rest))
             == CredentialMatcher.Then(Scanned(out, s'.q, hit), Scan(key, Replacement(key), s'.q, s'.token + rest))
    ensures Advances(c, key, s, s', out, hit, b, rest)
  {
    hide TokensClean, Scan;
  }

  /** A step that emits `text`, the token read so far together with b. */
  lemma StepEmits(c: Codec, key: Text, s: State, b: Byte, rest: Text, s': State, out: Text)
    requires s.q < |key| && s'.q < |key| && s'.token == []
    requires var m := Scan(key, Replacement(key), s.q, s.token + [b]);
             out == m.out && s'.q == m.matched && s'.redacted == (s.redacted || m.hit)
    requires TokensClean(c, [], s'.escaped, rest, key, 0)
    ensures Advances(c, key, s, s', out, Scan(key, Replacement(key), s.q, s.token + [b]).hit, b, rest)
  {
    hide *;
    ScanSplit(key, Replacement(key), s.q, s.token + [b], rest);
    Assoc(s.token, [b], rest);
    EmptyLeft(rest);
    AdvancesIntro(c, key, s, s', out, Scan(key, Replacement(key), s.q, s.token + [b]).hit, b, rest);
  }

  lemma EscapedUnused(c: Codec, value: Text, key: Text, escaped: bool)
    ensures TokensClean(c, [], false, value, key, 0) ==> TokensClean(c, [], escaped, value, key, 0)
  {
    hide TokenClean;
  }

  lemma CleanStep(c: Codec, key: Text, s: State, b: Byte, rest: Text)
    requires s.q < |key| && TokensClean(c, s.token, s.escaped, [b] + rest, key, 0)
    ensures var first := TakeByte(c, key, s, b);
            first.Done? ==> exists hit :: Advances(c, key, s, first.state, first.out, hit, b, rest)
  {
    ConsTail(b, rest);
    EscapedUnused(c, rest, key, s.escaped);
    var grown := s.(token := s.token + [b]);
    var first := TakeByte(c, key, s, b);
    var m := Scan(key, Replacement(key), s.q, s.token + [b]);
    if s.token == [] {
      assert s.token + [b] == [b];
      if b == QUOTE {
        hide TokenClean, Scan, Replacement;
        StepInToken(c, key, s, b, rest, false);
        assert first.Done? && Advances(c, key, s, first.state, first.out, false, b, rest);
      } else {
        hide TokenClean, Scan, Replacement;
        if first.Done? { StepEmits(c, key, s, b, rest, first.state, first.out); }
      }
    } else if s.escaped || b == BACKSLASH || b != QUOTE {
      hide TokenClean, Scan, Replacement;
      StepInToken(c, key, s, b, rest, !s.escaped && b == BACKSLASH);
      assert first.Done? ==> Advances(c, key, s, first.state, first.out, false, b, rest);
    } else {
      hide TokenClean, Scan, Replacement;
      ClosedClean(c, key, grown, true);
      hide Closed;
      if first.Done? {
        assert first == Closed(c, key, grown, true);
        StepEmits(c, key, s, b, rest, first.state, first.out);
      }
    }
  }

  lemma CleanEnd(c: Codec, key: Text, s: State)
    requires s.q < |key| && TokensClean(c, s.token, s.escaped, [], key, 0)
    ensures Released(c, key, s, s.token, Done([], s))
  {
    if s.token != [] {
      assert TokenClean(c, s.token, false, key, 0);
      ClosedClean(c, key, s, false);
    }
    hide TokenClean, TokensClean, Closed, Replacement;
  }

  lemma ReleasedAfter(c: Codec, key: Text, s: State, s': State, out: Text, hit: bool, b: Byte, rest: Text, run: Fed)
    requires s.q < |key| && s'.q < |key| && (run.Done? ==> run.state.q < |key|)
    requires Advances(c, key, s, s', out, hit, b, rest) && Released(c, key, s', s'.token + rest, run)
    ensures Prepend(out, run).Done? ==> Prepend(out, run).state.q < |key|
    ensures Released(c, key, s, s.token + ([b] + rest), Prepend(out, run))
  {
    hide TokensClean, Scan, Ended, Replacement;
    if run.Done? && Ended(c, key, run.state).Done? {
      var m := Scan(key, Replacement(key), s'.q, s'.token + rest);
      Assoc(out, run.out, Ended(c, key, run.state).out);
      Assoc(out, m.out, key[..m.matched]);
    }
  }

  lemma {:induction false} CleanFold(c: Codec, key: Text, s: State, value: Text)
    requires s.q < |key| && TokensClean(c, s.token, s.escaped, value, key, 0)
    ensures Released(c, key, s, s.token + value, Fold(c, key, s, value))
    decreases |value|
  {
    if value == [] {
      EmptyRight(s.token);
      CleanEnd(c, key, s);
    } else {
      var b, rest := value[0], value[1..];
      hide *;
      Uncons(value);
      FoldDef(c, key, s, b, rest);
      CleanStep(c, key, s, b, rest);
      var first := TakeByte(c, key, s, b);
      ThenDef(first, c, key, rest);
      if first.Done? {
        var hit :| Advances(c, key, s, first.state, first.out, hit, b, rest);
        AdvancesClean(c, key, s, first.state, first.out, hit, b, rest);
        CleanFold(c, key, first.state, rest);
        ReleasedAfter(c, key, s, first.state, first.out, hit, b, rest, Fold(c, key, first.state, rest));
      } else {
        RefusedReleases(c, key, s, s.token + value, Fold(c, key, s, value));
      }
    }
  }

  lemma ThenDef(first: Fed, c: Codec, key: Text, value: Text)
    requires first.Done? ==> first.state.q < |key|
    ensures first.Done? ==> Then(first, c, key, value) == Prepend(first.out, Fold(c, key, first.state, value))
    ensures first.Refused? ==> Then(first, c, key, value) == first
  {
    hide Fold;
  }

  lemma AdvancesClean(c: Codec, key: Text, s: State, s': State, out: Text, hit: bool, b: Byte, rest: Text)
    requires s.q < |key| && s'.q < |key| && Advances(c, key, s, s', out, hit, b, rest)
    ensures TokensClean(c, s'.token, s'.escaped, rest, key, 0)
  {
    hide TokensClean, Scan;
  }

  lemma RefusedReleases(c: Codec, key: Text, s: State, value: Text, run: Fed)
    requires s.q < |key| && run.Refused?
    ensures Released(c, key, s, value, run)
  {
  }

  function Start(budget: Budget): State { State(0, [], false, budget, 0, false) }

  /** A text none of whose layers contains the key passes through unchanged and
      unmarked, for every chunking, whenever the budgets admit it. */
  lemma CleanTextPassesThrough(c: Codec, key: Text, budget: Budget, chunks: seq<Text>)
    requires key != [] && !Occurs(Concat(chunks), key) && TokensClean(c, [], false, Concat(chunks), key, 0)
    ensures var run := WriteAll(c, key, Start(budget), chunks);
            run.Done? ==>
              run.state.q < |key| &&
              var end := Ended(c, key, run.state);
              end.Done? ==> run.out + end.out == Concat(chunks) && !end.state.redacted
  {
    var text, marker := Concat(chunks), Replacement(key);
    hide *;
    StartIs(budget);
    ChunkingIndependent(c, key, Start(budget), chunks);
    EmptyLeft(text);
    CleanFold(c, key, Start(budget), text);
    ScanProjects(key, marker, 0, text);
    Untouched(key, marker, text, Scan(key, marker, 0, text));
    ReleasedDef(c, key, Start(budget), text, Fold(c, key, Start(budget), text));
  }

  lemma StartIs(budget: Budget)
    ensures var s := Start(budget); s.q == 0 && s.token == [] && !s.escaped && !s.redacted && s.budget == budget
  {
  }

  lemma ReleasedDef(c: Codec, key: Text, s: State, value: Text, run: Fed)
    requires s.q < |key| && (run.Done? ==> run.state.q < |key|) && Released(c, key, s, value, run)
    ensures run.Done? && Ended(c, key, run.state).Done? ==>
              var end := Ended(c, key, run.state);
              var m := Scan(key, Replacement(key), s.q, value);
              run.out + end.out == m.out + key[..m.matched] && end.state.redacted == (s.redacted || m.hit)
  {
    hide Ended, Scan, Replacement;
  }

  lemma Untouched(key: Text, marker: Text, text: Text, m: Scanned)
    requires key != [] && !Occurs(text, key) && Projects(key, marker, 0, text, m)
    ensures m.matched < |key| && m.out + key[..m.matched] == text && !m.hit
  {
    EmptyLeft(text);
    FindNone(text, key);
    ReplaceAllDef(text, key, marker);
    hide ReplaceAll, Find, Tail, Longest, Occurs;
  }

  // ---- An unmarked run has seen the key in no layer ----

  /** Nothing has been marked, and nothing in the rest calls for it. */
  ghost predicate Silent(c: Codec, key: Text, s: State, value: Text)
    requires s.q < |key|
  {
    && !s.redacted
    && !Scan(key, Replacement(key), s.q, s.token + value).hit
    && (!Occurs(s.token + value, key) ==> TokensClean(c, s.token, s.escaped, value, key, 0))
  }

  lemma HitSplit(key: Text, q: nat, a: Text, b: Text)
    requires q < |key|
    ensures var m := Scan(key, Replacement(key), q, a);
            Scan(key, Replacement(key), q, a + b).hit == (m.hit || Scan(key, Replacement(key), m.matched, b).hit)
  {
    ScanSplit(key, Replacement(key), q, a, b);
    hide Scan, Replacement;
  }

  lemma OccursRest(a: Text, b: Text, key: Text)
    ensures Occurs(a, key) || Occurs(b, key) ==> Occurs(a + b, key)
  {
    assert (a + b)[..|a|] == (a + b)[0..|a|] == a && (a + b)[|a|..] == (a + b)[|a|..|a + b|] == b;
    hide Occurs;
    if Occurs(a, key) { OccursPart(a + b, key, 0, |a|); }
    if Occurs(b, key) { OccursPart(a + b, key, |a|, |a + b|); }
  }

  lemma SilentIntro(c: Codec, key: Text, s: State, value: Text)
    requires s.q < |key| && !s.redacted && !Scan(key, Replacement(key), s.q, s.token + value).hit
    requires !Occurs(s.token + value, key) ==> TokensClean(c, s.token, s.escaped, value, key, 0)
    ensures Silent(c, key, s, value)
  {
    hide TokensClean, Occurs;
  }

  lemma SilentIs(c: Codec, key: Text, s: State, value: Text)
    requires s.q < |key| && Silent(c, key, s, value)
    ensures !s.redacted && !Scan(key, Replacement(key), s.q, s.token + value).hit
    ensures !Occurs(s.token + value, key) ==> TokensClean(c, s.token, s.escaped, value, key, 0)
  {
    hide TokensClean, Occurs;
  }

  /** A closed token was neither changed nor hit by the matcher. */
  lemma ClosedSilent(c: Codec, key: Text, s: State, complete: bool)
    requires s.q < |key|
    ensures var r := Closed(c, key, s, complete);
            var m := Scan(key, Replacement(key), s.q, s.token);
            r.Done? ==> r.state.token == [] && r.state.escaped == s.escaped && (s.redacted ==> r.state.redacted)
                        && (!r.state.redacted ==> !m.hit && r.state.q == m.matched && (!Occurs(s.token, key) ==> TokenClean(c, s.token, complete, key, 0)))
  {
    TokenSame(c, s.token, complete, key, s.budget, 0);
    if !Occurs(s.token, key) { TokenChangedIff(c, s.token, complete, key, s.budget, 0); }
    hide Token, TokenClean, Scan, Replacement, Occurs;
  }

  lemma EmitSilent(key: Text, s: State, b: Byte)
    requires s.q < |key|
    ensures var r := Emit(key, s, [b]);
            var m := Scan(key, Replacement(key), s.q, [b]);
            r.Done? ==> r.state == s.(q := m.matched, output := r.state.output, redacted := s.redacted || m.hit)
  {
    hide Scan, Replacement;
  }

  /** Inside a token the byte only joins it. */
  lemma JoinSilent(c: Codec, key: Text, s: State, b: Byte, rest: Text, escaped: bool)
    requires s.q < |key| && Silent(c, key, s.(token := s.token + [b], escaped := escaped), rest)
    requires TokensClean(c, s.token + [b], escaped, rest, key, 0)
             ==> TokensClean(c, s.token, s.escaped, [b] + rest, key, 0)
    ensures Silent(c, key, s, [b] + rest)
  {
    hide *;
    Assoc(s.token, [b], rest);
    SilentIs(c, key, s.(token := s.token + [b], escaped := escaped), rest);
    SilentIntro(c, key, s, [b] + rest);
  }

  /** The token with b, or b alone, has left the tokenizer. */
  lemma LeaveSilent(c: Codec, key: Text, s: State, b: Byte, rest: Text, s': State)
    requires s.q < |key| && s'.q < |key| && s'.token == [] && Silent(c, key, s', rest)
    requires var m := Scan(key, Replacement(key), s.q, s.token + [b]);
             !s.redacted && !m.hit && s'.q == m.matched
    requires !Occurs(s.token + [b], key) && TokensClean(c, [], s'.escaped, rest, key, 0)
             ==> TokensClean(c, s.token, s.escaped, [b] + rest, key, 0)
    ensures Silent(c, key, s, [b] + rest)
  {
    hide *;
    Assoc(s.token, [b], rest);
    EmptyLeft(rest);
    SilentIs(c, key, s', rest);
    HitSplit(key, s.q, s.token + [b], rest);
    OccursRest(s.token + [b], rest, key);
    SilentIntro(c, key, s, [b] + rest);
  }

  lemma CleanUnfold(c: Codec, token: Text, escaped: bool, b: Byte, rest: Text, key: Text)
    ensures TokensClean(c, token, escaped, [b] + rest, key, 0)
            == if token == [] then TokensClean(c, if b == QUOTE then [QUOTE] else [], false, rest, key, 0)
               else if escaped then TokensClean(c, token + [b], false, rest, key, 0)
               else if b == BACKSLASH then TokensClean(c, token + [b], true, rest, key, 0)
               else if b == QUOTE then TokenClean(c, token + [b], true, key, 0) && TokensClean(c, [], false, rest, key, 0)
               else TokensClean(c, token + [b], false, rest, key, 0)
  {
    ConsTail(b, rest);
    hide TokenClean;
  }

  lemma TakeByteIs(c: Codec, key: Text, s: State, b: Byte)
    requires s.q < |key|
    ensures var grown := s.(token := s.token + [b]);
            TakeByte(c, key, s, b)
            == if s.token == [] then (if b == QUOTE then Done([], s.(token := [QUOTE], escaped := false)) else Emit(key, s, [b]))
               else if |s.token| >= s.budget.limit then Refused(s.budget)
               else if s.escaped then Done([], grown.(escaped := false))
               else if b == BACKSLASH then Done([], grown.(escaped := true))
               else if b == QUOTE then Closed(c, key, grown, true)
               else Done([], grown)
  {
    hide Emit, Closed;
  }

  lemma EndedIs(c: Codec, key: Text, s: State)
    requires s.q < |key|
    ensures Ended(c, key, s).Done? && s.token == [] ==> Ended(c, key, s).state.redacted == s.redacted
    ensures Ended(c, key, s).Done? && s.token != [] ==>
              Closed(c, key, s, false).Done? && Ended(c, key, s).state.redacted == Closed(c, key, s, false).state.redacted
  {
    hide Closed;
  }

  lemma NothingHits(key: Text, q: nat)
    requires q < |key|
    ensures !Scan(key, Replacement(key), q, []).hit
  {
  }

  lemma CleanNothing(c: Codec, token: Text, escaped: bool, key: Text)
    ensures TokensClean(c, token, escaped, [], key, 0) <==> token == [] || TokenClean(c, token, false, key, 0)
  {
    hide TokenClean;
  }

  lemma {:induction false} SilentFold(c: Codec, key: Text, s: State, value: Text)
    requires s.q < |key|
    ensures var run := Fold(c, key, s, value);
            run.Done? && Ended(c, key, run.state).Done? && !Ended(c, key, run.state).state.redacted ==> Silent(c, key, s, value)
    decreases |value|
  {
    var run := Fold(c, key, s, value);
    if run.Done? && Ended(c, key, run.state).Done? && !Ended(c, key, run.state).state.redacted {
      if value == [] {
        assert run == Done([], s);
        hide *;
        EndedIs(c, key, s);
        CleanNothing(c, s.token, s.escaped, key);
        EmptyRight(s.token);
        if s.token == [] { NothingHits(key, s.q); } else { ClosedSilent(c, key, s, false); }
        SilentIntro(c, key, s, []);
      } else {
        hide *;
        var b, rest, grown := value[0], value[1..], s.(token := s.token + [value[0]]);
        Uncons(value);
        FoldDef(c, key, s, b, rest);
        var first := TakeByte(c, key, s, b);
        ThenDef(first, c, key, rest);
        PrependState(first.out, Fold(c, key, first.state, rest));
        SilentFold(c, key, first.state, rest);
        SilentIs(c, key, first.state, rest);
        CleanUnfold(c, s.token, s.escaped, b, rest, key);
        TakeByteIs(c, key, s, b);
        if s.token == [] && b != QUOTE {
          EmptyLeft([b]);
          EmitSilent(key, s, b);
          LeaveSilent(c, key, s, b, rest, first.state);
        } else if s.token != [] && !s.escaped && b == QUOTE {
          ClosedSilent(c, key, grown, true);
          LeaveSilent(c, key, s, b, rest, first.state);
        } else {
          EmptyLeft([b]);
          JoinSilent(c, key, s, b, rest, s.token != [] && !s.escaped && b == BACKSLASH);
        }
      }
    }
  }

  lemma PrependState(out: Text, r: Fed)
    ensures Prepend(out, r).Done? <==> r.Done?
    ensures r.Done? ==> Prepend(out, r).state == r.state
  {
  }

  /** A completed run is marked if and only if the text, or a layer nested in one of
      its string tokens, contains the key; an unmarked run returns the text. */
  lemma MarkedIff(c: Codec, key: Text, budget: Budget, chunks: seq<Text>)
    requires key != []
    ensures var run, text := WriteAll(c, key, Start(budget), chunks), Concat(chunks);
            run.Done? ==>
              run.state.q < |key| &&
              var end := Ended(c, key, run.state);
              end.Done? ==>
                && (end.state.redacted <==> Occurs(text, key) || !TokensClean(c, [], false, text, key, 0))
                && (!end.state.redacted ==> run.out + end.out == text)
  {
    var text, marker := Concat(chunks), Replacement(key);
    var clean := !Occurs(text, key) && TokensClean(c, [], false, text, key, 0);
    hide *;
    StartIs(budget);
    ChunkingIndependent(c, key, Start(budget), chunks);
    SilentFold(c, key, Start(budget), text);
    EmptyLeft(text);
    var run := Fold(c, key, Start(budget), text);
    if run.Done? && Ended(c, key, run.state).Done? && !Ended(c, key, run.state).state.redacted {
      SilentIs(c, key, Start(budget), text);
      ScanProjects(key, marker, 0, text);
      NoHit(key, marker, text);
    }
    if clean {
      CleanTextPassesThrough(c, key, budget, chunks);
    }
  }

  lemma NoHit(key: Text, marker: Text, text: Text)
    requires key != [] && Projects(key, marker, 0, text, Scan(key, marker, 0, text))
    ensures !Scan(key, marker, 0, text).hit ==> !Occurs(text, key)
  {
    hide Scan, ReplaceAll, Longest, Tail;
    EmptyLeft(text);
  }

  /** The codec gives back what it has encoded. */
  ghost predicate Inverse(c: Codec) {
    forall text :: c.encode(text).Some? ==> c.decode([QUOTE] + c.encode(text).value + [QUOTE]) == Some(text)
  }

  /** For a key without brackets or parentheses, a complete token that is projected
      decodes to a text without the key, changed or not. */
  lemma DecodedTokenHidesKey(c: Codec, raw: Text, key: Text, b: Budget, depth: int)
    requires key != [] && 91 !in key && 93 !in key && 40 !in key && 41 !in key && Inverse(c)
    requires BACKSLASH in raw && c.decode(raw).Some?
    ensures var r := Token(c, raw, true, key, b, depth).result;
            r.Ok? ==> c.decode(r.value.text).Some? && !Occurs(c.decode(r.value.text).value, key)
  {
    var b1 := Charge(b, |raw|, depth).0;
    var value := c.decode(raw).value;
    var inner := Layer(c, value, key, b1, depth + 1);
    LayerChangedIff(c, value, key, b1, depth + 1);
    LayerHidesKey(c, value, key, b1, depth + 1);
    CleanIs(c, value, key, depth + 1);
    hide Layer, LayerClean, Literal, Occurs;
  }

  lemma CleanIs(c: Codec, value: Text, key: Text, depth: int)
    ensures LayerClean(c, value, key, depth) ==> !Occurs(value, key)
  {
    hide TokensClean, Occurs;
  }

  lemma LayerHidesKey(c: Codec, value: Text, key: Text, b: Budget, depth: int)
    requires key != [] && 91 !in key && 93 !in key && 40 !in key && 41 !in key
    ensures var r := Layer(c, value, key, b, depth).result;
            r.Ok? ==> !Occurs(r.value.text, key)
  {
    var (b1, ok) := Charge(b, |value|, depth);
    if ok {
      var p := Parts(c, value, 0, [], false, key, b1, depth).result;
      if p.Ok? {
        LiteralExact(p.value.text, key, b.limit);
        PlainKeyNeverDisclosed(p.value.text, key);
      }
    }
    hide Literal, Parts, Occurs, Replacement, ReplaceAll;
  }

  // ---- The key never leaves in clear ----

  /** A run is one pass of the literal matcher over some text. */
  ghost predicate Matched(key: Text, s: State, fed: Text, run: Fed)
    requires s.q < |key|
  {
    run.Done? ==> var m := Scan(key, Replacement(key), s.q, fed); run.out == m.out && run.state.q == m.matched
  }

  lemma MatchedThen(key: Text, s: State, fed: Text, first: Fed, rest: Text, run: Fed)
    requires s.q < |key| && (first.Done? ==> first.state.q < |key| && Matched(key, first.state, rest, run))
    requires Matched(key, s, fed, first)
    ensures first.Done? ==> Matched(key, s, fed + rest, Prepend(first.out, run))
  {
    hide Scan, Replacement;
    ScanSplit(key, Replacement(key), s.q, fed, rest);
  }

  lemma StepMatched(c: Codec, key: Text, s: State, b: Byte) returns (fed: Text)
    requires s.q < |key|
    ensures Matched(key, s, fed, TakeByte(c, key, s, b))
  {
    var t := Token(c, s.token + [b], true, key, s.budget, 0);
    fed := if s.token == [] then (if b == QUOTE then [] else [b])
           else if !s.escaped && b == QUOTE && t.result.Ok? then t.result.value.text else [];
    assert Scan(key, Replacement(key), s.q, []) == Scanned([], s.q, false);
    hide Token, Scan, Replacement;
  }

  lemma {:induction false} FoldMatched(c: Codec, key: Text, s: State, value: Text) returns (fed: Text)
    requires s.q < |key|
    ensures Matched(key, s, fed, Fold(c, key, s, value))
    decreases |value|
  {
    fed := [];
    if value != [] {
      var first := TakeByte(c, key, s, value[0]);
      fed := StepMatched(c, key, s, value[0]);
      Uncons(value);
      FoldDef(c, key, s, value[0], value[1..]);
      ThenDef(first, c, key, value[1..]);
      hide TakeByte, Fold, Then, Prepend, Scan;
      if first.Done? {
        var rest := FoldMatched(c, key, first.state, value[1..]);
        MatchedThen(key, s, fed, first, rest, Fold(c, key, first.state, value[1..]));
        fed := fed + rest;
      }
    }
  }

  lemma ClosedMatched(c: Codec, key: Text, s: State, complete: bool) returns (fed: Text)
    requires s.q < |key|
    ensures Matched(key, s, fed, Closed(c, key, s, complete))
  {
    var t := Token(c, s.token, complete, key, s.budget, 0);
    fed := if t.result.Ok? then t.result.value.text else [];
    hide Token, Scan, Replacement;
  }

  /** The end of a run releases exactly the withheld prefix. */
  lemma EndedMatched(c: Codec, key: Text, s: State) returns (fed: Text)
    requires s.q < |key|
    ensures var end := Ended(c, key, s);
            var m := Scan(key, Replacement(key), s.q, fed);
            end.Done? ==> end.out == m.out + key[..m.matched]
  {
    fed := [];
    if s.token != [] {
      fed := ClosedMatched(c, key, s, false);
    } else {
      EmptyLeft(key[..s.q]);
      assert Scan(key, Replacement(key), s.q, []) == Scanned([], s.q, false);
    }
    hide Closed, Scan, Replacement;
  }

  /** For a key without brackets or parentheses, no text, no chunking and no
      nesting makes a completed run disclose the key. */
  lemma KeyNeverDisclosed(c: Codec, key: Text, budget: Budget, chunks: seq<Text>)
    requires key != [] && 91 !in key && 93 !in key && 40 !in key && 41 !in key
    ensures var run := WriteAll(c, key, Start(budget), chunks);
            run.Done? ==>
              run.state.q < |key| &&
              var end := Ended(c, key, run.state);
              end.Done? ==> !Occurs(run.out + end.out, key)
  {
    var text, marker := Concat(chunks), Replacement(key);
    hide *;
    StartIs(budget);
    ChunkingIndependent(c, key, Start(budget), chunks);
    var run := Fold(c, key, Start(budget), text);
    var fed := FoldMatched(c, key, Start(budget), text);
    if run.Done? {
      var last := EndedMatched(c, key, run.state);
      var end := Ended(c, key, run.state);
      if end.Done? {
        MatchedDef(key, Start(budget), fed, run);
        WholeScan(key, marker, fed, last);
        var m := Scan(key, marker, run.state.q, last);
        Assoc(run.out, m.out, key[..m.matched]);
        PlainKeyNeverDisclosed(fed + last, key);
      }
    }
  }

  lemma MatchedDef(key: Text, s: State, fed: Text, run: Fed)
    requires s.q < |key| && Matched(key, s, fed, run) && run.Done?
    ensures var m := Scan(key, Replacement(key), s.q, fed); run.out == m.out && run.state.q == m.matched
  {
    hide Scan, Replacement;
  }

  /** Two passes of the matcher and the withheld prefix make one replacement. */
  lemma WholeScan(key: Text, marker: Text, a: Text, b: Text)
    requires key != []
    ensures var m := Scan(key, marker, 0, a);
            var n := Scan(key, marker, m.matched, b);
            (m.out + n.out) + key[..n.matched] == ReplaceAll(a + b, key, marker)
  {
    ScanSplit(key, marker, 0, a, b);
    ScanProjects(key, marker, 0, a + b);
    EmptyLeft(a + b);
    hide Scan, ReplaceAll, Tail, Longest, Find;
  }

  // ---- The stateful projection ----

  class ProjectionBudget {
    var work: int
    var nodes: int
    const limit: nat

    ghost function View(): Budget
      reads this
    {
      Budget(work, nodes, limit)
    }

    constructor (nodes: int, limit: nat)
      ensures View() == Budget(0, nodes, limit)
    {
      work, this.nodes, this.limit := 0, nodes, limit;
    }

    method Consume(size: nat, depth: int) returns (ok: bool)
      modifies this
      ensures ok <==> depth <= 32 && old(nodes) > 0 && size <= limit && old(work) + size <= 64 * 1024 * 1024
      ensures nodes == old(nodes) - 1 && work == old(work) + if ok then size else 0
      ensures (View(), ok) == Charge(old(View()), size, depth)
    {
      nodes := nodes - 1;
      if depth > MAX_DEPTH || nodes < 0 || size > limit || work > MAX_WORK - size {
        return false;
      }
      work := work + size;
      return true;
    }
  }

  /** Counts the backslashes at the end of an unfinished token. */
  method CountSlashes(raw: Text) returns (n: nat)
    ensures n == Slashes(raw)
  {
    n := 0;
    var i := |raw|;
    assert raw[..i] == raw;
    while i > 0 && raw[i - 1] == BACKSLASH
      invariant 0 <= i <= |raw| && n + Slashes(raw[..i]) == Slashes(raw)
    {
      assert raw[..i][..i - 1] == raw[..i - 1];
      n, i := n + 1, i - 1;
    }
  }

  method ReplaceKnown(value: Text, key: Text, limit: nat) returns (r: Result<Projection>)
    requires key != []
    ensures r.Err? <==> Occurs(value, key) && |ReplaceAll(value, key, Replacement(key))| > limit
    ensures r.Ok? ==> r.value.text == ReplaceAll(value, key, Replacement(key)) && (r.value.changed <==> Occurs(value, key))
    ensures r.Ok? && 91 !in key && 93 !in key && 40 !in key && 41 !in key ==> !Occurs(r.value.text, key)
    ensures r == Literal(value, key, limit)
  {
    LiteralExact(value, key, limit);
    ReplaceAllLength(value, key, Replacement(key));
    if 91 !in key && 93 !in key && 40 !in key && 41 !in key {
      PlainKeyNeverDisclosed(value, key);
    }
    hide Count, ReplaceAll, Replacement, Occurs;
    var count := Count(value, key);
    if count == 0 {
      return Ok(Projection(value, false));
    }
    var marker := Replacement(key);
    if |value| + count * (|marker| - |key|) > limit {
      return Err;
    }
    return Ok(Projection(ReplaceAll(value, key, marker), true));
  }

  method ProjectToken(c: Codec, raw: Text, complete: bool, key: Text, budget: ProjectionBudget, depth: int)
    returns (r: Result<Projection>)
    requires key != []
    modifies budget
    ensures Outcome(budget.View(), r) == Token(c, raw, complete, key, old(budget.View()), depth)
    decreases 34 - depth, 0
  {
    hide Literal, Layer, Replacement;
    var ok := budget.Consume(|raw|, depth);
    if !ok {
      return Err;
    }
    if BACKSLASH !in raw {
      ok := budget.Consume(0, depth + 1);
      if !ok {
        return Err;
      }
      r := ReplaceKnown(raw, key, budget.limit);
      return;
    }
    var source, trailingSlash := raw, false;
    if !complete {
      var backslashes := CountSlashes(raw);
      trailingSlash := backslashes % 2 != 0;
      if trailingSlash {
        source := source[..|source| - 1];
      }
      source := source + [QUOTE];
    }
    match c.decode(source)
    case None =>
      r := ReplaceKnown(raw, key, budget.limit);
    case Some(decoded) =>
      r := ProjectText(c, decoded, key, budget, depth + 1);
      if r.Err? {
        return;
      }
      if !r.value.changed {
        return Ok(Projection(raw, false));
      }
      var encoded := Rebuild(c, r.value.text, raw, complete, trailingSlash, budget.limit);
      if encoded.Err? {
        return Err;
      }
      return Ok(Projection(encoded.value, true));
  }

  /** Re-encodes a changed token and reopens it when the original was unfinished. */
  method Rebuild(c: Codec, text: Text, raw: Text, complete: bool, trailingSlash: bool, limit: nat)
    returns (r: Result<Text>)
    requires trailingSlash == Trailing(raw, complete)
    ensures r == Reencode(c, text, raw, complete, limit)
  {
    match c.encode(text)
    case None => return Err;
    case Some(body) =>
      if |body| + 2 > limit {
        return Err;
      }
      var encoded := [QUOTE] + body + [QUOTE];
      if !complete {
        assert encoded[..|encoded| - 1] == [QUOTE] + body;
        encoded := encoded[..|encoded| - 1];
        if trailingSlash {
          encoded := encoded + [BACKSLASH];
        }
      }
      return Ok(encoded);
  }

  /** Scans one string token to its closing quote. */
  method ScanToken(value: Text, start: nat) returns (end: nat, complete: bool)
    requires start <= |value|
    ensures (end, complete) == TokenEnd(value, start, false)
  {
    var escaped := false;
    end, complete := start, false;
    while end < |value|
      invariant start <= end <= |value|
      invariant TokenEnd(value, end, escaped) == TokenEnd(value, start, false)
    {
      var b := value[end];
      end := end + 1;
      if escaped {
        escaped := false;
      } else if b == BACKSLASH {
        escaped := true;
      } else if b == QUOTE {
        return end, true;
      }
    }
  }

  method ProjectText(c: Codec, value: Text, key: Text, budget: ProjectionBudget, depth: int)
    returns (r: Result<Projection>)
    requires key != []
    modifies budget
    ensures Outcome(budget.View(), r) == Layer(c, value, key, old(budget.View()), depth)
    decreases 34 - depth, |value| + 1
  {
    hide Literal, Token, TokenEnd, Replacement;
    var ok := budget.Consume(|value|, depth);
    if !ok {
      return Err;
    }
    ghost var b1 := budget.View();
    var out, changed, start := [], false, 0;
    while start < |value|
      invariant 0 <= start <= |value|
      invariant Parts(c, value, start, out, changed, key, budget.View(), depth) == Parts(c, value, 0, [], false, key, b1, depth)
    {
      var index := IndexQuote(value, start);
      if index < 0 {
        if |value| - start > budget.limit - |out| {
          return Err;
        }
        out := out + value[start..];
        start := |value|;
      } else {
        if index - start > budget.limit - |out| {
          return Err;
        }
        var end, complete := ScanToken(value, index + 1);
        var token := ProjectToken(c, value[index..end], complete, key, budget, depth + 1);
        if token.Err? {
          return Err;
        }
        out := out + value[start..index];
        if |token.value.text| > budget.limit - |out| {
          return Err;
        }
        out := out + token.value.text;
        changed := changed || token.value.changed;
        start := end;
      }
    }
    var last := ReplaceKnown(out, key, budget.limit);
    if last.Err? {
      return Err;
    }
    return Ok(Projection(last.value.text, changed || last.value.changed));
  }

  lemma OpenToken(c: Codec, key: Text, s: State, rest: Text)
    requires s.q < |key| && s.token == []
    ensures Fold(c, key, s, [QUOTE] + rest) == Fold(c, key, s.(token := [QUOTE], escaped := false), rest)
  {
    FoldDef(c, key, s, QUOTE, rest);
    hide Fold;
    PrependNothing(Fold(c, key, s.(token := [QUOTE], escaped := false), rest));
  }

  /** Plain text up to a quote, then an opened token. */
  lemma PlainThenQuote(c: Codec, key: Text, s: State, rest: Text, index: nat)
    requires s.q < |key| && s.token == [] && s.output <= s.budget.limit
    requires index < |rest| && rest[index] == QUOTE && forall i :: 0 <= i < index ==> rest[i] != QUOTE
    ensures var head := Emit(key, s, rest[..index]);
            Fold(c, key, s, rest)
            == if head.Refused? then head
               else Prepend(head.out, Fold(c, key, head.state.(token := [QUOTE], escaped := false), rest[index + 1..]))
  {
    hide *;
    var head := Emit(key, s, rest[..index]);
    EmitKeepsToken(key, s, rest[..index]);
    FoldPlain(c, key, s, rest[..index]);
    FoldSplit(c, key, s, rest[..index], rest[index..]);
    Split(rest, index);
    ThenDef(head, c, key, rest[index..]);
    if head.Done? {
      Uncons(rest[index..]);
      DropDrop(rest, index);
      OpenToken(c, key, head.state, rest[index + 1..]);
    }
  }

  lemma DropDrop(s: Text, k: nat)
    requires k < |s|
    ensures s[k..][0] == s[k] && s[k..][1..] == s[k + 1..]
  {
  }

  lemma EmitKeepsToken(key: Text, s: State, value: Text)
    requires s.q < |key|
    ensures var r := Emit(key, s, value);
            r.Done? ==> r.state.token == s.token && r.state.escaped == s.escaped && r.state.output <= r.state.budget.limit
  {
    hide Scan, Replacement;
  }

  /** A run has reached the same point as `whole` once `out` has been released. */
  ghost predicate Remaining(c: Codec, key: Text, whole: Fed, out: Text, s: State, rest: Text)
    requires s.q < |key|
  {
    whole == Prepend(out, Fold(c, key, s, rest))
  }

  lemma RemainingStep(c: Codec, key: Text, whole: Fed, out: Text, s: State, rest: Text)
    requires s.q < |key| && rest != [] && Remaining(c, key, whole, out, s, rest)
    ensures var first := TakeByte(c, key, s, rest[0]);
            && (first.Refused? ==> whole == first)
            && (first.Done? ==> Remaining(c, key, whole, out + first.out, first.state, rest[1..]))
  {
    var first := TakeByte(c, key, s, rest[0]);
    Uncons(rest);
    FoldDef(c, key, s, rest[0], rest[1..]);
    hide TakeByte, Fold;
    if first.Done? { PrependAssoc(out, first.out, Fold(c, key, first.state, rest[1..])); }
  }

  lemma RemainingPlain(c: Codec, key: Text, whole: Fed, out: Text, s: State, rest: Text)
    requires s.q < |key| && s.token == [] && s.output <= s.budget.limit && Remaining(c, key, whole, out, s, rest)
    ensures var index := IndexQuote(rest, 0);
            var head := Emit(key, s, if index < 0 then rest else rest[..index]);
            && (head.Refused? ==> whole == head)
            && (head.Done? && index < 0 ==> whole == Prepend(out, head))
            && (head.Done? && index >= 0 ==>
                  Remaining(c, key, whole, out + head.out, head.state.(token := [QUOTE], escaped := false), rest[index + 1..]))
  {
    var index := IndexQuote(rest, 0);
    if index < 0 {
      FoldPlain(c, key, s, rest);
      hide Fold, Emit, IndexQuote;
    } else {
      PlainThenQuote(c, key, s, rest, index);
      hide Fold, Emit, IndexQuote;
      var head := Emit(key, s, rest[..index]);
      if head.Done? {
        PrependAssoc(out, head.out, Fold(c, key, head.state.(token := [QUOTE], escaped := false), rest[index + 1..]));
      }
    }
  }

  lemma RemainingStart(c: Codec, key: Text, s: State, value: Text)
    requires s.q < |key|
    ensures Remaining(c, key, Fold(c, key, s, value), [], s, value)
  {
    hide Fold;
    PrependNothing(Fold(c, key, s, value));
  }

  lemma RemainingDone(c: Codec, key: Text, whole: Fed, out: Text, s: State)
    requires s.q < |key| && Remaining(c, key, whole, out, s, [])
    ensures whole == Done(out, s)
  {
    EmptyRight(out);
  }

  lemma RemainingNone(c: Codec, key: Text, whole: Fed, out: Text, text: Text, s: State)
    requires s.q < |key| && whole == Prepend(out, Done(text, s))
    ensures Remaining(c, key, whole, out + text, s, [])
  {
    EmptyRight(out + text);
  }

  class EncodedFilter {
    const codec: Codec
    const literal: CredentialFilter
    const budget: ProjectionBudget
    const limit: nat
    var token: Text
    var escaped: bool
    var output: nat
    var redacted: bool

    ghost predicate Valid()
      reads this, literal, literal.prefix
    {
      && literal.Valid()
      && limit == budget.limit
      && output <= limit
      && (literal.redacted ==> redacted)
      && (literal.key == [] ==> token == [])
    }

    ghost function View(): State
      reads this, literal, budget
    {
      State(literal.matched, token, escaped, budget.View(), output, redacted)
    }

    constructor (codec: Codec, key: Text, nodes: int, limit: nat)
      ensures Valid() && literal.key == key && this.codec == codec && this.limit == limit
      ensures View() == Start(Budget(0, nodes, limit))
      ensures fresh(literal) && fresh(literal.prefix) && fresh(budget)
    {
      this.codec, this.limit := codec, limit;
      literal := new CredentialFilter(key);
      budget := new ProjectionBudget(nodes, limit);
      token, escaped, output, redacted := [], false, 0, false;
    }

    method Append(value: Text) returns (r: Result<Text>)
      requires Valid() && literal.key != []
      modifies this`output, this`redacted, literal
      ensures match Emit(literal.key, old(View()), value)
              case Refused(b) => r == Err && budget.View() == b
              case Done(o, s) => r == Ok(o) && Valid() && View() == s
    {
      hide Replacement, Scan;
      var text, _ := literal.Write(value);
      if |text| > limit - output {
        return Err;
      }
      output := output + |text|;
      redacted := redacted || literal.redacted;
      return Ok(text);
    }

    /** Projects the token read so far and passes it on. */
    method CloseToken(complete: bool) returns (r: Result<Text>)
      requires Valid() && literal.key != []
      modifies this, literal, budget
      ensures match Closed(codec, literal.key, old(View()), complete)
              case Refused(b) => r == Err && budget.View() == b
              case Done(o, s) => r == Ok(o) && Valid() && View() == s
    {
      hide Token, Emit;
      var projected := ProjectToken(codec, token, complete, literal.key, budget, 0);
      token := [];
      if projected.Err? {
        return Err;
      }
      redacted := redacted || projected.value.changed;
      r := Append(projected.value.text);
    }
  
    /** One byte inside a token. */
    method TokenByte(b: Byte) returns (r: Result<Text>)
      requires Valid() && literal.key != [] && token != []
      modifies this, literal, budget
      ensures match TakeByte(codec, literal.key, old(View()), b)
              case Refused(b) => r == Err && budget.View() == b
              case Done(o, s) => r == Ok(o) && Valid() && View() == s
    {
      hide Closed, Emit;
      if |token| >= limit {
        return Err;
      }
      token := token + [b];
      if escaped {
        escaped := false;
      } else if b == BACKSLASH {
        escaped := true;
      } else if b == QUOTE {
        r := CloseToken(true);
        return;
      }
      return Ok([]);
    }

    /** Passes on the text before the next token and opens it; without one nothing is
        left. */
    method PlainText(value: Text, ghost whole: Fed, ghost out: Text) returns (r: Result<Text>, rest: Text)
      requires Valid() && literal.key != [] && token == [] && value != []
      requires Remaining(codec, literal.key, whole, out, View(), value)
      modifies this`token, this`escaped, this`output, this`redacted, literal
      ensures r.Err? ==> whole == Refused(budget.View())
      ensures r.Ok? ==> Valid() && |rest| < |value| && Remaining(codec, literal.key, whole, out + r.value, View(), rest)
    {
      hide Fold, Emit, Prepend, Remaining;
      RemainingPlain(codec, literal.key, whole, out, View(), value);
      var index := IndexQuote(value, 0);
      hide IndexQuote;
      rest := [];
      r := Append(if index < 0 then value else value[..index]);
      if r.Err? {
        return;
      }
      if index < 0 {
        RemainingNone(codec, literal.key, whole, out, r.value, View());
        return;
      }
      token, escaped := [QUOTE], false;
      rest := value[index + 1..];
    }

    method Write(value: Text) returns (r: Result<Text>)
      requires Valid()
      modifies this, literal, budget
      ensures literal.key == [] ==> r == Ok(value) && Valid() && View() == old(View())
      ensures literal.key != [] ==>
                match Fold(codec, literal.key, old(View()), value)
                case Refused(b) => r == Err && budget.View() == b
                case Done(o, s) => r == Ok(o) && Valid() && View() == s
    {
      if literal.key == [] {
        return Ok(value);
      }
      ghost var key, s0 := literal.key, View();
      ghost var whole := Fold(codec, key, s0, value);
      var out, rest := [], value;
      hide Fold, Emit, Closed, Prepend, TakeByte, Remaining;
      RemainingStart(codec, key, s0, value);
      while rest != []
        invariant Valid() && literal.key == key
        invariant Remaining(codec, key, whole, out, View(), rest)
        decreases |rest|
      {
        if token == [] {
          var head;
          head, rest := PlainText(rest, whole, out);
          if head.Err? {
            return Err;
          }
          out := out + head.value;
        } else {
          RemainingStep(codec, key, whole, out, View(), rest);
          var next := TokenByte(rest[0]);
          if next.Err? {
            return Err;
          }
          out := out + next.value;
          rest := rest[1..];
        }
      }
      RemainingDone(codec, key, whole, out, View());
      return Ok(out);
    }

    method Finish() returns (r: Result<Text>)
      requires Valid()
      modifies this, literal, budget
      ensures literal.key == [] ==> r == Ok([])
      ensures literal.key != [] ==>
                match Ended(codec, literal.key, old(View()))
                case Refused(b) => r == Err && budget.View() == b
                case Done(o, s) => r == Ok(o) && Valid() && View() == s
    {
      hide Closed;
      var out := [];
      if token != [] {
        var projected := CloseToken(false);
        if projected.Err? {
          return Err;
        }
        out := projected.value;
      }
      var tail := literal.Finish();
      if |tail| > limit - output {
        return Err;
      }
      output := output + |tail|;
      if literal.key == [] { EmptyLeft(tail); }
      return Ok(out + tail);
    }
  }
}
