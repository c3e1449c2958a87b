/** What the string tokens of a projected text decode to, layer by layer, when strings
    are decoded by the grammar of JSON (encoding/json in internal/ai/encoded_credential.go). */
module NestedCredential {
  import opened Prelude
  import opened CredentialMatcher
  import opened EncodedCredential

  // ---- The grammar of a string ----

  /** What \uXXXX and surrogate pairs stand for, in UTF-8. */
  datatype Unicode = Unicode(unit: nat -> Text, pair: (nat, nat) -> Text)

  predicate IsHex(b: Byte) { 48 <= b <= 57 || 65 <= b <= 70 || 97 <= b <= 102 }

  function Hex(b: Byte): nat
    requires IsHex(b)
  {
    if b <= 57 then b - 48 else if b <= 70 then b - 55 else b - 87
  }

  /** The byte that a short escape stands for. */
  function Short(b: Byte): Option<Byte> {
    match b
    case 34 => Some(34)
    case 92 => Some(92)
    case 47 => Some(47)
    case 98 => Some(8)
    case 102 => Some(12)
    case 110 => Some(10)
    case 114 => Some(13)
    case 116 => Some(9)
    case _ => None
  }

  /** The code unit of \uXXXX at the front. */
  function Unit(b: Text): Option<nat> {
    if |b| >= 6 && b[0] == BACKSLASH && b[1] == 117 && IsHex(b[2]) && IsHex(b[3]) && IsHex(b[4]) && IsHex(b[5])
    then Some(((Hex(b[2]) * 16 + Hex(b[3])) * 16 + Hex(b[4])) * 16 + Hex(b[5]))
    else None
  }

  predicate HighLow(high: nat, low: nat) { 0xD800 <= high < 0xDC00 && 0xDC00 <= low < 0xE000 }

  /** The length of the first item of a string body, and what it decodes to. */
  function Item(u: Unicode, b: Text): (r: Option<(nat, Text)>)
    requires b != []
    ensures r.Some? ==> 0 < r.value.0 <= |b|
  {
    if b[0] != BACKSLASH then (if b[0] < 32 || b[0] == QUOTE then None else Some((1, [b[0]])))
    else if |b| == 1 then None
    else if b[1] != 117 then (if Short(b[1]).Some? then Some((2, [Short(b[1]).value])) else None)
    else
      match Unit(b)
      case None => None
      case Some(high) =>
        var next := Unit(b[6..]);
        if next.Some? && HighLow(high, next.value) then Some((12, u.pair(high, next.value))) else Some((6, u.unit(high)))
  }

  /** The text of a string body; none if it is malformed. */
  function Body(u: Unicode, b: Text): Option<Text>
    decreases |b|
  {
    if b == [] then Some([])
    else
      match Item(u, b)
      case None => None
      case Some(item) => Prefixed(item.1, Body(u, b[item.0..]))
  }

  function Prefixed(x: Text, r: Option<Text>): Option<Text> {
    match r
    case None => None
    case Some(y) => Some(x + y)
  }

  lemma PrefixedAssoc(x: Text, y: Text, r: Option<Text>)
    ensures Prefixed(x, Prefixed(y, r)) == Prefixed(x + y, r)
  {
    if r.Some? { Assoc(x, y, r.value); }
  }

  /** The decoder follows the grammar, and undoes what was encoded. */
  ghost predicate Decodes(c: Codec, u: Unicode) {
    && (forall body :: c.decode([QUOTE] + body + [QUOTE]) == Body(u, body))
    && Inverse(c)
  }

  /** Bytes of a key that stand for themselves in a string and are not in a marker. */
  ghost predicate PlainKey(key: Text) {
    key != [] && forall b :: b in key ==> b >= 32 && b != QUOTE && b != BACKSLASH && b != 91 && b != 93 && b != 40 && b != 41
  }

  predicate Opens(t: Text) { t != [] && (t[0] == 91 || t[0] == 40) }

  ghost predicate Neutral(t: Text) { t != [] && forall b :: b in t ==> b >= 32 && b != QUOTE && b != BACKSLASH }

  lemma MarkerNeutral(key: Text)
    ensures Neutral(Replacement(key)) && Opens(Replacement(key)) && QUOTE !in Replacement(key)
            && BACKSLASH !in Replacement(key)
  {
  }

  lemma KeyNeutral(key: Text)
    requires PlainKey(key)
    ensures key != [] && Neutral(key) && key[0] != BACKSLASH && QUOTE !in key && BACKSLASH !in key
    ensures 91 !in key && 93 !in key && 40 !in key && 41 !in key
  {
    assert key[0] in key;
  }

  // ---- Bodies put together ----

  lemma UnitLonger(b: Text, t: Text)
    ensures |b| >= 6 ==> Unit(b + t) == Unit(b)
    ensures |b| < 6 && (Opens(t) || t == []) ==> Unit(b + t).None?
    ensures |b| < 6 && b != [] && b[0] != BACKSLASH ==> Unit(b + t).None?
    ensures b == [] && (t == [] || t[0] != BACKSLASH) ==> Unit(b + t).None?
  {
  }

  lemma UnitShort(u: Unicode, b: Text)
    requires |b| < 6 && b != [] && b[0] == BACKSLASH && Item(u, b).Some?
    ensures forall t :: Unit(b + t).None?
  {
  }

  /** Text after a complete body leaves its first item as it is. */
  lemma ItemStays(u: Unicode, b: Text, t: Text)
    requires b != [] && Item(u, b).Some? && (t == [] || t[0] != BACKSLASH) && Body(u, b[Item(u, b).value.0..]).Some?
    ensures Item(u, b + t) == Item(u, b)
  {
    UnitLonger(b, t);
    if Unit(b).Some? {
      assert (b + t)[6..] == b[6..] + t;
      UnitLonger(b[6..], t);
      if 0 < |b[6..]| < 6 && b[6] == BACKSLASH && Item(u, b).value.0 == 6 { UnitShort(u, b[6..]); }
    }
  }

  /** A bracket after a body that breaks off does not complete it. */
  lemma ItemBreaks(u: Unicode, b: Text, t: Text)
    requires b != [] && Opens(t)
    ensures Item(u, b).None? ==> Item(u, b + t).None?
    ensures Item(u, b).Some? ==> Item(u, b + t) == Item(u, b)
  {
    UnitLonger(b, t);
    if |b| >= 6 {
      assert (b + t)[6..] == b[6..] + t;
      UnitLonger(b[6..], t);
    }
  }

  lemma {:induction false} BreaksOff(u: Unicode, b: Text, t: Text)
    requires Body(u, b).None? && Opens(t)
    ensures Body(u, b + t).None?
    decreases |b|
  {
    ItemBreaks(u, b, t);
    if Item(u, b).Some? {
      var n := Item(u, b).value.0;
      assert (b + t)[n..] == b[n..] + t;
      BreaksOff(u, b[n..], t);
    }
    hide Item;
  }

  lemma {:induction false} Joined(u: Unicode, b: Text, t: Text)
    requires Body(u, b).Some? && (t == [] || t[0] != BACKSLASH)
    ensures Body(u, b + t) == Prefixed(Body(u, b).value, Body(u, t))
    decreases |b|
  {
    if b == [] {
      EmptyLeft(t);
      if Body(u, t).Some? { EmptyLeft(Body(u, t).value); }
    } else {
      var n, x := Item(u, b).value.0, Item(u, b).value.1;
      ItemStays(u, b, t);
      assert (b + t)[n..] == b[n..] + t;
      Joined(u, b[n..], t);
      hide Item;
      PrefixedAssoc(x, Body(u, b[n..]).value, Body(u, t));
    }
  }

  /** Plain bytes stand for themselves. */
  lemma {:induction false} PlainBody(u: Unicode, k: Text, t: Text)
    requires Neutral(k) || k == []
    ensures Body(u, k + t) == Prefixed(k, Body(u, t))
    decreases |k|
  {
    if k == [] {
      EmptyLeft(t);
      if Body(u, t).Some? { EmptyLeft(Body(u, t).value); }
    } else {
      assert k[0] in k;
      assert (k + t)[1..] == k[1..] + t && (k + t)[0] == k[0];
      forall b | b in k[1..] ensures b in k {}
      PlainBody(u, k[1..], t);
      Uncons(k);
      PrefixedAssoc([k[0]], k[1..], Body(u, t));
    }
  }

  // ---- Replacing in a body ----

  lemma FoundParts(s: Text, key: Text, marker: Text)
    requires key != [] && Find(s, key, 0) != -1
    ensures var k := Find(s, key, 0);
            && 0 <= k && k + |key| <= |s|
            && s == s[..k] + (key + s[k + |key|..])
            && ReplaceAll(s, key, marker) == s[..k] + (marker + ReplaceAll(s[k + |key|..], key, marker))
  {
    hide *;
    var k := Find(s, key, 0);
    FoundInside(s, key);
    FoundKey(s, key);
    FoundReplaced(s, key, marker);
    KeyBetween(s, k, key);
  }

  lemma KeyBetween(s: Text, k: nat, key: Text)
    requires k + |key| <= |s| && s[k..k + |key|] == key
    ensures s == s[..k] + (key + s[k + |key|..])
  {
    ThreeParts(s, k, k + |key|);
  }

  lemma FoundReplaced(s: Text, key: Text, marker: Text)
    requires key != [] && Find(s, key, 0) != -1
    ensures var k := Find(s, key, 0);
            0 <= k && k + |key| <= |s| && ReplaceAll(s, key, marker) == s[..k] + (marker + ReplaceAll(s[k + |key|..], key, marker))
  {
    hide *;
    FoundInside(s, key);
    ReplaceAllDef(s, key, marker);
    var k := Find(s, key, 0);
    Assoc(s[..k], marker, ReplaceAll(s[k + |key|..], key, marker));
  }

  lemma FoundKey(s: Text, key: Text)
    requires Find(s, key, 0) != -1
    ensures var k := Find(s, key, 0); 0 <= k && k + |key| <= |s| && s[k..k + |key|] == key
  {
  }

  lemma ThreeParts(s: Text, i: nat, j: nat)
    requires i <= j <= |s|
    ensures s == s[..i] + (s[i..j] + s[j..])
  {
    assert s[i..] == s[i..j] + s[j..];
    Split(s, i);
  }

  lemma NotFound(s: Text, key: Text, marker: Text)
    requires key != []
    ensures Find(s, key, 0) == -1 <==> !Occurs(s, key)
    ensures !Occurs(s, key) ==> ReplaceAll(s, key, marker) == s
  {
    FindNone(s, key);
    ReplaceAllDef(s, key, marker);
    hide *;
  }

  lemma OccursWithin(a: Text, key: Text, b: Text)
    ensures Occurs(a + (key + b), key)
  {
    SliceSum(a, key + b, |key|);
    assert (a + (key + b))[|a|..|a| + |key|] == key;
    assert OccursAt(a + (key + b), key, |a|);
  }

  /** A key in a body that is malformed, or whose text does not have it, begins inside an
      escape or stands beside malformed text; either way the replaced body is malformed. */
  lemma {:induction false} ReplacedBody(u: Unicode, s: Text, key: Text, marker: Text)
    requires PlainKey(key) && Neutral(marker) && Opens(marker) && Occurs(s, key)
    requires Body(u, s).Some? ==> !Occurs(Body(u, s).value, key)
    ensures Body(u, ReplaceAll(s, key, marker)).None?
    decreases |s|
  {
    hide *;
    KeyNeutral(key);
    NotFound(s, key, marker);
    FoundParts(s, key, marker);
    var k := Find(s, key, 0);
    var a, rest := s[..k], s[k + |key|..];
    var replaced := ReplaceAll(rest, key, marker);
    OpensSum(marker, replaced);
    if Body(u, a).None? {
      BreaksOff(u, a, marker + replaced);
    } else {
      KeyDecoded(u, a, rest, key);
      NotFound(rest, key, marker);
      if Occurs(rest, key) { ReplacedBody(u, rest, key, marker); }
      Joined(u, a, marker + replaced);
      PlainBody(u, marker, replaced);
      PrefixedNone(marker, Body(u, replaced));
      PrefixedNone(Body(u, a).value, Body(u, marker + replaced));
    }
  }

  lemma PrefixedNone(x: Text, r: Option<Text>)
    ensures Prefixed(x, r).None? <==> r.None?
  {
  }

  lemma OpensSum(marker: Text, t: Text)
    requires Opens(marker)
    ensures Opens(marker + t) && (marker + t)[0] != BACKSLASH
  {
  }

  lemma KeyDecoded(u: Unicode, a: Text, rest: Text, key: Text)
    requires PlainKey(key) && Body(u, a).Some?
    requires Body(u, a + (key + rest)).Some? ==> !Occurs(Body(u, a + (key + rest)).value, key)
    ensures Body(u, rest).None?
  {
    hide *;
    KeyNeutral(key);
    Joined(u, a, key + rest);
    PlainBody(u, key, rest);
    KeyAppears(Body(u, a).value, key, Body(u, rest));
  }

  lemma KeyAppears(x: Text, key: Text, r: Option<Text>)
    ensures r.Some? ==> Prefixed(x, Prefixed(key, r)).Some? && Occurs(Prefixed(x, Prefixed(key, r)).value, key)
  {
    if r.Some? { OccursWithin(x, key, r.value); }
    hide Occurs;
  }

  // ---- Where tokens end ----

  /** Reads inside a token: none at an unescaped quote, else whether an escape is open. */
  function Esc(b: Text, e: bool): Option<bool>
    decreases |b|
  {
    if b == [] then Some(e)
    else if e then Esc(b[1..], false)
    else if b[0] == BACKSLASH then Esc(b[1..], true)
    else if b[0] == QUOTE then None
    else Esc(b[1..], false)
  }

  lemma {:induction false} EscJoin(a: Text, b: Text, e: bool)
    ensures Esc(a + b, e) == match Esc(a, e) case None => None case Some(f) => Esc(b, f)
    decreases |a|
  {
    if a == [] {
      EmptyLeft(b);
    } else {
      assert (a + b)[1..] == a[1..] + b && (a + b)[0] == a[0];
      EscJoin(a[1..], b, if e then false else a[0] == BACKSLASH);
    }
  }

  lemma {:induction false} EscNeutral(k: Text, e: bool)
    requires Neutral(k) || (k == [] && !e)
    ensures Esc(k, e) == Some(false)
    decreases |k|
  {
    if k != [] {
      assert k[0] in k && k[0] != BACKSLASH && k[0] != QUOTE;
      forall b | b in k[1..] ensures b in k {}
      assert k[1..] == [] || Neutral(k[1..]);
      EscNeutral(k[1..], false);
      assert Esc(k, e) == Esc(k[1..], false);
    }
  }

  lemma {:induction false} EscReplace(s: Text, key: Text, marker: Text, e: bool)
    requires PlainKey(key) && Neutral(marker)
    ensures Esc(ReplaceAll(s, key, marker), e) == Esc(s, e)
    decreases |s|
  {
    hide *;
    KeyNeutral(key);
    NotFound(s, key, marker);
    if Find(s, key, 0) != -1 {
      FoundParts(s, key, marker);
      var k := Find(s, key, 0);
      var a, rest := s[..k], s[k + |key|..];
      EscJoin(a, key + rest, e);
      EscJoin(a, marker + ReplaceAll(rest, key, marker), e);
      if Esc(a, e).Some? {
        var f := Esc(a, e).value;
        EscJoin(key, rest, f);
        EscJoin(marker, ReplaceAll(rest, key, marker), f);
        EscNeutral(key, f);
        EscNeutral(marker, f);
        EscReplace(rest, key, marker, false);
      }
    }
  }

  lemma ItemEsc(u: Unicode, b: Text)
    requires b != [] && Item(u, b).Some?
    ensures Esc(b[..Item(u, b).value.0], false) == Some(false)
  {
    var n := Item(u, b).value.0;
    if n == 1 {
      assert b[..1] == [b[0]] && b[..1][1..] == [];
    } else if n == 2 {
      assert b[..2] == [BACKSLASH] + [b[1]];
      ShortEsc(b[1]);
    } else {
      UnitEsc(b);
      if n == 12 {
        UnitEsc(b[6..]);
        assert b[..12] == b[..6] + b[6..][..6];
        EscJoin(b[..6], b[6..][..6], false);
      }
    }
  }

  lemma ShortEsc(b: Byte)
    ensures Esc([BACKSLASH] + [b], false) == Some(false)
  {
    EscJoin([BACKSLASH], [b], false);
    assert [BACKSLASH][1..] == [] && [b][1..] == [];
    assert Esc([BACKSLASH], false) == Some(true) && Esc([b], true) == Some(false);
  }

  lemma UnitEsc(b: Text)
    requires Unit(b).Some?
    ensures Esc(b[..6], false) == Some(false)
  {
    var x := b[..6];
    assert x == [BACKSLASH] + ([117] + [b[2], b[3], b[4], b[5]]);
    EscJoin([BACKSLASH], [117] + [b[2], b[3], b[4], b[5]], false);
    EscJoin([117], [b[2], b[3], b[4], b[5]], true);
    EscNeutral([b[2], b[3], b[4], b[5]], false);
    assert Esc([BACKSLASH], false) == Some(true);
    assert Esc([117], true) == Some(false);
  }

  /** A well-formed body runs up to its closing quote. */
  lemma {:induction false} BodyEsc(u: Unicode, b: Text)
    requires Body(u, b).Some?
    ensures Esc(b, false) == Some(false)
    decreases |b|
  {
    if b != [] {
      var n := Item(u, b).value.0;
      ItemEsc(u, b);
      BodyEsc(u, b[n..]);
      EscJoin(b[..n], b[n..], false);
      Split(b, n);
      hide Item, Esc;
    }
  }

  /** A string token: from its quote to the closing one, or to the end. */
  ghost predicate IsToken(raw: Text, complete: bool) {
    |raw| >= 1 && raw[0] == QUOTE &&
    if complete then |raw| >= 2 && raw[|raw| - 1] == QUOTE && Esc(raw[1..|raw| - 1], false) == Some(false) else Esc(raw[1..], false).Some?
  }

  lemma {:induction false} TokenEndIs(value: Text, at: nat, e: bool)
    requires at <= |value|
    ensures var (end, complete) := TokenEnd(value, at, e);
            && (complete ==> at < end <= |value| && value[end - 1] == QUOTE && Esc(value[at..end - 1], e) == Some(false))
            && (!complete ==> end == |value| && Esc(value[at..], e).Some?)
    decreases |value| - at
  {
    if at < |value| {
      var f := if e then false else value[at] == BACKSLASH;
      assert value[at..][1..] == value[at + 1..];
      if e || value[at] != QUOTE {
        TokenEndIs(value, at + 1, f);
        var (end, complete) := TokenEnd(value, at + 1, f);
        if complete { assert value[at..end - 1][1..] == value[at + 1..end - 1]; }
      } else {
        assert value[at..at] == [];
      }
    }
  }

  /** The token at a quote of a text. */
  lemma TokenAt(value: Text, index: nat)
    requires index < |value| && value[index] == QUOTE
    ensures var (end, complete) := TokenEnd(value, index + 1, false);
            IsToken(value[index..end], complete) && (!complete ==> end == |value|)
  {
    hide *;
    TokenEndIs(value, index + 1, false);
    var (end, complete) := TokenEnd(value, index + 1, false);
    TokenSlice(value, index, end, complete);
  }

  lemma TokenSlice(value: Text, index: nat, end: nat, complete: bool)
    requires index < end <= |value| && value[index] == QUOTE
    requires if complete then index + 1 < end && value[end - 1] == QUOTE && Esc(value[index + 1..end - 1], false) == Some(false)
             else end == |value| && Esc(value[index + 1..], false).Some?
    ensures IsToken(value[index..end], complete)
  {
    hide Esc;
    var raw := value[index..end];
    assert |raw| == end - index && raw[0] == value[index];
    if complete {
      assert raw[|raw| - 1] == value[end - 1];
      SliceOfSlice(value, index, end, 1, end - index - 1);
    } else {
      SliceOfSlice(value, index, end, 1, end - index);
      assert raw[1..] == raw[1..end - index] && value[index + 1..] == value[index + 1..end];
    }
  }

  /** Reading on behind a token. */
  lemma {:induction false} TokenEndOf(b: Text, y: Text, x: Text, e: bool)
    requires Esc(b, e).Some?
    ensures Esc(b, e) == Some(false) ==> TokenEnd(x + (b + ([QUOTE] + y)), |x|, e) == (|x| + |b| + 1, true)
    ensures TokenEnd(x + b, |x|, e) == (|x| + |b|, false)
    decreases |b|
  {
    var s, t := x + (b + ([QUOTE] + y)), x + b;
    if b == [] {
      assert s[|x|] == QUOTE;
    } else {
      var f := if e then false else b[0] == BACKSLASH;
      var x' := x + [b[0]];
      assert s == x' + (b[1..] + ([QUOTE] + y)) && t == x' + b[1..];
      assert s[|x|] == b[0] && t[|x|] == b[0];
      TokenEndOf(b[1..], y, x', f);
    }
  }

  // ---- Replacing between and inside tokens ----

  /** A byte that is not in the key separates what is replaced before and after it. */
  predicate Divides(x: Text, y: Text, d: Byte) { y == [] || y[0] == d || x == [] || x[|x| - 1] == d }

  lemma DividerParts(s: Text, key: Text, d: Byte, p: nat, i: nat)
    requires d !in key && p <= i < p + |key| && i < |s| && s[i] == d
    ensures !OccursAt(s, key, p)
  {
    OccursByte(s, key, p, i - p);
    assert key[i - p] in key;
  }

  lemma {:induction false} ReplaceDivided(x: Text, y: Text, d: Byte, key: Text, marker: Text)
    requires key != [] && d !in key && Divides(x, y, d)
    ensures ReplaceAll(x + y, key, marker) == ReplaceAll(x, key, marker) + ReplaceAll(y, key, marker)
    decreases |x|
  {
    hide *;
    var k := Find(x, key, 0);
    NotFound(x, key, marker);
    if k == -1 {
      NoneAcross(x, y, d, key, |x|);
      ReplaceSkip(x, y, key, marker);
    } else {
      FoundParts(x, key, marker);
      FoundKey(x, key);
      var a, rest := x[..k], x[k + |key|..];
      StillDivided(x, y, d, k, key);
      ReplaceDivided(rest, y, d, key, marker);
      NoneAcross(x, y, d, key, k);
      Assoc(a, key + rest, y);
      Assoc(key, rest, y);
      ReplaceSkip(a, key + (rest + y), key, marker);
      ReplaceFront(key, rest + y, marker);
      Assoc(marker, ReplaceAll(rest, key, marker), ReplaceAll(y, key, marker));
      Assoc(a, marker + ReplaceAll(rest, key, marker), ReplaceAll(y, key, marker));
    }
  }

  lemma StillDivided(x: Text, y: Text, d: Byte, k: nat, key: Text)
    requires key != [] && d !in key && k + |key| <= |x| && x[k..k + |key|] == key && Divides(x, y, d)
    ensures Divides(x[k + |key|..], y, d)
  {
    assert x[k..k + |key|][|key| - 1] == x[k + |key| - 1];
    assert key[|key| - 1] in key;
  }

  /** Up to the first occurrence in x, none begins in x and y together. */
  lemma NoneAcross(x: Text, y: Text, d: Byte, key: Text, n: nat)
    requires key != [] && d !in key && n <= |x| && Divides(x, y, d)
    requires Find(x, key, 0) == -1 || n == Find(x, key, 0)
    ensures NoneBefore(x + y, key, n)
  {
    var s := x + y;
    forall p | 0 <= p < n ensures !OccursAt(s, key, p) {
      if p + |key| <= |x| {
        assert !OccursAt(x, key, p);
        EmptyRight(x);
        OccursInPrefix(x, [], y, key, p);
      } else if y == [] {
        EmptyRight(x);
      } else if y[0] == d {
        DividerParts(s, key, d, p, |x|);
      } else {
        DividerParts(s, key, d, p, |x| - 1);
      }
    }
  }

  lemma DividerStays(d: Byte, key: Text, marker: Text)
    requires key != [] && d !in key
    ensures ReplaceAll([d], key, marker) == [d]
    ensures ReplaceAll([], key, marker) == []
  {
    forall k ensures !OccursAt([d], key, k) && !OccursAt([], key, k) { DividerAlone(d, key, k); }
    NotFound([d], key, marker);
    NotFound([], key, marker);
    hide ReplaceAll, Find;
  }

  lemma DividerAlone(d: Byte, key: Text, k: int)
    requires key != [] && d !in key
    ensures !OccursAt([d], key, k) && !OccursAt([], key, k)
  {
    if k == 0 { DividerParts([d], key, d, 0, 0); }
  }

  /** Replacement brings in no byte that is not in the marker. */
  lemma {:induction false} NoNewByte(s: Text, key: Text, marker: Text, d: Byte)
    requires key != [] && d !in marker && d !in s
    ensures d !in ReplaceAll(s, key, marker)
    decreases |s|
  {
    hide ReplaceAll, Find;
    NotFound(s, key, marker);
    if Find(s, key, 0) != -1 {
      FoundParts(s, key, marker);
      NoNewByte(s[Find(s, key, 0) + |key|..], key, marker, d);
    }
  }

  /** What stands between the quotes of a token. */
  function Inside(raw: Text, complete: bool): Text {
    if |raw| < 2 then [] else if complete then raw[1..|raw| - 1] else raw[1..]
  }

  function Quoted(b: Text, complete: bool): Text { if complete then [QUOTE] + (b + [QUOTE]) else [QUOTE] + b }

  lemma TokenParts(raw: Text, complete: bool)
    requires IsToken(raw, complete)
    ensures raw == Quoted(Inside(raw, complete), complete)
    ensures Esc(Inside(raw, complete), false).Some? && (complete ==> Esc(Inside(raw, complete), false) == Some(false))
  {
    hide Esc;
  }

  lemma QuotedToken(b: Text, complete: bool)
    requires if complete then Esc(b, false) == Some(false) else Esc(b, false).Some?
    ensures IsToken(Quoted(b, complete), complete) && Inside(Quoted(b, complete), complete) == b
  {
    hide Esc;
    var raw := Quoted(b, complete);
    if complete { assert raw[1..|raw| - 1] == b; } else { assert raw[1..] == b; }
  }

  lemma ReplaceQuoted(b: Text, complete: bool, key: Text, marker: Text)
    requires PlainKey(key)
    ensures ReplaceAll(Quoted(b, complete), key, marker) == Quoted(ReplaceAll(b, key, marker), complete)
  {
    KeyNeutral(key);
    ReplaceDivided([QUOTE], if complete then b + [QUOTE] else b, QUOTE, key, marker);
    ReplaceDivided(b, [QUOTE], QUOTE, key, marker);
    DividerStays(QUOTE, key, marker);
    hide ReplaceAll;
  }

  /** Replacing in a token leaves a token of the same kind. */
  lemma ReplacedToken(raw: Text, complete: bool, key: Text, marker: Text)
    requires PlainKey(key) && Neutral(marker) && IsToken(raw, complete)
    ensures var r := ReplaceAll(raw, key, marker);
            IsToken(r, complete) && Inside(r, complete) == ReplaceAll(Inside(raw, complete), key, marker)
  {
    hide *;
    KeyNeutral(key);
    TokenParts(raw, complete);
    var b := Inside(raw, complete);
    ReplaceQuoted(b, complete, key, marker);
    EscReplace(b, key, marker, false);
    QuotedToken(ReplaceAll(b, key, marker), complete);
  }

  // ---- What is decoded ----

  lemma {:induction false} SlashesEsc(b: Text)
    requires Esc(b, false).Some?
    ensures Slashes([QUOTE] + b) % 2 == (if Esc(b, false).value then 1 else 0)
    decreases |b|
  {
    var raw := [QUOTE] + b;
    if b != [] {
      var front, x := b[..|b| - 1], b[|b| - 1];
      assert b == front + [x];
      EscJoin(front, [x], false);
      assert [x][1..] == [];
      assert raw[..|raw| - 1] == [QUOTE] + front && raw[|raw| - 1] == x;
      SlashesEsc(front);
    }
  }

  /** The body handed to the decoder: an escape that is still open is left out. */
  function Core(raw: Text, complete: bool): Text {
    var b := Inside(raw, complete);
    if Trailing(raw, complete) && b != [] then b[..|b| - 1] else b
  }

  lemma TrailingIff(raw: Text, complete: bool)
    requires IsToken(raw, complete)
    ensures Trailing(raw, complete) <==> !complete && Esc(Inside(raw, complete), false) == Some(true)
    ensures Trailing(raw, complete)
            ==> Inside(raw, complete) != [] && Inside(raw, complete)[|Inside(raw, complete)| - 1] == BACKSLASH
  {
    TokenParts(raw, complete);
    if !complete {
      SlashesEsc(Inside(raw, complete));
      LastSlash(Inside(raw, complete));
    }
    hide Esc, Inside;
  }

  lemma LastSlash(b: Text)
    ensures Slashes([QUOTE] + b) % 2 == 1 ==> b != [] && b[|b| - 1] == BACKSLASH
  {
    EmptyRight([QUOTE]);
    assert Slashes([QUOTE]) == 0;
    assert b != [] ==> ([QUOTE] + b)[|b|] == b[|b| - 1];
  }

  lemma SourceIs(raw: Text, complete: bool)
    requires IsToken(raw, complete)
    ensures Source(raw, complete) == [QUOTE] + Core(raw, complete) + [QUOTE]
  {
    TokenParts(raw, complete);
    TrailingIff(raw, complete);
    hide Esc, Slashes;
    var b := Inside(raw, complete);
    if complete {
      Assoc([QUOTE], b, [QUOTE]);
    } else if Trailing(raw, complete) {
      assert raw[..|raw| - 1] == [QUOTE] + b[..|b| - 1];
    }
  }

  lemma DecodedCore(c: Codec, u: Unicode, raw: Text, complete: bool)
    requires Decodes(c, u) && IsToken(raw, complete)
    ensures c.decode(Source(raw, complete)) == Body(u, Core(raw, complete))
  {
    SourceIs(raw, complete);
    hide Body, Source, Core, Inverse, IsToken;
  }

  lemma ReplacedCore(raw: Text, complete: bool, key: Text, marker: Text)
    requires PlainKey(key) && Neutral(marker) && IsToken(raw, complete)
    ensures IsToken(ReplaceAll(raw, key, marker), complete)
    ensures Core(ReplaceAll(raw, key, marker), complete) == ReplaceAll(Core(raw, complete), key, marker)
  {
    KeyNeutral(key);
    var r, b := ReplaceAll(raw, key, marker), Inside(raw, complete);
    ReplacedToken(raw, complete, key, marker);
    EscReplace(b, key, marker, false);
    TrailingIff(raw, complete);
    TrailingIff(r, complete);
    hide ReplaceAll, Esc, Inside, IsToken, Trailing, PlainKey, Neutral;
    if Trailing(raw, complete) {
      var front := b[..|b| - 1];
      assert b == front + [BACKSLASH];
      ReplaceDivided(front, [BACKSLASH], BACKSLASH, key, marker);
      DividerStays(BACKSLASH, key, marker);
      assert (ReplaceAll(front, key, marker) + [BACKSLASH])[..|ReplaceAll(front, key, marker)|] == ReplaceAll(front, key, marker);
    }
  }

  /** Nothing that the token decodes to holds the key, on any layer. */
  ghost predicate Safe(c: Codec, raw: Text, complete: bool, key: Text, depth: int) {
    depth <= MAX_DEPTH && BACKSLASH in raw ==>
      var d := c.decode(Source(raw, complete));
      d.Some? ==> LayerClean(c, d.value, key, depth + 1)
  }

  lemma SafeClean(c: Codec, raw: Text, complete: bool, key: Text, depth: int)
    ensures TokenClean(c, raw, complete, key, depth) <==> !Occurs(raw, key) && Safe(c, raw, complete, key, depth)
  {
    hide LayerClean, Source, Occurs;
  }

  lemma SafeIs(c: Codec, raw: Text, complete: bool, key: Text, depth: int)
    requires Safe(c, raw, complete, key, depth) && depth <= MAX_DEPTH && BACKSLASH in raw
             && c.decode(Source(raw, complete)).Some?
    ensures LayerClean(c, c.decode(Source(raw, complete)).value, key, depth + 1)
    ensures !Occurs(c.decode(Source(raw, complete)).value, key)
  {
    CleanIs(c, c.decode(Source(raw, complete)).value, key, depth + 1);
    hide LayerClean, Source, Occurs;
  }

  lemma SafeSame(c: Codec, raw: Text, r: Text, complete: bool, key: Text, depth: int)
    requires Safe(c, raw, complete, key, depth) && (BACKSLASH in r ==> BACKSLASH in raw)
    requires c.decode(Source(r, complete)) == c.decode(Source(raw, complete)) || c.decode(Source(r, complete)).None?
    ensures Safe(c, r, complete, key, depth)
  {
    hide LayerClean, Source;
  }

  /** A safe token stays safe when the key is replaced in it, and is then clean. */
  lemma ReplacedSafe(c: Codec, u: Unicode, raw: Text, complete: bool, key: Text, depth: int)
    requires PlainKey(key) && Decodes(c, u) && IsToken(raw, complete) && Safe(c, raw, complete, key, depth)
    ensures var r := ReplaceAll(raw, key, Replacement(key));
            IsToken(r, complete) && TokenClean(c, r, complete, key, depth)
  {
    hide *;
    var marker := Replacement(key);
    KeyNeutral(key);
    MarkerNeutral(key);
    var r := ReplaceAll(raw, key, marker);
    ReplacedCore(raw, complete, key, marker);
    DecodedCore(c, u, raw, complete);
    DecodedCore(c, u, r, complete);
    PlainKeyNeverDisclosed(raw, key);
    if BACKSLASH !in raw { NoNewByte(raw, key, marker, BACKSLASH); }
    NotFound(Core(raw, complete), key, marker);
    if BACKSLASH in r && depth <= 32 && Occurs(Core(raw, complete), key) {
      DeepEnough(depth);
      if Body(u, Core(raw, complete)).Some? { SafeIs(c, raw, complete, key, depth); }
      ReplacedBody(u, Core(raw, complete), key, marker);
    }
    if BACKSLASH in r && depth <= 32 { SafeSame(c, raw, r, complete, key, depth); } else { Unread(c, r, complete, key, depth); }
    SafeClean(c, r, complete, key, depth);
  }

  lemma DeepEnough(depth: int)
    ensures depth <= 32 <==> depth <= MAX_DEPTH
  {
  }

  /** Without a backslash, or below the deepest layer, nothing is decoded. */
  lemma Unread(c: Codec, raw: Text, complete: bool, key: Text, depth: int)
    requires BACKSLASH !in raw || depth > 32
    ensures Safe(c, raw, complete, key, depth)
  {
  }

  // ---- The tokens of a text ----

  ghost predicate TokensSafe(c: Codec, value: Text, key: Text, depth: int)
    decreases |value|
  {
    var index := IndexQuote(value, 0);
    index < 0 || (
      var (end, complete) := TokenEnd(value, index + 1, false);
      Safe(c, value[index..end], complete, key, depth) && TokensSafe(c, value[end..], key, depth))
  }

  /** Text, a token, and what comes after it. */
  lemma TokenOf(x: Text, token: Text, complete: bool, y: Text)
    requires QUOTE !in x && IsToken(token, complete) && (!complete ==> y == [])
    ensures var value := x + (token + y);
            && IndexQuote(value, 0) == |x| && |x| < |value| && value[|x|] == QUOTE
            && (forall i :: 0 <= i < |x| ==> value[i] != QUOTE)
            && TokenEnd(value, |x| + 1, false) == (|x| + |token|, complete) && |x| + |token| <= |value|
            && value[|x|..|x| + |token|] == token && value[|x| + |token|..] == y
  {
    var value, b := x + (token + y), Inside(token, complete);
    TokenParts(token, complete);
    FirstQuote(x, token + y);
    TokenSlices(x, token, y);
    hide Esc, IndexQuote, TokenEnd, Inside;
    if complete {
      assert value == (x + [QUOTE]) + (b + ([QUOTE] + y));
      TokenEndOf(b, y, x + [QUOTE], false);
    } else {
      assert value == (x + [QUOTE]) + b;
      TokenEndOf(b, [], x + [QUOTE], false);
    }
  }

  lemma TokenSlices(x: Text, token: Text, y: Text)
    ensures var value := x + (token + y);
            |x| + |token| <= |value| && value[|x|..|x| + |token|] == token && value[|x| + |token|..] == y
  {
  }

  lemma {:induction false} FirstQuote(x: Text, t: Text)
    requires QUOTE !in x && t != [] && t[0] == QUOTE
    ensures IndexQuote(x + t, 0) == |x| && forall i :: 0 <= i < |x| ==> (x + t)[i] != QUOTE
  {
    forall i | 0 <= i < |x| ensures (x + t)[i] != QUOTE { assert (x + t)[i] == x[i]; }
    assert (x + t)[|x|] == QUOTE;
  }

  lemma SafePrepend(c: Codec, x: Text, token: Text, complete: bool, y: Text, key: Text, depth: int)
    requires QUOTE !in x && IsToken(token, complete) && (!complete ==> y == [])
    requires Safe(c, token, complete, key, depth) && TokensSafe(c, y, key, depth)
    ensures TokensSafe(c, x + (token + y), key, depth)
  {
    TokenOf(x, token, complete, y);
    hide Safe, IndexQuote, TokenEnd, IsToken;
  }

  lemma CleanPrepend(c: Codec, x: Text, token: Text, complete: bool, y: Text, key: Text, depth: int)
    requires QUOTE !in x && IsToken(token, complete) && (!complete ==> y == []) && depth <= MAX_DEPTH + 1
    requires TokenClean(c, token, complete, key, depth) && TokensClean(c, [], false, y, key, depth)
    ensures TokensClean(c, [], false, x + (token + y), key, depth)
  {
    var value := x + (token + y);
    TokenOf(x, token, complete, y);
    NextToken(c, value, 0, |x|, key, depth);
    hide *;
    assert value[0..] == value;
  }

  lemma NoTokens(c: Codec, x: Text, key: Text, depth: int)
    requires QUOTE !in x && depth <= MAX_DEPTH + 1
    ensures TokensClean(c, [], false, x, key, depth)
  {
    SkipPlain(c, x, 0, |x|, key, depth);
    assert x[0..] == x && x[|x|..] == [];
  }

  /** The parts of a text with a token. */
  lemma TokenSplit(value: Text)
    requires IndexQuote(value, 0) >= 0
    ensures var index := IndexQuote(value, 0);
            var (end, complete) := TokenEnd(value, index + 1, false);
            && index < end <= |value| && QUOTE !in value[..index] && IsToken(value[index..end], complete)
            && (!complete ==> value[end..] == [])
            && value == value[..index] + (value[index..end] + value[end..])
            && Divides(value[..index], value[index..end] + value[end..], QUOTE)
            && Divides(value[index..end], value[end..], QUOTE)
  {
    var index := IndexQuote(value, 0);
    TokenAt(value, index);
    var (end, complete) := TokenEnd(value, index + 1, false);
    ThreeParts(value, index, end);
    forall b | b in value[..index] ensures b != QUOTE {}
    hide IndexQuote, TokenEnd, Esc;
  }

  /** Where all tokens are safe, replacing the key makes them clean. */
  lemma {:induction false} ReplacedClean(c: Codec, u: Unicode, value: Text, key: Text, depth: int)
    requires PlainKey(key) && Decodes(c, u) && depth <= MAX_DEPTH + 1 && TokensSafe(c, value, key, depth)
    ensures TokensClean(c, [], false, ReplaceAll(value, key, Replacement(key)), key, depth)
    decreases |value|, 1
  {
    var marker, index := Replacement(key), IndexQuote(value, 0);
    KeyNeutral(key);
    MarkerNeutral(key);
    if index < 0 {
      assert QUOTE !in value;
      NoNewByte(value, key, marker, QUOTE);
      NoTokens(c, ReplaceAll(value, key, marker), key, depth);
    } else {
      var (end, complete) := TokenEnd(value, index + 1, false);
      assert Safe(c, value[index..end], complete, key, depth) && TokensSafe(c, value[end..], key, depth);
      TokenSplit(value);
      ReplacedAround(c, u, value[..index], value[index..end], complete, value[end..], key, depth);
    }
  }

  lemma {:induction false} ReplacedAround(c: Codec, u: Unicode, x: Text, token: Text, complete: bool, y: Text,
                                          key: Text, depth: int)
    requires PlainKey(key) && Decodes(c, u) && depth <= MAX_DEPTH + 1
    requires QUOTE !in x && IsToken(token, complete) && (!complete ==> y == []) && Divides(x, token + y, QUOTE)
             && Divides(token, y, QUOTE)
    requires Safe(c, token, complete, key, depth) && TokensSafe(c, y, key, depth)
    ensures TokensClean(c, [], false, ReplaceAll(x + (token + y), key, Replacement(key)), key, depth)
    decreases |x + (token + y)|, 0
  {
    var marker := Replacement(key);
    assert |token| >= 1;
    hide *;
    KeyNeutral(key);
    MarkerNeutral(key);
    ReplaceDivided(x, token + y, QUOTE, key, marker);
    ReplaceDivided(token, y, QUOTE, key, marker);
    NoNewByte(x, key, marker, QUOTE);
    ReplacedSafe(c, u, token, complete, key, depth);
    ReplacedClean(c, u, y, key, depth);
    if !complete { DividerStays(QUOTE, key, marker); }
    CleanPrepend(c, ReplaceAll(x, key, marker), ReplaceAll(token, key, marker), complete, ReplaceAll(y, key, marker), key, depth);
  }

  // ---- The projection of tokens and layers ----

  /** A re-encoded token decodes to the text it was made of. */
  lemma ReencodedIs(c: Codec, u: Unicode, text: Text, raw: Text, complete: bool, limit: nat)
    requires Decodes(c, u)
    ensures var r := Reencode(c, text, raw, complete, limit);
            r.Ok? ==> IsToken(r.value, complete) && c.decode(Source(r.value, complete)) == Some(text)
  {
    var r := Reencode(c, text, raw, complete, limit);
    if r.Ok? {
      var body := c.encode(text).value;
      var trailing := Trailing(raw, complete);
      hide Trailing;
      EncodedBody(c, u, text);
      var inside := if trailing then body + [BACKSLASH] else body;
      EscJoin(body, [BACKSLASH], false);
      assert [BACKSLASH][1..] == [];
      assert r.value == Quoted(inside, complete) by {
        Assoc([QUOTE], body, [QUOTE]);
        Assoc([QUOTE], body, [BACKSLASH]);
        assert trailing ==> !complete by { TrailingOpen(raw, complete); }
      }
      assert trailing ==> !complete by { TrailingOpen(raw, complete); }
      hide Esc;
      QuotedToken(inside, complete);
      TrailingIff(r.value, complete);
      DecodedCore(c, u, r.value, complete);
      assert Core(r.value, complete) == body;
    }
  }

  lemma TrailingOpen(raw: Text, complete: bool)
    ensures Trailing(raw, complete) ==> !complete
  {
  }

  lemma EncodedBody(c: Codec, u: Unicode, text: Text)
    requires Decodes(c, u) && c.encode(text).Some?
    ensures Body(u, c.encode(text).value) == Some(text) && Esc(c.encode(text).value, false) == Some(false)
  {
    BodyEsc(u, c.encode(text).value);
    hide Body, Esc;
  }

  lemma LiteralReplaced(value: Text, key: Text, limit: nat)
    requires key != []
    ensures var r := Literal(value, key, limit); r.Ok? ==> r.value.text == ReplaceAll(value, key, Replacement(key))
  {
    LiteralExact(value, key, limit);
    NotFound(value, key, Replacement(key));
    hide Literal, Occurs, ReplaceAll, Replacement;
  }

  /** The cases of the projection of a token. */
  lemma TokenCases(c: Codec, raw: Text, complete: bool, key: Text, b: Budget, depth: int)
    requires key != []
    ensures var r := Token(c, raw, complete, key, b, depth).result;
            r.Ok? ==>
              && depth <= 32
              && var d := c.decode(Source(raw, complete));
                 if BACKSLASH !in raw || d.None? then r.value.text == ReplaceAll(raw, key, Replacement(key))
                 else
                   var inner := Layer(c, d.value, key, Charge(b, |raw|, depth).0, depth + 1).result;
                   && inner.Ok?
                   && if inner.value.changed then Reencode(c, inner.value.text, raw, complete, b.limit) == Ok(r.value.text)
                      else r.value.text == raw
  {
    LiteralReplaced(raw, key, b.limit);
    hide Literal, Layer, Source, Reencode, ReplaceAll, Replacement;
  }

  lemma UndecodedSafe(c: Codec, raw: Text, complete: bool, key: Text, depth: int)
    requires BACKSLASH !in raw || c.decode(Source(raw, complete)).None?
    ensures Safe(c, raw, complete, key, depth)
  {
    hide Source, LayerClean;
  }

  lemma DecodedSafe(c: Codec, raw: Text, complete: bool, key: Text, depth: int)
    requires c.decode(Source(raw, complete)).Some?
             && LayerClean(c, c.decode(Source(raw, complete)).value, key, depth + 1)
    ensures Safe(c, raw, complete, key, depth)
  {
    hide Source, LayerClean;
  }

  /** A projected token is a token again, and nothing it decodes to holds the key. */
  lemma {:induction false} TokenProjects(c: Codec, u: Unicode, raw: Text, complete: bool, key: Text, b: Budget,
                                         depth: int)
    requires PlainKey(key) && Decodes(c, u) && IsToken(raw, complete)
    ensures var r := Token(c, raw, complete, key, b, depth).result;
            r.Ok? ==> IsToken(r.value.text, complete) && Safe(c, r.value.text, complete, key, depth)
    decreases 34 - depth, 0
  {
    hide *;
    KeyNeutral(key);
    TokenCases(c, raw, complete, key, b, depth);
    var r := Token(c, raw, complete, key, b, depth).result;
    var d := c.decode(Source(raw, complete));
    if r.Ok? {
      if BACKSLASH !in raw || d.None? {
        UndecodedSafe(c, raw, complete, key, depth);
        ReplacedSafe(c, u, raw, complete, key, depth);
        SafeClean(c, r.value.text, complete, key, depth);
      } else {
        var b1 := Charge(b, |raw|, depth).0;
        var inner := Layer(c, d.value, key, b1, depth + 1).result;
        LayerProjects(c, u, d.value, key, b1, depth + 1);
        LayerChangedIff(c, d.value, key, b1, depth + 1);
        if inner.value.changed { ReencodedIs(c, u, inner.value.text, raw, complete, b.limit); }
        DecodedSafe(c, r.value.text, complete, key, depth);
      }
    }
  }

  lemma LayerCases(c: Codec, value: Text, key: Text, b: Budget, depth: int)
    requires key != []
    ensures var r := Layer(c, value, key, b, depth).result;
            r.Ok? ==>
              && depth <= MAX_DEPTH
              && var p := Parts(c, value, 0, [], false, key, Charge(b, |value|, depth).0, depth).result;
                 p.Ok? && r.value.text == ReplaceAll(p.value.text, key, Replacement(key))
  {
    var (b1, ok) := Charge(b, |value|, depth);
    if ok {
      var p := Parts(c, value, 0, [], false, key, b1, depth).result;
      if p.Ok? { LiteralReplaced(p.value.text, key, b.limit); }
    }
    hide Literal, Parts, ReplaceAll, Replacement;
  }

  lemma LayerCleanIs(c: Codec, value: Text, key: Text, depth: int)
    requires depth <= MAX_DEPTH && !Occurs(value, key) && TokensClean(c, [], false, value, key, depth + 1)
    ensures LayerClean(c, value, key, depth)
  {
    hide TokensClean, Occurs;
  }

  /** A projected text holds the key in no layer. */
  lemma {:induction false} LayerProjects(c: Codec, u: Unicode, value: Text, key: Text, b: Budget, depth: int)
    requires PlainKey(key) && Decodes(c, u)
    ensures var r := Layer(c, value, key, b, depth).result; r.Ok? ==> LayerClean(c, r.value.text, key, depth)
    decreases 34 - depth, |value| + 1
  {
    KeyNeutral(key);
    LayerCases(c, value, key, b, depth);
    var r := Layer(c, value, key, b, depth).result;
    if r.Ok? {
      assert depth <= MAX_DEPTH && depth + 1 <= MAX_DEPTH + 1;
      hide *;
      var b1 := Charge(b, |value|, depth).0;
      var p := Parts(c, value, 0, [], false, key, b1, depth).result;
      var w := PartsProject(c, u, value, 0, [], false, key, b1, depth);
      EmptyLeft(w);
      ReplacedClean(c, u, w, key, depth + 1);
      PlainKeyNeverDisclosed(w, key);
      LayerCleanIs(c, r.value.text, key, depth);
    }
  }

  lemma PieceCases(c: Codec, value: Text, start: nat, out: Text, key: Text, b: Budget, depth: int)
    requires key != [] && start < |value| && depth <= MAX_DEPTH
    ensures var index := IndexQuote(value, start);
            var (piece, next) := Piece(c, value, start, out, key, b, depth);
            piece.result.Ok? ==>
              if index < 0 then next == |value| && piece.result.value.text == out + value[start..]
              else
                var (end, complete) := TokenEnd(value, index + 1, false);
                var token := Token(c, value[index..end], complete, key, b, depth + 1).result;
                && next == end && token.Ok?
                && piece.result.value.text == (out + value[start..index]) + token.value.text
  {
    hide Token, TokenEnd, IndexQuote;
  }

  lemma PartsStep(c: Codec, value: Text, start: nat, out: Text, changed: bool, key: Text, b: Budget, depth: int)
    requires key != [] && start < |value| && depth <= MAX_DEPTH
    ensures var r := Parts(c, value, start, out, changed, key, b, depth).result;
            var (piece, next) := Piece(c, value, start, out, key, b, depth);
            r.Ok? ==> piece.result.Ok? && r == Parts(c, value, next, piece.result.value.text, changed || piece.result.value.changed, key, piece.budget, depth).result
  {
    hide Piece;
  }

  lemma NoTokenSafe(c: Codec, x: Text, key: Text, depth: int)
    requires QUOTE !in x
    ensures TokensSafe(c, x, key, depth)
  {
    QuoteIn(x);
    hide IndexQuote, Safe;
  }

  lemma QuoteIn(x: Text)
    ensures IndexQuote(x, 0) >= 0 ==> QUOTE in x
  {
  }

  lemma PlainSlice(value: Text, start: nat)
    requires start <= |value|
    ensures IndexQuote(value, start) < 0 ==> QUOTE !in value[start..]
    ensures IndexQuote(value, start) >= 0
            ==> start <= IndexQuote(value, start) < |value| && QUOTE !in value[start..IndexQuote(value, start)]
  {
    var k := IndexQuote(value, start);
    if k < 0 {
      forall x | x in value[start..] ensures x != QUOTE {}
    } else {
      forall x | x in value[start..k] ensures x != QUOTE {}
    }
    hide IndexQuote;
  }

  lemma {:induction false} PartsProject(c: Codec, u: Unicode, value: Text, start: nat, out: Text, changed: bool,
                                        key: Text, b: Budget, depth: int) returns (w: Text)
    requires PlainKey(key) && Decodes(c, u) && start <= |value| && depth <= MAX_DEPTH && key != []
    ensures var r := Parts(c, value, start, out, changed, key, b, depth).result;
            r.Ok? ==> r.value.text == out + w && TokensSafe(c, w, key, depth + 1)
    ensures start == |value| ==> w == []
    decreases 34 - depth, |value| - start, 1
  {
    assert depth <= 32;
    w := [];
    if start == |value| {
      EmptyRight(out);
      NoTokenSafe(c, [], key, depth + 1);
      return;
    }
    hide *;
    PartsStep(c, value, start, out, changed, key, b, depth);
    PieceCases(c, value, start, out, key, b, depth);
    PlainSlice(value, start);
    var r := Parts(c, value, start, out, changed, key, b, depth).result;
    var (piece, next) := Piece(c, value, start, out, key, b, depth);
    var index := IndexQuote(value, start);
    if r.Ok? {
      var w' := PartsProject(c, u, value, next, piece.result.value.text, changed || piece.result.value.changed, key, piece.budget, depth);
      if index < 0 {
        w := value[start..];
        EmptyRight(out + w);
        NoTokenSafe(c, w, key, depth + 1);
      } else {
        w := TokenPart(c, u, value, start, out, w', key, b, depth);
      }
    }
  }

  /** The text up to the next token, the projected token, and the rest. */
  lemma {:induction false} TokenPart(c: Codec, u: Unicode, value: Text, start: nat, out: Text, rest: Text, key: Text,
                                     b: Budget, depth: int) returns (w: Text)
    requires PlainKey(key) && Decodes(c, u) && key != [] && start < |value| && depth <= MAX_DEPTH
             && IndexQuote(value, start) >= 0
    requires var index := IndexQuote(value, start);
             var (end, complete) := TokenEnd(value, index + 1, false);
             Token(c, value[index..end], complete, key, b, depth + 1).result.Ok? && (end == |value| ==> rest == [])
    requires TokensSafe(c, rest, key, depth + 1)
    ensures var index := IndexQuote(value, start);
            var (end, complete) := TokenEnd(value, index + 1, false);
            var token := Token(c, value[index..end], complete, key, b, depth + 1).result.value.text;
            ((out + value[start..index]) + token) + rest == out + w
    ensures TokensSafe(c, w, key, depth + 1)
    decreases 33 - depth, 1
  {
    assert depth <= 32;
    hide *;
    var index := IndexQuote(value, start);
    QuoteThere(value, start);
    PlainSlice(value, start);
    TokenAt(value, index);
    var (end, complete) := TokenEnd(value, index + 1, false);
    TokenProjects(c, u, value[index..end], complete, key, b, depth + 1);
    var plain, token := value[start..index], Token(c, value[index..end], complete, key, b, depth + 1).result.value.text;
    w := plain + (token + rest);
    SafePrepend(c, plain, token, complete, rest, key, depth + 1);
    Assoc(out + plain, token, rest);
    Assoc(out, plain, token + rest);
  }

  lemma QuoteThere(value: Text, start: nat)
    requires IndexQuote(value, start) >= 0
    ensures IndexQuote(value, start) < |value| && value[IndexQuote(value, start)] == QUOTE
  {
  }

  // ---- Whole runs ----

  /** A state of the stream between tokens, or inside a token that is not closed. */
  ghost predicate Reading(s: State) { s.token == [] || (s.token[0] == QUOTE && Esc(s.token[1..], false) == Some(s.escaped)) }

  /** Everything a completed run has put out from here on is one pass of the matcher over
      `fed`, whose tokens are safe. */
  ghost predicate Puts(c: Codec, key: Text, s: State, value: Text, fed: Text)
    requires s.q < |key|
  {
    && TokensSafe(c, fed, key, 0)
    && var run := Fold(c, key, s, value);
       run.Done? && Ended(c, key, run.state).Done? ==>
         var m := Scan(key, Replacement(key), s.q, fed);
         run.out + Ended(c, key, run.state).out == m.out + key[..m.matched]
  }

  lemma PutsIntro(c: Codec, key: Text, s: State, value: Text, fed: Text)
    requires s.q < |key| && TokensSafe(c, fed, key, 0)
    requires var run := Fold(c, key, s, value);
             run.Done? && Ended(c, key, run.state).Done? ==>
               var m := Scan(key, Replacement(key), s.q, fed);
               run.out + Ended(c, key, run.state).out == m.out + key[..m.matched]
    ensures Puts(c, key, s, value, fed)
  {
    hide TokensSafe, Fold, Ended, Scan, Replacement;
  }

  lemma PutsIs(c: Codec, key: Text, s: State, value: Text, fed: Text)
    requires s.q < |key| && Puts(c, key, s, value, fed)
    ensures TokensSafe(c, fed, key, 0)
    ensures var run := Fold(c, key, s, value);
            run.Done? && Ended(c, key, run.state).Done? ==>
              var m := Scan(key, Replacement(key), s.q, fed);
              run.out + Ended(c, key, run.state).out == m.out + key[..m.matched]
  {
    hide TokensSafe, Fold, Ended, Scan, Replacement;
  }

  /** One step that put out what the matcher made of `part`, and a run after it. */
  lemma PutsAfter(c: Codec, key: Text, s: State, b: Byte, rest: Text, part: Text, fed: Text)
    requires s.q < |key| && TakeByte(c, key, s, b).Done? && TokensSafe(c, part + fed, key, 0)
    requires var first := TakeByte(c, key, s, b);
             && Scan(key, Replacement(key), s.q, part).out == first.out
             && Scan(key, Replacement(key), s.q, part).matched == first.state.q
             && Puts(c, key, first.state, rest, fed)
    ensures Puts(c, key, s, [b] + rest, part + fed)
  {
    hide *;
    var first := TakeByte(c, key, s, b);
    var run := Fold(c, key, first.state, rest);
    PutsIs(c, key, first.state, rest, fed);
    FoldDef(c, key, s, b, rest);
    ThenDef(first, c, key, rest);
    PrependIs(first.out, run);
    ScanSplit(key, Replacement(key), s.q, part, fed);
    ScanThenIs(Scan(key, Replacement(key), s.q, part), Scan(key, Replacement(key), first.state.q, fed));
    if run.Done? && Ended(c, key, run.state).Done? {
      var m := Scan(key, Replacement(key), first.state.q, fed);
      Assoc(first.out, run.out, Ended(c, key, run.state).out);
      Assoc(first.out, m.out, key[..m.matched]);
    }
    PutsIntro(c, key, s, [b] + rest, part + fed);
  }

  lemma PrependIs(out: Text, r: Fed)
    ensures Prepend(out, r).Done? <==> r.Done?
    ensures r.Done? ==> Prepend(out, r) == Done(out + r.out, r.state)
  {
  }

  lemma ScanThenIs(a: Scanned, b: Scanned)
    ensures CredentialMatcher.Then(a, b).out == a.out + b.out && CredentialMatcher.Then(a, b).matched == b.matched
  {
  }

  lemma ScanNothing(key: Text, q: nat)
    requires q < |key|
    ensures Scan(key, Replacement(key), q, []).out == [] && Scan(key, Replacement(key), q, []).matched == q
  {
  }

  /** A run without a step of its own so far. */
  lemma PutsSilently(c: Codec, key: Text, s: State, b: Byte, rest: Text, fed: Text)
    requires s.q < |key| && TakeByte(c, key, s, b).Done? && TakeByte(c, key, s, b).out == []
             && TakeByte(c, key, s, b).state.q == s.q
    requires Puts(c, key, TakeByte(c, key, s, b).state, rest, fed)
    ensures Puts(c, key, s, [b] + rest, fed)
  {
    hide *;
    ScanNothing(key, s.q);
    EmptyLeft(fed);
    PutsIs(c, key, TakeByte(c, key, s, b).state, rest, fed);
    PutsAfter(c, key, s, b, rest, [], fed);
  }

  lemma PutsNothing(c: Codec, key: Text, s: State, b: Byte, rest: Text)
    requires s.q < |key| && TakeByte(c, key, s, b).Refused?
    ensures Puts(c, key, s, [b] + rest, [])
  {
    hide *;
    FoldDef(c, key, s, b, rest);
    ThenDef(TakeByte(c, key, s, b), c, key, rest);
    NoTokenSafe(c, [], key, 0);
    PutsIntro(c, key, s, [b] + rest, []);
  }

  /** What a closed token puts out. */
  lemma ClosedPuts(c: Codec, key: Text, s: State, complete: bool)
    requires s.q < |key|
    ensures var r := Closed(c, key, s, complete);
            r.Done? ==>
              var t := Token(c, s.token, complete, key, s.budget, 0).result;
              && t.Ok?
              && var m := Scan(key, Replacement(key), s.q, t.value.text);
                 r.out == m.out && r.state.q == m.matched && r.state.token == []
  {
    hide Token, Scan, Replacement;
  }

  lemma EndedPuts(c: Codec, key: Text, s: State)
    requires s.q < |key|
    ensures var end := Ended(c, key, s);
            end.Done? ==>
              if s.token == [] then end.out == key[..s.q]
              else Closed(c, key, s, false).Done? && var r := Closed(c, key, s, false); end.out == r.out + key[..r.state.q]
  {
    EmptyLeft(key[..s.q]);
    hide Closed;
  }

  lemma {:induction false} StreamPuts(c: Codec, u: Unicode, key: Text, s: State, value: Text) returns (fed: Text)
    requires PlainKey(key) && Decodes(c, u) && s.q < |key| && Reading(s)
    ensures Puts(c, key, s, value, fed)
    decreases |value|
  {
    if value == [] {
      fed := EndPuts(c, u, key, s);
    } else {
      var b, rest := value[0], value[1..];
      hide *;
      Uncons(value);
      var first := TakeByte(c, key, s, b);
      if first.Refused? {
        fed := [];
        PutsNothing(c, key, s, b, rest);
      } else {
        ReadingStep(c, key, s, b);
        var after := StreamPuts(c, u, key, first.state, rest);
        fed := StepPuts(c, u, key, s, b, rest, after);
      }
    }
  }

  lemma EndPuts(c: Codec, u: Unicode, key: Text, s: State) returns (fed: Text)
    requires PlainKey(key) && Decodes(c, u) && s.q < |key| && Reading(s)
    ensures Puts(c, key, s, [], fed)
  {
    assert Fold(c, key, s, []) == Done([], s);
    hide *;
    KeyNeutral(key);
    EndedPuts(c, key, s);
    if Ended(c, key, s).Done? { EmptyLeft(Ended(c, key, s).out); }
    fed := [];
    NoTokenSafe(c, [], key, 0);
    ScanNothing(key, s.q);
    EmptyLeft(key[..s.q]);
    if s.token != [] && Ended(c, key, s).Done? {
      ClosedPuts(c, key, s, false);
      StillToken(s);
      TokenProjects(c, u, s.token, false, key, s.budget, 0);
      fed := Token(c, s.token, false, key, s.budget, 0).result.value.text;
      EmptyRight(fed);
      EmptyLeft(fed);
      NoQuote();
      SafePrepend(c, [], fed, false, [], key, 0);
    }
    PutsIntro(c, key, s, [], fed);
  }

  lemma NoQuote()
    ensures QUOTE !in [] && QUOTE != BACKSLASH
  {
  }

  lemma StillToken(s: State)
    requires Reading(s) && s.token != []
    ensures IsToken(s.token, false)
  {
    hide Esc;
  }

  lemma ReadingStep(c: Codec, key: Text, s: State, b: Byte)
    requires s.q < |key| && Reading(s) && TakeByte(c, key, s, b).Done?
    ensures Reading(TakeByte(c, key, s, b).state)
  {
    TakeByteIs(c, key, s, b);
    hide TakeByte;
    if s.token == [] {
      assert [QUOTE][1..] == [];
      if b != QUOTE { EmitKeeps(key, s, [b]); }
      hide Emit;
    } else {
      ClosedKeeps(c, key, s.(token := s.token + [b]));
      hide Closed, Emit;
      EscJoin(s.token[1..], [b], false);
      assert (s.token + [b])[1..] == s.token[1..] + [b] && [b][1..] == [];
    }
  }

  lemma EmitKeeps(key: Text, s: State, value: Text)
    requires s.q < |key|
    ensures Emit(key, s, value).Done? ==> Emit(key, s, value).state.token == s.token
    ensures Emit(key, s, value).Done? ==> Emit(key, s, value).out == Scan(key, Replacement(key), s.q, value).out
    ensures Emit(key, s, value).Done? ==> Emit(key, s, value).state.q == Scan(key, Replacement(key), s.q, value).matched
  {
    hide Scan, Replacement;
  }

  lemma ClosedKeeps(c: Codec, key: Text, s: State)
    requires s.q < |key|
    ensures Closed(c, key, s, true).Done? ==> Closed(c, key, s, true).state.token == []
  {
    ClosedPuts(c, key, s, true);
    hide Closed;
  }

  lemma StepPuts(c: Codec, u: Unicode, key: Text, s: State, b: Byte, rest: Text, after: Text) returns (fed: Text)
    requires PlainKey(key) && Decodes(c, u) && s.q < |key| && Reading(s) && TakeByte(c, key, s, b).Done?
    requires Puts(c, key, TakeByte(c, key, s, b).state, rest, after)
    ensures Puts(c, key, s, [b] + rest, fed)
  {
    hide *;
    KeyNeutral(key);
    TakeByteIs(c, key, s, b);
    NoQuote();
    PutsIs(c, key, TakeByte(c, key, s, b).state, rest, after);
    var grown := s.(token := s.token + [b]);
    if s.token == [] && b != QUOTE {
      fed := [b] + after;
      EmitKeeps(key, s, [b]);
      SafeCons(c, b, after, key, 0);
      PutsAfter(c, key, s, b, rest, [b], after);
    } else if s.token != [] && !s.escaped && b == QUOTE {
      ClosedPuts(c, key, grown, true);
      ClosedToken(s);
      TokenProjects(c, u, grown.token, true, key, s.budget, 0);
      var part := Token(c, grown.token, true, key, s.budget, 0).result.value.text;
      fed := part + after;
      EmptyLeft(fed);
      SafePrepend(c, [], part, true, after, key, 0);
      PutsAfter(c, key, s, b, rest, part, after);
    } else {
      fed := after;
      PutsSilently(c, key, s, b, rest, after);
    }
  }

  lemma ClosedToken(s: State)
    requires Reading(s) && s.token != [] && !s.escaped
    ensures IsToken(s.token + [QUOTE], true)
  {
    hide Esc;
    var raw := s.token + [QUOTE];
    assert raw[0] == QUOTE && raw[|raw| - 1] == QUOTE && raw[1..|raw| - 1] == s.token[1..];
  }

  lemma SafeCons(c: Codec, b: Byte, y: Text, key: Text, depth: int)
    requires b != QUOTE && TokensSafe(c, y, key, depth)
    ensures TokensSafe(c, [b] + y, key, depth)
  {
    var index := IndexQuote(y, 0);
    if index < 0 {
      assert QUOTE !in y;
      NoTokenSafe(c, [b] + y, key, depth);
    } else {
      TokenSplit(y);
      var (end, complete) := TokenEnd(y, index + 1, false);
      assert Safe(c, y[index..end], complete, key, depth) && TokensSafe(c, y[end..], key, depth);
      hide IndexQuote, TokenEnd, Safe, TokensSafe, IsToken;
      Assoc([b], y[..index], y[index..end] + y[end..]);
      SafePrepend(c, [b] + y[..index], y[index..end], complete, y[end..], key, depth);
    }
  }

  /** For a key without quotes, backslashes, brackets, parentheses and control characters,
      and a decoder that follows the grammar of strings: a completed run, over any split
      into writes, puts out a text that does not hold the key, and neither does anything
      that its string tokens decode to, on any layer. */
  lemma NoLayerDiscloses(c: Codec, u: Unicode, key: Text, budget: Budget, chunks: seq<Text>)
    requires PlainKey(key) && Decodes(c, u)
    ensures key != []
    ensures var run := WriteAll(c, key, Start(budget), chunks);
            run.Done? ==>
              run.state.q < |key| &&
              var end := Ended(c, key, run.state);
              end.Done? ==> !Occurs(run.out + end.out, key) && TokensClean(c, [], false, run.out + end.out, key, 0)
  {
    assert 0 <= MAX_DEPTH + 1;
    KeyNeutral(key);
    var text := Concat(chunks);
    assert Reading(Start(budget));
    hide *;
    StartIs(budget);
    ChunkingIndependent(c, key, Start(budget), chunks);
    var fed := StreamPuts(c, u, key, Start(budget), text);
    PutsIs(c, key, Start(budget), text, fed);
    var run := Fold(c, key, Start(budget), text);
    if run.Done? && Ended(c, key, run.state).Done? {
      WholeReplaced(key, fed);
      PlainKeyNeverDisclosed(fed, key);
      ReplacedClean(c, u, fed, key, 0);
    }
  }

  lemma WholeReplaced(key: Text, fed: Text)
    requires key != []
    ensures var m := Scan(key, Replacement(key), 0, fed);
            m.out + key[..m.matched] == ReplaceAll(fed, key, Replacement(key))
  {
    ScanProjects(key, Replacement(key), 0, fed);
    EmptyLeft(fed);
    hide Scan, ReplaceAll, Tail, Longest, Find, Replacement;
  }

  // ---- A codec of this kind ----

  /** The escaped form of one byte; control characters without a short form have none. */
  function EscapedByte(b: Byte): Option<Text> {
    if b == QUOTE || b == BACKSLASH then Some([BACKSLASH, b])
    else if b >= 32 then Some([b])
    else match b
      case 8 => Some([BACKSLASH, 98])
      case 9 => Some([BACKSLASH, 116])
      case 10 => Some([BACKSLASH, 110])
      case 12 => Some([BACKSLASH, 102])
      case 13 => Some([BACKSLASH, 114])
      case _ => None
  }

  function Escaped(text: Text): Option<Text>
    decreases |text|
  {
    if text == [] then Some([])
    else if EscapedByte(text[0]).None? then None
    else Prefixed(EscapedByte(text[0]).value, Escaped(text[1..]))
  }

  lemma EscapedItem(u: Unicode, b: Byte, rest: Text)
    requires EscapedByte(b).Some?
    ensures var e := EscapedByte(b).value;
            e + rest != [] && Item(u, e + rest) == Some((|e|, [b])) && (e + rest)[|e|..] == rest
  {
  }

  lemma {:induction false} EscapedBody(u: Unicode, text: Text)
    requires Escaped(text).Some?
    ensures Body(u, Escaped(text).value) == Some(text)
    decreases |text|
  {
    if text != [] {
      EscapedItem(u, text[0], Escaped(text[1..]).value);
      EscapedBody(u, text[1..]);
      hide Item, EscapedByte;
      Uncons(text);
    }
  }

  lemma DecoderExists(u: Unicode)
    ensures exists c :: Decodes(c, u)
  {
    var c := Codec((raw: Text) => if |raw| >= 2 then Body(u, raw[1..|raw| - 1]) else None, Escaped);
    forall body: Text ensures c.decode([QUOTE] + body + [QUOTE]) == Body(u, body) { assert ([QUOTE] + body + [QUOTE])[1..|body| + 1] == body; }
    forall text | c.encode(text).Some? ensures c.decode([QUOTE] + c.encode(text).value + [QUOTE]) == Some(text) { EscapedBody(u, text); }
    assert Decodes(c, u);
  }
}
