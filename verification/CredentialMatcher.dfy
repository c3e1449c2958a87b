/** The streaming literal matcher that hides a known provider key
    (internal/ai/public_output.go). `ReplaceAll` specifies a whole text, `Step`
    one byte; the class runs KMP and is proved against both. */
module CredentialMatcher {
  import opened Prelude

  // ---- Occurrences and leftmost, non-overlapping replacement ----

  predicate OccursAt(s: Text, key: Text, k: int) {
    0 <= k && k + |key| <= |s| && s[k..k + |key|] == key
  }

  ghost predicate Occurs(s: Text, key: Text) {
    exists k :: OccursAt(s, key, k)
  }

  /** Least position at or after `from` where `key` occurs, or -1. */
  function Find(s: Text, key: Text, from: nat): (k: int)
    ensures k == -1 || (from <= k && OccursAt(s, key, k))
    ensures forall j :: from <= j && (k == -1 || j < k) ==> !OccursAt(s, key, j)
    decreases |s| - from
  {
    if from + |key| > |s| then -1
    else if OccursAt(s, key, from) then from
    else Find(s, key, from + 1)
  }

  function ReplaceAll(s: Text, key: Text, marker: Text): Text
    requires key != []
    decreases |s|
  {
    var k := Find(s, key, 0);
    if k == -1 then s else s[..k] + marker + ReplaceAll(s[k + |key|..], key, marker)
  }

  /** Number of replaced occurrences. */
  function Count(s: Text, key: Text): nat
    requires key != []
    decreases |s|
  {
    var k := Find(s, key, 0);
    if k == -1 then 0 else 1 + Count(s[k + |key|..], key)
  }

  /** What follows the last replaced occurrence. */
  function Tail(s: Text, key: Text): Text
    requires key != []
    decreases |s|
  {
    var k := Find(s, key, 0);
    if k == -1 then s else Tail(s[k + |key|..], key)
  }

  lemma ShiftOccurs(d: Text, u: Text, key: Text, p: nat)
    ensures OccursAt(d + u, key, |d| + p) == OccursAt(u, key, p)
  {
    if p + |key| <= |u| {
      assert (d + u)[|d| + p..|d| + p + |key|] == u[p..p + |key|];
    }
  }

  ghost predicate NoneBefore(s: Text, key: Text, n: nat) {
    forall p :: 0 <= p < n ==> !OccursAt(s, key, p)
  }

  /** When no occurrence starts in d, the first one is found in what follows. */
  lemma {:induction false} FindSkip(d: Text, u: Text, key: Text)
    requires NoneBefore(d + u, key, |d|)
    ensures Find(d + u, key, 0) == if Find(u, key, 0) == -1 then -1 else |d| + Find(u, key, 0)
  {
    var k, j := Find(d + u, key, 0), Find(u, key, 0);
    if j != -1 { ShiftOccurs(d, u, key, j); }
    if k != -1 { ShiftOccurs(d, u, key, k - |d|); }
  }

  lemma ReplaceAllDef(s: Text, key: Text, marker: Text)
    requires key != []
    ensures var k := Find(s, key, 0);
            ReplaceAll(s, key, marker)
            == if k == -1 then s else s[..k] + marker + ReplaceAll(s[k + |key|..], key, marker)
  {
  }

  lemma TailDef(s: Text, key: Text)
    requires key != []
    ensures var k := Find(s, key, 0);
            Tail(s, key) == if k == -1 then s else Tail(s[k + |key|..], key)
  {
  }

  /** A part in which no occurrence starts is copied. */
  lemma ReplaceSkip(d: Text, u: Text, key: Text, marker: Text)
    requires key != [] && NoneBefore(d + u, key, |d|)
    ensures ReplaceAll(d + u, key, marker) == d + ReplaceAll(u, key, marker)
  {
    hide *;
    FindSkip(d, u, key);
    ReplaceAllDef(d + u, key, marker);
    ReplaceAllDef(u, key, marker);
    var j := Find(u, key, 0);
    if j != -1 {
      FoundInside(u, key);
      SliceSum(d, u, j + |key|);
      SliceSum(d, u, j);
      var rest := ReplaceAll(u[j + |key|..], key, marker);
      Assoc(d, u[..j], marker);
      Assoc(d, u[..j] + marker, rest);
    }
  }

  lemma FoundInside(s: Text, key: Text)
    ensures Find(s, key, 0) != -1 ==> 0 <= Find(s, key, 0) && Find(s, key, 0) + |key| <= |s|
  {
  }

  lemma TailSkip(d: Text, u: Text, key: Text)
    requires key != [] && NoneBefore(d + u, key, |d|)
    ensures Tail(d + u, key) == if Find(u, key, 0) == -1 then d + u else Tail(u, key)
  {
    hide *;
    FindSkip(d, u, key);
    TailDef(d + u, key);
    TailDef(u, key);
    FoundInside(u, key);
    if Find(u, key, 0) != -1 { SliceSum(d, u, Find(u, key, 0) + |key|); }
  }

  lemma FindFront(key: Text, u: Text)
    ensures Find(key + u, key, 0) == 0
  {
    assert (key + u)[0..|key|] == key;
  }

  /** A match at the front is replaced. */
  lemma {:induction false} ReplaceFront(key: Text, u: Text, marker: Text)
    requires key != []
    ensures ReplaceAll(key + u, key, marker) == marker + ReplaceAll(u, key, marker)
    ensures Tail(key + u, key) == Tail(u, key)
  {
    FindFront(key, u);
    hide OccursAt;
    assert (key + u)[|key|..] == u;
    assert (key + u)[..0] == [];
  }

  // ---- Prefixes of the key at the end of a text ----

  /** The last k bytes of t are the first k bytes of the key. */
  predicate Ends(t: Text, key: Text, k: int) {
    0 <= k <= |t| && k <= |key| && t[|t| - k..] == key[..k]
  }

  function LongestUpTo(t: Text, key: Text, bound: nat): (k: nat)
    ensures k <= bound && Ends(t, key, k)
    ensures forall j :: k < j <= bound ==> !Ends(t, key, j)
  {
    if bound == 0 || Ends(t, key, bound) then bound else LongestUpTo(t, key, bound - 1)
  }

  /** Length of the longest prefix of the key that ends t. */
  function Longest(t: Text, key: Text): (k: nat)
    ensures Ends(t, key, k)
    ensures forall j :: k < j ==> !Ends(t, key, j)
  {
    LongestUpTo(t, key, |t|)
  }

  lemma LongestUnique(t: Text, key: Text, k: nat)
    requires Ends(t, key, k) && forall j :: k < j ==> !Ends(t, key, j)
    ensures Longest(t, key) == k
  {
    hide Ends;
  }

  /** Longest proper border of the first q key bytes: the KMP failure table. */
  function Border(key: Text, q: nat): (k: nat)
    requires 1 <= q <= |key|
    ensures k < q && Ends(key[..q], key, k)
    ensures forall j :: k < j < q ==> !Ends(key[..q], key, j)
  {
    LongestUpTo(key[..q], key, q - 1)
  }

  lemma EndsSnoc(t: Text, b: Byte, key: Text, k: int)
    requires k >= 1
    ensures Ends(t + [b], key, k) <==> Ends(t, key, k - 1) && k <= |key| && key[k - 1] == b
  {
    if k <= |t| + 1 && k <= |key| {
      assert (t + [b])[|t| + 1 - k..] == t[|t| - (k - 1)..] + [b];
      assert key[..k] == key[..k - 1] + [key[k - 1]];
    }
  }

  /** Of two prefixes of the key that end t, the shorter ends the longer;
      conversely a border of a prefix that ends t ends t. */
  lemma EndsNest(t: Text, key: Text, j: nat, q: nat)
    requires Ends(t, key, q) && j <= q
    ensures Ends(t, key, j) <==> Ends(key[..q], key, j)
  {
    assert t[|t| - q..][q - j..] == t[|t| - j..];
  }

  /** The state of the failure chain: q key bytes end t, and every key prefix of
      at most `limit` bytes that ends t + [b] is at most q + 1 long. */
  ghost predicate Chain(t: Text, b: Byte, key: Text, limit: nat, q: nat) {
    && q < |key| && q < limit
    && Ends(t, key, q)
    && forall k :: 1 <= k <= limit && Ends(t + [b], key, k) ==> k <= q + 1
  }

  lemma CandidateStep(t: Text, b: Byte, key: Text, q: nat, k: nat)
    requires 1 <= q < |key| && Ends(t, key, q) && key[q] != b && 1 <= k <= q + 1
    ensures Ends(t + [b], key, k) ==> k <= Border(key, q) + 1
  {
    EndsSnoc(t, b, key, k);
    if k <= q { EndsNest(t, key, k - 1, q); }
  }

  /** One step down the failure chain skips no candidate for byte b. */
  lemma ChainStep(t: Text, b: Byte, key: Text, limit: nat, q: nat)
    requires 1 <= q && Chain(t, b, key, limit, q) && key[q] != b
    ensures Chain(t, b, key, limit, Border(key, q))
  {
    EndsNest(t, key, Border(key, q), q);
    hide Ends;
    forall k | 1 <= k <= limit && Ends(t + [b], key, k) ensures k <= Border(key, q) + 1 {
      CandidateStep(t, b, key, q, k);
    }
  }

  /** At the end of the chain the byte either extends the prefix or nothing does. */
  lemma ChainEnd(t: Text, b: Byte, key: Text, limit: nat, q: nat)
    requires Chain(t, b, key, limit, q) && (q == 0 || key[q] == b)
    ensures var k := if key[q] == b then q + 1 else 0;
            Ends(t + [b], key, k) && forall j :: k < j <= limit ==> !Ends(t + [b], key, j)
  {
    EndsSnoc(t, b, key, q + 1);
  }

  // ---- One byte, a whole text ----

  datatype Scanned = Scanned(out: Text, matched: nat, hit: bool)

  /** Specification of one byte with q key bytes withheld: keep the longest
      prefix of the key that ends the withheld text plus b, release the rest. */
  function Step(key: Text, marker: Text, q: nat, b: Byte): (r: Scanned)
    requires q < |key|
    ensures r.matched < |key|
  {
    var t := key[..q] + [b];
    var k := Longest(t, key);
    if k == |key| then Scanned(marker, 0, true) else Scanned(t[..|t| - k], k, false)
  }

  lemma StepDef(key: Text, marker: Text, q: nat, b: Byte)
    requires q < |key|
    ensures var t := key[..q] + [b];
            var k := Longest(t, key);
            && k <= |key|
            && (k == |key| ==> t == key && Step(key, marker, q, b) == Scanned(marker, 0, true))
            && (k != |key| ==> Step(key, marker, q, b) == Scanned(t[..|t| - k], k, false))
  {
  }

  function Scan(key: Text, marker: Text, q: nat, value: Text): (r: Scanned)
    requires q < |key|
    ensures r.matched < |key|
    decreases |value|
  {
    if value == [] then Scanned([], q, false) else
      var first := Step(key, marker, q, value[0]);
      var rest := Scan(key, marker, first.matched, value[1..]);
      Scanned(first.out + rest.out, rest.matched, first.hit || rest.hit)
  }

  function Then(a: Scanned, b: Scanned): Scanned {
    Scanned(a.out + b.out, b.matched, a.hit || b.hit)
  }

  lemma ScanDef(key: Text, marker: Text, q: nat, b: Byte, rest: Text)
    requires q < |key|
    ensures var first := Step(key, marker, q, b);
            Scan(key, marker, q, [b] + rest) == Then(first, Scan(key, marker, first.matched, rest))
  {
    hide Step;
    ConsTail(b, rest);
  }

  lemma ThenAssoc(a: Scanned, b: Scanned, c: Scanned)
    ensures Then(Then(a, b), c) == Then(a, Then(b, c))
  {
    assert (a.out + b.out) + c.out == a.out + (b.out + c.out);
  }

  lemma {:induction false} ScanSplit(key: Text, marker: Text, q: nat, a: Text, b: Text)
    requires q < |key|
    ensures var first := Scan(key, marker, q, a);
            Scan(key, marker, q, a + b) == Then(first, Scan(key, marker, first.matched, b))
    decreases |a|
  {
    if a == [] {
      EmptyLeft(b);
    } else {
      hide *;
      var first := Step(key, marker, q, a[0]);
      ScanSplit(key, marker, first.matched, a[1..], b);
      ScanDef(key, marker, q, a[0], a[1..] + b);
      ScanDef(key, marker, q, a[0], a[1..]);
      Uncons(a);
      Assoc([a[0]], a[1..], b);
      var mid := Scan(key, marker, first.matched, a[1..]);
      ThenAssoc(first, mid, Scan(key, marker, mid.matched, b));
      ThenMatched(first, mid);
    }
  }

  lemma ThenMatched(a: Scanned, b: Scanned)
    ensures Then(a, b).matched == b.matched
  {
  }

  /** No occurrence in t + rest starts before the longest key prefix ending t. */
  lemma NoEarlyMatch(t: Text, rest: Text, key: Text, p: nat)
    requires |t| <= |key| && p < |t| - Longest(t, key)
    ensures !OccursAt(t + rest, key, p)
  {
    if p + |key| <= |t + rest| {
      assert (t + rest)[p..p + |key|][..|t| - p] == t[p..];
      assert !Ends(t, key, |t| - p);
    }
  }

  lemma NoEarlyMatches(t: Text, rest: Text, key: Text)
    requires |t| <= |key|
    ensures NoneBefore(t + rest, key, |t| - Longest(t, key))
  {
    forall p | 0 <= p < |t| - Longest(t, key) ensures !OccursAt(t + rest, key, p) {
      NoEarlyMatch(t, rest, key, p);
    }
  }

  /** Nor does a key prefix that reaches the end of t + rest. */
  lemma NoEarlyEnd(t: Text, rest: Text, key: Text, j: nat)
    requires |t| <= |key| && j > Longest(t, key) + |rest|
    ensures !Ends(t + rest, key, j)
  {
    if j <= |t + rest| && j <= |key| {
      assert (t + rest)[|t + rest| - j..][..j - |rest|] == t[|t| - (j - |rest|)..];
      assert !Ends(t, key, j - |rest|);
    }
  }

  /** Cutting t at its longest key prefix does not change the longest key prefix
      at the end of any extension of t. */
  lemma LongestCut(t: Text, rest: Text, key: Text)
    requires |t| <= |key|
    ensures Longest(t + rest, key) == Longest(key[..Longest(t, key)] + rest, key)
  {
    hide *;
    var k := Longest(t, key);
    LongestEnds(t, key);
    var s, u := t + rest, key[..k] + rest;
    forall j: nat | j <= |u| ensures Ends(s, key, j) == Ends(u, key, j) { EndsCut(t, rest, key, k, j); }
    forall j: nat | j > |u| ensures !Ends(s, key, j) { NoEarlyEnd(t, rest, key, j); }
    LongestSame(s, u, key);
  }

  lemma LongestEnds(t: Text, key: Text)
    ensures Longest(t, key) <= |key| && Longest(t, key) <= |t| && Ends(t, key, Longest(t, key))
  {
  }

  lemma EndsCut(t: Text, rest: Text, key: Text, k: nat, j: nat)
    requires k <= |key| && k <= |t| && Ends(t, key, k) && j <= k + |rest|
    ensures Ends(t + rest, key, j) == Ends(key[..k] + rest, key, j)
  {
    var s, u := t + rest, key[..k] + rest;
    assert s == t[..|t| - k] + u;
    SliceSum(t[..|t| - k], u, |u| - j);
  }

  lemma LongestSame(s: Text, u: Text, key: Text)
    requires forall j: nat :: j <= |u| ==> Ends(s, key, j) == Ends(u, key, j)
    requires forall j: nat :: j > |u| ==> !Ends(s, key, j)
    ensures Longest(s, key) == Longest(u, key)
  {
    LongestEnds(u, key);
    LongestMost(u, key);
    hide Ends, Longest;
    LongestUnique(s, key, Longest(u, key));
  }

  lemma LongestMost(u: Text, key: Text)
    ensures forall j: nat :: Longest(u, key) < j <= |key| ==> !Ends(u, key, j)
  {
  }

  /** What one released byte does to replacement, to the tail and to occurrences. */
  lemma {:induction false} Release(t: Text, rest: Text, key: Text, marker: Text)
    requires key != [] && |t| <= |key|
    ensures var k := Longest(t, key);
            var u := key[..k] + rest;
            && ReplaceAll(t + rest, key, marker) == t[..|t| - k] + ReplaceAll(u, key, marker)
            && (Find(t + rest, key, 0) == -1 <==> Find(u, key, 0) == -1)
            && Longest(Tail(t + rest, key), key) == Longest(Tail(u, key), key)
  {
    var k := Longest(t, key);
    var d, u := t[..|t| - k], key[..k] + rest;
    assert t + rest == d + u;
    NoEarlyMatches(t, rest, key);
    FindSkip(d, u, key);
    ReplaceSkip(d, u, key, marker);
    TailSkip(d, u, key);
    LongestCut(t, rest, key);
    hide *;
    if Find(u, key, 0) == -1 { TailNone(u, key); }
  }

  lemma {:induction false} TailNone(u: Text, key: Text)
    requires key != [] && Find(u, key, 0) == -1
    ensures Tail(u, key) == u
  {
  }

  /** Withholding q key bytes is itself a fixed point. */
  lemma {:induction false} WithheldOnly(key: Text, q: nat, marker: Text)
    requires q < |key|
    ensures Find(key[..q], key, 0) == -1 && Tail(key[..q], key) == key[..q] == ReplaceAll(key[..q], key, marker)
    ensures Longest(key[..q], key) == q
  {
    assert Ends(key[..q], key, q);
  }

  /** The specification of one run of the matcher over a value. */
  ghost predicate Projects(key: Text, marker: Text, q: nat, value: Text, r: Scanned)
    requires q < |key|
  {
    && r.matched < |key|
    && r.out + key[..r.matched] == ReplaceAll(key[..q] + value, key, marker)
    && r.matched == Longest(Tail(key[..q] + value, key), key)
    && (r.hit <==> Find(key[..q] + value, key, 0) != -1)
  }

  /** Prepending what a step released to the rest of a run. */
  lemma ProjectsAfter(key: Text, marker: Text, q: nat, value: Text, head: Text, q': nat, rest: Text, hit: bool,
                      r: Scanned)
    requires q < |key| && q' < |key| && Projects(key, marker, q', rest, r)
    requires var u := key[..q'] + rest; var s := key[..q] + value;
             && ReplaceAll(s, key, marker) == head + ReplaceAll(u, key, marker)
             && Longest(Tail(s, key), key) == Longest(Tail(u, key), key)
             && (Find(s, key, 0) != -1 <==> hit || Find(u, key, 0) != -1)
    ensures Projects(key, marker, q, value, Then(Scanned(head, q', hit), r))
  {
    hide ReplaceAll, Tail, Longest, Find;
    Assoc(head, r.out, key[..r.matched]);
  }

  lemma StepThenProjects(key: Text, marker: Text, q: nat, b: Byte, rest: Text, r: Scanned)
    requires q < |key|
    requires Projects(key, marker, Step(key, marker, q, b).matched, rest, r)
    ensures Projects(key, marker, q, [b] + rest, Then(Step(key, marker, q, b), r))
  {
    var t := key[..q] + [b];
    var k := Longest(t, key);
    StepDef(key, marker, q, b);
    hide *;
    Assoc(key[..q], [b], rest);
    if k == |key| {
      EmptyLeft(rest);
      FindFront(key, rest);
      ReplaceFront(key, rest, marker);
      ProjectsAfter(key, marker, q, [b] + rest, marker, 0, rest, true, r);
    } else {
      Release(t, rest, key, marker);
      ProjectsAfter(key, marker, q, [b] + rest, t[..|t| - k], k, rest, false, r);
    }
  }

  /** The matcher refines leftmost non-overlapping replacement, and what it
      withholds is the longest key prefix at the end of the text since the last
      replaced occurrence. */
  lemma {:induction false} ScanProjects(key: Text, marker: Text, q: nat, value: Text)
    requires q < |key|
    ensures Projects(key, marker, q, value, Scan(key, marker, q, value))
    decreases |value|
  {
    if value == [] {
      assert key[..q] + value == key[..q];
      WithheldOnly(key, q, marker);
    } else {
      var k := Step(key, marker, q, value[0]).matched;
      hide Step, Projects;
      ScanProjects(key, marker, k, value[1..]);
      StepThenProjects(key, marker, q, value[0], value[1..], Scan(key, marker, k, value[1..]));
      assert value == [value[0]] + value[1..];
    }
  }

  // ---- Any chunking ----

  function Concat(chunks: seq<Text>): Text {
    if chunks == [] then [] else chunks[0] + Concat(chunks[1..])
  }

  function ScanAll(key: Text, marker: Text, q: nat, chunks: seq<Text>): Scanned
    requires q < |key|
    decreases |chunks|
  {
    if chunks == [] then Scanned([], q, false) else
      var first := Scan(key, marker, q, chunks[0]);
      Then(first, ScanAll(key, marker, first.matched, chunks[1..]))
  }

  lemma {:induction false} ScanAllIsScan(key: Text, marker: Text, q: nat, chunks: seq<Text>)
    requires q < |key|
    ensures ScanAll(key, marker, q, chunks) == Scan(key, marker, q, Concat(chunks))
    decreases |chunks|
  {
    if chunks != [] {
      var first := Scan(key, marker, q, chunks[0]);
      hide Scan;
      ScanAllIsScan(key, marker, first.matched, chunks[1..]);
      ScanSplit(key, marker, q, chunks[0], Concat(chunks[1..]));
    }
  }

  /** However a text is split into deltas, the writes followed by a finish produce
      the leftmost non-overlapping replacement of the whole text. */
  lemma AnyChunkingIsReplaceAll(key: Text, marker: Text, chunks: seq<Text>)
    requires key != []
    ensures var r := ScanAll(key, marker, 0, chunks);
            && r.matched < |key|
            && r.out + key[..r.matched] == ReplaceAll(Concat(chunks), key, marker)
            && (r.hit <==> Occurs(Concat(chunks), key))
  {
    ScanAllIsScan(key, marker, 0, chunks);
    ScanProjects(key, marker, 0, Concat(chunks));
    EmptyLeft(Concat(chunks));
  }

  // ---- The markers, and key-freedom of the output ----

  /** The bytes of "[REDACTED]" and of "(hidden)". */
  const REDACTED: Text := [91, 82, 69, 68, 65, 67, 84, 69, 68, 93]
  const HIDDEN: Text := [40, 104, 105, 100, 100, 101, 110, 41]

  function Replacement(key: Text): Text {
    if key != [] && Find(REDACTED, key, 0) != -1 then HIDDEN else REDACTED
  }

  lemma OccursByte(s: Text, key: Text, k: int, i: nat)
    requires i < |key|
    ensures OccursAt(s, key, k) ==> s[k + i] == key[i]
  {
    if OccursAt(s, key, k) { assert s[k..k + |key|][i] == s[k + i]; }
  }

  lemma MarkersDisjoint(b: Byte)
    ensures !(b in REDACTED && b in HIDDEN)
  {
  }

  /** The two markers share no byte, so the chosen marker never contains the key. */
  lemma MarkerHidesKey(key: Text)
    requires key != []
    ensures !Occurs(Replacement(key), key)
    ensures Replacement(key) == if Find(BytesOf("[REDACTED]"), key, 0) == -1 then BytesOf("[REDACTED]") else BytesOf("(hidden)")
  {
    MarkersAre();
    hide REDACTED, HIDDEN;
    var k := Find(REDACTED, key, 0);
    OccursByte(REDACTED, key, k, 0);
    MarkersDisjoint(key[0]);
    forall j ensures k != -1 ==> !OccursAt(HIDDEN, key, j) {
      OccursByte(HIDDEN, key, j, 0);
    }
  }

  function BytesOf(s: string): Text {
    seq(|s|, i requires 0 <= i < |s| => if s[i] < 256 as char then s[i] as int else 0)
  }

  lemma MarkersAre()
    ensures REDACTED == BytesOf("[REDACTED]") && HIDDEN == BytesOf("(hidden)")
  {
  }

  /** A tail of the marker is a proper prefix of the key. */
  ghost predicate TailMeetsKey(key: Text, marker: Text) {
    exists i :: TailMeets(key, marker, i)
  }

  predicate TailMeets(key: Text, marker: Text, i: int) {
    1 <= i < |key| && i <= |marker| && marker[|marker| - i..] == key[..i]
  }

  /** The marker can complete a key that starts just before a replaced match. */
  ghost predicate HeadMeetsKey(key: Text, marker: Text) {
    exists i :: HeadMeets(key, marker, i)
  }

  predicate HeadMeets(key: Text, marker: Text, i: int) {
    1 <= i < |key| && Find(key[..i] + key, key, 0) == i && (key[i..] <= marker || marker <= key[i..])
  }

  /** Replacement leaves no occurrence in any output exactly when the marker
      cannot grow into the key on either side. */
  lemma OutputKeyFreeIff(key: Text, marker: Text)
    requires key != [] && !Occurs(marker, key)
    ensures (forall s :: !Occurs(ReplaceAll(s, key, marker), key))
            <==> !TailMeetsKey(key, marker) && !HeadMeetsKey(key, marker)
  {
    hide ReplaceAll, Find, HeadMeets, TailMeets;
    if i :| TailMeets(key, marker, i) {
      TailWitness(key, marker, i);
    } else if i :| HeadMeets(key, marker, i) {
      HeadWitness(key, marker, i);
    } else {
      forall s ensures !Occurs(ReplaceAll(s, key, marker), key) { KeyFree(s, key, marker); }
    }
  }

  lemma ReplaceShort(s: Text, key: Text, marker: Text)
    requires |s| < |key|
    ensures ReplaceAll(s, key, marker) == s
  {
  }

  lemma TailWitness(key: Text, marker: Text, i: int)
    requires TailMeets(key, marker, i)
    ensures exists s :: Occurs(ReplaceAll(s, key, marker), key)
  {
    var m := |marker| - i;
    assert marker[m..] == key[..i] && 1 <= i < |key|;
    hide *;
    Split(marker, m);
    Split(key, i);
    Assoc(marker[..m], key[..i], key[i..]);
    OccursBehind(marker[..m], key);
    ReplaceFront(key, key[i..], marker);
    ReplaceShort(key[i..], key, marker);
    Witness(key + key[i..], key, marker, |marker| - i);
  }

  lemma OccursBehind(d: Text, key: Text)
    ensures OccursAt(d + key, key, |d|)
  {
    SliceSum(d, key, 0);
    assert (d + key)[|d|..|d| + |key|] == (d + key)[|d|..];
  }

  lemma Witness(s: Text, key: Text, marker: Text, k: int)
    requires key != [] && OccursAt(ReplaceAll(s, key, marker), key, k)
    ensures exists s :: Occurs(ReplaceAll(s, key, marker), key)
  {
    hide ReplaceAll;
  }

  lemma HeadWitness(key: Text, marker: Text, i: int)
    requires HeadMeets(key, marker, i)
    ensures exists s :: Occurs(ReplaceAll(s, key, marker), key)
  {
    var a, n := key[..i], |key|;
    var rest := if |marker| < n - i then key[i + |marker|..] else [];
    var u := key + rest;
    forall p | 0 <= p < i ensures !OccursAt(a + u, key, p) {
      assert (a + key)[p..p + n] == (a + u)[p..p + n];
      assert !OccursAt(a + key, key, p);
    }
    assert OccursAt(a + (marker + rest), key, 0) by { HeadCompletes(key, marker, i, rest); }
    assert NoneBefore(a + u, key, |a|);
    assert |rest| < n;
    hide *;
    ReplaceSkip(a, u, key, marker);
    ReplaceFront(key, rest, marker);
    ReplaceShort(rest, key, marker);
    Witness(a + u, key, marker, 0);
  }

  lemma HeadCompletes(key: Text, marker: Text, i: nat, rest: Text)
    requires 1 <= i < |key| && (key[i..] <= marker || marker <= key[i..])
    requires rest == if |marker| < |key| - i then key[i + |marker|..] else []
    ensures OccursAt(key[..i] + (marker + rest), key, 0)
  {
    var n := |key|;
    assert (marker + rest)[..n - i] == key[i..];
    assert (key[..i] + (marker + rest))[0..n] == key[..i] + (marker + rest)[..n - i];
  }

  /** Occurrences inside a common prefix agree. */
  lemma OccursInPrefix(a: Text, b: Text, c: Text, key: Text, p: nat)
    requires p + |key| <= |a|
    ensures OccursAt(a + b, key, p) == OccursAt(a + c, key, p)
  {
    assert (a + b)[p..p + |key|] == a[p..p + |key|] == (a + c)[p..p + |key|];
  }

  /** An occurrence across the left edge of a replaced match makes the marker
      complete a key. Here a is copied text, m the marker and r what follows. */
  lemma AcrossLeft(a: Text, m: Text, r: Text, key: Text, p: nat)
    requires p < |a| < p + |key| && Find(a + key, key, 0) == |a|
    ensures OccursAt(a + (m + r), key, p) ==> HeadMeets(key, m, |a| - p)
  {
    var i := |a| - p;
    if OccursAt(a + (m + r), key, p) {
      StraddleParts(a, m + r, key, p);
      hide OccursAt, Find;
      PrefixOfSum(m, r, |key| - i);
      FindInSuffix(a, key, p);
    }
  }

  lemma StraddleParts(a: Text, w: Text, key: Text, p: nat)
    requires p < |a| < p + |key| && OccursAt(a + w, key, p)
    ensures a[p..] == key[..|a| - p]
    ensures |key| - (|a| - p) <= |w| && key[|a| - p..] == w[..|key| - (|a| - p)]
  {
    assert (a + w)[p..p + |key|] == a[p..] + w[..|key| - (|a| - p)];
  }

  lemma PrefixOfSum(m: Text, r: Text, n: nat)
    requires n <= |m + r|
    ensures (m + r)[..n] <= m || m <= (m + r)[..n]
  {
  }

  lemma FindInSuffix(a: Text, key: Text, p: nat)
    requires p < |a| && Find(a + key, key, 0) == |a|
    ensures Find(a[p..] + key, key, 0) == |a| - p
  {
    forall j | 0 <= j < |a| - p ensures !OccursAt(a[p..] + key, key, j) {
      assert a + key == a[..p] + (a[p..] + key);
      ShiftOccurs(a[..p], a[p..] + key, key, j);
      assert !OccursAt(a + key, key, p + j);
    }
    FindAt(a[p..], key);
  }

  lemma FindAt(a: Text, key: Text)
    requires NoneBefore(a + key, key, |a|)
    ensures Find(a + key, key, 0) == |a|
  {
    assert (a + key)[|a|..|a| + |key|] == key;
    assert OccursAt(a + key, key, |a|);
  }

  lemma InsideMarker(m: Text, r: Text, key: Text, p: nat)
    requires p + |key| <= |m|
    ensures OccursAt(m + r, key, p) ==> Occurs(m, key)
  {
    EmptyRight(m);
    OccursInPrefix(m, r, [], key, p);
  }

  lemma AcrossRight(m: Text, r: Text, key: Text, p: nat)
    requires p < |m| < p + |key|
    ensures OccursAt(m + r, key, p) ==> TailMeets(key, m, |m| - p)
  {
    if OccursAt(m + r, key, p) {
      assert (m + r)[p..p + |key|][..|m| - p] == m[p..];
    }
  }

  lemma FirstOccurrence(s: Text, key: Text)
    requires key != [] && Find(s, key, 0) != -1
    ensures var k := Find(s, key, 0);
            0 <= k && k + |key| <= |s| && Find(s[..k] + key, key, 0) == k
  {
    var k := Find(s, key, 0);
    assert s[k..k + |key|] == key;
    FoundInside(s, key);
    forall p | 0 <= p < k ensures !OccursAt(s[..k] + key, key, p) {
      assert !OccursAt(s, key, p);
      hide Find;
      SliceShared(s, k, key, p);
    }
    FindAt(s[..k], key);
  }

  lemma SliceShared(s: Text, k: nat, key: Text, p: nat)
    requires p < k && k + |key| <= |s| && s[k..k + |key|] == key
    ensures OccursAt(s[..k] + key, key, p) == OccursAt(s, key, p)
  {
    assert s[..k + |key|] == s[..k] + key;
    assert s[..k + |key|][p..p + |key|] == s[p..p + |key|];
  }

  lemma {:induction false} KeyFree(s: Text, key: Text, marker: Text)
    requires key != [] && !Occurs(marker, key)
    requires !TailMeetsKey(key, marker) && !HeadMeetsKey(key, marker)
    ensures !Occurs(ReplaceAll(s, key, marker), key)
    decreases |s|
  {
    hide ReplaceAll, Find, OccursAt, TailMeets, HeadMeets;
    var k := Find(s, key, 0);
    ReplaceAllDef(s, key, marker);
    if k == -1 {
      FindNone(s, key);
    } else {
      FirstOccurrence(s, key);
      var a, u := s[..k], s[k + |key|..];
      var r := ReplaceAll(u, key, marker);
      KeyFree(u, key, marker);
      Assoc(a, marker, r);
      forall p ensures !OccursAt(a + (marker + r), key, p) {
        NoOccurrenceAt(a, marker, r, key, p);
      }
    }
  }

  lemma FindNone(s: Text, key: Text)
    ensures Find(s, key, 0) == -1 <==> !Occurs(s, key)
  {
  }

  lemma NoOccurrenceAt(a: Text, m: Text, r: Text, key: Text, p: int)
    requires key != [] && Find(a + key, key, 0) == |a|
    requires !Occurs(m, key) && !Occurs(r, key) && !TailMeetsKey(key, m) && !HeadMeetsKey(key, m)
    ensures !OccursAt(a + (m + r), key, p)
  {
    hide *;
    if p < 0 {
      NotNegative(a + (m + r), key, p);
    } else if p + |key| <= |a| {
      FirstAt(a, key, p);
      OccursInPrefix(a, key, m + r, key, p);
    } else if p < |a| {
      AcrossLeft(a, m, r, key, p);
      NeverHead(key, m, |a| - p);
    } else {
      ShiftOccurs(a, m + r, key, p - |a|);
      NoOccurrenceInRest(m, r, key, p - |a|);
    }
  }

  lemma NotNegative(s: Text, key: Text, p: int)
    requires p < 0
    ensures !OccursAt(s, key, p)
  {
  }

  lemma FirstAt(a: Text, key: Text, p: nat)
    requires Find(a + key, key, 0) == |a| && p < |a|
    ensures !OccursAt(a + key, key, p)
  {
  }

  lemma NeverHead(key: Text, marker: Text, i: int)
    requires !HeadMeetsKey(key, marker)
    ensures !HeadMeets(key, marker, i)
  {
    hide HeadMeets;
  }

  lemma NoOccurrenceInRest(m: Text, r: Text, key: Text, p: nat)
    requires key != [] && !Occurs(m, key) && !Occurs(r, key) && !TailMeetsKey(key, m)
    ensures !OccursAt(m + r, key, p)
  {
    hide OccursAt, TailMeets;
    if p + |key| <= |m| {
      InsideMarker(m, r, key, p);
    } else if p < |m| {
      AcrossRight(m, r, key, p);
    } else {
      ShiftOccurs(m, r, key, p - |m|);
    }
  }

  /** A key without brackets or parentheses is never disclosed by the output. */
  lemma PlainKeyNeverDisclosed(s: Text, key: Text)
    requires key != [] && 91 !in key && 93 !in key && 40 !in key && 41 !in key
    ensures !Occurs(ReplaceAll(s, key, Replacement(key)), key)
  {
    var marker := Replacement(key);
    MarkerHidesKey(key);
    forall i ensures !TailMeets(key, marker, i) {
      if 1 <= i < |key| && i <= |marker| {
        assert marker[|marker| - i..][i - 1] == marker[|marker| - 1];
        assert key[..i][i - 1] == key[i - 1];
      }
    }
    forall i ensures !HeadMeets(key, marker, i) {
      if 1 <= i < |key| { assert key[i..][0] == key[i]; }
    }
    hide *;
    assert !TailMeetsKey(key, marker) by { NoTail(key, marker); }
    assert !HeadMeetsKey(key, marker) by { NoHead(key, marker); }
    KeyFree(s, key, marker);
  }

  lemma NoTail(key: Text, marker: Text)
    requires forall i :: !TailMeets(key, marker, i)
    ensures !TailMeetsKey(key, marker)
  {
  }

  lemma NoHead(key: Text, marker: Text)
    requires forall i :: !HeadMeets(key, marker, i)
    ensures !HeadMeetsKey(key, marker)
  {
  }

  /** The restriction matters: the key "]x" reappears when "]xx" is projected. */
  lemma BracketKeyCanReappear()
    ensures var key: Text := [93, 120];
            Occurs(ReplaceAll(key + [120], key, Replacement(key)), key)
  {
    var key: Text := [93, 120];
    assert 120 !in REDACTED;
    forall k ensures !OccursAt(REDACTED, key, k) { OccursByte(REDACTED, key, k, 1); }
    var out := REDACTED + [120];
    assert out[9..11] == key;
    assert OccursAt(out, key, 9);
    assert Replacement(key) == REDACTED;
    hide OccursAt, Find;
    ReplaceFront(key, [120], REDACTED);
    ReplaceShort([120], key, REDACTED);
  }

  lemma CountDef(s: Text, key: Text)
    requires key != []
    ensures var k := Find(s, key, 0);
            Count(s, key) == if k == -1 then 0 else 1 + Count(s[k + |key|..], key)
  {
  }

  /** The size computed before a bulk replacement is the size of its result. */
  lemma {:induction false} ReplaceAllLength(s: Text, key: Text, marker: Text)
    requires key != []
    ensures |ReplaceAll(s, key, marker)| == |s| + Count(s, key) * (|marker| - |key|)
    ensures Count(s, key) == 0 <==> !Occurs(s, key)
    ensures Count(s, key) == 0 ==> ReplaceAll(s, key, marker) == s
    decreases |s|
  {
    hide *;
    var k := Find(s, key, 0);
    CountDef(s, key);
    ReplaceAllDef(s, key, marker);
    FindNone(s, key);
    FoundInside(s, key);
    if k != -1 {
      var rest := s[k + |key|..];
      ReplaceAllLength(rest, key, marker);
      assert (1 + Count(rest, key)) * (|marker| - |key|) == (|marker| - |key|) + Count(rest, key) * (|marker| - |key|);
    }
  }

  // ---- The stateful filter ----

  /** One write with q bytes withheld; an empty key filters nothing. */
  function Filtered(key: Text, q: nat, value: Text): (r: Scanned)
    requires q < |key| || (key == [] && q == 0)
    ensures r.matched < |key| || (key == [] && r.matched == 0)
  {
    if key == [] then Scanned(value, 0, false) else Scan(key, Replacement(key), q, value)
  }

  lemma BorderOne(key: Text)
    ensures key != [] ==> Border(key, 1) == 0
  {
  }

  lemma WritesNothing(key: Text, marker: Text, q: nat, value: Text)
    requires q < |key|
    ensures Scan(key, marker, q, value) == Then(Scanned([], q, false), Scan(key, marker, q, value[0..]))
  {
    assert value[0..] == value;
    EmptyLeft(Scan(key, marker, q, value).out);
    hide Scan;
  }

  lemma WritesOne(key: Text, marker: Text, q0: nat, value: Text, i: nat, before: Scanned, now: Scanned)
    requires q0 < |key| && i < |value| && before.matched < |key| && now == Step(key, marker, before.matched, value[i])
    requires Scan(key, marker, q0, value) == Then(before, Scan(key, marker, before.matched, value[i..]))
    ensures now.matched < |key|
    ensures Scan(key, marker, q0, value)
            == Then(Scanned(before.out + now.out, now.matched, before.hit || now.hit), Scan(key, marker, now.matched, value[i + 1..]))
  {
    assert value[i..] == [value[i]] + value[i + 1..];
    ScanDef(key, marker, before.matched, value[i], value[i + 1..]);
    ThenAssoc(before, now, Scan(key, marker, now.matched, value[i + 1..]));
    hide Scan, Step;
  }

  lemma WritesAll(key: Text, marker: Text, value: Text, m: Scanned)
    requires m.matched < |key|
    ensures Then(m, Scan(key, marker, m.matched, value[|value|..])) == m
  {
    EmptyRight(m.out);
  }

  class CredentialFilter {
    const key: Text
    const marker: Text
    const prefix: array<nat>
    var matched: nat
    var redacted: bool

    ghost predicate Table(upTo: nat)
      reads prefix
    {
      && prefix.Length == |key|
      && forall i :: 0 <= i < upTo && i < |key| ==> prefix[i] == Border(key, i + 1)
    }

    ghost predicate Valid()
      reads this, prefix
    {
      && marker == Replacement(key)
      && Table(|key|)
      && (matched < |key| || (key == [] && matched == 0))
    }

    /** Builds the failure table with at most three key comparisons per byte. */
    constructor (key: Text)
      ensures Valid() && this.key == key && matched == 0 && !redacted
      ensures fresh(prefix)
    {
      this.key := key;
      this.marker := Replacement(key);
      this.prefix := new nat[|key|](_ => 0);
      matched, redacted := 0, false;
      new;
      var cost := Build();
      assert cost <= 3 * |key|;
    }

    method Build() returns (ghost comparisons: nat)
      requires prefix.Length == |key| && forall i :: 0 <= i < |key| ==> prefix[i] == 0
      modifies prefix
      ensures Table(|key|) && comparisons <= 3 * |key|
    {
      hide Border;
      comparisons := 0;
      BorderOne(key);
      var i: nat, j: nat := 1, 0;
      while i < |key|
        invariant i == 1 || 1 <= i <= |key|
        invariant Table(i)
        invariant key != [] ==> j == Border(key, i)
        invariant comparisons + j <= 3 * (i - 1)
      {
        ghost var cost;
        j, cost := Extend(i, j);
        comparisons := comparisons + cost;
        prefix[i] := j;
        i := i + 1;
      }
    }

    lemma TableAt(upTo: nat, q: nat)
      requires Table(upTo) && 1 <= q <= upTo && q <= |key|
      ensures prefix[q - 1] == Border(key, q) < q
    {
    }

    /** The border of the first i + 1 key bytes from the border of the first i. */
    method Extend(i: nat, border: nat) returns (j: nat, ghost comparisons: nat)
      requires 1 <= i < |key| && Table(i) && prefix.Length == |key| && border == Border(key, i)
      ensures j == Border(key, i + 1) && comparisons + j <= border + 3
    {
      j, comparisons := border, 0;
      ghost var t := key[..i];
      FirstChain(key, i);
      hide *;
      while j > 0 && key[i] != key[j]
        invariant j < i && Chain(t, key[i], key, i, j)
        invariant comparisons + j <= border
      {
        ChainStep(t, key[i], key, i, j);
        TableAt(i, j);
        comparisons := comparisons + 1;
        j := prefix[j - 1];
      }
      comparisons := comparisons + 2;
      BorderStops(key, i, j);
      if key[i] == key[j] {
        j := j + 1;
      }
    }

    /** One delta: what is released plus what is withheld is the replacement of
        what was withheld plus the delta, at amortised linear cost. */
    method Write(value: Text) returns (out: Text, ghost comparisons: nat)
      requires Valid()
      modifies this
      ensures Valid()
      ensures var r := Filtered(key, old(matched), value);
              out == r.out && matched == r.matched && redacted == (old(redacted) || r.hit)
      ensures key != [] ==> out + key[..matched] == ReplaceAll(key[..old(matched)] + value, key, marker)
      ensures key != [] ==> matched == Longest(Tail(key[..old(matched)] + value, key), key)
      ensures comparisons + matched <= 3 * |value| + old(matched)
    {
      comparisons := 0;
      if key == [] {
        return value, 0;
      }
      hide Scan, Step, ReplaceAll, Longest, Tail, Find, Replacement;
      out := [];
      ghost var q0, seen := matched, false;
      WritesNothing(key, marker, q0, value);
      for i := 0 to |value|
        invariant Valid()
        invariant Scan(key, marker, q0, value) == Then(Scanned(out, matched, seen), Scan(key, marker, matched, value[i..]))
        invariant comparisons + matched <= 3 * i + q0
        invariant redacted == (old(redacted) || seen)
      {
        ghost var before := Scanned(out, matched, seen);
        var released, hit, cost := Feed(value[i]);
        WritesOne(key, marker, q0, value, i, before, Scanned(released, matched, hit));
        out := out + released;
        seen := seen || hit;
        comparisons := comparisons + cost;
      }
      WritesAll(key, marker, value, Scanned(out, matched, seen));
      ScanProjects(key, marker, q0, value);
    }

    /** Falls back along the failure table until b extends the withheld prefix. */
    method FallBack(b: Byte) returns (out: Text, ghost comparisons: nat)
      requires Table(|key|) && prefix.Length == |key| && matched < |key|
      modifies this`matched
      ensures matched < |key| && (matched == 0 || key[matched] == b)
      ensures Chain(key[..old(matched)], b, key, |key|, matched)
      ensures matched <= old(matched) && out == key[..old(matched) - matched]
      ensures comparisons + matched <= old(matched)
    {
      hide *;
      out, comparisons := [], 0;
      ghost var q0 := matched;
      FirstCandidates(key, q0, b);
      while matched > 0 && b != key[matched]
        invariant matched <= q0 && out == key[..q0 - matched] && matched < |key|
        invariant Chain(key[..q0], b, key, |key|, matched) && Table(|key|)
        invariant comparisons + matched <= q0
      {
        var released := FallOnce(b, q0, out);
        out := out + released;
        comparisons := comparisons + 1;
      }
    }

    /** One step along the failure table. */
    method FallOnce(b: Byte, ghost q0: nat, ghost out: Text) returns (released: Text)
      requires Table(|key|) && prefix.Length == |key| && 0 < matched < |key| && key[matched] != b
      requires q0 < |key| && matched <= q0 && Chain(key[..q0], b, key, |key|, matched) && out == key[..q0 - matched]
      modifies this`matched
      ensures matched < old(matched) && Table(|key|) && Chain(key[..q0], b, key, |key|, matched)
      ensures out + released == key[..q0 - matched]
    {
      hide *;
      ChainStep(key[..q0], b, key, |key|, matched);
      TableAt(|key|, matched);
      var next := prefix[matched - 1];
      Fallback(key, b, q0, matched, next);
      released := key[..matched - next];
      matched := next;
    }

    /** One byte: fall back along the failure table, then extend. */
    method Feed(b: Byte) returns (out: Text, hit: bool, ghost comparisons: nat)
      requires Table(|key|) && prefix.Length == |key| && matched < |key|
      modifies this
      ensures Scanned(out, matched, hit) == Step(key, marker, old(matched), b)
      ensures redacted == (old(redacted) || hit)
      ensures comparisons + matched <= old(matched) + 3
    {
      hide *;
      out, comparisons := FallBack(b);
      hit, comparisons := false, comparisons + 2;
      ChainStops(b, key, marker, old(matched), matched);
      if b == key[matched] {
        matched := matched + 1;
        if matched == |key| {
          redacted, hit := true, true;
          EmptyLeft(marker);
          out := out + marker;
          matched := 0;
        }
      } else {
        out := out + [b];
      }
    }

    /** Releases what is withheld. */
    method Finish() returns (tail: Text)
      requires Valid()
      modifies this`matched
      ensures Valid() && matched == 0 && tail == key[..old(matched)]
    {
      tail := key[..matched];
      matched := 0;
    }
  }

  lemma LongestWithin(t: Text, key: Text, k: nat)
    requires Ends(t, key, k) && forall j :: k < j <= |key| ==> !Ends(t, key, j)
    ensures Longest(t, key) == k
  {
  }

  /** The border once the failure chain has stopped. */
  lemma BorderStops(key: Text, i: nat, q: nat)
    requires 1 <= i < |key| && Chain(key[..i], key[i], key, i, q) && (q == 0 || key[q] == key[i])
    ensures Border(key, i + 1) == if key[q] == key[i] then q + 1 else 0
  {
    ChainEnd(key[..i], key[i], key, i, q);
    assert key[..i + 1] == key[..i] + [key[i]];
    hide Ends, Chain;
  }

  /** What one byte does once the failure chain has stopped at q. */
  lemma ChainStops(b: Byte, key: Text, marker: Text, q0: nat, q: nat)
    requires q0 < |key| && Chain(key[..q0], b, key, |key|, q) && (q == 0 || key[q] == b)
    ensures q <= q0
    ensures var released := key[..q0 - q];
            && (key[q] != b ==> Step(key, marker, q0, b) == Scanned(released + [b], 0, false))
            && (key[q] == b && q + 1 < |key| ==> Step(key, marker, q0, b) == Scanned(released, q + 1, false))
            && (key[q] == b && q + 1 == |key| ==> released == [] && Step(key, marker, q0, b) == Scanned(marker, 0, true))
  {
    var k := if key[q] == b then q + 1 else 0;
    ChainWithin(b, key, q0, q);
    hide *;
    StopsLongest(b, key, q0, q, k);
    StepDef(key, marker, q0, b);
    StopsReleased(key[..q0], b, q, k);
  }

  lemma ChainWithin(b: Byte, key: Text, q0: nat, q: nat)
    requires q0 < |key| && Chain(key[..q0], b, key, |key|, q)
    ensures q <= q0 && q < |key|
  {
  }

  lemma StopsLongest(b: Byte, key: Text, q0: nat, q: nat, k: nat)
    requires q0 < |key| && q < |key| && Chain(key[..q0], b, key, |key|, q) && (q == 0 || key[q] == b)
    requires k == if key[q] == b then q + 1 else 0
    ensures Longest(key[..q0] + [b], key) == k
  {
    hide *;
    ChainEnd(key[..q0], b, key, |key|, q);
    LongestWithin(key[..q0] + [b], key, k);
  }

  lemma StopsReleased(t: Text, b: Byte, q: nat, k: nat)
    requires q <= |t| && (k == 0 || k == q + 1)
    ensures k == 0 ==> (t + [b])[..|t + [b]| - k] == t + [b]
    ensures k == q + 1 ==> (t + [b])[..|t + [b]| - k] == t[..|t| - q]
    ensures t[..|t| - 0] == t
  {
  }

  lemma FirstChain(key: Text, i: nat)
    requires 1 <= i < |key|
    ensures Chain(key[..i], key[i], key, i, Border(key, i))
  {
    forall k | 1 <= k <= i && Ends(key[..i] + [key[i]], key, k) ensures k <= Border(key, i) + 1 {
      EndsSnoc(key[..i], key[i], key, k);
    }
  }

  lemma FirstCandidates(key: Text, q: nat, b: Byte)
    requires q < |key|
    ensures Chain(key[..q], b, key, |key|, q)
  {
    assert Ends(key[..q], key, q);
    forall k | 1 <= k <= |key| && Ends(key[..q] + [b], key, k) ensures k <= q + 1 {
    }
  }

  /** The bytes released by one step down the failure chain. */
  lemma Fallback(key: Text, b: Byte, q0: nat, q: nat, next: nat)
    requires q0 < |key| && Chain(key[..q0], b, key, |key|, q) && next <= q
    ensures q <= q0 && key[..q0 - q] + key[..q - next] == key[..q0 - next]
  {
    var t := key[..q0];
    assert q <= q0 && t[q0 - q..] == key[..q];
    hide *;
    BorderSlice(key, q0, q, next);
  }

  lemma BorderSlice(key: Text, q0: nat, q: nat, next: nat)
    requires next <= q <= q0 <= |key| && key[..q0][q0 - q..] == key[..q]
    ensures key[..q0 - q] + key[..q - next] == key[..q0 - next]
  {
    var a, b := key[..q0 - q] + key[..q - next], key[..q0 - next];
    forall x | 0 <= x < q0 - next ensures a[x] == b[x] {
      if x >= q0 - q { assert key[..q0][q0 - q..][x - (q0 - q)] == key[..q][x - (q0 - q)]; }
    }
  }
}
