/** The borrowed view of a stored attachment body
    (internal/ai/attachment_metadata_json.go): a JSON string body is unescaped while
    it is read, into buffers of any size. */
module AttachmentReader {
  import opened Prelude
  import JsonBudget

  predicate IsHex(c: Byte) { 48 <= c <= 57 || 65 <= c <= 70 || 97 <= c <= 102 }

  predicate Letter(c: Byte) { c == 34 || c == 92 || c == 47 || c == 98 || c == 102 || c == 110 || c == 114 || c == 116 }

  /** The length of the element a string body starts with: a byte or an escape; 0 if
      it is malformed. */
  function ElementLength(s: Text): (w: nat)
    requires s != []
    ensures w <= |s|
  {
    if s[0] != 92 then 1
    else if |s| >= 2 && Letter(s[1]) then 2
    else if |s| >= 6 && s[1] == 117 && IsHex(s[2]) && IsHex(s[3]) && IsHex(s[4]) && IsHex(s[5]) then 6
    else 0
  }

  /** The string bodies of section 7 of RFC 8259, as far as escapes go. */
  predicate Body(s: Text)
    decreases |s|
  {
    s == [] || (ElementLength(s) > 0 && Body(s[ElementLength(s)..]))
  }

  function Code(s: Text): (code: nat)
    requires |s| >= 6
    ensures code == ((JsonBudget.UnHex(s[2]) * 16 + JsonBudget.UnHex(s[3])) * 16 + JsonBudget.UnHex(s[4])) * 16 + JsonBudget.UnHex(s[5])
  {
    JsonBudget.UnHex(s[2]) * 4096 + JsonBudget.UnHex(s[3]) * 256 + JsonBudget.UnHex(s[4]) * 16 + JsonBudget.UnHex(s[5])
  }

  /** The digits and the letters of an escape, and what they stand for. */
  lemma EscapesAre(c: Byte)
    ensures IsHex(c) <==> c as char in "0123456789abcdef" || c as char in "0123456789ABCDEF"
    ensures IsHex(c) ==>
              var d := JsonBudget.UnHex(c);
              d < 16 && ("0123456789abcdef"[d] == c as char || "0123456789ABCDEF"[d] == c as char)
    ensures Letter(c) <==> c as char in "\"\\/bfnrt"
    ensures JsonBudget.LetterByte(98) == 0x08 && JsonBudget.LetterByte(102) == 0x0c && JsonBudget.LetterByte(110) == 0x0a
    ensures JsonBudget.LetterByte(114) == 0x0d && JsonBudget.LetterByte(116) == 0x09
    ensures c as char in "\"\\/" ==> JsonBudget.LetterByte(c) == c
  {
    var low, high, letters := "0123456789abcdef", "0123456789ABCDEF", "\"\\/bfnrt";
    assert IsHex(c) ==> low[JsonBudget.UnHex(c)] == c as char || high[JsonBudget.UnHex(c)] == c as char;
    assert letters[0] == '"' && letters[1] == '\\' && letters[2] == '/' && letters[3] == 'b' && letters[4] == 'f'
           && letters[5] == 'n' && letters[6] == 'r' && letters[7] == 't';
  }

  /** The byte an element stands for; every non-ASCII escape stands for 0xff. */
  function ElementByte(s: Text): Byte
    requires s != [] && ElementLength(s) > 0
  {
    if s[0] != 92 then s[0]
    else if s[1] != 117 then JsonBudget.LetterByte(s[1])
    else if Code(s) < 0x80 then Code(s) else 0xff
  }

  /** What a reader should see of a body. */
  function View(s: Text): Text
    requires Body(s)
    decreases |s|
  {
    if s == [] then [] else [ElementByte(s)] + View(s[ElementLength(s)..])
  }

  lemma {:induction false} ViewPlain(s: Text, k: nat)
    requires k <= |s| && Body(s) && forall i :: 0 <= i < k ==> s[i] != 92
    ensures Body(s[k..]) && View(s) == s[..k] + View(s[k..])
    decreases k
  {
    if k == 0 {
      assert s[0..] == s;
      EmptyLeft(View(s));
    } else {
      ViewPlain(s[1..], k - 1);
      assert s[1..][k - 1..] == s[k..];
      assert s[..k] == [s[0]] + s[1..][..k - 1];
      Assoc([s[0]], s[1..][..k - 1], View(s[k..]));
    }
  }

  method IndexOfBackslash(s: Text) returns (k: nat)
    ensures k <= |s| && (k < |s| ==> s[k] == 92) && forall i :: 0 <= i < k ==> s[i] != 92
  {
    k := 0;
    while k < |s| && s[k] != 92
      invariant k <= |s| && forall i :: 0 <= i < k ==> s[i] != 92
    {
      k := k + 1;
    }
  }

  method Copy(p: array<Byte>, n: nat, s: Text)
    requires n + |s| <= p.Length
    modifies p
    ensures p[..n] == old(p[..n]) && p[n..n + |s|] == s && p[n + |s|..] == old(p[n + |s|..])
  {
    var i := 0;
    while i < |s|
      invariant 0 <= i <= |s|
      invariant p[..n] == old(p[..n]) && p[n..n + i] == s[..i] && p[n + |s|..] == old(p[n + |s|..])
    {
      p[n + i] := s[i];
      i := i + 1;
    }
  }

  class AttachmentJSONReader {
    var data: Text

    constructor (body: Text)
      ensures data == body
    {
      data := body;
    }

    /** Takes the escape at the front of the data. */
    method TakeEscape() returns (b: Byte)
      requires Body(data) && data != [] && data[0] == 92
      modifies this`data
      ensures Body(data) && [b] + View(data) == View(old(data)) && |data| < |old(data)|
    {
      b := data[1];
      ghost var s := data;
      data := data[2..];
      if b == 98 {
        b := 8;
      } else if b == 102 {
        b := 12;
      } else if b == 110 {
        b := 10;
      } else if b == 114 {
        b := 13;
      } else if b == 116 {
        b := 9;
      } else if b == 117 {
        var high := JsonBudget.UnHex(data[0]) * 16 + JsonBudget.UnHex(data[1]);
        b := JsonBudget.UnHex(data[2]) * 16 + JsonBudget.UnHex(data[3]);
        data := data[4..];
        assert data == s[6..];
        if high != 0 || b >= 0x80 {
          b := 0xff;
        }
      }
    }

    /** One turn of the loop: plain bytes up to the next escape or the end of the
        buffer, then that escape. */
    method Fill(p: array<Byte>, n: nat) returns (next: nat)
      requires Body(data) && n < p.Length && data != []
      modifies this`data, p
      ensures Body(data) && |data| < |old(data)| && n < next <= p.Length
      ensures p[..next] + View(data) == old(p[..n]) + View(old(data)) && p[next..] == old(p[next..])
    {
      hide *;
      next := n;
      MinIs(|data|, p.Length - next);
      var chunk := data[..Min(|data|, p.Length - next)];
      var plain := IndexOfBackslash(chunk);
      ghost var s, before := data, p[..n];
      ViewPlain(data, plain);
      Copy(p, next, chunk[..plain]);
      next := next + plain;
      data := data[plain..];
      Extended(p, n, next, before, s[..plain], View(data));
      if next == p.Length || |data| == 0 {
        return;
      }
      ghost var rest, done := data, p[..next];
      EscapeNext(chunk, s, plain, rest);
      var b := TakeEscape();
      p[next] := b;
      next := next + 1;
      Extended(p, next - 1, next, done, [b], View(data));
    }

    /** Fills p from the front: together with what is still to come this is the
        whole view, and less than a full buffer is delivered only at the end. */
    method Read(p: array<Byte>) returns (n: nat, eof: bool)
      requires Body(data)
      modifies this`data, p
      ensures Body(data) && n <= p.Length && p[..n] + View(data) == View(old(data))
      ensures n < p.Length ==> data == []
      ensures eof <==> n == 0 && p.Length > 0
      ensures p[n..] == old(p[n..])
      ensures |data| <= |old(data)| && (n > 0 ==> |data| < |old(data)|)
    {
      hide *;
      n := 0;
      EmptyLeft(View(data));
      assert p[..0] == [];
      while n < p.Length && |data| > 0
        invariant Body(data) && n <= p.Length && p[..n] + View(data) == View(old(data))
        invariant p[n..] == old(p[n..])
        invariant |data| <= |old(data)| && (n > 0 ==> |data| < |old(data)|)
        decreases |data|
      {
        ghost var m, all := n, p[..];
        n := Fill(p, n);
        assert p[n..] == all[n..];
        assert all[n..] == all[m..][n - m..];
      }
      eof := n == 0 && p.Length > 0;
    }
  }

  lemma MinIs(a: int, b: int)
    ensures Min(a, b) == if a < b then a else b
  {
  }

  lemma EscapeNext(chunk: Text, s: Text, plain: nat, rest: Text)
    requires chunk <= s && plain < |chunk| && chunk[plain] == 92 && rest == s[plain..]
    ensures rest != [] && rest[0] == 92
  {
  }

  lemma Extended(p: array<Byte>, m: nat, n: nat, before: Text, added: Text, rest: Text)
    requires m <= n <= p.Length && p[..m] == before && p[m..n] == added
    ensures p[..n] == before + added && before + (added + rest) == p[..n] + rest
  {
    Assoc(before, added, rest);
    assert p[..n] == p[..m] + p[m..n];
  }

  /** Reading to the end with any sequence of non-empty buffers delivers exactly the
      view: the stream does not depend on the buffer sizes. */
  method ReadAll(body: Text, sizes: nat -> nat) returns (out: Text)
    requires Body(body) && forall i :: sizes(i) > 0
    ensures out == View(body)
  {
    hide *;
    var reader := new AttachmentJSONReader(body);
    out := [];
    EmptyLeft(View(body));
    var turn, eof := 0, false;
    while !eof
      invariant Body(reader.data) && out + View(reader.data) == View(body)
      invariant eof ==> reader.data == []
      decreases |reader.data|, !eof
    {
      var p := new Byte[sizes(turn)](_ => 0);
      var n;
      ghost var before := reader.data;
      n, eof := reader.Read(p);
      Assoc(out, p[..n], View(reader.data));
      out := out + p[..n];
      turn := turn + 1;
    }
    ViewEmpty();
    EmptyRight(out);
  }

  lemma ViewEmpty()
    ensures Body([]) && View([]) == []
  {
  }

  // ---- The view and the string it stands for ----

  /** No escape of the body stands for a non-ASCII character. */
  predicate AsciiEscapes(s: Text)
    requires Body(s)
    decreases |s|
  {
    s == [] || (!(s[0] == 92 && s[1] == 117 && Code(s) >= 0x80) && AsciiEscapes(s[ElementLength(s)..]))
  }

  /** For such a body the view is the unescaped string itself. */
  lemma {:induction false} ViewIsUnescaped(s: Text)
    requires Body(s) && AsciiEscapes(s)
    ensures View(s) == JsonBudget.Unescaped(s)
    decreases |s|
  {
    if s != [] {
      ViewIsUnescaped(s[ElementLength(s)..]);
    }
  }

  /** Any other escape shows up as a byte that no Base64 text contains. */
  lemma {:induction false} OthersRejected(s: Text)
    requires Body(s) && forall i :: 0 <= i < |s| ==> s[i] != 0xff
    ensures 0xff in View(s) <==> !AsciiEscapes(s)
    decreases |s|
  {
    if s != [] {
      var w := ElementLength(s);
      OthersRejected(s[w..]);
      LetterAscii(s);
      assert View(s) == [ElementByte(s)] + View(s[w..]);
      hide View, Body, AsciiEscapes, ElementLength;
    }
  }

  lemma LetterAscii(s: Text)
    requires s != [] && ElementLength(s) > 0 && s[0] != 0xff
    ensures ElementByte(s) == 0xff <==> s[0] == 92 && s[1] == 117 && Code(s) >= 0x80
  {
  }
}
