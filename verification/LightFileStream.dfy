/** One response stream of the light-node file relay: what a handler may emit
    (lightFileResponseWriter in cmd/kejilion-node/light_file.go) and what a
    receiver of an acknowledged prefix knows about it. */
module LightFileStream {
  import opened Prelude

  type Id = string

  const CHUNK_BYTES := 23552

  datatype Kind = Accepted | Error | Response | Data | End

  datatype Event = Event(kind: Kind, requestID: Id, commandID: Id, status: int, offset: nat, data: Text, error: string)

  predicate InStream(e: Event) { e.kind == Response || e.kind == Data || e.kind == End }

  function Bytes(stream: seq<Event>): Text {
    if stream == [] then [] else
      var last := stream[|stream| - 1];
      Bytes(stream[..|stream| - 1]) + (if last.kind == Data then last.data else [])
  }

  /** A stream is one response, then data at contiguous offsets, then one end. */
  ghost predicate WellFormed(stream: seq<Event>, head: bool) {
    forall k :: 0 <= k < |stream| ==> LegalNext(stream[..k], head, stream[k])
  }

  predicate Ended(stream: seq<Event>) { stream != [] && stream[|stream| - 1].kind == End }

  predicate LegalNext(sent: seq<Event>, head: bool, e: Event) {
    && !Ended(sent)
    && (e.kind == Response ==> sent == [])
    && (e.kind == Data ==> sent != [] && !head && e.offset == |Bytes(sent)| && 0 < |e.data| <= 23 * 1024)
    && (e.kind == End ==> sent != [])
    && InStream(e)
  }

  lemma WellFormedSnoc(stream: seq<Event>, head: bool, e: Event)
    requires WellFormed(stream, head) && LegalNext(stream, head, e)
    ensures WellFormed(stream + [e], head)
  {
    var next := stream + [e];
    forall k | 0 <= k < |next| ensures LegalNext(next[..k], head, next[k]) {
      assert next[..k] == stream[..k];
      if k == |stream| { assert stream[..k] == stream; }
    }
  }

  lemma BytesSnoc(stream: seq<Event>, e: Event)
    ensures Bytes(stream + [e]) == Bytes(stream) + (if e.kind == Data then e.data else [])
  {
    assert (stream + [e])[..|stream|] == stream;
  }

  lemma {:induction false} BytesPrefix(a: seq<Event>, b: seq<Event>)
    ensures Bytes(a) <= Bytes(a + b)
    decreases |b|
  {
    if b == [] {
      EmptyRight(a);
    } else {
      var c := b[..|b| - 1];
      assert b == c + [b[|b| - 1]];
      Assoc(a, c, [b[|b| - 1]]);
      BytesPrefix(a, c);
      BytesSnoc(a + c, b[|b| - 1]);
    }
  }

  lemma LegalAt(stream: seq<Event>, head: bool, k: nat)
    requires WellFormed(stream, head) && k < |stream|
    ensures LegalNext(stream[..k], head, stream[k])
  {
    hide LegalNext;
  }

  lemma PrefixAt(a: seq<Event>, b: seq<Event>, k: nat)
    requires a <= b && k < |a|
    ensures a[..k] == b[..k] && a[k] == b[k]
  {
  }

  /** A receiver that has the first events of a stream has the first bytes of the
      body in order; once it has seen the end it has all of them. */
  lemma ReceivedPrefix(stream: seq<Event>, head: bool, received: seq<Event>)
    requires WellFormed(stream, head) && received <= stream
    ensures Bytes(received) <= Bytes(stream)
    ensures forall k :: 0 <= k < |received| && received[k].kind == Data ==> received[k].offset == |Bytes(received[..k])|
    ensures Ended(received) ==> received == stream
  {
    var n := |received|;
    hide Bytes, WellFormed;
    Split(stream, n);
    BytesPrefix(received, stream[n..]);
    forall k | 0 <= k < n && received[k].kind == Data ensures received[k].offset == |Bytes(received[..k])| {
      PrefixAt(received, stream, k);
      LegalAt(stream, head, k);
    }
    assert stream[..n] == received;
    if n < |stream| {
      LegalAt(stream, head, n);
    } else {
      assert stream[..n] == stream;
    }
  }

  // ---- The response writer ----

  class ResponseWriter {
    const requestID: Id
    const head: bool
    var status: int
    var offset: nat
    var ended: bool
    var failed: bool
    /** The session context is cancelled: nothing can be sent any more. */
    var closed: bool
    /** Everything put into the session channel so far. */
    var sent: seq<Event>

    ghost predicate Valid()
      reads this
    {
      && WellFormed(sent, head)
      && (!closed ==> (status == 0 <==> sent == []))
      && (!closed && !ended ==> !Ended(sent))
      && offset == |Bytes(sent)|
      && (failed ==> closed)
    }

    constructor (requestID: Id, head: bool)
      ensures Valid() && sent == [] && this.requestID == requestID && this.head == head && !ended && status == 0
              && offset == 0
      ensures !closed && !failed
    {
      this.requestID, this.head := requestID, head;
      status, offset, ended, failed, closed, sent := 0, 0, false, false, false, [];
    }

    /** Blocks until the event is in the channel or the context is done. */
    method Send(e: Event, cancelled: bool) returns (ok: bool)
      requires WellFormed(sent, head) && (!closed ==> LegalNext(sent, head, e))
      modifies this`closed, this`sent
      ensures ok == (!old(closed) && !cancelled) && closed == (old(closed) || cancelled)
      ensures sent == if ok then old(sent) + [e] else old(sent)
      ensures WellFormed(sent, head)
    {
      closed := closed || cancelled;
      ok := !closed;
      if ok {
        WellFormedSnoc(sent, head, e);
        sent := sent + [e];
      }
    }

    method WriteHeader(code: int, cancelled: bool)
      requires Valid() && !ended
      modifies this
      ensures Valid() && status != 0 && !ended && offset == old(offset)
      ensures old(status) != 0
              ==> sent == old(sent) && status == old(status) && closed == old(closed) && failed == old(failed)
      ensures old(status) == 0 ==>
                && status == (if code < 100 || code > 999 then 500 else code)
                && closed == (old(closed) || cancelled) && failed == (old(failed) || closed)
      ensures old(status) == 0 && !closed ==> sent == [Event(Response, requestID, "", status, 0, [], "")]
      ensures closed ==> sent == old(sent)
      ensures Bytes(sent) == Bytes(old(sent)) && old(sent) <= sent
    {
      hide WellFormed, Bytes;
      if status != 0 {
        return;
      }
      status := if code < 100 || code > 999 then 500 else code;
      var e := Event(Response, requestID, "", status, 0, [], "");
      SendsNoBytes(sent, e);
      EmptyLeft([e]);
      var ok := Send(e, cancelled);
      failed := failed || !ok;
    }

    /** One chunk of at most 23 KiB at the current offset. */
    method SendChunk(chunk: Text, cancelled: bool) returns (ok: bool)
      requires Valid() && !ended && !closed && status != 0 && !head && 0 < |chunk| <= CHUNK_BYTES
      modifies this
      ensures Valid() && !ended && status == old(status) && old(sent) <= sent
      ensures ok == !cancelled && closed == cancelled && failed == !ok
      ensures sent == if ok then old(sent) + [Event(Data, requestID, "", 0, old(offset), chunk, "")] else old(sent)
      ensures Bytes(sent) == Bytes(old(sent)) + (if ok then chunk else [])
    {
      hide WellFormed, Bytes;
      var e := Event(Data, requestID, "", 0, offset, chunk, "");
      SendsBytes(sent, e);
      EmptyRight(Bytes(sent));
      ok := Send(e, cancelled);
      if ok {
        offset := offset + |chunk|;
      } else {
        failed := true;
      }
    }

    /** Splits data into chunks. Only the first `room` sends find the context
        alive; what was sent is exactly the part of data reported as written. */
    method Write(data: Text, room: nat) returns (written: nat, ok: bool)
      requires Valid() && !ended
      modifies this
      ensures Valid() && !ended
      ensures written <= |data| && (ok ==> written == |data|) && (ok <==> !closed)
      ensures !head && !old(closed) ==> written == if |data| <= room * (23 * 1024) then |data| else room * (23 * 1024)
      ensures status == if old(status) == 0 then 200 else old(status)
      ensures old(status) == 0 && !closed ==> sent != [] && sent[0] == Event(Response, requestID, "", 200, 0, [], "")
      ensures old(sent) <= sent
      ensures Bytes(sent) == Bytes(old(sent)) + (if head then [] else data[..written])
    {
      hide WellFormed, Bytes;
      written := 0;
      var left: nat := room;
      WriteHeader(200, left == 0);
      EmptyRight(Bytes(old(sent)));
      assert data[..0] == [];
      assert failed ==> closed;
      hide Valid;
      if failed || closed {
        return 0, false;
      }
      if head {
        return |data|, true;
      }
      while written < |data|
        invariant Valid() && !ended && !closed && status != 0 && old(sent) <= sent
        invariant status == (if old(status) == 0 then 200 else old(status))
        invariant old(status) == 0 ==> sent != [] && sent[0] == Event(Response, requestID, "", 200, 0, [], "")
        invariant written <= |data|
        invariant Bytes(sent) == Bytes(old(sent)) + data[..written]
        invariant left <= room && (written == |data| <= room * CHUNK_BYTES || written == (room - left) * CHUNK_BYTES)
      {
        var size := Min(|data| - written, CHUNK_BYTES);
        ChunkJoins(Bytes(old(sent)), data, written, size);
        EmptyRight(Bytes(sent));
        var sendOk := SendChunk(data[written..written + size], left == 0);
        if !sendOk {
          return written, false;
        }
        left := left - 1;
        written := written + size;
      }
      return written, true;
    }

    method Finish(cancelled: bool)
      requires Valid()
      modifies this
      ensures Valid() && ended
      ensures old(ended) ==> sent == old(sent) && status == old(status) && closed == old(closed)
      ensures !old(ended) ==> status == (if old(status) == 0 then 200 else old(status)) && closed == (old(closed) || cancelled)
      ensures !old(ended) && !closed ==>
                && Ended(sent)
                && sent == (if old(status) == 0 then [Event(Response, requestID, "", 200, 0, [], "")] else old(sent)) + [Event(End, requestID, "", 0, 0, [], "")]
      ensures Bytes(sent) == Bytes(old(sent))
    {
      hide WellFormed, Bytes;
      if ended {
        return;
      }
      WriteHeader(200, cancelled);
      ended := true;
      var e := Event(End, requestID, "", 0, 0, [], "");
      SendsNoBytes(sent, e);
      var _ := Send(e, cancelled);
    }
  }

  lemma SendsNoBytes(sent: seq<Event>, e: Event)
    requires e.kind != Data
    ensures Bytes(sent + [e]) == Bytes(sent)
  {
    BytesSnoc(sent, e);
    EmptyRight(Bytes(sent));
  }

  lemma SendsBytes(sent: seq<Event>, e: Event)
    requires e.kind == Data
    ensures Bytes(sent + [e]) == Bytes(sent) + e.data && |Bytes(sent + [e])| == |Bytes(sent)| + |e.data|
  {
    BytesSnoc(sent, e);
  }

  lemma ChunkJoins(before: Text, data: Text, written: nat, size: nat)
    requires written + size <= |data|
    ensures (before + data[..written]) + data[written..written + size] == before + data[..written + size]
  {
    assert data[..written] + data[written..written + size] == data[..written + size];
  }
}
