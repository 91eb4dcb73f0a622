/**
 * The byte-level behaviour of the WebSocket socket adapter, stated on values:
 * what one pass over the queue of pending reads does to the receive buffer.
 * The class in cocoa_websocket.dfy runs this pass in place and is proved to
 * agree with `Scan`.
 */
module ByteStream {

  newtype byte = b: int | 0 <= b < 256

  /** A queued `readData(toLength:tag:)` request. */
  datatype ReadRequest = ReadRequest(length: nat, tag: int)

  /** Bytes handed to the delegate for one request. */
  datatype Delivery = Delivery(request: ReadRequest, data: seq<byte>)

  /** The state of a pass: what is left in the buffer, the requests that stay queued
      and the deliveries made so far, in delivery order. */
  datatype ScanState = ScanState(buffer: seq<byte>, kept: seq<ReadRequest>, served: seq<Delivery>)

  /** Looks at one queued request: serve it from the front of the buffer when the
      buffer holds enough bytes, otherwise leave it queued. */
  function Step(s: ScanState, r: ReadRequest): ScanState
  {
    if |s.buffer| >= r.length then
      ScanState(s.buffer[r.length..], s.kept, s.served + [Delivery(r, s.buffer[..r.length])])
    else
      ScanState(s.buffer, s.kept + [r], s.served)
  }

  /** The pass of `processPendingReads` over the whole queue, front to back, as a
      left fold of `Step`. */
  function Scan(buffer: seq<byte>, reqs: seq<ReadRequest>): (r: ScanState)
    ensures |r.kept| + |r.served| == |reqs|
    decreases |reqs|
  {
    if reqs == [] then ScanState(buffer, [], [])
    else Step(Scan(buffer, reqs[..|reqs| - 1]), reqs[|reqs| - 1])
  }

  /** The bytes of a list of deliveries, concatenated in delivery order. */
  function Concat(ds: seq<Delivery>): seq<byte>
    decreases |ds|
  {
    if ds == [] then [] else Concat(ds[..|ds| - 1]) + ds[|ds| - 1].data
  }

  /** The requests that a list of deliveries answered, in delivery order. */
  function Requests(ds: seq<Delivery>): seq<ReadRequest>
    decreases |ds|
  {
    if ds == [] then [] else Requests(ds[..|ds| - 1]) + [ds[|ds| - 1].request]
  }

  /** The elements of `reqs` whose mark in `mask` equals `b`, in their original order. */
  function Select(reqs: seq<ReadRequest>, mask: seq<bool>, b: bool): seq<ReadRequest>
    requires |mask| == |reqs|
    decreases |reqs|
  {
    if reqs == [] then []
    else
      var rest := Select(reqs[..|reqs| - 1], mask[..|mask| - 1], b);
      if mask[|mask| - 1] == b then rest + [reqs[|reqs| - 1]] else rest
  }

  /** Every request still queued asks for more bytes than the buffer holds. */
  predicate Unsatisfiable(buffer: seq<byte>, kept: seq<ReadRequest>)
  {
    forall k :: 0 <= k < |kept| ==> kept[k].length > |buffer|
  }

  lemma PrefixOfPrefix<T>(s: seq<T>, n: nat)
    requires n < |s|
    ensures s[..n + 1][..n] == s[..n] && s[..n + 1][n] == s[n]
  {
  }

  /** One more request of the queue is one more `Step`. */
  lemma ScanNext(buffer: seq<byte>, reqs: seq<ReadRequest>, j: nat)
    requires j < |reqs|
    ensures Scan(buffer, reqs[..j + 1]) == Step(Scan(buffer, reqs[..j]), reqs[j])
  {
    PrefixOfPrefix(reqs, j);
  }

  /** The buffer only shrinks during a pass. */
  lemma {:induction false} ScanShrinks(buffer: seq<byte>, reqs: seq<ReadRequest>)
    ensures |Scan(buffer, reqs).buffer| <= |buffer|
    decreases |reqs|
  {
    if reqs != [] {
      ScanShrinks(buffer, reqs[..|reqs| - 1]);
    }
  }

  /** One more delivery adds its bytes at the end. */
  lemma ConcatSnoc(ds: seq<Delivery>, d: Delivery)
    ensures Concat(ds + [d]) == Concat(ds) + d.data
  {
    assert (ds + [d])[..|ds|] == ds;
  }

  /** One `Step` moves bytes from the front of the buffer to the end of the deliveries. */
  lemma StepConserves(s: ScanState, r: ReadRequest)
    ensures Concat(Step(s, r).served) + Step(s, r).buffer == Concat(s.served) + s.buffer
  {
    if |s.buffer| >= r.length {
      var front, back := s.buffer[..r.length], s.buffer[r.length..];
      ConcatSnoc(s.served, Delivery(r, front));
      assert front + back == s.buffer;
      assert (Concat(s.served) + front) + back == Concat(s.served) + (front + back);
    }
  }

  /** Byte conservation: the delivered chunks in delivery order, followed by what is
      left in the buffer, are exactly the buffer the pass started from. */
  lemma {:induction false} ScanConserves(buffer: seq<byte>, reqs: seq<ReadRequest>)
    ensures Concat(Scan(buffer, reqs).served) + Scan(buffer, reqs).buffer == buffer
    decreases |reqs|
  {
    if reqs != [] {
      var init := reqs[..|reqs| - 1];
      ScanConserves(buffer, init);
      StepConserves(Scan(buffer, init), reqs[|reqs| - 1]);
    }
  }

  /** Exact-length delivery: every chunk has exactly the length its request asked for. */
  lemma {:induction false} ScanExactLength(buffer: seq<byte>, reqs: seq<ReadRequest>)
    ensures forall k :: 0 <= k < |Scan(buffer, reqs).served| ==>
      |Scan(buffer, reqs).served[k].data| == Scan(buffer, reqs).served[k].request.length
    decreases |reqs|
  {
    if reqs != [] {
      ScanExactLength(buffer, reqs[..|reqs| - 1]);
    }
  }

  /** After a pass, every request still queued is larger than the remaining buffer,
      so one more pass would serve nothing. */
  lemma {:induction false} ScanSettles(buffer: seq<byte>, reqs: seq<ReadRequest>)
    ensures Unsatisfiable(Scan(buffer, reqs).buffer, Scan(buffer, reqs).kept)
    decreases |reqs|
  {
    if reqs != [] {
      var init := reqs[..|reqs| - 1];
      ScanSettles(buffer, init);
    }
  }

  /** Queue order: the pass splits the queue into two order-preserving subsequences,
      the requests it left queued and the requests it served (in delivery order).
      A later, smaller request may be served past an earlier one that stays queued. */
  lemma {:induction false} ScanSplitsQueue(buffer: seq<byte>, reqs: seq<ReadRequest>)
    ensures exists mask: seq<bool> ::
              && |mask| == |reqs|
              && Scan(buffer, reqs).kept == Select(reqs, mask, false)
              && Requests(Scan(buffer, reqs).served) == Select(reqs, mask, true)
    decreases |reqs|
  {
    if reqs == [] {
      assert Select(reqs, [], false) == [] && Select(reqs, [], true) == [];
    } else {
      var init := reqs[..|reqs| - 1];
      var r := reqs[|reqs| - 1];
      var s := Scan(buffer, init);
      ScanSplitsQueue(buffer, init);
      var m :| |m| == |init| && s.kept == Select(init, m, false) && Requests(s.served) == Select(init, m, true);
      var served := |s.buffer| >= r.length;
      var mask := m + [served];
      assert mask[..|mask| - 1] == m;
      if served {
        var d := Delivery(r, s.buffer[..r.length]);
        assert (s.served + [d])[..|s.served|] == s.served;
        assert Requests(s.served + [d]) == Requests(s.served) + [r];
      }
      assert Scan(buffer, reqs).kept == Select(reqs, mask, false);
      assert Requests(Scan(buffer, reqs).served) == Select(reqs, mask, true);
    }
  }

  /** The scenario of one ten-byte read: queued while four bytes are buffered, it is
      served in full once six more arrive, and nothing stays buffered. */
  lemma TenByteRead(first: seq<byte>, more: seq<byte>)
    requires |first| == 4 && |more| == 6
    ensures Scan(first, [ReadRequest(10, 1)]).served == []
    ensures Scan(first, [ReadRequest(10, 1)]).kept == [ReadRequest(10, 1)]
    ensures Scan(first + more, [ReadRequest(10, 1)])
      == ScanState([], [], [Delivery(ReadRequest(10, 1), first + more)])
  {
    var q := [ReadRequest(10, 1)];
    assert q[..0] == [];
    assert (first + more)[..10] == first + more;
  }

  /** A later, smaller request is served past an earlier request that the buffer
      cannot satisfy; the earlier one stays queued. */
  lemma SmallerRequestOvertakes(x: byte, y: byte, z: byte)
    ensures Scan([x, y, z], [ReadRequest(5, 1), ReadRequest(2, 2)])
      == ScanState([z], [ReadRequest(5, 1)], [Delivery(ReadRequest(2, 2), [x, y])])
  {
    var q := [ReadRequest(5, 1), ReadRequest(2, 2)];
    assert q[..1] == [ReadRequest(5, 1)];
    assert q[..1][..0] == [];
    var s1 := Scan([x, y, z], q[..1]);
    assert s1 == ScanState([x, y, z], [ReadRequest(5, 1)], []);
    assert [x, y, z][..2] == [x, y] && [x, y, z][2..] == [z];
  }
}
