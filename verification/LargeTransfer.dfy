/** A transfer that writes a repeating buffer into a socket which takes as much as it likes. */
module LargeTransfer {
  import opened Division

  newtype uint8 = x: int | 0 <= x < 256

  const WRITE_SIZE: nat := 1040
  const PERIOD: nat := 26

  /** Byte p of the stream the receiver expects. */
  function StreamByte(p: nat): uint8 { (97 + p % PERIOD) as uint8 }

  function Stream(n: nat): (s: seq<uint8>)
    ensures |s| == n
  {
    seq(n, p requires 0 <= p < n => StreamByte(p))
  }

  ghost predicate Pattern(data: seq<uint8>) {
    |data| == WRITE_SIZE && forall i :: 0 <= i < WRITE_SIZE ==> data[i] == StreamByte(i)
  }

  // ---------- Why the buffer can be reused ----------

  /** The buffer holds a whole number of periods, so a position in the stream and its place in the
      buffer carry the same byte. */
  lemma SameByte(p: nat)
    ensures StreamByte(p % WRITE_SIZE) == StreamByte(p)
  {
    var lap, place := p / WRITE_SIZE, p % WRITE_SIZE;
    assert p == (WRITE_SIZE / PERIOD * lap + place / PERIOD) * PERIOD + place % PERIOD;
    Unique(p, PERIOD, WRITE_SIZE / PERIOD * lap + place / PERIOD, place % PERIOD);
  }

  lemma OffsetAdds(p: nat, k: nat)
    requires p % WRITE_SIZE + k < WRITE_SIZE
    ensures (p + k) % WRITE_SIZE == p % WRITE_SIZE + k
  {
  }

  /** A slice of the buffer that starts at the stream's offset continues the stream. */
  lemma SliceContinues(data: seq<uint8>, current: nat, amount: nat)
    requires Pattern(data) && current % WRITE_SIZE + amount <= WRITE_SIZE
    ensures var offset := current % WRITE_SIZE;
      Stream(current) + data[offset..offset + amount] == Stream(current + amount)
  {
    forall p | current <= p < current + amount ensures data[current % WRITE_SIZE + p - current] == StreamByte(p) {
      OffsetAdds(current, p - current);
      SameByte(p);
    }
    Extend(current, data[current % WRITE_SIZE..current % WRITE_SIZE + amount]);
  }

  lemma Extend(n: nat, more: seq<uint8>)
    requires forall p :: n <= p < n + |more| ==> more[p - n] == StreamByte(p)
    ensures Stream(n) + more == Stream(n + |more|)
  {
  }

  // ---------- The socket ----------

  /** What a socket was asked and what it answered: how much space it has, or to take `size` bytes from
      `offset` of a buffer when it had taken `at` bytes before. */
  datatype Call =
    | Space(answer: nat)
    | Offer(at: nat, offset: nat, size: nat, result: int)

  /** A socket as its user sees it, with a record of its calls. Every question it is asked takes the
      next of `answers`, which may be anything at all; with none left it has no space. */
  class Socket {
    var answers: seq<int>
    var sent: seq<uint8>
    var closed: bool
    var calls: seq<Call>

    constructor (answers: seq<int>)
      ensures this.answers == answers && sent == [] && !closed && calls == []
    {
      this.answers, sent, closed, calls := answers, [], false, [];
    }

    method GetTxAvailable() returns (space: nat)
      modifies this`answers, this`calls
      ensures |answers| <= old(|answers|) && (space > 0 ==> |answers| < old(|answers|))
      ensures calls == old(calls) + [Space(space)]
    {
      space := 0;
      if answers != [] {
        space := if answers[0] < 0 then 0 else answers[0];
        answers := answers[1..];
      }
      calls := calls + [Space(space)];
    }

    /** Takes any part of what it is given, or fails with a negative result. */
    method Send(data: array<uint8>, offset: nat, size: nat) returns (amount: int)
      requires !closed && offset + size <= data.Length
      modifies this`answers, this`sent, this`calls
      ensures |answers| <= old(|answers|) && amount <= size
      ensures sent == old(sent) + if amount < 0 then [] else data[offset..offset + amount]
      ensures calls == old(calls) + [Offer(old(|sent|), offset, size, amount)]
    {
      if answers == [] || answers[0] < 0 {
        calls := calls + [Offer(|sent|, offset, size, -1)];
        return -1;
      }
      amount := if answers[0] < size then answers[0] else size;
      answers := answers[1..];
      calls := calls + [Offer(|sent|, offset, size, amount)];
      sent := sent + data[offset..offset + amount];
    }

    method Close()
      modifies this`closed
      ensures closed
    {
      closed := true;
    }
  }

  function Min(a: nat, b: nat): nat { if a < b then a else b }

  // ---------- What the socket is asked ----------

  /** Of a transfer of `total` bytes, this slice is offered when `space` was reported: from the place of
      the next byte, as many bytes as there are up to the end of the buffer, still to send and with
      space, whichever is least. */
  ghost predicate FitsExactly(c: Call, total: nat, space: nat)
    requires c.Offer?
  {
    var rest, left := 1040 - c.at % 1040, total - c.at;
    && left > 0 && c.offset == c.at % 1040
    && c.size <= rest && c.size <= left && c.size <= space && (c.size == rest || c.size == left || c.size == space)
  }

  /** Every offer from call `from` on follows two questions for space, of which the first was answered
      with some, and offers what the second allows. */
  ghost predicate OffersFit(calls: seq<Call>, from: nat, total: nat) {
    forall k :: from <= k < |calls| && calls[k].Offer? ==>
      && k >= from + 2 && calls[k - 2].Space? && calls[k - 2].answer > 0
      && calls[k - 1].Space? && FitsExactly(calls[k], total, calls[k - 1].answer)
  }

  /** No send from call `from` on has failed. */
  ghost predicate NoneFailed(calls: seq<Call>, from: nat) {
    forall k :: from <= k < |calls| && calls[k].Offer? ==> calls[k].result >= 0
  }

  /** The last call, no earlier than `from`, is this one. */
  ghost predicate EndsWith(calls: seq<Call>, from: nat, c: Call) {
    from < |calls| && calls[|calls| - 1] == c
  }

  ghost predicate EndsInFailure(calls: seq<Call>, from: nat) {
    && from < |calls| && calls[|calls| - 1].Offer? && calls[|calls| - 1].result < 0
    && NoneFailed(calls[..|calls| - 1], from)
  }

  lemma MoreSpace(calls: seq<Call>, from: nat, total: nat, space: nat)
    requires from <= |calls| && OffersFit(calls, from, total) && NoneFailed(calls, from)
    ensures OffersFit(calls + [Space(space)], from, total) && NoneFailed(calls + [Space(space)], from)
  {
  }

  lemma NothingOffered(calls: seq<Call>, total: nat, space: nat)
    ensures OffersFit(calls, |calls|, total) && NoneFailed(calls, |calls|)
    ensures OffersFit(calls + [Space(space)], |calls|, total) && NoneFailed(calls + [Space(space)], |calls|)
  {
  }

  lemma MoreOffered(calls: seq<Call>, from: nat, total: nat, first: nat, c: Call)
    requires c.Offer? && OffersFit(calls, from, total) && NoneFailed(calls, from) && |calls| >= from + 2
    requires calls[|calls| - 2] == Space(first) && first > 0 && calls[|calls| - 1].Space?
    requires FitsExactly(c, total, calls[|calls| - 1].answer)
    ensures OffersFit(calls + [c], from, total)
    ensures c.result >= 0 ==> NoneFailed(calls + [c], from)
    ensures c.result < 0 ==> EndsInFailure(calls + [c], from)
  {
    assert (calls + [c])[..|calls|] == calls;
  }

  // ---------- The transfer ----------

  class Transfer {
    const totalTxBytes: nat
    const data: array<uint8>
    const socket: Socket
    var currentTxBytes: nat

    /** What has been sent is exactly the beginning of the stream, and the socket is closed only
        when that is all of it. */
    ghost predicate Valid()
      reads this, data, socket
    {
      && Pattern(data[..])
      && currentTxBytes <= totalTxBytes
      && socket.sent == Stream(currentTxBytes)
      && (socket.closed ==> currentTxBytes == totalTxBytes)
    }

    constructor (total: nat, socket: Socket)
      requires socket.sent == [] && !socket.closed
      ensures Valid() && totalTxBytes == total && this.socket == socket && currentTxBytes == 0 && fresh(data)
      ensures data.Length == 1040 && forall i :: 0 <= i < 1040 ==> data[i] as int == 97 + i % 26
    {
      totalTxBytes, currentTxBytes := total, 0;
      this.socket := socket;
      var buffer := new uint8[WRITE_SIZE];
      data := buffer;
      new;
      var i := 0;
      while i < WRITE_SIZE
        invariant 0 <= i <= WRITE_SIZE && fresh(data) && data.Length == WRITE_SIZE && currentTxBytes == 0
        invariant forall k :: 0 <= k < i ==> data[k] == StreamByte(k)
      {
        data[i] := (97 + i % 26) as uint8;
        i := i + 1;
      }
    }

    /** Called at the start and whenever there is space again. Whatever the socket answers, the
        stream is continued where it stopped, by slices that fit exactly, until a send fails, the socket
        has no space or everything has been sent; the last alone closes the socket. */
    method WriteUntilBufferFull() returns (failed: bool)
      requires Valid()
      modifies this`currentTxBytes, socket
      ensures Valid() && old(currentTxBytes) <= currentTxBytes && old(socket.sent) <= socket.sent
      ensures |socket.sent| == currentTxBytes
      ensures forall p :: 0 <= p < currentTxBytes ==> socket.sent[p] as int == 97 + p % 26
      ensures old(socket.calls) <= socket.calls && OffersFit(socket.calls, old(|socket.calls|), totalTxBytes)
      ensures failed ==> EndsInFailure(socket.calls, old(|socket.calls|))
      ensures !failed ==> NoneFailed(socket.calls, old(|socket.calls|))
      ensures !failed ==> currentTxBytes == totalTxBytes || EndsWith(socket.calls, old(|socket.calls|), Space(0))
      ensures failed ==> socket.closed == old(socket.closed)
      ensures !failed ==> (socket.closed <==> currentTxBytes == totalTxBytes)
    {
      hide OffersFit, NoneFailed, EndsInFailure, Pattern;
      ghost var from := |socket.calls|;
      ghost var calls := socket.calls;
      var space := MoreToSend();
      NothingOffered(calls, totalTxBytes, space);
      while currentTxBytes < totalTxBytes && space > 0
        invariant Valid() && old(currentTxBytes) <= currentTxBytes && old(socket.sent) <= socket.sent
        invariant socket.closed == old(socket.closed) && old(socket.calls) <= socket.calls
        invariant OffersFit(socket.calls, from, totalTxBytes) && NoneFailed(socket.calls, from)
        invariant currentTxBytes < totalTxBytes ==> EndsWith(socket.calls, from, Space(space))
        decreases |socket.answers| + if space > 0 then 1 else 0
      {
        var amountSent := WriteOnce(from, space);
        if amountSent < 0 { return true; }
        ghost var calls := socket.calls;
        space := MoreToSend();
        if currentTxBytes < totalTxBytes { MoreSpace(calls, from, totalTxBytes, space); }
      }
      if currentTxBytes >= totalTxBytes { socket.Close(); }
      return false;
    }

    /** One slice, offered after the socket has said that it has `space`. */
    method WriteOnce(ghost from: nat, ghost space: nat) returns (amountSent: int)
      requires Valid() && currentTxBytes < totalTxBytes && space > 0
      requires EndsWith(socket.calls, from, Space(space))
      requires OffersFit(socket.calls, from, totalTxBytes) && NoneFailed(socket.calls, from)
      modifies this`currentTxBytes, socket`answers, socket`calls, socket`sent
      ensures Valid() && old(socket.sent) <= socket.sent && |socket.answers| <= old(|socket.answers|)
      ensures old(socket.calls) <= socket.calls && OffersFit(socket.calls, from, totalTxBytes)
      ensures currentTxBytes == old(currentTxBytes) + if amountSent < 0 then 0 else amountSent
      ensures if amountSent < 0 then EndsInFailure(socket.calls, from) else NoneFailed(socket.calls, from)
    {
      hide OffersFit, NoneFailed, EndsInFailure;
      var left := totalTxBytes - currentTxBytes;
      var dataOffset := currentTxBytes % WRITE_SIZE;
      var toWrite := WRITE_SIZE - dataOffset;
      toWrite := Min(toWrite, left);
      ghost var calls := socket.calls;
      var available := socket.GetTxAvailable();
      toWrite := Min(toWrite, available);
      ghost var asked := socket.calls;
      MoreSpace(calls, from, totalTxBytes, available);
      amountSent := socket.Send(data, dataOffset, toWrite);
      MoreOffered(asked, from, totalTxBytes, space, Offer(currentTxBytes, dataOffset, toWrite, amountSent));
      if amountSent >= 0 {
        SliceContinues(data[..], currentTxBytes, amountSent);
        currentTxBytes := currentTxBytes + amountSent;
      }
    }

    /** The loop's condition asks the socket only while there is something to send. */
    method MoreToSend() returns (space: nat)
      requires Valid()
      modifies socket`answers, socket`calls
      ensures Valid() && |socket.answers| <= old(|socket.answers|)
      ensures space > 0 ==> |socket.answers| < old(|socket.answers|)
      ensures currentTxBytes < totalTxBytes ==> socket.calls == old(socket.calls) + [Space(space)]
      ensures currentTxBytes == totalTxBytes ==> socket.calls == old(socket.calls) && space == 0
    {
      space := 0;
      if currentTxBytes < totalTxBytes { space := socket.GetTxAvailable(); }
    }
  }
}
