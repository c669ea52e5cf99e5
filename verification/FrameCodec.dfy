/** The two wire formats: fixed-width fields, low byte first. A time travels as its count of
    nanoseconds and is rebuilt by parsing that count as text, which is a parameter here: any
    function that is exact below 2^53. */
module FrameCodec {
  import opened Division
  import opened PaxosData

  newtype byte = x: int | 0 <= x < 256

  const U32: nat := 0x1_0000_0000
  const U64: nat := 0x1_0000_0000_0000_0000
  const EXACT: nat := 0x20_0000_0000_0000

  const REQUEST_SIZE: nat := 12
  const FRAME_SIZE: nat := 48

  type TimeParser = nat -> nat

  ghost predicate ExactParser(parse: TimeParser) {
    forall t: nat :: t < EXACT ==> parse(t) == t
  }

  // ---------- Integers ----------

  function Bytes(x: nat, width: nat): (bs: seq<byte>)
    ensures |bs| == width
    decreases width
  {
    if width == 0 then [] else [(x % 256) as byte] + Bytes(x / 256, width - 1)
  }

  function Value(bs: seq<byte>): nat {
    if bs == [] then 0 else bs[0] as nat + 256 * Value(bs[1..])
  }

  function Range(width: nat): (r: nat)
    ensures r > 0
  {
    if width == 0 then 1 else 256 * Range(width - 1)
  }

  lemma {:induction false} ValueOfBytes(x: nat, width: nat)
    requires x < Range(width)
    ensures Value(Bytes(x, width)) == x
    decreases width
  {
    if width > 0 {
      ValueOfBytes(x / 256, width - 1);
      assert Bytes(x, width)[1..] == Bytes(x / 256, width - 1);
    }
  }

  lemma Ranges()
    ensures Range(1) == 256 && Range(4) == 0x1_0000_0000 == U32 && Range(8) == 0x1_0000_0000_0000_0000 == U64
  {
  }

  /** Byte k is the k-th digit of the value in base 256, from the low end. */
  lemma {:induction false} ByteAt(x: nat, width: nat, k: nat)
    requires k < width
    ensures Bytes(x, width)[k] as nat == x / Range(k) % 256
    decreases k
  {
    if k > 0 {
      ByteAt(x / 256, width - 1, k - 1);
      DivideTwice(x, Range(k - 1));
    }
  }

  lemma DivideTwice(x: nat, r: nat)
    requires r > 0
    ensures x / 256 / r == x / (256 * r)
  {
    var high := x / 256;
    var q, low := high / r, high % r * 256 + x % 256;
    assert high % r * 256 <= (r - 1) * 256;
    assert x == (q * r + high % r) * 256 + x % 256 == q * (256 * r) + low;
    Unique(x, 256 * r, q, low);
  }

  /** The converse direction: bytes are recovered from the value they spell. */
  lemma {:induction false} BytesOfValue(bs: seq<byte>)
    ensures Bytes(Value(bs), |bs|) == bs
  {
    if bs != [] {
      BytesOfValue(bs[1..]);
      LowByte(bs[0] as nat, Value(bs[1..]));
      assert bs == [bs[0]] + bs[1..];
    }
  }

  lemma LowByte(low: nat, high: nat)
    requires low < 256
    ensures (low + 256 * high) % 256 == low && (low + 256 * high) / 256 == high
  {
  }

  // ---------- Formats ----------

  ghost predicate RequestFits(r: Request) { r.timestamp < U64 && r.value < U32 }

  ghost predicate FrameFits(f: Frame) {
    && f.kind < U32 && f.proposerId < U32 && f.proposalId < U64 && f.value < U32
    && f.proposeTime < U64 && f.acceptorId < U32 && f.acceptTime < U64 && f.decisionTime < U64
  }

  function EncodeRequest(r: Request): (bs: seq<byte>)
    ensures |bs| == REQUEST_SIZE
  {
    Bytes(r.timestamp, 8) + Bytes(r.value, 4)
  }

  function DecodeRequest(bs: seq<byte>, parse: TimeParser): Request
    requires |bs| >= REQUEST_SIZE
  {
    Request(parse(Value(bs[..8])), Value(bs[8..12]))
  }

  function ProposalPart(f: Frame): (bs: seq<byte>)
    ensures |bs| == 28
  {
    Bytes(f.kind, 4) + Bytes(f.proposerId, 4) + Bytes(f.proposalId, 8) + Bytes(f.value, 4) + Bytes(f.proposeTime, 8)
  }

  function AnswerPart(f: Frame): (bs: seq<byte>)
    ensures |bs| == 20
  {
    Bytes(f.acceptorId, 4) + Bytes(f.acceptTime, 8) + Bytes(f.decisionTime, 8)
  }

  function EncodeFrame(f: Frame): (bs: seq<byte>)
    ensures |bs| == FRAME_SIZE
  {
    ProposalPart(f) + AnswerPart(f)
  }

  function DecodeFrame(bs: seq<byte>, parse: TimeParser): Frame
    requires |bs| >= FRAME_SIZE
  {
    Frame(Value(bs[..4]), Value(bs[4..8]), Value(bs[8..16]), Value(bs[16..20]), parse(Value(bs[20..28])),
          Value(bs[28..32]), parse(Value(bs[32..40])), parse(Value(bs[40..48])))
  }

  /** What the receiver makes of a frame: exactly the frame, but for its parsed times. Bytes that
      follow the header are not looked at. */
  lemma FrameArrives(f: Frame, rest: seq<byte>, parse: TimeParser)
    requires FrameFits(f)
    ensures DecodeFrame(EncodeFrame(f) + rest, parse) ==
            f.(proposeTime := parse(f.proposeTime), acceptTime := parse(f.acceptTime),
            decisionTime := parse(f.decisionTime))
  {
    Ranges();
    FrameSlices(f, rest);
    ValueOfBytes(f.kind, 4);
    ValueOfBytes(f.proposerId, 4);
    ValueOfBytes(f.proposalId, 8);
    ValueOfBytes(f.value, 4);
    ValueOfBytes(f.proposeTime, 8);
    ValueOfBytes(f.acceptorId, 4);
    ValueOfBytes(f.acceptTime, 8);
    ValueOfBytes(f.decisionTime, 8);
  }

  lemma FrameSlices(f: Frame, rest: seq<byte>)
    ensures var bs := EncodeFrame(f) + rest;
      && bs[..4] == Bytes(f.kind, 4) && bs[4..8] == Bytes(f.proposerId, 4) && bs[8..16] == Bytes(f.proposalId, 8)
      && bs[16..20] == Bytes(f.value, 4) && bs[20..28] == Bytes(f.proposeTime, 8)
      && bs[28..32] == Bytes(f.acceptorId, 4) && bs[32..40] == Bytes(f.acceptTime, 8)
      && bs[40..48] == Bytes(f.decisionTime, 8)
  {
    ProposalSlices(f, AnswerPart(f) + rest);
    AnswerSlices(f, rest);
    var bs := EncodeFrame(f) + rest;
    assert bs == ProposalPart(f) + (AnswerPart(f) + rest);
    assert bs[28..] == AnswerPart(f) + rest;
    assert bs[28..32] == bs[28..][..4] && bs[32..40] == bs[28..][4..12] && bs[40..48] == bs[28..][12..20];
  }

  lemma ProposalSlices(f: Frame, rest: seq<byte>)
    ensures var bs := ProposalPart(f) + rest;
      && bs[..4] == Bytes(f.kind, 4) && bs[4..8] == Bytes(f.proposerId, 4) && bs[8..16] == Bytes(f.proposalId, 8)
      && bs[16..20] == Bytes(f.value, 4) && bs[20..28] == Bytes(f.proposeTime, 8)
  {
    var bs := ProposalPart(f) + rest;
    var tail := Bytes(f.value, 4) + Bytes(f.proposeTime, 8) + rest;
    ThreeSlices(Bytes(f.kind, 4), Bytes(f.proposerId, 4), Bytes(f.proposalId, 8), tail);
    TwoSlices(Bytes(f.value, 4), Bytes(f.proposeTime, 8), rest);
    Regroup(Bytes(f.kind, 4) + Bytes(f.proposerId, 4) + Bytes(f.proposalId, 8), Bytes(f.value, 4),
            Bytes(f.proposeTime, 8), rest);
    LaterSlices(bs, tail, 16, 0, 4);
    LaterSlices(bs, tail, 16, 4, 12);
  }

  lemma Regroup(a: seq<byte>, b: seq<byte>, c: seq<byte>, rest: seq<byte>)
    ensures a + b + c + rest == a + (b + c + rest)
  {
  }

  lemma LaterSlices(bs: seq<byte>, tail: seq<byte>, from: nat, lo: nat, hi: nat)
    requires from <= |bs| && bs[from..] == tail && lo <= hi <= |tail|
    ensures bs[from + lo..from + hi] == tail[lo..hi]
  {
    forall k | lo <= k < hi ensures bs[from + k] == tail[k] { assert bs[from..][k] == tail[k]; }
  }

  lemma TwoSlices(a: seq<byte>, b: seq<byte>, rest: seq<byte>)
    ensures var bs := a + b + rest;
      bs[..|a|] == a && bs[|a|..|a| + |b|] == b
  {
  }

  lemma ThreeSlices(a: seq<byte>, b: seq<byte>, c: seq<byte>, rest: seq<byte>)
    ensures var bs := a + b + c + rest;
      bs[..|a|] == a && bs[|a|..|a| + |b|] == b && bs[|a| + |b|..|a| + |b| + |c|] == c && bs[|a| + |b| + |c|..] == rest
  {
  }

  lemma AnswerSlices(f: Frame, rest: seq<byte>)
    ensures var bs := AnswerPart(f) + rest;
      bs[..4] == Bytes(f.acceptorId, 4) && bs[4..12] == Bytes(f.acceptTime, 8) && bs[12..20] == Bytes(f.decisionTime, 8)
  {
  }

  /** A frame arrives unchanged exactly when the parser is exact on its three times. */
  lemma FrameRoundTrip(f: Frame, parse: TimeParser)
    requires FrameFits(f)
    ensures DecodeFrame(EncodeFrame(f), parse) == f <==>
            && parse(f.proposeTime) == f.proposeTime && parse(f.acceptTime) == f.acceptTime
            && parse(f.decisionTime) == f.decisionTime
    ensures ExactParser(parse) && f.proposeTime < EXACT && f.acceptTime < EXACT && f.decisionTime < EXACT ==>
              DecodeFrame(EncodeFrame(f), parse) == f
  {
    FrameArrives(f, [], parse);
    assert EncodeFrame(f) + [] == EncodeFrame(f);
  }

  /** The other way round: a header that was parsed exactly is written back byte for byte. */
  lemma BytesRoundTrip(bs: seq<byte>, parse: TimeParser)
    requires |bs| == FRAME_SIZE
    requires parse(Value(bs[20..28])) == Value(bs[20..28]) && parse(Value(bs[32..40])) == Value(bs[32..40])
    requires parse(Value(bs[40..48])) == Value(bs[40..48])
    ensures EncodeFrame(DecodeFrame(bs, parse)) == bs
  {
    ProposalBytes(bs, DecodeFrame(bs, parse));
    AnswerBytes(bs, DecodeFrame(bs, parse));
    Join(bs, 0, 28, 48);
  }

  lemma Join(bs: seq<byte>, i: nat, j: nat, k: nat)
    requires i <= j <= k <= |bs|
    ensures bs[i..j] + bs[j..k] == bs[i..k] && bs[..i] == bs[0..i] && bs[0..|bs|] == bs
  {
  }

  lemma ProposalBytes(bs: seq<byte>, f: Frame)
    requires |bs| == FRAME_SIZE
    requires f.kind == Value(bs[..4]) && f.proposerId == Value(bs[4..8]) && f.proposalId == Value(bs[8..16])
    requires f.value == Value(bs[16..20]) && f.proposeTime == Value(bs[20..28])
    ensures ProposalPart(f) == bs[0..28]
  {
    BytesOfValue(bs[..4]);
    BytesOfValue(bs[4..8]);
    BytesOfValue(bs[8..16]);
    BytesOfValue(bs[16..20]);
    BytesOfValue(bs[20..28]);
    Join(bs, 4, 8, 16);
    Join(bs, 0, 4, 8);
    Join(bs, 0, 8, 16);
    Join(bs, 0, 16, 20);
    Join(bs, 0, 20, 28);
  }

  lemma AnswerBytes(bs: seq<byte>, f: Frame)
    requires |bs| == FRAME_SIZE
    requires f.acceptorId == Value(bs[28..32]) && f.acceptTime == Value(bs[32..40])
    requires f.decisionTime == Value(bs[40..48])
    ensures AnswerPart(f) == bs[28..48]
  {
    BytesOfValue(bs[28..32]);
    BytesOfValue(bs[32..40]);
    BytesOfValue(bs[40..48]);
    Join(bs, 28, 32, 40);
    Join(bs, 28, 40, 48);
  }

  /** A request is its 8-byte time and then its 4-byte value. */
  lemma RequestSlices(r: Request, rest: seq<byte>)
    ensures var bs := EncodeRequest(r) + rest;
      bs[..8] == Bytes(r.timestamp, 8) && bs[8..12] == Bytes(r.value, 4) && bs[12..] == rest
  {
  }

  lemma RequestRoundTrip(r: Request, rest: seq<byte>, parse: TimeParser)
    requires RequestFits(r)
    ensures DecodeRequest(EncodeRequest(r) + rest, parse) == r <==> parse(r.timestamp) == r.timestamp
    ensures ExactParser(parse) && r.timestamp < EXACT ==> DecodeRequest(EncodeRequest(r) + rest, parse) == r
  {
    RequestSlices(r, rest);
    Ranges();
    ValueOfBytes(r.timestamp, 8);
    ValueOfBytes(r.value, 4);
  }

  // ---------- Buffers ----------

  /** A buffer with `bs` written from `at` on. */
  ghost function Written(before: seq<byte>, at: nat, bs: seq<byte>): seq<byte>
    requires at + |bs| <= |before|
  {
    before[..at] + bs + before[at + |bs|..]
  }

  lemma WrittenOn(before: seq<byte>, at: nat, bs: seq<byte>, more: seq<byte>)
    requires at + |bs| + |more| <= |before|
    ensures Written(Written(before, at, bs), at + |bs|, more) == Written(before, at, bs + more)
  {
  }

  lemma WrittenNext(before: seq<byte>, at: nat, bs: seq<byte>, k: nat)
    requires at + |bs| <= |before| && k < |bs|
    ensures Written(before, at, bs[..k])[at + k := bs[k]] == Written(before, at, bs[..k + 1])
  {
  }

  /** A cursor into a packet's buffer. */
  class BufferIterator {
    const data: array<byte>
    var at: nat

    constructor (data: array<byte>, start: nat)
      ensures this.data == data && at == start
    {
      this.data, at := data, start;
    }

    method Write(x: nat, width: nat)
      requires at + width <= data.Length
      modifies this`at, data
      ensures at == old(at) + width && data[..] == Written(old(data[..]), old(at), Bytes(x, width))
    {
      var left, k := x, 0;
      ghost var start, before, bs := at, data[..], Bytes(x, width);
      while k < width
        invariant 0 <= k <= width && at == start + k
        invariant Bytes(left, width - k) == bs[k..] && data[..] == Written(before, start, bs[..k])
      {
        WrittenNext(before, start, bs, k);
        assert Bytes(left, width - k)[0] == bs[k] && Bytes(left, width - k)[1..] == bs[k + 1..];
        data[at] := (left % 256) as byte;
        left, at, k := left / 256, at + 1, k + 1;
      }
    }

    method WriteU32(x: nat)
      requires at + 4 <= data.Length
      modifies this`at, data
      ensures at == old(at) + 4 && data[..] == Written(old(data[..]), old(at), Bytes(x, 4))
    {
      Write(x, 4);
    }

    method WriteU64(x: nat)
      requires at + 8 <= data.Length
      modifies this`at, data
      ensures at == old(at) + 8 && data[..] == Written(old(data[..]), old(at), Bytes(x, 8))
    {
      Write(x, 8);
    }

    method Read(width: nat) returns (x: nat)
      requires at + width <= data.Length
      modifies this`at
      ensures at == old(at) + width && x == Value(data[old(at)..at])
    {
      x := 0;
      var k := width;
      while k > 0
        invariant 0 <= k <= width && at == old(at)
        invariant x == Value(data[at + k..at + width])
      {
        k := k - 1;
        assert data[at + k..at + width][1..] == data[at + k + 1..at + width];
        x := data[at + k] as nat + 256 * x;
      }
      at := at + width;
    }

    method ReadU32() returns (x: nat)
      requires at + 4 <= data.Length
      modifies this`at
      ensures at == old(at) + 4 && x == Value(data[old(at)..at])
    {
      x := Read(4);
    }

    method ReadU64() returns (x: nat)
      requires at + 8 <= data.Length
      modifies this`at
      ensures at == old(at) + 8 && x == Value(data[old(at)..at])
    {
      x := Read(8);
    }
  }

  lemma WrittenSlice(before: seq<byte>, at: nat, bs: seq<byte>)
    requires at + |bs| <= |before|
    ensures var after := Written(before, at, bs);
      && |after| == |before| && after[..at] == before[..at] && after[at..at + |bs|] == bs
      && after[at + |bs|..] == before[at + |bs|..]
  {
  }

  lemma SliceOfSlice(data: seq<byte>, at: nat, bs: seq<byte>, lo: nat, hi: nat)
    requires at + |bs| <= |data| && data[at..at + |bs|] == bs && lo <= hi <= |bs|
    ensures data[at + lo..at + hi] == bs[lo..hi] && bs == bs + []
  {
    var found, wanted := data[at + lo..at + hi], bs[lo..hi];
    forall k | 0 <= k < hi - lo ensures found[k] == wanted[k] {
      assert data[at..at + |bs|][lo + k] == bs[lo + k];
    }
  }

  class RequestFrame {
    var timestamp: nat
    var value: nat

    function View(): Request
      reads this
    {
      Request(timestamp, value)
    }

    function GetSerializedSize(): nat { 8 + 4 }

    method Serialize(start: array<byte>, at: nat)
      requires at + REQUEST_SIZE <= start.Length
      modifies start
      ensures start[..] == Written(old(start[..]), at, EncodeRequest(View()))
      ensures start[at..at + 8] == Bytes(timestamp, 8) && start[at + 8..at + 12] == Bytes(value, 4)
    {
      var it := new BufferIterator(start, at);
      it.WriteU64(timestamp);
      it.WriteU32(value);
      WrittenOn(old(start[..]), at, Bytes(timestamp, 8), Bytes(value, 4));
      WrittenSlice(old(start[..]), at, EncodeRequest(View()));
      RequestSlices(View(), []);
      SliceOfSlice(start[..], at, EncodeRequest(View()), 0, 8);
      SliceOfSlice(start[..], at, EncodeRequest(View()), 8, 12);
    }

    method Deserialize(start: array<byte>, at: nat, parse: TimeParser) returns (size: nat)
      requires at + REQUEST_SIZE <= start.Length
      modifies this
      ensures View() == DecodeRequest(start[at..at + REQUEST_SIZE], parse) && size == REQUEST_SIZE
      ensures timestamp == parse(Value(start[at..at + 8])) && value == Value(start[at + 8..at + 12])
    {
      var it := new BufferIterator(start, at);
      var t := it.ReadU64();
      timestamp := parse(t);
      value := it.ReadU32();
      ghost var bs := start[at..at + REQUEST_SIZE];
      assert bs[..8] == start[at..at + 8] && bs[8..12] == start[at + 8..at + 12];
      return GetSerializedSize();
    }
  }

  class PaxosFrame {
    var messageType: nat
    var proposerId: nat
    var proposalId: nat
    var value: nat
    var proposeTime: nat
    var acceptorId: nat
    var acceptTime: nat
    var decisionTime: nat

    function View(): Frame
      reads this
    {
      Frame(messageType, proposerId, proposalId, value, proposeTime, acceptorId, acceptTime, decisionTime)
    }

    function GetSerializedSize(): nat { 4 + 4 + 8 + 4 + 8 + 4 + 8 + 8 }

    method Serialize(start: array<byte>, at: nat)
      requires at + FRAME_SIZE <= start.Length
      modifies start
      ensures start[..] == Written(old(start[..]), at, EncodeFrame(View()))
      ensures LiesAt(start[..], at)
    {
      var it := new BufferIterator(start, at);
      WriteProposal(it);
      WriteAnswer(it);
      WrittenOn(old(start[..]), at, ProposalPart(View()), AnswerPart(View()));
      WrittenSlice(old(start[..]), at, EncodeFrame(View()));
      Lies(start[..], at);
    }

    /** The fields of this frame, one after another, from `at` on. */
    ghost predicate LiesAt(data: seq<byte>, at: nat)
      requires at + 48 <= |data|
      reads this
    {
      && data[at..at + 4] == Bytes(messageType, 4) && data[at + 4..at + 8] == Bytes(proposerId, 4)
      && data[at + 8..at + 16] == Bytes(proposalId, 8) && data[at + 16..at + 20] == Bytes(value, 4)
      && data[at + 20..at + 28] == Bytes(proposeTime, 8) && data[at + 28..at + 32] == Bytes(acceptorId, 4)
      && data[at + 32..at + 40] == Bytes(acceptTime, 8) && data[at + 40..at + 48] == Bytes(decisionTime, 8)
    }

    lemma Lies(data: seq<byte>, at: nat)
      requires at + FRAME_SIZE <= |data| && data[at..at + FRAME_SIZE] == EncodeFrame(View())
      ensures LiesAt(data, at)
    {
      FrameSlices(View(), []);
      Windows(data, at);
      assert EncodeFrame(View()) + [] == EncodeFrame(View());
    }

    method WriteProposal(it: BufferIterator)
      requires it.at + 28 <= it.data.Length
      modifies it, it.data
      ensures it.at == old(it.at) + 28
      ensures it.data[..] == Written(old(it.data[..]), old(it.at), ProposalPart(View()))
    {
      ghost var before, at := it.data[..], it.at;
      WriteIds(it);
      ghost var ids := Bytes(messageType, 4) + Bytes(proposerId, 4) + Bytes(proposalId, 8);
      it.WriteU32(value);
      WrittenOn(before, at, ids, Bytes(value, 4));
      it.WriteU64(proposeTime);
      WrittenOn(before, at, ids + Bytes(value, 4), Bytes(proposeTime, 8));
    }

    method WriteIds(it: BufferIterator)
      requires it.at + 16 <= it.data.Length
      modifies it, it.data
      ensures it.at == old(it.at) + 16
      ensures it.data[..] ==
              Written(old(it.data[..]), old(it.at), Bytes(messageType, 4) + Bytes(proposerId, 4) + Bytes(proposalId, 8))
    {
      ghost var before, at := it.data[..], it.at;
      it.WriteU32(messageType);
      it.WriteU32(proposerId);
      WrittenOn(before, at, Bytes(messageType, 4), Bytes(proposerId, 4));
      it.WriteU64(proposalId);
      WrittenOn(before, at, Bytes(messageType, 4) + Bytes(proposerId, 4), Bytes(proposalId, 8));
    }

    method WriteAnswer(it: BufferIterator)
      requires it.at + 20 <= it.data.Length
      modifies it, it.data
      ensures it.at == old(it.at) + 20
      ensures it.data[..] == Written(old(it.data[..]), old(it.at), AnswerPart(View()))
    {
      ghost var before, at := it.data[..], it.at;
      it.WriteU32(acceptorId);
      it.WriteU64(acceptTime);
      WrittenOn(before, at, Bytes(acceptorId, 4), Bytes(acceptTime, 8));
      it.WriteU64(decisionTime);
      WrittenOn(before, at, Bytes(acceptorId, 4) + Bytes(acceptTime, 8), Bytes(decisionTime, 8));
    }

    method Deserialize(start: array<byte>, at: nat, parse: TimeParser) returns (size: nat)
      requires at + FRAME_SIZE <= start.Length
      modifies this
      ensures View() == DecodeFrame(start[at..at + FRAME_SIZE], parse) && size == FRAME_SIZE
      ensures messageType == Value(start[at..at + 4]) && proposerId == Value(start[at + 4..at + 8])
      ensures proposalId == Value(start[at + 8..at + 16]) && value == Value(start[at + 16..at + 20])
      ensures proposeTime == parse(Value(start[at + 20..at + 28])) && acceptorId == Value(start[at + 28..at + 32])
      ensures acceptTime == parse(Value(start[at + 32..at + 40]))
      ensures decisionTime == parse(Value(start[at + 40..at + 48]))
    {
      var it := new BufferIterator(start, at);
      ReadProposal(it, parse);
      ReadAnswer(it, parse);
      Windows(start[..], at);
      return GetSerializedSize();
    }

    method ReadProposal(it: BufferIterator, parse: TimeParser)
      requires it.at + 28 <= it.data.Length
      modifies this, it
      ensures it.at == old(it.at) + 28
      ensures var at := old(it.at);
        && messageType == Value(it.data[at..at + 4]) && proposerId == Value(it.data[at + 4..at + 8])
        && proposalId == Value(it.data[at + 8..at + 16]) && value == Value(it.data[at + 16..at + 20])
        && proposeTime == parse(Value(it.data[at + 20..at + 28]))
    {
      hide Value;
      messageType := it.ReadU32();
      proposerId := it.ReadU32();
      proposalId := it.ReadU64();
      value := it.ReadU32();
      var t := it.ReadU64();
      proposeTime := parse(t);
    }

    method ReadAnswer(it: BufferIterator, parse: TimeParser)
      requires it.at + 20 <= it.data.Length
      modifies this`acceptorId, this`acceptTime, this`decisionTime, it
      ensures it.at == old(it.at) + 20
      ensures var at := old(it.at);
        && acceptorId == Value(it.data[at..at + 4]) && acceptTime == parse(Value(it.data[at + 4..at + 12]))
        && decisionTime == parse(Value(it.data[at + 12..at + 20]))
    {
      acceptorId := it.ReadU32();
      var t := it.ReadU64();
      acceptTime := parse(t);
      t := it.ReadU64();
      decisionTime := parse(t);
    }
  }

  lemma Windows(data: seq<byte>, at: nat)
    requires at + FRAME_SIZE <= |data|
    ensures var bs := data[at..at + FRAME_SIZE];
      && bs[..4] == data[at..at + 4] && bs[4..8] == data[at + 4..at + 8] && bs[8..16] == data[at + 8..at + 16]
      && bs[16..20] == data[at + 16..at + 20] && bs[20..28] == data[at + 20..at + 28]
      && bs[28..32] == data[at + 28..at + 32] && bs[32..40] == data[at + 32..at + 40]
      && bs[40..48] == data[at + 40..at + 48]
  {
  }

  /** What one node serializes, another reads back: the frame itself, provided its times are below
      2^53 nanoseconds. Both move over the same number of bytes. */
  method Transmit(sent: PaxosFrame, received: PaxosFrame, buffer: array<byte>, at: nat, parse: TimeParser)
    returns (size: nat)
    requires sent != received && at + FRAME_SIZE <= buffer.Length && FrameFits(sent.View()) && ExactParser(parse)
    requires sent.proposeTime < EXACT && sent.acceptTime < EXACT && sent.decisionTime < EXACT
    modifies received, buffer
    ensures received.View() == sent.View() && size == received.GetSerializedSize() == FRAME_SIZE
  {
    sent.Serialize(buffer, at);
    WrittenSlice(old(buffer[..]), at, EncodeFrame(sent.View()));
    FrameRoundTrip(sent.View(), parse);
    assert buffer[at..at + FRAME_SIZE] == buffer[..][at..at + FRAME_SIZE];
    size := received.Deserialize(buffer, at, parse);
  }
}
