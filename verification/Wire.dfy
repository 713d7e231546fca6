/**
 The PaxosMsg codec and its framing. The receiver reads as many bytes as a
 default-constructed message has, so a message survives the stream exactly
 when its address has the default length (and holds no NUL).
 */
module Wire {
  import opened Common
  import opened Bytes
  import opened Messages
  import opened Socket

  const BUFFER_SIZE := 64

  predicate IntsFit(m: PaxosMsg) {
    && IsInt32(m.phase) && IsInt32(m.agree) && IsInt32(m.proposeNumber) && IsInt32(m.acceptedProposal)
    && IsInt32(m.slotNumber) && IsInt32(m.commandId) && IsInt32(m.customerId) && IsInt32(m.orderId)
  }

  /** The fields other than the address are C ints; the address is made of bytes. */
  predicate Fits(m: PaxosMsg) {
    && IntsFit(m) && Narrow(m.clientIp) && |m.clientIp| < 0x8000_0000
  }

  /** PaxosMsg::size */
  function Size(m: PaxosMsg): nat {
    36 + |m.clientIp|
  }

  const DEFAULT_SIZE := 51

  lemma DefaultSize(phase: int)
    ensures Size(NewMsg(phase)) == DEFAULT_SIZE <= BUFFER_SIZE
  {
  }

  function Head(m: PaxosMsg): (b: seq<byte>)
    requires Fits(m)
    ensures |b| == 28
  {
    NetInt(m.phase) + NetInt(m.agree) + NetInt(m.proposeNumber) + NetInt(m.acceptedProposal)
    + NetInt(m.slotNumber) + NetInt(m.commandId) + NetInt(|m.clientIp|)
  }

  function Tail(m: PaxosMsg): (b: seq<byte>)
    requires Fits(m)
    ensures |b| == 8
  {
    NetInt(m.customerId) + NetInt(m.orderId)
  }

  /** What Marshal writes. */
  function Encode(m: PaxosMsg): (b: seq<byte>)
    requires Fits(m)
    ensures |b| == Size(m)
  {
    Head(m) + ToBytes(m.clientIp) + Tail(m)
  }

  function IntAt(b: seq<byte>, i: nat): int
    requires i + 4 <= |b|
  {
    FromNetInt(b[i..i + 4])
  }

  /** What Unmarshal reads; None when the address length points outside the buffer. */
  function Decode(b: seq<byte>): (r: Option<PaxosMsg>)
    requires |b| >= 28
  {
    var n := IntAt(b, 24);
    if n < 0 || 28 + n + 8 > |b| then None
    else
      Some(PaxosMsg(IntAt(b, 0), IntAt(b, 4), IntAt(b, 8), IntAt(b, 12), IntAt(b, 16), IntAt(b, 20),
                    CString(b[28..28 + n]), IntAt(b, 28 + n), IntAt(b, 32 + n)))
  }

  /** The fields before the address. */
  method MarshalHead(buffer: array<byte>, m: PaxosMsg)
    requires Fits(m) && 28 <= buffer.Length
    modifies buffer
    ensures buffer[..] == Put(old(buffer[..]), 0, Head(m))
  {
    Copy(buffer, 0, NetInt(m.phase));
    Copy(buffer, 4, NetInt(m.agree));
    Copy(buffer, 8, NetInt(m.proposeNumber));
    Copy(buffer, 12, NetInt(m.acceptedProposal));
    Copy(buffer, 16, NetInt(m.slotNumber));
    Copy(buffer, 20, NetInt(m.commandId));
    Copy(buffer, 24, NetInt(|m.clientIp|));
    ghost var b := old(buffer[..]);
    ghost var h2 := NetInt(m.phase) + NetInt(m.agree);
    ghost var h3 := h2 + NetInt(m.proposeNumber);
    ghost var h4 := h3 + NetInt(m.acceptedProposal);
    ghost var h5 := h4 + NetInt(m.slotNumber);
    ghost var h6 := h5 + NetInt(m.commandId);
    PutPut(b, 0, NetInt(m.phase), NetInt(m.agree));
    PutPut(b, 0, h2, NetInt(m.proposeNumber));
    PutPut(b, 0, h3, NetInt(m.acceptedProposal));
    PutPut(b, 0, h4, NetInt(m.slotNumber));
    PutPut(b, 0, h5, NetInt(m.commandId));
    PutPut(b, 0, h6, NetInt(|m.clientIp|));
  }

  // ---------- the message object ----------

  /** The C++ message object: its fields, assigned in place. */
  class Message {
    var fields: PaxosMsg

    constructor (phase: int)
      ensures fields == PaxosMsg(phase, 0, -1, -1, -1, -1, "000.000.000.000", -1, -1)
    {
      fields := NewMsg(phase);
    }

    /** Nine memcpy calls that advance through the buffer; nothing else is touched. */
    method Marshal(buffer: array<byte>)
      requires Fits(fields) && Size(fields) <= buffer.Length
      modifies buffer
      ensures buffer[..] == Put(old(buffer[..]), 0, Encode(fields))
    {
      var m := fields;
      MarshalHead(buffer, m);
      var n := 28 + |m.clientIp|;
      ghost var b := old(buffer[..]);
      PutPut(b, 0, Head(m), ToBytes(m.clientIp));
      PutPut(b, 0, Head(m) + ToBytes(m.clientIp), NetInt(m.customerId));
      PutPut(b, 0, Head(m) + ToBytes(m.clientIp) + NetInt(m.customerId), NetInt(m.orderId));
      Copy(buffer, 28, ToBytes(m.clientIp));
      Copy(buffer, n, NetInt(m.customerId));
      Copy(buffer, n + 4, NetInt(m.orderId));
      assert Head(m) + ToBytes(m.clientIp) + NetInt(m.customerId) + NetInt(m.orderId) == Encode(m);
    }

    method Unmarshal(buffer: array<byte>) returns (ok: bool)
      requires 28 <= buffer.Length
      modifies this
      ensures ok <==> Decode(buffer[..]).Some?
      ensures fields == if ok then Decode(buffer[..]).value else old(fields)
    {
      var b := buffer[..];
      var n := IntAt(b, 24);
      if n < 0 || 28 + n + 8 > |b| {
        return false;
      }
      fields := fields.(phase := IntAt(b, 0), agree := IntAt(b, 4), proposeNumber := IntAt(b, 8));
      fields := fields.(acceptedProposal := IntAt(b, 12), slotNumber := IntAt(b, 16), commandId := IntAt(b, 20));
      fields := fields.(clientIp := CString(b[28..28 + n]));
      fields := fields.(customerId := IntAt(b, 28 + n), orderId := IntAt(b, 32 + n));
      ok := true;
    }
  }

  /** Both stubs' sendPaxosMsg. */
  method SendPaxosMsg(c: Connection, m: PaxosMsg) returns (r: int)
    requires Fits(m) && Size(m) <= BUFFER_SIZE
    modifies c`stream, c`closed, c`stalls
    ensures r == 1 ==> c.stream == old(c.stream) + Encode(m) && c.closed == old(c.closed)
    ensures c.reliable && !old(c.closed) ==> r == 1
  {
    var buffer := new byte[BUFFER_SIZE];
    var msg := new Message(m.phase);
    msg.fields := m;
    msg.Marshal(buffer);
    r := c.Send(buffer, Size(m));
  }

  /**
   Both stubs' receivePaxosMsg: a fixed number of bytes into a buffer whose
   remaining 13 bytes are whatever they were. `m` is a default message when
   nothing was read.
   */
  method ReceivePaxosMsg(c: Connection) returns (m: PaxosMsg, ghost rest: seq<byte>, ghost received: bool)
    modifies c`stream, c`closed
    ensures |rest| == BUFFER_SIZE - DEFAULT_SIZE
    ensures received ==> DEFAULT_SIZE <= |old(c.stream)| && c.stream == old(c.stream)[DEFAULT_SIZE..]
    ensures received ==> c.closed == old(c.closed)
    ensures received ==> m == match Decode(old(c.stream)[..DEFAULT_SIZE] + rest)
                              case Some(x) => x
                              case None => NO_REPLY
    ensures !received ==> m == NO_REPLY && c.closed
    ensures c.reliable && !old(c.closed) && DEFAULT_SIZE <= |old(c.stream)| ==> received
  {
    var buffer := new byte[BUFFER_SIZE];
    var msg := new Message(-1);
    var r := c.Recv(buffer, Size(msg.fields));
    received, rest := r == 1, buffer[DEFAULT_SIZE..];
    if r == 1 {
      assert buffer[..] == old(c.stream)[..DEFAULT_SIZE] + rest;
      var ok := msg.Unmarshal(buffer);
    }
    m := msg.fields;
  }

  // ---------- the layout ----------

  /**
   Where each field lies in the buffer: network-order ints at 0, 4, .., 24 (the
   last is the length of the address), the address's characters from 28, and two
   more ints behind it. (NetIntOrder says which bytes an int has.)
   */
  lemma Layout(m: PaxosMsg)
    requires Fits(m)
    ensures var b, n := Encode(m), |m.clientIp|;
            && |b| == 36 + n
            && b[0..4] == NetInt(m.phase) && b[4..8] == NetInt(m.agree)
            && b[8..12] == NetInt(m.proposeNumber) && b[12..16] == NetInt(m.acceptedProposal)
            && b[16..20] == NetInt(m.slotNumber) && b[20..24] == NetInt(m.commandId)
            && b[24..28] == NetInt(n)
            && (forall i | 0 <= i < n :: b[28 + i] == m.clientIp[i] as int)
            && b[28 + n..32 + n] == NetInt(m.customerId) && b[32 + n..36 + n] == NetInt(m.orderId)
  {
    HeadLayout(m);
    TailLayout(m);
    forall i | 0 <= i < |m.clientIp| ensures Encode(m)[28 + i] == m.clientIp[i] as int {
      BytesOfString(m.clientIp, i);
    }
  }

  lemma HeadLayout(m: PaxosMsg)
    requires Fits(m)
    ensures var b := Encode(m);
            && b[0..4] == NetInt(m.phase) && b[4..8] == NetInt(m.agree)
            && b[8..12] == NetInt(m.proposeNumber) && b[12..16] == NetInt(m.acceptedProposal)
            && b[16..20] == NetInt(m.slotNumber) && b[20..24] == NetInt(m.commandId)
            && b[24..28] == NetInt(|m.clientIp|)
  {
    var h := Head(m);
    assert Encode(m)[..28] == h;
    assert h[0..4] == NetInt(m.phase) && h[4..8] == NetInt(m.agree) && h[8..12] == NetInt(m.proposeNumber);
    assert h[12..16] == NetInt(m.acceptedProposal) && h[16..20] == NetInt(m.slotNumber);
    assert h[20..24] == NetInt(m.commandId) && h[24..28] == NetInt(|m.clientIp|);
  }

  lemma TailLayout(m: PaxosMsg)
    requires Fits(m)
    ensures var b, n := Encode(m), |m.clientIp|;
            b[28 + n..32 + n] == NetInt(m.customerId) && b[32 + n..36 + n] == NetInt(m.orderId)
  {
    var n := |m.clientIp|;
    assert Encode(m)[28 + n..] == Tail(m);
  }

  /** A default message, written out. */
  lemma DefaultMessage(phase: int)
    ensures NewMsg(phase) == PaxosMsg(phase, 0, -1, -1, -1, -1, "000.000.000.000", -1, -1)
    ensures Size(NewMsg(phase)) == 51
  {
  }

  // ---------- round trips ----------

  lemma HeadFields(m: PaxosMsg, more: seq<byte>)
    requires Fits(m)
    ensures var b := Head(m) + more;
            && IntAt(b, 0) == m.phase && IntAt(b, 4) == m.agree && IntAt(b, 8) == m.proposeNumber
            && IntAt(b, 12) == m.acceptedProposal && IntAt(b, 16) == m.slotNumber
            && IntAt(b, 20) == m.commandId && IntAt(b, 24) == |m.clientIp|
  {
    var b := Head(m) + more;
    FieldAt(b, 0, m.phase);
    FieldAt(b, 4, m.agree);
    FieldAt(b, 8, m.proposeNumber);
    FieldAt(b, 12, m.acceptedProposal);
    FieldAt(b, 16, m.slotNumber);
    FieldAt(b, 20, m.commandId);
    FieldAt(b, 24, |m.clientIp|);
  }

  lemma FieldAt(b: seq<byte>, i: nat, x: int)
    requires IsInt32(x) && i + 4 <= |b| && b[i..i + 4] == NetInt(x)
    ensures IntAt(b, i) == x
  {
    NetIntRoundTrip(x);
  }

  /** Unmarshal inverts Marshal, whatever follows in the buffer, exactly for NUL-free addresses. */
  lemma CodecRoundTrip(m: PaxosMsg, more: seq<byte>)
    requires Fits(m)
    ensures Decode(Encode(m) + more) == Some(m) <==> NulFree(m.clientIp)
    ensures Decode(Encode(m) + more).Some?
  {
    var ip := ToBytes(m.clientIp);
    var b := Encode(m) + more;
    assert b == Head(m) + (ip + Tail(m) + more);
    HeadFields(m, ip + Tail(m) + more);
    var n := |ip|;
    assert b[28..28 + n] == ip;
    assert b[28 + n..32 + n] == NetInt(m.customerId);
    assert b[32 + n..36 + n] == NetInt(m.orderId);
    FieldAt(b, 28 + n, m.customerId);
    FieldAt(b, 32 + n, m.orderId);
    CStringRoundTrip(m.clientIp);
  }

  /** A message the protocol sends: every field fits, and the address is as long as the default one. */
  predicate Standard(m: PaxosMsg) {
    Fits(m) && Size(m) == DEFAULT_SIZE && NulFree(m.clientIp)
  }

  /** One fixed-size read: the message and what is left in the stream. */
  function ReadOne(s: seq<byte>, rest: seq<byte>): Option<(PaxosMsg, seq<byte>)>
    requires |rest| == BUFFER_SIZE - DEFAULT_SIZE
  {
    if |s| < DEFAULT_SIZE then None
    else
      match Decode(s[..DEFAULT_SIZE] + rest)
      case None => None
      case Some(m) => Some((m, s[DEFAULT_SIZE..]))
  }

  /**
   The fixed size is the whole story: the first message of a stream comes back
   with the stream positioned at the next one if and only if its address has
   exactly 15 characters and no NUL, whatever the buffer held before.
   */
  lemma FixedSizeReadIff(m: PaxosMsg, more: seq<byte>, rest: seq<byte>)
    requires Fits(m) && |rest| == BUFFER_SIZE - DEFAULT_SIZE
    ensures ReadOne(Encode(m) + more, rest) == Some((m, more)) <==> |m.clientIp| == 15 && NulFree(m.clientIp)
  {
    var s := Encode(m) + more;
    if Size(m) == DEFAULT_SIZE {
      assert s[..DEFAULT_SIZE] == Encode(m) && s[DEFAULT_SIZE..] == more;
      CodecRoundTrip(m, rest);
    } else if |s| >= DEFAULT_SIZE {
      assert |s[DEFAULT_SIZE..]| != |more|;
    }
  }

  function EncodeAll(ms: seq<PaxosMsg>): seq<byte>
    requires forall m | m in ms :: Standard(m)
  {
    if ms == [] then []
    else
      assert Standard(ms[0]) by { assert ms[0] in ms; }
      Encode(ms[0]) + EncodeAll(ms[1..])
  }

  /** One read for each buffer; a buffer's unread part holds whatever it held. */
  function ReadMany(s: seq<byte>, rests: seq<seq<byte>>): Option<(seq<PaxosMsg>, seq<byte>)>
    requires Rests(rests)
    decreases |rests|
  {
    if rests == [] then Some(([], s))
    else
      assert rests[0] in rests;
      match ReadOne(s, rests[0])
      case None => None
      case Some((m, s1)) =>
        match ReadMany(s1, rests[1..])
        case None => None
        case Some((ms, s2)) => Some(([m] + ms, s2))
  }

  /** ReadMany gives exactly ms and leaves more, whatever the buffers held; unfolded only under Open. */
  ghost predicate Reads(s: seq<byte>, ms: seq<PaxosMsg>, more: seq<byte>) {
    forall b :: Open(b) ==>
      forall rests: seq<seq<byte>> | |rests| == |ms| && Rests(rests) :: ReadMany(s, rests) == Some((ms, more))
  }

  predicate Rests(rests: seq<seq<byte>>) { forall r | r in rests :: |r| == BUFFER_SIZE - DEFAULT_SIZE }

  lemma NextMessage(m: PaxosMsg, tail: seq<byte>, ms: seq<PaxosMsg>, more: seq<byte>)
    requires Standard(m) && Reads(tail, ms, more)
    ensures Reads(Encode(m) + tail, [m] + ms, more)
  {
    assert Open(true);
    forall rests: seq<seq<byte>> | |rests| == 1 + |ms| && Rests(rests)
      ensures ReadMany(Encode(m) + tail, rests) == Some(([m] + ms, more))
    {
      assert rests[0] in rests && Rests(rests[1..]);
      FixedSizeReadIff(m, tail, rests[0]);
    }
  }

  lemma {:induction false} MessagesRead(ms: seq<PaxosMsg>, more: seq<byte>)
    requires forall m | m in ms :: Standard(m)
    ensures Reads(EncodeAll(ms) + more, ms, more)
    decreases |ms|
  {
    if ms == [] {
      assert EncodeAll(ms) + more == more;
    } else {
      assert ms[0] in ms;
      MessagesRead(ms[1..], more);
      NextMessage(ms[0], EncodeAll(ms[1..]) + more, ms[1..], more);
      Associative(Encode(ms[0]), EncodeAll(ms[1..]), more);
      assert ms == [ms[0]] + ms[1..];
    }
  }

  /**
   Stream round trip: any sequence of messages the protocol sends is read back
   exactly, and the stream is left at what follows. (Recv reads the same bytes
   however they were split into chunks.)
   */
  lemma StreamRoundTrip(ms: seq<PaxosMsg>, more: seq<byte>, rests: seq<seq<byte>>)
    requires forall m | m in ms :: Standard(m)
    requires |rests| == |ms| && Rests(rests)
    ensures ReadMany(EncodeAll(ms) + more, rests) == Some((ms, more))
  {
    MessagesRead(ms, more);
    assert Open(true);
  }

  /** The two stub methods in sequence, over one reliable connection, for any chunks. */
  method SendAndReceive(c: Connection, m: PaxosMsg) returns (received: PaxosMsg)
    requires Standard(m) && c.reliable && !c.closed && c.stream == []
    modifies c`stream, c`closed, c`stalls
    ensures received == m && c.stream == [] && !c.closed
  {
    var r := SendPaxosMsg(c, m);
    ghost var s := c.stream;
    assert s == Encode(m);
    ghost var rest, ok;
    received, rest, ok := ReceivePaxosMsg(c);
    assert s[..DEFAULT_SIZE] == Encode(m);
    CodecRoundTrip(m, rest);
  }

  lemma AllStandard(ms: seq<PaxosMsg>, i: nat)
    requires i < |ms| && forall m | m in ms :: Standard(m)
    ensures Standard(ms[i]) && forall m | m in ms[i..] :: Standard(m)
    ensures EncodeAll(ms[i..]) == Encode(ms[i]) + EncodeAll(ms[i + 1..])
  {
    assert ms[i] in ms;
    assert ms[i..][1..] == ms[i + 1..] && ms[i..][0] == ms[i];
  }

  /** A sender's messages, one after the other. */
  method SendMessages(c: Connection, ms: seq<PaxosMsg>)
    requires (forall m | m in ms :: Standard(m)) && c.reliable && !c.closed
    modifies c`stream, c`closed, c`stalls
    ensures c.stream == old(c.stream) + EncodeAll(ms) && !c.closed
  {
    var i := 0;
    assert ms[0..] == ms;
    while i < |ms|
      invariant 0 <= i <= |ms| && !c.closed
      invariant forall m | m in ms[i..] :: Standard(m)
      invariant c.stream + EncodeAll(ms[i..]) == old(c.stream) + EncodeAll(ms)
    {
      AllStandard(ms, i);
      Associative(c.stream, Encode(ms[i]), EncodeAll(ms[i + 1..]));
      var r := SendPaxosMsg(c, ms[i]);
      i := i + 1;
    }
    assert EncodeAll(ms[i..]) == [] && c.stream + [] == c.stream;
  }

  /** One message from the front of a reliable connection. */
  method ReceiveNext(c: Connection, ghost m: PaxosMsg, ghost more: seq<byte>) returns (received: PaxosMsg)
    requires Standard(m) && c.reliable && !c.closed && c.stream == Encode(m) + more
    modifies c`stream, c`closed
    ensures received == m && c.stream == more && !c.closed
  {
    ghost var rest, ok;
    received, rest, ok := ReceivePaxosMsg(c);
    assert (Encode(m) + more)[..DEFAULT_SIZE] == Encode(m);
    assert (Encode(m) + more)[DEFAULT_SIZE..] == more;
    CodecRoundTrip(m, rest);
  }

  /**
   The receive loop of an engineer thread, for as long as messages come: the
   messages sent, in the order sent, whatever the chunks.
   */
  method ReceiveMessages(c: Connection, n: nat, ghost ms: seq<PaxosMsg>, ghost more: seq<byte>)
    returns (received: seq<PaxosMsg>)
    requires (forall m | m in ms :: Standard(m)) && n == |ms|
    requires c.reliable && !c.closed && c.stream == EncodeAll(ms) + more
    modifies c`stream, c`closed
    ensures received == ms && c.stream == more && !c.closed
  {
    received := [];
    assert ms[0..] == ms;
    while |received| < n
      invariant |received| <= n && received == ms[..|received|] && !c.closed
      invariant forall m | m in ms[|received|..] :: Standard(m)
      invariant c.stream == EncodeAll(ms[|received|..]) + more
    {
      ghost var i := |received|;
      AllStandard(ms, i);
      Associative(Encode(ms[i]), EncodeAll(ms[i + 1..]), more);
      var m := ReceiveNext(c, ms[i], EncodeAll(ms[i + 1..]) + more);
      received := received + [m];
    }
    assert EncodeAll(ms[n..]) + more == more;
  }

  /** Any messages sent one after the other are received one after the other, for any chunks. */
  method SendAndReceiveAll(c: Connection, ms: seq<PaxosMsg>) returns (received: seq<PaxosMsg>)
    requires (forall m | m in ms :: Standard(m)) && c.reliable && !c.closed && c.stream == []
    modifies c`stream, c`closed, c`stalls
    ensures received == ms && c.stream == [] && !c.closed
  {
    SendMessages(c, ms);
    assert c.stream == EncodeAll(ms) + [];
    received := ReceiveMessages(c, |ms|, ms, []);
  }
}
