/** plugin/modbus/client.go against fake/modbus.go: Modbus TCP register access, byte
    for byte (MODBUS Application Protocol Specification V1.1b3, sections 6.3, 6.4 and
    6.6; MODBUS Messaging on TCP/IP Implementation Guide V1.0b, section 3.1.3). */
module ModbusWire {
  import opened MachineInts

  const READ_HOLDING: Byte := 3
  const READ_INPUT: Byte := 4
  const WRITE_SINGLE: Byte := 6

  function Hi(v: U16): Byte { v / 256 }
  function Lo(v: U16): Byte { v % 256 }

  /** binary.BigEndian.Uint16 of the two bytes at i. */
  function U16At(bs: seq<Byte>, i: nat): U16
    requires i + 2 <= |bs|
  {
    var high: int := bs[i];
    high * 256 + bs[i + 1]
  }

  function Wrap(n: int): U16 { n % 65536 }

  // ----- the frames, as values

  /** The MBAP frame of a PDU: transaction id, protocol 0, 16-bit length of unit id
      plus PDU, unit id. The length field wraps like Go's uint16 conversion. */
  function Frame(t1: Byte, t0: Byte, unit: Byte, pdu: seq<Byte>): seq<Byte> {
    [t1, t0, 0, 0, Hi(Wrap(1 + |pdu|)), Lo(Wrap(1 + |pdu|)), unit] + pdu
  }

  /** How many PDU bytes a receiver asks for after this header ("length-1" in uint16). */
  function PduLength(hdr: seq<Byte>): U16
    requires |hdr| >= 7
  {
    Wrap(U16At(hdr, 4) - 1)
  }

  function Request(fc: Byte, a: U16, b: U16): seq<Byte> {
    [fc, Hi(a), Lo(a), Hi(b), Lo(b)]
  }

  function RegisterBytes(vals: seq<U16>): (bs: seq<Byte>)
    ensures |bs| == 2 * |vals|
  {
    if vals == [] then [] else [Hi(vals[0]), Lo(vals[0])] + RegisterBytes(vals[1..])
  }

  function ReadReply(fc: Byte, vals: seq<U16>): seq<Byte> {
    [fc, (2 * |vals|) % 256] + RegisterBytes(vals)
  }

  // ----- what the client makes of a reply

  datatype Reply = Registers(vals: seq<U16>) | Failed | Panicked

  /** transact's decoding loop from byte i of the payload on; None is Go's panic on a
      slice out of range. */
  function DecodeFrom(resp: seq<Byte>, count: Byte, i: nat): (r: Reply)
    requires |resp| >= 2
    ensures r.Registers? ==> |r.vals| == if i < count then (count - i) / 2 else 0
    ensures !r.Failed?
    decreases count - i
  {
    if i + 1 >= count then Registers([])
    else if 4 + i > |resp| then Panicked
    else
      var rest := DecodeFrom(resp, count, i + 2);
      if rest.Registers? then Registers([U16At(resp, 2 + i)] + rest.vals) else Panicked
  }

  function DecodeRead(fc: Byte, resp: seq<Byte>): Reply {
    if |resp| < 3 || resp[0] != fc then Failed else DecodeFrom(resp, resp[1], 0)
  }

  // ----- the register file, and the two ways to use it

  datatype Regs = Regs(holding: map<U16, U16>, input: map<U16, U16>)

  function Get(m: map<U16, U16>, a: U16): U16 {
    if a in m then m[a] else 0
  }

  /** The plain reading: qty registers from start on, addresses modulo 2^16. */
  function Slice(m: map<U16, U16>, start: U16, qty: nat): (s: seq<U16>)
    ensures |s| == qty
  {
    seq<U16>(qty, i requires 0 <= i => Get(m, Wrap(start + i)))
  }

  datatype Op = ReadHolding(start: U16, qty: U16) | ReadInput(start: U16, qty: U16) | Write(addr: U16, val: U16)

  /** Direct use of the two maps. */
  function Plain(r: Regs, op: Op): (Regs, Reply) {
    match op
    case ReadHolding(s, q) => (r, Registers(Slice(r.holding, s, q)))
    case ReadInput(s, q) => (r, Registers(Slice(r.input, s, q)))
    case Write(a, v) => (r.(holding := r.holding[a := v]), Registers([]))
  }

  /** The server's answer to a request PDU, unframed; None is Go's panic on a short
      one. */
  datatype Answer = Answer(pdu: seq<Byte>, regs: Regs) | Crash

  function Serve(r: Regs, pdu: seq<Byte>): Answer {
    if pdu == [] then Crash
    else if pdu[0] == READ_HOLDING || pdu[0] == READ_INPUT then
      if |pdu| < 5 then Crash
      else
        var m := if pdu[0] == READ_HOLDING then r.holding else r.input;
        Answer(ReadReply(pdu[0], Slice(m, U16At(pdu, 1), U16At(pdu, 3))), r)
    else if pdu[0] == WRITE_SINGLE then
      if |pdu| < 5 then Crash
      else Answer(pdu, r.(holding := r.holding[U16At(pdu, 1) := U16At(pdu, 3)]))
    else Answer([if pdu[0] < 128 then pdu[0] + 128 else pdu[0], 1], r)
  }

  /** What a receiver takes off a byte stream that starts with a frame: the announced
      number of bytes after the header. None while they have not all arrived. */
  function Received(bytes: seq<Byte>): (pdu: seq<Byte>)
    requires |bytes| >= 7 && |bytes| >= 7 + PduLength(bytes)
    ensures |pdu| == PduLength(bytes)
  {
    bytes[7..7 + PduLength(bytes)]
  }

  function RequestFor(op: Op): seq<Byte> {
    match op
    case ReadHolding(s, q) => Request(READ_HOLDING, s, q)
    case ReadInput(s, q) => Request(READ_INPUT, s, q)
    case Write(a, v) => Request(WRITE_SINGLE, a, v)
  }

  function Decode(op: Op, resp: seq<Byte>): Reply {
    match op
    case ReadHolding(_, _) => DecodeRead(READ_HOLDING, resp)
    case ReadInput(_, _) => DecodeRead(READ_INPUT, resp)
    case Write(_, _) => if |resp| < 5 || resp[0] != WRITE_SINGLE then Failed else Registers([])
  }

  lemma U16RoundTrip(v: U16)
    ensures Hi(v) * 256 + Lo(v) == v
  {
  }

  lemma FrameLength(t1: Byte, t0: Byte, unit: Byte, pdu: seq<Byte>)
    ensures var f := Frame(t1, t0, unit, pdu);
            |f| == 7 + |pdu| && PduLength(f) == |pdu| % 65536 && f[7..] == pdu && f[..4] == [t1, t0, 0, 0] && f[6] == unit
  {
    var f := Frame(t1, t0, unit, pdu);
    U16RoundTrip(Wrap(1 + |pdu|));
    assert U16At(f, 4) == Wrap(1 + |pdu|);
  }

  /** A frame carries transaction and unit id, protocol 0 and the PDU. It never asks for
      more than came; a PDU is received up to what the 16-bit length field can count,
      whole exactly if it has at most 65535 bytes. */
  lemma FrameReceived(t1: Byte, t0: Byte, unit: Byte, pdu: seq<Byte>)
    ensures var f := Frame(t1, t0, unit, pdu);
            && f[..4] == [t1, t0, 0, 0] && f[6] == unit && f[7..] == pdu
            && |f| >= 7 + PduLength(f) && PduLength(f) == |pdu| % 65536
            && Received(f) == pdu[..|pdu| % 65536]
            && (Received(f) == pdu <==> |pdu| <= 65535)
  {
    var f := Frame(t1, t0, unit, pdu);
    FrameLength(t1, t0, unit, pdu);
    hide Frame, PduLength;
    assert f == f[..7] + pdu;
  }

  /** One operation over the wire: encode, frame, serve, frame, decode. */
  function OverWire(r: Regs, op: Op): (Regs, Reply) {
    var sent := Frame(0, 1, 1, RequestFor(op));
    FrameReceived(0, 1, 1, RequestFor(op));
    match Serve(r, Received(sent))
    case Crash => (r, Panicked)
    case Answer(pdu, r') =>
      var back := Frame(sent[0], sent[1], sent[6], pdu);
      FrameReceived(sent[0], sent[1], sent[6], pdu);
      (r', Decode(op, Received(back)))
  }

  lemma RequestParses(fc: Byte, a: U16, b: U16)
    ensures U16At(Request(fc, a, b), 1) == a && U16At(Request(fc, a, b), 3) == b
  {
    U16RoundTrip(a);
    U16RoundTrip(b);
  }

  lemma {:induction false} RegisterBytesAt(vals: seq<U16>, k: nat)
    requires k < |vals|
    ensures U16At(RegisterBytes(vals), 2 * k) == vals[k]
  {
    U16RoundTrip(vals[0]);
    if k > 0 {
      RegisterBytesAt(vals[1..], k - 1);
      assert RegisterBytes(vals)[2..] == RegisterBytes(vals[1..]);
    }
  }

  lemma DecodeStep(resp: seq<Byte>, count: Byte, i: nat, rest: seq<U16>)
    requires |resp| >= 4 + i && i + 1 < count && DecodeFrom(resp, count, i + 2) == Registers(rest)
    ensures DecodeFrom(resp, count, i) == Registers([U16At(resp, 2 + i)] + rest)
  {
    hide U16At;
  }

  /** The decoding loop over a payload of c registers yields them. */
  lemma {:induction false} DecodePrefix(resp: seq<Byte>, vals: seq<U16>, c: nat, k: nat)
    requires k <= c < 128 && c <= |vals| && |resp| >= 2 + 2 * c
    requires forall i :: 0 <= i < c ==> U16At(resp, 2 + 2 * i) == vals[i]
    ensures DecodeFrom(resp, 2 * c, 2 * k) == Registers(vals[k..c])
    decreases c - k
  {
    hide U16At;
    if k < c {
      DecodePrefix(resp, vals, c, k + 1);
      DecodeStep(resp, 2 * c, 2 * k, vals[k + 1..c]);
      assert vals[k..c] == [vals[k]] + vals[k + 1..c];
      hide DecodeFrom;
    }
  }

  lemma RegisterInReply(fc: Byte, vals: seq<U16>, len: nat, k: nat)
    requires k < |vals| && 4 + 2 * k <= len <= 2 + 2 * |vals|
    ensures U16At(ReadReply(fc, vals)[..len], 2 + 2 * k) == vals[k]
  {
    RegisterBytesAt(vals, k);
    assert ReadReply(fc, vals)[2..] == RegisterBytes(vals);
  }

  /** What a read over the wire returns: an error if the length field leaves fewer than
      three bytes, else the registers that the count byte covers. */
  function WireRead(m: map<U16, U16>, start: U16, qty: U16): Reply {
    if qty % 32768 == 0 || qty % 32768 == 32767 then Failed else Registers(Slice(m, start, qty)[..qty % 128])
  }

  lemma ServesRead(r: Regs, op: Op)
    requires !op.Write?
    ensures var fc := if op.ReadHolding? then READ_HOLDING else READ_INPUT;
            var sent := Frame(0, 1, 1, RequestFor(op));
            && sent[0] == 0 && sent[1] == 1 && sent[6] == 1 && |sent| >= 7 + PduLength(sent)
            && Serve(r, Received(sent)) == Answer(ReadReply(fc, Slice(if op.ReadHolding? then r.holding else r.input, op.start, op.qty)), r)
  {
    RequestParses(if op.ReadHolding? then READ_HOLDING else READ_INPUT, op.start, op.qty);
    FrameReceived(0, 1, 1, RequestFor(op));
  }

  lemma ReplyLength(n: nat)
    requires n <= 65535
    ensures (2 + 2 * n) % 65536 < 3 <==> n % 32768 == 0 || n % 32768 == 32767
    ensures (2 + 2 * n) % 65536 >= 3 ==> (2 + 2 * n) % 65536 >= 2 + (2 * n) % 256
    ensures (2 * n) % 256 == 2 * (n % 128)
  {
    if n >= 32768 {
      var k := n - 32768;
      assert 2 * n == 2 * k + 65536;
    }
  }

  lemma ReadReplyDecodes(fc: Byte, vals: seq<U16>)
    requires |vals| <= 65535
    ensures var resp := ReadReply(fc, vals); var got := resp[..|resp| % 65536];
            DecodeRead(fc, got) == if |vals| % 32768 == 0 || |vals| % 32768 == 32767 then Failed else Registers(vals[..|vals| % 128])
  {
    var resp := ReadReply(fc, vals);
    var len := |resp| % 65536;
    ReplyLength(|vals|);
    if len >= 3 {
      var c := |vals| % 128;
      forall i | 0 <= i < c ensures U16At(resp[..len], 2 + 2 * i) == vals[i] { RegisterInReply(fc, vals, len, i); }
      DecodePrefix(resp[..len], vals, c, 0);
      assert vals[0..c] == vals[..c];
      assert resp[..len][0] == fc && resp[..len][1] == 2 * c;
    }
  }

  /** For every quantity: the byte count is one byte and the length field two, so a read
      over the wire returns qty mod 128 registers, or fails. */
  lemma ReadOverWire(r: Regs, op: Op)
    requires !op.Write?
    ensures OverWire(r, op) == (r, WireRead(if op.ReadHolding? then r.holding else r.input, op.start, op.qty))
  {
    var fc := if op.ReadHolding? then READ_HOLDING else READ_INPUT;
    var m := if op.ReadHolding? then r.holding else r.input;
    var vals := Slice(m, op.start, op.qty);
    ServesRead(r, op);
    hide Serve, Slice, Frame, RegisterBytes, PduLength;
    FrameReceived(0, 1, 1, ReadReply(fc, vals));
    ReadReplyDecodes(fc, vals);
  }

  /** A code the server does not know is answered by the exception "illegal function". */
  lemma UnknownFunction(r: Regs, pdu: seq<Byte>)
    requires pdu != [] && pdu[0] !in {3, 4, 6}
    ensures Serve(r, pdu) == Answer([if pdu[0] < 128 then pdu[0] + 128 else pdu[0], 1], r)
  {
  }

  lemma WriteOverWire(r: Regs, a: U16, v: U16)
    ensures OverWire(r, Write(a, v)) == Plain(r, Write(a, v))
  {
    RequestParses(WRITE_SINGLE, a, v);
    FrameReceived(0, 1, 1, Request(WRITE_SINGLE, a, v));
  }

  /** The quantities for which the wire is transparent. */
  predicate Transparent(op: Op) {
    op.Write? || 1 <= op.qty <= 127
  }

  lemma WholeWireRead(m: map<U16, U16>, start: U16, qty: U16)
    requires 1 <= qty <= 127
    ensures WireRead(m, start, qty) == Registers(Slice(m, start, qty))
  {
    hide Slice;
    assert Slice(m, start, qty)[..qty] == Slice(m, start, qty);
  }

  lemma WholeRead(r: Regs, op: Op)
    requires !op.Write? && 1 <= op.qty <= 127
    ensures OverWire(r, op) == Plain(r, op)
  {
    hide OverWire, Slice;
    var m := if op.ReadHolding? then r.holding else r.input;
    ReadOverWire(r, op);
    WholeWireRead(m, op.start, op.qty);
    hide WireRead;
  }

  lemma TruncatedRead(r: Regs, op: Op)
    requires !op.Write? && 128 <= op.qty
    ensures OverWire(r, op).1 != Plain(r, op).1
  {
    hide OverWire, Slice;
    ReadOverWire(r, op);
  }

  lemma EmptyReadFails(r: Regs, op: Op)
    requires !op.Write? && op.qty == 0
    ensures OverWire(r, op).1 == Failed
  {
    hide OverWire, Slice;
    ReadOverWire(r, op);
  }

  /** One operation behaves over the wire as on the plain maps exactly when it is a
      write or reads 1 to 127 registers. */
  lemma WireExact(r: Regs, op: Op)
    ensures OverWire(r, op) == Plain(r, op) <==> Transparent(op)
  {
    if op.Write? {
      WriteOverWire(r, op.addr, op.val);
    } else if op.qty == 0 {
      EmptyReadFails(r, op);
    } else {
      if op.qty <= 127 { WholeRead(r, op); } else { TruncatedRead(r, op); }
    }
  }

  /** The octets of a request: transaction 1, protocol 0, length 6, unit 1; function code 3
      to read holding registers, 4 for input registers, 6 to write one; then start and
      quantity, or address and value, the high octet first. */
  lemma RequestOctets(op: Op)
    ensures var a, b := if op.Write? then op.addr else op.start, if op.Write? then op.val else op.qty;
            Frame(0, 1, 1, RequestFor(op)) ==
              [0, 1, 0, 0, 0, 6, 1, if op.ReadHolding? then 3 else if op.ReadInput? then 4 else 6, a / 256, a % 256, b / 256, b % 256]
  {
    match op
    case ReadHolding(_, _) =>
    case ReadInput(_, _) =>
    case Write(_, _) =>
  }

  lemma {:induction false} RegisterOctets(vals: seq<U16>, k: nat)
    requires k < |vals|
    ensures RegisterBytes(vals)[2 * k] == vals[k] / 256 && RegisterBytes(vals)[2 * k + 1] == vals[k] % 256
  {
    if k > 0 {
      RegisterOctets(vals[1..], k - 1);
      assert RegisterBytes(vals)[2..] == RegisterBytes(vals[1..]);
    }
  }

  /** The octets of the reply to a read of n registers: their count in octets, then each of
      them, the high octet first. */
  lemma {:induction false} ReplyOctets(fc: Byte, vals: seq<U16>, k: nat)
    requires 1 <= |vals| <= 127 && k < |vals|
    ensures var f := Frame(0, 1, 1, ReadReply(fc, vals));
            && |f| == 9 + 2 * |vals| && f[..9] == [0, 1, 0, 0, (3 + 2 * |vals|) / 256, (3 + 2 * |vals|) % 256, 1, fc, 2 * |vals|]
            && f[9 + 2 * k] == vals[k] / 256 && f[10 + 2 * k] == vals[k] % 256
  {
    RegisterOctets(vals, k);
    var f := Frame(0, 1, 1, ReadReply(fc, vals));
    assert f[9..] == RegisterBytes(vals);
    assert f[9 + 2 * k] == f[9..][2 * k] && f[10 + 2 * k] == f[9..][2 * k + 1];
  }

  /** The register k after start, past 65535 from 0 again; an unset one reads 0. */
  function Held(m: map<U16, U16>, start: U16, k: U16): U16 {
    var n: int := start + k;
    var a := if n < 65536 then n else n - 65536;
    if a in m then m[a] else 0
  }

  lemma SliceMeans(m: map<U16, U16>, start: U16, qty: U16, k: nat)
    requires k < qty
    ensures Slice(m, start, qty)[k] == Held(m, start, k)
  {
    var n: int := start + k;
    assert Wrap(n) == if n < 65536 then n else n - 65536;
    assert Slice(m, start, qty)[k] == Get(m, Wrap(n));
  }

  /** What comes back from a read of 1 to 127 registers: those from start on, past 65535
      from 0 again, an unset one reading 0; and a write sets its one holding register. */
  lemma RegistersRead(r: Regs, op: Op)
    requires Transparent(op)
    ensures op.Write? ==> OverWire(r, op) == (Regs(r.holding[op.addr := op.val], r.input), Registers([]))
    ensures !op.Write? ==>
              var m := if op.ReadHolding? then r.holding else r.input;
              && OverWire(r, op).0 == r && OverWire(r, op).1.Registers? && |OverWire(r, op).1.vals| == op.qty
              && forall k :: 0 <= k < op.qty ==>
                   OverWire(r, op).1.vals[k] == Held(m, op.start, k)
  {
    WireExact(r, op);
    hide OverWire;
    if !op.Write? {
      var m := if op.ReadHolding? then r.holding else r.input;
      forall k | 0 <= k < op.qty ensures Slice(m, op.start, op.qty)[k] == Held(m, op.start, k) { SliceMeans(m, op.start, op.qty, k); }
    }
  }

  function RunPlain(r: Regs, ops: seq<Op>): (end: (Regs, seq<Reply>))
    ensures |end.1| == |ops|
    decreases |ops|
  {
    if ops == [] then (r, [])
    else
      var (r1, a) := Plain(r, ops[0]);
      var (r2, rest) := RunPlain(r1, ops[1..]);
      (r2, [a] + rest)
  }

  function RunOverWire(r: Regs, ops: seq<Op>): (end: (Regs, seq<Reply>))
    ensures |end.1| == |ops|
    decreases |ops|
  {
    if ops == [] then (r, [])
    else
      var (r1, a) := OverWire(r, ops[0]);
      var (r2, rest) := RunOverWire(r1, ops[1..]);
      (r2, [a] + rest)
  }

  lemma FirstReplyDiffers(r: Regs, ops: seq<Op>)
    requires ops != [] && !Transparent(ops[0])
    ensures RunOverWire(r, ops).1[..1] != RunPlain(r, ops).1[..1]
  {
    WireExact(r, ops[0]);
    ReadOverWire(r, ops[0]);
    hide OverWire;
  }

  /** A sequence of operations gives the same replies and the same registers over the
      wire as on the maps themselves exactly if each operation is transparent. */
  lemma {:induction false} WireRefinesMaps(r: Regs, ops: seq<Op>)
    ensures RunOverWire(r, ops) == RunPlain(r, ops) <==> forall i :: 0 <= i < |ops| ==> Transparent(ops[i])
    decreases |ops|
  {
    if ops != [] {
      WireExact(r, ops[0]);
      if Transparent(ops[0]) {
        WireRefinesMaps(Plain(r, ops[0]).0, ops[1..]);
        assert forall i :: 0 < i < |ops| ==> ops[i] == ops[1..][i - 1];
      } else {
        FirstReplyDiffers(r, ops);
      }
    }
  }
}
