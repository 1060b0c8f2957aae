/** The two ends of a Modbus TCP connection as they run: byte buffers filled in place,
    a connection written and read, the server's register maps updated. */
module ModbusEndpoints {
  import opened MachineInts
  import opened ModbusWire
  import opened Results

  /** A connection: the bytes on their way to either end. */
  class Conn {
    var toServer: seq<Byte>
    var toClient: seq<Byte>

    constructor ()
      ensures toServer == [] && toClient == []
    {
      toServer, toClient := [], [];
    }
  }

  /** Fills a buffer with an MBAP frame: both mbap (server) and writePDU (client). */
  method FillFrame(t1: Byte, t0: Byte, unit: Byte, pdu: seq<Byte>) returns (out: array<Byte>)
    ensures fresh(out) && out[..] == Frame(t1, t0, unit, pdu)
  {
    out := new Byte[7 + |pdu|](_ => 0);
    out[0], out[1] := t1, t0;
    out[4], out[5] := Hi(Wrap(1 + |pdu|)), Lo(Wrap(1 + |pdu|));
    out[6] := unit;
    ghost var head := out[..7];
    var i := 0;
    while i < |pdu|
      invariant 0 <= i <= |pdu|
      invariant out[..7] == head && out[7..7 + i] == pdu[..i]
    {
      out[7 + i] := pdu[i];
      i := i + 1;
    }
    assert out[..] == out[..7] + out[7..7 + |pdu|];
  }

  /** io.ReadFull of a header and the PDU it announces; None while bytes are missing. */
  function TakeFrame(bytes: seq<Byte>): Option<(seq<Byte>, seq<Byte>)> {
    if |bytes| < 7 || |bytes| < 7 + PduLength(bytes) then None
    else Some((Received(bytes), bytes[7 + PduLength(bytes)..]))
  }

  lemma TakeWhole(t1: Byte, t0: Byte, unit: Byte, pdu: seq<Byte>)
    requires |pdu| <= 65535
    ensures TakeFrame(Frame(t1, t0, unit, pdu)) == Some((pdu, []))
    ensures Frame(t1, t0, unit, pdu)[0] == t1 && Frame(t1, t0, unit, pdu)[1] == t0 && Frame(t1, t0, unit, pdu)[6] == unit
  {
    FrameReceived(t1, t0, unit, pdu);
    var f := Frame(t1, t0, unit, pdu);
    assert f[7 + PduLength(f)..] == [];
  }

  /** The server's PDU in answer to a read. */
  function ReadAnswer(r: Regs, op: Op): (pdu: seq<Byte>)
    requires !op.Write?
    ensures |pdu| == 2 + 2 * op.qty
  {
    if op.ReadHolding? then ReadReply(READ_HOLDING, Slice(r.holding, op.start, op.qty))
    else ReadReply(READ_INPUT, Slice(r.input, op.start, op.qty))
  }

  /** A read request, served, and its reply as they pass over the connection. */
  lemma ReadPasses(r: Regs, op: Op)
    requires !op.Write?
    ensures Serve(r, RequestFor(op)) == Answer(ReadAnswer(r, op), r)
    ensures var back := Frame(0, 1, 1, ReadAnswer(r, op));
            && TakeFrame(back).Some? && (op.qty <= 32766 ==> TakeFrame(back).value.1 == [])
            && OverWire(r, op) == (r, Decode(op, TakeFrame(back).value.0))
  {
    var reply := ReadAnswer(r, op);
    ServesRead(r, op);
    TakeWhole(0, 1, 1, RequestFor(op));
    FrameReceived(0, 1, 1, RequestFor(op));
    FrameReceived(0, 1, 1, reply);
    hide Serve, Slice, ReadReply, Frame, PduLength;
    if op.qty <= 32766 { TakeWhole(0, 1, 1, reply); }
  }

  class Server {
    var holding: map<U16, U16>
    var input: map<U16, U16>

    ghost function View(): Regs
      reads this
    {
      Regs(holding, input)
    }

    constructor (r: Regs)
      ensures View() == r
    {
      holding, input := r.holding, r.input;
    }

    method ReadRegs(pdu: seq<Byte>, regs: map<U16, U16>) returns (rpdu: seq<Byte>)
      requires |pdu| >= 5
      ensures rpdu == ReadReply(pdu[0], Slice(regs, U16At(pdu, 1), U16At(pdu, 3)))
    {
      var start, qty := U16At(pdu, 1), U16At(pdu, 3);
      var vals := new U16[qty](_ => 0);
      var i := 0;
      while i < qty
        invariant 0 <= i <= qty && vals.Length == qty
        invariant forall k :: 0 <= k < i ==> vals[k] == Get(regs, Wrap(start + k))
      {
        vals[i] := Get(regs, Wrap(start + i));
        i := i + 1;
      }
      assert vals[..] == Slice(regs, start, qty);
      var total: int := qty;
      rpdu := [pdu[0], (2 * total) % 256];
      i := 0;
      while i < qty
        invariant 0 <= i <= qty
        invariant rpdu + RegisterBytes(vals[i..]) == [pdu[0], (2 * total) % 256] + RegisterBytes(vals[..])
      {
        assert vals[i..][1..] == vals[i + 1..];
        assert rpdu + ([Hi(vals[i]), Lo(vals[i])] + RegisterBytes(vals[i + 1..])) ==
               (rpdu + [Hi(vals[i]), Lo(vals[i])]) + RegisterBytes(vals[i + 1..]);
        rpdu := rpdu + [Hi(vals[i]), Lo(vals[i])];
        i := i + 1;
      }
      assert rpdu + RegisterBytes(vals[i..]) == rpdu;
    }

    /** handlePDU; None is the panic on a PDU too short to index. */
    method HandlePDU(pdu: seq<Byte>) returns (reply: Option<seq<Byte>>)
      modifies this`holding
      ensures match Serve(old(View()), pdu)
              case Crash => reply == None && View() == old(View())
              case Answer(rpdu, r) => reply == Some(rpdu) && View() == r
    {
      if pdu == [] {
        return None;
      }
      if pdu[0] == READ_HOLDING || pdu[0] == READ_INPUT {
        if |pdu| < 5 {
          return None;
        }
        var rpdu := ReadRegs(pdu, if pdu[0] == READ_HOLDING then holding else input);
        return Some(rpdu);
      }
      if pdu[0] == WRITE_SINGLE {
        if |pdu| < 5 {
          return None;
        }
        holding := holding[U16At(pdu, 1) := U16At(pdu, 3)];
        return Some(pdu);
      }
      return Some([if pdu[0] < 128 then pdu[0] + 128 else pdu[0], 1]);
    }

    /** One turn of handle: a whole request in, its reply out. */
    method Turn(conn: Conn) returns (served: bool)
      modifies this`holding, conn
      ensures TakeFrame(old(conn.toServer)).None? ==>
                !served && View() == old(View()) && conn.toServer == old(conn.toServer) && conn.toClient == old(conn.toClient)
      ensures TakeFrame(old(conn.toServer)).Some? ==>
                var (pdu, rest) := TakeFrame(old(conn.toServer)).value;
                && conn.toServer == rest
                && match Serve(old(View()), pdu)
                   case Crash => !served && View() == old(View()) && conn.toClient == old(conn.toClient)
                   case Answer(rpdu, r) =>
                     var hdr := old(conn.toServer);
                     served && View() == r && conn.toClient == old(conn.toClient) + Frame(hdr[0], hdr[1], hdr[6], rpdu)
    {
      var hdr := conn.toServer;
      var taken := TakeFrame(hdr);
      if taken.None? {
        return false;
      }
      conn.toServer := taken.value.1;
      var reply := HandlePDU(taken.value.0);
      if reply.None? {
        return false;
      }
      var out := FillFrame(hdr[0], hdr[1], hdr[6], reply.value);
      conn.toClient := conn.toClient + out[..];
      served := true;
    }
  }

  /** Reading one frame off bytes gave pdu and left rest: nothing while it is not whole. */
  ghost predicate Taken(bytes: seq<Byte>, pdu: Option<seq<Byte>>, rest: seq<Byte>) {
    match TakeFrame(bytes)
    case None => pdu == None && rest == bytes
    case Some(taken) => pdu == Some(taken.0) && rest == taken.1
  }

  /** What a client makes of the next frame in bytes, and what it leaves. */
  ghost predicate Decoded(op: Op, bytes: seq<Byte>, r: Option<Reply>, rest: seq<Byte>) {
    match TakeFrame(bytes)
    case None => r == None && rest == bytes
    case Some(taken) => r == Some(Decode(op, taken.0)) && rest == taken.1
  }

  class Client {
    const conn: Conn

    constructor (conn: Conn)
      ensures this.conn == conn
    {
      this.conn := conn;
    }

    method WritePDU(pdu: seq<Byte>)
      modifies conn`toServer
      ensures conn.toServer == old(conn.toServer) + Frame(0, 1, 1, pdu)
    {
      var out := FillFrame(0, 1, 1, pdu);
      conn.toServer := conn.toServer + out[..];
    }

    method ReadResp() returns (pdu: Option<seq<Byte>>)
      modifies conn`toClient
      ensures TakeFrame(old(conn.toClient)).None? ==> pdu == None && conn.toClient == old(conn.toClient)
      ensures TakeFrame(old(conn.toClient)).Some? ==>
                pdu == Some(TakeFrame(old(conn.toClient)).value.0) && conn.toClient == TakeFrame(old(conn.toClient)).value.1
    {
      var taken := TakeFrame(conn.toClient);
      if taken.None? {
        return None;
      }
      conn.toClient := taken.value.1;
      pdu := Some(taken.value.0);
    }

    /** A request and the next frame that comes back, the server taking its turn while
        the client waits; bytes left over from an earlier reply come first. */
    method Exchange(server: Server, pdu: seq<Byte>) returns (resp: Option<seq<Byte>>)
      requires conn.toServer == [] && |pdu| <= 65535 && Serve(server.View(), pdu).Answer?
      modifies conn, server`holding
      ensures var a := Serve(old(server.View()), pdu);
              server.View() == a.regs && conn.toServer == [] && Taken(old(conn.toClient) + Frame(0, 1, 1, a.pdu), resp, conn.toClient)
    {
      TakeWhole(0, 1, 1, pdu);
      WritePDU(pdu);
      ghost var sent := Frame(0, 1, 1, pdu);
      ghost var a := Serve(server.View(), pdu);
      assert conn.toServer == sent;
      assert TakeFrame(conn.toServer) == Some((pdu, []));
      var served := server.Turn(conn);
      assert server.View() == a.regs && conn.toServer == [];
      assert conn.toClient == old(conn.toClient) + Frame(0, 1, 1, a.pdu);
      resp := ReadResp();
    }

    /** transact's decoding loop. */
    method DecodeLoop(resp: seq<Byte>) returns (r: Reply)
      requires |resp| >= 2
      ensures r == DecodeFrom(resp, resp[1], 0)
    {
      var count := resp[1];
      var vals: seq<U16> := [];
      var i := 0;
      while i + 1 < count
        invariant 0 <= i
        invariant var rest := DecodeFrom(resp, count, i);
                  DecodeFrom(resp, count, 0) == if rest.Registers? then Registers(vals + rest.vals) else Panicked
      {
        if 4 + i > |resp| {
          return Panicked;
        }
        vals := vals + [U16At(resp, 2 + i)];
        i := i + 2;
      }
      r := Registers(vals);
    }

    /** transact: a register read, the server taking its turn while the client waits;
        None while the client waits for bytes. On a connection with nothing left over
        it is the wire's read, and equals the map's exactly for 1 to 127 registers;
        a reply too long for its length field leaves bytes over. */
    method Transact(server: Server, fc: Byte, start: U16, qty: U16) returns (r: Option<Reply>)
      requires conn.toServer == [] && (fc == READ_HOLDING || fc == READ_INPUT)
      modifies conn, server`holding
      ensures server.View() == old(server.View()) && conn.toServer == []
      ensures var op := if fc == READ_HOLDING then ReadHolding(start, qty) else ReadInput(start, qty);
              Decoded(op, old(conn.toClient) + Frame(0, 1, 1, ReadAnswer(server.View(), op)), r, conn.toClient)
      ensures old(conn.toClient) == [] ==>
                && r == Some(WireRead(if fc == READ_HOLDING then server.holding else server.input, start, qty))
                && (r == Some(Registers(Slice(if fc == READ_HOLDING then server.holding else server.input, start, qty))) <==> 1 <= qty <= 127)
                && (qty <= 32766 ==> conn.toClient == [])
    {
      hide Serve, Slice, ReadReply, Frame, TakeFrame, OverWire;
      ghost var op := if fc == READ_HOLDING then ReadHolding(start, qty) else ReadInput(start, qty);
      ghost var regs := server.View();
      ReadPasses(regs, op);
      ReadOverWire(regs, op);
      WireExact(regs, op);
      ghost var back := Frame(0, 1, 1, ReadAnswer(regs, op));
      assert [] + back == back;
      var resp := Exchange(server, Request(fc, start, qty));
      if resp.None? {
        return None;
      }
      if |resp.value| < 3 || resp.value[0] != fc {
        return Some(Failed);
      }
      var vals := DecodeLoop(resp.value);
      r := Some(vals);
    }

    /** WriteRegister: acknowledged unless bytes left over are taken for the answer. */
    method WriteRegister(server: Server, addr: U16, val: U16) returns (r: Option<Reply>)
      requires conn.toServer == []
      modifies conn, server`holding
      ensures conn.toServer == [] && server.View() == Plain(old(server.View()), Write(addr, val)).0
      ensures Decoded(Write(addr, val), old(conn.toClient) + Frame(0, 1, 1, RequestFor(Write(addr, val))), r, conn.toClient)
      ensures old(conn.toClient) == [] ==> r == Some(Registers([])) && conn.toClient == []
    {
      var pdu := Request(WRITE_SINGLE, addr, val);
      TakeWhole(0, 1, 1, pdu);
      RequestParses(WRITE_SINGLE, addr, val);
      assert [] + Frame(0, 1, 1, pdu) == Frame(0, 1, 1, pdu);
      var resp := Exchange(server, pdu);
      if resp.None? {
        return None;
      }
      r := Some(if |resp.value| < 5 || resp.value[0] != WRITE_SINGLE then Failed else Registers([]));
    }
  }
}
