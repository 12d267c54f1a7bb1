/** The MODBUS RTU field device as the controllers see it: an instrument that
    reads a block of coils (function code 0x01), writes one coil (0x05) or
    writes a block of coils (0x0F). Framing, CRC and the serial line are not
    modelled; every call is recorded in a ghost trace together with the reply
    the device gave, and the reply itself is chosen by the device. */
module Modbus {

  /** Coil values as the source writes them. */
  const OFF: int := 0
  const ON: int := 1

  predicate IsBit(v: int) {
    v == OFF || v == ON
  }

  /** Every entry is OFF or ON. */
  predicate IsBits(s: seq<int>) {
    forall i :: 0 <= i < |s| ==> IsBit(s[i])
  }

  /** The requests the controllers issue. */
  datatype Request =
    | ReadBits(start: int, count: nat)
    | WriteBit(address: int, value: int)
    | WriteBits(start: int, values: seq<int>)

  /** `Failed` stands for the IOError the instrument raises on a transport
      fault; `Done` for a write that returned normally. */
  datatype Reply = Done | Bits(bits: seq<int>) | Failed

  datatype Exchange = Exchange(request: Request, reply: Reply)

  /** The MODBUS function code of a request (MODBUS Application Protocol
      v1.1b3, sections 6.1, 6.5 and 6.11). */
  function FunctionCode(r: Request): int {
    match r
    case ReadBits(_, _) => 0x01
    case WriteBit(_, _) => 0x05
    case WriteBits(_, _) => 0x0F
  }

  /** A reply that may come back for a write. */
  predicate IsWriteReply(r: Reply) {
    r == Done || r == Failed
  }

  /** A reply that may come back for a read of `count` coils. */
  predicate IsReadReply(r: Reply, count: nat) {
    r == Failed || (r.Bits? && |r.bits| == count && IsBits(r.bits))
  }

  /** The instrument. Whether a call succeeds, and what a read returns, is up
      to the device: callers know only what the ensures clauses say. */
  class Instrument {
    const address: int
    ghost var trace: seq<Exchange>

    constructor (address: int)
      ensures this.address == address && trace == []
    {
      this.address := address;
      trace := [];
    }

    method WriteBit(coil: int, value: int) returns (reply: Reply)
      modifies this
      ensures IsWriteReply(reply)
      ensures trace == old(trace) + [Exchange(Request.WriteBit(coil, value), reply)]
    {
      reply :| IsWriteReply(reply);
      trace := trace + [Exchange(Request.WriteBit(coil, value), reply)];
    }

    method WriteBits(start: int, values: seq<int>) returns (reply: Reply)
      modifies this
      ensures IsWriteReply(reply)
      ensures trace == old(trace) + [Exchange(Request.WriteBits(start, values), reply)]
    {
      reply :| IsWriteReply(reply);
      trace := trace + [Exchange(Request.WriteBits(start, values), reply)];
    }

    method ReadBits(start: int, count: nat) returns (reply: Reply)
      modifies this
      ensures IsReadReply(reply, count)
      ensures trace == old(trace) + [Exchange(Request.ReadBits(start, count), reply)]
    {
      reply :| IsReadReply(reply, count);
      trace := trace + [Exchange(Request.ReadBits(start, count), reply)];
    }
  }
}
