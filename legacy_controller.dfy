/** The earlier coil controller (gateway/plcs.py): four coils, a cache that
    is updated in place before the device is called, and no failure
    handling: an IOError from the instrument propagates to the caller,
    modelled here by returning the `Failed` reply. */
module LegacyController {
  import opened Modbus
  import opened CoilMap

  const NUM_COILS: nat := 4

  class Plcs {
    const instrument: Instrument
    const coilStates: array<int>
    var coils: seq<int>

    ghost predicate Valid() {
      coilStates.Length == NUM_COILS
    }

    /** The `coils` argument is accepted and ignored, as in the source. */
    constructor (instrument: Instrument, coils: seq<int>)
      ensures Valid() && fresh(coilStates)
      ensures this.instrument == instrument
      ensures coilStates[..] == [OFF, OFF, OFF, OFF] && this.coils == []
    {
      this.instrument := instrument;
      coilStates := new int[NUM_COILS](_ => OFF);
      this.coils := [];
    }

    method CoilsOn(coils: seq<int>) returns (reply: Reply)
      requires Valid() && InRange(coils, NUM_COILS)
      modifies this, coilStates, instrument
      ensures this.coils == Sort(coils)
      ensures coilStates[..] == Candidate(old(coilStates[..]), coils, ON)
      ensures IsWriteReply(reply)
      ensures instrument.trace == old(instrument.trace) + [Exchange(IssuedRequest(Sort(coils), coilStates[..]), reply)]
    {
      this.coils := Sort(coils);
      SortSameMembers(coils, NUM_COILS);
      CandidateSameMembers(coilStates[..], coils, this.coils, ON);
      reply := WriteCoilStates(ON);
    }

    method CoilsOff(coils: seq<int>) returns (reply: Reply)
      requires Valid() && InRange(coils, NUM_COILS)
      modifies this, coilStates, instrument
      ensures this.coils == Sort(coils)
      ensures coilStates[..] == Candidate(old(coilStates[..]), coils, OFF)
      ensures IsWriteReply(reply)
      ensures instrument.trace == old(instrument.trace) + [Exchange(IssuedRequest(Sort(coils), coilStates[..]), reply)]
    {
      this.coils := Sort(coils);
      SortSameMembers(coils, NUM_COILS);
      CandidateSameMembers(coilStates[..], coils, this.coils, OFF);
      reply := WriteCoilStates(OFF);
    }

    /** `write_coil_states`: the listed coils are set in the cache first,
        then one request is sent; the cache keeps the new values whatever
        the device replies. */
    method WriteCoilStates(state: int) returns (reply: Reply)
      requires Valid() && InRange(coils, NUM_COILS)
      modifies coilStates, instrument
      ensures coilStates[..] == Candidate(old(coilStates[..]), coils, state)
      ensures IsWriteReply(reply)
      ensures instrument.trace == old(instrument.trace) + [Exchange(IssuedRequest(coils, coilStates[..]), reply)]
    {
      for k := 0 to |coils|
        invariant coilStates[..] == Candidate(old(coilStates[..]), coils[..k], state)
        invariant unchanged(instrument)
      {
        assert coils[..k + 1] == coils[..k] + [coils[k]];
        coilStates[coils[k]] := state;
      }
      assert coils[..|coils|] == coils;
      if |coils| == 1 {
        reply := instrument.WriteBit(coils[0], coilStates[coils[0]]);
      } else {
        reply := instrument.WriteBits(0, coilStates[..]);
      }
    }

    /** `get_states`: the same read as `read_coil_states`. */
    method GetStates() returns (reply: Reply)
      requires Valid()
      modifies instrument
      ensures IsReadReply(reply, NUM_COILS)
      ensures instrument.trace == old(instrument.trace) + [Exchange(ReadBits(0, NUM_COILS), reply)]
    {
      reply := ReadCoilStates();
    }

    /** `read_coil_states`: one read of all four coils from address 0; the
        cache is not touched and an IOError propagates. */
    method ReadCoilStates() returns (reply: Reply)
      requires Valid()
      modifies instrument
      ensures IsReadReply(reply, NUM_COILS)
      ensures instrument.trace == old(instrument.trace) + [Exchange(ReadBits(0, NUM_COILS), reply)]
    {
      reply := instrument.ReadBits(0, coilStates.Length);
    }

    /** `validate`: `Raised` when the read raised IOError (it propagates);
        otherwise whether the bits read equal the cache, where a mismatch is
        the error the source logs. */
    method Validate() returns (outcome: Outcome)
      requires Valid()
      modifies instrument
      ensures |instrument.trace| == |old(instrument.trace)| + 1
      ensures var reply := instrument.trace[|old(instrument.trace)|].reply;
        && IsReadReply(reply, NUM_COILS)
        && instrument.trace == old(instrument.trace) + [Exchange(ReadBits(0, NUM_COILS), reply)]
        && outcome == (if reply == Failed then Raised else Checked(reply.bits == coilStates[..]))
    {
      var reply := ReadCoilStates();
      if reply == Failed {
        outcome := Raised;
      } else {
        outcome := Checked(reply.bits == coilStates[..]);
      }
    }
  }

  /** How `validate` ends: an IOError left it, or it compared the bits read
      with the cache (`matched` false is the logged error). */
  datatype Outcome = Raised | Checked(matched: bool)

  /** The cache is written before the device is asked: switching coil 1 on
      through a fresh controller caches coil 1 as ON even when the device
      refused the request and raised IOError. */
  method FailedWriteStillCached(i: Instrument) returns (reply: Reply, cache: seq<int>)
    modifies i
    ensures i.trace == old(i.trace) + [Exchange(WriteBit(1, ON), reply)]
    ensures cache == [OFF, ON, OFF, OFF]
  {
    var plc := new Plcs(i, []);
    assert Sort([1]) == [1];
    reply := plc.CoilsOn([1]);
    cache := plc.coilStates[..];
  }
}
