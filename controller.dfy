/** The current coil controller (gateway/gateway/plcs.py): a shadow cache of
    the coil states of one instrument. A write builds the new vector in a
    copy and commits it only when the device accepted it; a validation reads
    the coils back and compares them with the cache. */
module Controller {
  import opened Modbus
  import opened CoilMap

  /** What a coil write does to a cache and a device trace: exactly one
      request is sent, the one the selection rule picks for the candidate,
      and the cache becomes the candidate if the device accepted it and
      stays as it was if the device raised IOError. */
  ghost predicate WriteEffect(cache0: seq<int>, trace0: seq<Exchange>,
                              cache1: seq<int>, trace1: seq<Exchange>,
                              coils: seq<int>, state: int)
    requires InRange(coils, |cache0|)
  {
    var candidate := Candidate(cache0, coils, state);
    && |trace1| == |trace0| + 1
    && trace1[..|trace0|] == trace0
    && trace1[|trace0|].request == IssuedRequest(coils, candidate)
    && IsWriteReply(trace1[|trace0|].reply)
    && cache1 == (if trace1[|trace0|].reply == Done then candidate else cache0)
  }

  /** What a read-back does to a device trace: exactly one read of `n`
      coils from address 0 is sent. */
  ghost predicate ReadEffect(trace0: seq<Exchange>, trace1: seq<Exchange>, n: nat) {
    && |trace1| == |trace0| + 1
    && trace1[..|trace0|] == trace0
    && trace1[|trace0|].request == ReadBits(0, n)
    && IsReadReply(trace1[|trace0|].reply, n)
  }

  /** The vector `_read_coil_states` hands back: the bits read, or `n`
      copies of the sentinel -1 when the read raised IOError. */
  function ReadBack(reply: Reply, n: nat): seq<int> {
    if reply.Bits? then reply.bits else seq(n, _ => -1)
  }

  /** A failed read can never pass for a cache of OFF/ON values, unless the
      controller has no coils at all (then both vectors are empty). */
  lemma FailedReadNeverMatches(cache: seq<int>)
    requires IsBits(cache)
    ensures ReadBack(Failed, |cache|) == cache <==> |cache| == 0
  {
    if |cache| > 0 {
      assert ReadBack(Failed, |cache|)[0] != cache[0];
    }
  }

  class Plcs {
    const instrument: Instrument
    const numCoils: nat
    var coilStates: seq<int>

    /** The cache always has one OFF/ON entry per coil. */
    ghost predicate Valid()
      reads this
    {
      |coilStates| == numCoils && IsBits(coilStates)
    }

    constructor (instrument: Instrument, numCoils: nat)
      ensures Valid()
      ensures this.instrument == instrument && this.numCoils == numCoils
      ensures coilStates == seq(numCoils, _ => OFF)
    {
      this.instrument := instrument;
      this.numCoils := numCoils;
      coilStates := seq(numCoils, _ => OFF);
    }

    method CoilsOn(coils: seq<int>)
      requires Valid() && InRange(coils, numCoils)
      modifies this, instrument
      ensures Valid()
      ensures WriteEffect(old(coilStates), old(instrument.trace), coilStates, instrument.trace, coils, ON)
    {
      WriteCoilStates(coils, ON);
    }

    method CoilsOff(coils: seq<int>)
      requires Valid() && InRange(coils, numCoils)
      modifies this, instrument
      ensures Valid()
      ensures WriteEffect(old(coilStates), old(instrument.trace), coilStates, instrument.trace, coils, OFF)
    {
      WriteCoilStates(coils, OFF);
    }

    /** `_write_coil_states`: the copy is updated in list order, one request
        goes to the device, and the copy replaces the cache only if that
        request did not raise. */
    method WriteCoilStates(coils: seq<int>, state: int)
      requires Valid() && InRange(coils, numCoils) && IsBit(state)
      modifies this, instrument
      ensures Valid()
      ensures WriteEffect(old(coilStates), old(instrument.trace), coilStates, instrument.trace, coils, state)
    {
      var candidate := coilStates;
      for k := 0 to |coils|
        invariant candidate == Candidate(coilStates, coils[..k], state)
      {
        assert coils[..k + 1] == coils[..k] + [coils[k]];
        candidate := candidate[coils[k] := state];
      }
      assert coils[..|coils|] == coils;
      CandidateIsBits(coilStates, coils, state);
      var reply;
      if |coils| == 1 {
        reply := instrument.WriteBit(coils[0], candidate[coils[0]]);
      } else {
        reply := instrument.WriteBits(0, candidate);
      }
      if reply == Done {
        coilStates := candidate;
      }
    }

    /** `_read_coil_states`: one read of all cached coils from address 0;
        the sentinel vector if it raised. The cache is not touched. */
    method ReadCoilStates() returns (states: seq<int>)
      requires Valid()
      modifies instrument
      ensures ReadEffect(old(instrument.trace), instrument.trace, numCoils)
      ensures states == ReadBack(instrument.trace[|old(instrument.trace)|].reply, numCoils)
    {
      var reply := instrument.ReadBits(0, |coilStates|);
      states := ReadBack(reply, numCoils);
    }

    /** `validate_coils`: the result is the verdict the source logs, true
        for "valid" and false for "invalid". It is true exactly when the read
        succeeded and returned the cache, so a failed read is always invalid
        on a controller with coils. */
    method ValidateCoils() returns (valid: bool)
      requires Valid()
      modifies instrument
      ensures ReadEffect(old(instrument.trace), instrument.trace, numCoils)
      ensures var reply := instrument.trace[|old(instrument.trace)|].reply;
        valid <==> (reply.Bits? && reply.bits == coilStates) || (reply == Failed && numCoils == 0)
    {
      var states := ReadCoilStates();
      FailedReadNeverMatches(coilStates);
      valid := states == coilStates;
    }
  }

  /** A refused write leaves no trace in the cache: switching coil 1 on
      through a fresh controller caches coil 1 as ON only if the device
      accepted the request. */
  method FailedWriteNotCached(i: Instrument) returns (cache: seq<int>)
    modifies i
    ensures |i.trace| == |old(i.trace)| + 1
    ensures i.trace[|old(i.trace)|].request == WriteBit(1, ON)
    ensures cache == (if i.trace[|old(i.trace)|].reply == Failed
                      then [OFF, OFF, OFF, OFF] else [OFF, ON, OFF, OFF])
  {
    var plc := new Plcs(i, 4);
    assert plc.coilStates == [OFF, OFF, OFF, OFF];
    plc.CoilsOn([1]);
    cache := plc.coilStates;
  }

  /** Each controller has its own cache: a block write of coils 1 and 2 on
      the second instrument carries only what was asked of that
      instrument, whatever was written to the first. */
  method SeparateCaches(i1: Instrument, i2: Instrument)
    requires i1 != i2
    modifies i1, i2
    ensures |i2.trace| == |old(i2.trace)| + 1
    ensures i2.trace[|old(i2.trace)|].request == WriteBits(0, [OFF, ON, ON, OFF])
  {
    var a := new Plcs(i1, 4);
    var b := new Plcs(i2, 4);
    a.CoilsOn([0]);
    b.CoilsOn([2, 1]);
  }
}
