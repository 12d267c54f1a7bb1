/** The oldest coil controller (gateway/coil.py). `Coils.coil_states` is a
    class attribute: one list of four coil states shared by every `Coils`
    object, whatever instrument it is attached to. The model makes that list
    one array that every constructor takes; callers pass the one array
    `ClassCoilStates` returns. Each object fixes its (sorted) coil list when it is built; writes set
    the shared list in place before the device is called, and an IOError
    propagates (the `Failed` reply). */
module SharedCoils {
  import opened Modbus
  import opened CoilMap

  /** The class attribute `coil_states = [OFF, OFF, OFF, OFF]`, evaluated
      once when the class is defined. */
  method ClassCoilStates() returns (shared: array<int>)
    ensures fresh(shared) && shared[..] == [OFF, OFF, OFF, OFF]
  {
    shared := new int[4](_ => OFF);
  }

  class Coils {
    const instrument: Instrument
    const coilStates: array<int>
    const coils: seq<int>

    constructor (instrument: Instrument, shared: array<int>, coils: seq<int>)
      requires shared.Length == 4
      ensures this.instrument == instrument && coilStates == shared
      ensures this.coils == Sort(coils)
    {
      this.instrument := instrument;
      coilStates := shared;
      this.coils := Sort(coils);
    }

    method CoilsOn() returns (reply: Reply)
      requires InRange(coils, coilStates.Length)
      modifies coilStates, instrument
      ensures coilStates[..] == Candidate(old(coilStates[..]), coils, ON)
      ensures IsWriteReply(reply)
      ensures instrument.trace == old(instrument.trace) + [Exchange(IssuedRequest(coils, coilStates[..]), reply)]
    {
      reply := WriteCoilStates(ON);
    }

    method CoilsOff() returns (reply: Reply)
      requires InRange(coils, coilStates.Length)
      modifies coilStates, instrument
      ensures coilStates[..] == Candidate(old(coilStates[..]), coils, OFF)
      ensures IsWriteReply(reply)
      ensures instrument.trace == old(instrument.trace) + [Exchange(IssuedRequest(coils, coilStates[..]), reply)]
    {
      reply := WriteCoilStates(OFF);
    }

    /** `write_coil_states`: the shared list is updated in place, then one
        request goes to this object's instrument, carrying for a block write
        the whole shared list. */
    method WriteCoilStates(state: int) returns (reply: Reply)
      requires InRange(coils, coilStates.Length)
      modifies coilStates, instrument
      ensures coilStates[..] == Candidate(old(coilStates[..]), coils, state)
      ensures IsWriteReply(reply)
      ensures instrument.trace == old(instrument.trace) + [Exchange(IssuedRequest(coils, coilStates[..]), reply)]
    {
      for k := 0 to |coils|
        invariant coilStates[..] == Candidate(old(coilStates[..]), coils[..k], state)
        invariant unchanged(instrument)
      {
        assert coils[..k + 1] == coils[..k] + [coils[k]];
        coilStates[coils[k]] := state;
      }
      assert coils[..|coils|] == coils;
      if |coils| == 1 {
        reply := instrument.WriteBit(coils[0], coilStates[coils[0]]);
      } else {
        reply := instrument.WriteBits(0, coilStates[..]);
      }
    }
  }

  /** Two `Coils` objects on different instruments see each other's writes:
      after one switches coil 0 on through instrument `i1`, a block write of
      coils 1 and 2 through the other sends instrument `i2` the vector with
      coil 0 on as well, although nothing was asked of coil 0 on `i2`. */
  method SharedCacheLeaks(i1: Instrument, i2: Instrument)
    requires i1 != i2
    modifies i1, i2
    ensures |i2.trace| == |old(i2.trace)| + 1
    ensures i2.trace[|old(i2.trace)|].request == WriteBits(0, [ON, ON, ON, OFF])
  {
    var shared := ClassCoilStates();
    var a := new Coils(i1, shared, [0]);
    var b := new Coils(i2, shared, [2, 1]);
    LeakLists();
    LeakVectors();
    var _ := a.CoilsOn();
    var _ := b.CoilsOn();
  }

  /** The coil lists of the leak scenario, sorted. */
  lemma LeakLists()
    ensures Sort([0]) == [0] && Sort([2, 1]) == [1, 2]
  {
    assert [2, 1][1..] == [1];
    assert Sort([1]) == [1];
  }

  /** The vectors of the leak scenario: coil 0 on, then coils 1 and 2. */
  lemma LeakVectors()
    ensures Candidate([OFF, OFF, OFF, OFF], [0], ON) == [ON, OFF, OFF, OFF]
    ensures Candidate([ON, OFF, OFF, OFF], [1, 2], ON) == [ON, ON, ON, OFF]
  {
    assert [0][..0] == [] && [1, 2][..1] == [1] && [1][..0] == [];
  }
}
