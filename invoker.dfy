/** The invoker (gateway/invoker.py): a FIFO of commands and a loop that pops
    and executes them one at a time until the queue is empty. Python's duck
    typing lets the same invoker run commands of either command set, so a
    queued command is one of the two. The ghost `executed` log records every
    command as it is executed, together with the state of the controller it
    acts on just before and just after, seen as plain values. */
module Invoker {
  import opened Modbus
  import opened CoilMap
  import Controller
  import Commands
  import LegacyCommands
  import SharedCoils
  import opened Execution

  class Invoker {
    var queue: seq<QueuedCommand>
    ghost var executed: seq<Step>

    constructor ()
      ensures queue == [] && executed == []
    {
      queue := [];
      executed := [];
    }

    /** `set_command`: appends at the tail and runs nothing. */
    method SetCommand(cmd: QueuedCommand)
      modifies this
      ensures queue == old(queue) + [cmd]
      ensures executed == old(executed)
    {
      queue := queue + [cmd];
    }

    /** `invoke`: pops and executes the head until the queue is empty. The
        commands run are a prefix of the queue, in queue order, each exactly
        once, and they stay removed; if none raised, the whole queue ran and
        is now empty. An exception stops the loop right after the command
        that raised it and leaves the rest queued. Each step has the effect
        of its command; the first starts from the state `invoke` was called
        in, the last leaves the current state, and consecutive steps on the
        same subject hand the state on from one to the next. */
    method Invoke() returns (raised: bool)
      requires forall i :: 0 <= i < |queue| ==> Ready(queue[i])
      modifies this, Footprint(queue)
      ensures |old(executed)| <= |executed|
      ensures executed[..|old(executed)|] == old(executed)
      ensures old(queue) == CommandsOf(executed[|old(executed)|..]) + queue
      ensures !raised ==> queue == []
      ensures raised ==> |executed| > |old(executed)| && executed[|executed| - 1].raised
      ensures Chained(executed, |old(executed)|)
      ensures |executed| > |old(executed)| ==>
        var first := executed[|old(executed)|];
        first.before == old(Observe(SubjectOf(first.command)))
      ensures |executed| > |old(executed)| ==>
        var last := executed[|executed| - 1];
        last.after == Observe(SubjectOf(last.command))
      ensures forall i :: 0 <= i < |queue| ==> Ready(queue[i])
    {
      var rest;
      ghost var log;
      rest, raised, log := Drain(queue, executed);
      queue, executed := rest, log;
    }
  }

  /** The loop of `invoke` on the queue's contents: a fresh chain of steps
      is appended to `log`. */
  method Drain(queue: seq<QueuedCommand>, ghost log: seq<Step>)
      returns (rest: seq<QueuedCommand>, raised: bool, ghost log': seq<Step>)
    requires forall i :: 0 <= i < |queue| ==> Ready(queue[i])
    modifies Footprint(queue)
    ensures |log| <= |log'| && log'[..|log|] == log
    ensures queue == CommandsOf(log'[|log|..]) + rest
    ensures !raised ==> rest == []
    ensures raised ==> |log'| > |log| && log'[|log'| - 1].raised
    ensures Chained(log', |log|)
    ensures |log'| > |log| ==>
      var first := log'[|log|];
      first.before == old(Observe(SubjectOf(first.command)))
    ensures |log'| > |log| ==>
      var last := log'[|log'| - 1];
      last.after == Observe(SubjectOf(last.command))
    ensures forall i :: 0 <= i < |rest| ==> Ready(rest[i])
  {
    ghost var start := if queue == [] then Snapshot([], []) else Observe(SubjectOf(queue[0]));
    rest := queue;
    log' := log;
    raised := false;
    var k := 0;
    while rest != [] && !raised
      invariant 0 <= k <= |queue| && rest == queue[k..]
      invariant |log'| == |log| + k && log'[..|log|] == log
      invariant forall i :: 0 <= i < k ==> log'[|log| + i].command == queue[i]
      invariant raised ==> k > 0
      invariant k > 0 ==> log'[|log'| - 1].raised == raised
      invariant Chained(log', |log|)
      invariant k == 0 && queue != [] ==> Observe(SubjectOf(queue[0])) == start
      invariant k > 0 ==> log'[|log|].before == start
      invariant k > 0 ==> log'[|log'| - 1].after == Observe(SubjectOf(log'[|log'| - 1].command))
      invariant forall i :: 0 <= i < |rest| ==> Ready(rest[i])
      decreases |rest|
    {
      TargetsInFootprint(queue, k);
      rest, raised, log' := RunHead(rest, log', |log|);
      k := k + 1;
    }
    assert CommandsOf(log'[|log|..]) == queue[..k];
    assert queue == queue[..k] + queue[k..];
  }

  /** One turn of the drain loop: take the head off the queue and execute
      it, logging the step. The log stays chained from `from` on when its
      last step did not raise and left the current state. */
  method RunHead(queue: seq<QueuedCommand>, ghost log: seq<Step>, ghost from: nat)
      returns (rest: seq<QueuedCommand>, raised: bool, ghost log': seq<Step>)
    requires queue != [] && forall i :: 0 <= i < |queue| ==> Ready(queue[i])
    requires Chained(log, from)
    requires |log| > from ==>
      var last := log[|log| - 1];
      !last.raised && last.after == Observe(SubjectOf(last.command))
    modifies Targets(queue[0])
    ensures rest == queue[1..]
    ensures log' == log +
      [Step(queue[0], old(Observe(SubjectOf(queue[0]))), Observe(SubjectOf(queue[0])), raised)]
    ensures Chained(log', from)
    ensures forall i :: 0 <= i < |rest| ==> Ready(rest[i])
  {
    ghost var step;
    raised, step := Run(queue[0]);
    rest := queue[1..];
    ChainedExtend(log, from, step);
    log' := log + [step];
  }

  /** The hardware driver's pattern: a new `Coils` object for each command,
      all on the class list and one instrument. In one drain the second
      command starts from the list and trace the first one left. */
  lemma FreshCoilsHandOn(log: seq<Step>, a: SharedCoils.Coils, b: SharedCoils.Coils)
    requires |log| == 2 && Chained(log, 0)
    requires log[0].command == Legacy(LegacyCommands.CoilsOffCmd(a))
    requires log[1].command == Legacy(LegacyCommands.CoilsOnCmd(b))
    requires a.coilStates == b.coilStates && a.instrument == b.instrument
    ensures log[1].before == log[0].after
  {
    assert Linked(log[0], log[1]);
  }

  /** The first step of the test driver's drain: `[0, 0, 0, 0]` is a block
      write, and writing OFF into an all-OFF cache leaves it all OFF
      whatever the device replies. */
  lemma AllOffStep(s0: Snapshot, s1: Snapshot)
    requires s0.cache == [OFF, OFF, OFF, OFF]
    requires Controller.WriteEffect(s0.cache, s0.trace, s1.cache, s1.trace, [0, 0, 0, 0], OFF)
    ensures s1.cache == [OFF, OFF, OFF, OFF]
    ensures s1.trace == s0.trace + [Exchange(WriteBits(0, [OFF, OFF, OFF, OFF]), s1.trace[|s0.trace|].reply)]
  {
    assert Candidate(s0.cache, [0, 0, 0, 0], OFF) == [OFF, OFF, OFF, OFF];
    assert s1.trace == s1.trace[..|s0.trace|] + [s1.trace[|s0.trace|]];
  }

  /** The second step: switching coils 1 and 2 on from an all-OFF cache is
      a block write of `[OFF, ON, ON, OFF]`, cached only if accepted. */
  lemma CoilsOneTwoOnStep(s1: Snapshot, s2: Snapshot)
    requires s1.cache == [OFF, OFF, OFF, OFF]
    requires Controller.WriteEffect(s1.cache, s1.trace, s2.cache, s2.trace, [1, 2], ON)
    ensures s2.trace == s1.trace + [Exchange(WriteBits(0, [OFF, ON, ON, OFF]), s2.trace[|s1.trace|].reply)]
    ensures s2.cache == if s2.trace[|s1.trace|].reply == Done
                        then [OFF, ON, ON, OFF] else [OFF, OFF, OFF, OFF]
  {
    assert Candidate(s1.cache, [1, 2], ON) == [OFF, ON, ON, OFF];
    assert s2.trace == s2.trace[..|s1.trace|] + [s2.trace[|s1.trace|]];
  }

  /** The three steps of the test driver's drain, stated on plain values. */
  lemma DrainSteps(log: seq<Step>, plc: Controller.Plcs, trace0: seq<Exchange>)
    requires |log| == 3 && plc.numCoils == 4 && Chained(log, 0)
    requires log[0].command == Current(Commands.CoilsOffCmd(plc, [0, 0, 0, 0]))
    requires log[1].command == Current(Commands.CoilsOnCmd(plc, [1, 2]))
    requires log[2].command == Current(Commands.ValidateCmd(plc))
    requires log[0].before == Snapshot([OFF, OFF, OFF, OFF], trace0)
    ensures var t := log[2].after.trace;
      && |t| == |trace0| + 3 && t[..|trace0|] == trace0
      && t[|trace0|].request == WriteBits(0, [OFF, OFF, OFF, OFF])
      && t[|trace0| + 1].request == WriteBits(0, [OFF, ON, ON, OFF])
      && t[|trace0| + 2].request == ReadBits(0, 4)
      && log[2].after.cache == if t[|trace0| + 1].reply == Done
                               then [OFF, ON, ON, OFF] else [OFF, OFF, OFF, OFF]
  {
    var s0, s1, s2, s3 := log[0].before, log[0].after, log[1].after, log[2].after;
    assert Effect(log[0]) && Effect(log[1]) && Effect(log[2]);
    assert Linked(log[0], log[1]) && Linked(log[1], log[2]);
    AllOffStep(s0, s1);
    CoilsOneTwoOnStep(s1, s2);
    assert s3.trace == s2.trace + [s3.trace[|s2.trace|]];
  }

  /** The test driver's queueing: a fresh four-coil controller and an
      invoker holding three commands for it, not yet run. */
  method QueueScenario(i: Instrument) returns (inv: Invoker, plc: Controller.Plcs)
    ensures fresh(inv) && fresh(plc) && plc.instrument == i && plc.numCoils == 4
    ensures plc.coilStates == [OFF, OFF, OFF, OFF]
    ensures inv.queue == [
      Current(Commands.CoilsOffCmd(plc, [0, 0, 0, 0])),
      Current(Commands.CoilsOnCmd(plc, [1, 2])),
      Current(Commands.ValidateCmd(plc))]
    ensures inv.executed == []
    ensures forall k :: 0 <= k < |inv.queue| ==> Ready(inv.queue[k])
    ensures Footprint(inv.queue) == {plc, i}
  {
    plc := new Controller.Plcs(i, 4);
    inv := new Invoker();
    inv.SetCommand(Current(Commands.CoilsOffCmd(plc, [0, 0, 0, 0])));
    inv.SetCommand(Current(Commands.CoilsOnCmd(plc, [1, 2])));
    inv.SetCommand(Current(Commands.ValidateCmd(plc)));
    ghost var queued := inv.queue;
    assert Footprint(queued[1..][1..][1..]) == {};
    assert Footprint(queued[1..][1..]) == {plc, plc.instrument};
    assert Footprint(queued[1..]) == {plc, plc.instrument};
    assert plc.coilStates == [OFF, OFF, OFF, OFF];
  }

  /** The test driver's pattern on a fresh four-coil controller: three
      `set_command` calls, then one `invoke`. The three commands run in
      queue order and the queue ends empty. The device receives, in this
      order, a block write of all four coils OFF (a list of four repeated
      addresses is a block write), a block write switching coils 1 and 2 on,
      and a read of the four coils. The cache shows coils 1 and 2 on exactly
      when the device accepted the second write. */
  method QueueThenDrain(i: Instrument) returns (inv: Invoker, plc: Controller.Plcs)
    modifies i
    ensures fresh(inv) && fresh(plc) && plc.instrument == i
    ensures inv.queue == []
    ensures CommandsOf(inv.executed) == [
      Current(Commands.CoilsOffCmd(plc, [0, 0, 0, 0])),
      Current(Commands.CoilsOnCmd(plc, [1, 2])),
      Current(Commands.ValidateCmd(plc))]
    ensures |i.trace| == |old(i.trace)| + 3 && i.trace[..|old(i.trace)|] == old(i.trace)
    ensures i.trace[|old(i.trace)|].request == WriteBits(0, [OFF, OFF, OFF, OFF])
    ensures i.trace[|old(i.trace)| + 1].request == WriteBits(0, [OFF, ON, ON, OFF])
    ensures i.trace[|old(i.trace)| + 2].request == ReadBits(0, 4)
    ensures plc.coilStates == if i.trace[|old(i.trace)| + 1].reply == Done
                              then [OFF, ON, ON, OFF] else [OFF, OFF, OFF, OFF]
  {
    inv, plc := QueueScenario(i);
    ghost var queued := inv.queue;
    ghost var trace0 := i.trace;
    var _ := inv.Invoke();
    ghost var log := inv.executed;
    assert log[0..] == log;
    assert CommandsOf(log) == queued;
    DrainSteps(log, plc, trace0);
  }
}
