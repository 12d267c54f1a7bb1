/** Running one queued command of either command set, and what that does
    to the controller the command acts on, stated on plain values. */
module Execution {
  import opened Modbus
  import opened CoilMap
  import Controller
  import SharedCoils
  import Commands
  import LegacyCommands

  datatype QueuedCommand =
    | Current(cmd: Commands.Command)
    | Legacy(legacy: LegacyCommands.Command)

  function Targets(q: QueuedCommand): set<object> {
    match q
    case Current(c) => Commands.Targets(c)
    case Legacy(c) => LegacyCommands.Targets(c)
  }

  function Owner(q: QueuedCommand): set<object> {
    if q.Current? then Commands.Owner(q.cmd) else {}
  }

  ghost predicate Ready(q: QueuedCommand)
    reads Owner(q)
  {
    match q
    case Current(c) => Commands.Ready(c)
    case Legacy(c) => LegacyCommands.Ready(c)
  }

  /** All objects the commands of a queue may change. */
  function Footprint(queue: seq<QueuedCommand>): set<object> {
    if queue == [] then {} else Targets(queue[0]) + Footprint(queue[1..])
  }

  lemma {:induction false} TargetsInFootprint(queue: seq<QueuedCommand>, i: nat)
    requires i < |queue|
    ensures Targets(queue[i]) <= Footprint(queue)
    ensures Footprint(queue[i..]) <= Footprint(queue)
  {
    if i > 0 {
      TargetsInFootprint(queue[1..], i - 1);
      assert queue[1..][i - 1..] == queue[i..];
    }
  }

  /** What a queued command acts on: a current command's controller, a
      legacy command's `Coils` object, or nothing for a no-op. */
  datatype Subject =
    | Nothing
    | OfPlc(plc: Controller.Plcs)
    | OfCoils(coils: SharedCoils.Coils)

  function SubjectOf(q: QueuedCommand): Subject {
    match q
    case Current(c) => if c.NoOp? then Nothing else OfPlc(c.plc)
    case Legacy(c) => if c.NoOp? then Nothing else OfCoils(c.coils)
  }

  function Watched(s: Subject): set<object> {
    match s
    case Nothing => {}
    case OfPlc(plc) => {plc, plc.instrument}
    case OfCoils(c) => {c.coilStates, c.instrument}
  }

  /** A subject's coil cache and device trace, as plain values. */
  datatype Snapshot = Snapshot(cache: seq<int>, trace: seq<Exchange>)

  ghost function Observe(s: Subject): Snapshot
    reads Watched(s)
  {
    match s
    case Nothing => Snapshot([], [])
    case OfPlc(plc) => Snapshot(plc.coilStates, plc.instrument.trace)
    case OfCoils(c) => Snapshot(c.coilStates[..], c.instrument.trace)
  }

  /** One executed command: its subject just before and just after it ran,
      and whether an exception left its `execute`. */
  datatype Step = Step(command: QueuedCommand, before: Snapshot, after: Snapshot, raised: bool)

  /** The effect a step must have, by the command it ran: a no-op changes
      nothing, a current command has the effect of the controller method it
      forwards to and never raises, and a legacy coil command sets the cache
      before the device call and raises exactly when the device failed. */
  ghost predicate Effect(s: Step) {
    match s.command
    case Current(c) => !s.raised && CurrentEffect(c, s.before, s.after)
    case Legacy(c) => LegacyEffect(c, s.before, s.after, s.raised)
  }

  ghost predicate CurrentEffect(c: Commands.Command, before: Snapshot, after: Snapshot) {
    match c
    case NoOp => after == before
    case CoilsOnCmd(_, coils) =>
      InRange(coils, |before.cache|)
      && Controller.WriteEffect(before.cache, before.trace, after.cache, after.trace, coils, ON)
    case CoilsOffCmd(_, coils) =>
      InRange(coils, |before.cache|)
      && Controller.WriteEffect(before.cache, before.trace, after.cache, after.trace, coils, OFF)
    case ValidateCmd(plc) =>
      after.cache == before.cache && Controller.ReadEffect(before.trace, after.trace, plc.numCoils)
  }

  ghost predicate LegacyEffect(c: LegacyCommands.Command, before: Snapshot, after: Snapshot, raised: bool) {
    if c.NoOp? then after == before && !raised
    else
      var state := if c.CoilsOnCmd? then ON else OFF;
      && InRange(c.coils.coils, |before.cache|)
      && after.cache == Candidate(before.cache, c.coils.coils, state)
      && |after.trace| == |before.trace| + 1
      && after.trace[..|before.trace|] == before.trace
      && after.trace[|before.trace|].request == IssuedRequest(c.coils.coils, after.cache)
      && IsWriteReply(after.trace[|before.trace|].reply)
      && (raised <==> after.trace[|before.trace|].reply == Failed)
  }

  /** The steps of `log` from index `from` on form one run of the drain
      loop: each has its command's effect, only the last may have raised,
      and consecutive steps on the same subject hand the state on. */
  ghost predicate Chained(log: seq<Step>, from: nat) {
    && from <= |log|
    && (forall i :: from <= i < |log| ==> Effect(log[i]))
    && (forall i :: from <= i < |log| - 1 ==> Linked(log[i], log[i + 1]))
  }

  /** Two subjects whose snapshots are the same state: the same subject, or
      two `Coils` objects on the same shared list and the same instrument
      (main.py builds a new `Coils` object for every command). */
  predicate SameState(a: Subject, b: Subject) {
    || a == b
    || (&& a.OfCoils? && b.OfCoils?
        && a.coils.coilStates == b.coils.coilStates
        && a.coils.instrument == b.coils.instrument)
  }

  /** `next` may follow `prev` in one drain: `prev` did not raise, and if
      both act on the same state, `next` starts where `prev` left it. */
  ghost predicate Linked(prev: Step, next: Step) {
    && !prev.raised
    && (SameState(SubjectOf(prev.command), SubjectOf(next.command)) ==> prev.after == next.before)
  }

  /** A step that may follow the last one extends a chained log. */
  lemma ChainedExtend(log: seq<Step>, from: nat, step: Step)
    requires Chained(log, from) && Effect(step)
    requires |log| > from ==> Linked(log[|log| - 1], step)
    ensures Chained(log + [step], from)
  {
  }

  /** The commands of a log of steps, in order. */
  function CommandsOf(log: seq<Step>): (r: seq<QueuedCommand>)
    ensures |r| == |log|
    ensures forall i :: 0 <= i < |log| ==> r[i] == log[i].command
  {
    if log == [] then [] else CommandsOf(log[..|log| - 1]) + [log[|log| - 1].command]
  }

  /** Runs one queued command; `raised` is true when an exception leaves
      its `execute`, which only a legacy command's device failure does.
      `step` records the command's subject before and after. */
  method Run(q: QueuedCommand) returns (raised: bool, ghost step: Step)
    requires Ready(q)
    modifies Targets(q)
    ensures Ready(q)
    ensures step == Step(q, old(Observe(SubjectOf(q))), Observe(SubjectOf(q)), raised)
    ensures Effect(step)
  {
    ghost var before := Observe(SubjectOf(q));
    match q {
      case Current(c) =>
        Commands.Execute(c);
        raised := false;
      case Legacy(c) =>
        raised := LegacyCommands.Execute(c);
    }
    step := Step(q, before, Observe(SubjectOf(q)), raised);
  }
}
