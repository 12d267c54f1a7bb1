/** The earlier command set (gateway/commands.py): each command binds one
    `Coils` object, which already carries its coil list (the constructor
    parameter is annotated `list` but receives a `Coils`). An IOError raised
    by the device propagates out of `execute`. */
module LegacyCommands {
  import opened Modbus
  import opened CoilMap
  import opened SharedCoils

  datatype Command =
    | NoOp
    | CoilsOnCmd(coils: Coils)
    | CoilsOffCmd(coils: Coils)

  /** Everything executing the command may change: the shared coil list and
      the instrument of the bound object. */
  function Targets(cmd: Command): set<object> {
    if cmd.NoOp? then {} else {cmd.coils.coilStates, cmd.coils.instrument}
  }

  /** The bound object's coils all index the shared list. This depends only
      on constant fields, so no write can falsify it. */
  predicate Ready(cmd: Command) {
    cmd.NoOp? || InRange(cmd.coils.coils, cmd.coils.coilStates.Length)
  }

  /** `execute`: the effect of `coils_on()` / `coils_off()` on the bound
      object; `raised` is true when the device raised IOError. */
  method Execute(cmd: Command) returns (raised: bool)
    requires Ready(cmd)
    modifies Targets(cmd)
    ensures cmd.NoOp? ==> !raised
    ensures !cmd.NoOp? ==>
      var c := cmd.coils;
      && c.coilStates[..] == Candidate(old(c.coilStates[..]), c.coils, if cmd.CoilsOnCmd? then ON else OFF)
      && |c.instrument.trace| == |old(c.instrument.trace)| + 1
      && c.instrument.trace == old(c.instrument.trace)
           + [Exchange(IssuedRequest(c.coils, c.coilStates[..]), c.instrument.trace[|old(c.instrument.trace)|].reply)]
      && IsWriteReply(c.instrument.trace[|old(c.instrument.trace)|].reply)
      && (raised <==> c.instrument.trace[|old(c.instrument.trace)|].reply == Failed)
  {
    match cmd
    case NoOp =>
      raised := false;
    case CoilsOnCmd(coils) =>
      var reply := coils.CoilsOn();
      raised := reply == Failed;
    case CoilsOffCmd(coils) =>
      var reply := coils.CoilsOff();
      raised := reply == Failed;
  }
}
