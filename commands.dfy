/** The current command set (gateway/gateway/commands.py). A command binds a
    controller and its arguments when it is built and never changes; its
    `execute` forwards to one controller method. The base `Command` is the
    no-op. */
module Commands {
  import opened Modbus
  import opened CoilMap
  import opened Controller

  datatype Command =
    | NoOp
    | CoilsOnCmd(plc: Plcs, coilList: seq<int>)
    | CoilsOffCmd(plc: Plcs, coilList: seq<int>)
    | ValidateCmd(plc: Plcs)

  /** The controller a command reads; its state is what `Ready` depends on. */
  function Owner(cmd: Command): set<object> {
    if cmd.NoOp? then {} else {cmd.plc}
  }

  /** Everything executing the command may change: the bound controller and
      its instrument. */
  function Targets(cmd: Command): set<object> {
    if cmd.NoOp? then {} else {cmd.plc, cmd.plc.instrument}
  }

  /** The command can run: its controller's cache is well formed and every
      listed coil is one of the controller's coils. */
  ghost predicate Ready(cmd: Command)
    reads Owner(cmd)
  {
    match cmd
    case NoOp => true
    case CoilsOnCmd(plc, coilList) => plc.Valid() && InRange(coilList, plc.numCoils)
    case CoilsOffCmd(plc, coilList) => plc.Valid() && InRange(coilList, plc.numCoils)
    case ValidateCmd(plc) => plc.Valid()
  }

  /** `execute`: exactly the effect of the controller method the command
      forwards to, and nothing else. */
  method Execute(cmd: Command)
    requires Ready(cmd)
    modifies Targets(cmd)
    ensures Ready(cmd)
    ensures cmd.CoilsOnCmd? ==>
      WriteEffect(old(cmd.plc.coilStates), old(cmd.plc.instrument.trace),
                  cmd.plc.coilStates, cmd.plc.instrument.trace, cmd.coilList, ON)
    ensures cmd.CoilsOffCmd? ==>
      WriteEffect(old(cmd.plc.coilStates), old(cmd.plc.instrument.trace),
                  cmd.plc.coilStates, cmd.plc.instrument.trace, cmd.coilList, OFF)
    ensures cmd.ValidateCmd? ==>
      && cmd.plc.coilStates == old(cmd.plc.coilStates)
      && ReadEffect(old(cmd.plc.instrument.trace), cmd.plc.instrument.trace, cmd.plc.numCoils)
  {
    match cmd
    case NoOp =>
    case CoilsOnCmd(plc, coilList) =>
      plc.CoilsOn(coilList);
    case CoilsOffCmd(plc, coilList) =>
      plc.CoilsOff(coilList);
    case ValidateCmd(plc) =>
      var _ := plc.ValidateCoils();
  }
}
