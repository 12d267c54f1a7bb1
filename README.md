# MODBUS gateway coil controller: a Dafny model

This project models the core of a MODBUS RTU gateway. Each field device has a
controller that keeps a shadow cache of the device's coils. The controller
turns "coils on" and "coils off" requests into MODBUS function codes, reads
the coils back to validate the cache, and receives its requests as commands
that an invoker runs in FIFO order. The repository holds three revisions of
the controller, and the model covers all three:

- `Controller.Plcs` is the current revision. It has `num_coils` coils, all
  OFF at start. A write builds the new vector in a copy and commits the copy
  only if the device did not raise IOError. A validation reads every coil
  back (function code 0x01) and compares the result with the cache. A failed
  read yields a vector of `-1` sentinels.
- `LegacyController.Plcs` is the earlier revision. It has four coils and
  stores the sorted coil list in a field. It updates the cache in place
  before calling the device and has no failure handling.
- `SharedCoils.Coils` is the oldest revision. Its cache is a class attribute,
  so every `Coils` object shares one list. In the model every constructor
  takes that list as a four-coil array; callers pass the one array
  `ClassCoilStates` returns.

A write to exactly one coil uses Write Single Coil (0x05, section 6.5 of the
MODBUS Application Protocol Specification v1.1b3). Any other list length uses
Write Multiple Coils (0x0F, section 6.11), sent from address 0 with the whole
merged vector. That rule is shared by every revision, so it lives in `CoilMap`
with the merged vector (`Candidate`) and Python's `sorted` (`Sort`).

The instrument (`Modbus.Instrument`) is an abstract device. It records each
request and its reply in a ghost trace. The device itself decides whether a
write succeeds (`Done`) or raises IOError (`Failed`), and what a read
returns. Commands (`Commands`, `LegacyCommands`) are immutable datatypes whose
`Execute` forwards to one controller method. `Execution` runs one queued
command of either command set and records, in a ghost `Step`, the cache and
trace of the controller it acts on just before and just after, with the
effect that command must have. `Invoker.Invoker` holds the queue as a `seq`
and drains it in a loop, keeping a ghost log of those steps. `RandomCoil.GenCoilList` models the
test drivers' random coil-list generator.

The code does not reject duplicate or out-of-range addresses before calling
the device. Duplicates are written like any other list (for example
`[0, 0, 0, 0]` becomes a block write). Out-of-range indices raise IndexError,
which the model turns into a precondition. A failed validation read is
reported as "invalid", not as a separate "unknown" outcome.

## Model

| member | source | states |
|---|---|---|
| Modbus.Instrument.WriteBit | gateway/gateway/plcs.py:33 | one WriteBit request joins the trace; the reply is Done, or Failed for IOError |
| Modbus.Instrument.WriteBits | gateway/gateway/plcs.py:37 | one WriteBits request joins the trace; the reply is Done, or Failed for IOError |
| Modbus.Instrument.ReadBits | gateway/gateway/plcs.py:48 | one ReadBits request joins the trace; the reply is Failed, or exactly `count` OFF/ON values |
| CoilMap.Candidate | gateway/gateway/plcs.py:26-29 | the merged vector has the cache's length; each listed index holds `state` and every other index keeps the cache's value |
| CoilMap.CandidateSameMembers | gateway/gateway/plcs.py:27-28 | two lists with the same members give the same vector, so duplicates and ordering are harmless |
| CoilMap.CandidateIsBits | gateway/gateway/plcs.py:27-28 | writing OFF or ON into an OFF/ON cache keeps it OFF/ON |
| CoilMap.IssuedRequest | gateway/gateway/plcs.py:31-38 | the chosen request has function code 0x05 iff the list has exactly one entry, and 0x0F otherwise |
| CoilMap.SelectionRule | gateway/gateway/plcs.py:31-38 | for one address, the request is `write_bit(coils[0], state)`; for any other length, including empty and repeated lists, it is `write_bits(0, v)` where v is the old cache with exactly the listed coils overridden |
| CoilMap.Insert | gateway/plcs.py:16 | inserting into an ordered list keeps it ordered and adds exactly that element |
| CoilMap.Sort | gateway/plcs.py:16 | `sorted(coils)` is ordered and a permutation of its argument |
| CoilMap.SortSameMembers | gateway/coil.py:14 | sorting keeps the length, the members and the in-range property of a coil list |
| Controller.FailedReadNeverMatches | gateway/gateway/plcs.py:53-58 | the sentinel vector equals an OFF/ON cache only when there are no coils |
| Controller.Plcs.constructor | gateway/gateway/plcs.py:11-14 | the new cache has length `num_coils` and every entry is OFF |
| Controller.Plcs.CoilsOn | gateway/gateway/plcs.py:16-18 | the effect is exactly that of a write of ON to the listed coils |
| Controller.Plcs.CoilsOff | gateway/gateway/plcs.py:20-22 | the effect is exactly that of a write of OFF to the listed coils |
| Controller.Plcs.WriteCoilStates | gateway/gateway/plcs.py:24-42 | exactly one request goes to the device, the one the selection rule picks; on IOError the cache equals its old value; on success it becomes the merged vector; its length stays `num_coils` |
| Controller.Plcs.ReadCoilStates | gateway/gateway/plcs.py:44-53 | exactly one read of `len(coil_states)` bits from address 0 is sent; the result is the bits read or the -1 sentinel; the cache is unchanged |
| Controller.Plcs.ValidateCoils | gateway/gateway/plcs.py:55-61 | the cache is unchanged and one read is sent; the verdict is "valid" iff the read succeeded and equals the cache, so a failed read is "invalid" whenever there is at least one coil |
| Controller.FailedWriteNotCached | gateway/gateway/plcs.py:39-42 | switching coil 1 on from a fresh cache sends `write_bit(1, ON)`; the cache shows coil 1 ON only if the device accepted the write |
| Controller.SeparateCaches | gateway/gateway/plcs.py:14 | each controller has its own cache, so a block write to a second instrument carries only what was asked of that instrument |
| LegacyController.Plcs.constructor | gateway/plcs.py:9-12 | the cache is `[OFF, OFF, OFF, OFF]` and `coils` is empty; the `coils` argument is ignored |
| LegacyController.Plcs.CoilsOn | gateway/plcs.py:14-17 | `coils` becomes `sorted(coils)`; the cache gets ON at exactly the listed coils; the selected request is sent and its reply is Done or Failed (IOError) |
| LegacyController.Plcs.CoilsOff | gateway/plcs.py:19-22 | `coils` becomes `sorted(coils)`; the cache gets OFF at exactly the listed coils; the selected request is sent and its reply is Done or Failed (IOError) |
| LegacyController.Plcs.WriteCoilStates | gateway/plcs.py:28-41 | the cache is updated in place and keeps the new values whatever the device replies; the request is `write_bit` for one coil and otherwise `write_bits(0, cache)`; its reply is Done or Failed (IOError) |
| LegacyController.Plcs.GetStates | gateway/plcs.py:24-26 | same as `read_coil_states`: one read of four bits from address 0; the cache is unchanged |
| LegacyController.Plcs.ReadCoilStates | gateway/plcs.py:43-48 | one read of four bits from address 0; the cache is unchanged and an IOError propagates |
| LegacyController.Plcs.Validate | gateway/plcs.py:50-56 | the cache is unchanged; one read of four bits is sent; the outcome is `Raised` if the read raised IOError, otherwise `Checked` with whether the bits read equal the cache |
| LegacyController.FailedWriteStillCached | gateway/plcs.py:28-41 | switching coil 1 on from a fresh cache leaves the cache at `[OFF, ON, OFF, OFF]` whatever the device replied |
| SharedCoils.ClassCoilStates | gateway/coil.py:10 | the class attribute is one fresh list `[OFF, OFF, OFF, OFF]` |
| SharedCoils.Coils.constructor | gateway/coil.py:12-14 | given the four-coil shared list, the object refers to it and stores `sorted(coils)` |
| SharedCoils.Coils.CoilsOn | gateway/coil.py:16-18 | the shared list gets ON at exactly the object's coils; the selected request is sent and its reply is Done or Failed (IOError) |
| SharedCoils.Coils.CoilsOff | gateway/coil.py:20-22 | the shared list gets OFF at exactly the object's coils; the selected request is sent and its reply is Done or Failed (IOError) |
| SharedCoils.Coils.WriteCoilStates | gateway/coil.py:24-37 | the shared list is updated in place (its length stays 4); the request is `write_bit` for one coil and otherwise `write_bits(0, shared list)`; its reply is Done or Failed (IOError) |
| SharedCoils.SharedCacheLeaks | gateway/coil.py:10 | a write through one object is seen by another object on a different instrument; its block write carries coil 0 ON although nothing was asked of coil 0 there |
| Commands.Execute | gateway/gateway/commands.py:4-32 | the base command changes nothing; `CoilsOnCmd` and `CoilsOffCmd` have exactly the effect of `coils_on` and `coils_off` on the bound controller; `ValidateCmd` leaves the cache unchanged and sends one read |
| LegacyCommands.Execute | gateway/commands.py:3-21 | the base command changes nothing and does not raise; the two coil commands have exactly the effect of `coils_on()` and `coils_off()` on the bound `Coils` object and raise iff the device did |
| Execution.Run | gateway/invoker.py:14-15 | runs one command of either command set and returns the step it took: the base command changes nothing; `CoilsOnCmd`/`CoilsOffCmd` have exactly a controller write's effect (one selected request; the cache becomes the merged vector iff the device accepted it); `ValidateCmd` leaves the cache unchanged and sends one read of `num_coils` bits; a legacy coil command merges the cache first, sends one write and raises iff the device failed; only a legacy command can raise |
| Invoker.Invoker.constructor | gateway/invoker.py:6-7 | a new invoker has an empty queue and has executed nothing |
| Invoker.Invoker.SetCommand | gateway/invoker.py:9-10 | the command is appended at the tail, earlier entries stay in place, and nothing is executed |
| Invoker.Invoker.Invoke | gateway/invoker.py:12-15 | the executed commands are a prefix of the queue, in queue order, each exactly once, and are removed from it; if none raised, the queue is empty; if one raised, it is the last one run and the rest stays queued; every step has its command's effect (as in `Execution.Run`), the first starts from the state at the call, the last leaves the current state, and a step on the same controller as the one before starts where that one ended |
| Invoker.Drain | gateway/invoker.py:13-15 | the loop of `invoke` over the queue's contents, with the same guarantees as `Invoke` stated on the queue value and the log |
| Invoker.RunHead | gateway/invoker.py:14-15 | one turn of the loop: the head is removed and run, and its step, with its command's effect, extends the log without breaking the chain |
| Invoker.QueueScenario | gateway/invoker.py:9-10 | three `set_command` calls on a fresh invoker queue the three commands in call order and run nothing |
| Invoker.FreshCoilsHandOn | main.py:21-27 | two `Coils` objects built for consecutive commands on the same instrument share the class list, so the second command starts from the list and trace the first one left |
| Invoker.AllOffStep | gateway/gateway/plcs.py:24-42 | switching `[0, 0, 0, 0]` off on an all-OFF cache sends `write_bits(0, [OFF, OFF, OFF, OFF])` and leaves the cache all OFF whatever the reply |
| Invoker.CoilsOneTwoOnStep | gateway/gateway/plcs.py:24-42 | switching coils 1 and 2 on from an all-OFF cache sends `write_bits(0, [OFF, ON, ON, OFF])`; the cache shows them ON iff the device accepted it |
| Invoker.DrainSteps | gateway/invoker.py:12-15 | a chained log of the three scenario commands appends exactly the two block writes and the read, in that order, to the device trace, and ends with coils 1 and 2 ON iff the second write was accepted |
| Invoker.QueueThenDrain | gateway/invoker.py:9-15 | three `set_command` calls and one `invoke` execute all three commands in order and leave the queue empty; the device receives, in order, `write_bits(0, [OFF, OFF, OFF, OFF])`, `write_bits(0, [OFF, ON, ON, OFF])` and a read of four bits, and the cache shows coils 1 and 2 ON iff the second write was accepted |
| RandomCoil.GenCoilList | gateway/randomcoil.py:4-12 | for `max_coils >= 1`, the list has length 1 to `max_coils`, every element is in `0..max_coils-1` (the controller's range precondition), and there are no repeats |
| RandomCoil.UnusedCoilExists | randomcoil.py:6-10 | while the list is shorter than `max_coils`, an unused address in range exists, so each outer iteration can add one new element |

## Left out

- Timer set and reset (`TimerSetCmd`, `ResetTimersCmd`, the register snapshots and undo) are used by the MQTT client and a register test. No file shown defines them, so they are not part of this model.
- The MQTT client (topic dispatch, TLS, subscription, JSON payload decoding) and the message-to-command router are not part of this model.
- The internals of `minimalmodbus` are not modelled: RTU framing, CRC, the serial settings and the `functioncode` keyword arguments. The instrument is an abstract device, and each request kind stands for its function code.
- The thread safety of `queue.Queue` is not modelled. The queue is a sequential `seq`.
- The hardware driver scripts and their infinite loops and sleeps (main.py, modbus_test.py, the gateway test scripts, smoke_test.py) are not modelled. `Invoker.QueueThenDrain` stands for the sequence of gateway/modbus_coil_test.py:30-44, with the three commands queued before one `invoke` where the driver invokes after each. `Invoker.FreshCoilsHandOn` stands for main.py:21-27. `SharedCoils.SharedCacheLeaks`, `Controller.SeparateCaches`, `Controller.FailedWriteNotCached` and `LegacyController.FailedWriteStillCached` are the scenarios of the "## Findings" rows, which no driver runs: every driver attaches exactly one instrument.
- Logging is not modelled. The one logged outcome that matters, the validation verdict, is returned as a value.
- Python negative indexing and the IndexError for out-of-range coils are not modelled. All three controllers require in-range coil addresses instead.
- A negative `num_coils` is not modelled. `Controller.Plcs` takes a `nat`.
- Controller.Plcs.constructor: the default `num_coils=4` (gateway/gateway/plcs.py:11) is not modelled. Callers pass the count; every scenario here passes 4.
- Termination of the retry loop in `gen_coillist` is not modelled, because it only terminates with probability 1. The loop is one nondeterministic choice of an unused address in range. Both `random.randint` draws are nondeterministic choices.
- randomcoil.py repeats `gen_coillist` from gateway/randomcoil.py. `RandomCoil.GenCoilList` models both copies. The module-level `print` of randomcoil.py is dropped.
- Invoker.Invoker.Invoke: hands the state on only between consecutive steps on the same state: the same controller, or two `Coils` objects on the same shared list and instrument. Across a step on another controller or instrument the model does not state that the first one's state is unchanged, because two controllers may share an instrument; such a step's `after` is tied to the heap only when it is the last step.
- Invoker.Drain: has the same limit as `Invoker.Invoker.Invoke`, whose loop it is.
- Commands.Execute: a command binds its coil list as a value, while the source binds the caller's list object (gateway/gateway/commands.py:12,21), so a caller that changed that list between `set_command` and `invoke` would change what runs. No caller in the repository does this.
- Invoker.QueueThenDrain: uses coil commands where gateway/modbus_register_test.py:29-34 queues timer commands, because the timer commands are not part of this model.

## Findings

| source | as written | input that shows it | evidently intended | confidence | as-written member | corrected member |
|---|---|---|---|---|---|---|
| gateway/plcs.py:30-40 | the cache is updated in place before the device write, so after a write that raises IOError the cache shows a state the device refused; gateway/coil.py:26-36 does the same | `coils_on([1])` on a fresh `Plcs` whose instrument raises IOError: the cache becomes `[0, 1, 0, 0]` while the device was not changed | update the cache only after the write succeeds, as the current revision does at gateway/gateway/plcs.py:39-42 | not executed; high: the later revision makes exactly this change | LegacyController.FailedWriteStillCached | Controller.FailedWriteNotCached |
| gateway/coil.py:10 | `coil_states` is a class attribute, so every `Coils` object shares one cache, even objects attached to different instruments | `Coils(i1, [0]).coils_on()` then `Coils(i2, [1, 2]).coils_on()`: `i2` receives `write_bits(0, [1, 1, 1, 0])`, switching on its coil 0 | one cache per instrument, as the current revision keeps in an instance field at gateway/gateway/plcs.py:14 | not executed; medium: the repository's drivers attach only one instrument | SharedCoils.SharedCacheLeaks | Controller.SeparateCaches |
