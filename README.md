# GPU device state machine, in Dafny

This project models `gpu_device.c`, a small simulation of a GPU that moves
through a four-state lifecycle: waiting for a command, processing the
command, executing the task, and having completed it. A `GpuDevice` record
holds one field, `current_state`. `initGpuDevice` sets it to
`WAITING_FOR_COMMAND`. Four transition procedures each advance it one step
around the cycle, and only from their own source state. Called from any
other state, a procedure does nothing and reports nothing. `isValidState`
checks that the field holds one of the four enumerators.

Two files:

- `gpu_state.dfy` (module `GpuLifecycle`) holds the values. It defines the
  enumerators (`GpuState`), the integer codes C stores for them (`Code`,
  `Decode`), one guarded step per procedure on the raw field (`Step`), runs
  of many steps (`Run`), and the lemmas about all of these. An independent
  transition table over enumerators (`Next`, built from `Succ` and
  `EnabledOp`) serves as the reference definition that `Step` is proved
  against.
- `gpu_device.dfy` (module `Device`) holds the record as a class
  `GpuDevice` with a mutable field `currentState`. `Init` models
  `initGpuDevice`. The four transition methods each change only that field.
  Each one is proved to perform exactly `Step` on the old value, and its
  contract also states the move and the no-op outright. `IsValidState` is
  the validity check. Two client methods derive the lifecycle scenarios
  from these contracts alone.

The field is a raw `int`, not the closed enumeration, and this is
deliberate. In C an enum-typed field can hold integers other than the four
enumerators, so `isValidState` can be false for a corrupted record. With an
`int` field
that case is real in the model. The transitions accept any field value, as
the C procedures do. The lemmas show two things: a valid field stays valid,
and a corrupted field is left untouched by every transition. Only `Init`
repairs it. The codes are 0 to 3 in declaration order, which is how C
numbers enumerators that have no initialiser. Only `Code` writes these
numbers down; every other definition and proof refers to a state's value
through `Code`, so the proofs use only that the four codes are distinct.

The states keep the C enumerator names. The procedures return nothing, as
the C functions return `void`.

## Model

| member | source | states |
|---|---|---|
| GpuLifecycle.Code | gpu_device.c:13-18 | every enumerator is stored as one of the four codes 0..3 |
| GpuLifecycle.Decode | gpu_device.c:13-18 | a raw field value decodes to an enumerator whose code it is, or to `None` exactly when no enumerator has that code |
| GpuLifecycle.CodeInjective | gpu_device.c:13-18 | two enumerators have the same code if and only if they are the same enumerator |
| GpuLifecycle.DecodeCode | gpu_device.c:13-18 | decoding an enumerator's code gives back that enumerator |
| GpuLifecycle.IsValidCode | gpu_device.c:80-85 | the validity check on a raw field value: it holds if and only if some enumerator has that value as its code |
| GpuLifecycle.Step | gpu_device.c:39-73 | one guarded transition procedure on the raw field; its result is either the old value or the transition's target code (`StepMovesIffGuard`, `StepMatchesNext`, `StepIdempotent`, `StepPreservesValid` and `StepIgnoresInvalid` give its full meaning) |
| GpuLifecycle.Run | gpu_device.c:39-73 | a sequence of transition calls made one after another; its result is the starting value or one of the four valid codes (`RunAppend`, `RunPreservesValid`, `RunIgnoresInvalid` and `ReachableIffValid` state what runs do) |
| GpuLifecycle.StepMatchesNext | gpu_device.c:39-73 | on the code of any state, each guarded procedure agrees with the transition table: the one enabled transition moves to the successor state, and the others leave the state alone |
| GpuLifecycle.StepMovesIffGuard | gpu_device.c:39-73 | a transition changes the field if and only if the field holds that transition's source state, and then it writes the target state |
| GpuLifecycle.ExactlyOneEnabled | gpu_device.c:39-73 | in every state exactly one of the four transitions has an effect, and it moves the device to the next state in the cycle |
| GpuLifecycle.StepIdempotent | gpu_device.c:40-41 | calling any transition twice in a row has the same effect as calling it once, whatever the field holds (the same holds for lines 50-51, 60-61 and 70-71) |
| GpuLifecycle.StepPreservesValid | gpu_device.c:39-85 | a transition applied to a valid field leaves it valid |
| GpuLifecycle.StepIgnoresInvalid | gpu_device.c:39-85 | a transition applied to a field that holds no enumerator leaves it exactly as it was |
| GpuLifecycle.RunPreservesValid | gpu_device.c:39-85 | any sequence of transitions applied to a valid field leaves it valid |
| GpuLifecycle.RunIgnoresInvalid | gpu_device.c:39-85 | no sequence of transitions changes a corrupted field |
| GpuLifecycle.RunAppend | gpu_device.c:39-73 | running two sequences of transitions one after the other is the same as running their concatenation |
| GpuLifecycle.FullCycle | gpu_device.c:31-73 | from the initial state, receive, process, complete and reset lead back to `WAITING_FOR_COMMAND` |
| GpuLifecycle.CyclesReturnToInitial | gpu_device.c:31-73 | any number of full cycles from the initial state end in `WAITING_FOR_COMMAND` |
| GpuLifecycle.PathToReaches | gpu_device.c:31-73 | each of the four states is reached from the initial state by the transitions that lead up to it |
| GpuLifecycle.ReachableIffValid | gpu_device.c:31-85 | a field value can be produced by some sequence of transitions after initialisation if and only if it is valid, so the validity check holds in every reachable state and every state is reachable |
| Device.GpuDevice.Init | gpu_device.c:31-33 | after initialisation the field holds `WAITING_FOR_COMMAND` whatever it held before, and the validity check holds |
| Device.GpuDevice.ReceiveCommand | gpu_device.c:39-43 | `WAITING_FOR_COMMAND` becomes `PROCESSING_COMMAND`; every other value is left unchanged; the new value is `Step(Receive, old value)` |
| Device.GpuDevice.ProcessCommand | gpu_device.c:49-53 | `PROCESSING_COMMAND` becomes `EXECUTING_TASK`; every other value is left unchanged; the new value is `Step(Process, old value)` |
| Device.GpuDevice.CompleteTask | gpu_device.c:59-63 | `EXECUTING_TASK` becomes `COMPLETED_TASK`; every other value is left unchanged; the new value is `Step(Complete, old value)` |
| Device.GpuDevice.ResetState | gpu_device.c:69-73 | `COMPLETED_TASK` becomes `WAITING_FOR_COMMAND`; every other value is left unchanged; the new value is `Step(Reset, old value)` |
| Device.GpuDevice.IsValidState | gpu_device.c:80-85 | the check holds if and only if the field decodes to an enumerator, that is, if and only if some enumerator has the field's value as its code |
| Device.Scenarios | gpu_device.c:31-73 | its assertions show that after initialisation, processing before receiving does nothing; receiving twice, or completing twice, has no further effect; its ensures give the end of the full cycle, `WAITING_FOR_COMMAND` with the validity check holding |
| Device.CorruptionScenario | gpu_device.c:39-85 | its assertions show that a field holding a non-enumerator value fails the validity check and survives all four transitions unchanged; its ensures give the repair by initialisation |

## Left out

- The `stdbool.h` and `string.h` headers (gpu_device.c:7-8) carry no logic, and nothing from `string.h` is used.
- Pointers: a NULL `GpuDevice *`, aliasing and memory layout are not modelled. A procedure acts on a `GpuDevice` object reference, which Dafny never lets be null here.
- The enumerators' integer values are fixed at C's default numbering 0 to 3, written only in `Code`.
- The field's integer width: in C an enum field holds a value of the enum's implementation-defined compatible integer type, while the model's `int` is unbounded. The code only compares and assigns enumerator values, so nothing it does depends on the width.
- No transition returns a success flag, because the C procedures return `void`.
- There is no timing, hardware access or concurrent use of one device, since none exists in the code.
