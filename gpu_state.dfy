/** The lifecycle of the simulated GPU as values: the four states, the
    integer codes a C `GpuState` field stores, and one guarded step per
    transition procedure.  The device class in gpu_device.dfy is proved
    against `Step`; the lemmas here hold for any sequence of transitions. */
module GpuLifecycle {

  datatype Option<T> = None | Some(value: T)

  /** The four enumerators of `GpuState`, in declaration order. */
  datatype GpuState = WaitingForCommand | ProcessingCommand | ExecutingTask | CompletedTask

  /** The integer a C enum field holds for each enumerator: C numbers
      enumerators without initialisers 0, 1, 2, 3 in declaration order. */
  function Code(s: GpuState): (c: int)
    ensures 0 <= c < 4
  {
    match s
    case WaitingForCommand => 0
    case ProcessingCommand => 1
    case ExecutingTask => 2
    case CompletedTask => 3
  }

  /** Reads a raw field value back as an enumerator; `None` when the
      field holds an integer that names no enumerator. */
  function Decode(raw: int): (r: Option<GpuState>)
    ensures r.Some? ==> Code(r.value) == raw
    ensures r.None? ==> forall s: GpuState :: Code(s) != raw
  {
    if raw == Code(WaitingForCommand) then Some(WaitingForCommand)
    else if raw == Code(ProcessingCommand) then Some(ProcessingCommand)
    else if raw == Code(ExecutingTask) then Some(ExecutingTask)
    else if raw == Code(CompletedTask) then Some(CompletedTask)
    else None
  }

  /** A raw field value that names one of the four enumerators. */
  predicate IsValidCode(raw: int)
    ensures IsValidCode(raw) <==> exists s: GpuState :: Code(s) == raw
  {
    Decode(raw).Some?
  }

  /** Distinct enumerators are stored as distinct integers. */
  lemma CodeInjective(a: GpuState, b: GpuState)
    ensures Code(a) == Code(b) <==> a == b
  {
  }

  /** Decoding the code of an enumerator gives that enumerator back. */
  lemma DecodeCode(s: GpuState)
    ensures Decode(Code(s)) == Some(s)
  {
  }

  /** The value `initGpuDevice` stores. */
  const Initial: int := Code(WaitingForCommand)

  /** The four transition procedures, as names for sequences of calls. */
  datatype Op = Receive | Process | Complete | Reset

  /** The state a transition requires the device to be in. */
  function Guard(op: Op): GpuState {
    match op
    case Receive => WaitingForCommand
    case Process => ProcessingCommand
    case Complete => ExecutingTask
    case Reset => CompletedTask
  }

  /** The state a transition moves the device to. */
  function Target(op: Op): GpuState {
    match op
    case Receive => ProcessingCommand
    case Process => ExecutingTask
    case Complete => CompletedTask
    case Reset => WaitingForCommand
  }

  /** One transition procedure on the raw field: it writes the target code
      when the field holds the guard's code, and leaves it alone otherwise,
      whatever integer it holds. */
  function Step(op: Op, raw: int): (r: int)
    ensures r == raw || r == Code(Target(op))
  {
    if raw == Code(Guard(op)) then Code(Target(op)) else raw
  }

  /** The transitions applied one after another, first element first.
      The result is the starting value or one of the four codes: a run
      writes nothing but target codes. */
  function Run(ops: seq<Op>, raw: int): (r: int)
    ensures r == raw || IsValidCode(r)
    decreases |ops|
  {
    if ops == [] then raw else Run(ops[1..], Step(ops[0], raw))
  }

  /** The one full turn of the lifecycle: receive, process, complete, reset. */
  const Cycle: seq<Op> := [Receive, Process, Complete, Reset]

  // ---------------------------------------------------------------------
  // The transition graph on enumerators, written as its own table.

  /** The lifecycle order: each state's successor, wrapping around. */
  function Succ(s: GpuState): GpuState {
    match s
    case WaitingForCommand => ProcessingCommand
    case ProcessingCommand => ExecutingTask
    case ExecutingTask => CompletedTask
    case CompletedTask => WaitingForCommand
  }

  /** The one transition each state accepts. */
  function EnabledOp(s: GpuState): Op {
    match s
    case WaitingForCommand => Receive
    case ProcessingCommand => Process
    case ExecutingTask => Complete
    case CompletedTask => Reset
  }

  /** The transition table: the enabled transition moves to the successor,
      every other transition is ignored. */
  function Next(op: Op, s: GpuState): GpuState {
    if op == EnabledOp(s) then Succ(s) else s
  }

  /** `Step` on the code of an enumerator agrees with the table. */
  lemma StepMatchesNext(op: Op, s: GpuState)
    ensures Step(op, Code(s)) == Code(Next(op, s))
  {
  }

  /** A transition changes the field exactly when the field holds the
      transition's source state, and then it writes the target state. */
  lemma StepMovesIffGuard(op: Op, raw: int)
    ensures Step(op, raw) != raw <==> raw == Code(Guard(op))
    ensures raw == Code(Guard(op)) ==> Step(op, raw) == Code(Target(op))
  {
  }

  /** In every state exactly one of the four transitions has an effect. */
  lemma ExactlyOneEnabled(op: Op, s: GpuState)
    ensures Step(op, Code(s)) != Code(s) <==> op == EnabledOp(s)
    ensures Step(EnabledOp(s), Code(s)) == Code(Succ(s))
  {
  }

  /** Calling a transition twice in a row has the effect of calling it
      once: the target state never satisfies the transition's own guard. */
  lemma StepIdempotent(op: Op, raw: int)
    ensures Step(op, Step(op, raw)) == Step(op, raw)
  {
  }

  /** A transition keeps a valid field valid. */
  lemma StepPreservesValid(op: Op, raw: int)
    requires IsValidCode(raw)
    ensures IsValidCode(Step(op, raw))
  {
  }

  /** A transition leaves a corrupted field exactly as it found it. */
  lemma StepIgnoresInvalid(op: Op, raw: int)
    requires !IsValidCode(raw)
    ensures Step(op, raw) == raw
  {
  }

  // ---------------------------------------------------------------------
  // Sequences of transitions.

  /** Running `a` then `b` is running their concatenation. */
  lemma {:induction false} RunAppend(a: seq<Op>, b: seq<Op>, raw: int)
    ensures Run(a + b, raw) == Run(b, Run(a, raw))
    decreases |a|
  {
    if a == [] {
      assert a + b == b;
    } else {
      assert (a + b)[1..] == a[1..] + b;
      RunAppend(a[1..], b, Step(a[0], raw));
    }
  }

  /** Any sequence of transitions keeps a valid field valid; it follows
      from `Run`'s own contract. */
  lemma RunPreservesValid(ops: seq<Op>, raw: int)
    requires IsValidCode(raw)
    ensures IsValidCode(Run(ops, raw))
  {
  }

  /** No sequence of transitions repairs a corrupted field: only
      `initGpuDevice` can. */
  lemma {:induction false} RunIgnoresInvalid(ops: seq<Op>, raw: int)
    requires !IsValidCode(raw)
    ensures Run(ops, raw) == raw
    decreases |ops|
  {
    if ops != [] {
      StepIgnoresInvalid(ops[0], raw);
      RunIgnoresInvalid(ops[1..], raw);
    }
  }

  /** Starting from the initial state, receive, process, complete and reset
      bring the device back to waiting for a command. */
  lemma FullCycle()
    ensures Run(Cycle, Initial) == Initial
  {
  }

  /** `n` copies of `ops`, one after another. */
  function Repeat(ops: seq<Op>, n: nat): seq<Op> {
    if n == 0 then [] else ops + Repeat(ops, n - 1)
  }

  /** Any number of full cycles from the initial state ends where it began. */
  lemma {:induction false} CyclesReturnToInitial(n: nat)
    ensures Run(Repeat(Cycle, n), Initial) == Initial
  {
    if n > 0 {
      RunAppend(Cycle, Repeat(Cycle, n - 1), Initial);
      FullCycle();
      CyclesReturnToInitial(n - 1);
    }
  }

  /** A field value some sequence of transitions produces after
      initialisation. */
  ghost predicate Reachable(raw: int) {
    exists ops: seq<Op> :: Run(ops, Initial) == raw
  }

  /** The transitions that lead from the initial state to `s`. */
  function PathTo(s: GpuState): seq<Op> {
    match s
    case WaitingForCommand => []
    case ProcessingCommand => [Receive]
    case ExecutingTask => [Receive, Process]
    case CompletedTask => [Receive, Process, Complete]
  }

  /** Following `PathTo(s)` after initialisation reaches `s`. */
  lemma PathToReaches(s: GpuState)
    ensures Run(PathTo(s), Initial) == Code(s)
  {
    var s1 := Step(Receive, Initial);
    var s2 := Step(Process, s1);
    match s
    case WaitingForCommand =>
    case ProcessingCommand =>
      assert Run([Receive], Initial) == Run([], s1);
    case ExecutingTask =>
      assert Run([Receive, Process], Initial) == Run([Process], s1);
      assert Run([Process], s1) == Run([], s2);
    case CompletedTask =>
      assert Run([Receive, Process, Complete], Initial) == Run([Process, Complete], s1);
      assert Run([Process, Complete], s1) == Run([Complete], s2);
      assert Run([Complete], s2) == Run([], Step(Complete, s2));
  }

  /** The states reachable after initialisation are exactly the four
      valid ones: every reachable field is valid (the validity check holds
      throughout), and every enumerator can be reached. */
  lemma ReachableIffValid(raw: int)
    ensures Reachable(raw) <==> IsValidCode(raw)
  {
    if Reachable(raw) {
      var ops :| Run(ops, Initial) == raw;
      DecodeCode(WaitingForCommand);
      RunPreservesValid(ops, Initial);
    }
    if IsValidCode(raw) {
      var s := Decode(raw).value;
      PathToReaches(s);
    }
  }
}
