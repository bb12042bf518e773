/** The GPU device record and its procedures.  The record has one field,
    the raw integer a C `GpuState` variable stores; every procedure changes
    only that field, and each transition is proved to be `GpuLifecycle.Step`. */
module Device {
  import opened GpuLifecycle

  /** A device record.  `new GpuDevice` gives a record whose field holds
      some integer, as uninitialised C storage does; `new GpuDevice.Init()`
      allocates and initialises it. */
  class GpuDevice {
    var currentState: int

    /** Puts the device in its initial state, whatever the field held. */
    method Init()
      modifies this
      ensures currentState == Code(WaitingForCommand)
      ensures IsValidState()
    {
      currentState := Code(WaitingForCommand);
    }

    /** Moves a device waiting for a command to processing it; any other
        state is left unchanged. */
    method ReceiveCommand()
      modifies this
      ensures old(currentState) == Code(WaitingForCommand) ==> currentState == Code(ProcessingCommand)
      ensures old(currentState) != Code(WaitingForCommand) ==> currentState == old(currentState)
      ensures currentState == Step(Receive, old(currentState))
    {
      if currentState == Code(WaitingForCommand) {
        currentState := Code(ProcessingCommand);
      }
    }

    /** Moves a device processing a command to executing its task; any
        other state is left unchanged. */
    method ProcessCommand()
      modifies this
      ensures old(currentState) == Code(ProcessingCommand) ==> currentState == Code(ExecutingTask)
      ensures old(currentState) != Code(ProcessingCommand) ==> currentState == old(currentState)
      ensures currentState == Step(Process, old(currentState))
    {
      if currentState == Code(ProcessingCommand) {
        currentState := Code(ExecutingTask);
      }
    }

    /** Moves a device executing a task to having completed it; any other
        state is left unchanged. */
    method CompleteTask()
      modifies this
      ensures old(currentState) == Code(ExecutingTask) ==> currentState == Code(CompletedTask)
      ensures old(currentState) != Code(ExecutingTask) ==> currentState == old(currentState)
      ensures currentState == Step(Complete, old(currentState))
    {
      if currentState == Code(ExecutingTask) {
        currentState := Code(CompletedTask);
      }
    }

    /** Moves a device that has completed its task back to waiting for a
        command; any other state is left unchanged. */
    method ResetState()
      modifies this
      ensures old(currentState) == Code(CompletedTask) ==> currentState == Code(WaitingForCommand)
      ensures old(currentState) != Code(CompletedTask) ==> currentState == old(currentState)
      ensures currentState == Step(Reset, old(currentState))
    {
      if currentState == Code(CompletedTask) {
        currentState := Code(WaitingForCommand);
      }
    }

    /** The defensive check: the field holds one of the four enumerators. */
    predicate IsValidState()
      reads this
      ensures IsValidState() <==> Decode(currentState).Some?
      ensures IsValidState() <==> exists s: GpuState :: Code(s) == currentState
    {
      || currentState == Code(WaitingForCommand)
      || currentState == Code(ProcessingCommand)
      || currentState == Code(ExecutingTask)
      || currentState == Code(CompletedTask)
    }
  }

  /** Typical call sequences, proved from the procedures' contracts alone:
      skipping a step or repeating one changes nothing; the full cycle ends
      where it started. */
  method Scenarios(gpu: GpuDevice)
    modifies gpu
    ensures gpu.currentState == Code(WaitingForCommand)
    ensures gpu.IsValidState()
  {
    gpu.Init();
    gpu.ProcessCommand();
    assert gpu.currentState == Code(WaitingForCommand);
    gpu.ReceiveCommand();
    assert gpu.currentState == Code(ProcessingCommand);
    gpu.ReceiveCommand();
    assert gpu.currentState == Code(ProcessingCommand);
    gpu.ProcessCommand();
    assert gpu.currentState == Code(ExecutingTask);
    gpu.CompleteTask();
    assert gpu.currentState == Code(CompletedTask);
    gpu.CompleteTask();
    assert gpu.currentState == Code(CompletedTask);
    gpu.ResetState();
  }

  /** A corrupted record stays corrupted through any transition, and the
      validity check reports it; initialisation repairs it. */
  method CorruptionScenario(gpu: GpuDevice)
    modifies gpu
    ensures gpu.currentState == Code(WaitingForCommand)
  {
    gpu.currentState := 7;
    assert !gpu.IsValidState();
    gpu.ReceiveCommand();
    gpu.ProcessCommand();
    gpu.CompleteTask();
    gpu.ResetState();
    assert gpu.currentState == 7 && !gpu.IsValidState();
    gpu.Init();
  }
}
