/**
 * The renderer's `Fence`: a counter the CPU increments and signals on a
 * command queue, and the GPU completes. The GPU's progress is an input
 * here: `completed` is the value the fence object reports as completed.
 */
module Fences {
  import opened Wrappers

  /**
   * The completed value after `CPUWaitForFence(olderFence)`, given the
   * fence value and the completed value observed at the call. A wait is
   * issued for `fenceValue - olderFence` only when the fence is more than
   * `olderFence` ahead and the GPU has not passed that target; the wait
   * returns once the GPU reaches the target. Afterwards the CPU is at most
   * `olderFence` fences ahead of the GPU, and the completed value has
   * neither gone back nor passed the last issued value.
   */
  function CompletedAfterWait(fenceValue: nat, completed: nat, olderFence: nat): (c: nat)
    requires completed <= fenceValue
    ensures fenceValue - c <= olderFence
    ensures completed <= c <= fenceValue
  {
    if fenceValue > olderFence && completed <= fenceValue - olderFence then fenceValue - olderFence
    else completed
  }

  /** Whether `CPUWaitForFence` blocks, and on which value. */
  function WaitTarget(fenceValue: nat, completed: nat, olderFence: nat): (r: Option<nat>)
    ensures r.Some? <==> fenceValue > olderFence && completed <= fenceValue - olderFence
    ensures r.Some? ==> r.value + olderFence == fenceValue && 0 < r.value
  {
    if fenceValue > olderFence then
      var valueToWaitFor := fenceValue - olderFence;
      if completed <= valueToWaitFor then Some(valueToWaitFor) else None
    else None
  }

  class Fence {
    /** `mFenceValue`: the last value issued. */
    var fenceValue: nat
    /** What the fence object reports as completed by the GPU. */
    var completed: nat
    /** The values signalled on the command queue, in order. */
    var signals: seq<nat>
    /** The values the CPU blocked on, in order. */
    var cpuWaits: seq<nat>
    /** The values the command queue was told to wait for, in order. */
    var gpuWaits: seq<nat>

    /** Values are issued 1, 2, 3, … and the GPU never completes one that was not issued. */
    ghost predicate Valid()
      reads this
    {
      completed <= fenceValue
      && |signals| == fenceValue
      && (forall k :: 0 <= k < |signals| ==> signals[k] == k + 1)
    }

    /** `Create`: a new fence object with initial value 0 and a counter reset to 0. */
    constructor Create()
      ensures Valid()
      ensures fenceValue == 0 && completed == 0
      ensures signals == [] && cpuWaits == [] && gpuWaits == []
    {
      fenceValue := 0;
      completed := 0;
      signals := [];
      cpuWaits := [];
      gpuWaits := [];
    }

    /** `IssueFence`: increment the value and signal it on the queue. */
    method IssueFence()
      requires Valid()
      modifies this`fenceValue, this`signals
      ensures Valid()
      ensures fenceValue == old(fenceValue) + 1
      ensures signals == old(signals) + [fenceValue]
    {
      fenceValue := fenceValue + 1;
      signals := signals + [fenceValue];
    }

    /**
     * `CPUWaitForFence`: make sure the CPU is at most `olderFence` fences
     * ahead of the GPU. `completedNow` is what the fence reports at the call:
     * the GPU may have moved on since, but not past the last issued value.
     */
    method CPUWaitForFence(olderFence: nat, completedNow: nat)
      requires Valid()
      requires completed <= completedNow <= fenceValue
      modifies this`completed, this`cpuWaits
      ensures Valid()
      ensures completed == CompletedAfterWait(fenceValue, completedNow, olderFence)
      ensures fenceValue - completed <= olderFence
      ensures cpuWaits == old(cpuWaits) + (match WaitTarget(fenceValue, completedNow, olderFence)
        case Some(v) => [v]
        case None => [])
      ensures fenceValue == old(fenceValue)
    {
      completed := completedNow;
      if fenceValue > olderFence {
        var valueToWaitFor := fenceValue - olderFence;
        if completed <= valueToWaitFor {
          cpuWaits := cpuWaits + [valueToWaitFor];
          completed := valueToWaitFor;
        }
      }
    }

    /** `GPUWaitForFence`: the queue waits for the current value. */
    method GPUWaitForFence()
      modifies this`gpuWaits
      ensures gpuWaits == old(gpuWaits) + [fenceValue]
    {
      gpuWaits := gpuWaits + [fenceValue];
    }
  }
}
