/**
 * The update thread's tick and its application-state machine
 * (VQEngine::UpdateThread_Main and VQEngine::UpdateThread_UpdateAppState).
 *
 * The render thread, the worker pool and the stop flag are other threads: what
 * the update thread reads from them is an input of each tick. The semaphore
 * hand-shake at the end of a tick is not modelled.
 */
module AppUpdate {

  datatype AppState = INITIALIZING | LOADING | SIMULATING

  /** The order in which the states are entered. */
  function Rank(a: AppState): nat
  {
    match a
    case INITIALIZING => 0
    case LOADING => 1
    case SIMULATING => 2
  }

  /**
   * What the update thread owns: the app state, the "loading level" flag, the
   * update-loop counter, and how many times the level load was dispatched
   * (loading-screen data, showing both windows, Load_SceneData_Dispatch).
   */
  datatype UpdateState = UpdateState(
    appState: AppState,
    loadingLevel: bool,
    numUpdateLoops: nat,
    levelLoadDispatches: nat)

  const Initial := UpdateState(INITIALIZING, false, 0, 0)

  /** The loading flag is raised exactly while the state is LOADING. */
  predicate Inv(s: UpdateState)
  {
    s.loadingLevel <==> s.appState == LOADING
  }

  /** UpdateThread_UpdateAppState on state values; `numActiveTasks` is the worker pool's count. */
  function UpdateAppState(s: UpdateState, numActiveTasks: int): (r: UpdateState)
    // INITIALIZING dispatches the level load once and leaves for LOADING, or
    // straight for SIMULATING when the pool is already idle
    ensures s.appState == INITIALIZING ==>
      && r.levelLoadDispatches == s.levelLoadDispatches + 1
      && r.appState == (if numActiveTasks == 0 then SIMULATING else LOADING)
      && r.loadingLevel == (numActiveTasks != 0)
    ensures s.appState != INITIALIZING ==> r.levelLoadDispatches == s.levelLoadDispatches
    // while loading, active tasks keep the state where it is
    ensures s.loadingLevel && numActiveTasks != 0 ==> r.appState == LOADING || s.appState != LOADING
    ensures s.appState == LOADING && s.loadingLevel && numActiveTasks != 0 ==> r == s
    ensures Inv(s) ==> Inv(r)
    ensures Inv(s) && numActiveTasks == 0 ==> r.appState == SIMULATING && !r.loadingLevel
    // states only move forward, and SIMULATING is final
    ensures Rank(r.appState) >= Rank(s.appState)
    ensures Inv(s) && s.appState == SIMULATING ==> r == s
    ensures r.numUpdateLoops == s.numUpdateLoops
  {
    var s1 :=
      if s.appState == INITIALIZING
      then s.(appState := LOADING, loadingLevel := true, levelLoadDispatches := s.levelLoadDispatches + 1)
      else s;
    if s1.loadingLevel && numActiveTasks == 0
    then s1.(appState := SIMULATING, loadingLevel := false)
    else s1
  }

  /** What one iteration of the update loop observes from the other threads. */
  datatype TickInput = TickInput(stopAllThreads: bool, renderThreadInitialized: bool, numActiveTasks: int)

  /** The body of one UpdateThread_Main iteration, after the loop condition held. */
  function Tick(s: UpdateState, renderThreadInitialized: bool, numActiveTasks: int): (r: UpdateState)
    // no tick work before the render thread is ready
    ensures !renderThreadInitialized ==> r == s
    // a completed tick counts itself exactly once
    ensures renderThreadInitialized ==> r.numUpdateLoops == s.numUpdateLoops + 1
    ensures Inv(s) ==> Inv(r)
    ensures Rank(r.appState) >= Rank(s.appState)
  {
    if !renderThreadInitialized then s
    else UpdateAppState(s, numActiveTasks).(numUpdateLoops := s.numUpdateLoops + 1)
  }

  /** The state after the loop has run the given iterations in order. */
  function Run(s: UpdateState, ticks: seq<TickInput>): UpdateState
  {
    if ticks == [] then s
    else
      var last := ticks[|ticks| - 1];
      Tick(Run(s, ticks[..|ticks| - 1]), last.renderThreadInitialized, last.numActiveTasks)
  }

  /** The number of iterations that found the render thread ready. */
  function CountReady(ticks: seq<TickInput>): nat
  {
    if ticks == [] then 0
    else CountReady(ticks[..|ticks| - 1]) + (if ticks[|ticks| - 1].renderThreadInitialized then 1 else 0)
  }

  /**
   * From the initial state, whatever the other threads do: the loading flag
   * tracks LOADING, the level load has been dispatched exactly once as soon as
   * the state left INITIALIZING (and never before), and the counter counts the
   * ticks that found the render thread ready.
   */
  lemma {:induction false} RunFromInitial(ticks: seq<TickInput>)
    ensures var s := Run(Initial, ticks);
      && Inv(s)
      && s.levelLoadDispatches == (if s.appState == INITIALIZING then 0 else 1)
      && s.numUpdateLoops == CountReady(ticks)
  {
    if ticks != [] {
      RunFromInitial(ticks[..|ticks| - 1]);
    }
  }

  /** Later iterations never move the state backwards. */
  lemma {:induction false} RunMonotone(s: UpdateState, ticks: seq<TickInput>)
    ensures Rank(Run(s, ticks).appState) >= Rank(s.appState)
  {
    if ticks != [] {
      RunMonotone(s, ticks[..|ticks| - 1]);
    }
  }

  /** Once SIMULATING (with the invariant), no sequence of iterations changes the app state. */
  lemma {:induction false} SimulatingIsFinal(s: UpdateState, ticks: seq<TickInput>)
    requires Inv(s) && s.appState == SIMULATING
    ensures Run(s, ticks).appState == SIMULATING && Run(s, ticks).levelLoadDispatches == s.levelLoadDispatches
  {
    if ticks != [] {
      SimulatingIsFinal(s, ticks[..|ticks| - 1]);
    }
  }

  /** The update thread's part of VQEngine. */
  class UpdateThread {
    var appState: AppState
    var loadingLevel: bool
    var numUpdateLoopsExecuted: nat
    var levelLoadDispatches: nat

    function State(): UpdateState
      reads this
    {
      UpdateState(appState, loadingLevel, numUpdateLoopsExecuted, levelLoadDispatches)
    }

    constructor ()
      ensures State() == Initial
    {
      appState := INITIALIZING;
      loadingLevel := false;
      numUpdateLoopsExecuted := 0;
      levelLoadDispatches := 0;
    }

    /** UpdateThread_UpdateAppState; the source asserts that the render thread is initialised. */
    method UpdateThreadUpdateAppState(renderThreadInitialized: bool, numActiveTasks: int)
      requires renderThreadInitialized
      modifies this
      ensures State() == UpdateAppState(old(State()), numActiveTasks)
    {
      if appState == INITIALIZING {
        levelLoadDispatches := levelLoadDispatches + 1;
        appState := LOADING;
        loadingLevel := true;
      }
      if loadingLevel {
        var bLoadDone := numActiveTasks == 0;
        if bLoadDone {
          appState := SIMULATING;
          loadingLevel := false;
        }
      }
    }

    /**
     * UpdateThread_Main. `ticks[k]` is what iteration k observes; the run ends
     * at the first observation of the stop flag (the local quit flag is never
     * raised). Returns the number of iterations that ran.
     */
    method UpdateThreadMain(ticks: seq<TickInput>) returns (iterations: nat)
      requires exists k :: 0 <= k < |ticks| && ticks[k].stopAllThreads
      modifies this
      ensures iterations < |ticks| && ticks[iterations].stopAllThreads
      ensures forall k :: 0 <= k < iterations ==> !ticks[k].stopAllThreads
      ensures State() == Run(old(State()).(numUpdateLoops := 0), ticks[..iterations])
      ensures numUpdateLoopsExecuted == CountReady(ticks[..iterations])
    {
      numUpdateLoopsExecuted := 0;
      ghost var start := State();
      var bQuit := false;
      iterations := 0;
      while !ticks[iterations].stopAllThreads && !bQuit
        invariant iterations < |ticks|
        invariant forall k :: 0 <= k < iterations ==> !ticks[k].stopAllThreads
        invariant exists k :: iterations <= k < |ticks| && ticks[k].stopAllThreads
        invariant !bQuit
        invariant State() == Run(start, ticks[..iterations])
        invariant numUpdateLoopsExecuted == CountReady(ticks[..iterations])
        decreases |ticks| - iterations
      {
        var t := ticks[iterations];
        assert ticks[..iterations + 1][..iterations] == ticks[..iterations];
        if t.renderThreadInitialized {
          UpdateThreadUpdateAppState(t.renderThreadInitialized, t.numActiveTasks);
          numUpdateLoopsExecuted := numUpdateLoopsExecuted + 1;
        }
        iterations := iterations + 1;
      }
    }
  }
}
