/**
 * The client utility: a background process that watches the keyboard and the
 * VR runtime.  A Windows-key press either opens the dashboard or, when the
 * dashboard is already open, stores 1 into the shared flag for the driver to
 * turn into a click.  A second loop drains the runtime's event queue and
 * unhooks the keyboard once the runtime announces it is quitting.
 *
 * The runtime, the overlay and the Win32 calls are not modelled; what they
 * return is passed in, and the calls made are returned in order.
 */
module ClientUtility {
  import opened Wrappers
  import opened SharedMemory

  /** `WM_KEYDOWN`. */
  const WmKeyDown: nat := 0x0100
  /** `HC_ACTION`. */
  const HcAction: int := 0
  /** `VK_LWIN` and `VK_RWIN`. */
  const VkLWin: nat := 0x5B
  const VkRWin: nat := 0x5C
  /** The overlay the dashboard is opened on. */
  const DashboardOverlay: string := "system.desktop.1"
  /** `VREvent_Quit`. */
  const VREventQuit: nat := 700
  /** The hook entry point, looked up by name in two pieces. */
  const HookEntryPoint: string := "SetWindow" + "sHookExW"

  // ---------------------------------------------------------------- startsWith

  /** `sub` occurs in `s` starting at position `i`. */
  predicate OccursAt(s: string, sub: string, i: nat)
  {
    i + |sub| <= |s| && s[i..i + |sub|] == sub
  }

  /** Dropping the first character shifts every later occurrence one place to the left. */
  lemma OccursAtShift(s: string, sub: string)
    requires s != []
    ensures forall j: nat :: 0 < j ==> (OccursAt(s, sub, j) <==> OccursAt(s[1..], sub, j - 1))
  {
    forall j: nat | 0 < j
      ensures OccursAt(s, sub, j) <==> OccursAt(s[1..], sub, j - 1)
    {
      if j + |sub| <= |s| {
        assert s[1..][j - 1..j - 1 + |sub|] == s[j..j + |sub|];
      }
    }
  }

  /** `std::string::find`: the first position at which `sub` occurs in `s`, or none (`npos`). */
  function Find(s: string, sub: string): (r: Option<nat>)
    ensures r.Some? ==> OccursAt(s, sub, r.value)
    ensures r.Some? ==> forall j: nat :: j < r.value ==> !OccursAt(s, sub, j)
    ensures r.None? ==> forall j: nat :: !OccursAt(s, sub, j)
    decreases |s|
  {
    if sub <= s then
      assert s[0..|sub|] == sub;
      Some(0)
    else if s == [] then None
    else
      OccursAtShift(s, sub);
      assert !OccursAt(s, sub, 0);
      match Find(s[1..], sub)
      case None => None
      case Some(i) => Some(i + 1)
  }

  /** `startsWith`: `find` answers position zero exactly when `substr` is a prefix, the empty one included. */
  function StartsWith(str: string, substr: string): (b: bool)
    ensures b <==> substr <= str
  {
    Find(str, substr) == Some(0)
  }

  // -------------------------------------------------------------- CallbackProc

  /** What the keyboard hook does with one key event, besides passing it on. */
  datatype HookReaction = PassOn | ShowDashboard | SignalClick

  /** A key-down of either Windows key, delivered as a hook action. */
  predicate IsWindowsKeyDown(nCode: int, wParam: nat, vkCode: nat)
  {
    wParam == WmKeyDown && nCode == HcAction && (vkCode == VkLWin || vkCode == VkRWin)
  }

  /**
   * The hook's decision.  Only a Windows-key key-down with `HC_ACTION` is
   * acted on; it opens the dashboard when hidden and signals a click when
   * visible.  Everything else, a `WM_SYSKEYDOWN` included, is only passed on.
   */
  function HookDecision(nCode: int, wParam: nat, vkCode: nat, dashboardVisible: bool): (r: HookReaction)
    ensures r != PassOn <==> IsWindowsKeyDown(nCode, wParam, vkCode)
    ensures r == ShowDashboard <==> IsWindowsKeyDown(nCode, wParam, vkCode) && !dashboardVisible
    ensures r == SignalClick <==> IsWindowsKeyDown(nCode, wParam, vkCode) && dashboardVisible
  {
    if wParam == WmKeyDown && nCode == HcAction then
      if vkCode == VkLWin || vkCode == VkRWin then
        if !dashboardVisible then ShowDashboard else SignalClick
      else PassOn
    else PassOn
  }

  /** A call the keyboard hook makes. */
  datatype HookCall =
    | IsDashboardVisible
    | ShowDashboardOn(overlay: string)
    | CallNextHookEx(nCode: int, wParam: nat, vkCode: nat)

  /**
   * The low-level keyboard hook.  `dashboardVisible` is the overlay's answer
   * and `nextHookResult` what the next hook returns.  The flag is set to
   * exactly 1 on a click signal and otherwise left alone; the event is
   * always passed to the next hook, whose result is returned.
   */
  method CallbackProc(view: SharedSignal, nCode: int, wParam: nat, vkCode: nat,
                      dashboardVisible: bool, nextHookResult: int)
    returns (calls: seq<HookCall>, result: int)
    modifies view
    ensures result == nextHookResult
    ensures calls == (if IsWindowsKeyDown(nCode, wParam, vkCode) then [IsDashboardVisible] else [])
                     + (if HookDecision(nCode, wParam, vkCode, dashboardVisible) == ShowDashboard
                        then [ShowDashboardOn(DashboardOverlay)] else [])
                     + [CallNextHookEx(nCode, wParam, vkCode)]
    ensures view.sendClickEvent
         == if HookDecision(nCode, wParam, vkCode, dashboardVisible) == SignalClick then 1 else old(view.sendClickEvent)
  {
    calls := [];
    if wParam == WmKeyDown && nCode == HcAction {
      if vkCode == VkLWin || vkCode == VkRWin {
        calls := calls + [IsDashboardVisible];
        if !dashboardVisible {
          calls := calls + [ShowDashboardOn(DashboardOverlay)];
        } else {
          view.RequestClick();
        }
      }
    }
    calls := calls + [CallNextHookEx(nCode, wParam, vkCode)];
    result := nextHookResult;
  }

  // ---------------------------------------------------------- BackgroundThread

  /**
   * The inner loop: poll the runtime until its queue is empty.  Every event
   * in the batch is consumed, even after a quit, and the result says whether
   * any of them was a quit.
   */
  method DrainBatch(queue: seq<nat>) returns (exiting: bool, drained: nat)
    ensures drained == |queue|
    ensures exiting <==> VREventQuit in queue
  {
    exiting := false;
    drained := 0;
    while drained < |queue|
      invariant 0 <= drained <= |queue|
      invariant exiting <==> VREventQuit in queue[..drained]
    {
      assert queue[..drained + 1] == queue[..drained] + [queue[drained]];
      if queue[drained] == VREventQuit {
        exiting := true;
      }
      drained := drained + 1;
    }
    assert queue[..drained] == queue;
  }

  /** The first batch holding a quit event, if any. */
  function FirstQuitBatch(batches: seq<seq<nat>>): (r: Option<nat>)
    ensures r.Some? ==> r.value < |batches| && VREventQuit in batches[r.value]
    ensures r.Some? ==> forall j :: 0 <= j < r.value ==> VREventQuit !in batches[j]
    ensures r.None? ==> forall j :: 0 <= j < |batches| ==> VREventQuit !in batches[j]
    decreases |batches|
  {
    if batches == [] then None
    else if VREventQuit in batches[0] then Some(0)
    else
      match FirstQuitBatch(batches[1..])
      case None => None
      case Some(i) => Some(i + 1)
  }

  /**
   * The exit watcher over the batches the runtime yields on successive
   * passes.  It stops after the first batch that holds a quit and then
   * removes the hook if one was installed.  If no batch holds a quit the
   * watcher is still running when the batches run out, and nothing is
   * unhooked.
   */
  method ExitWatcher(batches: seq<seq<nat>>, hookInstalled: bool)
    returns (exiting: bool, batchesRead: nat, unhooked: bool)
    ensures exiting <==> FirstQuitBatch(batches).Some?
    ensures batchesRead == match FirstQuitBatch(batches) case Some(i) => i + 1 case None => |batches|
    ensures unhooked <==> exiting && hookInstalled
  {
    exiting := false;
    batchesRead := 0;
    while !exiting && batchesRead < |batches|
      invariant 0 <= batchesRead <= |batches|
      invariant forall j :: 0 <= j < batchesRead - 1 ==> VREventQuit !in batches[j]
      invariant batchesRead > 0 ==> (exiting <==> VREventQuit in batches[batchesRead - 1])
      invariant batchesRead == 0 ==> !exiting
    {
      var sawQuit, _ := DrainBatch(batches[batchesRead]);
      exiting := exiting || sawQuit;
      batchesRead := batchesRead + 1;
    }

    unhooked := false;
    if exiting && hookInstalled {
      unhooked := true;
    }
  }

  // ------------------------------------------------------------------ wWinMain

  /** A call made during start-up and tear-down. */
  datatype StartupCall =
    | VRInit
    | OpenFileMapping(name: string)
    | MapViewOfFile
    | ResolveHookEntry(name: string)
    | SetWindowsHookEx
    | StartWatcher
    | UnhookWindowsHookEx
    | JoinWatcher
    | UnmapView
    | CloseMappingHandle

  /** What the runtime and the operating system answer during start-up, and the event batches the watcher will see. */
  datatype Environment = Environment(
    runtimeReady: bool,
    mappingOpened: bool,
    viewMapped: bool,
    hookEntryResolved: bool,
    hookRegistered: bool,
    batches: seq<seq<nat>>)

  /** The calls made by a start-up whose view was mapped, while it still waits for messages. */
  function WaitingCalls(hookEntryResolved: bool): seq<StartupCall>
  {
    [VRInit, OpenFileMapping(SharedMemoryName), MapViewOfFile, ResolveHookEntry(HookEntryPoint)]
    + (if hookEntryResolved then [SetWindowsHookEx] else []) + [StartWatcher]
  }

  /** The calls made by a run that ends with exit code 0: tear-down follows the unhook and the join. */
  function FinishedCalls(mappingOpened: bool): seq<StartupCall>
  {
    [VRInit, OpenFileMapping(SharedMemoryName), MapViewOfFile, ResolveHookEntry(HookEntryPoint),
     SetWindowsHookEx, StartWatcher, UnhookWindowsHookEx, JoinWatcher, UnmapView]
    + (if mappingOpened then [CloseMappingHandle] else [])
  }

  lemma WaitingCallsMembers(hookEntryResolved: bool)
    ensures SetWindowsHookEx in WaitingCalls(hookEntryResolved) <==> hookEntryResolved
    ensures StartWatcher in WaitingCalls(hookEntryResolved)
    ensures UnhookWindowsHookEx !in WaitingCalls(hookEntryResolved)
    ensures UnmapView !in WaitingCalls(hookEntryResolved)
    ensures CloseMappingHandle !in WaitingCalls(hookEntryResolved)
  {
  }

  lemma FinishedCallsMembers(mappingOpened: bool)
    ensures SetWindowsHookEx in FinishedCalls(mappingOpened)
    ensures StartWatcher in FinishedCalls(mappingOpened)
    ensures UnhookWindowsHookEx in FinishedCalls(mappingOpened)
    ensures UnmapView in FinishedCalls(mappingOpened)
    ensures CloseMappingHandle in FinishedCalls(mappingOpened) <==> mappingOpened
  {
  }

  /**
   * Start-up and tear-down.  No runtime or no view of the shared record
   * ends the process at once with exit code 1.  Otherwise the hook is
   * installed if its entry point resolves (start-up goes on without it if
   * not), the watcher runs, and the thread waits for messages.  Only the
   * watcher removing the hook ends that wait, so the resources that exist
   * are released and the exit code is 0 only when a hook was installed and
   * the runtime quit.  `None` means the process is still waiting for
   * messages: the runtime has not quit within the given batches, or no hook
   * was installed and nothing will end the wait.
   */
  method WinMain(env: Environment) returns (exitCode: Option<int>, calls: seq<StartupCall>)
    ensures exitCode == Some(1) <==> !env.runtimeReady || !env.viewMapped
    ensures exitCode == Some(0)
        <==> env.runtimeReady && env.viewMapped && env.hookEntryResolved && env.hookRegistered
             && FirstQuitBatch(env.batches).Some?
    ensures !env.runtimeReady ==> calls == [VRInit]
    ensures SetWindowsHookEx in calls <==> env.runtimeReady && env.viewMapped && env.hookEntryResolved
    ensures StartWatcher in calls <==> exitCode != Some(1)
    ensures UnhookWindowsHookEx in calls
        <==> env.runtimeReady && env.viewMapped && env.hookEntryResolved && env.hookRegistered
             && FirstQuitBatch(env.batches).Some?
    ensures UnmapView in calls <==> exitCode == Some(0)
    ensures CloseMappingHandle in calls <==> exitCode == Some(0) && env.mappingOpened
    ensures exitCode == Some(1) && env.runtimeReady ==> calls == [VRInit, OpenFileMapping(SharedMemoryName), MapViewOfFile]
    ensures exitCode == Some(0) ==> calls == FinishedCalls(env.mappingOpened)
    ensures exitCode.None? ==> calls == WaitingCalls(env.hookEntryResolved)
  {
    if !env.runtimeReady {
      return Some(1), [VRInit];
    }
    if !env.viewMapped {
      return Some(1), [VRInit, OpenFileMapping(SharedMemoryName), MapViewOfFile];
    }

    var hookInstalled := false;
    if env.hookEntryResolved {
      hookInstalled := env.hookRegistered;
    }
    var _, _, unhooked := ExitWatcher(env.batches, hookInstalled);
    // The message loop returns only once the hook has been removed.
    if !unhooked {
      WaitingCallsMembers(env.hookEntryResolved);
      return None, WaitingCalls(env.hookEntryResolved);
    }

    // Only an installed hook is removed, and the view exists past start-up,
    // so it is always unmapped; the handle is closed only if it was opened.
    FinishedCallsMembers(env.mappingOpened);
    return Some(0), FinishedCalls(env.mappingOpened);
  }
}
