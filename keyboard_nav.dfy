/**
 * The two processes together: the client utility's keyboard hook writes the
 * shared record that the driver shim's poll loop reads.
 */
module KeyboardNav {
  import opened Wrappers
  import opened SharedMemory
  import opened Supervision
  import opened HmdShim
  import opened ClientUtility

  /**
   * With the dashboard open, any number of Windows-key presses between two
   * polls reach the device as one click: one raise, then one release on the
   * next poll, whatever the wrapped device reported and whatever happened to
   * the client utility process.
   */
  method WindowsKeyClick(deviceStatus: int, presses: nat, vkCode: nat, first: Probe, second: Probe)
    returns (status: int, updates: seq<bool>)
    requires presses >= 1 && (vkCode == VkLWin || vkCode == VkRWin)
    ensures status == deviceStatus
    ensures updates == [true, false]
  {
    var view := new SharedSignal();
    var shim := new HmdShimDriver();
    status := shim.Activate(0, deviceStatus, 1, 2, true, view);
    ActivationWritesNoClick([], 0, 1, true);
    assert [] + shim.trace == shim.trace;

    PressWindowsKey(view, presses, vkCode);
    updates := PollTwice(shim, first, second);
  }

  /** Two polls of an active shim whose flag is set and which has written no click yet. */
  method PollTwice(shim: HmdShimDriver, first: Probe, second: Probe) returns (updates: seq<bool>)
    requires shim.Valid() && shim.active && shim.sharedMemory != null
    requires shim.sharedMemory.sendClickEvent == 1 && ClickUpdates(shim.trace) == []
    modifies shim, shim.sharedMemory
    ensures updates == ClickUpdates(shim.trace) == [true, false]
  {
    ghost var t0, c0 := shim.trace, shim.client;
    var _ := shim.PollStep(first);
    PollClicks(t0, Supervise(c0, first).launchAttempted, shim.clickComponent, Some(true));
    assert ClickUpdates(shim.trace) == [true];

    ghost var t1, c1 := shim.trace, shim.client;
    var _ := shim.PollStep(second);
    PollClicks(t1, Supervise(c1, second).launchAttempted, shim.clickComponent, Some(false));
    updates := ClickUpdates(shim.trace);
  }

  /** `presses` Windows-key presses through the hook while the dashboard is open. */
  method PressWindowsKey(view: SharedSignal, presses: nat, vkCode: nat)
    requires presses >= 1 && (vkCode == VkLWin || vkCode == VkRWin)
    modifies view
    ensures view.sendClickEvent == 1
  {
    var k := 0;
    while k < presses
      invariant 0 <= k <= presses
      invariant k > 0 ==> view.sendClickEvent == 1
    {
      var _, _ := CallbackProc(view, HcAction, WmKeyDown, vkCode, true, 0);
      k := k + 1;
    }
  }

  /**
   * With the dashboard closed, a Windows-key press opens it and does not
   * touch the flag, so the next poll issues no click at all.
   */
  method WindowsKeyOpensDashboard(vkCode: nat, probe: Probe)
    returns (calls: seq<HookCall>, updates: seq<bool>)
    requires vkCode == VkLWin || vkCode == VkRWin
    ensures calls == [IsDashboardVisible, ShowDashboardOn(DashboardOverlay), CallNextHookEx(HcAction, WmKeyDown, vkCode)]
    ensures updates == []
  {
    var view := new SharedSignal();
    var shim := new HmdShimDriver();
    var _ := shim.Activate(0, 0, 1, 2, true, view);
    ActivationWritesNoClick([], 0, 1, true);
    assert [] + shim.trace == shim.trace;

    var hookResult;
    calls, hookResult := CallbackProc(view, HcAction, WmKeyDown, vkCode, false, 0);

    ghost var t0, c0 := shim.trace, shim.client;
    var _ := shim.PollStep(probe);
    PollClicks(t0, Supervise(c0, probe).launchAttempted, 2, None);
    updates := ClickUpdates(shim.trace);
  }
}
