# SteamVR dashboard keyboard navigation: the click signalling core

This project models the part of SteamVR-Dashboard-KeyboardNav that links its two processes:

- **The HMD shim driver** (`driver_shim/HmdShimDriver.cpp`) wraps the headset's own tracked-device driver.
  - It forwards every call to the wrapped driver.
  - On activation it adds an input profile and a boolean `/input/system/click` component.
  - It creates the shared record `KeyboardNav.SharedMemory`.
  - It runs a background loop. Each pass keeps the client utility process alive, then exchanges the shared flag with zero. It raises the click when the flag was set, and lowers it on the next quiet pass.
- **The client utility** (`client_utility/client_utility.cpp`) is a separate process.
  - Its low-level keyboard hook turns a Windows-key press into one of two things: a request to open the dashboard, or, when the dashboard is already open, a store of 1 into the shared flag.
  - A watcher loop drains the runtime's event queue and removes the hook once the runtime quits.
  - `wWinMain` sets all of this up, tears it down, and returns the exit code.

The wrapped driver, the OpenVR property store, input system and overlay, and the Win32 calls are not modelled. What they return is passed in as a parameter.

The calls that change something outside a process are recorded in order:

- The shim's `trace` field records its calls to the wrapped device, the property store and the input system. It also records creating, mapping, zeroing, unmapping and closing the shared mapping, starting and joining the background loop, and launching the client utility.
- The `calls` results of `CallbackProc` and `WinMain` record the hook's overlay calls and `CallNextHookEx`, and the client's start-up and tear-down calls.
- `ExitWatcher` reports its unhook as a boolean, not as a recorded call.

Queries are not recorded; their answers are parameters. These are `WaitForSingleObject`, the runtime's `PollNextEvent` and the module-path lookups. `CloseHandle` on the client's process and thread handles, `SetThreadPriority` and the sleeps are not recorded either.

The other process's stores into the flag happen between polls.

Files, one module each:

- `wrappers.dfy` holds `Option`.
- `shared_memory.dfy` holds the shared record and its two operations: the driver's atomic exchange and the client's store.
- `click_pulse.dfy` and `supervision.dfy` give the two halves of one poll as pure functions, with lemmas about runs of polls.
- `hmd_shim_driver.dfy` holds the `HmdShimDriver` class, proved against those functions.
- `client_utility.dfy` models the client utility.
- `keyboard_nav.dfy` joins both processes end to end.

## Model

| member | source | states |
|---|---|---|
| SharedMemory.SharedSignal.Exchange | driver_shim/HmdShimDriver.cpp:176 | the exchange returns the flag's old value and leaves `value` in it, as one step |
| SharedMemory.SharedSignal.RequestClick | client_utility/client_utility.cpp:49 | the client's store leaves the flag at exactly 1, whatever it held |
| SharedMemory.SharedSignal.RequestClicks | client_utility/client_utility.cpp:49 | any non-empty burst of stores leaves the flag at exactly 1 and no stores leave it unchanged; stores overwrite and never count, so requests merge |
| ClickPulse.Pulse | driver_shim/HmdShimDriver.cpp:176-182 | after a poll the in-click memory is true iff the flag it read was non-zero; an update is issued unless the flag was zero and no click was pending; an update always writes the new in-click value |
| ClickPulse.PollRun | driver_shim/HmdShimDriver.cpp:124-183 | a run of polls writes at most one component value per poll |
| ClickPulse.PollRunAppend | driver_shim/HmdShimDriver.cpp:124-183 | two stretches of polling run back to back equal one run over their concatenation |
| ClickPulse.QuietPollsAreSilent | driver_shim/HmdShimDriver.cpp:179-182 | polls with no request and no pending click write nothing |
| ClickPulse.SinglePressPulse | driver_shim/HmdShimDriver.cpp:176-182 | one request, or any burst between two polls, then quiet polls gives exactly `[true, false]` and no pending click, whatever the stale flag and click memory were |
| ClickPulse.OneRaisePerPressedPoll | driver_shim/HmdShimDriver.cpp:176-178 | the number of `true` writes equals the number of poll windows with at least one request, plus one for a stale non-zero flag before a quiet first poll. Consecutive `true` writes are one held press to the host, not separate clicks |
| ClickPulse.ReleaseOnlyAfterClick | driver_shim/HmdShimDriver.cpp:179-181 | every release written directly follows a raise, or releases the click pending when the run began |
| ClickPulse.ReleaseAfterLastPress | driver_shim/HmdShimDriver.cpp:176-182 | whatever came before, the last request followed by a quiet poll ends the run with raise then release and nothing pending |
| Supervision.Supervise | driver_shim/HmdShimDriver.cpp:139-174 | a launch is attempted iff no client is recorded or the recorded one waited as `WAIT_OBJECT_0`; an attempt records the launched process, or nothing if the launch failed; otherwise the record is kept |
| Supervision.SupervisionRun | driver_shim/HmdShimDriver.cpp:124-174 | a run of polls makes at most one launch per poll |
| Supervision.SupervisionRunAppend | driver_shim/HmdShimDriver.cpp:124-174 | two stretches of supervision run back to back equal one run over their concatenation |
| Supervision.FailedLaunchRetriedEveryPoll | driver_shim/HmdShimDriver.cpp:149-174 | while launches fail, every poll tries again and nothing is recorded; failure is never fatal |
| Supervision.LiveClientKept | driver_shim/HmdShimDriver.cpp:139-147 | a client whose wait never reports exit is kept and never relaunched |
| Supervision.ExitedClientRelaunched | driver_shim/HmdShimDriver.cpp:139-174 | a client seen to exit is cleared and relaunched in that same poll, with exactly one launch |
| HmdShim.HmdShimDriver.constructor | driver_shim/HmdShimDriver.cpp:190-198 | a new shim is inactive, with an invalid device index and component, no mapping, no client, no click pending and no calls made |
| HmdShim.HmdShimDriver.Activate | driver_shim/HmdShimDriver.cpp:43-74 | returns the wrapped device's status unchanged; calls go in this order: wrapped `Activate`, property container, input profile, click component, file mapping, view mapped and zeroed only if the mapping was created, then the loop starts; the shim ends active with the new index, component and mapping, and client record and click memory are kept |
| HmdShim.HmdShimDriver.Deactivate | driver_shim/HmdShimDriver.cpp:76-99 | clears `active`; joins the loop only if it was active; unmaps and closes only what exists; invalidates the index; deactivates the wrapped device last, on every call; client record and click memory are kept |
| HmdShim.HmdShimDriver.EnterStandby | driver_shim/HmdShimDriver.cpp:101-103 | forwards one call and changes nothing else |
| HmdShim.HmdShimDriver.GetComponent | driver_shim/HmdShimDriver.cpp:105-107 | forwards the name, returns the wrapped device's answer and changes nothing else |
| HmdShim.HmdShimDriver.GetPose | driver_shim/HmdShimDriver.cpp:109-111 | returns the wrapped device's pose and changes nothing else |
| HmdShim.HmdShimDriver.DebugRequest | driver_shim/HmdShimDriver.cpp:113-115 | forwards the request and buffer size, the response is the wrapped device's, nothing else changes |
| HmdShim.HmdShimDriver.PollStep | driver_shim/HmdShimDriver.cpp:124-183 | an inactive shim stops the loop and touches nothing; an active one supervises the client as `Supervise` says, then clears the flag and writes the component as `Pulse` says, with the launch before the update in the trace; the in-click memory always equals "the last value written was true" |
| HmdShim.HmdShimDriver.BackgroundThread | driver_shim/HmdShimDriver.cpp:117-188 | over rounds of client stores and polls, the calls made and the state left are exactly `Loop`'s. So the component values written are exactly `PollRun`'s, and the client record and launch count are exactly `SupervisionRun`'s |
| HmdShim.LoopAppend | driver_shim/HmdShimDriver.cpp:124-183 | two stretches of the loop back to back make the calls of the first, then those of the second, and end where the second ends |
| HmdShim.LoopClicks | driver_shim/HmdShimDriver.cpp:176-182 | the loop's calls write exactly `PollRun`'s component values, and the loop leaves `PollRun`'s in-click memory and a flag cleared by the last exchange |
| HmdShim.LoopLaunches | driver_shim/HmdShimDriver.cpp:139-174 | the loop's calls launch the client exactly as often as `SupervisionRun` counts, and the loop leaves `SupervisionRun`'s client record |
| HmdShim.MappingFailureScenario | driver_shim/HmdShimDriver.cpp:60-94 | activation without a mapping still returns the wrapped status; a deactivation that comes before the loop's first pass releases nothing and still deactivates the wrapped device. That first pass would dereference the missing view |
| ClientUtility.Find | client_utility/client_utility.cpp:35 | `find` returns the first position where the substring occurs, or none when it occurs nowhere |
| ClientUtility.StartsWith | client_utility/client_utility.cpp:34-36 | holds iff `substr` is a prefix of `str`, the empty one included |
| ClientUtility.HookDecision | client_utility/client_utility.cpp:42-53 | the hook acts iff the event is a `WM_KEYDOWN` with `HC_ACTION` for left or right Windows; it opens the dashboard iff it acts and the dashboard is hidden, and signals a click iff it acts and the dashboard is visible |
| ClientUtility.CallbackProc | client_utility/client_utility.cpp:40-56 | the flag becomes exactly 1 on a click signal and is otherwise untouched; the dashboard is queried only on a Windows-key press and shown only when hidden; the event is always passed to the next hook, whose result is returned |
| ClientUtility.DrainBatch | client_utility/client_utility.cpp:64-69 | the whole queue is consumed, even past a quit, and the result is true iff the batch holds a quit |
| ClientUtility.FirstQuitBatch | client_utility/client_utility.cpp:62-73 | the index of the first batch that holds a quit, or none if none does |
| ClientUtility.ExitWatcher | client_utility/client_utility.cpp:58-79 | the watcher stops right after the first batch holding a quit; it is exiting iff such a batch exists; it unhooks iff it is exiting and a hook was installed |
| ClientUtility.WinMain | client_utility/client_utility.cpp:81-136 | exit code 1 iff the runtime or the shared view is missing. Exit code 0 iff both exist, the hook was installed and the runtime quits, taking the watcher's unhook as the end of the message loop, as the comment at line 76 says. Each outcome's calls are given as an exact sequence, so the view is unmapped and the handle closed only after the unhook and the join. Registering the hook is attempted iff its entry point resolves, and a missing entry point does not stop start-up. Teardown unmaps and closes only what exists |
| KeyboardNav.WindowsKeyClick | driver_shim/HmdShimDriver.cpp:176-182 | with the dashboard open, any number of Windows-key presses between two polls reach the device as `[true, false]`, whatever the wrapped device reported and whatever happened to the client utility process |
| KeyboardNav.WindowsKeyOpensDashboard | client_utility/client_utility.cpp:46-47 | with the dashboard closed, a Windows-key press opens it and passes the key on; the next poll writes no click |

## Behaviour as written

The model follows the code where it differs from what its comments and names suggest:

- **The poll reads the flag without a null check** (`driver_shim/HmdShimDriver.cpp:176`). If the mapping could not be created, the loop does not skip click delivery: it dereferences a null view. `PollStep` therefore requires a view whenever the shim is active. `BackgroundThread` requires a view outright.
- **`Activate` zeroes the view without checking `MapViewOfFile`** (`driver_shim/HmdShimDriver.cpp:62-65`). `Activate` therefore requires a view whenever the mapping handle was created.
- **`Activate` carries on after the wrapped device fails.** It sets the profile, creates the component and starts the loop whatever status the wrapped device returned. The model does the same and returns that status.
- **An exited client is relaunched in the same poll that sees it exit**, not on the next one. The record is cleared at lines 140-147 and the launch check follows at line 150.
- **Only `WAIT_OBJECT_0` (0) counts as exited** (`driver_shim/HmdShimDriver.cpp:141`). A failed wait keeps the record, so that client is not relaunched while its waits fail.
- **The client utility keeps its mapping handle open** when `MapViewOfFile` fails. It returns 1 without closing the handle (`client_utility/client_utility.cpp:94-96`).
- **Removing the hook may not end the message loop** (`client_utility/client_utility.cpp:76-77`, `118`). The comment at line 76 says the unhook breaks the `GetMessage` loop. But `GetMessage` returns 0 only when it retrieves `WM_QUIT`, and nothing in the source posts one. So the real process may never reach the tear-down and the exit code 0 at lines 123-135. The model follows the comment and ends the loop at the unhook.
- **`startsWith` is defined but never called** in `client_utility/client_utility.cpp`.

## Left out

- Threads and timing: `std::thread`, `join`, the 5 ms and 400 ms sleeps, `SetThreadPriority` and thread descriptions. Each poll is one atomic step. The client's stores happen between polls, so `InterlockedExchange` is one step. Nothing about wall-clock bounds, such as deactivation finishing within one interval, is stated.
- HmdShim.HmdShimDriver.BackgroundThread: models only the rounds during which the shim stays active. It requires `active`. The pass that sees `active` false and leaves the loop is `PollStep`'s first branch. A `Deactivate` running alongside a pass is not modelled.
- HmdShim.HmdShimDriver.PollStep: does not model the null dereference that happens when the shim is active without a view. That case is excluded by its precondition.
- HmdShim.HmdShimDriver.Activate: does not model the crash of zeroing a null view. It also requires the shim to be inactive, because assigning a new `std::thread` over a joinable one terminates the process. The thread's joinability is not a separate field: it equals `active`.
- Win32 resource calls (`CreateFileMapping`, `MapViewOfFile`, `OpenFileMapping`, `UnmapViewOfFile`, `CloseHandle`, `CreateProcess`, `WaitForSingleObject`, `GetProcAddress`, `SetWindowsHookEx`, `UnhookWindowsHookEx`) become success or failure parameters and trace entries. Process handles and the closing of the launched process's thread handle (`driver_shim/HmdShimDriver.cpp:142`, `173`) are not modelled.
- The client executable's path and working directory (`driver_shim/HmdShimDriver.cpp:151-168`). These depend on `std::filesystem` and the module's load path.
- OpenVR calls (`VRProperties`, `VRDriverInput`, `VROverlay`, `VRSystem::PollNextEvent`, `VR_Init`) become parameters and trace entries. A pose is an opaque value. A debug response is whatever the wrapped device writes.
- Tracing and logging (`TraceLoggingWrite*`, `DriverLog`): they have no behavioural effect.
- `CreateHmdShimDriver`: a one-line factory.
- The `GetMessage` loop in `wWinMain`. The model takes it to end exactly when the watcher removes the hook, as the source's comment at `client_utility/client_utility.cpp:76` says, although nothing in the source posts the `WM_QUIT` that would end it (see "Behaviour as written"). Without a hook nothing ends it, and the model returns `None`. Messages dispatched by the loop are not modelled.
- ClientUtility.ExitWatcher: the runtime's event batches are a finite sequence. If none of them holds a quit, the model returns with the watcher still running. The real loop would keep polling.
- ClientUtility.WinMain: returns `None` instead of an exit code in two cases. One is when the runtime has not quit within the given batches. The other is when no hook was installed, so the message loop never ends. In both cases the real process would still be running.
