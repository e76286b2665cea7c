/**
 * The HMD shim driver: a tracked-device driver that wraps another one,
 * forwards every call to it, and on activation adds an input profile, a
 * boolean click component, the shared signal channel and a background loop
 * that supervises the client utility and turns the shared flag into click
 * pulses.
 *
 * The wrapped device, the property store, the input system and the
 * operating system are not modelled; what they return is passed in, and
 * every call the shim makes to them is appended to `trace` in order.
 */
module HmdShim {
  import opened Wrappers
  import opened SharedMemory
  import opened ClickPulse
  import opened Supervision

  type Uint32 = x: int | 0 <= x < 0x1_0000_0000

  /** `k_unTrackedDeviceIndexInvalid`. */
  const InvalidDeviceIndex: Uint32 := 0xFFFF_FFFF
  /** `k_ulInvalidInputComponentHandle`. */
  const InvalidComponentHandle: nat := 0
  /** The input profile advertised on activation. */
  const InputProfilePath: string := "{keyboard_nav}/input/keyboard_nav_hmd_profile.json"
  /** The path of the boolean click component created on activation. */
  const ClickComponentPath: string := "/input/system/click"

  /** A device pose as the wrapped driver reports it; the shim never looks inside. */
  type Pose = seq<real>

  /** One call the shim makes to something outside it. */
  datatype Call =
    // the wrapped device
    | DeviceActivate(objectId: Uint32)
    | DeviceDeactivate
    | DeviceEnterStandby
    | DeviceGetComponent(name: string)
    | DeviceGetPose
    | DeviceDebugRequest(request: string, responseBufferSize: Uint32)
    // the property store and the input system
    | PropertyContainerOf(deviceIndex: Uint32)
    | SetInputProfilePath(container: nat, path: string)
    | CreateBooleanComponent(container: nat, path: string)
    | UpdateBooleanComponent(component: nat, value: bool)
    // the operating system
    | CreateFileMapping(name: string)
    | MapViewOfFile
    | ZeroView
    | UnmapView
    | CloseMapping
    | StartBackgroundThread
    | JoinBackgroundThread
    | LaunchClient

  /** The values written to the click component, in order. */
  function ClickUpdates(trace: seq<Call>): seq<bool>
  {
    if trace == [] then []
    else (if trace[0].UpdateBooleanComponent? then [trace[0].value] else []) + ClickUpdates(trace[1..])
  }

  /** How many times the client utility was launched. */
  function LaunchCount(trace: seq<Call>): nat
  {
    if trace == [] then 0 else (if trace[0] == LaunchClient then 1 else 0) + LaunchCount(trace[1..])
  }

  /** The last value written to the click component was `true`. */
  predicate ClickPending(trace: seq<Call>)
  {
    var u := ClickUpdates(trace);
    u != [] && u[|u| - 1]
  }

  /** The component update, if any, that one poll issues. */
  function ClickCalls(component: nat, update: Option<bool>): seq<Call>
  {
    match update
    case None => []
    case Some(v) => [UpdateBooleanComponent(component, v)]
  }

  /** The calls one active poll makes: the launch, if any, and then the component update, if any. */
  function PollCalls(launched: bool, component: nat, update: Option<bool>): seq<Call>
  {
    (if launched then [LaunchClient] else []) + ClickCalls(component, update)
  }

  lemma {:induction false} TraceAppend(a: seq<Call>, b: seq<Call>)
    ensures ClickUpdates(a + b) == ClickUpdates(a) + ClickUpdates(b)
    ensures LaunchCount(a + b) == LaunchCount(a) + LaunchCount(b)
    decreases |a|
  {
    if a != [] {
      assert (a + b)[0] == a[0];
      assert (a + b)[1..] == a[1..] + b;
      TraceAppend(a[1..], b);
      var head := if a[0].UpdateBooleanComponent? then [a[0].value] else [];
      assert ClickUpdates(a + b) == head + (ClickUpdates(a[1..]) + ClickUpdates(b));
      assert head + (ClickUpdates(a[1..]) + ClickUpdates(b)) == (head + ClickUpdates(a[1..])) + ClickUpdates(b);
    } else {
      assert a + b == b;
    }
  }

  /** The calls of one poll hold its update, if any, and its launch, if any. */
  lemma PollCallsCount(launched: bool, component: nat, update: Option<bool>)
    ensures ClickUpdates(PollCalls(launched, component, update)) == UpdatesOf(update)
    ensures LaunchCount(PollCalls(launched, component, update)) == if launched then 1 else 0
  {
    var c := ClickCalls(component, update);
    assert ClickUpdates(c) == UpdatesOf(update) && LaunchCount(c) == 0 by {
      if update.Some? { assert c[1..] == []; }
    }
    if launched {
      var calls := [LaunchClient] + c;
      assert calls[0] == LaunchClient && calls[1..] == c;
    } else {
      assert [] + c == c;
    }
  }

  /** One poll adds its update, if any, to the click history. */
  lemma PollClicks(trace: seq<Call>, launched: bool, component: nat, update: Option<bool>)
    ensures ClickUpdates(trace + PollCalls(launched, component, update)) == ClickUpdates(trace) + UpdatesOf(update)
  {
    TraceAppend(trace, PollCalls(launched, component, update));
    PollCallsCount(launched, component, update);
  }

  /** After one poll a click is pending iff the poll raised it, or it wrote nothing and one was pending before. */
  lemma PollPending(trace: seq<Call>, launched: bool, component: nat, update: Option<bool>)
    ensures ClickPending(trace + PollCalls(launched, component, update))
        <==> if update.Some? then update.value else ClickPending(trace)
  {
    PollClicks(trace, launched, component, update);
    if update.Some? {
      var u := ClickUpdates(trace) + [update.value];
      assert u[|u| - 1] == update.value;
    }
  }

  /** Calls that are not component updates leave the click history alone. */
  lemma {:induction false} NoClickCalls(trace: seq<Call>, extra: seq<Call>)
    requires forall i :: 0 <= i < |extra| ==> !extra[i].UpdateBooleanComponent?
    ensures ClickUpdates(trace + extra) == ClickUpdates(trace)
    decreases |extra|
  {
    TraceAppend(trace, extra);
    if extra != [] {
      NoClickCalls([], extra[1..]);
      assert [] + extra[1..] == extra[1..];
    }
  }

  /**
   * The calls `Activate` makes, in order: the wrapped device, the property
   * container, the input profile, the click component, the file mapping, the
   * view (mapped and zeroed) only when the mapping was created, and last the
   * background loop.
   */
  function ActivationCalls(objectId: Uint32, container: nat, mappingCreated: bool): seq<Call>
  {
    [DeviceActivate(objectId), PropertyContainerOf(objectId),
     SetInputProfilePath(container, InputProfilePath),
     CreateBooleanComponent(container, ClickComponentPath),
     CreateFileMapping(SharedMemoryName)]
    + (if mappingCreated then [MapViewOfFile, ZeroView] else [])
    + [StartBackgroundThread]
  }

  /** Activation writes nothing to the click component. */
  lemma ActivationWritesNoClick(trace: seq<Call>, objectId: Uint32, container: nat, mappingCreated: bool)
    ensures ClickUpdates(trace + ActivationCalls(objectId, container, mappingCreated)) == ClickUpdates(trace)
    ensures ClickPending(trace + ActivationCalls(objectId, container, mappingCreated)) == ClickPending(trace)
  {
    NoClickCalls(trace, ActivationCalls(objectId, container, mappingCreated));
  }

  /**
   * The calls `Deactivate` makes, in order: the join only if the loop was
   * running, the unmap only if a view exists, the close only if a mapping
   * handle exists, and last the wrapped device, always.
   */
  function DeactivationCalls(wasActive: bool, hadView: bool, hadHandle: bool): seq<Call>
  {
    (if wasActive then [JoinBackgroundThread] else [])
    + (if hadView then [UnmapView] else [])
    + (if hadHandle then [CloseMapping] else [])
    + [DeviceDeactivate]
  }

  /** Deactivation writes nothing to the click component. */
  lemma DeactivationWritesNoClick(trace: seq<Call>, wasActive: bool, hadView: bool, hadHandle: bool)
    ensures ClickUpdates(trace + DeactivationCalls(wasActive, hadView, hadHandle)) == ClickUpdates(trace)
    ensures ClickPending(trace + DeactivationCalls(wasActive, hadView, hadHandle)) == ClickPending(trace)
  {
    NoClickCalls(trace, DeactivationCalls(wasActive, hadView, hadHandle));
  }

  /** What the client utility does between two polls, and what the operating system answers at the poll. */
  datatype Round = Round(writes: nat, probe: Probe)

  function WritesOf(rounds: seq<Round>): (w: seq<nat>)
    ensures |w| == |rounds| && forall i :: 0 <= i < |rounds| ==> w[i] == rounds[i].writes
  {
    seq(|rounds|, i requires 0 <= i < |rounds| => rounds[i].writes)
  }

  function ProbesOf(rounds: seq<Round>): (p: seq<Probe>)
    ensures |p| == |rounds| && forall i :: 0 <= i < |rounds| ==> p[i] == rounds[i].probe
  {
    seq(|rounds|, i requires 0 <= i < |rounds| => rounds[i].probe)
  }

  /** The part of the shim's state one pass of the background loop reads and writes. */
  datatype LoopState = LoopState(flag: int, inClickEvent: bool, client: ClientRecord)

  /** The calls a stretch of the background loop makes, and the state it leaves. */
  datatype LoopRun = LoopRun(calls: seq<Call>, end: LoopState)

  /**
   * One round: the client utility's stores, then one active pass, which
   * supervises the client as `Supervise` says and then clears the flag and
   * updates the component as `Pulse` says.
   */
  function Pass(st: LoopState, component: nat, round: Round): LoopRun
  {
    var s := Supervise(st.client, round.probe);
    var p := Pulse(Overwrite(st.flag, round.writes), st.inClickEvent);
    LoopRun(PollCalls(s.launchAttempted, component, p.update), LoopState(0, p.inClickEvent, s.record))
  }

  /** A stretch of the background loop: one `Pass` per round, each starting where the previous one ended. */
  function Loop(st: LoopState, component: nat, rounds: seq<Round>): LoopRun
    decreases |rounds|
  {
    if rounds == [] then LoopRun([], st)
    else
      var first := Pass(st, component, rounds[0]);
      var rest := Loop(first.end, component, rounds[1..]);
      LoopRun(first.calls + rest.calls, rest.end)
  }

  /** Two stretches of the loop back to back are one stretch over both. */
  lemma {:induction false} LoopAppend(st: LoopState, component: nat, a: seq<Round>, b: seq<Round>)
    ensures Loop(st, component, a + b)
         == var first := Loop(st, component, a);
            var second := Loop(first.end, component, b);
            LoopRun(first.calls + second.calls, second.end)
    decreases |a|
  {
    if a == [] {
      assert a + b == b;
    } else {
      var pass := Pass(st, component, a[0]);
      assert (a + b)[0] == a[0];
      assert (a + b)[1..] == a[1..] + b;
      LoopAppend(pass.end, component, a[1..], b);
      var first := Loop(pass.end, component, a[1..]);
      var second := Loop(first.end, component, b);
      assert pass.calls + (first.calls + second.calls) == (pass.calls + first.calls) + second.calls;
    }
  }

  /** A stretch of the loop extended by one more round. */
  lemma LoopExtend(st: LoopState, component: nat, rounds: seq<Round>, i: nat)
    requires i < |rounds|
    ensures var r := Loop(st, component, rounds[..i]);
            var q := Pass(r.end, component, rounds[i]);
            Loop(st, component, rounds[..i + 1]) == LoopRun(r.calls + q.calls, q.end)
  {
    assert rounds[..i + 1] == rounds[..i] + [rounds[i]];
    LoopAppend(st, component, rounds[..i], [rounds[i]]);
    assert [rounds[i]][1..] == [];
    var q := Pass(Loop(st, component, rounds[..i]).end, component, rounds[i]);
    assert q.calls + [] == q.calls;
  }

  /** One more round keeps the trace and the state of the background loop on `Loop`. */
  lemma LoopStep(start: LoopState, component: nat, rounds: seq<Round>, i: nat,
                 trace0: seq<Call>, trace: seq<Call>, st: LoopState, trace': seq<Call>, st': LoopState)
    requires i < |rounds|
    requires trace == trace0 + Loop(start, component, rounds[..i]).calls
    requires st == Loop(start, component, rounds[..i]).end
    requires trace' == trace + Pass(st, component, rounds[i]).calls
    requires st' == Pass(st, component, rounds[i]).end
    ensures trace' == trace0 + Loop(start, component, rounds[..i + 1]).calls
    ensures st' == Loop(start, component, rounds[..i + 1]).end
  {
    LoopExtend(start, component, rounds, i);
    var done := Loop(start, component, rounds[..i]).calls;
    var pass := Pass(st, component, rounds[i]).calls;
    assert (trace0 + done) + pass == trace0 + (done + pass);
  }

  /**
   * The click side of the loop is `PollRun`: its calls write exactly
   * `PollRun`'s component values, and it leaves `PollRun`'s in-click memory
   * and a flag cleared by the last exchange.
   */
  lemma {:induction false} LoopClicks(st: LoopState, component: nat, rounds: seq<Round>)
    ensures var r := Loop(st, component, rounds);
            var run := PollRun(st.flag, st.inClickEvent, WritesOf(rounds));
            && ClickUpdates(r.calls) == run.updates
            && r.end.inClickEvent == run.inClickEvent
            && r.end.flag == FlagAfter(st.flag, WritesOf(rounds))
    decreases |rounds|
  {
    if rounds != [] {
      var pass := Pass(st, component, rounds[0]);
      var rest := Loop(pass.end, component, rounds[1..]);
      LoopClicks(pass.end, component, rounds[1..]);
      assert WritesOf(rounds)[0] == rounds[0].writes && WritesOf(rounds)[1..] == WritesOf(rounds[1..]);
      PollCallsCount(Supervise(st.client, rounds[0].probe).launchAttempted, component,
                     Pulse(Overwrite(st.flag, rounds[0].writes), st.inClickEvent).update);
      TraceAppend(pass.calls, rest.calls);
    }
  }

  /**
   * The supervision side of the loop is `SupervisionRun`: its calls launch
   * the client exactly as often as `SupervisionRun` counts, and it leaves
   * `SupervisionRun`'s client record.
   */
  lemma {:induction false} LoopLaunches(st: LoopState, component: nat, rounds: seq<Round>)
    ensures var r := Loop(st, component, rounds);
            var sup := SupervisionRun(st.client, ProbesOf(rounds));
            && LaunchCount(r.calls) == sup.launches
            && r.end.client == sup.record
    decreases |rounds|
  {
    if rounds != [] {
      var pass := Pass(st, component, rounds[0]);
      var rest := Loop(pass.end, component, rounds[1..]);
      LoopLaunches(pass.end, component, rounds[1..]);
      assert ProbesOf(rounds)[0] == rounds[0].probe && ProbesOf(rounds)[1..] == ProbesOf(rounds[1..]);
      PollCallsCount(Supervise(st.client, rounds[0].probe).launchAttempted, component,
                     Pulse(Overwrite(st.flag, rounds[0].writes), st.inClickEvent).update);
      TraceAppend(pass.calls, rest.calls);
    }
  }

  /** The loop's effect on a trace it extends, in terms of `PollRun` and `SupervisionRun`. */
  lemma LoopExtendsTrace(st: LoopState, component: nat, rounds: seq<Round>, trace0: seq<Call>)
    ensures var r := Loop(st, component, rounds);
            var run := PollRun(st.flag, st.inClickEvent, WritesOf(rounds));
            var sup := SupervisionRun(st.client, ProbesOf(rounds));
            && ClickUpdates(trace0 + r.calls) == ClickUpdates(trace0) + run.updates
            && r.end.inClickEvent == run.inClickEvent
            && r.end.flag == FlagAfter(st.flag, WritesOf(rounds))
            && LaunchCount(trace0 + r.calls) == LaunchCount(trace0) + sup.launches
            && r.end.client == sup.record
  {
    LoopClicks(st, component, rounds);
    LoopLaunches(st, component, rounds);
    TraceAppend(trace0, Loop(st, component, rounds).calls);
  }

  /** The shim's fields other than the call trace. */
  datatype Snapshot = Snapshot(
    active: bool,
    deviceIndex: Uint32,
    clickComponent: nat,
    hasMappingHandle: bool,
    sharedMemory: SharedSignal?,
    client: ClientRecord,
    inClickEvent: bool)

  class HmdShimDriver {
    var active: bool
    var deviceIndex: Uint32
    var clickComponent: nat
    var hasMappingHandle: bool
    var sharedMemory: SharedSignal?
    var client: ClientRecord
    var inClickEvent: bool
    var trace: seq<Call>

    /**
     * Between activations nothing is mapped and the device index is invalid;
     * a view exists only with its mapping handle; and the in-click memory
     * says exactly whether the last value written to the click component
     * was `true`.
     */
    ghost predicate Valid()
      reads this
    {
      && (!active ==> sharedMemory == null && !hasMappingHandle && deviceIndex == InvalidDeviceIndex)
      && (sharedMemory != null ==> hasMappingHandle)
      && (inClickEvent <==> ClickPending(trace))
    }

    ghost function State(): Snapshot
      reads this
    {
      Snapshot(active, deviceIndex, clickComponent, hasMappingHandle, sharedMemory, client, inClickEvent)
    }

    constructor ()
      ensures Valid()
      ensures State() == Snapshot(false, InvalidDeviceIndex, InvalidComponentHandle, false, null, NoClient, false)
      ensures trace == []
    {
      active := false;
      deviceIndex := InvalidDeviceIndex;
      clickComponent := InvalidComponentHandle;
      hasMappingHandle := false;
      sharedMemory := null;
      client := NoClient;
      inClickEvent := false;
      trace := [];
    }

    /**
     * Activates the wrapped device first and returns its status unchanged,
     * whatever follows; then advertises the input profile, creates the click
     * component and the shared mapping (zeroing its view), and only then
     * marks the shim active and starts the background loop.  `deviceStatus`,
     * `container`, `component`, `mappingCreated` and `view` are what the
     * wrapped device, the property store, the input system,
     * `CreateFileMapping` and `MapViewOfFile` return.
     */
    method Activate(objectId: Uint32, deviceStatus: int, container: nat, component: nat,
                    mappingCreated: bool, view: SharedSignal?) returns (status: int)
      requires Valid() && !active
      requires mappingCreated ==> view != null
      modifies this, if mappingCreated then {view} else {}
      ensures Valid()
      ensures status == deviceStatus
      ensures State() == Snapshot(true, objectId, component, mappingCreated,
                                  if mappingCreated then view else null, old(client), old(inClickEvent))
      ensures mappingCreated ==> view.sendClickEvent == 0
      ensures trace == old(trace) + ActivationCalls(objectId, container, mappingCreated)
    {
      ActivationWritesNoClick(trace, objectId, container, mappingCreated);
      // The calls are collected as they are made and recorded at the end.
      var calls := [DeviceActivate(objectId)];
      status := deviceStatus;

      deviceIndex := objectId;
      calls := calls + [PropertyContainerOf(deviceIndex), SetInputProfilePath(container, InputProfilePath),
                        CreateBooleanComponent(container, ClickComponentPath)];
      clickComponent := component;

      calls := calls + [CreateFileMapping(SharedMemoryName)];
      hasMappingHandle := mappingCreated;
      if hasMappingHandle {
        sharedMemory := view;
        calls := calls + [MapViewOfFile, ZeroView];
        sharedMemory.sendClickEvent := 0;
      }

      active := true;
      calls := calls + [StartBackgroundThread];
      assert calls == ActivationCalls(objectId, container, mappingCreated);
      trace := trace + calls;
    }

    /**
     * Clears `active` first and joins the background loop only if it was
     * running; then releases whatever part of the mapping exists, invalidates
     * the device index and deactivates the wrapped device last, on every
     * call.  The client record and the in-click memory are left as they are.
     */
    method Deactivate()
      requires Valid()
      modifies this
      ensures Valid()
      ensures State() == Snapshot(false, InvalidDeviceIndex, old(clickComponent), false, null, old(client), old(inClickEvent))
      ensures trace == old(trace) + DeactivationCalls(old(active), old(sharedMemory) != null, old(hasMappingHandle))
    {
      DeactivationWritesNoClick(trace, active, sharedMemory != null, hasMappingHandle);
      // The calls are collected as they are made and recorded at the end.
      var calls := [];
      ghost var hadView, hadHandle := sharedMemory != null, hasMappingHandle;
      var wasActive := active;
      active := false;
      if wasActive {
        calls := calls + [JoinBackgroundThread];
      }

      if sharedMemory != null {
        calls := calls + [UnmapView];
        sharedMemory := null;
      }
      if hasMappingHandle {
        calls := calls + [CloseMapping];
        hasMappingHandle := false;
      }

      deviceIndex := InvalidDeviceIndex;

      calls := calls + [DeviceDeactivate];
      assert calls == DeactivationCalls(wasActive, hadView, hadHandle);
      trace := trace + calls;
    }

    /** Forwards to the wrapped device and does nothing else. */
    method EnterStandby()
      requires Valid()
      modifies this
      ensures Valid() && State() == old(State())
      ensures trace == old(trace) + [DeviceEnterStandby]
    {
      trace := trace + [DeviceEnterStandby];
      NoClickCalls(old(trace), [DeviceEnterStandby]);
    }

    /** Forwards to the wrapped device and returns its answer (`deviceResult`) unchanged. */
    method GetComponent(name: string, deviceResult: nat) returns (component: nat)
      requires Valid()
      modifies this
      ensures Valid() && State() == old(State())
      ensures component == deviceResult
      ensures trace == old(trace) + [DeviceGetComponent(name)]
    {
      trace := trace + [DeviceGetComponent(name)];
      NoClickCalls(old(trace), [DeviceGetComponent(name)]);
      component := deviceResult;
    }

    /** Forwards to the wrapped device and returns its pose (`devicePose`) unchanged. */
    method GetPose(devicePose: Pose) returns (pose: Pose)
      requires Valid()
      modifies this
      ensures Valid() && State() == old(State())
      ensures pose == devicePose
      ensures trace == old(trace) + [DeviceGetPose]
    {
      trace := trace + [DeviceGetPose];
      NoClickCalls(old(trace), [DeviceGetPose]);
      pose := devicePose;
    }

    /** Forwards to the wrapped device, which fills the caller's buffer with `deviceResponse`. */
    method DebugRequest(request: string, responseBufferSize: Uint32, deviceResponse: string) returns (response: string)
      requires Valid()
      modifies this
      ensures Valid() && State() == old(State())
      ensures response == deviceResponse
      ensures trace == old(trace) + [DeviceDebugRequest(request, responseBufferSize)]
    {
      trace := trace + [DeviceDebugRequest(request, responseBufferSize)];
      NoClickCalls(old(trace), [DeviceDebugRequest(request, responseBufferSize)]);
      response := deviceResponse;
    }

    /**
     * One iteration of the background loop, after its sleep.  An inactive
     * shim stops the loop and touches nothing.  Otherwise: supervise the
     * client utility as `Supervise` says, then exchange the shared flag with
     * zero and issue the component update `Pulse` says.
     *
     * The flag is read through the view without a null check, so an active
     * shim must have a view: the case where the mapping failed at activation
     * is excluded here, not skipped.
     */
    method PollStep(probe: Probe) returns (continues: bool)
      requires Valid()
      requires active ==> sharedMemory != null
      modifies this, sharedMemory
      ensures Valid()
      ensures continues == old(active)
      ensures !old(active) ==> State() == old(State()) && trace == old(trace)
      ensures old(active) ==>
                var s := Supervise(old(client), probe);
                var p := Pulse(old(sharedMemory.sendClickEvent), old(inClickEvent));
                && State() == old(State()).(client := s.record, inClickEvent := p.inClickEvent)
                && sharedMemory.sendClickEvent == 0
                && trace == old(trace) + PollCalls(s.launchAttempted, clickComponent, p.update)
    {
      if !active {
        return false;
      }

      // Forget a client utility that has exited.
      if client.Recorded? && probe.waitCode == WaitObject0 {
        client := NoClient;
      }
      // Start it if none is recorded; a failed launch records nothing.  The
      // calls are collected as they are made and recorded at the end.
      var calls := [];
      if client.NoClient? {
        calls := [LaunchClient];
        match probe.launch {
          case LaunchFailed =>
          case Launched(pid) => client := Recorded(pid);
        }
      }
      ghost var launched := calls != [];

      var previous := sharedMemory.Exchange(0);
      if previous != 0 {
        calls := calls + [UpdateBooleanComponent(clickComponent, true)];
        inClickEvent := true;
      } else if inClickEvent {
        calls := calls + [UpdateBooleanComponent(clickComponent, false)];
        inClickEvent := false;
      }
      ghost var p := Pulse(previous, old(inClickEvent));
      assert calls == PollCalls(launched, clickComponent, p.update);
      PollPending(trace, launched, clickComponent, p.update);
      trace := trace + calls;
      continues := true;
    }

    /**
     * The background loop over a stretch of rounds during which the shim
     * stays active: before each poll the client utility stores into the
     * flag `writes` times, then `PollStep` runs.  The calls made and the
     * state left are exactly those of `Loop`; so the click values written
     * are exactly those of `PollRun`, and the client record and launch count
     * those of `SupervisionRun`.
     */
    method BackgroundThread(rounds: seq<Round>)
      requires Valid() && active && sharedMemory != null
      modifies this, sharedMemory
      ensures Valid()
      ensures var r := Loop(LoopState(old(sharedMemory.sendClickEvent), old(inClickEvent), old(client)), clickComponent, rounds);
              && trace == old(trace) + r.calls
              && State() == old(State()).(client := r.end.client, inClickEvent := r.end.inClickEvent)
              && sharedMemory.sendClickEvent == r.end.flag
      ensures ClickUpdates(trace)
           == ClickUpdates(old(trace)) + PollRun(old(sharedMemory.sendClickEvent), old(inClickEvent), WritesOf(rounds)).updates
      ensures inClickEvent == PollRun(old(sharedMemory.sendClickEvent), old(inClickEvent), WritesOf(rounds)).inClickEvent
      ensures sharedMemory.sendClickEvent == FlagAfter(old(sharedMemory.sendClickEvent), WritesOf(rounds))
      ensures LaunchCount(trace) == LaunchCount(old(trace)) + SupervisionRun(old(client), ProbesOf(rounds)).launches
      ensures client == SupervisionRun(old(client), ProbesOf(rounds)).record
    {
      ghost var start := LoopState(sharedMemory.sendClickEvent, inClickEvent, client);
      var i := 0;
      while i < |rounds|
        invariant 0 <= i <= |rounds|
        invariant Valid() && active && sharedMemory == old(sharedMemory)
        invariant State() == old(State()).(client := client, inClickEvent := inClickEvent)
        invariant var r := Loop(start, clickComponent, rounds[..i]);
                  && trace == old(trace) + r.calls
                  && r.end == LoopState(sharedMemory.sendClickEvent, inClickEvent, client)
      {
        ghost var stateBefore := LoopState(sharedMemory.sendClickEvent, inClickEvent, client);
        ghost var traceBefore := trace;
        // What the client utility stores between the previous poll and this one.
        sharedMemory.RequestClicks(rounds[i].writes);
        assert sharedMemory.sendClickEvent == Overwrite(stateBefore.flag, rounds[i].writes);
        var _ := PollStep(rounds[i].probe);
        ghost var pass := Pass(stateBefore, clickComponent, rounds[i]);
        assert trace == traceBefore + pass.calls;
        assert LoopState(sharedMemory.sendClickEvent, inClickEvent, client) == pass.end;
        LoopStep(start, clickComponent, rounds, i, old(trace), traceBefore, stateBefore,
                 trace, LoopState(sharedMemory.sendClickEvent, inClickEvent, client));
        i := i + 1;
      }
      assert rounds[..i] == rounds;
      LoopExtendsTrace(start, clickComponent, rounds, old(trace));
    }
  }

  /**
   * Activation without a shared mapping still returns the wrapped device's
   * status, and the following deactivation releases nothing it does not
   * hold and still deactivates the wrapped device.
   *
   * This holds only when deactivation comes before the background loop's
   * first pass.  That pass reads the flag through the missing view, so a
   * failed mapping is not harmless: `PollStep` cannot be called on this
   * shim, because its precondition demands a view while the shim is active.
   */
  method MappingFailureScenario(objectId: Uint32, deviceStatus: int) returns (status: int, calls: seq<Call>)
    ensures status == deviceStatus
    ensures calls == [DeviceActivate(objectId), PropertyContainerOf(objectId),
                      SetInputProfilePath(7, InputProfilePath),
                      CreateBooleanComponent(7, ClickComponentPath),
                      CreateFileMapping(SharedMemoryName),
                      StartBackgroundThread, JoinBackgroundThread, DeviceDeactivate]
  {
    var shim := new HmdShimDriver();
    status := shim.Activate(objectId, deviceStatus, 7, 3, false, null);
    shim.Deactivate();
    calls := shim.trace;
  }
}
