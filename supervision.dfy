/**
 * The process-supervision half of the driver shim's poll loop, as pure
 * functions.  Each poll first asks whether a recorded client utility has
 * exited, forgets it if so, and then tries to launch the client whenever no
 * process is recorded.  A failed launch leaves nothing recorded, so the next
 * poll tries again.
 */
module Supervision {

  /** What `WaitForSingleObject` returns for a process that has exited (`WAIT_OBJECT_0`). */
  const WaitObject0: nat := 0

  /** A process id.  Zero is not one: the driver uses a zero id to mean that no client is recorded. */
  type ProcessId = x: nat | x > 0 witness 1

  /** The driver's record of the client utility: none (a zero process id) or a launched process. */
  datatype ClientRecord = NoClient | Recorded(processId: ProcessId)

  /** What `CreateProcess` did when asked to start the client utility. */
  datatype LaunchOutcome = LaunchFailed | Launched(processId: ProcessId)

  /** The operating system's answers for one poll: the wait status of the recorded process, and the launch result if a launch is made. */
  datatype Probe = Probe(waitCode: nat, launch: LaunchOutcome)

  /** The record after one poll, and whether that poll tried to launch the client. */
  datatype Supervised = Supervised(record: ClientRecord, launchAttempted: bool)

  /** The record a launch leaves: the new process if it started, nothing otherwise. */
  function AfterLaunch(launch: LaunchOutcome): ClientRecord
  {
    match launch
    case LaunchFailed => NoClient
    case Launched(pid) => Recorded(pid)
  }

  /**
   * One poll's supervision.  Only a wait status of `WAIT_OBJECT_0` counts as
   * exited; a timeout or a failed wait keeps the record.  The exited record
   * is cleared before the launch check, so the same poll relaunches it.
   */
  function Supervise(client: ClientRecord, probe: Probe): (s: Supervised)
    ensures s.launchAttempted <==> client.NoClient? || probe.waitCode == WaitObject0
    ensures s.launchAttempted ==> s.record == AfterLaunch(probe.launch)
    ensures !s.launchAttempted ==> s.record == client
  {
    var alive := if client.Recorded? && probe.waitCode == WaitObject0 then NoClient else client;
    if alive.NoClient? then Supervised(AfterLaunch(probe.launch), true) else Supervised(alive, false)
  }

  /** The record after a run of polls, and how many of them tried to launch the client. */
  datatype Summary = Summary(record: ClientRecord, launches: nat)

  function SupervisionRun(client: ClientRecord, probes: seq<Probe>): (r: Summary)
    ensures r.launches <= |probes|
    decreases |probes|
  {
    if probes == [] then Summary(client, 0)
    else
      var s := Supervise(client, probes[0]);
      var rest := SupervisionRun(s.record, probes[1..]);
      Summary(rest.record, rest.launches + if s.launchAttempted then 1 else 0)
  }

  /** Running two stretches of polls back to back is the same as running their concatenation. */
  lemma {:induction false} SupervisionRunAppend(client: ClientRecord, a: seq<Probe>, b: seq<Probe>)
    ensures SupervisionRun(client, a + b)
         == var first := SupervisionRun(client, a);
            var second := SupervisionRun(first.record, b);
            Summary(second.record, first.launches + second.launches)
    decreases |a|
  {
    if a == [] {
      assert a + b == b;
    } else {
      assert (a + b)[0] == a[0];
      assert (a + b)[1..] == a[1..] + b;
      SupervisionRunAppend(Supervise(client, a[0]).record, a[1..], b);
    }
  }

  /**
   * Launch failure is never fatal: while every launch fails, every poll
   * tries again and the record stays empty.
   */
  lemma {:induction false} FailedLaunchRetriedEveryPoll(probes: seq<Probe>)
    requires forall i :: 0 <= i < |probes| ==> probes[i].launch == LaunchFailed
    ensures SupervisionRun(NoClient, probes) == Summary(NoClient, |probes|)
    decreases |probes|
  {
    if probes != [] {
      FailedLaunchRetriedEveryPoll(probes[1..]);
    }
  }

  /** A client that keeps running is never relaunched and stays recorded. */
  lemma {:induction false} LiveClientKept(processId: ProcessId, probes: seq<Probe>)
    requires forall i :: 0 <= i < |probes| ==> probes[i].waitCode != WaitObject0
    ensures SupervisionRun(Recorded(processId), probes) == Summary(Recorded(processId), 0)
    decreases |probes|
  {
    if probes != [] {
      LiveClientKept(processId, probes[1..]);
    }
  }

  /**
   * A client seen to exit is replaced within the same poll: the record ends
   * up holding whatever that poll's launch produced, and exactly one launch
   * is made.
   */
  lemma ExitedClientRelaunched(processId: ProcessId, before: seq<Probe>, probe: Probe)
    requires forall i :: 0 <= i < |before| ==> before[i].waitCode != WaitObject0
    requires probe.waitCode == WaitObject0
    ensures SupervisionRun(Recorded(processId), before + [probe]) == Summary(AfterLaunch(probe.launch), 1)
  {
    SupervisionRunAppend(Recorded(processId), before, [probe]);
    LiveClientKept(processId, before);
  }
}
