/**
 * The flag-to-pulse half of the driver shim's poll loop, as pure functions.
 *
 * Each poll exchanges the shared flag with zero.  A non-zero value raises the
 * click component and remembers that a click is in progress; a zero value
 * lowers the component again if, and only if, a click was in progress.  The
 * client never sends a release, so this turns the level the client stores
 * into a pulse one poll wide.
 */
module ClickPulse {
  import opened Wrappers
  import opened SharedMemory

  /** What one poll leaves behind: the new in-click memory and the component update it issued, if any. */
  datatype PollOutcome = PollOutcome(inClickEvent: bool, update: Option<bool>)

  /** One poll that read `flag` out of the shared record while the in-click memory held `inClickEvent`. */
  function Pulse(flag: int, inClickEvent: bool): (p: PollOutcome)
    ensures p.inClickEvent <==> flag != 0
    ensures p.update.Some? ==> p.update.value == p.inClickEvent
    ensures p.update.None? <==> flag == 0 && !inClickEvent
  {
    if flag != 0 then PollOutcome(true, Some(true))
    else if inClickEvent then PollOutcome(false, Some(false))
    else PollOutcome(false, None)
  }

  /** The values written to the click component by one poll. */
  function UpdatesOf(update: Option<bool>): seq<bool>
  {
    match update
    case None => []
    case Some(v) => [v]
  }

  /** The component values written over a run of polls, and the in-click memory at its end. */
  datatype Run = Run(updates: seq<bool>, inClickEvent: bool)

  /**
   * A run of polls.  Before poll `i` the client stores 1 into the flag
   * `writes[i]` times; the first poll sees `flag` otherwise, and every later
   * poll sees what the previous exchange left, which is zero.
   */
  function PollRun(flag: int, inClickEvent: bool, writes: seq<nat>): (r: Run)
    ensures |r.updates| <= |writes|
    decreases |writes|
  {
    if writes == [] then Run([], inClickEvent)
    else
      var p := Pulse(Overwrite(flag, writes[0]), inClickEvent);
      var rest := PollRun(0, p.inClickEvent, writes[1..]);
      Run(UpdatesOf(p.update) + rest.updates, rest.inClickEvent)
  }

  /** The shared flag after a run of polls: cleared by the last exchange, if there was one. */
  function FlagAfter(flag: int, writes: seq<nat>): int
  {
    if writes == [] then flag else 0
  }

  /** A stretch of `n` polls with no request in between. */
  function Quiet(n: nat): (q: seq<nat>)
    ensures |q| == n && forall i :: 0 <= i < n ==> q[i] == 0
  {
    seq(n, _ => 0)
  }

  /** Number of `true` entries: the polls that raised the click. */
  function CountTrue(s: seq<bool>): nat
  {
    if s == [] then 0 else (if s[0] then 1 else 0) + CountTrue(s[1..])
  }

  /** Number of poll windows in which the client stored the flag at least once. */
  function PressedPolls(writes: seq<nat>): nat
  {
    if writes == [] then 0 else (if writes[0] > 0 then 1 else 0) + PressedPolls(writes[1..])
  }

  /** Every release written is the first update after a press (or releases the click pending at the start). */
  predicate ReleasesFollowClicks(inClickEvent: bool, updates: seq<bool>)
  {
    forall i :: 0 <= i < |updates| && !updates[i] ==> if i == 0 then inClickEvent else updates[i - 1]
  }

  /** Running two schedules back to back is the same as running their concatenation. */
  lemma {:induction false} PollRunAppend(flag: int, inClickEvent: bool, a: seq<nat>, b: seq<nat>)
    ensures PollRun(flag, inClickEvent, a + b)
         == var first := PollRun(flag, inClickEvent, a);
            var second := PollRun(FlagAfter(flag, a), first.inClickEvent, b);
            Run(first.updates + second.updates, second.inClickEvent)
    decreases |a|
  {
    if a == [] {
      assert a + b == b;
    } else {
      var p := Pulse(Overwrite(flag, a[0]), inClickEvent);
      assert (a + b)[0] == a[0];
      assert (a + b)[1..] == a[1..] + b;
      PollRunAppend(0, p.inClickEvent, a[1..], b);
      var first := PollRun(0, p.inClickEvent, a[1..]);
      var second := PollRun(0, first.inClickEvent, b);
      assert UpdatesOf(p.update) + (first.updates + second.updates)
          == (UpdatesOf(p.update) + first.updates) + second.updates;
    }
  }

  /** Polls with nothing requested and no click pending issue no update at all. */
  lemma {:induction false} QuietPollsAreSilent(n: nat)
    ensures PollRun(0, false, Quiet(n)) == Run([], false)
    decreases n
  {
    if n > 0 {
      assert Quiet(n)[1..] == Quiet(n - 1);
      QuietPollsAreSilent(n - 1);
    }
  }

  /**
   * One request, or any burst of requests between the same two polls,
   * followed by at least one quiet poll: the component sees exactly one
   * rising and one falling edge, and the click is not left pending.  The
   * stale flag and the click memory at the start do not matter.
   */
  lemma SinglePressPulse(flag: int, inClickEvent: bool, k: nat, n: nat)
    requires k >= 1 && n >= 1
    ensures PollRun(flag, inClickEvent, [k] + Quiet(n)) == Run([true, false], false)
  {
    var w := [k] + Quiet(n);
    assert w[0] == k && w[1..] == Quiet(n);
    assert Quiet(n)[0] == 0 && Quiet(n)[1..] == Quiet(n - 1);
    QuietPollsAreSilent(n - 1);
  }

  /**
   * Each poll window that saw at least one request writes `true` exactly
   * once; a stale non-zero flag writes it once more if the first window was
   * quiet.  No other poll writes `true`.  Two such writes in a row reach the
   * host as one held press, not as two clicks.
   */
  lemma {:induction false} OneRaisePerPressedPoll(flag: int, inClickEvent: bool, writes: seq<nat>)
    ensures CountTrue(PollRun(flag, inClickEvent, writes).updates)
         == PressedPolls(writes) + (if writes != [] && writes[0] == 0 && flag != 0 then 1 else 0)
    decreases |writes|
  {
    if writes != [] {
      var p := Pulse(Overwrite(flag, writes[0]), inClickEvent);
      var rest := PollRun(0, p.inClickEvent, writes[1..]);
      OneRaisePerPressedPoll(0, p.inClickEvent, writes[1..]);
      var u := UpdatesOf(p.update) + rest.updates;
      if p.update.Some? {
        assert u[0] == p.update.value && u[1..] == rest.updates;
      } else {
        assert u == rest.updates;
      }
    }
  }

  /** The component is never lowered except right after it was raised. */
  lemma {:induction false} ReleaseOnlyAfterClick(flag: int, inClickEvent: bool, writes: seq<nat>)
    ensures ReleasesFollowClicks(inClickEvent, PollRun(flag, inClickEvent, writes).updates)
    decreases |writes|
  {
    if writes != [] {
      var p := Pulse(Overwrite(flag, writes[0]), inClickEvent);
      var rest := PollRun(0, p.inClickEvent, writes[1..]);
      ReleaseOnlyAfterClick(0, p.inClickEvent, writes[1..]);
      var u := UpdatesOf(p.update) + rest.updates;
      assert ReleasesFollowClicks(p.inClickEvent, rest.updates);
      if p.update.Some? {
        forall i | 0 <= i < |u| && !u[i]
          ensures if i == 0 then inClickEvent else u[i - 1]
        {
          if i > 0 {
            assert u[i] == rest.updates[i - 1];
            assert i - 1 < |rest.updates| && !rest.updates[i - 1];
            assert if i - 1 == 0 then p.inClickEvent else rest.updates[i - 2];
            assert u[i - 1] == if i == 1 then p.inClickEvent else rest.updates[i - 2];
          }
        }
      } else {
        assert u == rest.updates;
      }
    }
  }

  /**
   * Whatever happened before, the last request followed by at least one
   * quiet poll ends the run with a raise and then a release, and leaves no
   * click pending.
   */
  lemma ReleaseAfterLastPress(flag: int, inClickEvent: bool, before: seq<nat>, k: nat, n: nat)
    requires k >= 1 && n >= 1
    ensures var r := PollRun(flag, inClickEvent, before + ([k] + Quiet(n)));
            |r.updates| >= 2 && r.updates[|r.updates| - 2..] == [true, false] && !r.inClickEvent
  {
    PollRunAppend(flag, inClickEvent, before, [k] + Quiet(n));
    var first := PollRun(flag, inClickEvent, before);
    SinglePressPulse(FlagAfter(flag, before), first.inClickEvent, k, n);
  }
}
