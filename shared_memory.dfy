/**
 * The shared signal channel: one fixed-size record mapped by both the driver
 * shim and the client utility under a well-known name.  Its single field is a
 * 32-bit flag that the client sets to 1 and the driver reads and clears with
 * one atomic exchange.
 */
module SharedMemory {

  /** Name of the file mapping both processes open. */
  const SharedMemoryName: string := "KeyboardNav.SharedMemory"

  /** One view of the shared record. Both processes hold a reference to the same object. */
  class SharedSignal {
    var sendClickEvent: int

    /** A freshly created mapping reads as zero. */
    constructor ()
      ensures sendClickEvent == 0
    {
      sendClickEvent := 0;
    }

    /** `InterlockedExchange`: store `value` and return what was there, as one step. */
    method Exchange(value: int) returns (previous: int)
      modifies this
      ensures previous == old(sendClickEvent)
      ensures sendClickEvent == value
    {
      previous := sendClickEvent;
      sendClickEvent := value;
    }

    /** The client utility's plain store of 1 into the flag. */
    method RequestClick()
      modifies this
      ensures sendClickEvent == 1
    {
      sendClickEvent := 1;
    }

    /**
     * The client utility's stores over one stretch between two polls:
     * `writes` of them, one after another.  A store overwrites rather than
     * counts, so any non-empty burst leaves exactly 1 and requests merge.
     */
    method RequestClicks(writes: nat)
      modifies this
      ensures writes > 0 ==> sendClickEvent == 1
      ensures writes == 0 ==> sendClickEvent == old(sendClickEvent)
    {
      var j := 0;
      while j < writes
        invariant 0 <= j <= writes
        invariant sendClickEvent == if j == 0 then old(sendClickEvent) else 1
      {
        RequestClick();
        j := j + 1;
      }
    }
  }

  /** The flag after `writes` successive `RequestClick` stores, starting from `flag`. */
  function Overwrite(flag: int, writes: nat): int
  {
    if writes == 0 then flag else 1
  }
}
