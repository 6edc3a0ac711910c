/**
  The event threads sleep on: an eventfd counter. A coalescing event, as the edges use, also keeps a flag
  that says the last write is unread, and skips further writes; a plain one writes on every signal.
 */
module EventFd {

  /** An eventfd counter, and the flag that says a coalescing write has not been read yet. */
  datatype Ev = Ev(count: nat, flag: bool) {
    /** The atomic exchange of the flag; the caller looks at the old flag to see whether to write. */
    function Exchanged(): Ev { Ev(count, true) }
    function Written(): Ev { Ev(count + 1, flag) }
    function Read(): Ev { Ev(0, flag) }
    function Cleared(): Ev { Ev(count, false) }
    /** A whole signal() that nobody interrupts. */
    function Signalled(): Ev { if flag then this else Exchanged().Written() }
  }

  /**
    Coalescing costs no wake-up: signals that find the last write unread add nothing, yet the
    counter is readable after any positive number of them, as long as the flag told the truth.
   */
  lemma SignalsCoalesce(e: Ev)
    requires e.flag ==> e.count > 0
    ensures e.Signalled().count > 0 && e.Signalled().flag
    ensures e.Signalled().Signalled() == e.Signalled()
    ensures e.Signalled().Read().Cleared() == Ev(0, false)
  {
  }

  class Event {
    const coalesces: bool
    var counter: nat
    var written: bool

    ghost function Value(): Ev
      reads this
    {
      Ev(counter, written)
    }

    constructor (coalesces: bool)
      ensures Value() == Ev(0, false) && this.coalesces == coalesces
    {
      this.coalesces := coalesces;
      counter, written := 0, false;
    }

    method Signal()
      modifies this
      ensures Value() == if coalesces then old(Value()).Signalled() else old(Value()).Written()
    {
      if coalesces {
        var unread := written;
        written := true;
        if unread {
          return;
        }
      }
      counter := counter + 1;
    }

    /** wait() with a readable descriptor: returns and resets the counter, then clears the flag. */
    method Wait() returns (val: nat)
      requires counter > 0
      modifies this
      ensures val == old(counter) && Value() == Ev(0, false)
    {
      val := counter;
      counter := 0;
      written := false;
    }
  }
}
