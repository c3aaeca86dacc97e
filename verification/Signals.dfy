/** The signal flag, its handler, and the lock-free settled flag they share with a run. */
module Signals {
  import opened Outcomes

  class Interruption {
    /** A signal has reached the handler; from then on both signals are ignored. */
    var received: bool
    /** The signal arrived once the outcome was settled, and was only recorded. */
    var deferred: bool
    /** The run's outcome is fixed (the program's `Settled`). */
    var settled: bool

    constructor ()
      ensures !received && !deferred && !settled
    {
      received, deferred, settled := false, false, false;
    }

    /** The handler: record the signal, then raise unless the outcome is settled. */
    method Handle() returns (r: Flow)
      requires !received
      modifies this`received, this`deferred
      ensures received && deferred == (old(deferred) || settled)
      ensures r == if settled then Go else Raise(Interrupted)
    {
      received := true;
      if settled {
        deferred := true;
        return Go;
      }
      return Raise(Interrupted);
    }

    /**
     * A point where a pending signal is delivered: any at all, or none.  At most one
     * ever reaches the handler, which ignores both signals before it does anything else.
     */
    method Boundary() returns (r: Flow)
      modifies this`received, this`deferred
      ensures old(received) || settled ==> r.Go?
      ensures r.Raise? ==> r.ending == Interrupted && received && deferred == old(deferred)
      ensures r.Go? && !settled ==> received == old(received) && deferred == old(deferred)
      ensures old(received) ==> received && deferred == old(deferred)
      ensures deferred && !old(deferred) ==> settled && received && !old(received)
    {
      var lands: bool := *;
      if lands && !received {
        r := Handle();
      } else {
        r := Go;
      }
    }

    /**
     * A signal lands while a run is going on.  A statement
     * `if { case !signal.received => :- signal.Land(); case true => }` marks a point between
     * two others where one may.
     */
    method Land() returns (r: Flow)
      requires !received && !settled
      modifies this`received, this`deferred
      ensures r == Raise(Interrupted) && received && deferred == old(deferred)
    {
      r := Handle();
    }

    /** `_settle`: the call, where a signal may still land, and then the one store. */
    method Settle() returns (r: Step<()>)
      modifies this
      ensures r.Value? ==> settled
      ensures r.Value? && !old(settled) ==> received == old(received) && deferred == old(deferred)
      ensures r.Raised? ==> r.ending == Interrupted && received && !old(received) && settled == old(settled)
      ensures old(received) || old(settled) ==> r.Value?
      ensures deferred && !old(deferred) ==> old(settled)
      ensures old(received) ==> received && deferred == old(deferred)
    {
      var landed := Boundary();
      if landed.Raise? {
        return Raised(landed.ending);
      }
      settled := true;
      return Value(());
    }

    /**
     * Settle, and let the run's own outcome stand over a signal that lands meanwhile
     * (`_absorb`): however the signal arrives, the run ends up settled, and no later
     * point can raise.
     */
    method SettleAbsorbing()
      modifies this
      ensures settled
      ensures old(received) ==> received && deferred == old(deferred)
    {
      var first := Settle();
      if first.Raised? {
        var again := Settle();
        assert again.Value?;
      }
    }
  }
}
