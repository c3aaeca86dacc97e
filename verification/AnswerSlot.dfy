/**
 * The single-answer slot the operator waits share: one lock, one answer, one event, and any
 * number of threads each inside one call.  A step is one statement of one thread.
 */
module AnswerSlot {
  import opened Outcomes

  type Answer = nat

  datatype Call = Offer(answer: Answer) | Settle(answer: Answer)

  /** Where a thread is in its call, and what it has read. */
  datatype Place =
    | Start
    | Inside                    // holds the lock
    | SawFree                   // holds the lock, and found no answer
    | SawTaken                  // holds the lock, and found an answer
    | Wrote                     // holds the lock, and wrote its own answer
    | Read(claimed: Answer)     // holds the lock, a settle that read the claimed answer
    | Leaving(claimed: Answer)  // gave the lock back, and has the event to set
    | Won                       // an offer returned True
    | Lost                      // an offer returned False
    | Settled(claimed: Answer)  // a settle returned this

  datatype Thread = Thread(call: Call, place: Place)

  datatype Slot = Slot(owner: Option<nat>, outcome: Option<Answer>, event: bool, threads: seq<Thread>)

  predicate HoldsLock(place: Place) {
    place.Inside? || place.SawFree? || place.SawTaken? || place.Wrote? || place.Read?
  }

  function At(s: Slot, t: nat, place: Place): Slot
    requires t < |s.threads|
  {
    s.(threads := s.threads[t := Thread(s.threads[t].call, place)])
  }

  ghost predicate Init(s: Slot) {
    && s.owner == None && s.outcome == None && !s.event
    && forall t :: 0 <= t < |s.threads| ==> s.threads[t].place == Start
  }

  /** One statement of thread `t`. */
  ghost predicate Step(s: Slot, t: nat, s': Slot) {
    && t < |s.threads|
    && var thread := s.threads[t];
       match thread.place
       case Start => s.owner == None && s' == At(s, t, Inside).(owner := Some(t))
       case Inside => s' == At(s, t, if s.outcome == None then SawFree else SawTaken)
       case SawFree => s' == At(s, t, Wrote).(outcome := Some(thread.call.answer))
       case SawTaken =>
         if thread.call.Offer? then s' == At(s, t, Lost).(owner := None)
         else s.outcome.Some? && s' == At(s, t, Read(s.outcome.value))
       case Wrote =>
         if thread.call.Offer? then s' == At(s, t, Leaving(thread.call.answer)).(owner := None)
         else s.outcome.Some? && s' == At(s, t, Read(s.outcome.value))
       case Read(claimed) => s' == At(s, t, Leaving(claimed)).(owner := None)
       case Leaving(claimed) => s' == At(s, t, if thread.call.Offer? then Won else Settled(claimed)).(event := true)
       case _ => false
  }

  ghost predicate Run(states: seq<Slot>) {
    && states != []
    && Init(states[0])
    && forall i :: 0 <= i < |states| - 1 ==> Next(states[i], states[i + 1])
  }

  ghost predicate Next(s: Slot, s': Slot) {
    exists t :: Step(s, t, s')
  }

  /** What a thread's place says of the slot. */
  ghost predicate ThreadFits(s: Slot, t: nat)
    requires t < |s.threads|
  {
    var thread := s.threads[t];
    && (HoldsLock(thread.place) <==> s.owner == Some(t))
    && match thread.place
       case SawFree => s.outcome == None
       case SawTaken => s.outcome.Some?
       case Wrote => s.outcome == Some(thread.call.answer)
       case Read(claimed) => thread.call.Settle? && s.outcome == Some(claimed)
       case Leaving(claimed) => s.outcome == Some(claimed) && (thread.call.Offer? ==> claimed == thread.call.answer)
       case Won => thread.call.Offer? && s.outcome == Some(thread.call.answer) && s.event
       case Lost => thread.call.Offer? && s.outcome.Some?
       case Settled(claimed) => thread.call.Settle? && s.outcome == Some(claimed) && s.event
       case _ => true
  }

  /** Whether this thread is the one whose offer claimed the slot. */
  predicate Claims(thread: Thread) {
    thread.call.Offer? && (thread.place.Wrote? || thread.place.Leaving? || thread.place.Won?)
  }

  ghost predicate Inv(s: Slot) {
    && (forall t :: 0 <= t < |s.threads| ==> ThreadFits(s, t))
    && (s.event ==> s.outcome.Some?)
    && (forall t, u :: 0 <= t < u < |s.threads| ==> !(Claims(s.threads[t]) && Claims(s.threads[u])))
    && (s.outcome == None ==> forall t :: 0 <= t < |s.threads| ==> !Claims(s.threads[t]))
  }

  lemma StepFits(s: Slot, t: nat, s': Slot, u: nat)
    requires Inv(s) && Step(s, t, s') && u < |s'.threads|
    ensures u < |s.threads| && ThreadFits(s', u)
  {
    assert ThreadFits(s, t);
    assert ThreadFits(s, u);
  }

  lemma StepClaims(s: Slot, t: nat, s': Slot, u: nat)
    requires Inv(s) && Step(s, t, s') && u < |s'.threads|
    ensures s'.outcome == None ==> !Claims(s'.threads[u])
    ensures forall v :: 0 <= v < |s'.threads| && v != u ==> !(Claims(s'.threads[u]) && Claims(s'.threads[v]))
  {
    assert ThreadFits(s, t);
    assert ThreadFits(s, u);
  }

  lemma StepKeepsInv(s: Slot, t: nat, s': Slot)
    requires Inv(s) && Step(s, t, s')
    ensures Inv(s')
    ensures |s'.threads| == |s.threads|
    ensures s.outcome.Some? ==> s'.outcome == s.outcome
    ensures s.event ==> s'.event
  {
    assert ThreadFits(s, t);
    forall u | 0 <= u < |s'.threads| ensures ThreadFits(s', u) {
      StepFits(s, t, s', u);
    }
    forall u | 0 <= u < |s'.threads|
      ensures s'.outcome == None ==> !Claims(s'.threads[u])
      ensures forall v :: 0 <= v < |s'.threads| && v != u ==> !(Claims(s'.threads[u]) && Claims(s'.threads[v]))
    {
      StepClaims(s, t, s', u);
    }
  }

  /** Every state of every run meets the invariant, and an answer once claimed stays. */
  lemma {:induction false} RunKeepsInv(states: seq<Slot>, i: nat, j: nat)
    requires Run(states) && i <= j < |states|
    ensures Inv(states[i]) && Inv(states[j])
    ensures states[i].outcome.Some? ==> states[j].outcome == states[i].outcome
    ensures states[i].event ==> states[j].event
    ensures |states[j].threads| == |states[i].threads|
    decreases j
  {
    if j > 0 {
      if i < j {
        RunKeepsInv(states, i, j - 1);
      } else {
        RunKeepsInv(states, j - 1, j - 1);
      }
      assert Next(states[j - 1], states[j - 1 + 1]);
      var t :| Step(states[j - 1], t, states[j]);
      StepKeepsInv(states[j - 1], t, states[j]);
    }
  }

  /**
   * Over every interleaving: the answer never changes once it is there; every settle that has
   * returned, in any two states, returned that one answer; at most one offer wins, and the
   * answer is then its own; and a thread that finds the event set finds an answer.
   */
  lemma OneAnswer(states: seq<Slot>, i: nat, j: nat, t: nat, u: nat)
    requires Run(states) && i <= j < |states| && t < |states[i].threads| && u < |states[j].threads|
    ensures states[i].outcome.Some? ==> states[j].outcome == states[i].outcome
    ensures states[i].threads[t].place.Settled? ==> states[j].outcome == Some(states[i].threads[t].place.claimed)
    ensures states[i].threads[t].place.Settled? && states[j].threads[u].place.Settled? ==>
              states[i].threads[t].place.claimed == states[j].threads[u].place.claimed
    ensures states[i].threads[t].place.Won? ==> states[j].outcome == Some(states[i].threads[t].call.answer)
    ensures i == j && states[i].threads[t].place.Won? && states[j].threads[u].place.Won? ==> t == u
    ensures states[j].event ==> states[j].outcome.Some?
  {
    RunKeepsInv(states, i, j);
    assert ThreadFits(states[i], t) && ThreadFits(states[j], u);
  }

  /** A losing offer changes neither the answer nor the event. */
  lemma LosingLeavesNoTrace(s: Slot, t: nat, s': Slot)
    requires Inv(s) && Step(s, t, s') && s'.threads[t].place.Lost?
    ensures s'.outcome == s.outcome && s'.outcome.Some? && s'.event == s.event
  {
    assert ThreadFits(s, t);
  }

  /** Nobody is stuck: while a call has not returned, some thread can take a step. */
  lemma SomeoneCanStep(s: Slot, t: nat) returns (u: nat, s': Slot)
    requires Inv(s) && t < |s.threads|
    requires !s.threads[t].place.Won? && !s.threads[t].place.Lost? && !s.threads[t].place.Settled?
    requires forall o | s.owner == Some(o) :: o < |s.threads|
    ensures Step(s, u, s')
  {
    u := if s.threads[t].place.Start? && s.owner.Some? then s.owner.value else t;
    assert ThreadFits(s, u);
    var thread := s.threads[u];
    match thread.place
    case Start => s' := At(s, u, Inside).(owner := Some(u));
    case Inside => s' := At(s, u, if s.outcome == None then SawFree else SawTaken);
    case SawFree => s' := At(s, u, Wrote).(outcome := Some(thread.call.answer));
    case SawTaken =>
      s' := if thread.call.Offer? then At(s, u, Lost).(owner := None) else At(s, u, Read(s.outcome.value));
    case Wrote =>
      s' := if thread.call.Offer? then At(s, u, Leaving(thread.call.answer)).(owner := None)
            else At(s, u, Read(s.outcome.value));
    case Read(claimed) => s' := At(s, u, Leaving(claimed)).(owner := None);
    case Leaving(claimed) => s' := At(s, u, if thread.call.Offer? then Won else Settled(claimed)).(event := true);
  }
}
