/** The prompts a run puts to its operator, and the ways a wait can end. */
module Operators {
  import opened Outcomes
  import opened Signals

  datatype PassAnswer = Next | Rescan | Finish | Abort | SkipBlanks | KeepBlanks | TimedOut | StopAsked

  datatype PassWait = NextPass | BlankDecision | Retry

  datatype PassPrompt = PassPrompt(number: nat, wait: PassWait, kept: int, offered: set<PassAnswer>)

  /** The two ways a wait ends that no prompt offers: the clock, and saneless stopping. */
  const EndingsNobodyOffers: set<PassAnswer> := {TimedOut, StopAsked}
  const RetryAnswers: set<PassAnswer> := {Next, Finish, Abort}
  const BlankAnswers: set<PassAnswer> := {Rescan, SkipBlanks, KeepBlanks}

  /** The answers given in a run, each with the wait it ended, one after another. */
  datatype Answers = NoAnswers | Heard(before: Answers, wait: PassWait, last: PassAnswer)

  /** One more answer is a longer list of them. */
  lemma {:induction false} HeardMore(answers: Answers, wait: PassWait, answer: PassAnswer)
    ensures Heard(answers, wait, answer) != answers
  {
    if answers.Heard? {
      HeardMore(answers.before, answers.wait, answers.last);
    }
  }

  /** How often the operator chose Re-scan. */
  ghost function RescansAsked(answers: Answers): nat {
    match answers
    case NoAnswers => 0
    case Heard(before, _, last) => RescansAsked(before) + if last == Rescan then 1 else 0
  }

  /** What was answered between passes, one after another. */
  datatype Choices = NoChoice | Chose(before: Choices, answer: PassAnswer)

  /** The answers to the prompts between passes, without those about blank pages. */
  ghost function ChoicesIn(answers: Answers): Choices {
    match answers
    case NoAnswers => NoChoice
    case Heard(before, wait, last) => if wait == BlankDecision then ChoicesIn(before) else Chose(ChoicesIn(before), last)
  }

  /** The choices once one more prompt was answered, if one was put. */
  ghost function Choosing(choices: Choices, asked: bool, answer: PassAnswer): Choices {
    if asked then Chose(choices, answer) else choices
  }

  /** The last choice between passes was to abort. */
  ghost predicate Aborts(choices: Choices) {
    choices.Chose? && choices.answer == Abort
  }

  /**
   * Whoever answers a multi-page run.  Any answer can come, on the menu or off it; after a
   * finite patience, as long as anyone likes, it says that saneless is stopping.
   */
  class PassCoordinator {
    var patience: nat
    /** Whether an abort was not the operator's: the prompt broke (`abort_cause`). */
    var broken: bool
    /** Every answer given. */
    ghost var answers: Answers

    constructor (patience: nat)
      ensures this.patience == patience && answers == NoAnswers
    {
      this.patience := patience;
      broken := false;
      answers := NoAnswers;
    }

    /** The last answer given. */
    ghost function Last(): PassAnswer
      reads this`answers
    {
      if answers.Heard? then answers.last else Next
    }

    /** The last choice between passes was an abort, and the operator's own. */
    ghost predicate GaveUp()
      reads this`answers, this`broken
    {
      Aborts(ChoicesIn(answers)) && !broken
    }

    method Ask(prompt: PassPrompt, signal: Interruption) returns (r: Step<PassAnswer>)
      requires !signal.settled
      modifies this`patience, this`broken, this`answers, signal`received, signal`deferred
      ensures patience <= old(patience)
      ensures r.Value? && r.value != StopAsked ==> patience < old(patience)
      ensures r.Value? ==> answers == Heard(old(answers), prompt.wait, r.value)
      ensures r.Raised? ==> r.ending == Interrupted && answers == old(answers)
    {
      var answer: PassAnswer := *;
      :- signal.Boundary();
      if patience == 0 {
        answers := Heard(answers, prompt.wait, StopAsked);
        return Value(StopAsked);
      }
      patience := patience - 1;
      broken := *;
      answers := Heard(answers, prompt.wait, answer);
      return Value(answer);
    }
  }

  datatype FlipOutcome = Continued | Aborted(broken: bool) | FlipTimeout | FlipStopped

  /** Whoever turns the stack over in a manual duplex run. */
  class FlipCoordinator {
    /** How the wait for the flip ended, once it has. */
    ghost var outcome: Option<FlipOutcome>

    constructor ()
      ensures outcome == None
    {
      outcome := None;
    }

    /** The flip wait: any outcome, or a signal while waiting. */
    method WaitForFlip(signal: Interruption) returns (r: Step<FlipOutcome>)
      requires !signal.settled
      modifies this, signal`received, signal`deferred
      ensures r.Value? ==> outcome == Some(r.value)
      ensures r.Raised? ==> r.ending == Interrupted && outcome == old(outcome)
    {
      var answer: FlipOutcome := *;
      :- signal.Boundary();
      outcome := Some(answer);
      return Value(answer);
    }
  }
}
