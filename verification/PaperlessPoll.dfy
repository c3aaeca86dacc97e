/** Waiting for an accepted upload's consume task, with backoff and a deadline. */
module PaperlessPoll {
  import opened PaperlessHttp

  datatype TaskStatus = Success | Failure | Revoked | Unfinished

  /** What a poll's body says of the task: `duplicate` is a FAILURE that names an existing document. */
  datatype TaskBody = NotJson | NoSuchTask | Task(status: TaskStatus, duplicate: bool)

  datatype TaskOutcome = TaskFiled | TaskDuplicate

  /** How one poll ended. */
  datatype Poll = RequestFailed | Transient | NotFinished | Finished(outcome: TaskOutcome) | Unconfirmed

  datatype PollResult = Confirmed(outcome: TaskOutcome) | UnconfirmedError | TimeoutError(namesAnError: bool)

  /** `_finished_task`: a 5xx or a 429 may clear, and any other answer but a 200 ends the poll. */
  function FinishedTask(status: nat, body: TaskBody): Poll {
    if IsServerError(status) || status == 429 then Transient
    else if status != 200 then Unconfirmed
    else
      match body
      case NotJson => Unconfirmed
      case NoSuchTask => NotFinished
      case Task(Success, _) => Finished(TaskFiled)
      case Task(Revoked, _) => Unconfirmed
      case Task(Failure, duplicate) => if duplicate then Finished(TaskDuplicate) else Unconfirmed
      case Task(Unfinished, _) => NotFinished
  }

  predicate MayClear(poll: Poll) {
    poll.RequestFailed? || poll.Transient?
  }

  const FIRST_DELAY: real := 0.5
  const MAX_POLL_DELAY: real := 5.0

  /** What came back from one poll. */
  datatype Answer = Answer(status: nat, body: TaskBody)

  /** One poll: when it was sent, of which task, and what came back if anything did. */
  datatype Exchange = Exchange(at: real, task: nat, answer: Outcomes.Option<Answer>)

  /** One wait between two polls. */
  datatype Wait = Wait(from: real, seconds: real)

  function AsPoll(exchange: Exchange): Poll {
    if exchange.answer.None? then RequestFailed else FinishedTask(exchange.answer.value.status, exchange.answer.value.body)
  }

  /** The wait after the poll of this number, counted from 0, unless the deadline cuts it short. */
  function Delay(poll: nat): (delay: real)
    ensures FIRST_DELAY <= delay <= MAX_POLL_DELAY
  {
    if poll == 0 then FIRST_DELAY
    else
      var doubled := Delay(poll - 1) * 2.0;
      if doubled < MAX_POLL_DELAY then doubled else MAX_POLL_DELAY
  }

  /** What a poll did, in the order it did it. */
  datatype Event = Polled(exchange: Exchange) | Waited(wait: Wait)

  /** paperless-ngx as a poll sees it: any reply, after any time. */
  class TaskServer {
    var now: real
    /** Every poll and every wait, in order. */
    ghost var log: seq<Event>

    constructor (now: real)
      ensures this.now == now && log == []
    {
      this.now, log := now, [];
    }

    method Get(task: nat) returns (poll: Poll, ghost exchange: Exchange)
      modifies this`now, this`log
      ensures now >= old(now)
      ensures log == old(log) + [Polled(exchange)] && poll == AsPoll(exchange)
      ensures exchange.at == old(now) && exchange.task == task
    {
      var answered: bool := *;
      var status: int := *;
      var body: TaskBody := *;
      exchange := Exchange(now, task, Outcomes.None);
      poll := RequestFailed;
      if answered && status >= 0 {
        exchange := Exchange(now, task, Outcomes.Some(Answer(status, body)));
        poll := FinishedTask(status, body);
      }
      log := log + [Polled(exchange)];
      var took: real := *;
      now := if took > 0.0 then now + took else now;
    }

    /** `sleep`, exactly as long as asked. */
    method Sleep(seconds: real)
      requires seconds >= 0.0
      modifies this`now, this`log
      ensures now == old(now) + seconds
      ensures log == old(log) + [Waited(Wait(old(now), seconds))]
    {
      log := log + [Waited(Wait(now, seconds))];
      now := now + seconds;
    }
  }

  /** What is left to wait, in half seconds. */
  ghost function HalvesLeft(deadline: real, now: real): nat {
    if deadline <= now then 0 else (2.0 * (deadline - now)).Floor + 1
  }

  lemma SleepingLeavesFewer(deadline: real, now: real, delay: real)
    requires now < deadline && delay >= 0.5
    ensures HalvesLeft(deadline, now + Cut(delay, deadline - now)) < HalvesLeft(deadline, now)
  {
  }

  lemma TimeLeavesNoMore(deadline: real, before: real, after: real)
    requires before <= after
    ensures HalvesLeft(deadline, after) <= HalvesLeft(deadline, before)
  {
  }

  /** The poll did not decide anything. */
  predicate Undecided(exchange: Exchange) {
    MayClear(AsPoll(exchange)) || AsPoll(exchange).NotFinished?
  }

  /** Polls that decided nothing, each with the wait after it. */
  datatype Rounds = NoRound | Then(before: Rounds, poll: Exchange, wait: Wait)

  function Count(rounds: Rounds): nat {
    match rounds
    case NoRound => 0
    case Then(before, _, _) => Count(before) + 1
  }

  ghost function Events(rounds: Rounds): seq<Event> {
    match rounds
    case NoRound => []
    case Then(before, poll, wait) => Events(before) + [Polled(poll)] + [Waited(wait)]
  }

  /** When the poll after these rounds is sent. */
  ghost function NextAt(start: real, rounds: Rounds): real {
    match rounds
    case NoRound => start
    case Then(_, _, wait) => wait.from + wait.seconds
  }

  /**
   * Round after round, a poll of the task decides nothing, and before the deadline the wait for the next
   * one begins, which doubles each time and never goes past the deadline.
   */
  ghost predicate Polling(task: nat, start: real, rounds: Rounds, deadline: real) {
    match rounds
    case NoRound => true
    case Then(before, poll, wait) =>
      && Polling(task, start, before, deadline)
      && poll.task == task && poll.at == NextAt(start, before)
      && Undecided(poll)
      && poll.at <= wait.from < deadline
      && wait.seconds == Cut(Delay(Count(before)), deadline - wait.from)
  }

  /**
   * `poll_task`.  What it sends and how long it waits is what the server's log says: every poll
   * but the last decided nothing and has its wait after it, and the answer to the last decides
   * the result.  A timeout comes at the deadline or after it, and names an error exactly when
   * the last poll's failure may have cleared.
   */
  method PollTask(server: TaskServer, task: nat, timeout: real)
    returns (r: PollResult, ghost rounds: Rounds, ghost last: Exchange)
    modifies server
    ensures server.log == old(server.log) + Events(rounds) + [Polled(last)]
    ensures Polling(task, old(server.now), rounds, old(server.now) + timeout)
    ensures last.task == task && last.at == NextAt(old(server.now), rounds)
    ensures match AsPoll(last)
            case Finished(outcome) => r == Confirmed(outcome)
            case Unconfirmed => r == UnconfirmedError
            case undecided => r == TimeoutError(MayClear(undecided)) && server.now >= old(server.now) + timeout
  {
    rounds := NoRound;
    var deadline := server.now + timeout;
    var delay := FIRST_DELAY;
    var lastError := false;
    while true
      invariant server.log == old(server.log) + Events(rounds)
      invariant Polling(task, old(server.now), rounds, deadline) && delay == Delay(Count(rounds))
      invariant server.now == NextAt(old(server.now), rounds)
      decreases HalvesLeft(deadline, server.now)
    {
      ghost var began := server.now;
      var poll;
      poll, last := server.Get(task);
      match poll {
        case Finished(outcome) =>
          return Confirmed(outcome), rounds, last;
        case Unconfirmed =>
          return UnconfirmedError, rounds, last;
        case RequestFailed => lastError := true;
        case Transient => lastError := true;
        case NotFinished => lastError := false;
      }
      var remaining := deadline - server.now;
      if remaining <= 0.0 {
        return TimeoutError(lastError), rounds, last;
      }
      TimeLeavesNoMore(deadline, began, server.now);
      SleepingLeavesFewer(deadline, server.now, delay);
      rounds := Then(rounds, last, Wait(server.now, Cut(delay, remaining)));
      server.Sleep(Cut(delay, remaining));
      delay := if delay * 2.0 < MAX_POLL_DELAY then delay * 2.0 else MAX_POLL_DELAY;
    }
  }

  /** No poll but the first is sent after the deadline. */
  lemma PolledByTheDeadline(task: nat, start: real, rounds: Rounds, deadline: real)
    requires rounds.Then? && Polling(task, start, rounds, deadline)
    ensures NextAt(start, rounds) <= deadline
  {
  }
}
