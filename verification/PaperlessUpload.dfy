/** The at-most-once upload: retried only while each failure proves that nothing arrived. */
module PaperlessUpload {
  import opened Outcomes
  import opened PaperlessHttp

  /** A PDF's upload answer: a task id, or a body that is none. */
  datatype Body = TaskId(task: nat) | NoTaskId

  datatype UploadError =
    | UncertainSendError | IncompatibleError | NotAcceptedError | UnsendableError | UnexpectedError
    | BudgetSpentError | UnreadablePdfError | ConsumeFolderError

  /** How paperless-ngx has the document: as a task, or as a file in its consume folder. */
  datatype Upload = ApiDelivery(task: nat) | FolderDelivery

  datatype UploadResult = Uploaded(how: Upload) | Raises(error: UploadError)

  /** How one attempt ended: with a task id, with an error to classify, or with a body that is no task id. */
  datatype Attempt = Accepted(task: nat) | Failing(error: HttpError) | NoUsableAnswer | CannotRead

  /** One request, as it was sent. */
  datatype Request = Request(at: real, asked: nat, reply: Reply<Body>)

  /** An attempt after which nothing can have arrived. */
  predicate NothingArrived(attempt: Attempt) {
    attempt.Failing? && Decide(attempt.error) == BeforeSend
  }

  /** The longest the client waits, in seconds, before the attempt after this one. */
  const MAX_BACKOFF: real := 5.0
  const SEND_BUDGET: real := 60.0

  function Pow2(n: nat): nat {
    if n == 0 then 1 else 2 * Pow2(n - 1)
  }

  function Backoff(attempt: nat): (wait: real)
    requires attempt >= 1
    ensures 1.0 <= wait <= MAX_BACKOFF
  {
    PowPositive(attempt - 1);
    var wait := Pow2(attempt - 1) as real;
    if wait < MAX_BACKOFF then wait else MAX_BACKOFF
  }

  lemma {:induction false} PowPositive(n: nat)
    ensures Pow2(n) >= 1
  {
    if n > 0 {
      PowPositive(n - 1);
    }
  }

  /** The waits before an attempt, when none of them is cut short. */
  function Waited(attempt: nat): (total: real)
    requires attempt >= 1
  {
    if attempt == 1 then 0.0 else Waited(attempt - 1) + Backoff(attempt - 1)
  }

  lemma {:induction false} WaitedGrows(attempt: nat)
    requires attempt >= 1
    ensures Waited(attempt) >= (attempt - 1) as real
  {
    if attempt > 1 {
      WaitedGrows(attempt - 1);
    }
  }

  /** The default budget is waited out by the fifteenth attempt. */
  lemma DefaultBudgetWaits(attempt: nat)
    requires attempt >= 15
    ensures Waited(attempt) >= SEND_BUDGET
  {
    assert Pow2(0) == 1 && Pow2(1) == 2 && Pow2(2) == 4 && Pow2(3) == 8;
    assert Waited(2) == 1.0;
    assert Waited(3) == 3.0;
    assert Waited(4) == 7.0;
    LateWaits(4, attempt);
  }

  /** From the fourth on, each wait is the longest one. */
  lemma {:induction false} LateWaits(early: nat, attempt: nat)
    requires 4 <= early <= attempt
    ensures Waited(attempt) == Waited(early) + MAX_BACKOFF * (attempt - early) as real
  {
    if early < attempt {
      LateWaits(early, attempt - 1);
      LongWait(attempt - 1);
    }
  }

  lemma {:induction false} LongWait(attempt: nat)
    requires attempt >= 4
    ensures Backoff(attempt) == MAX_BACKOFF && Pow2(attempt - 1) >= 8
  {
    if attempt > 4 {
      LongWait(attempt - 1);
    } else {
      assert Pow2(3) == 8;
    }
  }

  /** What the upload did, in the order it did it. */
  datatype Event = Posted(request: Request) | Slept(from: real, seconds: real)

  /**
   * paperless-ngx and the network between: any reply at all, after any time.  What it promises
   * is only that a request whose failure is BEFORE_SEND or that could not be sent, and one
   * answered 406, stores nothing, and that one request stores one document at most.  An honest
   * one also stores what it answers with a task id, and nothing that it refuses or redirects.
   */
  class World {
    var now: real
    const honest: bool
    /** Documents of this scan in paperless-ngx, and copies of it in its consume folder. */
    ghost var stored: nat
    ghost var copies: nat
    /** Every request and every wait, in order. */
    ghost var log: seq<Event>

    constructor (now: real, honest: bool)
      ensures this.now == now && this.honest == honest && stored == 0 && copies == 0 && log == []
    {
      this.now, this.honest, stored, copies, log := now, honest, 0, 0, [];
    }

    /** `clock`. */
    method Clock() returns (t: real)
      ensures t == now
    {
      return now;
    }

    /** `sleep`, exactly as long as asked. */
    method Sleep(seconds: real)
      requires seconds >= 0.0
      modifies this`now, this`log
      ensures now == old(now) + seconds
      ensures log == old(log) + [Slept(old(now), seconds)]
    {
      log := log + [Slept(now, seconds)];
      now := now + seconds;
    }

    method Post(asked: nat) returns (reply: Reply<Body>)
      modifies this`now, this`stored, this`log
      ensures now >= old(now)
      ensures reply.Answered? ==> reply.response.asked == asked
      ensures reply.Broken? ==> !reply.error.StatusError?
      ensures log == old(log) + [Posted(Request(old(now), asked, reply))]
      ensures stored == old(stored) || stored == old(stored) + 1
      ensures StoresNothing(reply) ==> stored == old(stored)
      ensures honest && Rejects(reply) ==> stored == old(stored)
      ensures honest && Accepts(reply) ==> stored == old(stored) + 1
    {
      var took: real := *;
      var broken: bool := *;
      if broken {
        var error: HttpError := *;
        reply := Broken(if error.StatusError? then ReadError else error);
      } else {
        var response: Response<Body> := *;
        reply := Answered(response.(asked := asked));
      }
      log := log + [Posted(Request(now, asked, reply))];
      now := if took > 0.0 then now + took else now;
      var arrived: bool := *;
      if StoresNothing(reply) || (honest && Rejects(reply)) {
        return;
      }
      if arrived || (honest && Accepts(reply)) {
        stored := stored + 1;
      }
    }

    /** `_fall_back_to_consume_dir`: a whole copy, or none. */
    method CopyToConsumeFolder() returns (ok: bool)
      modifies this`copies
      ensures copies == old(copies) + if ok then 1 else 0
    {
      ok := *;
      if ok {
        copies := copies + 1;
      }
    }
  }

  /** A reply that proves nothing was stored. */
  predicate StoresNothing(reply: Reply<Body>) {
    match reply
    case Answered(response) => response.status == NOT_ACCEPTABLE
    case Broken(error) => Decide(error) in {BeforeSend, Misconfigured}
  }

  /** A reply by which paperless-ngx says it did not take the document. */
  predicate Rejects(reply: Reply<Body>) {
    match reply
    case Answered(response) => !IsSuccess(response.status) && !IsServerError(response.status)
    case Broken(error) => error.TooManyRedirects?
  }

  /** A reply by which paperless-ngx says it took the document. */
  predicate Accepts(reply: Reply<Body>) {
    reply.Answered? && IsSuccess(reply.response.status) && reply.response.body.TaskId?
  }

  /** The requests of one attempt. */
  datatype Sent = Nothing | Once(only: Request) | Twice(first: Request, second: Request) {

    function Requests(): seq<Event> {
      match this
      case Nothing => []
      case Once(only) => [Posted(only)]
      case Twice(first, second) => [Posted(first)] + [Posted(second)]
    }

    /** When the attempt began, if it sent anything. */
    function At(): real
      requires !Nothing?
    {
      if Once? then only.at else first.at
    }

    function Last(): Request
      requires !Nothing?
    {
      if Once? then only else second
    }
  }

  /** A request answered 406 to the newest version. */
  predicate NewestRefused(request: Request) {
    request.reply.Answered? && RefusedNewest(request.reply.response)
  }

  /** A request answered 406 to the oldest version. */
  predicate OldestRefused(request: Request) {
    request.asked == OLDEST_VERSION && request.reply.Answered? && request.reply.response.status == NOT_ACCEPTABLE
  }

  /** A request asks for one of the two versions, and its answer is one to it. */
  predicate Answers(request: Request) {
    && request.asked in {OLDEST_VERSION, NEWEST_VERSION}
    && match request.reply
       case Answered(response) => response.asked == request.asked
       case Broken(error) => !error.StatusError?
  }

  /**
   * How an attempt ended is what its last request came to, and it has a second one only after a
   * 406 to the newest version, and then one that asks for the oldest.
   */
  predicate Ends(sent: Sent, attempt: Attempt) {
    && (sent.Nothing? ==> attempt.CannotRead?)
    && (!sent.Nothing? ==> Answers(sent.Last()))
    && (sent.Twice? ==> NewestRefused(sent.first) && sent.second.asked == OLDEST_VERSION)
    && (sent.Once? && NewestRefused(sent.only) ==> attempt.CannotRead?)
    && (!attempt.CannotRead? ==> attempt == PaperlessClient.AsAttempt(Some(sent.Last().reply)))
    && (sent.Twice? ==> !attempt.CannotRead?)
  }

  /** Attempts after which nothing can have arrived, each with the wait after it. */
  datatype Tries = NoTry | Then(before: Tries, sent: Sent, attempt: Attempt, from: real, seconds: real)

  function Count(tries: Tries): nat {
    match tries
    case NoTry => 0
    case Then(before, _, _, _, _) => Count(before) + 1
  }

  ghost function Events(tries: Tries): seq<Event> {
    match tries
    case NoTry => []
    case Then(before, sent, _, from, seconds) => Events(before) + sent.Requests() + [Slept(from, seconds)]
  }

  /** When the attempt after these begins. */
  ghost function NextAt(start: real, tries: Tries): real {
    match tries
    case NoTry => start
    case Then(_, _, _, from, seconds) => from + seconds
  }

  /**
   * Attempt after attempt, nothing can have arrived, and before the deadline the wait for the
   * next one begins, which is the backoff and never goes past the deadline.
   */
  ghost predicate Trying(start: real, tries: Tries, deadline: real) {
    match tries
    case NoTry => true
    case Then(before, sent, attempt, from, seconds) =>
      && Trying(start, before, deadline)
      && !sent.Nothing? && Ends(sent, attempt) && NothingArrived(attempt)
      && sent.At() == NextAt(start, before) <= from < deadline
      && seconds == Cut(Backoff(Count(tries)), deadline - from)
  }

  /** The waits before an attempt put it that late, or at the deadline. */
  lemma {:induction false} TriesTakeTime(start: real, tries: Tries, deadline: real)
    requires Trying(start, tries, deadline) && start <= deadline
    ensures NextAt(start, tries) <= deadline
    ensures NextAt(start, tries) == deadline || NextAt(start, tries) >= start + Waited(Count(tries) + 1)
    ensures tries.Then? ==> Waited(Count(tries)) < deadline - start
  {
    if tries.Then? {
      TriesTakeTime(start, tries.before, deadline);
    }
  }

  lemma OneTryMore(log: seq<Event>, tries: Tries, sent: Sent, attempt: Attempt, from: real, seconds: real)
    ensures log + Events(tries) + sent.Requests() + [Slept(from, seconds)]
              == log + Events(Then(tries, sent, attempt, from, seconds))
  {
  }

  class PaperlessClient {
    var serverMax: Option<nat>
    const consumeDirectory: bool
    const sendBudget: real

    constructor (consumeDirectory: bool, sendBudget: real)
      ensures this.consumeDirectory == consumeDirectory && this.sendBudget == sendBudget && serverMax == None
    {
      this.consumeDirectory, this.sendBudget, serverMax := consumeDirectory, sendBudget, None;
    }

    /** `_send_document`, with the hooks that name the version and learn from the answer. */
    method SendDocument(world: World) returns (reply: Option<Reply<Body>>)
      modifies this`serverMax, world`now, world`stored, world`log
      ensures world.now >= old(world.now)
      ensures reply.None? ==> world.log == old(world.log) && world.stored == old(world.stored) && serverMax == old(serverMax)
      ensures reply.Some? ==>
                && world.log == old(world.log) + [Posted(Request(old(world.now), VersionToAsk(old(serverMax)), reply.value))]
                && (reply.value.Answered? ==> reply.value.response.asked == VersionToAsk(old(serverMax)))
                && (reply.value.Broken? ==> !reply.value.error.StatusError?)
                && serverMax == (if reply.value.Answered? then Learned(old(serverMax), reply.value.response) else old(serverMax))
                && (world.stored == old(world.stored) || world.stored == old(world.stored) + 1)
                && (StoresNothing(reply.value) || (world.honest && Rejects(reply.value)) ==> world.stored == old(world.stored))
                && (world.honest && Accepts(reply.value) ==> world.stored == old(world.stored) + 1)
    {
      var unreadable: bool := *;
      if unreadable {
        return None;
      }
      var sent := world.Post(VersionToAsk(serverMax));
      if sent.Answered? {
        serverMax := Learned(serverMax, sent.response);
      }
      return Some(sent);
    }

    /** What `_post_document` makes of the reply it ends with. */
    static function AsAttempt(reply: Option<Reply<Body>>): Attempt {
      match reply
      case None => CannotRead
      case Some(Broken(error)) => Failing(error)
      case Some(Answered(response)) =>
        if !IsSuccess(response.status) then Failing(StatusError(response.asked, response.status))
        else if response.body.TaskId? then Accepted(response.body.task)
        else NoUsableAnswer
    }

    /** An attempt that proves nothing was stored. */
    static predicate LeavesNothing(attempt: Attempt) {
      attempt.CannotRead? || (attempt.Failing? && Decide(attempt.error) in {BeforeSend, Misconfigured, Incompatible})
    }

    /**
     * `_post_document`: one attempt of one request, or of two where the newest version was
     * answered 406.  It stores one document at most, and what its last request came to is how
     * it ends.
     */
    method PostDocument(world: World) returns (attempt: Attempt, ghost sent: Sent)
      modifies this`serverMax, world`now, world`stored, world`log
      ensures world.now >= old(world.now)
      ensures world.log == old(world.log) + sent.Requests()
      ensures !sent.Nothing? ==> sent.At() == old(world.now)
      ensures Ends(sent, attempt)
      ensures world.stored == old(world.stored) || world.stored == old(world.stored) + 1
      ensures LeavesNothing(attempt) ==> world.stored == old(world.stored)
      ensures world.honest && Denied(attempt) ==> world.stored == old(world.stored)
      ensures world.honest && attempt.Accepted? ==> world.stored == old(world.stored) + 1
    {
      sent := Nothing;
      var reply := SendDocument(world);
      if reply.Some? {
        sent := Once(Request(old(world.now), VersionToAsk(old(serverMax)), reply.value));
        if reply.value.Answered? && RefusedNewest(reply.value.response) {
          ghost var now, known := world.now, serverMax;
          reply := SendDocument(world);
          if reply.Some? {
            sent := Twice(sent.only, Request(now, VersionToAsk(known), reply.value));
          }
        }
      }
      attempt := AsAttempt(reply);
    }

    /** An attempt by which an honest paperless-ngx says that it has nothing. */
    static predicate Denied(attempt: Attempt) {
      attempt.Failing? && Decide(attempt.error) in {Refused, Unexpected}
    }

    /** The attempt that ended the upload decided its result. */
    static ghost predicate Decides(last: Attempt, r: UploadResult) {
      match last
      case Accepted(task) => r == Uploaded(ApiDelivery(task))
      case NoUsableAnswer => r == Raises(UncertainSendError)
      case CannotRead => r == Raises(UnreadablePdfError)
      case Failing(error) =>
        match Decide(error)
        case BeforeSend => r in {Uploaded(FolderDelivery), Raises(BudgetSpentError), Raises(ConsumeFolderError)}
        case AfterSend => r == Raises(UncertainSendError)
        case Incompatible => r == Raises(IncompatibleError)
        case Refused => r == Raises(NotAcceptedError)
        case Misconfigured => r == Raises(UnsendableError)
        case Unexpected => r == Raises(UnexpectedError)
    }

    /**
     * `upload_document`.  What it sends and how long it waits is what the world's log says: each
     * attempt but the last proved that nothing arrived and has its backoff after it, none begins
     * after the send deadline, and how the last one ends decides the result.  So one call makes
     * one document at most across paperless-ngx and its consume folder, and copies only when
     * every attempt proved that nothing arrived.
     */
    method UploadDocument(world: World)
      returns (r: UploadResult, ghost tries: Tries, ghost last: Sent, ghost attempt: Attempt)
      requires sendBudget >= 0.0
      modifies this`serverMax, world`now, world`stored, world`copies, world`log
      ensures world.log == old(world.log) + Events(tries) + last.Requests()
      ensures Trying(old(world.now), tries, old(world.now) + sendBudget)
      ensures !last.Nothing? ==> last.At() == NextAt(old(world.now), tries) <= old(world.now) + sendBudget
      ensures Ends(last, attempt) && Decides(attempt, r)
      ensures r == Raises(IncompatibleError) ==> !last.Nothing? && OldestRefused(last.Last())
      ensures NothingArrived(attempt) ==> world.now >= old(world.now) + sendBudget
      ensures world.stored + world.copies <= old(world.stored + world.copies) + 1
      ensures world.copies == old(world.copies) + if r == Uploaded(FolderDelivery) then 1 else 0
      ensures r == Uploaded(FolderDelivery) ==> world.stored == old(world.stored) && NothingArrived(attempt)
      ensures r.Raises? && r.error !in {UncertainSendError, NotAcceptedError, UnexpectedError} ==> world.stored == old(world.stored)
      ensures world.honest && r.Uploaded? ==> world.stored + world.copies == old(world.stored + world.copies) + 1
      ensures world.honest && r.Raises? && r.error != UncertainSendError ==> world.stored == old(world.stored)
    {
      tries, last, attempt := NoTry, Nothing, CannotRead;
      var readable: bool := *;
      if !readable {
        return Raises(UnreadablePdfError), tries, last, attempt;
      }
      var started := world.Clock();
      var deadline := started + sendBudget;
      var count: nat := 0;
      while true
        invariant count == Count(tries) && Trying(started, tries, deadline)
        invariant world.log == old(world.log) + Events(tries)
        invariant world.now == NextAt(started, tries)
        invariant world.stored == old(world.stored) && world.copies == old(world.copies)
        decreases sendBudget.Floor + 2 - count
      {
        TriesTakeTime(started, tries, deadline);
        count := count + 1;
        var posted;
        posted, last := PostDocument(world);
        attempt := posted;
        if !NothingArrived(posted) {
          return AsResult(posted), tries, last, attempt;
        }
        var now := world.Clock();
        var remaining := deadline - now;
        if remaining <= 0.0 {
          r := BudgetSpent(world);
          return;
        }
        var wait := Backoff(count);
        OneTryMore(old(world.log), tries, last, attempt, now, Cut(wait, remaining));
        tries := Then(tries, last, attempt, now, Cut(wait, remaining));
        TriesTakeTime(started, tries, deadline);
        WaitedGrows(count);
        world.Sleep(Cut(wait, remaining));
      }
    }

    /** `_send_budget_spent`: nothing arrived, so the consume folder may have the PDF, if there is one. */
    method BudgetSpent(world: World) returns (r: UploadResult)
      modifies world`copies
      ensures r in {Uploaded(FolderDelivery), Raises(BudgetSpentError), Raises(ConsumeFolderError)}
      ensures world.copies == old(world.copies) + if r == Uploaded(FolderDelivery) then 1 else 0
    {
      if !consumeDirectory {
        return Raises(BudgetSpentError);
      }
      var copied := world.CopyToConsumeFolder();
      return if copied then Uploaded(FolderDelivery) else Raises(ConsumeFolderError);
    }

    /** What an attempt that may have arrived, or that would come to the same again, comes to. */
    static function AsResult(attempt: Attempt): (r: UploadResult)
      requires !NothingArrived(attempt)
      ensures Decides(attempt, r)
    {
      match attempt
      case Accepted(task) => Uploaded(ApiDelivery(task))
      case NoUsableAnswer => Raises(UncertainSendError)
      case CannotRead => Raises(UnreadablePdfError)
      case Failing(error) =>
        match Decide(error)
        case AfterSend => Raises(UncertainSendError)
        case Incompatible => Raises(IncompatibleError)
        case Refused => Raises(NotAcceptedError)
        case Misconfigured => Raises(UnsendableError)
        case _ => Raises(UnexpectedError)
    }
  }

  /** How many requests these attempts sent. */
  ghost function RequestCount(tries: Tries): nat {
    match tries
    case NoTry => 0
    case Then(before, sent, _, _, _) => RequestCount(before) + |sent.Requests()|
  }

  /** How many attempts there can be, the last one included, and how many requests. */
  lemma AttemptsBound(start: real, tries: Tries, sendBudget: real)
    requires sendBudget >= 0.0 && Trying(start, tries, start + sendBudget)
    ensures sendBudget == SEND_BUDGET ==> Count(tries) + 1 <= 15
    ensures sendBudget == 0.0 ==> tries == NoTry
    ensures RequestCount(tries) <= 2 * Count(tries)
  {
    TriesTakeTime(start, tries, start + sendBudget);
    RequestsBound(tries);
    if Count(tries) >= 15 {
      DefaultBudgetWaits(Count(tries));
    }
    if tries.Then? {
      WaitedGrows(Count(tries));
    }
  }

  lemma {:induction false} RequestsBound(tries: Tries)
    ensures RequestCount(tries) <= 2 * Count(tries)
  {
    if tries.Then? {
      RequestsBound(tries.before);
    }
  }
}
