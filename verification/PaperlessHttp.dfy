/** What one request to paperless-ngx can come to, and what the client decides about it. */
module PaperlessHttp {
  import opened Outcomes

  const OLDEST_VERSION: nat := 9
  const NEWEST_VERSION: nat := 10
  const NOT_ACCEPTABLE: nat := 406

  /** What an answer carries: its status, the version it announces, and its body. */
  datatype Response<Body> = Response(asked: nat, status: nat, announced: Option<nat>, body: Body)

  /** How the HTTP library reports a request that got no usable answer. */
  datatype HttpError =
    | ConnectError | ConnectTimeout | PoolTimeout | ProxyError | WriteTimeout
    | ReadTimeout | ReadError | WriteError | CloseError | RemoteProtocolError | DecodingError
    | LocalProtocolError | UnsupportedProtocol
    | TooManyRedirects
    | StatusError(asked: nat, status: nat)

  datatype Reply<Body> = Answered(response: Response<Body>) | Broken(error: HttpError)

  datatype RetryDecision = BeforeSend | AfterSend | Incompatible | Refused | Misconfigured | Unexpected

  /** A wait, cut short at the deadline. */
  function Cut(delay: real, remaining: real): real {
    if delay < remaining then delay else remaining
  }

  predicate IsSuccess(status: nat) {
    200 <= status < 300
  }

  predicate IsServerError(status: nat) {
    500 <= status < 600
  }

  /** `_retry_decision`: can the body have reached paperless-ngx whole? */
  function Decide(error: HttpError): RetryDecision {
    match error
    case StatusError(_, status) =>
      if status == NOT_ACCEPTABLE then Incompatible else if IsServerError(status) then AfterSend else Refused
    case LocalProtocolError => Misconfigured
    case UnsupportedProtocol => Misconfigured
    case ConnectError => BeforeSend
    case ConnectTimeout => BeforeSend
    case PoolTimeout => BeforeSend
    case ProxyError => BeforeSend
    case WriteTimeout => BeforeSend
    case TooManyRedirects => Unexpected
    case _ => AfterSend
  }

  /** `api_version`: the newest once a server announced it, and the oldest otherwise. */
  function VersionToAsk(serverMax: Option<nat>): (version: nat)
    ensures version == OLDEST_VERSION || version == NEWEST_VERSION
  {
    if serverMax.Some? && serverMax.value >= NEWEST_VERSION then NEWEST_VERSION else OLDEST_VERSION
  }

  predicate RefusedNewest<Body>(response: Response<Body>) {
    response.status == NOT_ACCEPTABLE && response.asked == NEWEST_VERSION
  }

  /** `_learn_api_version`: what the client knows of the server after an answer. */
  function Learned<Body>(serverMax: Option<nat>, response: Response<Body>): Option<nat> {
    if RefusedNewest(response) then None
    else if Announces(response) then response.announced
    else serverMax
  }

  /** What a client that knew nothing has learned from these answers, in order. */
  function LearnedAll<Body>(responses: seq<Response<Body>>): Option<nat> {
    if responses == [] then None
    else Learned(LearnedAll(responses[..|responses| - 1]), responses[|responses| - 1])
  }

  predicate Announces<Body>(response: Response<Body>) {
    response.announced.Some? && OLDEST_VERSION <= response.announced.value <= 999
  }

  predicate Informs<Body>(response: Response<Body>) {
    RefusedNewest(response) || Announces(response)
  }

  /** This answer is the last that says anything of the versions the server accepts. */
  ghost predicate LastWord<Body>(responses: seq<Response<Body>>, i: int) {
    && 0 <= i < |responses|
    && Informs(responses[i])
    && forall j :: i < j < |responses| ==> !Informs(responses[j])
  }

  predicate AnnouncesNewest<Body>(response: Response<Body>) {
    !RefusedNewest(response) && Announces(response) && response.announced.value >= NEWEST_VERSION
  }

  /**
   * Over any answers, the newest version is asked for exactly while the last word on it was an
   * announcement of it, and not a 406 to it.
   */
  lemma {:induction false} NewestIsAskedWhileLastAnnounced<Body>(responses: seq<Response<Body>>)
    ensures var known := LearnedAll(responses);
            VersionToAsk(known) == NEWEST_VERSION <==> exists i :: LastWord(responses, i) && AnnouncesNewest(responses[i])
  {
    if responses != [] {
      var earlier, last := responses[..|responses| - 1], responses[|responses| - 1];
      NewestIsAskedWhileLastAnnounced(earlier);
      if Informs(last) {
        assert LastWord(responses, |responses| - 1);
      } else {
        if i :| LastWord(responses, i) && AnnouncesNewest(responses[i]) {
          assert responses[i] == earlier[i];
          assert forall j | i < j < |earlier| :: earlier[j] == responses[j];
          assert LastWord(earlier, i);
        }
        if i :| LastWord(earlier, i) && AnnouncesNewest(earlier[i]) {
          forall j | i < j < |responses| ensures !Informs(responses[j]) {
            if j < |earlier| {
              assert responses[j] == earlier[j];
            }
          }
          assert LastWord(responses, i);
        }
      }
    }
  }

  /** Two requests of one client, with another thread's answer in between, can both ask for version 10. */
  lemma SharedClientCanAskTheNewestTwice(body: nat)
    ensures
      var first := Response(VersionToAsk(Some(NEWEST_VERSION)), NOT_ACCEPTABLE, None, body);
      var others := Response(OLDEST_VERSION, 200, Some(NEWEST_VERSION), body);
      var known := Learned(Learned(Some(NEWEST_VERSION), first), others);
      RefusedNewest(first) && VersionToAsk(known) == NEWEST_VERSION
  {
  }
}
