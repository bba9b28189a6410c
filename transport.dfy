/**
 * One POST of the context client and the way its outcome settles. The
 * network, `AbortController` and `setTimeout` are reduced to the outcome of
 * `fetch`: rejected with a thrown value (an abort is an `AbortError`), or
 * resolved with a status, a status text and the result of reading the body
 * as JSON. Every failure leaves the client as an `Error` whose message the
 * `catch` block composes.
 */
module Transport {
  import opened Wrappers
  import opened Json
  import opened Text

  datatype Op = Insert | Search

  /** The client's configuration: two endpoints, an optional key and the timeout in milliseconds. */
  datatype ClientConfig = ClientConfig(insertEndpoint: string, searchEndpoint: string, apiKey: Option<string>, apiTimeout: int)

  /** What is handed to `fetch`; the body before `JSON.stringify`. */
  datatype HttpRequest = HttpRequest(verb: string, url: string, headers: map<string, string>, body: Json)

  /** A thrown value: an `Error` (with its `name` and `message`) or anything else. */
  datatype Thrown = ErrorValue(name: string, message: string) | NonError

  /** The result of `response.json()`. */
  datatype BodyRead = Parsed(json: Json) | ReadFailed(thrown: Thrown)

  datatype FetchOutcome =
    | Rejected(thrown: Thrown)
    | Resolved(status: nat, statusText: string, body: BodyRead)

  /** The call's abort timer when the call has settled. */
  datatype TimerState = Cleared | Fired | Pending

  /** The parsed body or the error message, and the timer. */
  datatype Settlement = Settlement(result: Result<Json, string>, timer: TimerState)

  /** The operation's name as its failure messages spell it. */
  function Name(op: Op): string
  {
    match op
    case Insert => "Insert"
    case Search => "Search"
  }

  function Prefix(op: Op): string
  {
    Name(op) + " context failed: "
  }

  function TimeoutMessage(op: Op): string
  {
    "Request timeout - " + (match op case Insert => "insert" case Search => "search") + " operation took too long"
  }

  /** The timeout message does not start with the operation's failure prefix. */
  lemma TimeoutIsUnprefixed(op: Op)
    ensures !StartsWith(TimeoutMessage(op), Prefix(op))
  {
    assert TimeoutMessage(op)[0] == "Request timeout - "[0] == 'R';
    assert Prefix(op)[0] == Name(op)[0] != 'R';
  }

  predicate IsAbort(t: Thrown)
  {
    t.ErrorValue? && t.name == "AbortError"
  }

  /** `response.ok` */
  predicate IsOk(status: nat)
  {
    200 <= status <= 299
  }

  /** The error thrown inside the `try` for a non-2xx status. */
  function HttpError(status: nat, statusText: string): Thrown
  {
    ErrorValue("Error", "HTTP " + NatToString(status) + ": " + statusText)
  }

  /**
   * The message of the error the `catch` block throws. An abort gets the bare
   * timeout message; every other failure gets the operation's prefix, so a
   * caller can tell the two apart and read back the underlying message.
   */
  function CatchMessage(op: Op, t: Thrown): (msg: string)
    ensures IsAbort(t) ==> msg == TimeoutMessage(op)
    ensures StartsWith(msg, Prefix(op)) <==> !IsAbort(t)
    ensures !IsAbort(t) ==> msg[|Prefix(op)|..] == (if t.ErrorValue? then t.message else "Unknown error")
  {
    match t
    case ErrorValue(name, message) =>
      if name == "AbortError" then
        TimeoutIsUnprefixed(op);
        TimeoutMessage(op)
      else Prefix(op) + message
    case NonError => Prefix(op) + "Unknown error"
  }

  /** How a call with the given `fetch` outcome settles. */
  function Settle(op: Op, outcome: FetchOutcome): (s: Settlement)
    ensures s.result.Success? <==> outcome.Resolved? && IsOk(outcome.status) && outcome.body.Parsed?
    ensures s.result.Success? ==> s.result.value == outcome.body.json
    ensures outcome.Resolved? && !IsOk(outcome.status) ==>
      s.result == Failure(Prefix(op) + "HTTP " + NatToString(outcome.status) + ": " + outcome.statusText)
    ensures outcome.Rejected? && IsAbort(outcome.thrown) ==> s.result == Failure(TimeoutMessage(op))
    ensures outcome.Rejected? && outcome.thrown.NonError? ==> s.result == Failure(Prefix(op) + "Unknown error")
    ensures outcome.Rejected? ==> s.result == Failure(CatchMessage(op, outcome.thrown))
    ensures outcome.Resolved? && IsOk(outcome.status) && outcome.body.ReadFailed? ==>
      s.result == Failure(CatchMessage(op, outcome.body.thrown))
    ensures s.timer == Cleared <==> outcome.Resolved?
    ensures s.timer == Pending <==> outcome.Rejected? && !IsAbort(outcome.thrown)
  {
    match outcome
    case Rejected(t) =>
      Settlement(Failure(CatchMessage(op, t)), if IsAbort(t) then Fired else Pending)
    case Resolved(status, statusText, read) =>
      if !IsOk(status) then
        var detail := "HTTP " + NatToString(status) + ": " + statusText;
        assert Prefix(op) + detail == Prefix(op) + "HTTP " + NatToString(status) + ": " + statusText;
        Settlement(Failure(CatchMessage(op, HttpError(status, statusText))), Cleared)
      else match read
        case Parsed(j) => Settlement(Success(j), Cleared)
        case ReadFailed(t) => Settlement(Failure(CatchMessage(op, t)), Cleared)
  }

  /**
   * The body of `insertContext` / `searchContext` once the request body is
   * built: arm the abort timer, post, clear the timer when `fetch` resolves,
   * reject a non-2xx status, parse the body; the `catch` maps every failure.
   */
  method Post(op: Op, url: string, headers: map<string, string>, body: Json, outcome: FetchOutcome)
    returns (sent: HttpRequest, s: Settlement)
    ensures sent == HttpRequest("POST", url, headers, body)
    ensures s == Settle(op, outcome)
  {
    var timer := Pending;
    sent := HttpRequest("POST", url, headers, body);
    var thrown: Option<Thrown> := None;
    var parsed := JNull;
    match outcome {
      case Rejected(t) =>
        if IsAbort(t) {
          timer := Fired;
        }
        thrown := Some(t);
      case Resolved(status, statusText, read) =>
        timer := Cleared;
        if !IsOk(status) {
          thrown := Some(HttpError(status, statusText));
        } else {
          match read {
            case Parsed(j) => parsed := j;
            case ReadFailed(t) => thrown := Some(t);
          }
        }
    }
    if thrown.Some? {
      s := Settlement(Failure(CatchMessage(op, thrown.value)), timer);
    } else {
      s := Settlement(Success(parsed), timer);
    }
  }
}
