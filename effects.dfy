/**
 * How the scanner meets the outside world: replies of the scanning service,
 * the errors that abort a run, cooperative cancellation and the clock, and the
 * platform functions the scanner calls but does not define.
 */
module Effects {
  import opened DotNet
  import Dtos

  /**
   * A reply of the scanning service to one request. Failed covers every other
   * non-success status and transport failure; TimedOut is the HTTP client's own
   * timeout, which .NET reports as a cancelled task.
   */
  datatype HttpReply<+T> = Ok(body: T) | NotFound | Failed(statusCode: int) | TimedOut

  /** The errors that are not caught anywhere and end the process. */
  datatype ScanError =
    | ConfigurationError(message: string)   // a required setting is missing
    | RemoteServiceError(statusCode: int)   // EnsureSuccessStatusCode threw
    | MalformedResponse                     // the body does not deserialise to the expected type

  /** How an awaited step ends: a value, an uncaught error, or OperationCanceledException. */
  datatype Outcome<+T> = Completed(value: T) | Faulted(error: ScanError) | Interrupted

  /**
   * The run's cancellation token and clock. The run is a sequence of observation
   * points (every service call, request and body read together, every
   * serialisation and every test of IsCancellationRequested);
   * cancellation is requested just before point `cancelAt` and every later
   * observation sees it. Observation point p takes `elapsed(p)` seconds.
   */
  datatype Runtime = Runtime(cancelAt: Option<nat>, elapsed: nat -> nat)

  predicate CancellationRequested(rt: Runtime, point: nat) {
    rt.cancelAt.Some? && rt.cancelAt.value <= point
  }

  /** Where a run is: the next observation point and the clock reading. */
  datatype Progress = Progress(point: nat, now: int)

  /** Passing one observation point. */
  function Advance(rt: Runtime, p: Progress): (q: Progress)
    ensures q.point == p.point + 1 && q.now >= p.now
  {
    Progress(p.point + 1, p.now + rt.elapsed(p.point))
  }

  /** Passing n observation points. */
  function Elapse(rt: Runtime, p: Progress, n: nat): (q: Progress)
    ensures q.point == p.point + n && q.now >= p.now
  {
    if n == 0 then p else Advance(rt, Elapse(rt, p, n - 1))
  }

  /** The outcome of awaiting a service call at an observation point. */
  function Await<T>(rt: Runtime, point: nat, reply: HttpReply<T>): (r: Outcome<T>)
    ensures CancellationRequested(rt, point) ==> r == Interrupted
    ensures r.Completed? <==> !CancellationRequested(rt, point) && reply.Ok?
    ensures r.Completed? ==> r.value == reply.body
    ensures r.Interrupted? <==> CancellationRequested(rt, point) || reply.TimedOut?
    ensures !CancellationRequested(rt, point) && reply.Failed? ==> r == Faulted(RemoteServiceError(reply.statusCode))
    ensures !CancellationRequested(rt, point) && reply.NotFound? ==> r == Faulted(RemoteServiceError(404))
  {
    if CancellationRequested(rt, point) then Interrupted
    else match reply
      case Ok(body) => Completed(body)
      case NotFound => Faulted(RemoteServiceError(404))
      case Failed(code) => Faulted(RemoteServiceError(code))
      case TimedOut => Interrupted
  }

  /**
   * Platform functions the scanner calls: Guid.TryParse, Guid.ToString,
   * Uri.TryCreate(value, UriKind.Absolute) followed by Uri.Host, and
   * Uri.EscapeDataString.
   */
  datatype Platform = Platform(
    parseGuid: string -> Option<Dtos.Guid>,
    guidText: Dtos.Guid -> string,
    absoluteUriHost: string -> Option<string>,
    escapeDataString: string -> string)
}
