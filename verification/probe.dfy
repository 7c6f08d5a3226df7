/**
 * The worker's reachability probes of the ComfyUI HTTP server and its
 * websocket reconnect loop (handler.py `_comfy_server_status`,
 * `check_server`, `_attempt_websocket_reconnect`). Every network call is
 * an oracle indexed by the attempt it answers; sleeping is counted, not
 * timed.
 */
module Probe {
  import opened Wrappers

  /** What `requests.get` did: answered with a status code, or raised with a message. */
  datatype HttpOutcome = Answered(code: int) | RequestFailed(message: string)

  /** The dict `_comfy_server_status` returns. */
  datatype ServerStatus = ServerStatus(reachable: bool, statusCode: Option<int>, error: Option<string>)

  /**
   * `_comfy_server_status()`: reachable exactly on HTTP 200; the status code
   * is reported when the server answered, the exception text when it did not.
   */
  function ComfyServerStatus(outcome: HttpOutcome): (s: ServerStatus)
    ensures s.reachable <==> outcome == Answered(200)
    ensures s.statusCode.Some? <==> outcome.Answered?
    ensures s.error.Some? <==> outcome.RequestFailed?
    ensures outcome.Answered? ==> s.statusCode == Some(outcome.code)
  {
    match outcome
    case Answered(code) => ServerStatus(code == 200, Some(code), None)
    case RequestFailed(message) => ServerStatus(false, None, Some(message))
  }

  /** `range(n)` has `max(n, 0)` elements. */
  function Count(n: int): nat
  {
    if n < 0 then 0 else n
  }

  /**
   * `check_server(url, retries, delay)`: one GET per attempt, stopping at the
   * first HTTP 200, sleeping after every attempt that did not get one.
   */
  method CheckServer(retries: int, probe: nat -> HttpOutcome) returns (up: bool, attempts: nat, sleeps: nat)
    ensures up <==> exists i | 0 <= i < retries :: probe(i) == Answered(200)
    ensures attempts <= Count(retries)
    ensures forall i | 0 <= i < attempts - 1 :: probe(i) != Answered(200)
    ensures up ==> attempts > 0 && probe(attempts - 1) == Answered(200)
    ensures !up ==> attempts == Count(retries) && sleeps == attempts
    ensures up ==> sleeps == attempts - 1
  {
    attempts, sleeps := 0, 0;
    var i := 0;
    while i < retries
      invariant 0 <= i <= Count(retries) && attempts == sleeps == i
      invariant forall j | 0 <= j < i :: probe(j) != Answered(200)
    {
      attempts := attempts + 1;
      if probe(i) == Answered(200) {
        return true, attempts, sleeps;
      }
      sleeps := sleeps + 1;
      i := i + 1;
    }
    up := false;
  }

  /** What one `ws.connect` did: connected (a socket id), failed with a caught error, or raised something else. */
  datatype ConnectOutcome = Connected(socket: nat) | ConnectFailed(error: string) | ConnectRaised(error: string)

  /** How `_attempt_websocket_reconnect` ends. */
  datatype Reconnect = Reconnected(socket: nat) | Closed(message: string) | Raised(error: string)

  const UnreachableDuringReconnect := "ComfyUI HTTP unreachable during websocket reconnect"

  function ExhaustedMessage(lastError: string): string
  {
    "Connection closed and failed to reconnect. Last error: " + lastError
  }

  /**
   * `_attempt_websocket_reconnect(ws_url, maxAttempts, delay, initialError)`.
   * Attempt `i` first probes the HTTP server (`probe(i)`) and raises at once
   * when it is unreachable; otherwise it connects (`connect(i)`). The first
   * socket that connects is returned; a caught failure is remembered and,
   * unless it was the last attempt, followed by a sleep; any other exception
   * escapes. After `maxAttempts` failures it raises with the last error, the
   * initial one when no attempt was made.
   */
  method AttemptWebsocketReconnect(maxAttempts: int, initialError: string,
                                   probe: nat -> HttpOutcome, connect: nat -> ConnectOutcome)
    returns (r: Reconnect, connects: nat, sleeps: nat)
    ensures connects <= Count(maxAttempts)
    ensures forall j | 0 <= j < connects :: ComfyServerStatus(probe(j)).reachable
    ensures forall j | 0 <= j < connects - 1 :: connect(j).ConnectFailed?
    ensures r.Reconnected? ==> connects > 0 && connect(connects - 1) == Connected(r.socket)
    ensures r.Raised? ==> connects > 0 && connect(connects - 1) == ConnectRaised(r.error)
    ensures r.Closed? ==> connects == 0 || connect(connects - 1).ConnectFailed?
    ensures r == Closed(UnreachableDuringReconnect) ==> connects < maxAttempts && !ComfyServerStatus(probe(connects)).reachable
    ensures r.Closed? && r != Closed(UnreachableDuringReconnect) ==>
              connects == Count(maxAttempts) &&
              r.message == ExhaustedMessage(if connects == 0 then initialError else connect(connects - 1).error)
    ensures sleeps == if r == Closed(UnreachableDuringReconnect) then connects else Count(connects - 1)
  {
    var lastError := initialError;
    connects, sleeps := 0, 0;
    var attempt := 0;
    while attempt < maxAttempts
      invariant 0 <= attempt <= Count(maxAttempts) && connects == attempt
      invariant sleeps == if 0 < attempt == maxAttempts then attempt - 1 else attempt
      invariant forall j | 0 <= j < attempt :: ComfyServerStatus(probe(j)).reachable && connect(j).ConnectFailed?
      invariant lastError == if attempt == 0 then initialError else connect(attempt - 1).error
    {
      var status := ComfyServerStatus(probe(attempt));
      if !status.reachable {
        return Closed(UnreachableDuringReconnect), connects, sleeps;
      }
      connects := connects + 1;
      match connect(attempt)
      case Connected(socket) =>
        return Reconnected(socket), connects, sleeps;
      case ConnectRaised(error) =>
        return Raised(error), connects, sleeps;
      case ConnectFailed(error) =>
        lastError := error;
        if attempt < maxAttempts - 1 {
          sleeps := sleeps + 1;
        }
      attempt := attempt + 1;
    }
    r := Closed(ExhaustedMessage(lastError));
  }
}
