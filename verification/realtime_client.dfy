/**
 * The reconnect-and-backoff state machine of the realtime config stream
 * client. Network I/O, the clock and the random source are inputs; the
 * scheduling of a stream attempt and the broadcast of an error to the
 * listeners are emitted events.
 */
module RealtimeClient {
  import opened Options
  import opened Backoff
  import opened HttpStatus

  type ListenerId = nat

  /**
   * The client's flags and retry budget together with the persisted backoff
   * metadata (failure count and backoff end time, in epoch milliseconds).
   */
  datatype State = State(
    listeners: set<ListenerId>,
    running: bool,
    disabled: bool,
    background: bool,
    retries: int,
    numFailed: nat,
    backoffEnd: int)

  /** The errors the client broadcasts to its listeners. */
  datatype StreamError =
    | UnableToConnect          // retry budget exhausted while in the foreground
    | StreamInterrupted        // an I/O failure while connecting to or reading the stream
    | HttpStatusError(code: int) // a status that is neither 200 nor retryable
    | RealtimeDisabled         // the server told the client to stop streaming

  datatype Event =
    | Schedule(delayMillis: int)  // one stream attempt scheduled after the delay
    | Propagate(error: StreamError) // one broadcast of the error to every listener

  datatype Step = Step(state: State, events: seq<Event>)

  /** How the stream went once the server answered 200. */
  datatype Listen = Listen(disabledSignal: bool, threw: bool)

  /**
   * The result of opening the connection: no status at all (an I/O failure
   * while connecting), or a status, where `listen` describes the stream and
   * is consulted only when the status is 200.
   */
  datatype Outcome = NoResponse | Status(code: int, listen: Listen)

  /** The backoff end time stored by a reset of the persisted metadata. */
  const NoBackoffEnd: int := -1

  /** Java's `Random.nextInt(bound)`: a value in [0, bound) for every positive bound. */
  ghost predicate NextIntContract(nextInt: int -> int) {
    forall bound :: bound > 0 ==> 0 <= nextInt(bound) < bound
  }

  /** The invariant of the client between steps. */
  predicate Valid(s: State) {
    && 0 <= s.retries <= OriginalRetries
    && !s.running
  }

  /** Whether a new stream attempt may start now. */
  predicate CanStart(s: State) {
    && s.listeners != {}
    && !s.running
    && !s.disabled
    && !s.background
  }

  function CountSchedules(events: seq<Event>): nat {
    if events == [] then 0
    else (if events[0].Schedule? then 1 else 0) + CountSchedules(events[1..])
  }


  /** The client as constructed from the persisted failure count and backoff end time. */
  function NewClient(listeners: set<ListenerId>, persistedFailures: nat, persistedBackoffEnd: int): (s: State)
    ensures Valid(s)
    ensures 1 <= s.retries
    ensures s.retries + persistedFailures >= OriginalRetries
    ensures !s.disabled && !s.background
    ensures s.numFailed == persistedFailures && s.backoffEnd == persistedBackoffEnd
    ensures s.retries == InitialRetries(persistedFailures)
    ensures s.listeners == listeners && !s.running
  {
    State(listeners, false, false, false, InitialRetries(persistedFailures),
          persistedFailures, persistedBackoffEnd)
  }

  /**
   * One attempt to (re)connect after `delay` milliseconds: it consumes one
   * retry and schedules the attempt, or reports exhaustion when in the
   * foreground, and does nothing when the guard forbids a new attempt. The
   * guard already requires the foreground, so the silent branch for an
   * exhausted budget in the background is reached by no input of this model.
   */
  function MakeConnection(s: State, delay: int): (r: Step)
    ensures !CanStart(s) ==> r == Step(s, [])
    ensures CanStart(s) && s.retries > 0 ==>
              r.state == s.(retries := s.retries - 1) && r.events == [Schedule(delay)]
    ensures CanStart(s) && s.retries <= 0 ==> r.state == s && r.events == [Propagate(UnableToConnect)]
    ensures s.retries >= 0 ==> r.state.retries >= 0
    ensures |r.events| <= 1
  {
    if !CanStart(s) then Step(s, [])
    else if s.retries > 0 then Step(s.(retries := s.retries - 1), [Schedule(delay)])
    else if !s.background then Step(s, [Propagate(UnableToConnect)])
    else Step(s, [])
  }

  /** The first attempt, made without waiting. */
  function StartConnection(s: State): (r: Step)
    ensures CanStart(s) && s.retries > 0 ==>
              r.state == s.(retries := s.retries - 1) && r.events == [Schedule(0)]
    ensures CanStart(s) && s.retries <= 0 ==> r == Step(s, [Propagate(UnableToConnect)])
    ensures !CanStart(s) ==> r == Step(s, [])
  {
    MakeConnection(s, 0)
  }

  /** The time left until `backoffEnd`, never negative. */
  function RetryDelay(backoffEnd: int, now: int): (d: int)
    ensures d >= 0 && now + d >= backoffEnd
    ensures d == 0 || now + d == backoffEnd
    ensures d == 0 <==> now >= backoffEnd
  {
    Max(0, backoffEnd - now)
  }

  /** A retry, scheduled for when the current backoff ends. */
  function RetryConnection(s: State, now: int): (r: Step)
    ensures !CanStart(s) ==> r == Step(s, [])
    ensures forall i :: 0 <= i < |r.events| && r.events[i].Schedule? ==>
              r.events[i].delayMillis >= 0 && now + r.events[i].delayMillis >= s.backoffEnd
    ensures CanStart(s) && s.retries > 0 ==>
              r.state.retries == s.retries - 1 && r.events == [Schedule(RetryDelay(s.backoffEnd, now))]
    ensures CanStart(s) && s.retries <= 0 ==> r.state == s && r.events == [Propagate(UnableToConnect)]
    ensures now >= s.backoffEnd && CanStart(s) && s.retries > 0 ==> r.events == [Schedule(0)]
    ensures r.state.retries == s.retries || r.state.retries == s.retries - 1
    ensures r.state == s.(retries := r.state.retries)
  {
    MakeConnection(s, RetryDelay(s.backoffEnd, now))
  }

  /**
   * Records one more failed stream at `failTime`: the count goes up by one and
   * the backoff ends a jittered delay for the new count later.
   */
  function UpdateBackoff(s: State, failTime: int, draw: int): (r: State)
    requires 0 <= draw < BaseMillis(s.numFailed + 1)
    ensures r.numFailed == s.numFailed + 1
    ensures failTime + BaseMillis(r.numFailed) / 2 <= r.backoffEnd
    ensures r.backoffEnd < failTime + 3 * (BaseMillis(r.numFailed) / 2)
    ensures r.backoffEnd == failTime + RandomizedBackoffMillis(r.numFailed, draw)
    ensures r == s.(numFailed := r.numFailed, backoffEnd := r.backoffEnd)
  {
    var n := s.numFailed + 1;
    s.(numFailed := n, backoffEnd := failTime + RandomizedBackoffMillis(n, draw))
  }

  /** The server's kill switch: stop streaming for good and tell the listeners. */
  function OnRealtimeDisabled(s: State): (r: Step)
    ensures r.state.disabled && !CanStart(r.state)
    ensures r.state == s.(disabled := true)
    ensures r.events == [Propagate(RealtimeDisabled)]
  {
    Step(s.(disabled := true), [Propagate(RealtimeDisabled)])
  }

  function SetBackground(s: State, background: bool): (r: State)
    ensures background ==> !CanStart(r)
    ensures r.background == background && r == s.(background := background)
  {
    s.(background := background)
  }

  /** The status an outcome carries, if any. */
  function ResponseCode(o: Outcome): Option<int> {
    if o.NoResponse? then None else Some(o.code)
  }

  /**
   * Whether a connection that ended with `code` counts as failed: no status
   * at all, or a retryable one. Defined once, used by the attempt itself.
   */
  predicate StatusFailed(code: Option<int>) {
    code.None? || IsStatusCodeRetryable(code.value)
  }

  /** Whether an outcome counts as a failed connection. */
  predicate ConnectionFailed(o: Outcome) {
    StatusFailed(ResponseCode(o))
  }

  predicate Healthy(o: Outcome) {
    o.Status? && o.code == HttpOk
  }

  lemma CountSchedulesAppend(a: seq<Event>, b: seq<Event>)
    ensures CountSchedules(a + b) == CountSchedules(a) + CountSchedules(b)
  {
    if a != [] {
      assert (a + b)[1..] == a[1..] + b;
      CountSchedulesAppend(a[1..], b);
    } else {
      assert a + b == b;
    }
  }

  /**
   * The end of an attempt: the connection is no longer running, a failed
   * connection bumps the backoff, and then either a retry follows (failure,
   * or a healthy stream that ended) or the status is reported as terminal.
   */
  function FinishAttempt(s: State, code: Option<int>, failTime: int, retryTime: int,
                         nextInt: int -> int): (r: Step)
    requires NextIntContract(nextInt)
    ensures !r.state.running
    ensures |r.events| <= 1 && CountSchedules(r.events) <= 1
    ensures 0 <= s.retries <= OriginalRetries ==> 0 <= r.state.retries <= OriginalRetries
  {
    var closed := s.(running := false);
    var failed := StatusFailed(code);
    var updated :=
      if failed then UpdateBackoff(closed, failTime, nextInt(BaseMillis(closed.numFailed + 1)))
      else closed;
    if failed || code == Some(HttpOk) then RetryConnection(updated, retryTime)
    else Step(updated, [Propagate(HttpStatusError(code.value))])
  }

  /**
   * One scheduled stream attempt. `start` is the clock when it fires,
   * `failTime` the clock read when recording a failure, `retryTime` the
   * clock read when computing the next retry, and `nextInt` the random source.
   */
  function BeginStream(s: State, start: int, outcome: Outcome, failTime: int, retryTime: int,
                       nextInt: int -> int): (r: Step)
    requires NextIntContract(nextInt)
    ensures CountSchedules(r.events) <= 1
    ensures Valid(s) ==> Valid(r.state)
  {
    if !CanStart(s) then Step(s, [])
    else if start < s.backoffEnd then RetryConnection(s, retryTime)
    else
      var running := s.(running := true);
      var (afterOpen, code, events) := match outcome
        case NoResponse => (running, None, [Propagate(StreamInterrupted)])
        case Status(code, listen) =>
          if code == HttpOk then
            var reset := running.(retries := OriginalRetries, numFailed := 0, backoffEnd := NoBackoffEnd);
            var signalled := if listen.disabledSignal then OnRealtimeDisabled(reset) else Step(reset, []);
            (signalled.state,
             Some(code),
             signalled.events + (if listen.threw then [Propagate(StreamInterrupted)] else []))
          else (running, Some(code), []);
      var finished := FinishAttempt(afterOpen, code, failTime, retryTime, nextInt);
      Step(finished.state, events + finished.events)
  }
}
