/**
 * What one scheduled stream attempt does, case by case: the guard, the
 * backoff deferral, a failed connection, a healthy stream that ended, and a
 * terminal status.
 */
module AttemptProperties {
  import opened Backoff
  import opened HttpStatus
  import opened RealtimeClient

  /** A failed guard blocks every entry point: nothing changes and nothing is emitted. */
  lemma GuardBlocksEveryEntry(s: State, start: int, outcome: Outcome, failTime: int, retryTime: int,
                              nextInt: int -> int)
    requires NextIntContract(nextInt)
    requires !CanStart(s)
    ensures BeginStream(s, start, outcome, failTime, retryTime, nextInt) == Step(s, [])
    ensures StartConnection(s) == Step(s, [])
    ensures RetryConnection(s, retryTime) == Step(s, [])
  {
  }

  /**
   * An attempt that fires before the backoff has ended opens no connection:
   * it only asks for a retry at the backoff end (or reports exhaustion).
   */
  lemma EarlyAttemptIsDeferred(s: State, start: int, outcome: Outcome, failTime: int, retryTime: int,
                               nextInt: int -> int)
    requires NextIntContract(nextInt)
    requires CanStart(s) && start < s.backoffEnd
    ensures var r := BeginStream(s, start, outcome, failTime, retryTime, nextInt);
      && !r.state.running
      && r.state.numFailed == s.numFailed && r.state.backoffEnd == s.backoffEnd
      && (s.retries > 0 ==>
            r.state == s.(retries := s.retries - 1)
            && r.events == [Schedule(RetryDelay(s.backoffEnd, retryTime))]
            && retryTime + r.events[0].delayMillis >= s.backoffEnd)
      && (s.retries <= 0 ==> r.state == s && r.events == [Propagate(UnableToConnect)])
  {
  }

  /**
   * A connection that produced no status, or a retryable one, records one
   * more failure, moves the backoff end into the jitter window after
   * `failTime`, and retries (or reports exhaustion when the budget is spent).
   */
  lemma FailedConnectionBacksOff(s: State, start: int, outcome: Outcome, failTime: int, retryTime: int,
                                 nextInt: int -> int)
    requires NextIntContract(nextInt)
    requires CanStart(s) && start >= s.backoffEnd && ConnectionFailed(outcome)
    ensures var r := BeginStream(s, start, outcome, failTime, retryTime, nextInt);
      && !r.state.running
      && r.state.numFailed == s.numFailed + 1
      && r.state.backoffEnd
           == failTime + RandomizedBackoffMillis(s.numFailed + 1, nextInt(BaseMillis(s.numFailed + 1)))
      && failTime + BaseMillis(s.numFailed + 1) / 2 <= r.state.backoffEnd
      && r.state.backoffEnd < failTime + 3 * (BaseMillis(s.numFailed + 1) / 2)
      && (s.numFailed == 0 ==> failTime + 60000 <= r.state.backoffEnd < failTime + 180000)
      && (s.numFailed >= 7 ==> failTime + 7680000 <= r.state.backoffEnd < failTime + 23040000)
      && r.state == s.(retries := r.state.retries, numFailed := r.state.numFailed,
                       backoffEnd := r.state.backoffEnd)
      && r.state.retries == (if s.retries > 0 then s.retries - 1 else s.retries)
      && r.events == (if outcome.NoResponse? then [Propagate(StreamInterrupted)] else [])
                     + (if s.retries > 0 then [Schedule(RetryDelay(r.state.backoffEnd, retryTime))]
                        else [Propagate(UnableToConnect)])
  {
  }

  /**
   * A 200 resets the persisted failure history and the retry budget; once
   * the stream ends the client reconnects at once, unless the server
   * disabled realtime while the stream was open.
   */
  lemma HealthyStreamReconnects(s: State, start: int, listen: Listen, failTime: int, retryTime: int,
                                nextInt: int -> int)
    requires NextIntContract(nextInt)
    requires CanStart(s) && start >= s.backoffEnd
    ensures var r := BeginStream(s, start, Status(HttpOk, listen), failTime, retryTime, nextInt);
      && !r.state.running
      && r.state.numFailed == 0 && r.state.backoffEnd == NoBackoffEnd
      && (r.state.disabled <==> listen.disabledSignal)
      && r.state == s.(retries := r.state.retries, numFailed := 0, backoffEnd := NoBackoffEnd,
                       disabled := listen.disabledSignal)
      && (!listen.disabledSignal ==>
            && r.state.retries == OriginalRetries - 1
            && r.events == (if listen.threw then [Propagate(StreamInterrupted)] else [])
                           + [Schedule(RetryDelay(NoBackoffEnd, retryTime))]
            && (retryTime >= NoBackoffEnd ==> r.events[|r.events| - 1] == Schedule(0)))
      && (listen.disabledSignal ==>
            && r.state.retries == OriginalRetries
            && r.events == [Propagate(RealtimeDisabled)]
                           + (if listen.threw then [Propagate(StreamInterrupted)] else []))
  {
  }

  /**
   * Any status other than 200 and the retryable ones is reported once, with
   * its code; the failure count is untouched and no retry is scheduled.
   */
  lemma TerminalStatusIsReported(s: State, start: int, outcome: Outcome, failTime: int, retryTime: int,
                                 nextInt: int -> int)
    requires NextIntContract(nextInt)
    requires CanStart(s) && start >= s.backoffEnd
    requires outcome.Status? && outcome.code != HttpOk && !IsStatusCodeRetryable(outcome.code)
    ensures var r := BeginStream(s, start, outcome, failTime, retryTime, nextInt);
      r.state == s && r.events == [Propagate(HttpStatusError(outcome.code))]
  {
  }

  /**
   * No attempt touches the listeners or the background flag, and the only
   * way an attempt disables realtime is the server's disable message on a
   * stream that opened with 200.
   */
  lemma AttemptFrame(s: State, start: int, outcome: Outcome, failTime: int, retryTime: int,
                     nextInt: int -> int)
    requires NextIntContract(nextInt)
    ensures var r := BeginStream(s, start, outcome, failTime, retryTime, nextInt);
      && r.state.listeners == s.listeners
      && r.state.background == s.background
      && (r.state.disabled <==>
            s.disabled
            || (CanStart(s) && start >= s.backoffEnd && outcome.Status? && outcome.code == HttpOk
                && outcome.listen.disabledSignal))
  {
  }
}
