/**
 * The client over a run of inputs: entry-point calls, scheduled attempts
 * firing with their outcomes, and the external background and listener
 * signals, applied one after another.
 */
module ClientTrace {
  import opened RealtimeClient

  datatype Input =
    | StartStream                                   // the first attempt, without waiting
    | Retry(now: int)                               // a retry requested from outside
    | Fire(start: int, outcome: Outcome, failTime: int, retryTime: int,
           nextInt: int -> int)                     // a scheduled attempt runs
    | SetBackgrounded(background: bool)             // the app moved to or from the background
    | ListenersChanged(listeners: set<ListenerId>)  // listeners were added or removed

  ghost predicate Admissible(input: Input) {
    input.Fire? ==> NextIntContract(input.nextInt)
  }

  ghost predicate AllAdmissible(inputs: seq<Input>) {
    forall i :: 0 <= i < |inputs| ==> Admissible(inputs[i])
  }

  /** A scheduled attempt whose server answered 200, the only input that restores the budget. */
  predicate HealthyFire(input: Input) {
    input.Fire? && Healthy(input.outcome)
  }

  predicate ReturnsToForeground(input: Input) {
    input.SetBackgrounded? && !input.background
  }

  function Apply(s: State, input: Input): (r: Step)
    requires Admissible(input)
    ensures Valid(s) ==> Valid(r.state)
    ensures CountSchedules(r.events) <= 1
  {
    match input
    case StartStream => StartConnection(s)
    case Retry(now) => RetryConnection(s, now)
    case Fire(start, outcome, failTime, retryTime, nextInt) =>
      BeginStream(s, start, outcome, failTime, retryTime, nextInt)
    case SetBackgrounded(background) => Step(SetBackground(s, background), [])
    case ListenersChanged(listeners) => Step(s.(listeners := listeners), [])
  }

  function Run(s: State, inputs: seq<Input>): Step
    requires AllAdmissible(inputs)
    decreases |inputs|
  {
    if inputs == [] then Step(s, [])
    else
      var first := Apply(s, inputs[0]);
      var rest := Run(first.state, inputs[1..]);
      Step(rest.state, first.events + rest.events)
  }

  /** Every run keeps the retry budget within [0, 8] and leaves no connection running. */
  lemma {:induction false} RunKeepsValid(s: State, inputs: seq<Input>)
    requires AllAdmissible(inputs)
    requires Valid(s)
    ensures Valid(Run(s, inputs).state)
    decreases |inputs|
  {
    if inputs != [] {
      RunKeepsValid(Apply(s, inputs[0]).state, inputs[1..]);
    }
  }

  /** Once realtime is disabled it stays disabled, and the client neither connects nor reports anything. */
  lemma {:induction false} DisabledIsPermanent(s: State, inputs: seq<Input>)
    requires AllAdmissible(inputs)
    requires s.disabled
    ensures Run(s, inputs).state.disabled
    ensures Run(s, inputs).events == []
    decreases |inputs|
  {
    if inputs != [] {
      DisabledIsPermanent(Apply(s, inputs[0]).state, inputs[1..]);
    }
  }

  /** While the app stays in the background the client neither connects nor reports anything. */
  lemma {:induction false} BackgroundIsSilent(s: State, inputs: seq<Input>)
    requires AllAdmissible(inputs)
    requires s.background
    requires forall i :: 0 <= i < |inputs| ==> !ReturnsToForeground(inputs[i])
    ensures Run(s, inputs).state.background
    ensures Run(s, inputs).events == []
    decreases |inputs|
  {
    if inputs != [] {
      BackgroundIsSilent(Apply(s, inputs[0]).state, inputs[1..]);
    }
  }

  /** Any input but a healthy stream schedules an attempt exactly when it spends a retry. */
  lemma ApplySpendsBudget(s: State, input: Input)
    requires Admissible(input)
    requires !HealthyFire(input)
    ensures CountSchedules(Apply(s, input).events) == s.retries - Apply(s, input).state.retries
  {
    if input.Fire? {
      var r := Apply(s, input);
      if CanStart(s) && input.start >= s.backoffEnd && !ConnectionFailed(input.outcome) {
        assert r.state == s && |r.events| == 1 && !r.events[0].Schedule?;
      }
    }
  }

  /**
   * Between healthy streams every scheduled attempt spends one retry, so the
   * attempts scheduled in a run are exactly the retries it used up.
   */
  lemma {:induction false} SchedulesSpendBudget(s: State, inputs: seq<Input>)
    requires AllAdmissible(inputs)
    requires forall i :: 0 <= i < |inputs| ==> !HealthyFire(inputs[i])
    ensures CountSchedules(Run(s, inputs).events) == s.retries - Run(s, inputs).state.retries
    decreases |inputs|
  {
    if inputs != [] {
      var first := Apply(s, inputs[0]);
      ApplySpendsBudget(s, inputs[0]);
      SchedulesSpendBudget(first.state, inputs[1..]);
      CountSchedulesAppend(first.events, Run(first.state, inputs[1..]).events);
    }
  }
}
