/**
 * The per-bot state machine (RecGovBot.next_state and RecGovBot.run) and the
 * launch of one bot per expanded configuration entry.
 */
module RecBot {
  import opened BotTypes
  import opened Attempts
  import opened Expansion

  /** What the browser and the console report during one step of a bot. */
  datatype StepInputs = StepInputs(login: LoginPage, reserve: ReservePage, acknowledged: bool)

  /** The sleep after a login that returned false (next_state). */
  const LoginRetryPause: nat := 5
  /** The sleep after a reservation that returned false (next_state). */
  const ReserveRetryPause: nat := 1
  /** The sleep after any exception caught by run. */
  const ErrorPause: nat := 5

  /** Phases in the order a bot goes through them. */
  function Rank(s: RecBotState): nat
  {
    match s
    case LoggedOut => 0
    case Reserving => 1
    case Purchasing => 2
  }

  /**
   * The purchasing phase: a console prompt. End of input makes `input()`
   * raise; otherwise the step returns.
   */
  function PurchasePrompt(acknowledged: bool): (r: Attempt)
    ensures r.trace == [Prompt]
    ensures r.outcome.Raised? <==> !acknowledged
  {
    Attempt(if acknowledged then Returned(true) else Raised(PromptClosed), [Prompt])
  }

  /** The call a step makes in phase `s`. */
  function Call(s: RecBotState, options: RecBotOptions, inputs: StepInputs): (r: Attempt)
    ensures s == LoggedOut ==> r.outcome != Returned(false) && |r.trace| > 0 && r.trace[0] == Navigate(options.url)
    ensures s == Reserving ==> (r.outcome == Returned(true) <==> Click(FinalButton) in r.trace)
    ensures s == Purchasing ==> r.trace == [Prompt]
  {
    match s
    case LoggedOut => Login(options, inputs.login)
    case Reserving => Reserve(options, inputs.reserve)
    case Purchasing => PurchasePrompt(inputs.acknowledged)
  }

  /**
   * The transition table of next_state as seen by run: a phase advances to
   * the next one only when its call returned true; a false return or an
   * exception leaves it where it is, and the purchasing phase never moves.
   */
  function Transition(s: RecBotState, outcome: Outcome<bool>): (t: RecBotState)
    ensures outcome.Raised? ==> t == s
    ensures outcome == Returned(false) ==> t == s
    ensures s == Purchasing ==> t == Purchasing
    ensures t != s <==> s != Purchasing && outcome == Returned(true)
    ensures t != s ==> Rank(t) == Rank(s) + 1
  {
    match s
    case LoggedOut => if outcome == Returned(true) then Reserving else LoggedOut
    case Reserving => if outcome == Returned(true) then Purchasing else Reserving
    case Purchasing => Purchasing
  }

  /**
   * The phase after one step of run from phase `s`. A logged-out bot moves to
   * reserving exactly when login returned true and stays when login raised
   * (login never returns false); a reserving bot moves to purchasing exactly
   * when reserve returned true, which is exactly when it clicked the final
   * button; purchasing never moves.
   */
  function NextPhase(s: RecBotState, options: RecBotOptions, inputs: StepInputs): (t: RecBotState)
    ensures s == LoggedOut ==>
      (t == Reserving <==> Login(options, inputs.login).outcome == Returned(true)) &&
      (t == LoggedOut <==> Login(options, inputs.login).outcome.Raised?)
    ensures s == Reserving ==>
      (t == Purchasing <==> Reserve(options, inputs.reserve).outcome == Returned(true)) &&
      (t == Purchasing <==> Click(FinalButton) in Reserve(options, inputs.reserve).trace) &&
      (t == Reserving <==> Reserve(options, inputs.reserve).outcome != Returned(true))
    ensures s == Purchasing ==> t == Purchasing
    ensures Rank(s) <= Rank(t) <= Rank(s) + 1
  {
    Transition(s, Call(s, options, inputs).outcome)
  }

  /** The sleep next_state takes after a call that returned `value`. */
  function ReturnPause(s: RecBotState, value: bool): (r: seq<Action>)
    ensures value ==> r == []
    ensures |r| <= 1 && (|r| == 1 ==> r[0].Pause? && !value && s != Purchasing)
    ensures s == Reserving && !value ==> r == [Pause(ReserveRetryPause)]
  {
    if value then []
    else match s
      case LoggedOut => [Pause(LoginRetryPause)]
      case Reserving => [Pause(ReserveRetryPause)]
      case Purchasing => []
  }

  /** The sleep a step takes after its call: run's after an exception, next_state's otherwise. */
  function AfterCall(s: RecBotState, outcome: Outcome<bool>): (r: seq<Action>)
    ensures outcome.Raised? ==> r == [Pause(ErrorPause)]
    ensures outcome == Returned(true) ==> r == []
    ensures |r| <= 1 && forall i :: 0 <= i < |r| ==> r[i].Pause?
  {
    match outcome
    case Raised(_) => [Pause(ErrorPause)]
    case Returned(v) => ReturnPause(s, v)
  }

  /** Everything one step of run does, in order: the state line, the call, the sleep. */
  function StepTrace(s: RecBotState, options: RecBotOptions, inputs: StepInputs): seq<Action>
  {
    var a := Call(s, options, inputs);
    [ReportState(s)] + a.trace + AfterCall(s, a.outcome)
  }

  /** The phase after running the steps `steps` from phase `s`. */
  function RunPhase(s: RecBotState, options: RecBotOptions, steps: seq<StepInputs>): RecBotState
  {
    if |steps| == 0 then s
    else NextPhase(RunPhase(s, options, steps[..|steps| - 1]), options, steps[|steps| - 1])
  }

  /** Everything running the steps `steps` from phase `s` does, in order. */
  function RunTrace(s: RecBotState, options: RecBotOptions, steps: seq<StepInputs>): seq<Action>
  {
    if |steps| == 0 then []
    else
      var before := steps[..|steps| - 1];
      RunTrace(s, options, before) + StepTrace(RunPhase(s, options, before), options, steps[|steps| - 1])
  }

  /** The phases reported by run's state line, in the order they appear in a trace. */
  function ReportsOf(trace: seq<Action>): seq<RecBotState>
  {
    if |trace| == 0 then []
    else (if trace[0].ReportState? then [trace[0].phase] else []) + ReportsOf(trace[1..])
  }

  /** The phase before each of the steps `steps`, run from phase `s`. */
  function Visited(s: RecBotState, options: RecBotOptions, steps: seq<StepInputs>): seq<RecBotState>
  {
    if |steps| == 0 then []
    else
      var before := steps[..|steps| - 1];
      Visited(s, options, before) + [RunPhase(s, options, before)]
  }

  // A hint for the solver: regrouping concatenations of traces.
  lemma AppendAssoc(a: seq<Action>, b: seq<Action>, c: seq<Action>)
    ensures a + b + c == a + (b + c)
  {
  }

  /** Running one more step extends the phase and the trace by that step. */
  lemma RunExtend(s: RecBotState, options: RecBotOptions, steps: seq<StepInputs>, i: nat)
    requires i < |steps|
    ensures RunPhase(s, options, steps[..i + 1]) == NextPhase(RunPhase(s, options, steps[..i]), options, steps[i])
    ensures RunTrace(s, options, steps[..i + 1])
         == RunTrace(s, options, steps[..i]) + StepTrace(RunPhase(s, options, steps[..i]), options, steps[i])
  {
    assert steps[..i + 1][..i] == steps[..i];
  }

  class RecGovBot {
    const options: RecBotOptions
    var state: RecBotState
    /** What the bot has done with its browser, console and clock so far. */
    var trace: seq<Action>

    /** A new bot starts logged out, having done nothing yet. */
    constructor (options: RecBotOptions)
      ensures this.options == options && state == LoggedOut && trace == []
    {
      this.options := options;
      state := LoggedOut;
      trace := [];
    }

    /**
     * RecGovBot.next_state: make the call of the current phase and move on
     * when it returned true. An exception from the call leaves the phase as
     * it was and propagates.
     */
    method NextState(inputs: StepInputs) returns (r: Outcome<RecBotState>)
      modifies this
      ensures var a := Call(old(state), options, inputs);
        match a.outcome
        case Raised(f) =>
          r == Raised(f) && state == old(state) && trace == old(trace) + a.trace
        case Returned(v) =>
          r == Returned(state) && state == NextPhase(old(state), options, inputs) &&
          trace == old(trace) + a.trace + ReturnPause(old(state), v)
    {
      var a: Attempt;
      match state {
        case LoggedOut =>
          a := Login(options, inputs.login);
          trace := trace + a.trace;
          if a.outcome.Raised? {
            return Raised(a.outcome.failure);
          }
          if a.outcome.value {
            state := Reserving;
          } else {
            // login never returns false, so this retry branch of next_state is dead
            assert false;
          }
        case Reserving =>
          a := Reserve(options, inputs.reserve);
          trace := trace + a.trace;
          if a.outcome.Raised? {
            return Raised(a.outcome.failure);
          }
          if a.outcome.value {
            state := Purchasing;
          } else {
            trace := trace + [Pause(ReserveRetryPause)];
          }
        case Purchasing =>
          a := PurchasePrompt(inputs.acknowledged);
          trace := trace + a.trace;
          if a.outcome.Raised? {
            return Raised(a.outcome.failure);
          }
      }
      r := Returned(state);
    }

    /**
     * One iteration of run's loop: report the phase, take a step, and on an
     * exception sleep and keep the phase.
     */
    method Step(inputs: StepInputs)
      modifies this
      ensures state == NextPhase(old(state), options, inputs)
      ensures trace == old(trace) + StepTrace(old(state), options, inputs)
    {
      ghost var s, a := state, Call(state, options, inputs);
      ghost var tail := AfterCall(s, a.outcome);
      AppendAssoc(old(trace), [ReportState(s)], a.trace);
      AppendAssoc(old(trace), [ReportState(s)] + a.trace, tail);
      trace := trace + [ReportState(state)];
      var r := NextState(inputs);
      match r {
        case Returned(next) =>
          state := next;
        case Raised(_) =>
          trace := trace + [Pause(ErrorPause)];
      }
    }

    /**
     * RecGovBot.run, for as many iterations as there are entries in `steps`:
     * no exception ends the loop, every entry is used for one step.
     */
    method Run(steps: seq<StepInputs>)
      modifies this
      ensures state == RunPhase(old(state), options, steps)
      ensures trace == old(trace) + RunTrace(old(state), options, steps)
    {
      var i := 0;
      while i < |steps|
        invariant 0 <= i <= |steps|
        invariant state == RunPhase(old(state), options, steps[..i])
        invariant trace == old(trace) + RunTrace(old(state), options, steps[..i])
      {
        RunExtend(old(state), options, steps, i);
        ghost var before := RunTrace(old(state), options, steps[..i]);
        ghost var s := state;
        Step(steps[i]);
        AppendAssoc(old(trace), before, StepTrace(s, options, steps[i]));
        i := i + 1;
      }
      assert steps[..|steps|] == steps;
    }
  }

  /**
   * main: expand the configuration by the replication factor and create one
   * bot per entry, each with its own state and browser.
   */
  method Launch(config: seq<RecBotOptions>, instances: int) returns (bots: seq<RecGovBot>)
    ensures |bots| == |Expand(config, instances)|
    ensures forall i :: 0 <= i < |bots| ==>
      fresh(bots[i]) && bots[i].options == Expand(config, instances)[i] &&
      bots[i].state == LoggedOut && bots[i].trace == []
    ensures forall i, j :: 0 <= i < j < |bots| ==> bots[i] != bots[j]
  {
    var expanded := Expand(config, instances);
    bots := [];
    for k := 0 to |expanded|
      invariant |bots| == k
      invariant forall i :: 0 <= i < k ==>
        fresh(bots[i]) && bots[i].options == expanded[i] &&
        bots[i].state == LoggedOut && bots[i].trace == []
      invariant forall i, j :: 0 <= i < j < k ==> bots[i] != bots[j]
    {
      var bot := new RecGovBot(expanded[k]);
      bots := bots + [bot];
    }
  }

  /** A bot never goes back to an earlier phase. */
  lemma {:induction false} RunMonotone(s: RecBotState, options: RecBotOptions, steps: seq<StepInputs>)
    ensures Rank(s) <= Rank(RunPhase(s, options, steps))
  {
    if |steps| > 0 {
      var before := steps[..|steps| - 1];
      RunMonotone(s, options, before);
    }
  }

  /** Purchasing is absorbing: however many steps follow, the bot stays there. */
  lemma {:induction false} PurchasingAbsorbs(options: RecBotOptions, steps: seq<StepInputs>)
    ensures RunPhase(Purchasing, options, steps) == Purchasing
  {
    if |steps| > 0 {
      PurchasingAbsorbs(options, steps[..|steps| - 1]);
    }
  }

  /**
   * A run that gets past phase p went through p and made, in p, a call that
   * returned true: exceptions and false returns never move a bot.
   */
  lemma {:induction false} LeavesOnlyOnSuccess(s: RecBotState, options: RecBotOptions, steps: seq<StepInputs>, p: RecBotState)
    requires Rank(s) <= Rank(p) < Rank(RunPhase(s, options, steps))
    ensures exists i ::
              0 <= i < |steps| && RunPhase(s, options, steps[..i]) == p &&
              Call(p, options, steps[i]).outcome == Returned(true)
  {
    var last := |steps| - 1;
    var before := steps[..last];
    var q := RunPhase(s, options, before);
    LastStep(s, options, steps);
    if Rank(p) < Rank(q) {
      LeavesOnlyOnSuccess(s, options, before, p);
      var i :| 0 <= i < |before| && RunPhase(s, options, before[..i]) == p &&
        Call(p, options, before[i]).outcome == Returned(true);
      assert before[..i] == steps[..i] && before[i] == steps[i];
      assert 0 <= i < |steps| && RunPhase(s, options, steps[..i]) == p &&
        Call(p, options, steps[i]).outcome == Returned(true);
    } else {
      RunMonotone(s, options, before);
      assert q == p;
      assert 0 <= last < |steps| && RunPhase(s, options, steps[..last]) == p &&
        Call(p, options, steps[last]).outcome == Returned(true);
    }
  }

  /** The last step of a run moves the bot forward only when its call returned true. */
  lemma LastStep(s: RecBotState, options: RecBotOptions, steps: seq<StepInputs>)
    requires |steps| > 0
    ensures Rank(RunPhase(s, options, steps[..|steps| - 1])) <= Rank(RunPhase(s, options, steps))
    ensures Rank(RunPhase(s, options, steps[..|steps| - 1])) < Rank(RunPhase(s, options, steps)) ==>
      Call(RunPhase(s, options, steps[..|steps| - 1]), options, steps[|steps| - 1]).outcome == Returned(true)
  {
    var q, last := RunPhase(s, options, steps[..|steps| - 1]), steps[|steps| - 1];
    assert RunPhase(s, options, steps) == NextPhase(q, options, last);
    if Rank(q) < Rank(NextPhase(q, options, last)) {
      StepAdvances(q, options, last);
    }
  }

  /** A single step moves the bot forward only when its call returned true. */
  lemma StepAdvances(s: RecBotState, options: RecBotOptions, inputs: StepInputs)
    requires Rank(s) < Rank(NextPhase(s, options, inputs))
    ensures Call(s, options, inputs).outcome == Returned(true)
  {
  }

  /** From logging out to reserving only through a login that returned true. */
  lemma ReservingNeedsLogin(options: RecBotOptions, steps: seq<StepInputs>)
    requires RunPhase(LoggedOut, options, steps) != LoggedOut
    ensures exists i ::
              0 <= i < |steps| && RunPhase(LoggedOut, options, steps[..i]) == LoggedOut &&
              Login(options, steps[i].login).outcome == Returned(true)
  {
    LeavesOnlyOnSuccess(LoggedOut, options, steps, LoggedOut);
  }

  /** Into purchasing only through a reservation that clicked the final button. */
  lemma PurchasingNeedsClick(s: RecBotState, options: RecBotOptions, steps: seq<StepInputs>)
    requires s != Purchasing && RunPhase(s, options, steps) == Purchasing
    ensures exists i ::
              0 <= i < |steps| && RunPhase(s, options, steps[..i]) == Reserving &&
              Reserve(options, steps[i].reserve).outcome == Returned(true) &&
              Click(FinalButton) in Reserve(options, steps[i].reserve).trace
  {
    LeavesOnlyOnSuccess(s, options, steps, Reserving);
    var i :| 0 <= i < |steps| && RunPhase(s, options, steps[..i]) == Reserving &&
      Call(Reserving, options, steps[i]).outcome == Returned(true);
  }

  lemma {:induction false} ReportsAppend(a: seq<Action>, b: seq<Action>)
    ensures ReportsOf(a + b) == ReportsOf(a) + ReportsOf(b)
  {
    if |a| == 0 {
      assert a + b == b;
    } else {
      assert (a + b)[0] == a[0];
      assert (a + b)[1..] == a[1..] + b;
      ReportsAppend(a[1..], b);
    }
  }

  lemma {:induction false} NoReports(trace: seq<Action>)
    requires forall i :: 0 <= i < |trace| ==> !trace[i].ReportState?
    ensures ReportsOf(trace) == []
  {
    if |trace| > 0 {
      NoReports(trace[1..]);
    }
  }

  /** Only run writes the state line; the calls of a step never do. */
  lemma CallReportsNothing(s: RecBotState, options: RecBotOptions, inputs: StepInputs)
    ensures ReportsOf(Call(s, options, inputs).trace) == []
  {
    var t := Call(s, options, inputs).trace;
    match s {
      case LoggedOut =>
        LoginReportsNothing(options, inputs.login);
      case Reserving =>
        ReserveReportsNothing(options, inputs.reserve);
      case Purchasing =>
    }
    NoReports(t);
  }

  lemma LoginReportsNothing(options: RecBotOptions, page: LoginPage)
    ensures forall i :: 0 <= i < |Login(options, page).trace| ==> !Login(options, page).trace[i].ReportState?
  {
  }

  lemma ReserveReportsNothing(options: RecBotOptions, page: ReservePage)
    ensures forall i :: 0 <= i < |Reserve(options, page).trace| ==> !Reserve(options, page).trace[i].ReportState?
  {
  }

  /** Each step reports its phase once, then makes its call and sleeps. */
  lemma StepReports(s: RecBotState, options: RecBotOptions, inputs: StepInputs)
    ensures ReportsOf(StepTrace(s, options, inputs)) == [s]
  {
    var a := Call(s, options, inputs);
    var tail := AfterCall(s, a.outcome);
    assert StepTrace(s, options, inputs) == [ReportState(s)] + (a.trace + tail);
    ReportsAppend([ReportState(s)], a.trace + tail);
    ReportsAppend(a.trace, tail);
    CallReportsNothing(s, options, inputs);
    NoReports(tail);
    assert [ReportState(s)][1..] == [];
  }

  /**
   * No exception ends the loop: a run of n steps reports its phase n times,
   * once at the start of every step, and reports the phase that step starts in.
   */
  lemma {:induction false} RunReports(s: RecBotState, options: RecBotOptions, steps: seq<StepInputs>)
    ensures ReportsOf(RunTrace(s, options, steps)) == Visited(s, options, steps)
  {
    if |steps| > 0 {
      var before := steps[..|steps| - 1];
      RunReports(s, options, before);
      ReportsAppend(RunTrace(s, options, before), StepTrace(RunPhase(s, options, before), options, steps[|steps| - 1]));
      StepReports(RunPhase(s, options, before), options, steps[|steps| - 1]);
    }
  }

  /** Entry i of the visited phases is the phase after the first i steps. */
  lemma {:induction false} VisitedAt(s: RecBotState, options: RecBotOptions, steps: seq<StepInputs>, i: nat)
    requires i < |steps|
    ensures |Visited(s, options, steps)| == |steps|
    ensures Visited(s, options, steps)[i] == RunPhase(s, options, steps[..i])
  {
    var before := steps[..|steps| - 1];
    VisitedLength(s, options, before);
    if i < |before| {
      VisitedAt(s, options, before, i);
      assert before[..i] == steps[..i];
    }
  }

  lemma {:induction false} VisitedLength(s: RecBotState, options: RecBotOptions, steps: seq<StepInputs>)
    ensures |Visited(s, options, steps)| == |steps|
  {
    if |steps| > 0 {
      VisitedLength(s, options, steps[..|steps| - 1]);
    }
  }

  /**
   * A login that raised leaves the bot logged out, and the next step starts
   * the login over from the request's page.
   */
  lemma LoginRetryStartsOver(options: RecBotOptions, failed: StepInputs, next: StepInputs)
    requires Login(options, failed.login).outcome.Raised?
    ensures NextPhase(LoggedOut, options, failed) == LoggedOut
    ensures StepTrace(LoggedOut, options, next)[..3] == [ReportState(LoggedOut)] + LoginOpening(options)
  {
  }
}
