// packages/agentframework: runner.go, budget.go, scratchpad.go, telemetry.go.
// A bounded loop whose scratchpad, budget tracker and telemetry must tell one
// story about every run. The model, the agent, the tools and the clock are an
// Oracle: whatever they answer at each step.
module AgentRunner {
  import opened Basics

  const DEFAULT_MAX_STEPS: nat := 12

  // MaxTokens <= 0 means no ceiling; the wall clock is asked of the oracle.
  datatype Budget = Budget(maxSteps: int, maxTokens: int)

  function MaxSteps(b: Budget): nat {
    if b.maxSteps <= 0 then DEFAULT_MAX_STEPS else b.maxSteps
  }

  datatype Decision = Decision(conclude: bool, finalText: string, toolCalls: seq<string>)
  datatype Observation = Observation(call: string, ok: bool)
  datatype StepError = MalformedOutput | StepTimeout | ModelCall | ToolFailure(causedByTimeout: bool)

  datatype Step = Step(index: nat, requested: bool, response: Option<int>, decision: Option<Decision>,
                       observations: seq<Observation>, err: Option<StepError>)

  datatype Reply = ChatOk(tokens: int) | ChatFailed(deadlinePassed: bool)
  datatype ToolReply = ToolOk | ToolFailed(timeout: bool)

  datatype Oracle = Oracle(
    builds: nat -> bool,                    // BuildRequest succeeds at step i
    chat: nat -> Reply,                     // Router.Chat
    interpret: nat -> Option<Decision>,     // Interpret, None when it fails
    tool: (nat, nat) -> ToolReply,          // the j-th tool call of step i
    lateAtTop: nat -> bool,                 // the run deadline has passed when step i would start
    lateAfter: nat -> bool)                 // ... when step i has just failed

  // ---------- what one step amounts to ----------

  // Tools run in order and stop at the first failure, which is still recorded.
  function Dispatched(o: Oracle, i: nat, calls: seq<string>, j: nat): (obs: seq<Observation>)
    requires j <= |calls|
    ensures |obs| <= |calls| - j
    decreases |calls| - j
  {
    if j == |calls| then []
    else if o.tool(i, j).ToolOk? then [Observation(calls[j], true)] + Dispatched(o, i, calls, j + 1)
    else [Observation(calls[j], false)]
  }

  function ToolError(o: Oracle, i: nat, calls: seq<string>, j: nat): Option<StepError>
    requires j <= |calls|
    decreases |calls| - j
  {
    if j == |calls| then None
    else match o.tool(i, j)
      case ToolOk => ToolError(o, i, calls, j + 1)
      case ToolFailed(timeout) => Some(ToolFailure(timeout))
  }

  function StepAt(o: Oracle, i: nat): Step {
    if !o.builds(i) then Step(i, false, None, None, [], Some(MalformedOutput))
    else match o.chat(i)
      case ChatFailed(late) => Step(i, true, None, None, [], Some(if late then StepTimeout else ModelCall))
      case ChatOk(tokens) =>
        match o.interpret(i)
        case None => Step(i, true, Some(tokens), None, [], Some(MalformedOutput))
        case Some(d) =>
          if d.conclude then Step(i, true, Some(tokens), Some(d), [], None)
          else Step(i, true, Some(tokens), Some(d), Dispatched(o, i, d.toolCalls, 0), ToolError(o, i, d.toolCalls, 0))
  }

  predicate Concludes(s: Step) {
    s.err.None? && s.decision.Some? && s.decision.value.conclude
  }

  predicate Stops(s: Step) {
    s.err.Some? || Concludes(s)
  }

  predicate IsTimeout(e: StepError) {
    e.StepTimeout? || (e.ToolFailure? && e.causedByTimeout)
  }

  function StepTokens(s: Step): int {
    if s.response.None? then 0 else s.response.value
  }

  // ---------- sums over a history ----------

  function Tokens(steps: seq<Step>): int {
    if steps == [] then 0 else Tokens(steps[..|steps| - 1]) + StepTokens(steps[|steps| - 1])
  }

  function ToolLog(steps: seq<Step>): seq<Observation> {
    if steps == [] then [] else ToolLog(steps[..|steps| - 1]) + steps[|steps| - 1].observations
  }

  function FailedTools(obs: seq<Observation>): nat {
    if obs == [] then 0 else FailedTools(obs[..|obs| - 1]) + if obs[|obs| - 1].ok then 0 else 1
  }

  function ModelCalls(steps: seq<Step>): nat {
    if steps == [] then 0 else ModelCalls(steps[..|steps| - 1]) + if steps[|steps| - 1].requested then 1 else 0
  }

  predicate ModelFailed(s: Step) {
    s.requested && s.response.None?
  }

  function ModelErrors(steps: seq<Step>): nat {
    if steps == [] then 0 else ModelErrors(steps[..|steps| - 1]) + if ModelFailed(steps[|steps| - 1]) then 1 else 0
  }

  // ---------- the run as a whole ----------

  datatype Termination = Concluded | BudgetExhausted | Failed
  datatype RunError = Exhausted | Unrecoverable(cause: StepError)

  function Steps(o: Oracle, n: nat): (s: seq<Step>)
    ensures |s| == n
  {
    if n == 0 then [] else Steps(o, n - 1) + [StepAt(o, n - 1)]
  }

  predicate BudgetSpent(b: Budget, late: bool, taken: nat, tokens: int) {
    taken >= MaxSteps(b) || late || (b.maxTokens > 0 && tokens >= b.maxTokens)
  }

  // How many steps a run takes that has already taken i.
  function StepsFrom(o: Oracle, b: Budget, i: nat): (n: nat)
    ensures n >= i
    decreases if i < MaxSteps(b) then MaxSteps(b) - i else 0
  {
    if BudgetSpent(b, o.lateAtTop(i), i, Tokens(Steps(o, i))) then i
    else if Stops(StepAt(o, i)) then i + 1
    else StepsFrom(o, b, i + 1)
  }

  function History(o: Oracle, b: Budget): seq<Step> {
    Steps(o, StepsFrom(o, b, 0))
  }

  datatype Ending = Ending(termination: Termination, finalText: string, err: Option<RunError>)

  const OUT_OF_BUDGET: Ending := Ending(BudgetExhausted, "", Some(Exhausted))

  function EndingAfter(b: Budget, late: bool, last: Step, taken: nat, tokens: int): Ending
    requires Stops(last)
  {
    if last.err.None? then Ending(Concluded, last.decision.value.finalText, None)
    else if IsTimeout(last.err.value) && BudgetSpent(b, late, taken, tokens) then OUT_OF_BUDGET
    else Ending(Failed, "", Some(Unrecoverable(last.err.value)))
  }

  // Why a run with this history ended.
  function EndingOf(o: Oracle, b: Budget, steps: seq<Step>): Ending {
    var n := |steps|;
    if n == 0 || !Stops(steps[n - 1]) then OUT_OF_BUDGET
    else EndingAfter(b, o.lateAfter(n - 1), steps[n - 1], n, Tokens(steps))
  }

  // The three ways on from the top of the loop, where i steps are done and the
  // run is not over.
  predicate UnderWay(o: Oracle, b: Budget, steps: seq<Step>) {
    && steps == Steps(o, |steps|) && StepsFrom(o, b, 0) == StepsFrom(o, b, |steps|)
    && (steps == [] || !Stops(steps[|steps| - 1]))
  }

  lemma SpentEndsRun(o: Oracle, b: Budget, steps: seq<Step>)
    requires UnderWay(o, b, steps) && BudgetSpent(b, o.lateAtTop(|steps|), |steps|, Tokens(steps))
    ensures steps == History(o, b) && EndingOf(o, b, steps) == OUT_OF_BUDGET
  {
  }

  lemma StopEndsRun(o: Oracle, b: Budget, steps: seq<Step>)
    requires UnderWay(o, b, steps) && !BudgetSpent(b, o.lateAtTop(|steps|), |steps|, Tokens(steps))
    requires Stops(StepAt(o, |steps|))
    ensures var now := steps + [StepAt(o, |steps|)];
      && now == History(o, b)
      && EndingOf(o, b, now) == EndingAfter(b, o.lateAfter(|steps|), StepAt(o, |steps|), |steps| + 1, Tokens(now))
  {
    hide StepAt, Tokens;
  }

  lemma StepContinuesRun(o: Oracle, b: Budget, steps: seq<Step>)
    requires UnderWay(o, b, steps) && !BudgetSpent(b, o.lateAtTop(|steps|), |steps|, Tokens(steps))
    requires !Stops(StepAt(o, |steps|))
    ensures UnderWay(o, b, steps + [StepAt(o, |steps|)])
  {
    hide StepAt, Tokens;
  }

  lemma RunStarts(o: Oracle, b: Budget)
    ensures UnderWay(o, b, [])
  {
  }

  // ---------- the classes ----------

  class Scratchpad {
    const caseId: string
    const tenantId: string
    var steps: seq<Step>
    var toolLog: seq<Observation>

    constructor (caseId: string, tenantId: string)
      ensures this.caseId == caseId && this.tenantId == tenantId && steps == [] && toolLog == []
    {
      this.caseId, this.tenantId, steps, toolLog := caseId, tenantId, [], [];
    }

    // The tool log is the steps' observations, flattened.
    ghost predicate Valid()
      reads this
    {
      toolLog == ToolLog(steps)
    }

    method AppendStep(s: Step)
      requires Valid()
      modifies this
      ensures Valid() && steps == old(steps) + [s]
    {
      assert (steps + [s])[..|steps|] == steps;
      steps := steps + [s];
      toolLog := toolLog + s.observations;
    }
  }

  class BudgetTracker {
    const budget: Budget
    var stepsTaken: nat
    var tokensUsed: int

    constructor (budget: Budget)
      ensures this.budget == budget && stepsTaken == 0 && tokensUsed == 0
    {
      this.budget, stepsTaken, tokensUsed := budget, 0, 0;
    }

    method CheckExhausted(late: bool) returns (spent: bool)
      ensures spent <==> BudgetSpent(budget, late, stepsTaken, tokensUsed)
    {
      if stepsTaken >= MaxSteps(budget) { return true; }
      if late { return true; }
      if budget.maxTokens > 0 && tokensUsed >= budget.maxTokens { return true; }
      spent := false;
    }

    method RecordStep(tokens: int)
      modifies this
      ensures stepsTaken == old(stepsTaken) + 1 && tokensUsed == old(tokensUsed) + tokens
    {
      stepsTaken, tokensUsed := stepsTaken + 1, tokensUsed + tokens;
    }
  }

  datatype Stats = Stats(stepsTaken: nat, toolCalls: nat, toolErrors: nat, modelCalls: nat, modelErrors: nat,
                         tokens: int, wallClock: int, termination: Option<Termination>)

  // What telemetry should read after these steps.
  function StatsOf(steps: seq<Step>, t: Option<Termination>): Stats {
    Stats(|steps|, |ToolLog(steps)|, FailedTools(ToolLog(steps)), ModelCalls(steps), ModelErrors(steps),
          Tokens(steps), 0, t)
  }

  class TelemetryRecorder {
    var stats: Stats

    constructor ()
      ensures stats == StatsOf([], None)
    {
      stats := Stats(0, 0, 0, 0, 0, 0, 0, None);
    }

    method RecordStep()
      modifies this
      ensures stats == old(stats).(stepsTaken := old(stats).stepsTaken + 1)
    {
      stats := stats.(stepsTaken := stats.stepsTaken + 1);
    }

    method RecordModelCall(failed: bool, tokens: int)
      modifies this
      ensures stats == old(stats).(modelCalls := old(stats).modelCalls + 1,
        modelErrors := old(stats).modelErrors + (if failed then 1 else 0),
        tokens := old(stats).tokens + (if failed then 0 else tokens))
    {
      stats := stats.(modelCalls := stats.modelCalls + 1);
      if failed { stats := stats.(modelErrors := stats.modelErrors + 1); return; }
      stats := stats.(tokens := stats.tokens + tokens);
    }

    method RecordToolCall(failed: bool)
      modifies this
      ensures stats == old(stats).(toolCalls := old(stats).toolCalls + 1,
        toolErrors := old(stats).toolErrors + (if failed then 1 else 0))
    {
      stats := stats.(toolCalls := stats.toolCalls + 1);
      if failed { stats := stats.(toolErrors := stats.toolErrors + 1); }
    }

    method SetWallClock(elapsed: int)
      modifies this
      ensures stats == old(stats).(wallClock := elapsed)
    {
      stats := stats.(wallClock := elapsed);
    }

    method SetTermination(t: Termination)
      modifies this
      ensures stats == old(stats).(termination := Some(t))
    {
      stats := stats.(termination := Some(t));
    }
  }

  function WithTools(s: Stats, obs: seq<Observation>): Stats {
    s.(toolCalls := s.toolCalls + |obs|, toolErrors := s.toolErrors + FailedTools(obs))
  }

  lemma NoTools(s: Stats)
    ensures WithTools(s, []) == s
  {
  }

  lemma WithOneMore(s: Stats, obs: seq<Observation>, o: Observation)
    ensures WithTools(s, obs + [o]) == WithTools(s, obs).(toolCalls := WithTools(s, obs).toolCalls + 1,
      toolErrors := WithTools(s, obs).toolErrors + (if o.ok then 0 else 1))
  {
    assert (obs + [o])[..|obs|] == obs;
  }

  lemma DispatchStep(o: Oracle, i: nat, calls: seq<string>, j: nat, obs: seq<Observation>)
    requires j < |calls|
    ensures o.tool(i, j).ToolOk? ==> ToolError(o, i, calls, j) == ToolError(o, i, calls, j + 1)
    ensures o.tool(i, j).ToolOk? ==>
      obs + Dispatched(o, i, calls, j) == (obs + [Observation(calls[j], true)]) + Dispatched(o, i, calls, j + 1)
    ensures o.tool(i, j).ToolFailed? ==> ToolError(o, i, calls, j) == Some(ToolFailure(o.tool(i, j).timeout))
    ensures o.tool(i, j).ToolFailed? ==> Dispatched(o, i, calls, j) == [Observation(calls[j], false)]
  {
  }

  lemma DispatchEnd(o: Oracle, i: nat, calls: seq<string>, obs: seq<Observation>)
    ensures obs + Dispatched(o, i, calls, |calls|) == obs && ToolError(o, i, calls, |calls|) == None
  {
  }

  // One more step's contribution to the counters RecordStep does not touch.
  function WithStep(s: Stats, step: Step): Stats {
    WithTools(s, step.observations).(
       modelCalls := s.modelCalls + (if step.requested then 1 else 0),
       modelErrors := s.modelErrors + (if ModelFailed(step) then 1 else 0),
       tokens := s.tokens + StepTokens(step))
  }

  lemma {:induction false} FailedConcat(a: seq<Observation>, b: seq<Observation>)
    ensures FailedTools(a + b) == FailedTools(a) + FailedTools(b)
  {
    if b == [] {
      assert a + b == a;
    } else {
      assert (a + b)[..|a| + |b| - 1] == a + b[..|b| - 1];
      FailedConcat(a, b[..|b| - 1]);
    }
  }

  lemma StatsStep(steps: seq<Step>, step: Step, t: Option<Termination>)
    ensures StatsOf(steps + [step], t) ==
      WithStep(StatsOf(steps, t), step).(stepsTaken := WithStep(StatsOf(steps, t), step).stepsTaken + 1)
    ensures Tokens(steps + [step]) == Tokens(steps) + StepTokens(step)
  {
    assert (steps + [step])[..|steps|] == steps;
    FailedConcat(ToolLog(steps), step.observations);
  }

  datatype Result = Result(caseId: string, agentName: string, termination: Termination, finalText: string,
                           steps: seq<Step>,
                           toolLog: seq<Observation>, telemetry: Stats, err: Option<RunError>)

  class Runner {
    const oracle: Oracle
    const budget: Budget
    const tenantId: string
    const agentName: string

    constructor (oracle: Oracle, budget: Budget, tenantId: string, agentName: string)
      ensures this.oracle == oracle && this.budget == budget && this.tenantId == tenantId && this.agentName == agentName
    {
      this.oracle, this.budget, this.tenantId, this.agentName := oracle, budget, tenantId, agentName;
    }

    // None is ErrEmptyCaseID; elapsed is what the clock says the run took.
    method Run(caseId: string, elapsed: int) returns (r: Option<Result>)
      ensures r.None? <==> caseId == ""
      ensures r.Some? ==>
        var steps := History(oracle, budget);
        var e := EndingOf(oracle, budget, steps);
        r.value == Result(caseId, agentName, e.termination, e.finalText, steps, ToolLog(steps),
                          StatsOf(steps, Some(e.termination)).(wallClock := elapsed), e.err)
    {
      hide StepAt, StatsOf, Tokens, ToolLog, WithStep, UnderWay, History, EndingOf, Steps, StepsFrom;
      if caseId == "" { return None; }
      var pad := new Scratchpad(caseId, tenantId);
      var telemetry := new TelemetryRecorder();
      var tracker := new BudgetTracker(budget);
      NothingYet();
      RunStarts(oracle, budget);
      var termination, finalText, err := BudgetExhausted, "", None;
      var running := true;
      while running
        invariant pad.Valid() && tracker.budget == budget
        invariant tracker.stepsTaken == |pad.steps| && tracker.tokensUsed == Tokens(pad.steps)
        invariant telemetry.stats == StatsOf(pad.steps, if running then None else Some(termination))
        invariant running ==> UnderWay(oracle, budget, pad.steps)
        invariant !running ==> pad.steps == History(oracle, budget)
        invariant !running ==> Ending(termination, finalText, err) == EndingOf(oracle, budget, pad.steps)
        invariant running ==> termination == BudgetExhausted && finalText == "" && err == None
        decreases running, if |pad.steps| < MaxSteps(budget) then MaxSteps(budget) - |pad.steps| else 0
      {
        var i := |pad.steps|;
        var spent := tracker.CheckExhausted(oracle.lateAtTop(i));
        if spent {
          termination, err := BudgetExhausted, Some(Exhausted);
          SpentEndsRun(oracle, budget, pad.steps);
          TerminationOnly(pad.steps, termination);
          telemetry.SetTermination(termination);
          running := false;
        } else {
          var step := RunStep(i, telemetry);
          StatsStep(pad.steps, step, None);
          if Stops(step) {
            StopEndsRun(oracle, budget, pad.steps);
          } else {
            StepContinuesRun(oracle, budget, pad.steps);
          }
          pad.AppendStep(step);
          telemetry.RecordStep();
          tracker.RecordStep(StepTokens(step));
          if step.err.Some? {
            termination, err := Failed, Some(Unrecoverable(step.err.value));
            if IsTimeout(step.err.value) {
              var over := tracker.CheckExhausted(oracle.lateAfter(i));
              if over { termination, err := BudgetExhausted, Some(Exhausted); }
            }
          } else if step.decision.Some? && step.decision.value.conclude {
            termination, finalText := Concluded, step.decision.value.finalText;
          }
          if Stops(step) {
            TerminationOnly(pad.steps, termination);
            telemetry.SetTermination(termination);
            running := false;
          }
        }
      }
      telemetry.SetWallClock(elapsed);
      r := Some(Result(caseId, agentName, termination, finalText, pad.steps, pad.toolLog, telemetry.stats, err));
    }

    method RunStep(i: nat, telemetry: TelemetryRecorder) returns (step: Step)
      modifies telemetry
      ensures step == StepAt(oracle, i)
      ensures telemetry.stats == WithStep(old(telemetry.stats), step)
    {
      step := Step(i, false, None, None, [], None);
      if !oracle.builds(i) { step := step.(err := Some(MalformedOutput)); return; }
      step := step.(requested := true);
      var reply := oracle.chat(i);
      telemetry.RecordModelCall(reply.ChatFailed?, if reply.ChatOk? then reply.tokens else 0);
      if reply.ChatFailed? {
        step := step.(err := Some(if reply.deadlinePassed then StepTimeout else ModelCall));
        return;
      }
      step := step.(response := Some(reply.tokens));
      var decision := oracle.interpret(i);
      if decision.None? { step := step.(err := Some(MalformedOutput)); return; }
      step := step.(decision := decision);
      if !decision.value.conclude && |decision.value.toolCalls| > 0 {
        var observations, failure := DispatchToolCalls(i, decision.value.toolCalls, telemetry);
        step := step.(observations := observations, err := failure);
      }
    }

    method DispatchToolCalls(i: nat, calls: seq<string>, telemetry: TelemetryRecorder)
      returns (observations: seq<Observation>, failure: Option<StepError>)
      modifies telemetry
      ensures observations == Dispatched(oracle, i, calls, 0) && failure == ToolError(oracle, i, calls, 0)
      ensures telemetry.stats == WithTools(old(telemetry.stats), observations)
    {
      hide Dispatched, ToolError, FailedTools, WithTools;
      observations, failure := [], None;
      NoTools(telemetry.stats);
      for j := 0 to |calls|
        invariant observations + Dispatched(oracle, i, calls, j) == Dispatched(oracle, i, calls, 0)
        invariant ToolError(oracle, i, calls, j) == ToolError(oracle, i, calls, 0) && failure == None
        invariant telemetry.stats == WithTools(old(telemetry.stats), observations)
      {
        var reply := oracle.tool(i, j);
        DispatchStep(oracle, i, calls, j, observations);
        WithOneMore(old(telemetry.stats), observations, Observation(calls[j], reply.ToolOk?));
        telemetry.RecordToolCall(reply.ToolFailed?);
        observations := observations + [Observation(calls[j], reply.ToolOk?)];
        if reply.ToolFailed? {
          failure := Some(ToolFailure(reply.timeout));
          return;
        }
      }
      DispatchEnd(oracle, i, calls, observations);
    }
  }

  lemma NothingYet()
    ensures StatsOf([], None) == Stats(0, 0, 0, 0, 0, 0, 0, None) && Tokens([]) == 0 && ToolLog([]) == []
  {
  }

  lemma TerminationOnly(steps: seq<Step>, t: Termination)
    ensures StatsOf(steps, None).(termination := Some(t)) == StatsOf(steps, Some(t))
  {
  }

  // ---------- main results ----------

  lemma {:induction false} StepsAre(o: Oracle, n: nat)
    ensures forall i :: 0 <= i < n ==> Steps(o, n)[i] == StepAt(o, i)
    ensures forall k :: 0 <= k <= n ==> Steps(o, n)[..k] == Steps(o, k)
  {
    if n > 0 {
      StepsAre(o, n - 1);
      forall k | 0 <= k <= n ensures Steps(o, n)[..k] == Steps(o, k) {
        if k < n { assert Steps(o, n)[..k] == Steps(o, n - 1)[..k]; }
      }
    }
  }

  // Every run ends within the effective step limit, and every step but the last
  // went on, with the budget unspent when it started.
  lemma {:induction false} RunBounded(o: Oracle, b: Budget, i: nat)
    requires i <= MaxSteps(b)
    ensures StepsFrom(o, b, i) <= MaxSteps(b)
    ensures forall k :: i <= k < StepsFrom(o, b, i) ==>
      !BudgetSpent(b, o.lateAtTop(k), k, Tokens(Steps(o, k))) && (k + 1 < StepsFrom(o, b, i) ==> !Stops(StepAt(o, k)))
    decreases MaxSteps(b) - i
  {
    hide StepAt, Steps, Tokens;
    if !BudgetSpent(b, o.lateAtTop(i), i, Tokens(Steps(o, i))) && !Stops(StepAt(o, i)) {
      RunBounded(o, b, i + 1);
    }
  }

  lemma RunShape(o: Oracle, b: Budget)
    ensures var steps := History(o, b);
      && |steps| <= MaxSteps(b)
      && (forall i :: 0 <= i < |steps| ==> steps[i].index == i)
      && (forall i :: 0 <= i < |steps| - 1 ==> steps[i].err.None? && !Concludes(steps[i]))
      && (b.maxTokens > 0 && steps != [] ==> Tokens(steps[..|steps| - 1]) < b.maxTokens)
  {
    hide Tokens, Steps, Concludes;
    RunBounded(o, b, 0);
    var n := StepsFrom(o, b, 0);
    StepsAre(o, n);
    IndicesAre(o);
    if n > 0 { assert !BudgetSpent(b, o.lateAtTop(n - 1), n - 1, Tokens(Steps(o, n - 1))); }
  }

  lemma IndicesAre(o: Oracle)
    ensures forall i: nat :: StepAt(o, i).index == i
  {
  }

  // Err is nil exactly when the run concluded, which is exactly when its last
  // step did.
  lemma ErrNilIffConcluded(o: Oracle, b: Budget)
    ensures var steps := History(o, b); var e := EndingOf(o, b, steps);
      && (e.err.None? <==> e.termination == Concluded)
      && (e.termination == Concluded <==> steps != [] && Concludes(steps[|steps| - 1]))
      && (e.termination == Failed <==> e.err.Some? && e.err.value.Unrecoverable?)
  {
    hide History;
  }

  lemma {:induction false} WhyItEnds(o: Oracle, b: Budget, i: nat)
    ensures var n := StepsFrom(o, b, i);
      BudgetSpent(b, o.lateAtTop(n), n, Tokens(Steps(o, n))) || (n > i && Stops(StepAt(o, n - 1)))
    decreases if i < MaxSteps(b) then MaxSteps(b) - i else 0
  {
    hide StepAt, Steps, Tokens;
    if !BudgetSpent(b, o.lateAtTop(i), i, Tokens(Steps(o, i))) && !Stops(StepAt(o, i)) {
      WhyItEnds(o, b, i + 1);
    }
  }

  // A run is reported as out of budget only when a limit was reached: at the
  // top of the next step, or on the second look after a step timed out.
  lemma {:induction false} ExhaustedMeansSpent(o: Oracle, b: Budget)
    ensures var steps := History(o, b); var n := |steps|;
      EndingOf(o, b, steps).termination == BudgetExhausted ==>
        || BudgetSpent(b, o.lateAtTop(n), n, Tokens(steps))
        || (n > 0 && steps[n - 1].err.Some? && IsTimeout(steps[n - 1].err.value)
            && BudgetSpent(b, o.lateAfter(n - 1), n, Tokens(steps)))
  {
    hide StepAt, Tokens, Steps;
    WhyItEnds(o, b, 0);
    StepsAre(o, StepsFrom(o, b, 0));
  }

  lemma {:induction false} DispatchFails(o: Oracle, i: nat, calls: seq<string>, j: nat)
    requires j <= |calls|
    ensures FailedTools(Dispatched(o, i, calls, j)) == if ToolError(o, i, calls, j).Some? then 1 else 0
    decreases |calls| - j
  {
    if j < |calls| {
      var rest := if o.tool(i, j).ToolOk? then Dispatched(o, i, calls, j + 1) else [];
      var first := [Observation(calls[j], o.tool(i, j).ToolOk?)];
      assert Dispatched(o, i, calls, j) == first + rest;
      FailedConcat(first, rest);
      assert first[..0] == [];
      if o.tool(i, j).ToolOk? { DispatchFails(o, i, calls, j + 1); }
    }
  }

  // A step that carried on failed nowhere; a step that failed did so once.
  lemma StepFailures(o: Oracle, i: nat)
    ensures var s := StepAt(o, i);
      && FailedTools(s.observations) == (if s.err.Some? && s.err.value.ToolFailure? then 1 else 0)
      && (ModelFailed(s) <==> s.err == Some(StepTimeout) || s.err == Some(ModelCall))
  {
    if o.builds(i) && o.chat(i).ChatOk? && o.interpret(i).Some? && !o.interpret(i).value.conclude {
      DispatchFails(o, i, o.interpret(i).value.toolCalls, 0);
      ToolErrorIsToolFailure(o, i, o.interpret(i).value.toolCalls, 0);
    }
  }

  lemma {:induction false} ToolErrorIsToolFailure(o: Oracle, i: nat, calls: seq<string>, j: nat)
    requires j <= |calls|
    ensures ToolError(o, i, calls, j).Some? ==> ToolError(o, i, calls, j).value.ToolFailure?
    decreases |calls| - j
  {
    if j < |calls| { ToolErrorIsToolFailure(o, i, calls, j + 1); }
  }

  // Of all tool calls and model calls of a run at most one failed, and then it
  // was the last thing the run did.
  lemma AtMostOneFailure(o: Oracle, b: Budget)
    ensures var steps := History(o, b);
      FailedTools(ToolLog(steps)) + ModelErrors(steps) ==
        if steps != [] && (ModelFailed(steps[|steps| - 1]) || FailedTools(steps[|steps| - 1].observations) > 0)
        then 1 else 0
  {
    hide StepAt, StepsFrom, ModelFailed;
    RunShape(o, b);
    var n := StepsFrom(o, b, 0);
    StepsAre(o, n);
    if n > 0 {
      forall i | 0 <= i < n - 1 ensures Steps(o, n)[i] == StepAt(o, i) && StepAt(o, i).err.None? {}
      NoFailures(o, n - 1);
      StepFailures(o, n - 1);
      LastStep(o, n);
    }
  }

  lemma LastStep(o: Oracle, n: nat)
    requires n > 0
    ensures var before, last := Steps(o, n - 1), StepAt(o, n - 1);
      && Steps(o, n) == before + [last]
      && FailedTools(ToolLog(Steps(o, n))) == FailedTools(ToolLog(before)) + FailedTools(last.observations)
      && ModelErrors(Steps(o, n)) == ModelErrors(before) + if ModelFailed(last) then 1 else 0
  {
    hide StepAt, FailedTools;
    assert Steps(o, n)[..n - 1] == Steps(o, n - 1);
    FailedConcat(ToolLog(Steps(o, n - 1)), StepAt(o, n - 1).observations);
  }

  lemma {:induction false} NoFailures(o: Oracle, n: nat)
    requires forall i :: 0 <= i < n ==> StepAt(o, i).err.None?
    ensures FailedTools(ToolLog(Steps(o, n))) == 0 && ModelErrors(Steps(o, n)) == 0
  {
    hide StepAt, ModelFailed, FailedTools, ModelErrors;
    if n > 0 {
      NoFailures(o, n - 1);
      StepFailures(o, n - 1);
      LastStep(o, n);
    } else {
      NoStepsNoFailures(o);
    }
  }

  lemma NoStepsNoFailures(o: Oracle)
    ensures Steps(o, 0) == [] && ToolLog([]) == [] && FailedTools([]) == 0 && ModelErrors([]) == 0
  {
  }
}
