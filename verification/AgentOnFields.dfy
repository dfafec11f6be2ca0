// packages/agentframework: a run told by what the model, the agent, the tools
// and the clock answered, and its telemetry by what the steps hold.
module AgentOnFields {
  import opened Basics
  import opened AgentRunner

  // ---------- the steps ----------

  // The step limit in force: twelve where none is set.
  function Limit(b: Budget): nat {
    if b.maxSteps > 0 then b.maxSteps else 12
  }

  // Step i holds what the oracle answered at step i.
  predicate Tells(o: Oracle, i: nat, s: Step) {
    && s.index == i
    && (s.requested <==> o.builds(i))
    && s.response == (if o.builds(i) && o.chat(i).ChatOk? then Some(o.chat(i).tokens) else None)
    && s.decision == (if s.response.Some? then o.interpret(i) else None)
    && ToolsTold(o, i, if s.decision.Some? && !s.decision.value.conclude then s.decision.value.toolCalls else [],
                 s.observations)
    && ErrorTold(o, i, s)
  }

  // Tool calls up to the first that failed, all of them if none did.
  predicate ToolsTold(o: Oracle, i: nat, calls: seq<string>, obs: seq<Observation>) {
    && |obs| <= |calls|
    && (forall j :: 0 <= j < |obs| ==> obs[j] == Observation(calls[j], o.tool(i, j).ToolOk?))
    && (forall j :: 0 <= j < |obs| - 1 ==> obs[j].ok)
    && (|obs| < |calls| ==> |obs| > 0 && !obs[|obs| - 1].ok)
  }

  predicate ErrorTold(o: Oracle, i: nat, s: Step) {
    var n := |s.observations|;
    var failed := n > 0 && !s.observations[n - 1].ok;
    && (s.err == Some(MalformedOutput) <==> !o.builds(i) || (s.response.Some? && s.decision.None?))
    && (s.err == Some(StepTimeout) <==> o.builds(i) && o.chat(i) == ChatFailed(true))
    && (s.err == Some(ModelCall) <==> o.builds(i) && o.chat(i) == ChatFailed(false))
    && (failed <==> s.err.Some? && s.err.value.ToolFailure?)
    && (failed ==> s.err == Some(ToolFailure(o.tool(i, n - 1) == ToolFailed(true))))
  }

  lemma {:induction false} DispatchTells(o: Oracle, i: nat, calls: seq<string>, j: nat)
    requires j <= |calls|
    ensures var obs, err := Dispatched(o, i, calls, j), ToolError(o, i, calls, j);
      && |obs| <= |calls| - j
      && (forall k :: 0 <= k < |obs| ==> obs[k] == Observation(calls[j + k], o.tool(i, j + k).ToolOk?))
      && (forall k :: 0 <= k < |obs| - 1 ==> obs[k].ok)
      && (|obs| < |calls| - j ==> |obs| > 0 && !obs[|obs| - 1].ok)
      && err == if |obs| > 0 && !obs[|obs| - 1].ok
                then Some(ToolFailure(o.tool(i, j + |obs| - 1) == ToolFailed(true))) else None
    decreases |calls| - j
  {
    if j < |calls| && o.tool(i, j).ToolOk? {
      DispatchTells(o, i, calls, j + 1);
      var rest := Dispatched(o, i, calls, j + 1);
      assert Dispatched(o, i, calls, j) == [Observation(calls[j], true)] + rest;
    }
  }

  lemma CallsTold(o: Oracle, i: nat, calls: seq<string>)
    ensures var obs, err := Dispatched(o, i, calls, 0), ToolError(o, i, calls, 0); var n := |obs|;
      && ToolsTold(o, i, calls, obs)
      && err == if n > 0 && !obs[n - 1].ok then Some(ToolFailure(o.tool(i, n - 1) == ToolFailed(true))) else None
  {
    hide Dispatched, ToolError;
    DispatchTells(o, i, calls, 0);
  }

  lemma NoCallsTold(o: Oracle, i: nat)
    ensures ToolsTold(o, i, [], [])
  {
  }

  lemma StepTells(o: Oracle, i: nat)
    ensures Tells(o, i, StepAt(o, i))
  {
    hide ToolsTold, Dispatched, ToolError;
    NoCallsTold(o, i);
    if o.builds(i) && o.chat(i).ChatOk? && o.interpret(i).Some? && !o.interpret(i).value.conclude {
      CallsTold(o, i, o.interpret(i).value.toolCalls);
    }
  }

  // ---------- the run ----------

  predicate Done(s: Step) {
    s.decision.Some? && s.decision.value.conclude
  }

  // The tokens of the steps that got an answer.
  function TokenSum(steps: seq<Step>): int {
    if |steps| == 0 then 0
    else
      var s := steps[|steps| - 1];
      TokenSum(steps[..|steps| - 1]) + if s.response.Some? then s.response.value else 0
  }

  lemma {:induction false} TokensAreSum(steps: seq<Step>)
    ensures Tokens(steps) == TokenSum(steps)
  {
    if steps != [] { TokensAreSum(steps[..|steps| - 1]); }
  }

  predicate LimitReached(b: Budget, taken: nat, late: bool, tokens: int) {
    taken >= Limit(b) || late || 0 < b.maxTokens <= tokens
  }

  // At most the limit of steps, each as the oracle answered it; none but the
  // last fails or concludes, and before each the budget had something left; and
  // unless the last one fails or concludes, the budget is spent after it.
  lemma RunOnFields(o: Oracle, b: Budget)
    ensures var steps := History(o, b); var n := |steps|;
      && n <= (if b.maxSteps > 0 then b.maxSteps else 12)
      && (forall i :: 0 <= i < n ==> Tells(o, i, steps[i]))
      && (forall i :: 0 <= i < n - 1 ==> steps[i].err.None? && !Done(steps[i]))
      && (forall i :: 0 <= i < n ==> !o.lateAtTop(i) && (b.maxTokens > 0 ==> TokenSum(steps[..i]) < b.maxTokens))
      && ((n > 0 && (steps[n - 1].err.Some? || Done(steps[n - 1])))
          || LimitReached(b, n, o.lateAtTop(n), TokenSum(steps)))
  {
    hide StepAt, Steps, Tells, TokenSum, Tokens;
    RunBounded(o, b, 0);
    WhyItEnds(o, b, 0);
    var n := StepsFrom(o, b, 0);
    StepsAre(o, n);
    forall i | 0 <= i < n
      ensures Tells(o, i, Steps(o, n)[i])
      ensures !o.lateAtTop(i) && (b.maxTokens > 0 ==> TokenSum(Steps(o, n)[..i]) < b.maxTokens)
    {
      StepTells(o, i);
      TokensAreSum(Steps(o, i));
      assert !BudgetSpent(b, o.lateAtTop(i), i, Tokens(Steps(o, i)));
    }
    TokensAreSum(Steps(o, n));
    forall i | 0 <= i && i + 1 < n ensures Steps(o, n)[i].err.None? && !Done(Steps(o, n)[i]) {
      assert !Stops(StepAt(o, i));
    }
  }

  // How it ended: concluded with the last decision's text; out of budget where
  // the last step went on, or timed out with the budget spent by then; failed
  // with the last step's error otherwise.
  lemma EndingOnFields(o: Oracle, b: Budget)
    ensures var steps, e := History(o, b), EndingOf(o, b, History(o, b)); var n := |steps|;
      if n > 0 && steps[n - 1].err.None? && Done(steps[n - 1]) then
        e == Ending(Concluded, steps[n - 1].decision.value.finalText, None)
      else if n == 0 || steps[n - 1].err.None? then e == Ending(BudgetExhausted, "", Some(Exhausted))
      else
        var err := steps[n - 1].err.value;
        if (err == StepTimeout || err == ToolFailure(true))
           && LimitReached(b, n, o.lateAfter(n - 1), TokenSum(steps))
        then e == Ending(BudgetExhausted, "", Some(Exhausted))
        else e == Ending(Failed, "", Some(Unrecoverable(err)))
  {
    hide History, TokenSum, Tokens;
    TokensAreSum(History(o, b));
  }

  // ---------- telemetry ----------

  function Count(steps: seq<Step>, what: Step -> int): int {
    if |steps| == 0 then 0 else Count(steps[..|steps| - 1], what) + what(steps[|steps| - 1])
  }

  function FailuresIn(obs: seq<Observation>): int {
    if |obs| == 0 then 0 else FailuresIn(obs[..|obs| - 1]) + if obs[|obs| - 1].ok then 0 else 1
  }

  function ToolCallsIn(): Step -> int { (s: Step) => |s.observations| }
  function ToolErrorsIn(): Step -> int { (s: Step) => FailuresIn(s.observations) }
  function RequestsIn(): Step -> int { (s: Step) => if s.requested then 1 else 0 }
  function NoAnswerIn(): Step -> int { (s: Step) => if s.requested && s.response.None? then 1 else 0 }

  // Telemetry counts what the steps hold.
  lemma {:induction false} TelemetryOnFields(steps: seq<Step>, t: Option<Termination>)
    ensures var c := StatsOf(steps, t);
      && c.stepsTaken == |steps| && c.tokens == TokenSum(steps) && c.termination == t
      && c.toolCalls == Count(steps, ToolCallsIn()) && c.toolErrors == Count(steps, ToolErrorsIn())
      && c.modelCalls == Count(steps, RequestsIn()) && c.modelErrors == Count(steps, NoAnswerIn())
  {
    TokensAreSum(steps);
    if steps != [] {
      hide FailedTools;
      var init, last := steps[..|steps| - 1], steps[|steps| - 1];
      TelemetryOnFields(init, t);
      FailedConcat(ToolLog(init), last.observations);
      SameFailed(last.observations);
    } else {
      NothingYet();
    }
  }

  lemma {:induction false} SameFailed(obs: seq<Observation>)
    ensures FailedTools(obs) == FailuresIn(obs)
  {
    if obs != [] { SameFailed(obs[..|obs| - 1]); }
  }
}
