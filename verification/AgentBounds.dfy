/**
 Every run of the agent graph ends, within the limits on steps, tool calls and repeated calls, and its
 session is handed to a person exactly when a transfer was confirmed.
 */
module AgentBounds {
  import opened Wrappers
  import opened RagRewrite
  import opened AgentWorkflow

  function Max(a: int, b: int): int {
    if a < b then b else a
  }

  /** Calls that reached a tool. */
  function Executions(trace: seq<Entry>): nat {
    if trace == [] then 0
    else Executions(trace[..|trace| - 1]) + if trace[|trace| - 1].executed then 1 else 0
  }

  /** Calls of this tool with these arguments that reached it. */
  function ExecutionsOf(trace: seq<Entry>, tool: Tool, args: Args): nat {
    if trace == [] then 0
    else
      var e := trace[|trace| - 1];
      ExecutionsOf(trace[..|trace| - 1], tool, args) + if e.executed && e.tool == tool && e.args == args then 1 else 0
  }

  /** Passes of the tool loop from a state on. */
  function Passes(cfg: Config, req: Request, s: State, turns: nat -> Turn, k: nat): nat
    decreases Remaining(cfg, s), if Route(s.plan) == ToTool then 1 else 0
  {
    if Route(s.plan) != ToTool then 0
    else
      PassAdvances(cfg, req, s, turns(k));
      1 + Passes(cfg, req, Pass(cfg, req, s, turns(k)), turns, k + 1)
  }

  /** A pass adds one element to the trace and never removes one. */
  lemma PassTrace(cfg: Config, req: Request, s: State, turn: Turn)
    requires s.plan.tool.Some?
    ensures Pass(cfg, req, s, turn).trace == s.trace + [NewEntry(cfg, s, turn.answer)]
    ensures Pass(cfg, req, s, turn).steps == if LimitReached(cfg, s) then cfg.maxSteps else s.steps + 1
    ensures Pass(cfg, req, s, turn).final == s.final
  {
  }

  lemma {:induction false} LoopLength(cfg: Config, req: Request, s: State, turns: nat -> Turn, k: nat)
    ensures |Loop(cfg, req, s, turns, k).trace| == |s.trace| + Passes(cfg, req, s, turns, k)
    decreases Remaining(cfg, s), if Route(s.plan) == ToTool then 1 else 0
  {
    if Route(s.plan) == ToTool {
      PassTrace(cfg, req, s, turns(k));
      PassAdvances(cfg, req, s, turns(k));
      LoopLength(cfg, req, Pass(cfg, req, s, turns(k)), turns, k + 1);
    }
  }

  // ---------- Limits ----------

  /** Every element was added within the limits that held then. */
  ghost predicate WithinLimits(cfg: Config, trace: seq<Entry>) {
    && Executions(trace) <= Max(0, cfg.maxToolCalls)
    && Executions(trace) <= |trace|
    && (forall tool, args :: ExecutionsOf(trace, tool, args) <= Max(0, cfg.maxDuplicates))
    && (forall tool, args :: ExecutionsOf(trace, tool, args) <= Attempts(trace, tool, args))
  }

  lemma NewEntryWithinLimits(cfg: Config, s: State, answer: Answer)
    requires s.plan.tool.Some? && WithinLimits(cfg, s.trace)
    ensures WithinLimits(cfg, s.trace + [NewEntry(cfg, s, answer)])
  {
    var e := NewEntry(cfg, s, answer);
    var t := s.trace + [e];
    assert t[..|t| - 1] == s.trace;
    forall tool, args
      ensures ExecutionsOf(t, tool, args) <= Max(0, cfg.maxDuplicates) && ExecutionsOf(t, tool, args) <= Attempts(t, tool, args)
    {
      assert ExecutionsOf(s.trace, tool, args) <= Attempts(s.trace, tool, args);
    }
  }

  ghost predicate Bounded(cfg: Config, s: State) {
    && WithinLimits(cfg, s.trace)
    && (Route(s.plan) == ToTool ==> s.steps == |s.trace| && (s.steps == 0 || s.steps < cfg.maxSteps))
    && |s.trace| <= Max(1, cfg.maxSteps)
  }

  lemma StepBounded(cfg: Config, s: State, answer: Answer, next: State)
    requires Route(s.plan) == ToTool && Bounded(cfg, s)
    requires next.trace == s.trace + [NewEntry(cfg, s, answer)]
    requires next.steps == if LimitReached(cfg, s) then cfg.maxSteps else s.steps + 1
    requires Route(next.plan) == ToTool ==> next.steps < cfg.maxSteps
    ensures Bounded(cfg, next)
  {
    NewEntryWithinLimits(cfg, s, answer);
  }

  lemma PassBounded(cfg: Config, req: Request, s: State, turn: Turn)
    requires Route(s.plan) == ToTool && Bounded(cfg, s)
    ensures Bounded(cfg, Pass(cfg, req, s, turn))
  {
    PassTrace(cfg, req, s, turn);
    PassAdvances(cfg, req, s, turn);
    StepBounded(cfg, s, turn.answer, Pass(cfg, req, s, turn));
  }

  lemma {:induction false} LoopBounded(cfg: Config, req: Request, s: State, turns: nat -> Turn, k: nat)
    requires Bounded(cfg, s)
    ensures Bounded(cfg, Loop(cfg, req, s, turns, k))
    decreases Remaining(cfg, s), if Route(s.plan) == ToTool then 1 else 0
  {
    if Route(s.plan) == ToTool {
      PassBounded(cfg, req, s, turns(k));
      PassAdvances(cfg, req, s, turns(k));
      LoopBounded(cfg, req, Pass(cfg, req, s, turns(k)), turns, k + 1);
    }
  }

  lemma PlanningLeavesTraceEmpty(cfg: Config, req: Request, turn: Turn)
    ensures Planning(cfg, req, turn).trace == [] && Planning(cfg, req, turn).steps == 0
  {
  }

  /** Whatever the model, the tools and the evaluator answer, the loop takes at most max(1, max_steps)
      passes, executes at most max_tool_calls calls, and executes no call with the same arguments more
      often than allowed. */
  lemma RunIsBounded(cfg: Config, req: Request, turns: nat -> Turn, tool: Tool, args: Args)
    ensures var s := Planning(cfg, req, turns(0));
            RouteAfterPlan(s) == ToTool ==> Passes(cfg, req, s, turns, 1) <= Max(1, cfg.maxSteps)
    ensures var t := LoopEnd(cfg, req, turns).trace;
            && |t| <= Max(1, cfg.maxSteps)
            && Executions(t) <= Max(0, cfg.maxToolCalls)
            && ExecutionsOf(t, tool, args) <= Max(0, cfg.maxDuplicates)
  {
    var s := Planning(cfg, req, turns(0));
    PlanningLeavesTraceEmpty(cfg, req, turns(0));
    if RouteAfterPlan(s) == ToTool {
      LoopBounded(cfg, req, s, turns, 1);
      LoopLength(cfg, req, s, turns, 1);
    }
  }

  // ---------- Who has the session ----------

  /** Inside the loop nobody has been asked to take over yet. */
  ghost predicate NotHandedOver(s: State) {
    && (forall e <- s.trace :: e.tool != Handoff)
    && s.plan.tool != Some(Handoff)
    && s.case_.mode == AI && s.case_.handoff == None
  }

  lemma FailureActAvoidsTransfer(cfg: Config, req: Request, s: State, wording: string)
    requires s.last.Some? && s.last.value.kind.Some? && s.last.value.tool != Handoff
    ensures FailureAct(cfg, req, s, wording).Some? ==> FailureAct(cfg, req, s, wording).value.tool != Some(Handoff)
  {
  }

  lemma GuardedStepAvoidsTransfer(cfg: Config, req: Request, s: State, turn: Turn)
    requires NotHandedOver(s)
    ensures NotHandedOver(GuardedStep(cfg, req, s, turn))
  {
    var t := s.(case_ := CaseForGuard(req, s));
    assert TicketAct(cfg, req, t, turn.wording).tool != Some(Handoff);
    assert ConsultationAct(req, t, turn.wording).tool != Some(Handoff);
  }

  lemma FollowUpStepAvoidsTransfer(cfg: Config, req: Request, s: State, turn: Turn)
    requires s.trace != [] && NotHandedOver(s)
    ensures NotHandedOver(FollowUpStep(cfg, req, s, turn))
  {
    var t := s.(retrieval := RetrievalAfterFollowUp(s));
    if FollowUp(cfg, s, turn).None? {
      GuardedStepAvoidsTransfer(cfg, req, t, turn);
    }
  }

  /** Deciding never chooses the transfer as a tool unless the last call was one. */
  lemma DecideKeepsTransferOut(cfg: Config, req: Request, s: State, turn: Turn)
    requires s.trace != [] && s.last.Some? && s.last.value.tool != Handoff && NotHandedOver(s)
    ensures NotHandedOver(DecideNext(cfg, req, s, turn))
  {
    FollowUpStepAvoidsTransfer(cfg, req, s, turn);
    if s.last.value.kind.Some? {
      FailureActAvoidsTransfer(cfg, req, s, turn.wording);
    }
  }

  lemma ObserveKeepsMode(py: Python, s: State)
    requires s.trace != [] && NotHandedOver(s)
    ensures NotHandedOver(Observe(py, s)) && Observe(py, s).last.value.tool != Handoff
  {
  }

  lemma PassKeepsTransferOut(cfg: Config, req: Request, s: State, turn: Turn)
    requires Route(s.plan) == ToTool && NotHandedOver(s)
    ensures NotHandedOver(Pass(cfg, req, s, turn))
  {
    var t := ToolCall(cfg, s, turn.answer);
    assert NotHandedOver(t) by {
      assert t.trace == s.trace + [NewEntry(cfg, s, turn.answer)];
    }
    ObserveKeepsMode(cfg.py, t);
    DecideKeepsTransferOut(cfg, req, Observe(cfg.py, t), turn);
  }

  lemma {:induction false} LoopKeepsTransferOut(cfg: Config, req: Request, s: State, turns: nat -> Turn, k: nat)
    requires NotHandedOver(s)
    ensures NotHandedOver(Loop(cfg, req, s, turns, k))
    decreases Remaining(cfg, s), if Route(s.plan) == ToTool then 1 else 0
  {
    if Route(s.plan) == ToTool {
      PassKeepsTransferOut(cfg, req, s, turns(k));
      PassAdvances(cfg, req, s, turns(k));
      LoopKeepsTransferOut(cfg, req, Pass(cfg, req, s, turns(k)), turns, k + 1);
    }
  }

  lemma PlanningKeepsTransferOut(cfg: Config, req: Request, turn: Turn)
    ensures NotHandedOver(Planning(cfg, req, turn))
  {
  }

  lemma EndingMode(req: Request, s: State, closing: Closing)
    requires NotHandedOver(s)
    ensures var t := Ending(req, s, closing);
            && (t.case_.mode == HUMAN <==> HasConfirmedHandoff(t.trace))
            && (t.case_.mode == HUMAN <==> t.case_.handoff == Some(true))
            && (RouteAfterPlan(s) != ToHuman ==> t.case_.mode == AI)
  {
    var t := Ending(req, s, closing);
    if RouteAfterPlan(s) == ToHuman {
      var e := HumanHandoff(req, s, closing.handoff).trace[|s.trace|];
      assert t.trace[|s.trace|] == e;
      assert ConfirmedHandoff(e) <==> HasConfirmedHandoff(t.trace);
    }
  }

  /** The run ends in human mode exactly when a transfer to a waiting or processing human session was
      confirmed, and only if the loop was left towards the transfer. */
  lemma HumanExactlyWhenConfirmed(cfg: Config, req: Request, turns: nat -> Turn, closing: Closing)
    ensures var t := Run(cfg, req, turns, closing);
            && (t.case_.mode == HUMAN <==> HasConfirmedHandoff(t.trace))
            && (t.case_.mode == HUMAN <==> t.case_.handoff == Some(true))
            && (RouteAfterPlan(LoopEnd(cfg, req, turns)) != ToHuman ==> t.case_.mode == AI)
  {
    var s := Planning(cfg, req, turns(0));
    PlanningKeepsTransferOut(cfg, req, turns(0));
    if RouteAfterPlan(s) == ToTool {
      LoopKeepsTransferOut(cfg, req, s, turns, 1);
    }
    EndingMode(req, LoopEnd(cfg, req, turns), closing);
  }
}
