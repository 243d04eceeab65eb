/**
 The graph nodes as they run: one state object that every node updates in place, and the loop over the
 nodes. Each node is proved against its function in `AgentWorkflow`, and a handled message against
 `Run`, so what is proved of runs there holds here.
 */
module AgentNodes {
  import opened Wrappers
  import opened RagRewrite
  import opened AgentWorkflow

  class AgentRun {
    const cfg: Config
    const req: Request

    var steps: int
    var plan: Plan
    var toolResults: seq<Entry>
    var lastTool: Option<Observation>
    var known: Case
    var retrieval: Retrieval
    var final: bool

    /** The state as a value. */
    function View(): State
      reads this
    {
      State(steps, plan, toolResults, lastTool, known, retrieval, final)
    }

    constructor (cfg: Config, req: Request)
      ensures this.cfg == cfg && this.req == req && View() == Start(req)
    {
      this.cfg, this.req := cfg, req;
      steps, plan, toolResults, lastTool := 0, Plan(Respond, None, BLANK, false), [], None;
      known := Case(None, None, req.attachments, req.orderHint, req.sessionId, AI, None);
      retrieval := Retrieval(0, [], false, 0);
      final := false;
    }

    method Receive()
      modifies this`final
      ensures View() == ReceiveMessage(req, old(View()))
    {
      if !req.hasMessage && known.attachments == [] {
        final := true;
      }
    }

    method ApplyAction(a: Act)
      modifies this`plan
      ensures plan == Planned(req, known, a)
    {
      plan := plan.(action := a.action, tool := a.tool);
      plan := plan.(args := Stamp(req, known, a.args));
      if a.action == CallTool && a.tool == Some(SubmitReview) && !req.fromKafka {
        plan := plan.(action := Respond, tool := None, args := BLANK, needHuman := false);
        return;
      }
      plan := plan.(needHuman := a.needHuman || a.action == Transfer);
    }

    method Classify(turn: Turn)
      modifies this`plan
      ensures View() == ClassifyOrPlan(cfg, req, old(View()), turn)
    {
      if final {
        return;
      }
      if req.ticketId.Some? && toolResults == [] {
        ApplyAction(GET_TICKET);
        return;
      }
      if known.attachments != [] && toolResults == [] {
        ApplyAction(OrderLookupAct(turn.wording));
        return;
      }
      var answer := Understood(cfg, turn.llm);
      var raw := GuardClaim(View(), answer, false, turn.wording, NativeAct(req, answer));
      if IgnoredOrder(req, View(), raw) {
        raw := OrderLookupAct(turn.wording);
      }
      ApplyAction(raw);
    }

    method RunTool(answer: Answer)
      requires plan.tool.Some?
      modifies this`toolResults, this`steps, this`plan
      ensures View() == ToolCall(cfg, old(View()), answer)
    {
      var name, arguments := plan.tool.value, plan.args;
      if |toolResults| >= cfg.maxToolCalls || Attempts(toolResults, name, arguments) >= cfg.maxDuplicates {
        toolResults := toolResults + [Entry(name, arguments, false, Failed(GuardLimit))];
        steps := cfg.maxSteps;
        plan := plan.(action := Respond, needHuman := true);
        return;
      }
      toolResults := toolResults + [Entry(name, arguments, true, Registry(name, arguments, answer))];
      steps := steps + 1;
    }

    method RememberQueries(raws: seq<string>)
      modifies this`retrieval
      ensures retrieval == old(retrieval).(queries := AddQueries(cfg.py, old(retrieval.queries), raws))
    {
      var queries := retrieval.queries;
      for i := 0 to |raws|
        invariant retrieval == old(retrieval)
        invariant AddQueries(cfg.py, queries, raws[i..]) == AddQueries(cfg.py, old(retrieval.queries), raws)
      {
        assert raws[i..][1..] == raws[i + 1..];
        var query := Normalize(raws[i]);
        if query != "" && forall q <- queries :: cfg.py.fold(q) != cfg.py.fold(query) {
          queries := queries + [query];
        }
      }
      retrieval := retrieval.(queries := queries);
    }

    method ObserveCase(latest: Entry)
      modifies this`known
      ensures known == CaseAfter(old(known), latest)
    {
      if latest.tool == Handoff {
        known := known.(mode := if EntryOk(latest) then HUMAN else AI);
        known := known.(handoff := Some(EntryOk(latest)));
        return;
      }
      if !EntryOk(latest) {
        return;
      }
      var data := latest.answer.data;
      if latest.tool == GetTicket && data.Dict? {
        known := known.(ticket := Some(data));
        if data.ticket.orderId.Some? {
          known := known.(orderHint := data.ticket.orderId);
        }
        if known.attachments == [] {
          known := known.(attachments := data.ticket.evidence);
        }
      } else if latest.tool == SubmitReview && data.Dict? {
        known := known.(submitFailed := Some(data.submitFailed));
        known := known.(ticket := Some(data));
      }
    }

    method ObserveToolResult()
      requires toolResults != []
      modifies this`lastTool, this`retrieval, this`plan, this`known
      ensures View() == Observe(cfg.py, old(View()))
    {
      var latest := toolResults[|toolResults| - 1];
      lastTool := Some(Observed(latest));
      if latest.tool == Retrieve || latest.tool == RetrieveMulti {
        retrieval := retrieval.(attempts := retrieval.attempts + 1);
        RememberQueries(QueriesIn(latest));
      }
      if latest.tool == Handoff {
        plan := plan.(needHuman := true);
      }
      ObserveCase(latest);
    }

    method DecideGuarded(turn: Turn)
      modifies this`known, this`plan
      ensures View() == GuardedStep(cfg, req, old(View()), turn)
    {
      known := CaseForGuard(req, View());
      var action := GuardedAct(cfg, req, View(), turn.wording);
      if action.action == Respond {
        action := TerminalAct(cfg, req, View(), turn, action);
      }
      ApplyAction(action);
    }

    method CountEvaluation()
      requires toolResults != []
      modifies this`retrieval
      ensures retrieval == RetrievalAfterFollowUp(old(View()))
    {
      if Evaluates(View()) {
        if toolResults[|toolResults| - 1].tool == Retrieve {
          retrieval := retrieval.(rewritten := true);
        }
        retrieval := retrieval.(evaluations := retrieval.evaluations + 1);
      }
    }

    method DecideFollowUp(turn: Turn)
      requires toolResults != []
      modifies this`known, this`plan, this`retrieval
      ensures View() == FollowUpStep(cfg, req, old(View()), turn)
    {
      var followUp := FollowUp(cfg, View(), turn);
      CountEvaluation();
      if followUp.Some? {
        ApplyAction(followUp.value);
      } else {
        DecideGuarded(turn);
      }
    }

    method Decide(turn: Turn)
      requires toolResults != [] && lastTool.Some?
      modifies this`known, this`plan, this`retrieval
      ensures View() == DecideNext(cfg, req, old(View()), turn)
    {
      if steps >= cfg.maxSteps {
        plan := plan.(action := Respond);
        return;
      }
      if lastTool.value.kind.Some? {
        var failureAction := FailureAct(cfg, req, View(), turn.wording);
        if failureAction.Some? {
          if MarksSubmitFailed(cfg, View()) {
            known := known.(submitFailed := Some(true));
          }
          ApplyAction(failureAction.value);
          return;
        }
      }
      if EmptyOrderSearch(toolResults) || FailedOrderSearch(toolResults) {
        plan := plan.(action := Respond, needHuman := false);
        return;
      }
      DecideFollowUp(turn);
    }

    method TransferToHuman(turn: Turn)
      modifies this`toolResults, this`plan, this`known
      ensures View() == HumanHandoff(req, old(View()), turn)
    {
      var entry := Entry(Handoff, HandoffArgs(req, known, turn.wording), true, turn.answer);
      toolResults := toolResults + [entry];
      var confirmed := ConfirmedHandoff(entry);
      known := known.(mode := if confirmed then HUMAN else AI);
      plan := plan.(needHuman := true);
      known := known.(handoff := Some(confirmed));
      if confirmed && turn.answer.data.sessionId.Some? {
        known := known.(sessionId := turn.answer.data.sessionId);
      }
    }

    method SendFinalReply(user: Turn, assistant: Turn)
      modifies this`toolResults, this`known, this`final
      ensures View() == FinalReply(req, old(View()), user, assistant)
    {
      var trace := toolResults
        + [Entry(AppendMessage, Args(Free(user.wording), known.sessionId, known.orderHint, req.ticketId, None), true, user.answer)];
      if user.answer.Done? && user.answer.data.Dict? && known.sessionId.None? {
        known := known.(sessionId := user.answer.data.sessionId);
      }
      toolResults := trace
        + [Entry(AppendMessage, Args(Free(assistant.wording), known.sessionId, known.orderHint, req.ticketId, None), true,
                 assistant.answer)];
      final := true;
    }

    /** Call a tool, observe it and decide: one turn of the loop. */
    method OnePass(turn: Turn)
      requires Route(plan) == ToTool
      modifies this
      ensures View() == Pass(cfg, req, old(View()), turn)
    {
      RunTool(turn.answer);
      ObserveToolResult();
      Decide(turn);
    }

    method LoopStep(turns: nat -> Turn, k: nat, ghost end: State)
      requires Route(plan) == ToTool && LoopsTo(cfg, req, View(), turns, k, end)
      modifies this
      ensures LoopsTo(cfg, req, View(), turns, k + 1, end)
      ensures Route(plan) == ToTool ==> old(steps) < steps < cfg.maxSteps
      ensures old(steps) < steps || cfg.maxSteps <= steps
    {
      PassAdvances(cfg, req, View(), turns(k));
      assert Loop(cfg, req, View(), turns, k) == end;
      OnePass(turns(k));
    }

    method ToolLoop(turns: nat -> Turn, ghost end: State)
      requires LoopsTo(cfg, req, View(), turns, 1, end)
      modifies this
      ensures View() == end
    {
      var k := 1;
      while Route(plan) == ToTool
        invariant LoopsTo(cfg, req, View(), turns, k, end)
        decreases if steps < cfg.maxSteps then cfg.maxSteps - steps else 0, if Route(plan) == ToTool then 1 else 0
      {
        LoopStep(turns, k, end);
        k := k + 1;
      }
      LoopIsOver(cfg, req, View(), turns, k, end);
    }

    /** Handle one message from the first node to the last. */
    method Handle(turns: nat -> Turn, closing: Closing)
      requires View() == Start(req)
      modifies this
      ensures View() == Run(cfg, req, turns, closing)
    {
      Receive();
      Classify(turns(0));
      if RouteAfterPlan(View()) == ToTool {
        ToolLoop(turns, Loop(cfg, req, View(), turns, 1));
      }
      if RouteAfterPlan(View()) == ToHuman {
        TransferToHuman(closing.handoff);
      }
      SendFinalReply(closing.user, closing.assistant);
    }
  }
}
