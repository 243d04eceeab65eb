/**
 How runs with a ticket come out: the call after a submission whose result is unknown repeats it
 verbatim if any review follows at all, and a case with good evidence is approved in four calls.
 */
module AgentOutcomes {
  import opened Wrappers
  import opened RagRewrite
  import opened AgentWorkflow
  import opened AgentApproval

  // ---------- Submissions with an unknown result ----------

  /** A submission that timed out or found the service unavailable may or may not have been applied. */
  predicate Uncertain(e: Entry) {
    e.tool == SubmitReview && (e.answer == Failed(Timeout) || e.answer == Failed(ServiceUnavailable))
  }

  /** The same submission once more, under its request number. */
  predicate Repeats(cfg: Config, e: Entry, tool: Tool, args: Args) {
    tool == SubmitReview && args == e.args && cfg.fastRetry && args.request.Some?
  }

  ghost predicate NoReviewAfter(trace: seq<Entry>, i: nat) {
    forall j :: i < j < |trace| ==> trace[j].tool != SubmitReview
  }

  predicate RepeatedAt(cfg: Config, trace: seq<Entry>, i: nat)
    requires i + 1 < |trace|
  {
    Repeats(cfg, trace[i], trace[i + 1].tool, trace[i + 1].args)
  }

  /** What the trace says about uncertain submissions. */
  ghost predicate OnlyRepeated(cfg: Config, trace: seq<Entry>) {
    forall i: nat :: i + 1 < |trace| && Uncertain(trace[i]) ==> RepeatedAt(cfg, trace, i) || NoReviewAfter(trace, i)
  }

  /** What the next call may be. */
  ghost predicate CautiousPlan(cfg: Config, req: Request, s: State) {
    Route(s.plan) == ToTool ==>
      && s.plan.args == Stamp(req, s.case_, s.plan.args)
      && (s.case_.submitFailed == Some(true) ==> s.plan.tool == Some(GetTicket))
      && (s.trace != [] && Uncertain(s.trace[|s.trace| - 1]) ==>
            Repeats(cfg, s.trace[|s.trace| - 1], s.plan.tool.value, s.plan.args) || s.case_.submitFailed == Some(true))
      && (forall i: nat :: i + 1 < |s.trace| && Uncertain(s.trace[i]) && !RepeatedAt(cfg, s.trace, i)
            ==> s.case_.submitFailed == Some(true))
  }

  lemma TraceStaysCautious(cfg: Config, req: Request, s: State, e: Entry)
    requires Route(s.plan) == ToTool && OnlyRepeated(cfg, s.trace) && CautiousPlan(cfg, req, s)
    requires e.tool == s.plan.tool.value && e.args == s.plan.args
    ensures OnlyRepeated(cfg, s.trace + [e])
  {
    var t := s.trace + [e];
    forall i: nat | i + 1 < |t| && Uncertain(t[i])
      ensures RepeatedAt(cfg, t, i) || NoReviewAfter(t, i)
    {
      if i + 1 < |s.trace| {
        assert RepeatedAt(cfg, t, i) == RepeatedAt(cfg, s.trace, i);
      }
    }
  }

  /** The state seen by the decision after a cautious call that did not submit successfully. */
  ghost predicate AfterCautiousCall(cfg: Config, req: Request, s: State) {
    && s.trace != []
    && var e := s.trace[|s.trace| - 1];
       && s.last == Some(Observed(e)) && TicketTool(e.tool)
       && (s.case_.submitFailed == Some(true) ==> e.tool == GetTicket)
       && (!Succeeded(e) && s.steps < cfg.maxSteps ==> s.plan.args == e.args && e.args == Stamp(req, s.case_, e.args))
       && (forall i: nat :: i + 1 < |s.trace| && Uncertain(s.trace[i]) && !RepeatedAt(cfg, s.trace, i)
             ==> s.case_.submitFailed == Some(true))
  }

  lemma StampTwice(req: Request, c: Case, args: Args)
    ensures Stamp(req, c, Stamp(req, c, args)) == Stamp(req, c, args)
  {
  }

  /** The decision after a failed call. */
  lemma FailureIsCautious(cfg: Config, req: Request, s: State, turn: Turn)
    requires AfterCautiousCall(cfg, req, s) && s.steps < cfg.maxSteps
    requires s.last.value.kind.Some? && FailureAct(cfg, req, s, turn.wording).Some?
    ensures CautiousPlan(cfg, req, Apply(req, AfterFailureMark(cfg, s), FailureAct(cfg, req, s, turn.wording).value))
  {
    StampTwice(req, s.case_, FailureAct(cfg, req, s, turn.wording).value.args);
  }

  lemma NoSearchInTicketRuns(trace: seq<Entry>)
    requires forall e <- trace :: TicketTool(e.tool)
    ensures !EmptyOrderSearch(trace) && !FailedOrderSearch(trace)
  {
  }

  lemma GuardedIsCautious(cfg: Config, req: Request, s: State, turn: Turn)
    requires req.ticketId.Some? && AfterCautiousCall(cfg, req, s) && !Uncertain(s.trace[|s.trace| - 1])
    ensures CautiousPlan(cfg, req, GuardedStep(cfg, req, s, turn))
  {
    var t := s.(case_ := CaseForGuard(req, s));
    StampTwice(req, t.case_, TicketAct(cfg, req, t, turn.wording).args);
  }

  /** Another search or a transfer is cautious after a search. */
  lemma SearchIsCautious(cfg: Config, req: Request, s: State, a: Act)
    requires AfterCautiousCall(cfg, req, s) && s.trace[|s.trace| - 1].tool != GetTicket && !Uncertain(s.trace[|s.trace| - 1])
    ensures CautiousPlan(cfg, req, Apply(req, s, a))
  {
    StampTwice(req, s.case_, a.args);
  }

  lemma FollowUpIsCautious(cfg: Config, req: Request, s: State, turn: Turn)
    requires req.ticketId.Some? && AfterCautiousCall(cfg, req, s) && !Uncertain(s.trace[|s.trace| - 1])
    ensures CautiousPlan(cfg, req, FollowUpStep(cfg, req, s, turn))
  {
    var t := s.(retrieval := RetrievalAfterFollowUp(s));
    if FollowUp(cfg, s, turn).Some? {
      SearchIsCautious(cfg, req, t, FollowUp(cfg, s, turn).value);
    } else {
      GuardedIsCautious(cfg, req, t, turn);
    }
  }

  lemma DecideIsCautious(cfg: Config, req: Request, s: State, turn: Turn)
    requires req.ticketId.Some? && AfterCautiousCall(cfg, req, s) && forall e <- s.trace :: TicketTool(e.tool)
    ensures CautiousPlan(cfg, req, DecideNext(cfg, req, s, turn))
  {
    NoSearchInTicketRuns(s.trace);
    if s.steps < cfg.maxSteps {
      if s.last.value.kind.Some? && FailureAct(cfg, req, s, turn.wording).Some? {
        FailureIsCautious(cfg, req, s, turn);
      } else {
        FollowUpIsCautious(cfg, req, s, turn);
      }
    }
  }

  lemma CallIsCautious(cfg: Config, req: Request, s: State, e: Entry, t: State)
    requires Route(s.plan) == ToTool && OnlyRepeated(cfg, s.trace) && CautiousPlan(cfg, req, s)
    requires e.tool == s.plan.tool.value && e.args == s.plan.args && TicketTool(e.tool)
    requires !(e.tool == SubmitReview && Succeeded(e))
    requires t.trace == s.trace + [e] && t.last == Some(Observed(e)) && t.plan.args == e.args && t.case_ == CaseAfter(s.case_, e)
    ensures AfterCautiousCall(cfg, req, t)
  {
    forall i: nat | i + 1 < |t.trace| && Uncertain(t.trace[i]) && !RepeatedAt(cfg, t.trace, i)
      ensures t.case_.submitFailed == Some(true)
    {
      if i + 1 < |s.trace| {
        assert RepeatedAt(cfg, t.trace, i) == RepeatedAt(cfg, s.trace, i);
      }
    }
  }

  ghost predicate Cautious(cfg: Config, req: Request, s: State) {
    Sound(cfg, req, s) && OnlyRepeated(cfg, s.trace) && CautiousPlan(cfg, req, s)
  }

  lemma PassIsCautious(cfg: Config, req: Request, s: State, turn: Turn)
    requires req.ticketId.Some? && Route(s.plan) == ToTool && Cautious(cfg, req, s)
    ensures Cautious(cfg, req, Pass(cfg, req, s, turn))
  {
    var e := NewEntry(cfg, s, turn.answer);
    var t := Observe(cfg.py, ToolCall(cfg, s, turn.answer));
    ObservedCall(cfg, s, turn.answer);
    TraceStaysCautious(cfg, req, s, e);
    PassIsSafe(cfg, req, s, turn);
    DecideKeepsTrace(cfg, req, t, turn);
    if e.tool == SubmitReview && Succeeded(e) {
      assert e in t.trace;
    } else {
      CallIsCautious(cfg, req, s, e, t);
      CallObserved(cfg, req, s, turn.answer);
      DecideIsCautious(cfg, req, t, turn);
    }
  }

  lemma AdvanceIsCautious(cfg: Config, req: Request, s: State, turns: nat -> Turn, k: nat, end: State) returns (next: State)
    requires req.ticketId.Some? && Route(s.plan) == ToTool && Cautious(cfg, req, s) && LoopsTo(cfg, req, s, turns, k, end)
    ensures Cautious(cfg, req, next) && LoopsTo(cfg, req, next, turns, k + 1, end)
    ensures Remaining(cfg, next) <= Remaining(cfg, s)
    ensures Route(next.plan) == ToTool ==> Remaining(cfg, next) < Remaining(cfg, s)
  {
    PassIsCautious(cfg, req, s, turns(k));
    LoopGoesOn(cfg, req, s, turns, k, end);
    next := Pass(cfg, req, s, turns(k));
  }

  lemma {:induction false} LoopIsCautious(cfg: Config, req: Request, s: State, turns: nat -> Turn, k: nat, end: State)
    requires req.ticketId.Some? && Cautious(cfg, req, s) && LoopsTo(cfg, req, s, turns, k, end)
    ensures Cautious(cfg, req, end)
    decreases Remaining(cfg, s), if Route(s.plan) == ToTool then 1 else 0
  {
    if Route(s.plan) == ToTool {
      var next := AdvanceIsCautious(cfg, req, s, turns, k, end);
      LoopIsCautious(cfg, req, next, turns, k + 1, end);
    } else {
      LoopIsOver(cfg, req, s, turns, k, end);
    }
  }

  /** In a run with a ticket, if any review is submitted after one whose result is unknown, the very next
      call is that same submission again, with the same arguments and its request number. */
  lemma UncertainSubmissionIsOnlyRepeated(cfg: Config, req: Request, turns: nat -> Turn, i: nat, j: nat)
    requires req.ticketId.Some? && i < j < |LoopEnd(cfg, req, turns).trace|
    requires Uncertain(LoopEnd(cfg, req, turns).trace[i]) && LoopEnd(cfg, req, turns).trace[j].tool == SubmitReview
    ensures var t := LoopEnd(cfg, req, turns).trace;
            t[i + 1].tool == SubmitReview && t[i + 1].args == t[i].args && cfg.fastRetry && t[i].args.request.Some?
  {
    var s := Planning(cfg, req, turns(0));
    assert Cautious(cfg, req, s);
    if RouteAfterPlan(s) == ToTool {
      LoopIsCautious(cfg, req, s, turns, 1, LoopEnd(cfg, req, turns));
    }
    assert OnlyRepeated(cfg, LoopEnd(cfg, req, turns).trace);
  }

  // ---------- A good case ----------

  /** A pending ticket with everything a policy search needs, and images from the customer. */
  ghost predicate CompleteTicket(req: Request, d: Data) {
    && Pending(d) && d.ticket.merchant != "" && d.ticket.policyVersion != "" && d.ticket.appliedAt.At?
    && req.attachments != []
  }

  /** What the tools answer about a case that can be approved. */
  ghost predicate GoodTicket(cfg: Config, req: Request, d: Data) {
    CompleteTicket(req, d) && RiskFree(cfg, d.ticket, req.attachments)
  }

  ghost predicate GoodReview(cfg: Config, d: Data) {
    d.Dict? && d.review.success && d.review.damage && d.review.confidence >= cfg.minVisual
  }

  ghost predicate GoodKnowledge(cfg: Config, d: Data, t: Ticket) {
    d.Dict? && !d.knowledge.infrastructureFailure && HasTrustedPolicy(cfg, d.knowledge, t)
  }

  ghost predicate Roomy(cfg: Config) {
    cfg.maxSteps > 4 && cfg.maxToolCalls >= 4 && cfg.maxDuplicates >= 1
  }

  /** The request asks for what can be approved. */
  ghost predicate GoodRequest(req: Request) {
    req.ticketId.Some? && req.fromKafka && req.claimsDamage && !req.claimsFault && !req.emotionPriority
  }

  /** The evaluator finds the knowledge sufficient, or fails. */
  ghost predicate NoRewriteAsked(cfg: Config, turn: Turn) {
    forall q :: var d := Evaluate(cfg, turn, q); d.None? || SufficientEnough(cfg, d.value)
  }

  ghost predicate Calls(s: State, tool: Tool) {
    Route(s.plan) == ToTool && s.plan.tool == Some(tool)
  }

  lemma NotYet(trace: seq<Entry>, tool: Tool, args: Args)
    requires forall e <- trace :: e.tool != tool
    ensures Attempts(trace, tool, args) == 0
  {
    if trace != [] {
      NotYet(trace[..|trace| - 1], tool, args);
    }
  }

  /** One pass with a successful answer to a first call of its kind. */
  lemma FirstCall(cfg: Config, req: Request, s: State, turn: Turn)
    requires Roomy(cfg) && req.ticketId.Some? && Route(s.plan) == ToTool && |s.trace| < 4 && s.steps == |s.trace|
    requires forall e <- s.trace :: e.tool != s.plan.tool.value
    requires s.plan.args.ticket.Some? && turn.answer.Done? && s.plan.tool.value != RetrieveMulti && s.plan.tool.value != Handoff
    ensures var t := Observe(cfg.py, ToolCall(cfg, s, turn.answer));
            var e := Entry(s.plan.tool.value, s.plan.args, true, turn.answer);
            && t.trace == s.trace + [e] && t.steps == s.steps + 1 && t.last == Some(Observation(e.tool, true, None))
            && t.case_ == CaseAfter(s.case_, e) && t.retrieval == RetrievalAfter(cfg.py, s.retrieval, e) && t.final == s.final
            && t.plan == s.plan
  {
    NotYet(s.trace, s.plan.tool.value, s.plan.args);
  }

  lemma LatestOfLast(trace: seq<Entry>, e: Entry, tool: Tool)
    ensures Latest(trace + [e], tool) == if e.tool == tool && Succeeded(e) then Some(e.answer.data) else Latest(trace, tool)
    ensures HasResult(trace + [e], tool) <==> HasResult(trace, tool) || e.tool == tool
    ensures HasSuccess(trace + [e], tool) <==> HasSuccess(trace, tool) || (e.tool == tool && Succeeded(e))
  {
    assert (trace + [e])[..|trace|] == trace;
    assert e in trace + [e] && forall x <- trace :: x in trace + [e];
  }

  /** The state in which a quiet decision is taken. */
  function Guarding(req: Request, t: State): State
    requires t.trace != []
  {
    t.(retrieval := RetrievalAfterFollowUp(t), case_ := CaseForGuard(req, t))
  }

  /** After a success that asks for no follow-up, a tool chosen by the guard is the next call. */
  lemma QuietDecision(cfg: Config, req: Request, t: State, turn: Turn, a: Act)
    requires req.ticketId.Some? && t.steps < cfg.maxSteps && t.trace != [] && t.last.Some? && t.last.value.kind.None?
    requires (forall e <- t.trace :: TicketTool(e.tool)) && FollowUp(cfg, t, turn).None?
    requires TicketAct(cfg, req, Guarding(req, t), turn.wording) == a && a.action != Respond
    ensures DecideNext(cfg, req, t, turn) == Apply(req, Guarding(req, t), a)
  {
    NoSearchInTicketRuns(t.trace);
    var u := t.(retrieval := RetrievalAfterFollowUp(t));
    assert u.(case_ := CaseForGuard(req, u)) == Guarding(req, t);
  }

  /** First the ticket is fetched. */
  lemma TicketFirst(cfg: Config, req: Request, turn: Turn)
    requires GoodRequest(req) && req.attachments != []
    ensures var s := Planning(cfg, req, turn);
            Calls(s, GetTicket) && s.trace == [] && s.steps == 0 && !s.final && s.plan.args.ticket.Some?
            && s.case_.attachments == req.attachments && s.case_.submitFailed.None?
  {
  }

  /** What stays the same from call to call of a good case. */
  ghost predicate OnCourse(req: Request, s: State, tool: Tool) {
    && Calls(s, tool) && s.steps == |s.trace| && !s.final && s.plan.args.ticket.Some?
    && s.case_.attachments == req.attachments && s.case_.submitFailed.None?
  }

  /** The observed state after the next successful call. */
  ghost predicate Observing(req: Request, t: State) {
    && t.trace != [] && t.last == Some(Observation(t.trace[|t.trace| - 1].tool, true, None)) && t.steps == |t.trace|
    && !t.final && t.case_.attachments == req.attachments && t.case_.submitFailed.None?
  }

  lemma CourseObserved(cfg: Config, req: Request, s: State, turn: Turn)
    requires Roomy(cfg) && GoodRequest(req) && req.attachments != [] && |s.trace| < 4 && turn.answer.Done?
    requires s.plan.tool.Some? && OnCourse(req, s, s.plan.tool.value) && TicketTool(s.plan.tool.value)
    requires s.plan.tool.value != RetrieveMulti && s.plan.tool.value != SubmitReview
    requires forall e <- s.trace :: e.tool != s.plan.tool.value
    ensures var t := Observe(cfg.py, ToolCall(cfg, s, turn.answer));
            Observing(req, t) && t.trace == s.trace + [Entry(s.plan.tool.value, s.plan.args, true, turn.answer)]
  {
    FirstCall(cfg, req, s, turn);
  }

  /** The call planned by the guard keeps the case on course. */
  lemma PlannedOnCourse(req: Request, t: State, tool: Tool, body: Body)
    requires Observing(req, t) && GoodRequest(req)
    ensures var s := Apply(req, Guarding(req, t), Invoke(tool, body, false));
            && OnCourse(req, s, tool) && s.trace == t.trace && s.plan.args.body == body && !s.plan.needHuman
  {
  }

  // ---------- Second call ----------

  lemma ImagesChosen(cfg: Config, req: Request, t: State, e: Entry, turn: Turn)
    requires Observing(req, t) && GoodRequest(req) && Roomy(cfg) && t.trace == [e] && e.tool == GetTicket && Succeeded(e)
    requires CompleteTicket(req, e.answer.data)
    ensures DecideNext(cfg, req, t, turn)
            == Apply(req, Guarding(req, t), Invoke(ReviewImages, Images(req.attachments, turn.wording), false))
  {
    forall tool: Tool
      ensures Latest([e], tool) == (if tool == GetTicket then Some(e.answer.data) else None)
      ensures HasResult([e], tool) <==> tool == GetTicket
      ensures HasSuccess([e], tool) <==> tool == GetTicket
    {
      LatestOfLast([], e, tool);
    }
    QuietDecision(cfg, req, t, turn, Invoke(ReviewImages, Images(req.attachments, turn.wording), false));
  }

  lemma ImagesSecond(cfg: Config, req: Request, s: State, turn: Turn)
    requires Roomy(cfg) && GoodRequest(req) && OnCourse(req, s, GetTicket) && s.trace == []
    requires turn.answer.Done? && CompleteTicket(req, turn.answer.data)
    ensures var t := Pass(cfg, req, s, turn);
            OnCourse(req, t, ReviewImages) && t.trace == [Entry(GetTicket, s.plan.args, true, turn.answer)]
  {
    var t := Observe(cfg.py, ToolCall(cfg, s, turn.answer));
    CourseObserved(cfg, req, s, turn);
    ImagesChosen(cfg, req, t, t.trace[0], turn);
    PlannedOnCourse(req, t, ReviewImages, Images(req.attachments, turn.wording));
  }

  // ---------- Third call ----------

  lemma PolicyChosen(cfg: Config, req: Request, t: State, e: Entry, f: Entry, turn: Turn)
    requires Observing(req, t) && GoodRequest(req) && Roomy(cfg) && t.trace == [e, f]
    requires e.tool == GetTicket && Succeeded(e) && CompleteTicket(req, e.answer.data)
    requires f.tool == ReviewImages && Succeeded(f)
    ensures var k := e.answer.data.ticket;
            DecideNext(cfg, req, t, turn)
            == Apply(req, Guarding(req, t), Invoke(Retrieve, Search(turn.wording, k.merchant + k.policyVersion), false))
  {
    assert [e, f] == ([] + [e]) + [f];
    forall tool: Tool
      ensures tool != ReviewImages ==> Latest([e, f], tool) == (if tool == GetTicket then Some(e.answer.data) else None)
      ensures HasResult([e, f], tool) <==> tool == GetTicket || tool == ReviewImages
      ensures HasSuccess([e, f], tool) <==> tool == GetTicket || tool == ReviewImages
    {
      LatestOfLast([], e, tool);
      LatestOfLast([] + [e], f, tool);
    }
    var k := e.answer.data.ticket;
    QuietDecision(cfg, req, t, turn, Invoke(Retrieve, Search(turn.wording, k.merchant + k.policyVersion), false));
  }

  lemma SearchThird(cfg: Config, req: Request, s: State, e: Entry, turn: Turn)
    requires Roomy(cfg) && GoodRequest(req) && OnCourse(req, s, ReviewImages) && s.trace == [e]
    requires e.tool == GetTicket && Succeeded(e) && CompleteTicket(req, e.answer.data)
    requires turn.answer.Done?
    ensures var t := Pass(cfg, req, s, turn);
            OnCourse(req, t, Retrieve) && t.trace == [e, Entry(ReviewImages, s.plan.args, true, turn.answer)]
  {
    var t := Observe(cfg.py, ToolCall(cfg, s, turn.answer));
    CourseObserved(cfg, req, s, turn);
    var k := e.answer.data.ticket;
    PolicyChosen(cfg, req, t, e, t.trace[1], turn);
    PlannedOnCourse(req, t, Retrieve, Search(turn.wording, k.merchant + k.policyVersion));
  }

  // ---------- Fourth call ----------

  /** The three results so far. */
  ghost predicate GoodTrace(cfg: Config, req: Request, trace: seq<Entry>) {
    && |trace| == 3 && trace[0].tool == GetTicket && trace[1].tool == ReviewImages && trace[2].tool == Retrieve
    && Succeeded(trace[0]) && Succeeded(trace[1]) && Succeeded(trace[2])
    && GoodTicket(cfg, req, trace[0].answer.data) && GoodReview(cfg, trace[1].answer.data)
    && GoodKnowledge(cfg, trace[2].answer.data, trace[0].answer.data.ticket)
  }

  lemma ThreeResults(a: Entry, b: Entry, c: Entry, tool: Tool)
    requires a.tool == GetTicket && b.tool == ReviewImages && c.tool == Retrieve && Succeeded(a) && Succeeded(b) && Succeeded(c)
    ensures Latest([a, b, c], GetTicket) == Some(a.answer.data) && Latest([a, b, c], ReviewImages) == Some(b.answer.data)
    ensures HasSuccess([a, b, c], tool) <==> tool == GetTicket || tool == ReviewImages || tool == Retrieve
    ensures HasResult([a, b, c], tool) <==> tool == GetTicket || tool == ReviewImages || tool == Retrieve
  {
    assert [a, b, c] == (([] + [a]) + [b]) + [c];
    forall x: Tool
      ensures Latest([a, b, c], x) == (if x == Retrieve then Some(c.answer.data) else Latest([] + [a] + [b], x))
      ensures Latest([] + [a] + [b], x) == (if x == ReviewImages then Some(b.answer.data) else Latest([] + [a], x))
      ensures Latest([] + [a], x) == (if x == GetTicket then Some(a.answer.data) else None)
    {
      LatestOfLast([] + [a] + [b], c, x);
      LatestOfLast([] + [a], b, x);
      LatestOfLast([], a, x);
    }
    LatestOfLast([] + [a] + [b], c, tool);
    LatestOfLast([] + [a], b, tool);
    LatestOfLast([], a, tool);
  }

  /** The customer's own attachments are never replaced. */
  lemma {:induction false} AttachmentsKept(req: Request, trace: seq<Entry>)
    requires req.attachments != []
    ensures AttachmentsAfter(req, trace) == req.attachments
  {
    if trace != [] {
      AttachmentsKept(req, trace[..|trace| - 1]);
    }
  }

  lemma GoodTraceGivesGrounds(cfg: Config, req: Request, trace: seq<Entry>)
    requires GoodRequest(req) && GoodTrace(cfg, req, trace)
    ensures AttachmentsAfter(req, trace) == req.attachments && Grounds(cfg, req, trace)
  {
    var a, b, c := trace[0], trace[1], trace[2];
    assert trace == [a, b, c];
    ThreeResults(a, b, c, Retrieve);
    AttachmentsKept(req, trace);
    assert c in trace && IsKnowledge(c);
  }

  /** The approving verdict. */
  function Approval(wording: string): Body {
    Verdict(APPROVE, false, false, wording)
  }

  lemma ApprovalAct(cfg: Config, req: Request, g: State, wording: string)
    requires GoodRequest(req) && GoodTrace(cfg, req, g.trace) && g.case_.attachments == req.attachments && g.case_.submitFailed.None?
    ensures TicketAct(cfg, req, g, wording) == Invoke(SubmitReview, Approval(wording), false)
  {
    var a, b, c := g.trace[0], g.trace[1], g.trace[2];
    assert g.trace == [a, b, c];
    forall tool: Tool
      ensures HasSuccess(g.trace, tool) <==> tool == GetTicket || tool == ReviewImages || tool == Retrieve
      ensures HasResult(g.trace, tool) <==> tool == GetTicket || tool == ReviewImages || tool == Retrieve
    {
      ThreeResults(a, b, c, tool);
    }
    ThreeResults(a, b, c, Retrieve);
    GoodTraceGivesGrounds(cfg, req, g.trace);
    ApprovedExactlyOnGrounds(cfg, req, g);
    BestKnowledgeHidesNothing(cfg, a.answer.data.ticket, g.trace);
  }

  lemma ApprovalChosen(cfg: Config, req: Request, t: State, turn: Turn)
    requires Observing(req, t) && GoodRequest(req) && Roomy(cfg) && GoodTrace(cfg, req, t.trace) && NoRewriteAsked(cfg, turn)
    ensures DecideNext(cfg, req, t, turn) == Apply(req, Guarding(req, t), Invoke(SubmitReview, Approval(turn.wording), false))
  {
    ApprovalAct(cfg, req, Guarding(req, t), turn.wording);
    assert t.trace == [t.trace[0], t.trace[1], t.trace[2]];
    assert FollowUp(cfg, t, turn).None?;
    QuietDecision(cfg, req, t, turn, Invoke(SubmitReview, Approval(turn.wording), false));
  }

  lemma ApprovalFourth(cfg: Config, req: Request, s: State, turn: Turn)
    requires Roomy(cfg) && GoodRequest(req) && OnCourse(req, s, Retrieve) && |s.trace| == 2
    requires turn.answer.Done? && GoodTrace(cfg, req, s.trace + [Entry(Retrieve, s.plan.args, true, turn.answer)])
    requires NoRewriteAsked(cfg, turn)
    ensures var t := Pass(cfg, req, s, turn);
            && OnCourse(req, t, SubmitReview) && t.trace == s.trace + [Entry(Retrieve, s.plan.args, true, turn.answer)]
            && t.plan.args.body == Approval(turn.wording) && !t.plan.needHuman
  {
    var trace := s.trace + [Entry(Retrieve, s.plan.args, true, turn.answer)];
    assert trace[0] == s.trace[0] && trace[1] == s.trace[1];
    CourseObserved(cfg, req, s, turn);
    var t := Observe(cfg.py, ToolCall(cfg, s, turn.answer));
    ApprovalChosen(cfg, req, t, turn);
    PlannedOnCourse(req, t, SubmitReview, Approval(turn.wording));
  }

  // ---------- The end ----------

  /** A confirmed approval leaves nothing to do. */
  lemma NothingLeft(cfg: Config, req: Request, g: State, e: Entry, wording: string)
    requires GoodRequest(req) && HasSuccess(g.trace, GetTicket) && g.trace != [] && g.trace[|g.trace| - 1] == e
    requires e.tool == SubmitReview && Succeeded(e) && e.args.body.Verdict? && e.args.body == Approval(e.args.body.grounds)
    requires g.case_.submitFailed == Some(false) && !g.plan.needHuman
    ensures TicketAct(cfg, req, g, wording) == Answering(false)
  {
    assert e in g.trace;
    assert LatestArgs(g.trace, SubmitReview) == Some(e.args);
  }

  lemma QuietEnd(cfg: Config, req: Request, t: State, turn: Turn)
    requires req.ticketId.Some? && t.steps < cfg.maxSteps && t.trace != [] && t.last.Some? && t.last.value.kind.None?
    requires (forall e <- t.trace :: TicketTool(e.tool)) && FollowUp(cfg, t, turn).None?
    requires TicketAct(cfg, req, Guarding(req, t), turn.wording) == Answering(false)
    ensures var s := DecideNext(cfg, req, t, turn);
            && s.trace == t.trace && s.final == t.final
            && Route(s.plan) == if Understood(cfg, turn.llm).Unavailable? then ToHuman else ToReply
  {
    NoSearchInTicketRuns(t.trace);
    var u := t.(retrieval := RetrievalAfterFollowUp(t));
    assert u.(case_ := CaseForGuard(req, u)) == Guarding(req, t);
  }

  lemma SubmissionObserved(cfg: Config, req: Request, s: State, turn: Turn)
    requires Roomy(cfg) && GoodRequest(req) && OnCourse(req, s, SubmitReview) && |s.trace| == 3
    requires (forall e <- s.trace :: e.tool != SubmitReview) && !s.plan.needHuman
    requires turn.answer.Done? && turn.answer.data.Dict? && !turn.answer.data.submitFailed
    ensures var t := Observe(cfg.py, ToolCall(cfg, s, turn.answer));
            && t.trace == s.trace + [Entry(SubmitReview, s.plan.args, true, turn.answer)] && t.steps == 4
            && t.last == Some(Observation(SubmitReview, true, None)) && t.case_.submitFailed == Some(false)
            && !t.plan.needHuman && t.final == s.final
  {
    FirstCall(cfg, req, s, turn);
  }

  lemma EndDecided(cfg: Config, req: Request, front: seq<Entry>, e: Entry, t: State, turn: Turn)
    requires Roomy(cfg) && GoodRequest(req) && GoodTrace(cfg, req, front) && t.trace == front + [e] && t.steps == 4
    requires e.tool == SubmitReview && Succeeded(e) && e.args.body.Verdict? && e.args.body == Approval(e.args.body.grounds)
    requires t.last == Some(Observation(SubmitReview, true, None)) && t.case_.submitFailed == Some(false) && !t.plan.needHuman
    ensures var s := DecideNext(cfg, req, t, turn);
            && s.trace == t.trace && s.final == t.final
            && Route(s.plan) == if Understood(cfg, turn.llm).Unavailable? then ToHuman else ToReply
  {
    assert front == [front[0], front[1], front[2]];
    assert front[0] in t.trace;
    NothingLeft(cfg, req, Guarding(req, t), e, turn.wording);
    assert FollowUp(cfg, t, turn).None?;
    QuietEnd(cfg, req, t, turn);
  }

  lemma ThenDone(cfg: Config, req: Request, s: State, turn: Turn)
    requires Roomy(cfg) && GoodRequest(req) && OnCourse(req, s, SubmitReview) && GoodTrace(cfg, req, s.trace)
    requires s.plan.args.body.Verdict? && s.plan.args.body == Approval(s.plan.args.body.grounds) && !s.plan.needHuman
    requires turn.answer.Done? && turn.answer.data.Dict? && !turn.answer.data.submitFailed
    ensures var t := Pass(cfg, req, s, turn);
            && t.trace == s.trace + [Entry(SubmitReview, s.plan.args, true, turn.answer)] && !t.final
            && Route(t.plan) == if Understood(cfg, turn.llm).Unavailable? then ToHuman else ToReply
  {
    assert s.trace == [s.trace[0], s.trace[1], s.trace[2]];
    SubmissionObserved(cfg, req, s, turn);
    EndDecided(cfg, req, s.trace, Entry(SubmitReview, s.plan.args, true, turn.answer),
               Observe(cfg.py, ToolCall(cfg, s, turn.answer)), turn);
  }

  // ---------- The whole run ----------

  /** `t` is the state after pass `k` from `s`. */
  ghost predicate Follows(cfg: Config, req: Request, turns: nat -> Turn, k: nat, s: State, t: State) {
    Route(s.plan) == ToTool && t == Pass(cfg, req, s, turns(k))
  }

  lemma FourPasses(cfg: Config, req: Request, turns: nat -> Turn, s1: State, s2: State, s3: State, s4: State)
    requires RouteAfterPlan(Planning(cfg, req, turns(0))) == ToTool && Route(s4.plan) != ToTool
    requires Follows(cfg, req, turns, 1, Planning(cfg, req, turns(0)), s1) && Follows(cfg, req, turns, 2, s1, s2)
    requires Follows(cfg, req, turns, 3, s2, s3) && Follows(cfg, req, turns, 4, s3, s4)
    ensures LoopEnd(cfg, req, turns) == s4
  {
    LoopStep(cfg, req, Planning(cfg, req, turns(0)), turns, 1);
    LoopStep(cfg, req, s1, turns, 2);
    LoopStep(cfg, req, s2, turns, 3);
    LoopStep(cfg, req, s3, turns, 4);
  }

  /** What the tools answer in a good case. */
  ghost predicate GoodAnswers(cfg: Config, req: Request, turns: nat -> Turn) {
    && turns(1).answer.Done? && GoodTicket(cfg, req, turns(1).answer.data)
    && turns(2).answer.Done? && GoodReview(cfg, turns(2).answer.data)
    && turns(3).answer.Done? && GoodKnowledge(cfg, turns(3).answer.data, turns(1).answer.data.ticket)
    && NoRewriteAsked(cfg, turns(3))
    && turns(4).answer.Done? && turns(4).answer.data.Dict? && !turns(4).answer.data.submitFailed
  }

  lemma ThreeCalls(cfg: Config, req: Request, turns: nat -> Turn) returns (s1: State, s2: State, s3: State)
    requires Roomy(cfg) && GoodRequest(req) && GoodAnswers(cfg, req, turns)
    ensures RouteAfterPlan(Planning(cfg, req, turns(0))) == ToTool
    ensures Follows(cfg, req, turns, 1, Planning(cfg, req, turns(0)), s1) && Follows(cfg, req, turns, 2, s1, s2)
    ensures Follows(cfg, req, turns, 3, s2, s3)
    ensures OnCourse(req, s3, SubmitReview) && GoodTrace(cfg, req, s3.trace)
    ensures s3.plan.args.body == Approval(turns(3).wording) && !s3.plan.needHuman
  {
    var s0 := Planning(cfg, req, turns(0));
    TicketFirst(cfg, req, turns(0));
    s1 := Pass(cfg, req, s0, turns(1));
    ImagesSecond(cfg, req, s0, turns(1));
    s2 := Pass(cfg, req, s1, turns(2));
    SearchThird(cfg, req, s1, s1.trace[0], turns(2));
    s3 := Pass(cfg, req, s2, turns(3));
    ApprovalFourth(cfg, req, s2, turns(3));
  }

  /** A request from the review queue for visible damage, whose ticket is pending and complete, whose
      images show the damage with enough confidence and for which a trusted policy is found, is approved
      in exactly four calls: ticket, images, policy, approval. It ends with a reply, or with a transfer if
      the model could not word one. */
  lemma GoodCaseIsApproved(cfg: Config, req: Request, turns: nat -> Turn)
    requires Roomy(cfg) && GoodRequest(req) && GoodAnswers(cfg, req, turns)
    ensures var s := LoopEnd(cfg, req, turns);
            && |s.trace| == 4 && s.trace[0].tool == GetTicket && s.trace[1].tool == ReviewImages
            && s.trace[2].tool == Retrieve && s.trace[3].tool == SubmitReview && Approves(s.trace[3].args)
            && RouteAfterPlan(s) == if Understood(cfg, turns(4).llm).Unavailable? then ToHuman else ToReply
  {
    var s1, s2, s3 := ThreeCalls(cfg, req, turns);
    ThenDone(cfg, req, s3, turns(4));
    FourPasses(cfg, req, turns, s1, s2, s3, Pass(cfg, req, s3, turns(4)));
  }
}
