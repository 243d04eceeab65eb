/**
 What the agent graph may submit. In every run that carries a ticket, an approval is submitted only on
 evidence that is in the trace before it, and a review is submitted successfully at most once and ends
 the tool loop.
 */
module AgentApproval {
  import opened Wrappers
  import opened RagRewrite
  import opened AgentWorkflow

  /** The attachments known after these tool results: the customer's own, or else the ticket's. */
  function AttachmentsAfter(req: Request, trace: seq<Entry>): seq<string> {
    if trace == [] then req.attachments
    else
      var known := AttachmentsAfter(req, trace[..|trace| - 1]);
      var e := trace[|trace| - 1];
      if known == [] && e.tool == GetTicket && Succeeded(e) && e.answer.data.Dict? then e.answer.data.ticket.evidence else known
  }

  predicate Approves(args: Args) {
    args.body.Verdict? && args.body.verdict == APPROVE
  }

  ghost predicate TrustedPolicyFound(cfg: Config, trace: seq<Entry>, t: Ticket) {
    exists e <- trace :: IsKnowledge(e) && HasTrustedPolicy(cfg, e.answer.data.knowledge, t)
  }

  /** What an approval rests on, read off the tool results before it. */
  ghost predicate Grounds(cfg: Config, req: Request, before: seq<Entry>) {
    var ticket := Latest(before, GetTicket);
    var images := Latest(before, ReviewImages);
    && ticket.Some? && Pending(ticket.value)
    && AttachmentsAfter(req, before) != []
    && images.Some? && images.value.Dict?
    && images.value.review.success && images.value.review.damage && images.value.review.confidence >= cfg.minVisual
    && req.claimsDamage && !req.claimsFault && !req.emotionPriority
    && RiskFree(cfg, ticket.value.ticket, AttachmentsAfter(req, before))
    && TrustedPolicyFound(cfg, before, ticket.value.ticket)
  }

  // ---------- The decision is exact ----------

  /** The result chosen for the decision is a trusted one whenever any search returned a trusted one. */
  lemma {:induction false} BestKnowledgeHidesNothing(cfg: Config, t: Ticket, trace: seq<Entry>)
    ensures BestKnowledge(cfg, t, trace).Some? && HasTrustedPolicy(cfg, BestKnowledge(cfg, t, trace).value, t)
            <==> TrustedPolicyFound(cfg, trace, t)
  {
    if trace != [] {
      var front, e := trace[..|trace| - 1], trace[|trace| - 1];
      BestKnowledgeHidesNothing(cfg, t, front);
      assert trace == front + [e];
      assert TrustedPolicyFound(cfg, trace, t)
        <==> TrustedPolicyFound(cfg, front, t) || (IsKnowledge(e) && HasTrustedPolicy(cfg, e.answer.data.knowledge, t));
    }
  }

  /** A review is an approval exactly when its grounds are in the trace. */
  lemma ApprovedExactlyOnGrounds(cfg: Config, req: Request, s: State)
    requires s.case_.attachments == AttachmentsAfter(req, s.trace)
    requires Latest(s.trace, GetTicket).Some? && Pending(Latest(s.trace, GetTicket).value)
    ensures Assess(cfg, req, s, Latest(s.trace, GetTicket).value.ticket).approved <==> Grounds(cfg, req, s.trace)
  {
    BestKnowledgeHidesNothing(cfg, Latest(s.trace, GetTicket).value.ticket, s.trace);
  }

  // ---------- Safe actions ----------

  predicate TicketTool(tool: Tool) {
    tool == GetTicket || tool == ReviewImages || tool == Retrieve || tool == RetrieveMulti || tool == SubmitReview
  }

  /** Calling this tool now keeps every promise about the trace. */
  ghost predicate SafeCall(cfg: Config, req: Request, trace: seq<Entry>, tool: Tool, args: Args) {
    && TicketTool(tool)
    && (tool != GetTicket ==> HasSuccess(trace, GetTicket))
    && (tool == SubmitReview && Approves(args) ==> Grounds(cfg, req, trace))
  }

  ghost predicate SafeAct(cfg: Config, req: Request, trace: seq<Entry>, a: Act) {
    a.action == CallTool && a.tool.Some? ==> SafeCall(cfg, req, trace, a.tool.value, a.args)
  }

  lemma ApplySafeAct(cfg: Config, req: Request, s: State, a: Act)
    requires SafeAct(cfg, req, s.trace, a) && Route(Apply(req, s, a).plan) == ToTool
    ensures var p := Apply(req, s, a).plan;
            SafeCall(cfg, req, s.trace, p.tool.value, p.args) && (p.tool == Some(SubmitReview) ==> req.fromKafka)
  {
  }

  lemma SuccessKept(trace: seq<Entry>, e: Entry, tool: Tool)
    requires HasSuccess(trace, tool)
    ensures HasSuccess(trace + [e], tool)
  {
    var x :| x in trace && x.tool == tool && Succeeded(x);
    assert x in trace + [e];
  }

  lemma SuccessHasData(trace: seq<Entry>, tool: Tool)
    ensures HasSuccess(trace, tool) <==> Latest(trace, tool).Some?
  {
    if trace != [] {
      SuccessHasData(trace[..|trace| - 1], tool);
      assert trace == trace[..|trace| - 1] + [trace[|trace| - 1]];
    }
  }

  /** A failed call does not disturb the grounds. */
  lemma GroundsSurviveFailure(cfg: Config, req: Request, trace: seq<Entry>, e: Entry)
    requires Grounds(cfg, req, trace) && !Succeeded(e)
    ensures Grounds(cfg, req, trace + [e])
  {
    assert (trace + [e])[..|trace|] == trace;
    var t := Latest(trace, GetTicket).value.ticket;
    var k :| k in trace && IsKnowledge(k) && HasTrustedPolicy(cfg, k.answer.data.knowledge, t);
    assert k in trace + [e];
  }

  /** A failed call may be repeated if it was safe the first time. */
  lemma RetryIsSafe(cfg: Config, req: Request, trace: seq<Entry>, e: Entry)
    requires SafeCall(cfg, req, trace, e.tool, e.args) && !Succeeded(e)
    ensures SafeCall(cfg, req, trace + [e], e.tool, e.args)
  {
    if e.tool != GetTicket {
      SuccessKept(trace, e, GetTicket);
    }
    if e.tool == SubmitReview && Approves(e.args) {
      GroundsSurviveFailure(cfg, req, trace, e);
    }
  }

  /** The state seen by the decision after a safe call that was executed. */
  ghost predicate AfterSafeCall(cfg: Config, req: Request, s: State) {
    && s.trace != []
    && var front, e := s.trace[..|s.trace| - 1], s.trace[|s.trace| - 1];
       && SafeCall(cfg, req, front, e.tool, e.args)
       && s.last == Some(Observed(e))
       && (s.steps < cfg.maxSteps ==> s.plan.args == e.args)
       && s.case_.attachments == AttachmentsAfter(req, s.trace)
  }

  lemma TicketFetchedBefore(cfg: Config, req: Request, s: State)
    requires AfterSafeCall(cfg, req, s)
    ensures s.trace[|s.trace| - 1].tool != GetTicket ==> HasSuccess(s.trace, GetTicket)
  {
    var front, e := s.trace[..|s.trace| - 1], s.trace[|s.trace| - 1];
    assert s.trace == front + [e];
    if e.tool != GetTicket {
      SuccessKept(front, e, GetTicket);
    }
  }

  lemma FailureActIsSafe(cfg: Config, req: Request, s: State, wording: string)
    requires AfterSafeCall(cfg, req, s) && s.steps < cfg.maxSteps && s.last.value.kind.Some?
    ensures FailureAct(cfg, req, s, wording).Some? ==> SafeAct(cfg, req, s.trace, FailureAct(cfg, req, s, wording).value)
  {
    var front, e := s.trace[..|s.trace| - 1], s.trace[|s.trace| - 1];
    assert s.trace == front + [e];
    TicketFetchedBefore(cfg, req, s);
    RetryIsSafe(cfg, req, front, e);
  }

  lemma FollowUpIsSafe(cfg: Config, req: Request, s: State, turn: Turn)
    requires AfterSafeCall(cfg, req, s)
    ensures FollowUp(cfg, s, turn).Some? ==> SafeAct(cfg, req, s.trace, FollowUp(cfg, s, turn).value)
  {
    TicketFetchedBefore(cfg, req, s);
  }

  lemma TicketActIsSafe(cfg: Config, req: Request, s: State, wording: string)
    requires s.case_.attachments == AttachmentsAfter(req, s.trace)
    ensures SafeAct(cfg, req, s.trace, TicketAct(cfg, req, s, wording))
    ensures HasSuccess(s.trace, GetTicket) && HasSuccess(s.trace, SubmitReview)
            ==> TicketAct(cfg, req, s, wording).action != CallTool
  {
    if Latest(s.trace, GetTicket).Some? && Pending(Latest(s.trace, GetTicket).value) {
      ApprovedExactlyOnGrounds(cfg, req, s);
    }
  }

  lemma GuardedStepIsSafe(cfg: Config, req: Request, s: State, turn: Turn)
    requires req.ticketId.Some? && s.case_.attachments == AttachmentsAfter(req, s.trace)
    ensures var p := GuardedStep(cfg, req, s, turn).plan;
            Route(p) == ToTool ==>
              && SafeCall(cfg, req, s.trace, p.tool.value, p.args) && (p.tool == Some(SubmitReview) ==> req.fromKafka)
              && !(HasSuccess(s.trace, GetTicket) && HasSuccess(s.trace, SubmitReview))
    ensures GuardedStep(cfg, req, s, turn).case_.attachments == s.case_.attachments
  {
    var t := s.(case_ := CaseForGuard(req, s));
    TicketActIsSafe(cfg, req, t, turn.wording);
    var guarded := TicketAct(cfg, req, t, turn.wording);
    if guarded.action != Respond && Route(Apply(req, t, guarded).plan) == ToTool {
      ApplySafeAct(cfg, req, t, guarded);
    }
  }

  // ---------- One pass ----------

  /** The trace so far keeps its promises. */
  ghost predicate SoundTrace(cfg: Config, req: Request, trace: seq<Entry>) {
    && (forall e <- trace :: TicketTool(e.tool))
    && (forall e <- trace :: e.tool == SubmitReview ==> req.fromKafka)
    && (forall i :: 0 <= i < |trace| && trace[i].tool == SubmitReview && Approves(trace[i].args)
                    ==> Grounds(cfg, req, trace[..i]))
    && (forall i :: 0 <= i < |trace| && trace[i].tool == SubmitReview && Succeeded(trace[i]) ==> i == |trace| - 1)
  }

  ghost predicate SafePlan(cfg: Config, req: Request, s: State) {
    Route(s.plan) == ToTool ==>
      && SafeCall(cfg, req, s.trace, s.plan.tool.value, s.plan.args)
      && (s.plan.tool == Some(SubmitReview) ==> req.fromKafka)
      && !HasSuccess(s.trace, SubmitReview)
  }

  ghost predicate Sound(cfg: Config, req: Request, s: State) {
    SoundTrace(cfg, req, s.trace) && SafePlan(cfg, req, s) && s.case_.attachments == AttachmentsAfter(req, s.trace)
  }

  lemma SoundTraceGrows(cfg: Config, req: Request, trace: seq<Entry>, e: Entry)
    requires SoundTrace(cfg, req, trace) && !HasSuccess(trace, SubmitReview)
    requires SafeCall(cfg, req, trace, e.tool, e.args) && (e.tool == SubmitReview ==> req.fromKafka)
    ensures SoundTrace(cfg, req, trace + [e])
  {
    var t := trace + [e];
    forall i | 0 <= i < |t| && t[i].tool == SubmitReview && Approves(t[i].args)
      ensures Grounds(cfg, req, t[..i])
    {
      assert t[..i] == trace[..i];
      assert trace[..|trace|] == trace;
    }
  }

  lemma NoSearchNoSearchResult(trace: seq<Entry>)
    requires forall e <- trace :: TicketTool(e.tool)
    ensures !EmptyOrderSearch(trace) && !FailedOrderSearch(trace)
  {
  }

  /** What the decision sees of a call. */
  lemma ObservedCall(cfg: Config, s: State, answer: Answer)
    requires s.plan.tool.Some?
    ensures var e, t := NewEntry(cfg, s, answer), Observe(cfg.py, ToolCall(cfg, s, answer));
            && e.tool == s.plan.tool.value && e.args == s.plan.args
            && t.trace == s.trace + [e] && t.trace[..|s.trace|] == s.trace
            && t.last == Some(Observed(e)) && t.plan.args == e.args && t.case_ == CaseAfter(s.case_, e)
  {
  }

  lemma CallKeepsPromises(cfg: Config, req: Request, s: State, e: Entry, t: State)
    requires Route(s.plan) == ToTool && Sound(cfg, req, s) && e.tool == s.plan.tool.value && e.args == s.plan.args
    requires t.trace == s.trace + [e] && t.trace[..|s.trace|] == s.trace
    requires t.last == Some(Observed(e)) && t.plan.args == e.args && t.case_ == CaseAfter(s.case_, e)
    ensures AfterSafeCall(cfg, req, t) && SoundTrace(cfg, req, t.trace)
  {
    SoundTraceGrows(cfg, req, s.trace, e);
  }

  lemma DecideKeepsTrace(cfg: Config, req: Request, s: State, turn: Turn)
    requires s.trace != [] && s.last.Some?
    ensures DecideNext(cfg, req, s, turn).trace == s.trace
  {
  }

  /** After the call the decision sees a state reached by a safe call. */
  lemma CallObserved(cfg: Config, req: Request, s: State, answer: Answer)
    requires Route(s.plan) == ToTool && Sound(cfg, req, s)
    ensures var t := Observe(cfg.py, ToolCall(cfg, s, answer));
            AfterSafeCall(cfg, req, t) && SoundTrace(cfg, req, t.trace)
  {
    ObservedCall(cfg, s, answer);
    CallKeepsPromises(cfg, req, s, NewEntry(cfg, s, answer), Observe(cfg.py, ToolCall(cfg, s, answer)));
  }

  /** A successful submission in the trace is the last result. */
  lemma SubmittedLast(cfg: Config, req: Request, s: State)
    requires AfterSafeCall(cfg, req, s) && SoundTrace(cfg, req, s.trace) && HasSuccess(s.trace, SubmitReview)
    ensures s.last.value.tool == SubmitReview && s.last.value.ok && HasSuccess(s.trace, GetTicket)
  {
    var e :| e in s.trace && e.tool == SubmitReview && Succeeded(e);
    var i :| 0 <= i < |s.trace| && s.trace[i] == e;
    TicketFetchedBefore(cfg, req, s);
  }

  lemma DecideIsSafe(cfg: Config, req: Request, s: State, turn: Turn)
    requires req.ticketId.Some? && AfterSafeCall(cfg, req, s) && SoundTrace(cfg, req, s.trace)
    ensures Sound(cfg, req, DecideNext(cfg, req, s, turn))
  {
    NoSearchNoSearchResult(s.trace);
    if HasSuccess(s.trace, SubmitReview) {
      SubmittedLast(cfg, req, s);
    }
    if s.steps < cfg.maxSteps {
      if s.last.value.kind.Some? && FailureAct(cfg, req, s, turn.wording).Some? {
        FailureActIsSafe(cfg, req, s, turn.wording);
        var a := FailureAct(cfg, req, s, turn.wording).value;
        if Route(Apply(req, AfterFailureMark(cfg, s), a).plan) == ToTool {
          ApplySafeAct(cfg, req, AfterFailureMark(cfg, s), a);
        }
      } else {
        FollowUpStepIsSafe(cfg, req, s, turn);
      }
    }
  }

  lemma FollowUpStepIsSafe(cfg: Config, req: Request, s: State, turn: Turn)
    requires req.ticketId.Some? && AfterSafeCall(cfg, req, s) && SoundTrace(cfg, req, s.trace)
    ensures Sound(cfg, req, FollowUpStep(cfg, req, s, turn))
  {
    if HasSuccess(s.trace, SubmitReview) {
      SubmittedLast(cfg, req, s);
    }
    FollowUpIsSafe(cfg, req, s, turn);
    var t := s.(retrieval := RetrievalAfterFollowUp(s));
    if FollowUp(cfg, s, turn).Some? {
      var a := FollowUp(cfg, s, turn).value;
      if Route(Apply(req, t, a).plan) == ToTool {
        ApplySafeAct(cfg, req, t, a);
      }
    } else {
      GuardedStepIsSafe(cfg, req, t, turn);
    }
  }

  lemma PassIsSafe(cfg: Config, req: Request, s: State, turn: Turn)
    requires req.ticketId.Some? && Route(s.plan) == ToTool && Sound(cfg, req, s)
    ensures Sound(cfg, req, Pass(cfg, req, s, turn))
  {
    CallObserved(cfg, req, s, turn.answer);
    DecideIsSafe(cfg, req, Observe(cfg.py, ToolCall(cfg, s, turn.answer)), turn);
  }

  lemma AdvanceIsSafe(cfg: Config, req: Request, s: State, turns: nat -> Turn, k: nat, end: State) returns (next: State)
    requires req.ticketId.Some? && Route(s.plan) == ToTool && Sound(cfg, req, s) && LoopsTo(cfg, req, s, turns, k, end)
    ensures Sound(cfg, req, next) && LoopsTo(cfg, req, next, turns, k + 1, end)
    ensures Remaining(cfg, next) <= Remaining(cfg, s)
    ensures Route(next.plan) == ToTool ==> Remaining(cfg, next) < Remaining(cfg, s)
  {
    PassIsSafe(cfg, req, s, turns(k));
    LoopGoesOn(cfg, req, s, turns, k, end);
    next := Pass(cfg, req, s, turns(k));
  }

  lemma {:induction false} LoopIsSafe(cfg: Config, req: Request, s: State, turns: nat -> Turn, k: nat, end: State)
    requires req.ticketId.Some? && Sound(cfg, req, s) && LoopsTo(cfg, req, s, turns, k, end)
    ensures Sound(cfg, req, end)
    decreases Remaining(cfg, s), if Route(s.plan) == ToTool then 1 else 0
  {
    if Route(s.plan) == ToTool {
      var next := AdvanceIsSafe(cfg, req, s, turns, k, end);
      LoopIsSafe(cfg, req, next, turns, k + 1, end);
    } else {
      LoopIsOver(cfg, req, s, turns, k, end);
    }
  }

  lemma LoopEndIsSafe(cfg: Config, req: Request, turns: nat -> Turn)
    requires req.ticketId.Some?
    ensures Sound(cfg, req, LoopEnd(cfg, req, turns))
  {
    var s := Planning(cfg, req, turns(0));
    assert Sound(cfg, req, s);
    if RouteAfterPlan(s) == ToTool {
      LoopIsSafe(cfg, req, s, turns, 1, LoopEnd(cfg, req, turns));
    }
  }

  // ---------- Whole runs ----------

  /** The ending only appends a transfer and two chat messages. */
  lemma EndingAppends(req: Request, s: State, closing: Closing)
    ensures var t := Ending(req, s, closing).trace;
            && s.trace <= t
            && forall i :: |s.trace| <= i < |t| ==> t[i].tool == Handoff || t[i].tool == AppendMessage
  {
  }

  /** A search had returned a strictly filtered, reranked result that answers, with a hit that cites a
      source and states a policy of the ticket's own merchant and version, in force when the customer
      applied and scored at or above the minimum. */
  ghost predicate PolicyInForce(cfg: Config, before: seq<Entry>, t: Ticket) {
    exists e <- before :: IsKnowledge(e) && AnswersStrictly(e.answer.data.knowledge)
      && exists h <- e.answer.data.knowledge.hits ::
           && h.isPolicy && h.traceable && h.merchant == t.merchant != "" && h.policyVersion == t.policyVersion != ""
           && t.appliedAt.At? && h.validFrom.Some? && h.validTo.Some?
           && h.validFrom.value <= t.appliedAt.instant < h.validTo.value
           && Clamped(h.score) >= cfg.minPolicyScore
  }

  predicate AnswersStrictly(k: Knowledge) {
    k.rerankerSucceeded && k.strictFilter && !k.noAnswer
  }

  /** For every model and all tool results, in a run that carries a ticket every submitted approval
      comes from the review queue, and before it the ticket had been fetched as pending, a successful
      image review showed damage with enough confidence, the customer claimed visible damage and no
      functional fault, no risk reason or emotional priority applied, and a search had returned a
      trusted policy for this ticket, one that was in force. */
  lemma ApprovalsAreGrounded(cfg: Config, req: Request, turns: nat -> Turn, closing: Closing, i: nat)
    requires req.ticketId.Some? && i < |Run(cfg, req, turns, closing).trace|
    requires var e := Run(cfg, req, turns, closing).trace[i]; e.tool == SubmitReview && Approves(e.args)
    ensures var before := Run(cfg, req, turns, closing).trace[..i];
            req.fromKafka && Grounds(cfg, req, before) && PolicyInForce(cfg, before, Latest(before, GetTicket).value.ticket)
  {
    var s := LoopEnd(cfg, req, turns);
    LoopEndIsSafe(cfg, req, turns);
    EndingAppends(req, s, closing);
    ReviewInPrefix(s.trace, Run(cfg, req, turns, closing).trace, i);
  }

  lemma ReviewInPrefix(front: seq<Entry>, all: seq<Entry>, i: nat)
    requires front <= all && i < |all| && all[i].tool == SubmitReview
    requires forall j :: |front| <= j < |all| ==> all[j].tool == Handoff || all[j].tool == AppendMessage
    ensures i < |front| && front[i] == all[i] && front[..i] == all[..i] && all[i] in front
  {
  }

  // ---------- Runs without a ticket ----------

  /** Without a ticket no call carries one. */
  ghost predicate Ticketless(s: State) {
    s.plan.args.ticket.None? && forall e <- s.trace :: e.args.ticket.None? && (e.tool == SubmitReview ==> !Succeeded(e))
  }

  lemma FailureStepTicketless(cfg: Config, req: Request, s: State, wording: string)
    requires req.ticketId.None? && s.last.Some? && s.last.value.kind.Some? && Ticketless(s)
    ensures FailureAct(cfg, req, s, wording).Some? ==> FailureAct(cfg, req, s, wording).value.args.ticket.None?
  {
  }

  lemma FollowUpStepTicketless(cfg: Config, req: Request, s: State, turn: Turn)
    requires req.ticketId.None? && s.trace != [] && Ticketless(s)
    ensures Ticketless(FollowUpStep(cfg, req, s, turn))
  {
    assert s.trace[|s.trace| - 1] in s.trace;
  }

  lemma PassTicketless(cfg: Config, req: Request, s: State, turn: Turn)
    requires req.ticketId.None? && Route(s.plan) == ToTool && Ticketless(s)
    ensures Ticketless(Pass(cfg, req, s, turn))
  {
    var t := Observe(cfg.py, ToolCall(cfg, s, turn.answer));
    assert t.trace == s.trace + [NewEntry(cfg, s, turn.answer)];
    assert Ticketless(t);
    FollowUpStepTicketless(cfg, req, t, turn);
    if t.last.value.kind.Some? {
      FailureStepTicketless(cfg, req, t, turn.wording);
    }
  }

  lemma {:induction false} LoopTicketless(cfg: Config, req: Request, s: State, turns: nat -> Turn, k: nat)
    requires req.ticketId.None? && Ticketless(s)
    ensures Ticketless(Loop(cfg, req, s, turns, k))
    decreases Remaining(cfg, s), if Route(s.plan) == ToTool then 1 else 0
  {
    if Route(s.plan) == ToTool {
      PassTicketless(cfg, req, s, turns(k));
      PassAdvances(cfg, req, s, turns(k));
      LoopTicketless(cfg, req, Pass(cfg, req, s, turns(k)), turns, k + 1);
    }
  }

  /** In every run a successful review submission belongs to a ticket and to the review queue, and no
      pass of the tool loop follows it; so there is at most one. */
  lemma SubmissionEndsTheLoop(cfg: Config, req: Request, turns: nat -> Turn, i: nat)
    requires i < |LoopEnd(cfg, req, turns).trace|
    requires var e := LoopEnd(cfg, req, turns).trace[i]; e.tool == SubmitReview && Succeeded(e)
    ensures req.ticketId.Some? && req.fromKafka && i == |LoopEnd(cfg, req, turns).trace| - 1
  {
    var s := LoopEnd(cfg, req, turns);
    assert s.trace[i] in s.trace;
    if req.ticketId.Some? {
      LoopEndIsSafe(cfg, req, turns);
    } else {
      var p := Planning(cfg, req, turns(0));
      assert Ticketless(p);
      if RouteAfterPlan(p) == ToTool {
        LoopTicketless(cfg, req, p, turns, 1);
      }
      assert false;
    }
  }
}
