/**
 Who takes over after a submitted review. A verdict that is not an approval sends the run to a person,
 except when it was submitted by the fast retry: the retry forgets that a person is needed. Only a
 decision taken below the step limit brings the transfer back, and only on an uncertainty noted in the
 verdict, an answer flagged as failed or a model that cannot word the reply.
 */
module AgentHandover {
  import opened Wrappers
  import opened RagRewrite
  import opened AgentWorkflow
  import opened AgentApproval
  import opened AgentOutcomes
  import opened AgentBounds

  // ---------- Before the submission ----------

  /** Images are reviewed only when there are some. */
  ghost predicate ImagesNeedAttachments(s: State) {
    (HasResult(s.trace, ReviewImages) || Calls(s, ReviewImages)) ==> s.case_.attachments != []
  }

  ghost predicate JustUncertain(trace: seq<Entry>) {
    trace != [] && Uncertain(trace[|trace| - 1])
  }

  /** A planned verdict that is no approval asks for a person, unless it is a retry. */
  ghost predicate AsksForPerson(s: State) {
    Calls(s, SubmitReview) && !Approves(s.plan.args) ==> s.plan.needHuman || JustUncertain(s.trace)
  }

  /** The same for an action. */
  ghost predicate AttentiveAct(s: State, a: Act) {
    && (a.action == CallTool && a.tool == Some(ReviewImages) ==> s.case_.attachments != [])
    && (a.action == CallTool && a.tool == Some(SubmitReview) && !Approves(a.args) ==> a.needHuman || JustUncertain(s.trace))
  }

  lemma ReviewActAttentive(cfg: Config, req: Request, s: State, t: Ticket, wording: string)
    requires HasResult(s.trace, ReviewImages) ==> s.case_.attachments != []
    ensures var a := ReviewAct(cfg, req, s, t, wording); !Approves(a.args) ==> a.needHuman
  {
    if s.case_.attachments == [] {
      SuccessHasData(s.trace, ReviewImages);
    }
  }

  lemma TicketActAttentive(cfg: Config, req: Request, s: State, wording: string)
    requires HasResult(s.trace, ReviewImages) ==> s.case_.attachments != []
    ensures AttentiveAct(s, TicketAct(cfg, req, s, wording))
  {
    var found := Latest(s.trace, GetTicket);
    if found.Some? && found.value.Dict? {
      ReviewActAttentive(cfg, req, s, found.value.ticket, wording);
    }
  }

  lemma FailureActAttentive(cfg: Config, req: Request, s: State, wording: string)
    requires s.trace != [] && s.last == Some(Observed(s.trace[|s.trace| - 1])) && s.last.value.kind.Some?
    requires s.trace[|s.trace| - 1].tool == ReviewImages ==> s.case_.attachments != []
    requires s.trace[|s.trace| - 1].tool != Handoff
    ensures FailureAct(cfg, req, s, wording).Some? ==> AttentiveAct(s, FailureAct(cfg, req, s, wording).value)
  {
  }

  lemma ApplyAttentive(req: Request, s: State, a: Act)
    requires AttentiveAct(s, a) && (HasResult(s.trace, ReviewImages) ==> s.case_.attachments != [])
    ensures ImagesNeedAttachments(Apply(req, s, a)) && AsksForPerson(Apply(req, s, a))
  {
  }

  // ---------- One pass ----------

  ghost predicate Attentive(cfg: Config, req: Request, s: State) {
    Sound(cfg, req, s) && ImagesNeedAttachments(s) && AsksForPerson(s)
  }

  lemma GuardedAttentive(cfg: Config, req: Request, s: State, turn: Turn)
    requires req.ticketId.Some? && (HasResult(s.trace, ReviewImages) ==> s.case_.attachments != [])
    ensures var t := GuardedStep(cfg, req, s, turn); ImagesNeedAttachments(t) && AsksForPerson(t)
  {
    var g := s.(case_ := CaseForGuard(req, s));
    TicketActAttentive(cfg, req, g, turn.wording);
    var guarded := TicketAct(cfg, req, g, turn.wording);
    if guarded.action != Respond {
      ApplyAttentive(req, g, guarded);
    }
  }

  lemma FollowUpAttentive(cfg: Config, req: Request, s: State, turn: Turn)
    requires req.ticketId.Some? && s.trace != [] && (HasResult(s.trace, ReviewImages) ==> s.case_.attachments != [])
    ensures var t := FollowUpStep(cfg, req, s, turn); ImagesNeedAttachments(t) && AsksForPerson(t)
  {
    var u := s.(retrieval := RetrievalAfterFollowUp(s));
    if FollowUp(cfg, s, turn).Some? {
      ApplyAttentive(req, u, FollowUp(cfg, s, turn).value);
    } else {
      GuardedAttentive(cfg, req, u, turn);
    }
  }

  lemma DecideAttentive(cfg: Config, req: Request, s: State, turn: Turn)
    requires req.ticketId.Some? && s.trace != [] && s.last == Some(Observed(s.trace[|s.trace| - 1]))
    requires forall e <- s.trace :: TicketTool(e.tool)
    requires HasResult(s.trace, ReviewImages) ==> s.case_.attachments != []
    ensures var t := DecideNext(cfg, req, s, turn); ImagesNeedAttachments(t) && AsksForPerson(t)
  {
    NoSearchInTicketRuns(s.trace);
    assert s.trace[|s.trace| - 1] in s.trace;
    if s.steps < cfg.maxSteps {
      if s.last.value.kind.Some? && FailureAct(cfg, req, s, turn.wording).Some? {
        FailureActAttentive(cfg, req, s, turn.wording);
        ApplyAttentive(req, AfterFailureMark(cfg, s), FailureAct(cfg, req, s, turn.wording).value);
      } else {
        FollowUpAttentive(cfg, req, s, turn);
      }
    }
  }

  lemma AttachmentsStay(cfg: Config, s: State, answer: Answer)
    requires Route(s.plan) == ToTool && ImagesNeedAttachments(s)
    ensures var t := Observe(cfg.py, ToolCall(cfg, s, answer));
            HasResult(t.trace, ReviewImages) ==> t.case_.attachments != []
  {
    ObservedCall(cfg, s, answer);
    LatestOfLast(s.trace, NewEntry(cfg, s, answer), ReviewImages);
  }

  lemma PassAttentive(cfg: Config, req: Request, s: State, turn: Turn)
    requires req.ticketId.Some? && Route(s.plan) == ToTool && Attentive(cfg, req, s)
    ensures Attentive(cfg, req, Pass(cfg, req, s, turn))
  {
    PassIsSafe(cfg, req, s, turn);
    CallObserved(cfg, req, s, turn.answer);
    AttachmentsStay(cfg, s, turn.answer);
    DecideAttentive(cfg, req, Observe(cfg.py, ToolCall(cfg, s, turn.answer)), turn);
  }

  // ---------- After a successful submission ----------

  /** The trace ends with a successful verdict that is no approval. */
  ghost predicate EndsWithManualVerdict(trace: seq<Entry>) {
    trace != [] && var e := trace[|trace| - 1]; e.tool == SubmitReview && Succeeded(e) && !Approves(e.args)
  }

  /** It was submitted at once, not after an uncertain attempt. */
  ghost predicate SubmittedAtOnce(trace: seq<Entry>)
    requires trace != []
  {
    !JustUncertain(trace[..|trace| - 1])
  }

  lemma NobodyAskedYet(trace: seq<Entry>)
    requires forall e <- trace :: TicketTool(e.tool)
    ensures !HasConfirmedHandoff(trace)
  {
  }

  lemma TransferAfterVerdict(cfg: Config, req: Request, s: State, turn: Turn)
    requires req.ticketId.Some? && AfterSafeCall(cfg, req, s) && SoundTrace(cfg, req, s.trace)
    requires EndsWithManualVerdict(s.trace) && s.plan.needHuman
    ensures Route(DecideNext(cfg, req, s, turn).plan) == ToHuman
  {
    NobodyAskedYet(s.trace);
    NoSearchInTicketRuns(s.trace);
    assert s.trace[|s.trace| - 1] in s.trace;
    SubmittedLast(cfg, req, s);
    var u := s.(retrieval := RetrievalAfterFollowUp(s));
    assert FollowUp(cfg, s, turn).None?;
    TransferGuarded(cfg, req, u, turn);
  }

  lemma TransferGuarded(cfg: Config, req: Request, s: State, turn: Turn)
    requires req.ticketId.Some? && HasSuccess(s.trace, GetTicket) && HasSuccess(s.trace, SubmitReview)
    requires !HasConfirmedHandoff(s.trace) && s.plan.needHuman
    ensures Route(GuardedStep(cfg, req, s, turn).plan) == ToHuman
  {
    assert TicketAct(cfg, req, s.(case_ := CaseForGuard(req, s)), turn.wording) == HAND_OVER;
  }

  lemma PassHandsOver(cfg: Config, req: Request, s: State, turn: Turn)
    requires req.ticketId.Some? && Route(s.plan) == ToTool && Attentive(cfg, req, s)
    requires EndsWithManualVerdict(Pass(cfg, req, s, turn).trace) && !JustUncertain(s.trace)
    ensures Route(Pass(cfg, req, s, turn).plan) == ToHuman
  {
    var t := Observe(cfg.py, ToolCall(cfg, s, turn.answer));
    ObservedCall(cfg, s, turn.answer);
    CallObserved(cfg, req, s, turn.answer);
    DecideKeepsTrace(cfg, req, t, turn);
    TransferAfterVerdict(cfg, req, t, turn);
  }

  lemma PassKeeps(cfg: Config, req: Request, s: State, turn: Turn)
    requires s.plan.tool.Some?
    ensures Pass(cfg, req, s, turn).final == s.final
    ensures Pass(cfg, req, s, turn).trace[..|s.trace|] == s.trace && |Pass(cfg, req, s, turn).trace| == |s.trace| + 1
  {
    DecideKeepsTrace(cfg, req, Observe(cfg.py, ToolCall(cfg, s, turn.answer)), turn);
  }

  // ---------- After a retried submission ----------

  /** What a verdict notes as uncertain. */
  predicate NotesDoubt(args: Args) {
    args.body.Verdict? && (args.body.verdict == "MANUAL_REVIEW" || args.body.visualUncertain || args.body.policyUncertain)
  }

  /** A retried verdict plans no person; when it then succeeds below the step limit, the decision is the
      transfer exactly when the verdict notes an uncertainty, the case counts as failed, or the model
      cannot word the reply. */
  lemma RetriedDecision(cfg: Config, req: Request, s: State, turn: Turn)
    requires req.ticketId.Some? && AfterSafeCall(cfg, req, s) && SoundTrace(cfg, req, s.trace) && s.steps < cfg.maxSteps
    requires var e := s.trace[|s.trace| - 1]; e.tool == SubmitReview && Succeeded(e)
    requires !s.plan.needHuman && s.case_.ticket.Some?
    ensures Route(DecideNext(cfg, req, s, turn).plan) == ToHuman
            <==> || NotesDoubt(s.trace[|s.trace| - 1].args)
                 || s.case_.submitFailed == Some(true)
                 || Understood(cfg, turn.llm).Unavailable?
  {
    var e := s.trace[|s.trace| - 1];
    NobodyAskedYet(s.trace);
    NoSearchInTicketRuns(s.trace);
    assert e in s.trace;
    SubmittedLast(cfg, req, s);
    assert FollowUp(cfg, s, turn).None?;
    RetriedGuarded(cfg, req, s.(retrieval := RetrievalAfterFollowUp(s)), turn);
  }

  lemma RetriedGuarded(cfg: Config, req: Request, s: State, turn: Turn)
    requires req.ticketId.Some? && HasSuccess(s.trace, GetTicket) && HasSuccess(s.trace, SubmitReview)
    requires s.trace != [] && s.trace[|s.trace| - 1].tool == SubmitReview
    requires !HasConfirmedHandoff(s.trace) && !s.plan.needHuman && s.case_.ticket.Some?
    ensures Route(GuardedStep(cfg, req, s, turn).plan) == ToHuman
            <==> || NotesDoubt(s.trace[|s.trace| - 1].args)
                 || s.case_.submitFailed == Some(true)
                 || Understood(cfg, turn.llm).Unavailable?
  {
    var g := s.(case_ := CaseForGuard(req, s));
    assert LatestArgs(s.trace, SubmitReview) == Some(s.trace[|s.trace| - 1].args);
    assert TicketAct(cfg, req, g, turn.wording)
      == if s.case_.submitFailed == Some(true) || NotesDoubt(s.trace[|s.trace| - 1].args) then HAND_OVER else Answering(false);
  }

  /** After an uncertain submission no planned call asks for a person. */
  lemma RetryForgetsPerson(cfg: Config, req: Request, s: State, turn: Turn)
    requires s.trace != [] && s.last == Some(Observed(s.trace[|s.trace| - 1])) && JustUncertain(s.trace)
    ensures Calls(DecideNext(cfg, req, s, turn), SubmitReview) ==> !DecideNext(cfg, req, s, turn).plan.needHuman
  {
  }

  ghost predicate BeyondTicket(trace: seq<Entry>) {
    exists e <- trace :: e.tool != GetTicket
  }

  /** Whatever is called after the ticket, the ticket is known. */
  ghost predicate TicketKnown(s: State) {
    BeyondTicket(s.trace) || (Route(s.plan) == ToTool && s.plan.tool != Some(GetTicket)) ==> s.case_.ticket.Some?
  }

  lemma GuardKnowsTicket(cfg: Config, req: Request, s: State, turn: Turn)
    requires req.ticketId.Some? && (BeyondTicket(s.trace) ==> s.case_.ticket.Some?)
    ensures TicketKnown(GuardedStep(cfg, req, s, turn)) && GuardedStep(cfg, req, s, turn).trace == s.trace
  {
    var g := s.(case_ := CaseForGuard(req, s));
    var guarded := TicketAct(cfg, req, g, turn.wording);
    if guarded.action == CallTool && guarded.tool != Some(GetTicket) {
      assert g.case_.ticket.Some?;
    }
  }

  lemma FollowUpKnowsTicket(cfg: Config, req: Request, s: State, turn: Turn)
    requires req.ticketId.Some? && s.trace != [] && (BeyondTicket(s.trace) ==> s.case_.ticket.Some?)
    ensures TicketKnown(FollowUpStep(cfg, req, s, turn)) && FollowUpStep(cfg, req, s, turn).trace == s.trace
  {
    if FollowUp(cfg, s, turn).Some? {
      assert s.trace[|s.trace| - 1] in s.trace;
    } else {
      GuardKnowsTicket(cfg, req, s.(retrieval := RetrievalAfterFollowUp(s)), turn);
    }
  }

  lemma FailureKnowsTicket(cfg: Config, req: Request, s: State, wording: string)
    requires s.trace != [] && s.last == Some(Observed(s.trace[|s.trace| - 1])) && s.last.value.kind.Some?
    requires FailureAct(cfg, req, s, wording).Some? && (BeyondTicket(s.trace) ==> s.case_.ticket.Some?)
    ensures TicketKnown(Apply(req, AfterFailureMark(cfg, s), FailureAct(cfg, req, s, wording).value))
  {
    assert s.trace[|s.trace| - 1] in s.trace;
  }

  lemma DecideKnowsTicket(cfg: Config, req: Request, s: State, turn: Turn)
    requires req.ticketId.Some? && s.trace != [] && s.last == Some(Observed(s.trace[|s.trace| - 1]))
    requires BeyondTicket(s.trace) ==> s.case_.ticket.Some?
    ensures TicketKnown(DecideNext(cfg, req, s, turn))
  {
    FollowUpKnowsTicket(cfg, req, s, turn);
    if s.last.value.kind.Some? && FailureAct(cfg, req, s, turn.wording).Some? {
      FailureKnowsTicket(cfg, req, s, turn.wording);
    }
  }

  /** A state in which the next verdict, if there is one, is known to be at once or a retry. */
  ghost predicate Watched(cfg: Config, req: Request, s: State) {
    && Attentive(cfg, req, s) && Cautious(cfg, req, s) && TicketKnown(s)
    && (Calls(s, SubmitReview) && JustUncertain(s.trace) ==> !s.plan.needHuman)
    && (Route(s.plan) == ToTool ==> s.steps == |s.trace|)
  }

  lemma CallKeepsTicket(cfg: Config, s: State, answer: Answer)
    requires Route(s.plan) == ToTool && TicketKnown(s)
    ensures var t := Observe(cfg.py, ToolCall(cfg, s, answer));
            BeyondTicket(t.trace) ==> t.case_.ticket.Some?
  {
    ObservedCall(cfg, s, answer);
  }

  lemma PassWatched(cfg: Config, req: Request, s: State, turn: Turn)
    requires req.ticketId.Some? && Route(s.plan) == ToTool && Watched(cfg, req, s)
    ensures Watched(cfg, req, Pass(cfg, req, s, turn))
  {
    var t := Observe(cfg.py, ToolCall(cfg, s, turn.answer));
    PassAttentive(cfg, req, s, turn);
    PassIsCautious(cfg, req, s, turn);
    ObservedCall(cfg, s, turn.answer);
    CallKeepsTicket(cfg, s, turn.answer);
    DecideKnowsTicket(cfg, req, t, turn);
    PassTrace(cfg, req, s, turn);
    PassAdvances(cfg, req, s, turn);
    if JustUncertain(t.trace) {
      RetryForgetsPerson(cfg, req, t, turn);
    }
  }

  /** Why a verdict submitted by the retry is handed over after all. */
  predicate BringsPersonBack(cfg: Config, e: Entry, turn: Turn)
    requires Succeeded(e)
  {
    NotesDoubt(e.args) || (e.answer.data.Dict? && e.answer.data.submitFailed) || Understood(cfg, turn.llm).Unavailable?
  }

  ghost predicate HandedOver(cfg: Config, trace: seq<Entry>, turn: Turn)
    requires EndsWithManualVerdict(trace)
  {
    SubmittedAtOnce(trace) || (|trace| < cfg.maxSteps && BringsPersonBack(cfg, trace[|trace| - 1], turn))
  }

  /** The state in which the decision about a retried verdict is taken. */
  lemma RetryObserved(cfg: Config, req: Request, s: State, turn: Turn)
    requires req.ticketId.Some? && Watched(cfg, req, s) && Calls(s, SubmitReview) && JustUncertain(s.trace)
    requires Succeeded(NewEntry(cfg, s, turn.answer))
    ensures var t, e := Observe(cfg.py, ToolCall(cfg, s, turn.answer)), NewEntry(cfg, s, turn.answer);
            && t.trace == s.trace + [e] && t.steps == |t.trace| && !t.plan.needHuman && t.case_.ticket.Some?
            && (t.case_.submitFailed == Some(true) <==> e.answer.data.Dict? && e.answer.data.submitFailed)
  {
  }

  lemma RetryHandedOverIff(cfg: Config, req: Request, t: State, turn: Turn)
    requires req.ticketId.Some? && AfterSafeCall(cfg, req, t) && SoundTrace(cfg, req, t.trace)
    requires EndsWithManualVerdict(t.trace) && !SubmittedAtOnce(t.trace)
    requires t.steps == |t.trace| && !t.plan.needHuman && t.case_.ticket.Some?
    requires var data := t.trace[|t.trace| - 1].answer.data; t.case_.submitFailed == Some(true) <==> data.Dict? && data.submitFailed
    ensures Route(DecideNext(cfg, req, t, turn).plan) == ToHuman <==> HandedOver(cfg, t.trace, turn)
  {
    if t.steps < cfg.maxSteps {
      RetriedDecision(cfg, req, t, turn);
    }
  }

  lemma PassHandsOverIff(cfg: Config, req: Request, s: State, turn: Turn)
    requires req.ticketId.Some? && Route(s.plan) == ToTool && Watched(cfg, req, s)
    requires EndsWithManualVerdict(Pass(cfg, req, s, turn).trace)
    ensures var t := Pass(cfg, req, s, turn); Route(t.plan) == ToHuman <==> HandedOver(cfg, t.trace, turn)
  {
    ObservedCall(cfg, s, turn.answer);
    PassKeeps(cfg, req, s, turn);
    if JustUncertain(s.trace) {
      PassRetries(cfg, req, s, turn);
    } else {
      PassHandsOver(cfg, req, s, turn);
    }
  }

  lemma PassRetries(cfg: Config, req: Request, s: State, turn: Turn)
    requires req.ticketId.Some? && Route(s.plan) == ToTool && Watched(cfg, req, s) && JustUncertain(s.trace)
    requires EndsWithManualVerdict(Pass(cfg, req, s, turn).trace)
    ensures var t := Pass(cfg, req, s, turn); Route(t.plan) == ToHuman <==> HandedOver(cfg, t.trace, turn)
  {
    var t := Observe(cfg.py, ToolCall(cfg, s, turn.answer));
    ObservedCall(cfg, s, turn.answer);
    PassTrace(cfg, req, s, turn);
    RetryObserved(cfg, req, s, turn);
    CallObserved(cfg, req, s, turn.answer);
    RetryHandedOverIff(cfg, req, t, turn);
  }

  lemma {:induction false} LoopHandsOver(cfg: Config, req: Request, s: State, turns: nat -> Turn, k: nat)
    requires req.ticketId.Some? && Watched(cfg, req, s) && Route(s.plan) == ToTool && k == |s.trace| + 1
    ensures var t := Loop(cfg, req, s, turns, k);
            && t.final == s.final && Route(t.plan) != ToTool
            && (EndsWithManualVerdict(t.trace) ==> (Route(t.plan) == ToHuman <==> HandedOver(cfg, t.trace, turns(|t.trace|))))
    decreases Remaining(cfg, s)
  {
    var t := Pass(cfg, req, s, turns(k));
    LoopStep(cfg, req, s, turns, k);
    PassAdvances(cfg, req, s, turns(k));
    PassWatched(cfg, req, s, turns(k));
    PassKeeps(cfg, req, s, turns(k));
    if Route(t.plan) == ToTool {
      LoopHandsOver(cfg, req, t, turns, k + 1);
    } else if EndsWithManualVerdict(t.trace) {
      PassHandsOverIff(cfg, req, s, turns(k));
    }
  }

  /** In every run with a ticket whose calls end with a successful verdict that is no approval, the run
      goes to a person exactly when that verdict was submitted at once, or else the step limit was not
      reached and the verdict notes an uncertainty, the answer is flagged as failed, or the model cannot
      word the reply. In every other case it replies. */
  lemma ManualVerdictHandedOverIff(cfg: Config, req: Request, turns: nat -> Turn)
    requires req.ticketId.Some? && EndsWithManualVerdict(LoopEnd(cfg, req, turns).trace)
    ensures var s := LoopEnd(cfg, req, turns);
            && RouteAfterPlan(s) != ToTool
            && (RouteAfterPlan(s) == ToHuman
                <==> || SubmittedAtOnce(s.trace)
                     || (&& |s.trace| < cfg.maxSteps
                         && BringsPersonBack(cfg, s.trace[|s.trace| - 1], turns(|s.trace|))))
  {
    var s := Planning(cfg, req, turns(0));
    assert Attentive(cfg, req, s) && s.trace == [];
    if RouteAfterPlan(s) == ToTool {
      assert Watched(cfg, req, s);
      LoopHandsOver(cfg, req, s, turns, 1);
    }
  }

  // ---------- A manual verdict that is not handed over ----------

  /** The three results of a case with good evidence and a risk reason. */
  ghost predicate RiskyTrace(cfg: Config, req: Request, trace: seq<Entry>) {
    && |trace| == 3 && trace[0].tool == GetTicket && trace[1].tool == ReviewImages && trace[2].tool == Retrieve
    && Succeeded(trace[0]) && Succeeded(trace[1]) && Succeeded(trace[2])
    && CompleteTicket(req, trace[0].answer.data) && !RiskFree(cfg, trace[0].answer.data.ticket, req.attachments)
    && GoodReview(cfg, trace[1].answer.data) && GoodKnowledge(cfg, trace[2].answer.data, trace[0].answer.data.ticket)
  }

  /** The verdict rests on the risk alone. */
  function RiskVerdict(wording: string): Body {
    Verdict(MANUAL, false, false, wording)
  }

  lemma RiskAct(cfg: Config, req: Request, g: State, wording: string)
    requires GoodRequest(req) && RiskyTrace(cfg, req, g.trace) && g.case_.attachments == req.attachments && g.case_.submitFailed.None?
    ensures TicketAct(cfg, req, g, wording) == Invoke(SubmitReview, RiskVerdict(wording), true)
  {
    var a, b, c := g.trace[0], g.trace[1], g.trace[2];
    assert g.trace == [a, b, c];
    forall tool: Tool
      ensures HasSuccess(g.trace, tool) <==> tool == GetTicket || tool == ReviewImages || tool == Retrieve
      ensures HasResult(g.trace, tool) <==> tool == GetTicket || tool == ReviewImages || tool == Retrieve
    {
      ThreeResults(a, b, c, tool);
    }
    ThreeResults(a, b, c, Retrieve);
    assert c in g.trace && IsKnowledge(c);
    BestKnowledgeHidesNothing(cfg, a.answer.data.ticket, g.trace);
  }

  lemma RiskChosen(cfg: Config, req: Request, t: State, turn: Turn)
    requires Observing(req, t) && GoodRequest(req) && Roomy(cfg) && RiskyTrace(cfg, req, t.trace) && NoRewriteAsked(cfg, turn)
    ensures DecideNext(cfg, req, t, turn) == Apply(req, Guarding(req, t), Invoke(SubmitReview, RiskVerdict(turn.wording), true))
  {
    RiskAct(cfg, req, Guarding(req, t), turn.wording);
    assert t.trace == [t.trace[0], t.trace[1], t.trace[2]];
    assert FollowUp(cfg, t, turn).None?;
    QuietDecision(cfg, req, t, turn, Invoke(SubmitReview, RiskVerdict(turn.wording), true));
  }

  lemma RiskFourth(cfg: Config, req: Request, s: State, turn: Turn)
    requires Roomy(cfg) && GoodRequest(req) && OnCourse(req, s, Retrieve) && |s.trace| == 2
    requires turn.answer.Done? && RiskyTrace(cfg, req, s.trace + [Entry(Retrieve, s.plan.args, true, turn.answer)])
    requires NoRewriteAsked(cfg, turn)
    ensures var t := Pass(cfg, req, s, turn);
            && OnCourse(req, t, SubmitReview) && t.trace == s.trace + [Entry(Retrieve, s.plan.args, true, turn.answer)]
            && t.plan.args.body == RiskVerdict(turn.wording) && t.plan.needHuman
            && t.plan.args == Stamp(req, t.case_, t.plan.args)
  {
    var trace := s.trace + [Entry(Retrieve, s.plan.args, true, turn.answer)];
    assert trace[0] == s.trace[0] && trace[1] == s.trace[1];
    CourseObserved(cfg, req, s, turn);
    RiskChosen(cfg, req, Observe(cfg.py, ToolCall(cfg, s, turn.answer)), turn);
  }

  /** The fast retry of a submission with a request number. */
  ghost predicate RetriesOnce(cfg: Config, req: Request) {
    cfg.maxDuplicates >= 2 && cfg.fastRetry && cfg.fastRetryMax >= 1 && req.requestId.Some?
  }

  /** The first submission of a run is about to be made, and there is room for a retry. */
  ghost predicate FirstSubmission(cfg: Config, req: Request, s: State) {
    && Calls(s, SubmitReview) && Sound(cfg, req, s) && (forall e <- s.trace :: e.tool != SubmitReview)
    && s.plan.args.ticket.Some? && s.plan.args == Stamp(req, s.case_, s.plan.args) && !s.final
    && s.steps == |s.trace| && |s.trace| + 1 < cfg.maxSteps && |s.trace| + 1 < cfg.maxToolCalls
  }

  lemma OneAttempt(trace: seq<Entry>, e: Entry)
    requires forall x <- trace :: x.tool != e.tool
    ensures Attempts(trace + [e], e.tool, e.args) == 1
  {
    NotYet(trace, e.tool, e.args);
    assert (trace + [e])[..|trace|] == trace;
  }

  /** The submission times out: it is planned again, and no person is planned. */
  lemma TimeoutIsRetried(cfg: Config, req: Request, s: State, turn: Turn)
    requires RetriesOnce(cfg, req) && FirstSubmission(cfg, req, s) && turn.answer == Failed(Timeout)
    ensures var t := Pass(cfg, req, s, turn);
            && t.trace == s.trace + [Entry(SubmitReview, s.plan.args, true, turn.answer)]
            && Calls(t, SubmitReview) && t.plan.args == s.plan.args && t.final == s.final
  {
    NotYet(s.trace, SubmitReview, s.plan.args);
    OneAttempt(s.trace, Entry(SubmitReview, s.plan.args, true, turn.answer));
  }

  /** The retry succeeds, which ends the loop. */
  lemma RetrySucceeds(cfg: Config, req: Request, s: State, turn: Turn)
    requires RetriesOnce(cfg, req) && req.ticketId.Some? && Sound(cfg, req, s) && Calls(s, SubmitReview)
    requires |s.trace| < cfg.maxToolCalls && Attempts(s.trace, SubmitReview, s.plan.args) == 1
    requires s.plan.args.ticket.Some? && turn.answer.Done?
    ensures var t := Pass(cfg, req, s, turn);
            && t.trace == s.trace + [Entry(SubmitReview, s.plan.args, true, turn.answer)]
            && Route(t.plan) != ToTool && t.final == s.final
  {
    var t := Pass(cfg, req, s, turn);
    PassTrace(cfg, req, s, turn);
    PassIsSafe(cfg, req, s, turn);
    assert t.trace[|s.trace|] == Entry(SubmitReview, s.plan.args, true, turn.answer);
    assert t.trace[|s.trace|] in t.trace;
  }

  /** A submission that times out and succeeds at the retry: the loop ends after two more calls. */
  lemma RetriedSubmission(cfg: Config, req: Request, s: State, turns: nat -> Turn, k: nat)
    requires RetriesOnce(cfg, req) && req.ticketId.Some? && FirstSubmission(cfg, req, s)
    requires turns(k).answer == Failed(Timeout) && turns(k + 1).answer.Done?
    ensures Loop(cfg, req, s, turns, k).trace
            == s.trace + [Entry(SubmitReview, s.plan.args, true, Failed(Timeout))]
               + [Entry(SubmitReview, s.plan.args, true, turns(k + 1).answer)]
  {
    var t := Pass(cfg, req, s, turns(k));
    TimeoutIsRetried(cfg, req, s, turns(k));
    PassIsSafe(cfg, req, s, turns(k));
    OneAttempt(s.trace, Entry(SubmitReview, s.plan.args, true, turns(k).answer));
    RetrySucceeds(cfg, req, t, turns(k + 1));
    LoopStep(cfg, req, s, turns, k);
    LoopStep(cfg, req, t, turns, k + 1);
  }

  lemma RetriedTrace(front: seq<Entry>, args: Args, answer: Answer, all: seq<Entry>)
    requires all == front + [Entry(SubmitReview, args, true, Failed(Timeout))] + [Entry(SubmitReview, args, true, answer)]
    requires answer.Done? && !Approves(args)
    ensures EndsWithManualVerdict(all) && !SubmittedAtOnce(all) && |all| == |front| + 2
    ensures all[|all| - 1] == Entry(SubmitReview, args, true, answer)
  {
    assert all[..|all| - 1] == front + [Entry(SubmitReview, args, true, Failed(Timeout))];
  }

  /** A run that ends so: its last verdict is a retried one. */
  lemma EndsRetried(cfg: Config, req: Request, s: State, turns: nat -> Turn, k: nat, end: State)
    requires RetriesOnce(cfg, req) && req.ticketId.Some? && FirstSubmission(cfg, req, s) && !Approves(s.plan.args)
    requires turns(k).answer == Failed(Timeout) && turns(k + 1).answer.Done? && LoopsTo(cfg, req, s, turns, k, end)
    ensures EndsWithManualVerdict(end.trace) && !SubmittedAtOnce(end.trace) && |end.trace| == |s.trace| + 2
    ensures end.trace[|end.trace| - 1] == Entry(SubmitReview, s.plan.args, true, turns(k + 1).answer)
  {
    assert Loop(cfg, req, s, turns, k) == end;
    RetriedSubmission(cfg, req, s, turns, k);
    RetriedTrace(s.trace, s.plan.args, turns(k + 1).answer, end.trace);
  }

  /** The loop of this run ends in `end`. Quantified so that the run is unfolded only where it is named. */
  ghost predicate EndsIn(cfg: Config, req: Request, turns: nat -> Turn, end: State) {
    forall r: Request :: r == req ==> LoopEnd(cfg, r, turns) == end
  }

  lemma HandedOverAtEnd(cfg: Config, req: Request, turns: nat -> Turn, end: State)
    requires req.ticketId.Some? && EndsIn(cfg, req, turns, end) && EndsWithManualVerdict(end.trace) && !SubmittedAtOnce(end.trace)
    requires !(|end.trace| < cfg.maxSteps && BringsPersonBack(cfg, end.trace[|end.trace| - 1], turns(|end.trace|)))
    ensures RouteAfterPlan(end) == ToReply
  {
    assert LoopEnd(cfg, req, turns) == end;
    ManualVerdictHandedOverIff(cfg, req, turns);
  }

  /** A verdict that is no approval, retried and not brought back, is answered by a reply. */
  lemma RetriedRunReplies(cfg: Config, req: Request, s: State, turns: nat -> Turn, end: State)
    requires RetriesOnce(cfg, req) && req.ticketId.Some? && FirstSubmission(cfg, req, s) && !Approves(s.plan.args)
    requires var k := |s.trace| + 1;
             && turns(k).answer == Failed(Timeout) && turns(k + 1).answer.Done?
             && LoopsTo(cfg, req, s, turns, k, end)
             && !(k + 1 < cfg.maxSteps
                  && BringsPersonBack(cfg, Entry(SubmitReview, s.plan.args, true, turns(k + 1).answer), turns(k + 1)))
    requires EndsIn(cfg, req, turns, end)
    ensures EndsWithManualVerdict(end.trace) && end.trace[|end.trace| - 1].args == s.plan.args && RouteAfterPlan(end) == ToReply
  {
    EndsRetried(cfg, req, s, turns, |s.trace| + 1, end);
    HandedOverAtEnd(cfg, req, turns, end);
  }

  /** What the tools answer: good evidence, a risk reason, a submission that times out once. */
  ghost predicate RiskyAnswers(cfg: Config, req: Request, turns: nat -> Turn) {
    && turns(1).answer.Done? && CompleteTicket(req, turns(1).answer.data)
    && !RiskFree(cfg, turns(1).answer.data.ticket, req.attachments)
    && turns(2).answer.Done? && GoodReview(cfg, turns(2).answer.data)
    && turns(3).answer.Done? && GoodKnowledge(cfg, turns(3).answer.data, turns(1).answer.data.ticket)
    && NoRewriteAsked(cfg, turns(3))
    && turns(4).answer == Failed(Timeout)
    && turns(5).answer.Done? && turns(5).answer.data.Dict? && !turns(5).answer.data.submitFailed
    && !Understood(cfg, turns(5).llm).Unavailable?
  }

  /** The first two calls have given their results, and the loop goes on from here. */
  ghost predicate TwoResults(cfg: Config, req: Request, turns: nat -> Turn, s: State, end: State) {
    && Sound(cfg, req, s) && LoopsTo(cfg, req, s, turns, 3, end) && OnCourse(req, s, Retrieve) && |s.trace| == 2
    && s.trace[0] == Entry(GetTicket, s.trace[0].args, true, turns(1).answer)
    && s.trace[1] == Entry(ReviewImages, s.trace[1].args, true, turns(2).answer)
  }

  lemma TwoCalls(cfg: Config, req: Request, turns: nat -> Turn, end: State) returns (s2: State)
    requires Roomy(cfg) && GoodRequest(req) && EndsIn(cfg, req, turns, end)
    requires turns(1).answer.Done? && CompleteTicket(req, turns(1).answer.data) && turns(2).answer.Done?
    ensures TwoResults(cfg, req, turns, s2, end)
  {
    var s0 := Planning(cfg, req, turns(0));
    TicketFirst(cfg, req, turns(0));
    FirstPlan(cfg, req, turns, end);
    var s1 := Pass(cfg, req, s0, turns(1));
    ImagesSecond(cfg, req, s0, turns(1));
    PassFollowed(cfg, req, s0, turns, 1, s1, end);
    s2 := Pass(cfg, req, s1, turns(2));
    SearchThird(cfg, req, s1, s1.trace[0], turns(2));
    PassFollowed(cfg, req, s1, turns, 2, s2, end);
  }

  lemma ThirdResult(cfg: Config, req: Request, turns: nat -> Turn, s2: State, end: State) returns (s3: State)
    requires Roomy(cfg) && GoodRequest(req) && RiskyAnswers(cfg, req, turns) && TwoResults(cfg, req, turns, s2, end)
    ensures LoopsTo(cfg, req, s3, turns, 4, end)
    ensures OnCourse(req, s3, SubmitReview) && RiskyTrace(cfg, req, s3.trace) && Sound(cfg, req, s3)
    ensures s3.plan.args.body == RiskVerdict(turns(3).wording) && s3.plan.args == Stamp(req, s3.case_, s3.plan.args)
  {
    RiskFourth(cfg, req, s2, turns(3));
    s3 := Pass(cfg, req, s2, turns(3));
    PassFollowed(cfg, req, s2, turns, 3, s3, end);
  }

  lemma RiskyFirst(cfg: Config, req: Request, s: State)
    requires Roomy(cfg) && cfg.maxToolCalls >= 5 && OnCourse(req, s, SubmitReview) && RiskyTrace(cfg, req, s.trace) && Sound(cfg, req, s)
    requires s.plan.args == Stamp(req, s.case_, s.plan.args)
    ensures FirstSubmission(cfg, req, s)
  {
    assert s.trace == [s.trace[0], s.trace[1], s.trace[2]];
  }

  lemma FirstPlan(cfg: Config, req: Request, turns: nat -> Turn, end: State)
    requires req.ticketId.Some? && EndsIn(cfg, req, turns, end) && RouteAfterPlan(Planning(cfg, req, turns(0))) == ToTool
    ensures Sound(cfg, req, Planning(cfg, req, turns(0))) && LoopsTo(cfg, req, Planning(cfg, req, turns(0)), turns, 1, end)
  {
    assert LoopEnd(cfg, req, turns) == end;
  }

  lemma PassFollowed(cfg: Config, req: Request, s: State, turns: nat -> Turn, k: nat, next: State, end: State)
    requires req.ticketId.Some? && Route(s.plan) == ToTool && Sound(cfg, req, s) && LoopsTo(cfg, req, s, turns, k, end)
    requires Follows(cfg, req, turns, k, s, next)
    ensures Sound(cfg, req, next) && LoopsTo(cfg, req, next, turns, k + 1, end)
  {
    PassIsSafe(cfg, req, s, turns(k));
    LoopGoesOn(cfg, req, s, turns, k, end);
  }

  lemma RiskyRun(cfg: Config, req: Request, turns: nat -> Turn, end: State)
    requires Roomy(cfg) && cfg.maxToolCalls >= 5 && RetriesOnce(cfg, req) && GoodRequest(req) && RiskyAnswers(cfg, req, turns)
    requires EndsIn(cfg, req, turns, end)
    ensures EndsWithManualVerdict(end.trace) && RouteAfterPlan(end) == ToReply
  {
    var s2 := TwoCalls(cfg, req, turns, end);
    var s := ThirdResult(cfg, req, turns, s2, end);
    RiskyFirst(cfg, req, s);
    RetriedRunReplies(cfg, req, s, turns, end);
  }

  /** A run in which a person is needed and none is called: good evidence, a refund above the limit, and a
      submission that times out and succeeds at the retry. The manual verdict is in, the run replies. */
  lemma RiskVerdictNotHandedOver(cfg: Config, req: Request, turns: nat -> Turn)
    requires Roomy(cfg) && cfg.maxToolCalls >= 5 && RetriesOnce(cfg, req) && GoodRequest(req) && RiskyAnswers(cfg, req, turns)
    ensures EndsWithManualVerdict(LoopEnd(cfg, req, turns).trace) && RouteAfterPlan(LoopEnd(cfg, req, turns)) == ToReply
  {
    RiskyRun(cfg, req, turns, LoopEnd(cfg, req, turns));
  }

  // ---------- A doubtful verdict at the step limit ----------

  /** A ticket without a policy version is refused at once, on three steps, and the submission times out. */
  ghost predicate NoPolicyVersion(cfg: Config, req: Request, turns: nat -> Turn) {
    && cfg.maxSteps == 3 && cfg.maxToolCalls >= 3
    && req.ticketId.Some? && req.fromKafka && req.hasMessage && req.attachments == []
    && turns(1).answer.Done? && Pending(turns(1).answer.data)
    && WithoutVersion(turns(1).answer.data.ticket)
    && turns(2).answer == Failed(Timeout) && turns(3).answer.Done?
  }

  predicate WithoutVersion(t: Ticket) {
    t.merchant != "" && t.policyVersion == "" && !t.appliedAt.Missing? && t.evidence == [] && t.uploadedImages
  }

  lemma OneResult(e: Entry, tool: Tool)
    requires Succeeded(e)
    ensures Latest([e], tool) == if e.tool == tool then Some(e.answer.data) else None
    ensures (HasResult([e], tool) <==> e.tool == tool) && (HasSuccess([e], tool) <==> e.tool == tool)
  {
    assert [] + [e] == [e];
    LatestOfLast([], e, tool);
  }

  /** With nothing but such a ticket, the guard submits a verdict that notes the missing policy. */
  lemma VersionMissed(cfg: Config, req: Request, g: State, e: Entry, wording: string)
    requires req.ticketId.Some? && g.trace == [e] && e.tool == GetTicket && Succeeded(e)
    requires Pending(e.answer.data) && WithoutVersion(e.answer.data.ticket)
    requires g.case_.attachments == [] && g.case_.submitFailed.None?
    ensures TicketAct(cfg, req, g, wording) == ManualVerdict(false, true, wording)
  {
    forall tool: Tool
      ensures HasResult(g.trace, tool) <==> tool == GetTicket
      ensures HasSuccess(g.trace, tool) <==> tool == GetTicket
    {
      OneResult(e, tool);
    }
    OneResult(e, GetTicket);
    assert PolicySearchAct(e.answer.data.ticket, wording) == ManualVerdict(false, true, wording);
  }

  lemma VerdictChosen(cfg: Config, req: Request, t: State, turn: Turn)
    requires Observing(req, t) && req.ticketId.Some? && req.fromKafka && req.attachments == [] && t.steps < cfg.maxSteps
    requires |t.trace| == 1 && t.trace[0].tool == GetTicket && Succeeded(t.trace[0])
    requires Pending(t.trace[0].answer.data) && WithoutVersion(t.trace[0].answer.data.ticket)
    ensures DecideNext(cfg, req, t, turn) == Apply(req, Guarding(req, t), ManualVerdict(false, true, turn.wording))
  {
    assert t.trace == [t.trace[0]];
    VersionMissed(cfg, req, Guarding(req, t), t.trace[0], turn.wording);
    QuietDecision(cfg, req, t, turn, ManualVerdict(false, true, turn.wording));
  }

  lemma TicketPlanned(cfg: Config, req: Request, turns: nat -> Turn)
    requires NoPolicyVersion(cfg, req, turns)
    ensures var s := Planning(cfg, req, turns(0));
            && RouteAfterPlan(s) == ToTool && OnCourse(req, s, GetTicket) && s.trace == [] && Sound(cfg, req, s)
  {
  }

  lemma TicketObserved(cfg: Config, req: Request, s: State, turn: Turn)
    requires cfg.maxToolCalls >= 3 && cfg.maxDuplicates >= 1 && req.attachments == [] && OnCourse(req, s, GetTicket) && s.trace == []
    requires turn.answer.Done? && Pending(turn.answer.data) && WithoutVersion(turn.answer.data.ticket)
    ensures var t := Observe(cfg.py, ToolCall(cfg, s, turn.answer));
            Observing(req, t) && t.trace == [Entry(GetTicket, s.plan.args, true, turn.answer)]
  {
  }

  lemma VerdictPlanned(cfg: Config, req: Request, s: State, turn: Turn)
    requires RetriesOnce(cfg, req) && cfg.maxSteps == 3 && cfg.maxToolCalls >= 3
    requires req.ticketId.Some? && req.fromKafka && req.attachments == [] && OnCourse(req, s, GetTicket) && s.trace == []
    requires turn.answer.Done? && Pending(turn.answer.data) && WithoutVersion(turn.answer.data.ticket)
    ensures var t := Pass(cfg, req, s, turn);
            && t.trace == [Entry(GetTicket, s.plan.args, true, turn.answer)] && t.steps == 1 && !t.final
            && Calls(t, SubmitReview) && t.plan.args == Stamp(req, t.case_, t.plan.args) && t.plan.args.ticket.Some?
            && t.plan.args.body == Verdict(MANUAL, false, true, turn.wording)
  {
    TicketObserved(cfg, req, s, turn);
    VerdictChosen(cfg, req, Observe(cfg.py, ToolCall(cfg, s, turn.answer)), turn);
  }

  lemma TicketThenVerdict(cfg: Config, req: Request, turns: nat -> Turn, end: State) returns (s: State)
    requires RetriesOnce(cfg, req) && NoPolicyVersion(cfg, req, turns) && EndsIn(cfg, req, turns, end)
    ensures FirstSubmission(cfg, req, s) && LoopsTo(cfg, req, s, turns, 2, end)
    ensures |s.trace| == 1 && s.plan.args.body == Verdict(MANUAL, false, true, turns(1).wording)
  {
    var s0 := Planning(cfg, req, turns(0));
    TicketPlanned(cfg, req, turns);
    FirstPlan(cfg, req, turns, end);
    VerdictPlanned(cfg, req, s0, turns(1));
    s := Pass(cfg, req, s0, turns(1));
    PassFollowed(cfg, req, s0, turns, 1, s, end);
  }

  lemma DoubtfulRun(cfg: Config, req: Request, turns: nat -> Turn, end: State)
    requires RetriesOnce(cfg, req) && NoPolicyVersion(cfg, req, turns) && EndsIn(cfg, req, turns, end)
    ensures EndsWithManualVerdict(end.trace) && NotesDoubt(end.trace[|end.trace| - 1].args) && RouteAfterPlan(end) == ToReply
  {
    var s := TicketThenVerdict(cfg, req, turns, end);
    RetriedRunReplies(cfg, req, s, turns, end);
  }

  /** The verdict notes the missing policy, and still the run replies: the retry succeeds on the last step. */
  lemma DoubtfulVerdictAtStepLimit(cfg: Config, req: Request, turns: nat -> Turn)
    requires RetriesOnce(cfg, req) && NoPolicyVersion(cfg, req, turns)
    ensures var s := LoopEnd(cfg, req, turns);
            && EndsWithManualVerdict(s.trace) && NotesDoubt(s.trace[|s.trace| - 1].args) && RouteAfterPlan(s) == ToReply
  {
    DoubtfulRun(cfg, req, turns, LoopEnd(cfg, req, turns));
  }
}
