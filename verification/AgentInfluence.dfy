/**
 What the language model decides in a run. It speaks twice over: as planner and decider, and as the
 evaluator of retrieval results. In a run with a ticket or attachments the planner and decider have no
 part in the calls. The evaluator is heard after the first usable search and after a multi-query
 search, and can then ask for one multi-query search or end the loop in a transfer, nothing else.
 */
module AgentInfluence {
  import opened Wrappers
  import opened RagRewrite
  import opened AgentWorkflow
  import opened AgentApproval
  import opened AgentBounds
  import opened AgentRetrieval

  // ---------- One decision ----------

  /** Two answers that may differ in everything the language model says. */
  predicate SameButModel(a: Turn, b: Turn) {
    a.answer == b.answer && a.wording == b.wording
  }

  /** The two states lead to no call, or are the same. */
  predicate SameCall(p: State, q: State) {
    Route(p.plan) == ToTool || Route(q.plan) == ToTool ==> p == q
  }

  /** The next call is a multi-query search that adds queries to the last search and changes nothing else. */
  predicate PlansRephrasing(p: State)
    requires p.trace != []
  {
    var e := p.trace[|p.trace| - 1];
    && Route(p.plan) == ToTool && p.plan.tool == Some(RetrieveMulti) && e.tool == Retrieve
    && p.plan.args.body.MultiSearch? && p.plan.args.body.original == OriginalOf(e) && p.plan.args.body.filters == FiltersOf(e)
    && p.plan.args == e.args.(body := p.plan.args.body)
  }

  /** The model's reply cannot become a call, and cannot replace one. */
  lemma ClosingPicksNoTool(cfg: Config, req: Request, s: State, a: Turn, b: Turn)
    requires SameButModel(a, b)
    ensures SameCall(GuardedStep(cfg, req, s, a), GuardedStep(cfg, req, s, b))
    ensures GuardedStep(cfg, req, s, a).trace == s.trace
  {
  }

  /** The last call was made with the identifiers of the case. */
  predicate Stamped(req: Request, s: State)
    requires s.trace != []
  {
    s.trace[|s.trace| - 1].args == Stamp(req, s.case_, s.trace[|s.trace| - 1].args)
  }

  lemma RephrasingPlanned(req: Request, s: State, d: Decision)
    requires s.trace != [] && s.trace[|s.trace| - 1].tool == Retrieve && Stamped(req, s)
    ensures var p := Apply(req, s, MultiAct(s.trace[|s.trace| - 1], d));
            PlansRephrasing(p) && p == s.(plan := Plan(CallTool, Some(RetrieveMulti), p.plan.args, false))
  {
  }

  /** What the evaluator can bring about. */
  lemma EvaluatorsChoices(cfg: Config, req: Request, s: State, turn: Turn)
    requires s.trace != [] && Stamped(req, s)
    ensures var p := FollowUpStep(cfg, req, s, turn);
            && p.trace == s.trace
            && (|| (Evaluates(s) && PlansRephrasing(p)
                    && p == s.(retrieval := RetrievalAfterFollowUp(s), plan := Plan(CallTool, Some(RetrieveMulti), p.plan.args, false)))
                || Route(p.plan) == ToHuman
                || p == GuardedStep(cfg, req, s.(retrieval := RetrievalAfterFollowUp(s)), turn))
  {
    FollowUpTool(cfg, s, turn);
    var t, a := s.(retrieval := RetrievalAfterFollowUp(s)), FollowUp(cfg, s, turn);
    if a.Some? && a.value != HAND_OVER {
      RephrasingPlanned(req, t, Evaluate(cfg, turn, FirstQuestion(cfg, s)).value);
    }
  }

  lemma UnaskedFollowUp(cfg: Config, req: Request, s: State, a: Turn, b: Turn)
    requires s.trace != [] && SameButModel(a, b) && !Evaluates(s)
    ensures SameCall(FollowUpStep(cfg, req, s, a), FollowUpStep(cfg, req, s, b))
  {
    assert FollowUp(cfg, s, a) == FollowUp(cfg, s, b);
    ClosingPicksNoTool(cfg, req, s.(retrieval := RetrievalAfterFollowUp(s)), a, b);
  }

  // ---------- Usable searches ----------

  /** A search result the evaluator can be asked about. */
  predicate Usable(e: Entry) {
    IsKnowledge(e) && !e.answer.data.knowledge.infrastructureFailure
  }

  ghost predicate UsableSearch(trace: seq<Entry>) {
    exists e <- trace :: e.tool == Retrieve && Usable(e)
  }

  /** The evaluator is asked about the last result: the first usable search, or a multi-query search. */
  ghost predicate Heard(trace: seq<Entry>) {
    && trace != [] && Usable(trace[|trace| - 1])
    && (trace[|trace| - 1].tool == RetrieveMulti || !UsableSearch(trace[..|trace| - 1]))
  }

  /** The next call carries the identifiers of the case, and a usable search was evaluated. */
  ghost predicate Tracked(req: Request, s: State) {
    Route(s.plan) == ToTool ==>
      s.plan.args == Stamp(req, s.case_, s.plan.args) && (UsableSearch(s.trace) ==> s.retrieval.rewritten)
  }

  lemma StampedTwice(req: Request, c: Case, args: Args)
    ensures Stamp(req, c, Stamp(req, c, args)) == Stamp(req, c, args)
  {
  }

  /** The state in which the decision about a call is taken. */
  ghost predicate TrackedCall(req: Request, s: State) {
    && s.trace != [] && s.last == Some(Observed(s.trace[|s.trace| - 1]))
    && (UsableSearch(s.trace[..|s.trace| - 1]) ==> s.retrieval.rewritten)
    && (s.trace[|s.trace| - 1].tool != GetTicket ==> Stamped(req, s))
  }

  lemma CallIsTracked(cfg: Config, req: Request, s: State, answer: Answer)
    requires Route(s.plan) == ToTool && Tracked(req, s)
    ensures var t := Observe(cfg.py, ToolCall(cfg, s, answer));
            TrackedCall(req, t) && t.trace == s.trace + [NewEntry(cfg, s, answer)]
  {
    ObservedCall(cfg, s, answer);
    ObservedSearch(cfg, s, answer);
  }

  lemma UsableSearchGrows(trace: seq<Entry>)
    requires trace != []
    ensures UsableSearch(trace)
            <==> UsableSearch(trace[..|trace| - 1]) || (trace[|trace| - 1].tool == Retrieve && Usable(trace[|trace| - 1]))
  {
    assert trace == trace[..|trace| - 1] + [trace[|trace| - 1]];
  }

  lemma FollowUpIsTracked(cfg: Config, req: Request, s: State, turn: Turn)
    requires TrackedCall(req, s)
    ensures Tracked(req, FollowUpStep(cfg, req, s, turn)) && FollowUpStep(cfg, req, s, turn).trace == s.trace
  {
    UsableSearchGrows(s.trace);
    var t := s.(retrieval := RetrievalAfterFollowUp(s));
    if FollowUp(cfg, s, turn).Some? {
      StampedTwice(req, t.case_, FollowUp(cfg, s, turn).value.args);
    } else {
      var g := t.(case_ := CaseForGuard(req, t));
      StampedTwice(req, g.case_, GuardedAct(cfg, req, g, turn.wording).args);
    }
  }

  lemma FailureIsTracked(cfg: Config, req: Request, s: State, wording: string)
    requires TrackedCall(req, s) && s.last.value.kind.Some? && FailureAct(cfg, req, s, wording).Some?
    ensures var t := Apply(req, AfterFailureMark(cfg, s), FailureAct(cfg, req, s, wording).value);
            Tracked(req, t) && t.trace == s.trace
  {
    UsableSearchGrows(s.trace);
    StampedTwice(req, s.case_, FailureAct(cfg, req, s, wording).value.args);
  }

  lemma DecisionIsTracked(cfg: Config, req: Request, s: State, turn: Turn)
    requires TrackedCall(req, s)
    ensures Tracked(req, DecideNext(cfg, req, s, turn)) && DecideNext(cfg, req, s, turn).trace == s.trace
  {
    FollowUpIsTracked(cfg, req, s, turn);
    if s.last.value.kind.Some? && FailureAct(cfg, req, s, turn.wording).Some? {
      FailureIsTracked(cfg, req, s, turn.wording);
    }
  }

  // ---------- Two decisions compared ----------

  /** How two decisions about one trace come apart: the evaluator is asked, they lead to different calls
      or only one to a call, and one of them searches again or gives up. */
  ghost predicate ComeApart(p: State, q: State)
    requires p.trace == q.trace != []
  {
    && Heard(p.trace)
    && !(Route(p.plan) == ToTool && Route(q.plan) == ToTool && p.plan.tool == q.plan.tool && p.plan.args == q.plan.args)
    && !(Route(p.plan) != ToTool && Route(q.plan) != ToTool)
    && (PlansRephrasing(p) || PlansRephrasing(q) || Route(p.plan) == ToHuman || Route(q.plan) == ToHuman)
  }

  lemma EvaluatedIsHeard(req: Request, s: State)
    requires TrackedCall(req, s) && Evaluates(s)
    ensures Heard(s.trace) && Stamped(req, s)
  {
  }

  lemma FollowUpsCompared(cfg: Config, req: Request, s: State, a: Turn, b: Turn)
    requires TrackedCall(req, s) && SameButModel(a, b)
    ensures var p, q := FollowUpStep(cfg, req, s, a), FollowUpStep(cfg, req, s, b);
            p.trace == q.trace == s.trace && (SameCall(p, q) || ComeApart(p, q))
  {
    FollowUpIsTracked(cfg, req, s, a);
    FollowUpIsTracked(cfg, req, s, b);
    if Evaluates(s) {
      EvaluatedIsHeard(req, s);
      EvaluatorsChoices(cfg, req, s, a);
      EvaluatorsChoices(cfg, req, s, b);
      var t := s.(retrieval := RetrievalAfterFollowUp(s));
      ClosingPicksNoTool(cfg, req, t, a, b);
      GuardedStepIsFrugal(cfg, req, t, a);
      GuardedStepIsFrugal(cfg, req, t, b);
    } else {
      UnaskedFollowUp(cfg, req, s, a, b);
    }
  }

  lemma DecisionsCompared(cfg: Config, req: Request, s: State, a: Turn, b: Turn)
    requires TrackedCall(req, s) && SameButModel(a, b)
    ensures var p, q := DecideNext(cfg, req, s, a), DecideNext(cfg, req, s, b);
            p.trace == q.trace == s.trace && (SameCall(p, q) || ComeApart(p, q))
  {
    FollowUpsCompared(cfg, req, s, a, b);
  }

  lemma PassesCompared(cfg: Config, req: Request, s: State, a: Turn, b: Turn)
    requires Route(s.plan) == ToTool && Tracked(req, s) && SameButModel(a, b)
    ensures var p, q := Pass(cfg, req, s, a), Pass(cfg, req, s, b);
            p.trace == q.trace != [] && (SameCall(p, q) || ComeApart(p, q)) && Tracked(req, p) && Tracked(req, q)
  {
    var t := Observe(cfg.py, ToolCall(cfg, s, a.answer));
    CallIsTracked(cfg, req, s, a.answer);
    DecisionIsTracked(cfg, req, t, a);
    DecisionIsTracked(cfg, req, t, b);
    DecisionsCompared(cfg, req, t, a, b);
  }

  // ---------- Two runs compared ----------

  /** After n calls the run makes a multi-query search that adds queries to the last search. */
  predicate Rephrased(s: State, n: nat) {
    && 0 < n < |s.trace| && s.trace[n - 1].tool == Retrieve && s.trace[n].tool == RetrieveMulti
    && var e, f := s.trace[n - 1], s.trace[n];
       && f.args.body.MultiSearch? && f.args.body.original == OriginalOf(e) && f.args.body.filters == FiltersOf(e)
       && f.args == e.args.(body := f.args.body)
  }

  /** After n calls the run is handed to a person. */
  predicate GaveUp(s: State, n: nat) {
    |s.trace| == n && RouteAfterPlan(s) == ToHuman
  }

  function CallAfter(s: State, n: nat): Option<Entry> {
    if n < |s.trace| then Some(s.trace[n]) else None
  }

  /** Two runs that make the same first n calls with the same results and then part, where the evaluator
      is asked: one of them searches again with more queries, or gives up. */
  ghost predicate Parted(x: State, y: State, n: nat) {
    && n <= |x.trace| && n <= |y.trace| && x.trace[..n] == y.trace[..n] && CallAfter(x, n) != CallAfter(y, n)
    && Heard(x.trace[..n])
    && (Rephrased(x, n) || Rephrased(y, n) || GaveUp(x, n) || GaveUp(y, n))
  }

  /** What is planned is the next call. */
  predicate MakesCall(x: State, p: State)
    requires Route(p.plan) == ToTool
  {
    |x.trace| > |p.trace| && x.trace[|p.trace|].tool == p.plan.tool.value && x.trace[|p.trace|].args == p.plan.args
  }

  /** The loop makes the planned call first and never unmakes one. */
  lemma {:induction false} LoopGoesThrough(cfg: Config, req: Request, s: State, turns: nat -> Turn, k: nat, end: State)
    requires LoopsTo(cfg, req, s, turns, k, end)
    ensures s.trace <= end.trace && (if Route(s.plan) != ToTool then end == s else MakesCall(end, s))
    decreases Remaining(cfg, s), if Route(s.plan) == ToTool then 1 else 0
  {
    if Route(s.plan) == ToTool {
      PassTrace(cfg, req, s, turns(k));
      LoopGoesOn(cfg, req, s, turns, k, end);
      LoopGoesThrough(cfg, req, Pass(cfg, req, s, turns(k)), turns, k + 1, end);
    } else {
      LoopIsOver(cfg, req, s, turns, k, end);
    }
  }

  /** Where two decisions come apart, the runs part. */
  lemma RunsPart(p: State, q: State, x: State, y: State)
    requires p.trace == q.trace != [] && ComeApart(p, q) && !p.final && !q.final
    requires p.trace <= x.trace && (if Route(p.plan) != ToTool then x == p else MakesCall(x, p))
    requires q.trace <= y.trace && (if Route(q.plan) != ToTool then y == q else MakesCall(y, q))
    ensures Parted(x, y, |p.trace|)
  {
    assert x.trace[..|p.trace|] == p.trace && y.trace[..|p.trace|] == p.trace;
  }

  lemma {:induction false} LoopsCompared(cfg: Config, req: Request, s: State, a: nat -> Turn, b: nat -> Turn, k: nat,
                                         x: State, y: State)
    requires Tracked(req, s) && !s.final && forall i: nat :: SameButModel(a(i), b(i))
    requires LoopsTo(cfg, req, s, a, k, x) && LoopsTo(cfg, req, s, b, k, y)
    ensures x.trace == y.trace || exists n: nat :: Parted(x, y, n)
    decreases Remaining(cfg, s), if Route(s.plan) == ToTool then 1 else 0
  {
    if Route(s.plan) == ToTool {
      PassesCompared(cfg, req, s, a(k), b(k));
      LoopGoesOn(cfg, req, s, a, k, x);
      LoopGoesOn(cfg, req, s, b, k, y);
      PassTrace(cfg, req, s, a(k));
      PassTrace(cfg, req, s, b(k));
      AfterPasses(cfg, req, Pass(cfg, req, s, a(k)), Pass(cfg, req, s, b(k)), a, b, k + 1, x, y);
      if Route(Pass(cfg, req, s, a(k)).plan) == ToTool && Pass(cfg, req, s, a(k)) == Pass(cfg, req, s, b(k)) {
        LoopsCompared(cfg, req, Pass(cfg, req, s, a(k)), a, b, k + 1, x, y);
      }
    } else {
      LoopIsOver(cfg, req, s, a, k, x);
      LoopIsOver(cfg, req, s, b, k, y);
    }
  }

  /** After a pass, the runs go on from one state, are over, or part. */
  lemma AfterPasses(cfg: Config, req: Request, p: State, q: State, a: nat -> Turn, b: nat -> Turn, k: nat, x: State, y: State)
    requires p.trace == q.trace != [] && !p.final && !q.final && (SameCall(p, q) || ComeApart(p, q))
    requires LoopsTo(cfg, req, p, a, k, x) && LoopsTo(cfg, req, q, b, k, y)
    ensures (p == q && Route(p.plan) == ToTool) || x.trace == y.trace || exists n: nat :: Parted(x, y, n)
  {
    LoopGoesThrough(cfg, req, p, a, k, x);
    LoopGoesThrough(cfg, req, q, b, k, y);
    if ComeApart(p, q) {
      RunsPart(p, q, x, y);
    }
  }

  /** In a run with a ticket or attachments, whatever the model says in all its parts: two runs with the
      same tool results make the same calls, except that after a result the evaluator is asked about,
      the first usable search or a multi-query search, one of them may search once more with added
      queries or be handed to a person. */
  lemma ModelOnlyJudgesRetrieval(cfg: Config, req: Request, a: nat -> Turn, b: nat -> Turn)
    requires (forall i: nat :: SameButModel(a(i), b(i))) && (req.ticketId.Some? || req.attachments != [])
    ensures var x, y := LoopEnd(cfg, req, a), LoopEnd(cfg, req, b);
            x.trace == y.trace || exists n: nat :: Parted(x, y, n)
  {
    var s := Planning(cfg, req, a(0));
    assert SameButModel(a(0), b(0)) && Planning(cfg, req, b(0)) == s;
    if RouteAfterPlan(s) == ToTool {
      assert Tracked(req, s);
      LoopsCompared(cfg, req, s, a, b, 1, LoopEnd(cfg, req, a), LoopEnd(cfg, req, b));
    }
  }

  // ---------- Planner and decider alone ----------

  /** Two sequences of answers that may differ in what the planner and the decider answer. */
  ghost predicate SameButReplies(a: nat -> Turn, b: nat -> Turn) {
    forall k: nat :: a(k).(llm := Unavailable) == b(k).(llm := Unavailable)
  }

  /** If a decision leads to another call, the decider had no part in it; and it cannot turn a closing
      decision into a call. */
  lemma DeciderPicksNoTool(cfg: Config, req: Request, s: State, turn: Turn, other: LlmAnswer)
    requires s.trace != [] && s.last.Some?
    ensures SameCall(DecideNext(cfg, req, s, turn), DecideNext(cfg, req, s, turn.(llm := other)))
  {
    var u := turn.(llm := other);
    assert FollowUp(cfg, s, turn) == FollowUp(cfg, s, u);
    ClosingPicksNoTool(cfg, req, s.(retrieval := RetrievalAfterFollowUp(s)), turn, u);
  }

  lemma {:induction false} LoopIgnoresReplies(cfg: Config, req: Request, s: State, a: nat -> Turn, b: nat -> Turn, k: nat)
    requires SameButReplies(a, b)
    ensures Loop(cfg, req, s, a, k).trace == Loop(cfg, req, s, b, k).trace
    decreases Remaining(cfg, s), if Route(s.plan) == ToTool then 1 else 0
  {
    if Route(s.plan) == ToTool {
      assert b(k) == a(k).(llm := b(k).llm);
      DeciderPicksNoTool(cfg, req, Observe(cfg.py, ToolCall(cfg, s, a(k).answer)), a(k), b(k).llm);
      PassTrace(cfg, req, s, a(k));
      PassTrace(cfg, req, s, b(k));
      PassAdvances(cfg, req, s, a(k));
      if Route(Pass(cfg, req, s, a(k)).plan) == ToTool {
        LoopIgnoresReplies(cfg, req, Pass(cfg, req, s, a(k)), a, b, k + 1);
      }
    }
  }

  /** With a ticket or attachments, the calls made, their arguments and their results do not depend on
      what the planner and the decider answer, as long as the evaluator answers the same. */
  lemma RepliesCannotSteer(cfg: Config, req: Request, a: nat -> Turn, b: nat -> Turn)
    requires SameButReplies(a, b) && (req.ticketId.Some? || req.attachments != [])
    ensures LoopEnd(cfg, req, a).trace == LoopEnd(cfg, req, b).trace
  {
    assert b(0) == a(0).(llm := b(0).llm);
    var s := Planning(cfg, req, a(0));
    assert Planning(cfg, req, b(0)) == s;
    if RouteAfterPlan(s) == ToTool {
      LoopIgnoresReplies(cfg, req, s, a, b, 1);
    }
  }
}
