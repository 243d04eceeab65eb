/**
 Retrieval in a run of the agent graph: at most one multi-query search, at most two evaluations by the
 model, and rewritten queries that were never searched before.
 */
module AgentRetrieval {
  import opened Wrappers
  import opened RagRewrite
  import opened AgentWorkflow

  ghost predicate AllNormal(queries: seq<string>) {
    forall q <- queries :: Normal(q) && q != ""
  }

  /** This query, up to whitespace and case, is among the ones remembered. */
  ghost predicate Remembered(py: Python, queries: seq<string>, raw: string) {
    Normalize(raw) != "" ==> py.fold(Normalize(raw)) in FoldedOf(py, queries)
  }

  /** Every search so far is remembered. */
  ghost predicate AllRemembered(py: Python, queries: seq<string>, trace: seq<Entry>) {
    forall e <- trace :: (e.tool == Retrieve || e.tool == RetrieveMulti)
      ==> forall q <- QueriesIn(e) :: Remembered(py, queries, q)
  }

  /** The queries of a multi-query search: one to three, well formed, pairwise different, and different
      from everything searched before, all up to whitespace and case. */
  ghost predicate NewQueries(py: Python, before: seq<Entry>, args: Args) {
    && args.body.MultiSearch?
    && 1 <= |args.body.queries| <= 3
    && (forall q <- args.body.queries :: ValidQuery(py, q) && Normal(q))
    && (forall i, j :: 0 <= i < j < |args.body.queries| ==> py.fold(args.body.queries[i]) != py.fold(args.body.queries[j]))
    && (forall e <- before :: (e.tool == Retrieve || e.tool == RetrieveMulti)
          ==> forall q <- QueriesIn(e) :: NotAmong(py, args.body.queries, q))
  }

  ghost predicate NotAmong(py: Python, queries: seq<string>, raw: string) {
    Normalize(raw) != "" ==> forall q <- queries :: py.fold(q) != py.fold(Normalize(raw))
  }

  // ---------- Remembering queries ----------

  lemma FoldedOfNormal(py: Python, queries: seq<string>, query: string)
    requires query in queries && Normal(query) && query != ""
    ensures py.fold(query) in FoldedOf(py, queries)
  {
    NormalIffFixed(query);
  }

  /** The memory after one more query. */
  function AddQuery(py: Python, known: seq<string>, query: string): seq<string> {
    if query != "" && forall q <- known :: py.fold(q) != py.fold(query) then known + [query] else known
  }

  lemma AddQueryRemembers(py: Python, known: seq<string>, raw: string)
    requires AllNormal(known)
    ensures var next := AddQuery(py, known, Normalize(raw));
            AllNormal(next) && FoldedOf(py, known) <= FoldedOf(py, next) && Remembered(py, next, raw)
  {
    var query := Normalize(raw);
    var next := AddQuery(py, known, query);
    NormalizeKeepsWords(raw);
    if query != "" {
      var same :| same in next && py.fold(same) == py.fold(query);
      FoldedOfNormal(py, next, same);
    }
    FoldedGrows(py, known, next);
  }

  lemma {:induction false} AddQueriesRemembers(py: Python, known: seq<string>, raws: seq<string>)
    requires AllNormal(known)
    ensures AllNormal(AddQueries(py, known, raws))
    ensures FoldedOf(py, known) <= FoldedOf(py, AddQueries(py, known, raws))
    ensures forall raw <- raws :: Remembered(py, AddQueries(py, known, raws), raw)
    decreases |raws|
  {
    if raws != [] {
      var next := AddQuery(py, known, Normalize(raws[0]));
      AddQueryRemembers(py, known, raws[0]);
      AddQueriesRemembers(py, next, raws[1..]);
      assert raws == [raws[0]] + raws[1..];
    }
  }

  lemma FoldedGrows(py: Python, known: seq<string>, more: seq<string>)
    requires forall q <- known :: q in more
    ensures FoldedOf(py, known) <= FoldedOf(py, more)
  {
  }

  lemma ObserveRemembers(py: Python, r: Retrieval, trace: seq<Entry>, e: Entry)
    requires AllNormal(r.queries) && AllRemembered(py, r.queries, trace)
    ensures var after := RetrievalAfter(py, r, e);
            AllNormal(after.queries) && AllRemembered(py, after.queries, trace + [e])
            && after.rewritten == r.rewritten && after.evaluations == r.evaluations
  {
    AddQueriesRemembers(py, r.queries, QueriesIn(e));
  }

  // ---------- Rewrites ----------

  lemma RewriteIsNew(cfg: Config, s: State, turn: Turn)
    requires s.trace != [] && AllRemembered(cfg.py, s.retrieval.queries, s.trace)
    requires s.trace[|s.trace| - 1].tool == Retrieve
    requires Evaluate(cfg, turn, FirstQuestion(cfg, s)).Some? && Evaluate(cfg, turn, FirstQuestion(cfg, s)).value.queries != []
    ensures var d := Evaluate(cfg, turn, FirstQuestion(cfg, s)).value;
            NewQueries(cfg.py, s.trace, MultiAct(s.trace[|s.trace| - 1], d).args)
  {
    var q := FirstQuestion(cfg, s);
    var d := Evaluate(cfg, turn, q).value;
    AcceptedDecision(cfg.py, turn.evaluation.raw, q);
    var used := FoldedOf(cfg.py, [q.original] + q.previous);
    FoldedGrows(cfg.py, q.previous, [q.original] + q.previous);
    var texts := QueryTexts(d.queries);
    forall text | text in texts
      ensures ValidQuery(cfg.py, text) && Normal(text) && cfg.py.fold(text) !in used
    {
      var i :| 0 <= i < |texts| && texts[i] == text;
      assert d.queries[i] in d.queries;
    }
  }

  function One(b: bool): nat {
    if b then 1 else 0
  }

  ghost predicate PlansMulti(s: State) {
    Route(s.plan) == ToTool && s.plan.tool == Some(RetrieveMulti)
  }

  /** What holds of the searches so far. */
  ghost predicate FrugalTrace(cfg: Config, trace: seq<Entry>, r: Retrieval) {
    && AllNormal(r.queries)
    && AllRemembered(cfg.py, r.queries, trace)
    && (forall i :: 0 <= i < |trace| && trace[i].tool == RetrieveMulti ==> NewQueries(cfg.py, trace[..i], trace[i].args))
    && CallsOf(trace, RetrieveMulti) <= One(r.rewritten)
  }

  ghost predicate Frugal(cfg: Config, s: State) {
    && FrugalTrace(cfg, s.trace, s.retrieval)
    && s.retrieval.evaluations <= One(s.retrieval.rewritten) + CallsOf(s.trace, RetrieveMulti)
    && (PlansMulti(s) ==>
      s.retrieval.rewritten && CallsOf(s.trace, RetrieveMulti) == 0 && NewQueries(cfg.py, s.trace, s.plan.args))
  }

  /** The same just after a call, when an evaluation may be due. */
  ghost predicate FrugalAfterCall(cfg: Config, s: State) {
    && s.trace != []
    && FrugalTrace(cfg, s.trace, s.retrieval)
    && s.retrieval.evaluations + One(s.trace[|s.trace| - 1].tool == RetrieveMulti)
       <= One(s.retrieval.rewritten) + CallsOf(s.trace, RetrieveMulti)
    && s.last == Some(Observed(s.trace[|s.trace| - 1]))
  }

  lemma ObservedSearch(cfg: Config, s: State, answer: Answer)
    requires s.plan.tool.Some?
    ensures var e, t := NewEntry(cfg, s, answer), Observe(cfg.py, ToolCall(cfg, s, answer));
            && e.tool == s.plan.tool.value && e.args == s.plan.args
            && t.trace == s.trace + [e] && t.trace[..|s.trace|] == s.trace
            && t.last == Some(Observed(e)) && t.retrieval == RetrievalAfter(cfg.py, s.retrieval, e)
  {
  }

  lemma CallIsFrugal(cfg: Config, s: State, answer: Answer)
    requires Route(s.plan) == ToTool && Frugal(cfg, s)
    ensures FrugalAfterCall(cfg, Observe(cfg.py, ToolCall(cfg, s, answer)))
  {
    var e, t := NewEntry(cfg, s, answer), Observe(cfg.py, ToolCall(cfg, s, answer));
    ObservedSearch(cfg, s, answer);
    ObserveRemembers(cfg.py, s.retrieval, s.trace, e);
    forall i | 0 <= i < |t.trace| && t.trace[i].tool == RetrieveMulti
      ensures NewQueries(cfg.py, t.trace[..i], t.trace[i].args)
    {
      assert t.trace[..i] == s.trace[..i];
      assert s.trace[..|s.trace|] == s.trace;
    }
  }

  lemma OtherActsAreNotMulti(cfg: Config, req: Request, s: State, turn: Turn)
    requires s.trace != [] && s.last.Some?
    ensures GuardedAct(cfg, req, s, turn.wording).tool != Some(RetrieveMulti)
    ensures s.last.value.kind.Some? && FailureAct(cfg, req, s, turn.wording).Some?
            ==> FailureAct(cfg, req, s, turn.wording).value.tool != Some(RetrieveMulti)
  {
  }

  lemma GuardedStepIsFrugal(cfg: Config, req: Request, s: State, turn: Turn)
    requires s.trace != [] && s.last.Some?
    ensures var t := GuardedStep(cfg, req, s, turn);
            !PlansMulti(t) && t.trace == s.trace && t.retrieval == s.retrieval
  {
    OtherActsAreNotMulti(cfg, req, s.(case_ := CaseForGuard(req, s)), turn);
  }

  lemma EvaluationCounted(cfg: Config, s: State)
    requires FrugalAfterCall(cfg, s)
    ensures var r := RetrievalAfterFollowUp(s);
            && FrugalTrace(cfg, s.trace, r)
            && r.evaluations <= One(r.rewritten) + CallsOf(s.trace, RetrieveMulti)
            && (Evaluates(s) && s.trace[|s.trace| - 1].tool == Retrieve ==> r.rewritten && CallsOf(s.trace, RetrieveMulti) == 0)
  {
  }

  lemma FollowUpTool(cfg: Config, s: State, turn: Turn)
    requires s.trace != []
    ensures var a := FollowUp(cfg, s, turn);
            a.Some? ==>
              || a.value == HAND_OVER
              || (Evaluates(s) && s.trace[|s.trace| - 1].tool == Retrieve
                  && Evaluate(cfg, turn, FirstQuestion(cfg, s)).Some?
                  && Evaluate(cfg, turn, FirstQuestion(cfg, s)).value.queries != []
                  && a.value == MultiAct(s.trace[|s.trace| - 1], Evaluate(cfg, turn, FirstQuestion(cfg, s)).value))
  {
  }

  lemma FollowUpStepIsFrugal(cfg: Config, req: Request, s: State, turn: Turn)
    requires FrugalAfterCall(cfg, s)
    ensures Frugal(cfg, FollowUpStep(cfg, req, s, turn))
  {
    EvaluationCounted(cfg, s);
    FollowUpTool(cfg, s, turn);
    if FollowUp(cfg, s, turn).None? {
      GuardedStepIsFrugal(cfg, req, s.(retrieval := RetrievalAfterFollowUp(s)), turn);
    } else if FollowUp(cfg, s, turn).value != HAND_OVER {
      RewriteIsNew(cfg, s, turn);
    }
  }

  /** A decision that plans no multi-query search and leaves the retrieval state alone. */
  lemma OtherDecisionIsFrugal(cfg: Config, s: State, next: State)
    requires FrugalAfterCall(cfg, s) && next.trace == s.trace && next.retrieval == s.retrieval && !PlansMulti(next)
    ensures Frugal(cfg, next)
  {
  }

  lemma DecideIsFrugal(cfg: Config, req: Request, s: State, turn: Turn)
    requires FrugalAfterCall(cfg, s)
    ensures Frugal(cfg, DecideNext(cfg, req, s, turn))
  {
    var next := DecideNext(cfg, req, s, turn);
    if next == FollowUpStep(cfg, req, s, turn) {
      FollowUpStepIsFrugal(cfg, req, s, turn);
    } else {
      OtherActsAreNotMulti(cfg, req, s, turn);
      OtherDecisionIsFrugal(cfg, s, next);
    }
  }

  lemma PassIsFrugal(cfg: Config, req: Request, s: State, turn: Turn)
    requires Route(s.plan) == ToTool && Frugal(cfg, s)
    ensures Frugal(cfg, Pass(cfg, req, s, turn))
  {
    CallIsFrugal(cfg, s, turn.answer);
    DecideIsFrugal(cfg, req, Observe(cfg.py, ToolCall(cfg, s, turn.answer)), turn);
  }

  lemma AdvanceIsFrugal(cfg: Config, req: Request, s: State, turns: nat -> Turn, k: nat, end: State) returns (next: State)
    requires Route(s.plan) == ToTool && Frugal(cfg, s) && LoopsTo(cfg, req, s, turns, k, end)
    ensures Frugal(cfg, next) && LoopsTo(cfg, req, next, turns, k + 1, end)
    ensures Remaining(cfg, next) <= Remaining(cfg, s)
    ensures Route(next.plan) == ToTool ==> Remaining(cfg, next) < Remaining(cfg, s)
  {
    PassIsFrugal(cfg, req, s, turns(k));
    LoopGoesOn(cfg, req, s, turns, k, end);
    next := Pass(cfg, req, s, turns(k));
  }

  lemma {:induction false} LoopIsFrugal(cfg: Config, req: Request, s: State, turns: nat -> Turn, k: nat, end: State)
    requires Frugal(cfg, s) && LoopsTo(cfg, req, s, turns, k, end)
    ensures Frugal(cfg, end)
    decreases Remaining(cfg, s), if Route(s.plan) == ToTool then 1 else 0
  {
    if Route(s.plan) == ToTool {
      var next := AdvanceIsFrugal(cfg, req, s, turns, k, end);
      LoopIsFrugal(cfg, req, next, turns, k + 1, end);
    } else {
      LoopIsOver(cfg, req, s, turns, k, end);
    }
  }

  lemma PlanningIsFrugal(cfg: Config, req: Request, turn: Turn)
    ensures Frugal(cfg, Planning(cfg, req, turn))
  {
    assert Planning(cfg, req, turn).plan.tool != Some(RetrieveMulti);
    assert Planning(cfg, req, turn).trace == [];
  }

  /** Every run does at most one multi-query search and at most two evaluations. The search carries one
      to three queries, pairwise different under normalisation and case folding and different from every
      query searched before it. */
  lemma RunsAreFrugal(cfg: Config, req: Request, turns: nat -> Turn)
    ensures var s := LoopEnd(cfg, req, turns);
            && CallsOf(s.trace, RetrieveMulti) <= 1
            && s.retrieval.evaluations <= 2
            && forall i :: 0 <= i < |s.trace| && s.trace[i].tool == RetrieveMulti
                 ==> NewQueries(cfg.py, s.trace[..i], s.trace[i].args)
  {
    var s := Planning(cfg, req, turns(0));
    PlanningIsFrugal(cfg, req, turns(0));
    if RouteAfterPlan(s) == ToTool {
      LoopIsFrugal(cfg, req, s, turns, 1, LoopEnd(cfg, req, turns));
    }
  }
}
