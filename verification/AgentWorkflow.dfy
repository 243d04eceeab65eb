/**
 The after-sales agent graph: plan, then call a tool, observe it and decide, until the run is handed
 to a person or answered.

 The language model, the tools and the retrieval evaluator are arbitrary: a `Turn` gives what each of
 them answers in one pass. Keyword and regular-expression matching on the conversation appears as
 booleans of the request. Wording of replies is not modelled.
 */
module AgentWorkflow {
  import opened Wrappers
  import opened RagRewrite

  // ---------- Values returned by tools ----------

  datatype TimeText = Missing | Unreadable | At(instant: int)

  /** A dictionary read as a ticket. */
  datatype Ticket = Ticket(
    orderId: Option<string>,
    merchant: string,
    policyVersion: string,
    appliedAt: TimeText,
    amount: real,
    uploadedImages: bool,
    evidence: seq<string>
  )

  /** A dictionary read as an image review. */
  datatype Review = Review(success: bool, damage: bool, missingDamage: bool, confidence: real)

  datatype Threshold = Absent | NotANumber | Value(value: real)

  datatype Hit = Hit(
    eligible: bool,
    strict: bool,
    traceable: bool,
    isPolicy: bool,
    merchant: string,
    policyVersion: string,
    validFrom: Option<int>,
    validTo: Option<int>,
    threshold: Threshold,
    score: real
  )

  /** A dictionary read as a retrieval result. */
  datatype Knowledge = Knowledge(
    infrastructureFailure: bool,
    degraded: bool,
    rerankerSucceeded: bool,
    strictFilter: bool,
    noAnswer: bool,
    eligible: bool,
    strict: bool,
    threshold: Threshold,
    hits: seq<Hit>,
    hitCount: nat
  )

  datatype OrderRow = OrderRow(ids: set<string>) | NotARow

  datatype Data =
    | Dict(
        status: string,
        sessionMode: string,
        sessionId: Option<string>,
        submitFailed: bool,
        ticket: Ticket,
        review: Review,
        knowledge: Knowledge)
    | Rows(rows: seq<OrderRow>)
    | Plain

  datatype ErrorKind =
    | Timeout | ServiceUnavailable | Validation | NotFound | Permission | GuardLimit | OtherError

  datatype Answer = Done(data: Data) | Failed(kind: ErrorKind)

  // ---------- Calls ----------

  datatype Tool =
    | SearchOrders | OrderDetail | ExistingAfterSales | GetTicket | MerchantPolicy
    | Retrieve | RetrieveMulti | ReviewImages | SubmitReview | Handoff | AppendMessage | RequestEvidence

  const APPROVE := "APPROVE"
  const MANUAL := "MANUAL_REVIEW_REQUIRED"

  datatype Body =
    | NoArguments
    | OrderLookup(keyword: string)
    | Search(query: string, filters: string)
    | MultiSearch(original: string, queries: seq<string>, filters: string)
    | Images(attachments: seq<string>, hint: string)
    | Verdict(verdict: string, visualUncertain: bool, policyUncertain: bool, grounds: string)
    | Free(text: string)

  /** Arguments up to their canonical JSON text, with the identifiers every call is stamped with. */
  datatype Args = Args(
    body: Body,
    session: Option<string>,
    order: Option<string>,
    ticket: Option<string>,
    request: Option<string>
  )

  /** One element of the tool trace. `executed` is false when a limit stopped the call. */
  datatype Entry = Entry(tool: Tool, args: Args, executed: bool, answer: Answer)

  predicate Succeeded(e: Entry) {
    e.answer.Done?
  }

  // ---------- Run parameters ----------

  datatype Config = Config(
    maxSteps: int,
    maxToolCalls: int,
    maxDuplicates: int,
    nativeCalling: bool,
    fastRetry: bool,
    fastRetryMax: int,
    minVisual: real,
    minPolicyScore: real,
    refundLimit: real,
    minSufficiency: real,
    maxRewrites: int,
    py: Python
  )

  datatype Request = Request(
    ticketId: Option<string>,
    requestId: Option<string>,
    sessionId: Option<string>,
    orderHint: Option<string>,
    attachments: seq<string>,
    hasMessage: bool,
    longMessage: bool,
    fromKafka: bool,
    explicitHuman: bool,
    claimsDamage: bool,
    claimsFault: bool,
    emotionPriority: bool
  )

  /** What the language model answers; a tool outside its list is a protocol error. */
  datatype LlmAnswer =
    | Unavailable
    | Reply(needHuman: bool, claimsReviewed: bool)
    | AskHuman(claimsReviewed: bool)
    | UseTool(tool: Tool, body: Body)

  datatype Evaluation = ModelFailed | Answered(raw: Json)

  datatype Turn = Turn(answer: Answer, llm: LlmAnswer, evaluation: Evaluation, wording: string)

  // ---------- State ----------

  datatype Action = CallTool | Transfer | Respond

  datatype Plan = Plan(action: Action, tool: Option<Tool>, args: Args, needHuman: bool)

  datatype Observation = Observation(tool: Tool, ok: bool, kind: Option<ErrorKind>)

  datatype Mode = AI | HUMAN

  /** What the run knows about the case and the session. */
  datatype Case = Case(
    ticket: Option<Data>,
    submitFailed: Option<bool>,
    attachments: seq<string>,
    orderHint: Option<string>,
    sessionId: Option<string>,
    mode: Mode,
    handoff: Option<bool>
  )

  datatype Retrieval = Retrieval(attempts: nat, queries: seq<string>, rewritten: bool, evaluations: nat)

  datatype State = State(
    steps: int,
    plan: Plan,
    trace: seq<Entry>,
    last: Option<Observation>,
    case_: Case,
    retrieval: Retrieval,
    final: bool
  )

  const BLANK := Args(NoArguments, None, None, None, None)

  function Start(req: Request): State {
    State(0, Plan(Respond, None, BLANK, false), [], None,
          Case(None, None, req.attachments, req.orderHint, req.sessionId, AI, None),
          Retrieval(0, [], false, 0), false)
  }

  // ---------- Reading the trace ----------

  predicate HasSuccess(trace: seq<Entry>, tool: Tool) {
    exists e <- trace :: e.tool == tool && Succeeded(e)
  }

  predicate HasResult(trace: seq<Entry>, tool: Tool) {
    exists e <- trace :: e.tool == tool
  }

  predicate WaitingForHuman(d: Data) {
    d.Dict? && d.sessionMode == "HUMAN" && (d.status == "WAITING" || d.status == "PROCESSING")
  }

  predicate ConfirmedHandoff(e: Entry) {
    e.tool == Handoff && Succeeded(e) && WaitingForHuman(e.answer.data)
  }

  predicate HasConfirmedHandoff(trace: seq<Entry>) {
    exists e <- trace :: ConfirmedHandoff(e)
  }

  /** Data of the latest successful call of a tool. */
  function Latest(trace: seq<Entry>, tool: Tool): Option<Data> {
    if trace == [] then None
    else
      var e := trace[|trace| - 1];
      if e.tool == tool && Succeeded(e) then Some(e.answer.data) else Latest(trace[..|trace| - 1], tool)
  }

  function LatestArgs(trace: seq<Entry>, tool: Tool): Option<Args> {
    if trace == [] then None
    else if trace[|trace| - 1].tool == tool then Some(trace[|trace| - 1].args)
    else LatestArgs(trace[..|trace| - 1], tool)
  }

  /** How often exactly this call is in the trace. */
  function Attempts(trace: seq<Entry>, tool: Tool, args: Args): nat {
    if trace == [] then 0
    else
      var e := trace[|trace| - 1];
      Attempts(trace[..|trace| - 1], tool, args) + if e.tool == tool && e.args == args then 1 else 0
  }

  function CallsOf(trace: seq<Entry>, tool: Tool): nat {
    if trace == [] then 0
    else CallsOf(trace[..|trace| - 1], tool) + if trace[|trace| - 1].tool == tool then 1 else 0
  }

  predicate EmptyOrderSearch(trace: seq<Entry>) {
    !HasSuccess(trace, OrderDetail)
    && exists i :: 0 <= i < |trace| && trace[i].tool == SearchOrders && Succeeded(trace[i]) && trace[i].answer.data == Rows([])
                   && forall j :: 0 <= j < i ==> !(trace[j].tool == SearchOrders && Succeeded(trace[j]))
  }

  predicate FailedOrderSearch(trace: seq<Entry>) {
    exists e <- trace :: e.tool == SearchOrders && !Succeeded(e)
  }

  // ---------- Applying an action ----------

  datatype Act = Act(action: Action, tool: Option<Tool>, args: Args, needHuman: bool)

  function Invoke(tool: Tool, body: Body, needHuman: bool): Act {
    Act(CallTool, Some(tool), BLANK.(body := body), needHuman)
  }

  function Answering(needHuman: bool): Act {
    Act(Respond, None, BLANK, needHuman)
  }

  const HAND_OVER := Act(Transfer, None, BLANK, true)

  function Override<T>(known: Option<T>, given: Option<T>): Option<T> {
    if known.Some? then known else given
  }

  function Stamp(req: Request, c: Case, args: Args): Args {
    Args(args.body, Override(c.sessionId, args.session), Override(c.orderHint, args.order),
         Override(req.ticketId, args.ticket), Override(req.requestId, args.request))
  }

  /** A review may only be submitted by a run that came from the review queue. */
  function Planned(req: Request, c: Case, a: Act): Plan {
    if a.action == CallTool && a.tool == Some(SubmitReview) && !req.fromKafka then Plan(Respond, None, BLANK, false)
    else Plan(a.action, a.tool, Stamp(req, c, a.args), a.needHuman || a.action == Transfer)
  }

  function Apply(req: Request, s: State, a: Act): State {
    s.(plan := Planned(req, s.case_, a))
  }

  datatype Destination = ToTool | ToHuman | ToReply

  function Route(p: Plan): Destination {
    if p.action == CallTool && p.tool.Some? then ToTool
    else if p.action == Transfer || p.needHuman then ToHuman
    else ToReply
  }

  function RouteAfterPlan(s: State): Destination {
    if s.final then ToReply else Route(s.plan)
  }

  // ---------- Receiving and planning ----------

  function ReceiveMessage(req: Request, s: State): State {
    if !req.hasMessage && s.case_.attachments == [] then s.(final := true) else s
  }

  predicate LlmCallable(tool: Tool) {
    tool != RetrieveMulti && tool != Handoff
  }

  function Understood(cfg: Config, answer: LlmAnswer): LlmAnswer {
    if !cfg.nativeCalling || (answer.UseTool? && !LlmCallable(answer.tool)) then Unavailable else answer
  }

  function FailClosed(req: Request): Act {
    if req.ticketId.Some? then HAND_OVER else Answering(false)
  }

  function OrderLookupAct(wording: string): Act {
    Invoke(SearchOrders, OrderLookup(wording), false)
  }

  const GET_TICKET := Act(CallTool, Some(GetTicket), BLANK, false)

  function NativeAct(req: Request, answer: LlmAnswer): Act {
    match answer
    case Unavailable => FailClosed(req)
    case Reply(needHuman, _) => Answering(needHuman)
    case AskHuman(_) => HAND_OVER
    case UseTool(tool, body) => Invoke(tool, body, false)
  }

  predicate ClaimsReviewed(answer: LlmAnswer) {
    (answer.Reply? || answer.AskHuman?) && answer.claimsReviewed
  }

  /** A reply that claims a finished review is not passed on unless a review was submitted. */
  function GuardClaim(s: State, answer: LlmAnswer, terminal: bool, wording: string, otherwise: Act): Act {
    if !ClaimsReviewed(answer) || HasSuccess(s.trace, SubmitReview) then otherwise
    else if terminal || HasSuccess(s.trace, SearchOrders) then Answering(false)
    else OrderLookupAct(wording)
  }

  /** The model knew an order and neither looked it up nor called a tool. */
  predicate IgnoredOrder(req: Request, s: State, a: Act) {
    s.trace == [] && !(a.action == CallTool && a.tool.Some?) && s.case_.orderHint.Some?
    && (a.action == Transfer || s.case_.attachments != [] || req.longMessage)
  }

  function ClassifyOrPlan(cfg: Config, req: Request, s: State, turn: Turn): State {
    if s.final then s
    else if req.ticketId.Some? && s.trace == [] then Apply(req, s, GET_TICKET)
    else if s.case_.attachments != [] && s.trace == [] then Apply(req, s, OrderLookupAct(turn.wording))
    else
      var answer := Understood(cfg, turn.llm);
      var a := GuardClaim(s, answer, false, turn.wording, NativeAct(req, answer));
      Apply(req, s, if IgnoredOrder(req, s, a) then OrderLookupAct(turn.wording) else a)
  }

  // ---------- Calling a tool ----------

  predicate LimitReached(cfg: Config, s: State)
    requires s.plan.tool.Some?
  {
    |s.trace| >= cfg.maxToolCalls || Attempts(s.trace, s.plan.tool.value, s.plan.args) >= cfg.maxDuplicates
  }

  /** The registry refuses a ticket call without a ticket and a multi-query search without a question. */
  function Registry(tool: Tool, args: Args, answer: Answer): Answer {
    if (tool == GetTicket || tool == SubmitReview) && args.ticket.None? then Failed(Validation)
    else if tool == RetrieveMulti && args.body.MultiSearch? && args.body.original == "" then Failed(Validation)
    else answer
  }

  function NewEntry(cfg: Config, s: State, answer: Answer): Entry
    requires s.plan.tool.Some?
  {
    if LimitReached(cfg, s) then Entry(s.plan.tool.value, s.plan.args, false, Failed(GuardLimit))
    else Entry(s.plan.tool.value, s.plan.args, true, Registry(s.plan.tool.value, s.plan.args, answer))
  }

  function ToolCall(cfg: Config, s: State, answer: Answer): State
    requires s.plan.tool.Some?
  {
    var t := s.trace + [NewEntry(cfg, s, answer)];
    if LimitReached(cfg, s) then s.(trace := t, steps := cfg.maxSteps, plan := s.plan.(action := Respond, needHuman := true))
    else s.(trace := t, steps := s.steps + 1)
  }

  // ---------- Observing the result ----------

  predicate EntryOk(e: Entry) {
    if e.tool == Handoff then ConfirmedHandoff(e) else Succeeded(e)
  }

  function Observed(e: Entry): Observation {
    Observation(e.tool, EntryOk(e), if EntryOk(e) then None else if Succeeded(e) then Some(OtherError) else Some(e.answer.kind))
  }

  function QueriesIn(e: Entry): seq<string> {
    match e.args.body
    case Search(query, _) => [query]
    case MultiSearch(original, queries, _) => [original] + queries
    case _ => []
  }

  function AddQueries(py: Python, known: seq<string>, raws: seq<string>): seq<string>
    decreases |raws|
  {
    if raws == [] then known
    else
      var query := Normalize(raws[0]);
      AddQueries(py, if query != "" && forall q <- known :: py.fold(q) != py.fold(query) then known + [query] else known,
                 raws[1..])
  }

  function RetrievalAfter(py: Python, r: Retrieval, e: Entry): Retrieval {
    if e.tool == Retrieve || e.tool == RetrieveMulti then
      r.(attempts := r.attempts + 1, queries := AddQueries(py, r.queries, QueriesIn(e)))
    else r
  }

  function CaseAfter(c: Case, e: Entry): Case {
    if e.tool == Handoff then c.(mode := if ConfirmedHandoff(e) then HUMAN else AI, handoff := Some(ConfirmedHandoff(e)))
    else if !Succeeded(e) || !e.answer.data.Dict? then c
    else if e.tool == GetTicket then
      var t := e.answer.data.ticket;
      c.(ticket := Some(e.answer.data), orderHint := Override(t.orderId, c.orderHint),
         attachments := if c.attachments == [] then t.evidence else c.attachments)
    else if e.tool == SubmitReview then c.(ticket := Some(e.answer.data), submitFailed := Some(e.answer.data.submitFailed))
    else c
  }

  function Observe(py: Python, s: State): State
    requires s.trace != []
  {
    var e := s.trace[|s.trace| - 1];
    s.(last := Some(Observed(e)), retrieval := RetrievalAfter(py, s.retrieval, e), case_ := CaseAfter(s.case_, e),
       plan := if e.tool == Handoff then s.plan.(needHuman := true) else s.plan)
  }

  // ---------- After a failure ----------

  predicate CanRetry(cfg: Config, tool: Tool, args: Args) {
    cfg.fastRetry
    && match tool
       case SearchOrders => true
       case GetTicket => true
       case Retrieve => true
       case ReviewImages => true
       case SubmitReview => args.request.Some?
       case Handoff => args.ticket.Some? && args.session.Some?
       case _ => false
  }

  predicate RetriesNow(cfg: Config, s: State, tool: Tool) {
    CanRetry(cfg, tool, s.plan.args)
    && Attempts(s.trace, tool, s.plan.args) <= if cfg.fastRetryMax < 0 then 0 else cfg.fastRetryMax
  }

  function ManualVerdict(images: bool, policy: bool, wording: string): Act {
    Invoke(SubmitReview, Verdict(MANUAL, images, policy, wording), true)
  }

  predicate MarksSubmitFailed(cfg: Config, s: State)
    requires s.last.Some?
  {
    s.last.value.tool == SubmitReview && s.last.value.kind in {Some(Timeout), Some(ServiceUnavailable)}
    && !RetriesNow(cfg, s, SubmitReview)
  }

  function FailureAct(cfg: Config, req: Request, s: State, wording: string): Option<Act>
    requires s.last.Some? && s.last.value.kind.Some?
  {
    var tool := s.last.value.tool;
    match s.last.value.kind.value
    case Timeout => Some(OutageAct(cfg, req, s, tool, wording))
    case ServiceUnavailable => Some(OutageAct(cfg, req, s, tool, wording))
    case Validation => Some(Answering(false))
    case NotFound => Some(Answering(false))
    case Permission => Some(Answering(false))
    case GuardLimit => Some(Answering(s.plan.needHuman))
    case OtherError => None
  }

  function OutageAct(cfg: Config, req: Request, s: State, tool: Tool, wording: string): Act {
    if RetriesNow(cfg, s, tool) then Act(CallTool, Some(tool), s.plan.args, false)
    else if (tool == ReviewImages || tool == Retrieve) && req.ticketId.Some? && !HasSuccess(s.trace, SubmitReview) then
      ManualVerdict(tool == ReviewImages, tool == Retrieve, wording)
    else if tool == SubmitReview && HasSuccess(s.trace, GetTicket) && CallsOf(s.trace, GetTicket) < 2 then GET_TICKET
    else HAND_OVER
  }

  // ---------- Follow-up retrieval ----------

  function Evaluate(cfg: Config, turn: Turn, q: Question): Option<Decision> {
    if turn.evaluation.ModelFailed? then None
    else match ValidateDecision(cfg.py, turn.evaluation.raw, q)
      case Ok(d) => Some(d)
      case Err(_) => None
  }

  predicate SufficientEnough(cfg: Config, d: Decision) {
    var minimum := if cfg.minSufficiency < 0.0 then 0.0 else if cfg.minSufficiency > 1.0 then 1.0 else cfg.minSufficiency;
    d.sufficient && d.confidence >= minimum
  }

  function QueryTexts(cs: seq<Candidate>): seq<string> {
    seq(|cs|, i requires 0 <= i < |cs| => cs[i].query)
  }

  function NormalizedQueries(queries: seq<string>): seq<string> {
    if queries == [] then []
    else (if Normalize(queries[0]) == "" then [] else [Normalize(queries[0])]) + NormalizedQueries(queries[1..])
  }

  function OriginalOf(e: Entry): string {
    match e.args.body
    case Search(query, _) => Normalize(query)
    case MultiSearch(original, _, _) => Normalize(original)
    case _ => ""
  }

  function FiltersOf(e: Entry): string {
    if e.args.body.Search? then e.args.body.filters else ""
  }

  /** Is there a retrieval result to assess? */
  predicate Assessable(s: State)
    requires s.trace != []
  {
    var e := s.trace[|s.trace| - 1];
    (e.tool == Retrieve || e.tool == RetrieveMulti) && Succeeded(e) && e.answer.data.Dict?
  }

  predicate Evaluates(s: State)
    requires s.trace != []
  {
    var e := s.trace[|s.trace| - 1];
    Assessable(s) && !e.answer.data.knowledge.infrastructureFailure && (e.tool == RetrieveMulti || !s.retrieval.rewritten)
  }

  function FirstQuestion(cfg: Config, s: State): Question
    requires s.trace != []
  {
    Question(OriginalOf(s.trace[|s.trace| - 1]), s.retrieval.queries, true, Limit(cfg.maxRewrites))
  }

  function SecondQuestion(cfg: Config, e: Entry): Question {
    Question(OriginalOf(e), NormalizedQueries(if e.args.body.MultiSearch? then e.args.body.queries else []), false,
             Limit(cfg.maxRewrites))
  }

  function MultiAct(e: Entry, d: Decision): Act {
    Act(CallTool, Some(RetrieveMulti), e.args.(body := MultiSearch(OriginalOf(e), QueryTexts(d.queries), FiltersOf(e))), false)
  }

  function FollowUp(cfg: Config, s: State, turn: Turn): Option<Act>
    requires s.trace != []
  {
    var e := s.trace[|s.trace| - 1];
    if !Assessable(s) then None
    else if e.answer.data.knowledge.infrastructureFailure then (if e.tool == RetrieveMulti then Some(HAND_OVER) else None)
    else if e.tool == RetrieveMulti then
      (match Evaluate(cfg, turn, SecondQuestion(cfg, e))
       case None => Some(HAND_OVER)
       case Some(d) => if SufficientEnough(cfg, d) then None else Some(HAND_OVER))
    else if s.retrieval.rewritten then None
    else
      match Evaluate(cfg, turn, FirstQuestion(cfg, s))
      case None => None
      case Some(d) =>
        if SufficientEnough(cfg, d) then None
        else if d.queries == [] then Some(HAND_OVER)
        else Some(MultiAct(e, d))
  }

  function RetrievalAfterFollowUp(s: State): Retrieval
    requires s.trace != []
  {
    if !Evaluates(s) then s.retrieval
    else s.retrieval.(rewritten := s.retrieval.rewritten || s.trace[|s.trace| - 1].tool == Retrieve,
                      evaluations := s.retrieval.evaluations + 1)
  }

  // ---------- Policy evidence ----------

  predicate TrustedHit(cfg: Config, k: Knowledge, t: Ticket, h: Hit) {
    h.eligible && h.strict && h.traceable && h.isPolicy && h.merchant == t.merchant && h.policyVersion == t.policyVersion
    && t.appliedAt.At? && h.validFrom.Some? && h.validTo.Some?
    && h.validFrom.value <= t.appliedAt.instant < h.validTo.value
    && MeetsThreshold(cfg, k, h)
  }

  predicate MeetsThreshold(cfg: Config, k: Knowledge, h: Hit) {
    var given := if h.threshold.Absent? then k.threshold else h.threshold;
    !given.NotANumber? && Clamped(h.score) >= cfg.minPolicyScore && (given.Value? ==> Clamped(h.score) >= given.value)
  }

  function Clamped(x: real): real {
    if x > 1.0 then 1.0 else if x < 0.0 then 0.0 else x
  }

  predicate TrustedResult(k: Knowledge, t: Ticket) {
    k.rerankerSucceeded && k.strictFilter && !k.noAnswer && k.eligible && k.strict
    && t.merchant != "" && t.policyVersion != "" && t.appliedAt.At?
  }

  /** Some hit may authorise an automatic decision on this ticket. */
  predicate HasTrustedPolicy(cfg: Config, k: Knowledge, t: Ticket) {
    TrustedResult(k, t) && exists h <- k.hits :: TrustedHit(cfg, k, t, h)
  }

  /** How results of several searches are compared; ties go to the later one. */
  predicate BetterResult(cfg: Config, t: Ticket, a: Knowledge, b: Knowledge) {
    var ta, tb := HasTrustedPolicy(cfg, a, t), HasTrustedPolicy(cfg, b, t);
    if ta != tb then ta
    else if a.degraded != b.degraded then b.degraded
    else if a.rerankerSucceeded != b.rerankerSucceeded then a.rerankerSucceeded
    else if a.noAnswer != b.noAnswer then b.noAnswer
    else a.hitCount > b.hitCount
  }

  predicate IsKnowledge(e: Entry) {
    (e.tool == Retrieve || e.tool == RetrieveMulti) && Succeeded(e) && e.answer.data.Dict?
  }

  function BestKnowledge(cfg: Config, t: Ticket, trace: seq<Entry>): Option<Knowledge> {
    if trace == [] then None
    else
      var e := trace[|trace| - 1];
      var earlier := BestKnowledge(cfg, t, trace[..|trace| - 1]);
      if !IsKnowledge(e) then earlier
      else if earlier.Some? && BetterResult(cfg, t, earlier.value, e.answer.data.knowledge) then earlier
      else Some(e.answer.data.knowledge)
  }

  // ---------- Guarded decisions ----------

  predicate Pending(d: Data) {
    d.Dict? && (d.status == "PENDING_REVIEW" || d.status == "PENDING")
  }

  predicate DuplicateEvidence(attachments: seq<string>) {
    exists i, j :: 0 <= i < j < |attachments| && attachments[i] == attachments[j]
  }

  predicate RiskFree(cfg: Config, t: Ticket, attachments: seq<string>) {
    t.amount <= cfg.refundLimit && !DuplicateEvidence(attachments)
  }

  datatype Assessment = Assessment(
    approved: bool,
    needsHuman: bool,
    visualUncertain: bool,
    policyUncertain: bool
  )

  function Assess(cfg: Config, req: Request, s: State, t: Ticket): Assessment {
    var found := Latest(s.trace, ReviewImages);
    var review := if found.Some? && found.value.Dict? then Some(found.value.review) else None;
    var k := BestKnowledge(cfg, t, s.trace);
    var attached := s.case_.attachments != [];
    var policyUncertain := !(k.Some? && HasTrustedPolicy(cfg, k.value, t));
    var damage := review.Some? && review.value.damage;
    var consistent := !req.claimsFault && req.claimsDamage && review.Some? && review.value.success && damage;
    var confidence := if review.Some? then review.value.confidence else 0.0;
    var visualUncertain := attached
      && (review.None? || !review.value.success
          || (req.claimsDamage && !damage && review.value.missingDamage)
          || (req.claimsFault && !damage));
    var clear := consistent && confidence >= cfg.minVisual && !policyUncertain
      && RiskFree(cfg, t, s.case_.attachments) && !req.emotionPriority;
    Assessment(
      attached && review.Some? && review.value.success && (damage || (req.claimsDamage && !visualUncertain)) && clear,
      visualUncertain || !clear,
      visualUncertain,
      policyUncertain)
  }

  function ReviewAct(cfg: Config, req: Request, s: State, t: Ticket, wording: string): Act {
    var a := Assess(cfg, req, s, t);
    Invoke(SubmitReview, Verdict(if a.approved then APPROVE else MANUAL, a.visualUncertain, a.policyUncertain, wording),
           a.needsHuman && !a.approved)
  }

  function PolicySearchAct(t: Ticket, wording: string): Act {
    if t.merchant == "" || t.appliedAt.Missing? then HAND_OVER
    else if t.policyVersion == "" then ManualVerdict(false, true, wording)
    else Invoke(Retrieve, Search(wording, t.merchant + t.policyVersion), false)
  }

  /** The last submitted review left something uncertain. */
  predicate LeavesDoubt(s: State) {
    s.case_.ticket.Some?
    && var args := LatestArgs(s.trace, SubmitReview);
       args.Some? && args.value.body.Verdict?
       && (args.value.body.verdict == "MANUAL_REVIEW" || args.value.body.visualUncertain || args.value.body.policyUncertain)
  }

  function TicketAct(cfg: Config, req: Request, s: State, wording: string): Act {
    if !HasSuccess(s.trace, GetTicket) then GET_TICKET
    else if s.case_.submitFailed == Some(true) then HAND_OVER
    else if HasSuccess(s.trace, SubmitReview) then
      (if (s.plan.needHuman || LeavesDoubt(s)) && !HasConfirmedHandoff(s.trace) then HAND_OVER
       else Answering(s.plan.needHuman))
    else
      var found := Latest(s.trace, GetTicket);
      if !(found.Some? && Pending(found.value)) then Answering(false)
      else
        var t := found.value.ticket;
        if s.case_.attachments != [] && !HasResult(s.trace, ReviewImages) then
          Invoke(ReviewImages, Images(s.case_.attachments, wording), false)
        else if s.case_.attachments == [] && !t.uploadedImages && (req.claimsDamage || req.claimsFault) then Answering(false)
        else if !HasResult(s.trace, Retrieve) then PolicySearchAct(t, wording)
        else ReviewAct(cfg, req, s, t, wording)
  }

  function RowsOf(s: State): seq<OrderRow> {
    var found := Latest(s.trace, SearchOrders);
    if found.Some? && found.value.Rows? then found.value.rows else []
  }

  function CountRows(rows: seq<OrderRow>): nat {
    if rows == [] then 0 else (if rows[0].OrderRow? then 1 else 0) + CountRows(rows[1..])
  }

  predicate OrderSelected(s: State) {
    var detail := Latest(s.trace, OrderDetail);
    (detail.Some? && detail.value.Dict?)
    || (s.case_.orderHint.Some? && exists r <- RowsOf(s) :: r.OrderRow? && s.case_.orderHint.value in r.ids)
    || CountRows(RowsOf(s)) == 1
  }

  function ConsultationAct(req: Request, s: State, wording: string): Act {
    if !HasSuccess(s.trace, SearchOrders) && !HasSuccess(s.trace, OrderDetail) then OrderLookupAct(wording)
    else if !OrderSelected(s) then Answering(false)
    else if req.explicitHuman && !HasConfirmedHandoff(s.trace) then HAND_OVER
    else if !HasResult(s.trace, Retrieve) then Invoke(Retrieve, Search(wording, wording), false)
    else Answering(false)
  }

  /** The deterministic decision. It always names an action, so the model never chooses a tool here. */
  function GuardedAct(cfg: Config, req: Request, s: State, wording: string): Act {
    if req.ticketId.Some? then TicketAct(cfg, req, s, wording) else ConsultationAct(req, s, wording)
  }

  /** The model words a closing reply but cannot turn it into anything else. */
  function TerminalAct(cfg: Config, req: Request, s: State, turn: Turn, guarded: Act): Act {
    var answer := Understood(cfg, turn.llm);
    if answer.Unavailable? then FailClosed(req)
    else
      var raw := GuardClaim(s, answer, true, turn.wording, NativeAct(req, answer));
      if raw.action != Respond then guarded else Answering(guarded.needHuman)
  }

  /** Reading a fetched ticket makes it the current one. */
  function CaseForGuard(req: Request, s: State): Case {
    var found := Latest(s.trace, GetTicket);
    if req.ticketId.Some? && s.case_.submitFailed != Some(true) && !HasSuccess(s.trace, SubmitReview)
       && found.Some? && found.value.Dict?
    then s.case_.(ticket := found)
    else s.case_
  }

  function GuardedStep(cfg: Config, req: Request, s: State, turn: Turn): State {
    var t := s.(case_ := CaseForGuard(req, s));
    var guarded := GuardedAct(cfg, req, t, turn.wording);
    Apply(req, t, if guarded.action == Respond then TerminalAct(cfg, req, t, turn, guarded) else guarded)
  }

  function FollowUpStep(cfg: Config, req: Request, s: State, turn: Turn): State
    requires s.trace != []
  {
    var t := s.(retrieval := RetrievalAfterFollowUp(s));
    match FollowUp(cfg, s, turn)
    case Some(a) => Apply(req, t, a)
    case None => GuardedStep(cfg, req, t, turn)
  }

  function AfterFailureMark(cfg: Config, s: State): State
    requires s.last.Some?
  {
    if MarksSubmitFailed(cfg, s) then s.(case_ := s.case_.(submitFailed := Some(true))) else s
  }

  function DecideNext(cfg: Config, req: Request, s: State, turn: Turn): State
    requires s.trace != [] && s.last.Some?
  {
    if s.steps >= cfg.maxSteps then s.(plan := s.plan.(action := Respond))
    else if s.last.value.kind.Some? && FailureAct(cfg, req, s, turn.wording).Some? then
      Apply(req, AfterFailureMark(cfg, s), FailureAct(cfg, req, s, turn.wording).value)
    else if EmptyOrderSearch(s.trace) || FailedOrderSearch(s.trace) then
      s.(plan := s.plan.(action := Respond, needHuman := false))
    else FollowUpStep(cfg, req, s, turn)
  }

  // ---------- Ending ----------

  function HandoffArgs(req: Request, c: Case, wording: string): Args {
    Args(Free(wording), c.sessionId, c.orderHint, req.ticketId, None)
  }

  function HumanHandoff(req: Request, s: State, turn: Turn): State {
    var e := Entry(Handoff, HandoffArgs(req, s.case_, turn.wording), true, turn.answer);
    var confirmed := ConfirmedHandoff(e);
    s.(trace := s.trace + [e],
       plan := s.plan.(needHuman := true),
       case_ := s.case_.(
         mode := if confirmed then HUMAN else AI, handoff := Some(confirmed),
         sessionId := if confirmed then Override(e.answer.data.sessionId, s.case_.sessionId) else s.case_.sessionId))
  }

  function FinalReply(req: Request, s: State, user: Turn, assistant: Turn): State {
    var c := s.case_;
    var session := if c.sessionId.None? && user.answer.Done? && user.answer.data.Dict? then user.answer.data.sessionId else c.sessionId;
    s.(trace := s.trace
         + [Entry(AppendMessage, Args(Free(user.wording), c.sessionId, c.orderHint, req.ticketId, None), true, user.answer)]
         + [Entry(AppendMessage, Args(Free(assistant.wording), session, c.orderHint, req.ticketId, None), true, assistant.answer)],
       case_ := c.(sessionId := session),
       final := true)
  }

  // ---------- A whole run ----------

  /** One pass of the tool loop. */
  function Pass(cfg: Config, req: Request, s: State, turn: Turn): State
    requires s.plan.tool.Some?
  {
    DecideNext(cfg, req, Observe(cfg.py, ToolCall(cfg, s, turn.answer)), turn)
  }

  /** After a pass, the loop either ends or has taken a step within the limit. */
  lemma PassAdvances(cfg: Config, req: Request, s: State, turn: Turn)
    requires s.plan.tool.Some?
    ensures Route(Pass(cfg, req, s, turn).plan) == ToTool ==> s.steps < Pass(cfg, req, s, turn).steps < cfg.maxSteps
  {
    var t := Observe(cfg.py, ToolCall(cfg, s, turn.answer));
    if t.steps < cfg.maxSteps {
      assert DecideNext(cfg, req, t, turn).steps == t.steps;
    }
  }

  function Remaining(cfg: Config, s: State): nat {
    if s.steps < cfg.maxSteps then cfg.maxSteps - s.steps else 0
  }

  /** The tool loop, from a plan to call a tool until the plan is something else. `turns` answers from
      number `k` on. */
  function Loop(cfg: Config, req: Request, s: State, turns: nat -> Turn, k: nat): State
    decreases Remaining(cfg, s), if Route(s.plan) == ToTool then 1 else 0
  {
    if Route(s.plan) != ToTool then s
    else
      PassAdvances(cfg, req, s, turns(k));
      Loop(cfg, req, Pass(cfg, req, s, turns(k)), turns, k + 1)
  }

  /** One turn of the loop. */
  lemma LoopStep(cfg: Config, req: Request, s: State, turns: nat -> Turn, k: nat)
    requires Route(s.plan) == ToTool
    ensures Loop(cfg, req, s, turns, k) == Loop(cfg, req, Pass(cfg, req, s, turns(k)), turns, k + 1)
  {
  }

  /** From `s` the loop ends in `end`. Quantified so that the loop is unfolded only where it is named. */
  ghost predicate LoopsTo(cfg: Config, req: Request, s: State, turns: nat -> Turn, k: nat, end: State) {
    forall n: nat :: n == k ==> Loop(cfg, req, s, turns, n) == end
  }

  lemma LoopGoesOn(cfg: Config, req: Request, s: State, turns: nat -> Turn, k: nat, end: State)
    requires LoopsTo(cfg, req, s, turns, k, end) && Route(s.plan) == ToTool
    ensures var next := Pass(cfg, req, s, turns(k));
            && LoopsTo(cfg, req, next, turns, k + 1, end)
            && Remaining(cfg, next) <= Remaining(cfg, s)
            && (Route(next.plan) == ToTool ==> Remaining(cfg, next) < Remaining(cfg, s))
  {
    assert Loop(cfg, req, s, turns, k) == end;
    PassAdvances(cfg, req, s, turns(k));
  }

  lemma LoopIsOver(cfg: Config, req: Request, s: State, turns: nat -> Turn, k: nat, end: State)
    requires LoopsTo(cfg, req, s, turns, k, end) && Route(s.plan) != ToTool
    ensures s == end
  {
    assert Loop(cfg, req, s, turns, k) == s;
  }

  function Planning(cfg: Config, req: Request, turn: Turn): State {
    ClassifyOrPlan(cfg, req, ReceiveMessage(req, Start(req)), turn)
  }

  /** The state in which the tool loop is left. */
  function LoopEnd(cfg: Config, req: Request, turns: nat -> Turn): State {
    var s := Planning(cfg, req, turns(0));
    if RouteAfterPlan(s) == ToTool then Loop(cfg, req, s, turns, 1) else s
  }

  datatype Closing = Closing(handoff: Turn, user: Turn, assistant: Turn)

  function Ending(req: Request, s: State, closing: Closing): State {
    var t := if RouteAfterPlan(s) == ToHuman then HumanHandoff(req, s, closing.handoff) else s;
    FinalReply(req, t, closing.user, closing.assistant)
  }

  function Run(cfg: Config, req: Request, turns: nat -> Turn, closing: Closing): State {
    Ending(req, LoopEnd(cfg, req, turns), closing)
  }
}
