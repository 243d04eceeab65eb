/**
 The reranker client under concurrency: any number of threads call `rerank` and `close` on one
 client, which owns a transport and a circuit breaker. A step is one critical section, one
 transport operation or one private decision of a thread; what the transport answers labels
 the step.
 */
module RerankerLifecycle {
  import opened Wrappers
  import opened CircuitBreakers

  type Tid = nat

  /** What one transport attempt, including response validation, comes to. */
  datatype Outcome =
    | Valid
    | Retryable            // timeout, rate limit or server error
    | Rejected             // any other reranker error
    | SaysClosed           // the transport itself reports CLIENT_CLOSED
    | SaysCircuitOpen      // the transport raises CircuitOpenError
    | Unexpected           // any other exception

  predicate Silent(o: Outcome) {
    o.SaysClosed? || o.SaysCircuitOpen?
  }

  /** What a transport can come to. The client's own HTTP transport raises neither of the two errors
      that the client does not report; a transport given to the client may raise anything. */
  predicate CanSay(given: bool, o: Outcome) {
    given || !Silent(o)
  }

  datatype Pc =
    // rerank
    | Beginning
    | Preflight            // empty input, configuration, semaphore
    | CheckingClosed
    | AskingBreaker
    | BuildingPayload
    | FetchingTransport
    | Posting(attempt: nat)
    | ReportingSuccess
    | ReportingFailure
    | Finishing
    | Returned
    // close
    | ClosingBegins
    | AwaitingCloser       // another thread is closing
    | AwaitingIdle         // this thread closes, once no call is active
    | ClosingTransport(target: bool)   // whether a transport existed
    | CompletingClose(raised: bool)
    | Closed(raised: bool)

  /** `dicts`: every candidate of the call is a dictionary, so that its text can be read. `admitted`: the
      breaker let the call through. `reports`: successes and failures it reported. */
  datatype Thread = Thread(pc: Pc, dicts: bool, admitted: bool, reports: nat)

  datatype Config = Config(limits: Limits, maxRetries: int)

  /** At most one retry. */
  function Attempts(cfg: Config): nat {
    if cfg.maxRetries <= 0 then 1 else 2
  }

  /** `given`: the transport was handed to the constructor; otherwise the client makes its own. */
  datatype Client = Client(
    given: bool,
    now: real,
    active: int,
    closed: bool,
    complete: bool,
    hasTransport: bool,
    closes: nat,             // times transport.close() was called
    closer: Option<Tid>,     // history: the thread that set `closed`
    breaker: Breaker,
    threads: map<Tid, Thread>)

  predicate Init(s: Client) {
    s.active == 0 && !s.closed && !s.complete && s.closes == 0 && s.closer == None && s.breaker == CLOSED
    && s.threads == map[] && s.hasTransport == s.given
  }

  datatype Step =
    | Tick(d: nat)
    | CallRerank(t: Tid, dicts: bool)
    | CallClose(t: Tid)
    | Begin(t: Tid)
    | LeaveEarly(t: Tid)                 // nothing to rank, not configured, or queue timeout
    | Proceed(t: Tid)
    | CheckClosed(t: Tid)
    | AskBreaker(t: Tid)
    | BuildPayload(t: Tid)
    | FetchTransport(t: Tid, ok: bool)   // ok: constructing a transport did not fail
    | Post(t: Tid, outcome: Outcome)
    | Report(t: Tid)
    | Finish(t: Tid)
    | BeginClose(t: Tid)
    | CloserDone(t: Tid)
    | Idle(t: Tid)
    | CloseTransport(t: Tid, raises: bool)
    | CompleteClose(t: Tid)

  predicate At(s: Client, t: Tid, pc: Pc) {
    t in s.threads && s.threads[t].pc == pc
  }

  predicate Enabled(s: Client, step: Step) {
    match step
    case Tick(_) => true
    case CallRerank(t, _) => t !in s.threads
    case CallClose(t) => t !in s.threads
    case Begin(t) => At(s, t, Beginning)
    case LeaveEarly(t) => At(s, t, Preflight)
    case Proceed(t) => At(s, t, Preflight)
    case CheckClosed(t) => At(s, t, CheckingClosed)
    case AskBreaker(t) => At(s, t, AskingBreaker)
    case BuildPayload(t) => At(s, t, BuildingPayload)
    case FetchTransport(t, _) => At(s, t, FetchingTransport)
    case Post(t, o) => t in s.threads && s.threads[t].pc.Posting? && CanSay(s.given, o)
    case Report(t) => At(s, t, ReportingSuccess) || At(s, t, ReportingFailure)
    case Finish(t) => At(s, t, Finishing)
    case BeginClose(t) => At(s, t, ClosingBegins)
    case CloserDone(t) => At(s, t, AwaitingCloser) && s.complete
    case Idle(t) => At(s, t, AwaitingIdle) && s.active == 0
    case CloseTransport(t, _) => t in s.threads && s.threads[t].pc.ClosingTransport?
    case CompleteClose(t) => t in s.threads && s.threads[t].pc.CompletingClose?
  }

  /** Where a thread goes after one transport attempt. */
  function AfterPost(cfg: Config, attempt: nat, o: Outcome): Pc {
    match o
    case Valid => ReportingSuccess
    case Retryable => if attempt + 1 < Attempts(cfg) then Posting(attempt + 1) else ReportingFailure
    case Rejected => ReportingFailure
    case Unexpected => ReportingFailure
    case SaysClosed => Finishing
    case SaysCircuitOpen => Finishing
  }

  /** The next position of the thread that takes the step. */
  function PcAfter(cfg: Config, s: Client, step: Step): Pc
    requires Enabled(s, step) && !step.Tick?
  {
    match step
    case CallRerank(_, _) => Beginning
    case CallClose(_) => ClosingBegins
    case Begin(_) => if s.closed then Returned else Preflight
    case LeaveEarly(_) => Finishing
    case Proceed(_) => CheckingClosed
    case CheckClosed(_) => if s.closed then Finishing else AskingBreaker
    case AskBreaker(_) => if Admits(cfg.limits, s.breaker, s.now) then BuildingPayload else Finishing
    case BuildPayload(t) => if s.threads[t].dicts then FetchingTransport else Finishing
    case FetchTransport(_, ok) =>
      if s.closed then Finishing else if s.hasTransport || ok then Posting(0) else ReportingFailure
    case Post(t, o) => AfterPost(cfg, s.threads[t].pc.attempt, o)
    case Report(_) => Finishing
    case Finish(_) => Returned
    case BeginClose(_) => if s.complete then Closed(false) else if s.closed then AwaitingCloser else AwaitingIdle
    case CloserDone(_) => Closed(false)
    case Idle(_) => ClosingTransport(s.hasTransport)
    case CloseTransport(t, raises) => CompletingClose(raises && s.threads[t].pc.target)
    case CompleteClose(t) => Closed(s.threads[t].pc.raised)
  }

  function ThreadAfter(cfg: Config, s: Client, step: Step): Thread
    requires Enabled(s, step) && !step.Tick?
  {
    var pc := PcAfter(cfg, s, step);
    if step.CallRerank? then Thread(pc, step.dicts, false, 0)
    else if step.CallClose? then Thread(pc, true, false, 0)
    else
      var th := s.threads[step.t];
      Thread(pc, th.dicts, th.admitted || pc.BuildingPayload?, th.reports + if step.Report? then 1 else 0)
  }

  function BreakerAfter(cfg: Config, s: Client, step: Step): Breaker
    requires Enabled(s, step)
  {
    match step
    case AskBreaker(_) => AfterCall(cfg.limits, s.breaker, s.now)
    case Report(t) =>
      if s.threads[t].pc.ReportingSuccess? then AfterSuccess(s.breaker) else AfterFailure(cfg.limits, s.breaker, s.now)
    case _ => s.breaker
  }

  function Next(cfg: Config, s: Client, step: Step): Client
    requires Enabled(s, step)
  {
    if step.Tick? then s.(now := s.now + step.d as real)
    else
      s.(threads := s.threads[step.t := ThreadAfter(cfg, s, step)],
         active := s.active + (if step.Begin? && !s.closed then 1 else if step.Finish? then -1 else 0),
         closed := s.closed || step.BeginClose?,
         closer := if step.BeginClose? && !s.closed then Some(step.t) else s.closer,
         complete := s.complete || step.CompleteClose?,
         hasTransport := s.hasTransport || (step.FetchTransport? && !s.closed && step.ok),
         closes := s.closes + (if step.CloseTransport? && s.threads[step.t].pc.target then 1 else 0),
         breaker := BreakerAfter(cfg, s, step))
  }

  ghost predicate IsRun(cfg: Config, states: seq<Client>, steps: seq<Step>) {
    && |states| == |steps| + 1 && Init(states[0])
    && forall i: nat :: i < |steps| ==> StepAt(cfg, states, steps, i)
  }

  ghost predicate StepAt(cfg: Config, states: seq<Client>, steps: seq<Step>, i: nat)
    requires |states| == |steps| + 1 && i < |steps|
  {
    Enabled(states[i], steps[i]) && states[i + 1] == Next(cfg, states[i], steps[i])
  }

  // ---------- Lifecycle invariant ----------

  /** A call that has begun and not finished. */
  predicate InCall(pc: Pc) {
    pc.Preflight? || pc.CheckingClosed? || pc.AskingBreaker? || pc.BuildingPayload? || pc.FetchingTransport?
    || pc.Posting? || pc.ReportingSuccess? || pc.ReportingFailure? || pc.Finishing?
  }

  ghost function Active(threads: map<Tid, Thread>): set<Tid> {
    set t | t in threads && InCall(threads[t].pc)
  }

  /** The role of the one thread that closes the client. */
  predicate Closing(pc: Pc) {
    pc.AwaitingIdle? || pc.ClosingTransport? || pc.CompletingClose?
  }

  /** What a thread's position says about the client. */
  predicate PcFits(s: Client, t: Tid, pc: Pc) {
    && (Closing(pc) ==> s.closer == Some(t) && s.closed && !s.complete)
    && (pc.AwaitingCloser? ==> s.closed)
    && (pc.Closed? ==> s.complete)
    && (pc.Posting? ==> s.hasTransport)
    && (pc.ClosingTransport? || pc.CompletingClose? ==> s.active == 0)
    && (pc.AwaitingIdle? || pc.ClosingTransport? ==> s.closes == 0)
  }

  ghost predicate LifecycleOk(s: Client) {
    && s.active == |Active(s.threads)|
    && (s.closer.Some? <==> s.closed)
    && (forall t :: t in s.threads ==> PcFits(s, t, s.threads[t].pc))
    && (s.closed && !s.complete ==> s.closer.value in s.threads && Closing(s.threads[s.closer.value].pc))
    && (s.complete ==> s.closed && s.active == 0)
    && s.closes <= (if s.closed then 1 else 0)
  }

  function Counts(pc: Pc): int {
    if InCall(pc) then 1 else 0
  }

  /** Moving one thread changes the number of active calls by at most that thread. */
  lemma ActiveAfterMove(threads: map<Tid, Thread>, t: Tid, th: Thread)
    ensures |Active(threads[t := th])|
            == |Active(threads)| + Counts(th.pc) - if t in threads then Counts(threads[t].pc) else 0
  {
    var others := Active(threads) - {t};
    assert Active(threads) == if t in threads && InCall(threads[t].pc) then others + {t} else others;
    assert Active(threads[t := th]) == if InCall(th.pc) then others + {t} else others;
  }

  lemma ActiveDelta(cfg: Config, s: Client, step: Step)
    requires Enabled(s, step) && !step.Tick?
    ensures Next(cfg, s, step).active - s.active
            == Counts(ThreadAfter(cfg, s, step).pc) - if step.t in s.threads then Counts(s.threads[step.t].pc) else 0
  {
  }

  lemma ActiveCounted(cfg: Config, s: Client, step: Step)
    requires s.active == |Active(s.threads)| && Enabled(s, step)
    ensures Next(cfg, s, step).active == |Active(Next(cfg, s, step).threads)|
  {
    if !step.Tick? {
      ActiveDelta(cfg, s, step);
      ActiveAfterMove(s.threads, step.t, ThreadAfter(cfg, s, step));
    }
  }

  /** A call keeps the closer waiting: while it is inside, nothing that needs idleness has happened. */
  lemma ActiveCallBlocksClose(s: Client, t: Tid)
    requires LifecycleOk(s) && t in s.threads && InCall(s.threads[t].pc)
    ensures s.active > 0 && !s.complete && s.closes == 0
    ensures s.closed ==> s.threads[s.closer.value].pc.AwaitingIdle?
  {
    assert t in Active(s.threads);
    if s.closed {
      assert PcFits(s, s.closer.value, s.threads[s.closer.value].pc);
    }
  }

  lemma CallKeepsFit(cfg: Config, s: Client, step: Step, t: Tid)
    requires LifecycleOk(s) && Enabled(s, step) && !step.Tick? && t in Next(cfg, s, step).threads
    requires !step.BeginClose? && !step.CloserDone? && !step.Idle? && !step.CloseTransport? && !step.CompleteClose?
    ensures PcFits(Next(cfg, s, step), t, Next(cfg, s, step).threads[t].pc)
  {
    if t != step.t {
      assert PcFits(s, t, s.threads[t].pc);
    }
    if step.Finish? {
      ActiveCallBlocksClose(s, step.t);
    }
  }

  lemma CloseKeepsFit(cfg: Config, s: Client, step: Step, t: Tid)
    requires LifecycleOk(s) && Enabled(s, step) && !step.Tick? && t in Next(cfg, s, step).threads
    requires step.BeginClose? || step.CloserDone? || step.Idle? || step.CloseTransport? || step.CompleteClose?
    ensures PcFits(Next(cfg, s, step), t, Next(cfg, s, step).threads[t].pc)
  {
    assert PcFits(s, step.t, s.threads[step.t].pc);
    if t != step.t {
      assert PcFits(s, t, s.threads[t].pc);
    }
  }

  lemma CloserKeepsRole(cfg: Config, s: Client, step: Step)
    requires LifecycleOk(s) && Enabled(s, step) && !step.Tick?
    ensures var s' := Next(cfg, s, step);
            s'.closed && !s'.complete ==> s'.closer.value in s'.threads && Closing(s'.threads[s'.closer.value].pc)
  {
    if step.t in s.threads {
      assert PcFits(s, step.t, s.threads[step.t].pc);
    }
  }

  lemma CompletionKept(cfg: Config, s: Client, step: Step)
    requires LifecycleOk(s) && Enabled(s, step) && !step.Tick?
    ensures var s' := Next(cfg, s, step);
            (s'.complete ==> s'.active == 0) && s'.closes <= (if s'.closed then 1 else 0)
  {
    if step.t in s.threads {
      assert PcFits(s, step.t, s.threads[step.t].pc);
    }
    if step.Finish? {
      ActiveCallBlocksClose(s, step.t);
    }
  }

  lemma NextKeepsLifecycle(cfg: Config, s: Client, step: Step)
    requires LifecycleOk(s) && Enabled(s, step)
    ensures LifecycleOk(Next(cfg, s, step))
  {
    var s' := Next(cfg, s, step);
    ActiveCounted(cfg, s, step);
    if !step.Tick? {
      CloserKeepsRole(cfg, s, step);
      CompletionKept(cfg, s, step);
    }
    forall t | t in s'.threads
      ensures PcFits(s', t, s'.threads[t].pc)
    {
      if step.Tick? {
        assert PcFits(s, t, s.threads[t].pc);
      } else if step.BeginClose? || step.CloserDone? || step.Idle? || step.CloseTransport? || step.CompleteClose? {
        CloseKeepsFit(cfg, s, step, t);
      } else {
        CallKeepsFit(cfg, s, step, t);
      }
    }
  }

  lemma {:induction false} RunKeepsLifecycle(cfg: Config, states: seq<Client>, steps: seq<Step>, i: nat)
    requires IsRun(cfg, states, steps) && i < |states|
    ensures LifecycleOk(states[i])
  {
    if i > 0 {
      RunKeepsLifecycle(cfg, states, steps, i - 1);
      assert StepAt(cfg, states, steps, i - 1);
      NextKeepsLifecycle(cfg, states[i - 1], steps[i - 1]);
    }
  }

  // ---------- Lifecycle theorems ----------

  /** The transport is closed at most once. */
  lemma ClosedAtMostOnce(cfg: Config, states: seq<Client>, steps: seq<Step>, i: nat)
    requires IsRun(cfg, states, steps) && i < |states|
    ensures states[i].closes <= 1
  {
    RunKeepsLifecycle(cfg, states, steps, i);
  }

  /** The transport is closed only when no call is active. */
  lemma ClosedOnlyWhenIdle(cfg: Config, states: seq<Client>, steps: seq<Step>, i: nat)
    requires IsRun(cfg, states, steps) && i < |steps| && states[i + 1].closes != states[i].closes
    ensures Active(states[i].threads) == {} && states[i].active == 0
  {
    RunKeepsLifecycle(cfg, states, steps, i);
    assert StepAt(cfg, states, steps, i);
    var t := steps[i].t;
    assert PcFits(states[i], t, states[i].threads[t].pc);
  }

  /** Every use of the transport finds it present and not yet closed. */
  lemma NeverUsedAfterClose(cfg: Config, states: seq<Client>, steps: seq<Step>, i: nat)
    requires IsRun(cfg, states, steps) && i < |steps| && steps[i].Post?
    ensures states[i].hasTransport && states[i].closes == 0 && !states[i].complete
  {
    RunKeepsLifecycle(cfg, states, steps, i);
    assert StepAt(cfg, states, steps, i);
    ActiveCallBlocksClose(states[i], steps[i].t);
  }

  /** A close that has returned returned after closing was complete, and from then on no call begins,
      none is active and the transport is not touched. */
  lemma CloseReturnsWhenComplete(cfg: Config, states: seq<Client>, steps: seq<Step>, i: nat, t: Tid)
    requires IsRun(cfg, states, steps) && i < |states|
    requires t in states[i].threads && states[i].threads[t].pc.Closed?
    ensures states[i].complete && states[i].closed && Active(states[i].threads) == {}
  {
    RunKeepsLifecycle(cfg, states, steps, i);
    assert PcFits(states[i], t, states[i].threads[t].pc);
  }

  // ---------- Closing comes to an end ----------

  /** Steps a thread still has to take before it has left the client, once the client is closed. */
  function Weight(cfg: Config, pc: Pc): nat {
    match pc
    case Preflight => 10
    case CheckingClosed => 9
    case AskingBreaker => 8
    case BuildingPayload => 7
    case FetchingTransport => 6
    case Posting(attempt) => if attempt + 1 < Attempts(cfg) then 4 else 3
    case ReportingSuccess => 2
    case ReportingFailure => 2
    case Finishing => 1
    case AwaitingIdle => 3
    case ClosingTransport(_) => 2
    case CompletingClose(_) => 1
    case _ => 0
  }

  function Work(cfg: Config, threads: map<Tid, Thread>, bound: nat): nat {
    if bound == 0 then 0
    else Work(cfg, threads, bound - 1) + if bound - 1 in threads then Weight(cfg, threads[bound - 1].pc) else 0
  }

  /** A step of a thread that is inside a call, or of the thread that closes. */
  predicate IsWork(s: Client, step: Step) {
    !step.Tick? && step.t in s.threads && (InCall(s.threads[step.t].pc) || Closing(s.threads[step.t].pc))
  }

  ghost function WorkSteps(states: seq<Client>, steps: seq<Step>, i: nat, n: nat): nat
    requires |states| == |steps| + 1 && i <= n <= |steps|
    decreases n
  {
    if n == i then 0 else WorkSteps(states, steps, i, n - 1) + if IsWork(states[n - 1], steps[n - 1]) then 1 else 0
  }

  lemma {:induction false} WorkAfterMove(cfg: Config, threads: map<Tid, Thread>, t: Tid, th: Thread, bound: nat)
    ensures Work(cfg, threads[t := th], bound)
            == Work(cfg, threads, bound)
               + if t < bound then Weight(cfg, th.pc) - (if t in threads then Weight(cfg, threads[t].pc) else 0) else 0
  {
    if bound > 0 {
      WorkAfterMove(cfg, threads, t, th, bound - 1);
    }
  }

  /** Once closed, a step of work does some of it, and no other step adds any. */
  lemma WorkFalls(cfg: Config, s: Client, step: Step)
    requires s.closed && Enabled(s, step) && !step.Tick?
    ensures var before := if step.t in s.threads then Weight(cfg, s.threads[step.t].pc) else 0;
            Weight(cfg, ThreadAfter(cfg, s, step).pc) <= if IsWork(s, step) then before - 1 else before
  {
  }

  /** While the client is closing, some work can be done: nobody waits for a thread that cannot move. */
  lemma WorkIsEnabled(cfg: Config, s: Client)
    requires LifecycleOk(s) && s.closed && !s.complete
    ensures exists step :: Enabled(s, step) && IsWork(s, step)
  {
    var t := s.closer.value;
    var step := Idle(t);
    if s.threads[t].pc.ClosingTransport? {
      step := CloseTransport(t, false);
    } else if s.threads[t].pc.CompletingClose? {
      step := CompleteClose(t);
    } else if s.active > 0 {
      var u :| u in Active(s.threads);
      step := CallStep(s, u);
    }
    assert Enabled(s, step) && IsWork(s, step);
  }

  /** What a thread inside a call can do next. */
  function CallStep(s: Client, t: Tid): (step: Step)
    requires t in s.threads && InCall(s.threads[t].pc)
    ensures Enabled(s, step) && IsWork(s, step)
  {
    match s.threads[t].pc
    case Preflight => Proceed(t)
    case CheckingClosed => CheckClosed(t)
    case AskingBreaker => AskBreaker(t)
    case BuildingPayload => BuildPayload(t)
    case FetchingTransport => FetchTransport(t, true)
    case Posting(_) => Post(t, Rejected)
    case Finishing => Finish(t)
    case _ => Report(t)
  }

  /** Closing never hangs. From the moment the client is closed, the threads inside a call and the one
      that closes have only so many steps left, whatever others do; and until closing is complete one
      of them can always take its next one. */
  lemma {:induction false} CloseCannotHang(cfg: Config, states: seq<Client>, steps: seq<Step>, i: nat, n: nat, bound: nat)
    requires IsRun(cfg, states, steps) && i <= n < |states| && states[i].closed
    requires forall t <- states[i].threads :: t < bound
    ensures states[n].closed
    ensures forall t <- states[n].threads :: Weight(cfg, states[n].threads[t].pc) > 0 ==> t < bound
    ensures WorkSteps(states, steps, i, n) + Work(cfg, states[n].threads, bound) <= Work(cfg, states[i].threads, bound)
    ensures !states[n].complete ==> exists step :: Enabled(states[n], step) && IsWork(states[n], step)
    decreases n
  {
    RunKeepsLifecycle(cfg, states, steps, n);
    if n > i {
      var s, step := states[n - 1], steps[n - 1];
      CloseCannotHang(cfg, states, steps, i, n - 1, bound);
      assert StepAt(cfg, states, steps, n - 1);
      if !step.Tick? {
        WorkFalls(cfg, s, step);
        WorkAfterMove(cfg, s.threads, step.t, ThreadAfter(cfg, s, step), bound);
      }
    }
    if !states[n].complete {
      WorkIsEnabled(cfg, states[n]);
    }
  }

  // ---------- The client's own fields ----------

  /** The fields guarded by the client's condition variable; each method is one critical section. */
  class LifecycleFields {
    var activeCalls: int
    var closed: bool
    var closeComplete: bool

    constructor ()
      ensures activeCalls == 0 && !closed && !closeComplete
    {
      activeCalls, closed, closeComplete := 0, false, false;
    }

    ghost predicate Matches(s: Client)
      reads this
    {
      activeCalls == s.active && closed == s.closed && closeComplete == s.complete
    }

    method BeginCall(ghost cfg: Config, ghost s: Client, ghost t: Tid) returns (begun: bool)
      requires Matches(s) && Enabled(s, Begin(t))
      modifies this
      ensures Matches(Next(cfg, s, Begin(t)))
      ensures begun <==> PcAfter(cfg, s, Begin(t)) == Preflight
    {
      if closed {
        return false;
      }
      activeCalls := activeCalls + 1;
      return true;
    }

    /** `wakes`: the closer waiting for the last call is notified. */
    method FinishCall(ghost cfg: Config, ghost s: Client, ghost t: Tid) returns (wakes: bool)
      requires Matches(s) && Enabled(s, Finish(t)) && LifecycleOk(s)
      modifies this
      ensures Matches(Next(cfg, s, Finish(t)))
      ensures wakes <==> Active(Next(cfg, s, Finish(t)).threads) == {}
    {
      activeCalls := activeCalls - 1;
      ActiveCounted(cfg, s, Finish(t));
      wakes := activeCalls == 0;
    }

    /** `first`: this caller is the one that closes. */
    method BeginClosing(ghost cfg: Config, ghost s: Client, ghost t: Tid) returns (first: bool)
      requires Matches(s) && Enabled(s, BeginClose(t)) && LifecycleOk(s)
      modifies this
      ensures Matches(Next(cfg, s, BeginClose(t)))
      ensures first <==> PcAfter(cfg, s, BeginClose(t)) == AwaitingIdle
    {
      if closeComplete {
        return false;
      }
      if closed {
        return false;
      }
      closed := true;
      return true;
    }

    method MarkComplete(ghost cfg: Config, ghost s: Client, ghost t: Tid)
      requires Matches(s) && Enabled(s, CompleteClose(t))
      modifies this
      ensures Matches(Next(cfg, s, CompleteClose(t)))
    {
      closeComplete := true;
    }
  }
}
