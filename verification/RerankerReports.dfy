/**
 What the reranker client tells its circuit breaker. An admitted call reports exactly once unless it
 leaves silently; if the last call that owes a report leaves silently while the probe flag is set, the
 breaker is wedged. An open client wedges only if it was given a transport or a candidate that is no
 dictionary.
 */
module RerankerReports {
  import opened Wrappers
  import opened CircuitBreakers
  import opened RerankerLifecycle

  // ---------- Reports to the breaker ----------

  /** An admitted call that still owes the breaker its report. */
  predicate Owing(th: Thread) {
    th.admitted && th.reports == 0 && OwingPc(th.pc)
  }

  /** An admitted call that leaves without reporting. */
  predicate LeavesSilently(s: Client, step: Step)
    requires Enabled(s, step)
  {
    match step
    case BuildPayload(t) => !s.threads[t].dicts
    case FetchTransport(_, _) => s.closed
    case Post(_, o) => Silent(o)
    case _ => false
  }

  /** The positions between the breaker's admission and the report. */
  predicate OwingPc(pc: Pc) {
    pc.BuildingPayload? || pc.FetchingTransport? || pc.Posting? || pc.ReportingSuccess? || pc.ReportingFailure?
  }

  predicate ThreadOk(th: Thread) {
    && th.reports <= (if th.admitted then 1 else 0)
    && (OwingPc(th.pc) ==> th.admitted && th.reports == 0)
    && (th.pc.Beginning? || th.pc.Preflight? || th.pc.CheckingClosed? || th.pc.AskingBreaker? ==> !th.admitted)
  }

  ghost predicate ThreadsOk(s: Client) {
    forall t :: t in s.threads ==> ThreadOk(s.threads[t])
  }

  lemma OwnThreadOk(cfg: Config, s: Client, step: Step)
    requires Enabled(s, step) && !step.Tick? && (step.t in s.threads ==> ThreadOk(s.threads[step.t]))
    ensures ThreadOk(ThreadAfter(cfg, s, step))
  {
  }

  lemma NextKeepsThreads(cfg: Config, s: Client, step: Step)
    requires ThreadsOk(s) && Enabled(s, step)
    ensures ThreadsOk(Next(cfg, s, step))
  {
    if !step.Tick? {
      OwnThreadOk(cfg, s, step);
    }
  }

  lemma {:induction false} RunKeepsThreads(cfg: Config, states: seq<Client>, steps: seq<Step>, i: nat)
    requires IsRun(cfg, states, steps) && i < |states|
    ensures ThreadsOk(states[i])
  {
    if i > 0 {
      RunKeepsThreads(cfg, states, steps, i - 1);
      assert StepAt(cfg, states, steps, i - 1);
      NextKeepsThreads(cfg, states[i - 1], steps[i - 1]);
    }
  }

  /** A step moves its own thread and no other. */
  lemma OneThreadMoves(cfg: Config, s: Client, step: Step, t: Tid)
    requires Enabled(s, step)
    ensures var s' := Next(cfg, s, step);
            && (!step.Tick? && step.t == t ==> t in s'.threads && s'.threads[t] == ThreadAfter(cfg, s, step))
            && (step.Tick? || step.t != t ==> (t in s'.threads <==> t in s.threads)
                                              && (t in s.threads ==> s'.threads[t] == s.threads[t]))
  {
  }

  lemma OwingThreadMoves(cfg: Config, s: Client, step: Step)
    requires Enabled(s, step) && !step.Tick? && step.t in s.threads
    requires ThreadOk(s.threads[step.t]) && Owing(s.threads[step.t])
    ensures var th := ThreadAfter(cfg, s, step);
            && (!Owing(th) <==> step.Report? || LeavesSilently(s, step))
            && th.reports == if step.Report? then 1 else 0
  {
  }

  lemma SettledThreadMoves(cfg: Config, s: Client, step: Step)
    requires Enabled(s, step) && !step.Tick? && step.t in s.threads
    requires ThreadOk(s.threads[step.t]) && s.threads[step.t].admitted && !Owing(s.threads[step.t])
    ensures var th := ThreadAfter(cfg, s, step);
            th.reports == s.threads[step.t].reports && !Owing(th) && !LeavesSilently(s, step)
  {
  }

  /** An admitted call stops owing its report in exactly two ways: by reporting once, or by leaving
      silently. Only its own step can do either. */
  lemma OwingEndsByReportOrSilence(cfg: Config, s: Client, step: Step, t: Tid)
    requires ThreadsOk(s) && Enabled(s, step) && t in s.threads && Owing(s.threads[t])
    ensures var s' := Next(cfg, s, step);
            && t in s'.threads
            && (!Owing(s'.threads[t]) <==> (step == Report(t) || (LeavesSilently(s, step) && step.t == t)))
            && (step == Report(t) ==> s'.threads[t].reports == 1)
            && (step != Report(t) ==> s'.threads[t].reports == 0)
  {
    OneThreadMoves(cfg, s, step, t);
    if !step.Tick? && step.t == t {
      OwingThreadMoves(cfg, s, step);
    }
  }

  /** The calls that end without a report: the step of some run at which thread t left silently. */
  ghost predicate WentSilent(cfg: Config, states: seq<Client>, steps: seq<Step>, n: nat, t: Tid)
    requires |states| == |steps| + 1 && n <= |steps|
  {
    exists j: nat :: j < n && StepAt(cfg, states, steps, j) && LeavesSilently(states[j], steps[j]) && steps[j].t == t
  }

  lemma {:induction false} AdmittedReportsOnceHelper(cfg: Config, states: seq<Client>, steps: seq<Step>, n: nat, t: Tid)
    requires IsRun(cfg, states, steps) && n < |states|
    requires t in states[n].threads && states[n].threads[t].admitted
    ensures Owing(states[n].threads[t]) ==> !WentSilent(cfg, states, steps, n, t)
    ensures !Owing(states[n].threads[t]) ==>
              (states[n].threads[t].reports == 1 <==> !WentSilent(cfg, states, steps, n, t))
  {
    if n > 0 {
      var s, step := states[n - 1], steps[n - 1];
      assert StepAt(cfg, states, steps, n - 1);
      RunKeepsThreads(cfg, states, steps, n - 1);
      RunKeepsThreads(cfg, states, steps, n);
      if t in s.threads && s.threads[t].admitted {
        AdmittedReportsOnceHelper(cfg, states, steps, n - 1, t);
        if Owing(s.threads[t]) {
          OwingEndsByReportOrSilence(cfg, s, step, t);
        } else {
          SettledStaysSettled(cfg, s, step, t);
        }
        SilenceGrowsByOne(cfg, states, steps, n, t);
      } else {
        NotYetAdmitted(cfg, states, steps, n - 1, t);
        SilenceGrowsByOne(cfg, states, steps, n, t);
        JustAdmitted(cfg, s, step, t);
      }
    }
  }

  lemma SettledStaysSettled(cfg: Config, s: Client, step: Step, t: Tid)
    requires ThreadsOk(s) && Enabled(s, step) && t in s.threads && s.threads[t].admitted && !Owing(s.threads[t])
    ensures var s' := Next(cfg, s, step);
            t in s'.threads && s'.threads[t].reports == s.threads[t].reports && !Owing(s'.threads[t])
            && !(LeavesSilently(s, step) && step.t == t)
  {
    OneThreadMoves(cfg, s, step, t);
    if !step.Tick? && step.t == t {
      SettledThreadMoves(cfg, s, step);
    }
  }

  lemma JustAdmitted(cfg: Config, s: Client, step: Step, t: Tid)
    requires ThreadsOk(s) && Enabled(s, step) && (t in s.threads ==> !s.threads[t].admitted)
    requires var s' := Next(cfg, s, step); t in s'.threads && s'.threads[t].admitted
    ensures step == AskBreaker(t) && Owing(Next(cfg, s, step).threads[t])
  {
  }

  lemma SilenceGrowsByOne(cfg: Config, states: seq<Client>, steps: seq<Step>, n: nat, t: Tid)
    requires IsRun(cfg, states, steps) && 0 < n < |states|
    ensures WentSilent(cfg, states, steps, n, t) <==>
              WentSilent(cfg, states, steps, n - 1, t)
              || (StepAt(cfg, states, steps, n - 1) && LeavesSilently(states[n - 1], steps[n - 1]) && steps[n - 1].t == t)
  {
    if WentSilent(cfg, states, steps, n, t) && !WentSilent(cfg, states, steps, n - 1, t) {
      var j: nat :| j < n && StepAt(cfg, states, steps, j) && LeavesSilently(states[j], steps[j]) && steps[j].t == t;
      assert j == n - 1;
    }
  }

  /** A thread the breaker has not admitted cannot have left an admitted call. */
  lemma {:induction false} NotYetAdmitted(cfg: Config, states: seq<Client>, steps: seq<Step>, n: nat, t: Tid)
    requires IsRun(cfg, states, steps) && n < |states|
    requires t in states[n].threads ==> !states[n].threads[t].admitted
    ensures !WentSilent(cfg, states, steps, n, t)
  {
    if n > 0 {
      assert StepAt(cfg, states, steps, n - 1);
      RunKeepsThreads(cfg, states, steps, n - 1);
      SilenceGrowsByOne(cfg, states, steps, n, t);
      NotYetAdmitted(cfg, states, steps, n - 1, t);
    }
  }

  /** Every call the breaker admitted and that has returned reported exactly one success or failure,
      unless, and only unless, it left silently: its payload could not be built, the client was closed
      when it fetched the transport, or the transport itself raised CLIENT_CLOSED or CircuitOpenError. */
  lemma AdmittedReportsExactlyOnce(cfg: Config, states: seq<Client>, steps: seq<Step>, n: nat, t: Tid)
    requires IsRun(cfg, states, steps) && n < |states|
    requires t in states[n].threads && states[n].threads[t].admitted && states[n].threads[t].pc.Returned?
    ensures states[n].threads[t].reports <= 1
    ensures states[n].threads[t].reports == 1 <==> !WentSilent(cfg, states, steps, n, t)
  {
    AdmittedReportsOnceHelper(cfg, states, steps, n, t);
    RunKeepsThreads(cfg, states, steps, n);
  }

  // ---------- The probe flag ----------

  ghost predicate ProbeInFlight(s: Client) {
    exists t :: t in s.threads && Owing(s.threads[t])
  }

  /** The flag is set and nobody is left to clear it. */
  ghost predicate Wedged(s: Client) {
    s.breaker.probing && !ProbeInFlight(s)
  }

  /** A step wedges the breaker exactly when the last call that owes a report leaves silently while
      the probe flag is set. */
  lemma WedgesExactlyBySilence(cfg: Config, s: Client, step: Step)
    requires ThreadsOk(s) && Enabled(s, step) && !Wedged(s)
    ensures Wedged(Next(cfg, s, step)) <==>
              s.breaker.probing && LeavesSilently(s, step)
              && forall t :: t in s.threads && Owing(s.threads[t]) ==> t == step.t
  {
    var s' := Next(cfg, s, step);
    if t :| t in s.threads && Owing(s.threads[t]) && (step.Tick? || t != step.t) {
      assert t in s'.threads && Owing(s'.threads[t]);
    } else if t :| t in s.threads && Owing(s.threads[t]) {
      OwingEndsByReportOrSilence(cfg, s, step, t);
      LastOwingCall(cfg, s, step, t);
    } else {
      ProbeSetByAdmission(cfg, s, step);
    }
  }

  /** With one owing call left, its own step decides. */
  lemma LastOwingCall(cfg: Config, s: Client, step: Step, t: Tid)
    requires ThreadsOk(s) && Enabled(s, step) && !step.Tick? && step.t == t && t in s.threads && Owing(s.threads[t])
    requires forall u :: u in s.threads && Owing(s.threads[u]) ==> u == t
    ensures var s' := Next(cfg, s, step);
            && (ProbeInFlight(s') <==> Owing(s'.threads[t]))
            && (step.Report? ==> !s'.breaker.probing)
            && (!step.Report? ==> s'.breaker == s.breaker)
  {
  }

  /** With no owing call, the flag can only be set by admitting one. */
  lemma ProbeSetByAdmission(cfg: Config, s: Client, step: Step)
    requires ThreadsOk(s) && Enabled(s, step) && !s.breaker.probing
    requires forall u :: u in s.threads ==> !Owing(s.threads[u])
    ensures !Wedged(Next(cfg, s, step))
  {
    var s' := Next(cfg, s, step);
    if s'.breaker.probing {
      assert step.AskBreaker? && ThreadOk(s.threads[step.t]) && Owing(s'.threads[step.t]);
    }
  }

  /** Over any run without a silent exit there is no wedge: a set probe flag always has an admitted
      call in flight that still owes its report. */
  lemma {:induction false} NoWedgeWithoutSilence(cfg: Config, states: seq<Client>, steps: seq<Step>, n: nat)
    requires IsRun(cfg, states, steps) && n < |states|
    requires forall j: nat :: j < n && StepAt(cfg, states, steps, j) ==> !LeavesSilently(states[j], steps[j])
    ensures states[n].breaker.probing ==> ProbeInFlight(states[n])
  {
    if n > 0 {
      NoWedgeWithoutSilence(cfg, states, steps, n - 1);
      assert StepAt(cfg, states, steps, n - 1);
      RunKeepsThreads(cfg, states, steps, n - 1);
      WedgesExactlyBySilence(cfg, states[n - 1], steps[n - 1]);
    }
  }

  ghost predicate ProbeMeansOpen(s: Client) {
    s.breaker.probing ==> s.breaker.openedAt.Some?
  }

  lemma NextKeepsProbeMeansOpen(cfg: Config, s: Client, step: Step)
    requires Enabled(s, step) && ProbeMeansOpen(s)
    ensures ProbeMeansOpen(Next(cfg, s, step))
  {
  }

  /** No step clears a wedge, and none admits a call. */
  lemma WedgeStays(cfg: Config, s: Client, step: Step)
    requires ThreadsOk(s) && Enabled(s, step) && Wedged(s) && ProbeMeansOpen(s)
    ensures Wedged(Next(cfg, s, step))
    ensures step.AskBreaker? ==> !Next(cfg, s, step).threads[step.t].admitted
  {
    var s' := Next(cfg, s, step);
    forall t | t in s'.threads
      ensures !Owing(s'.threads[t])
    {
      if t in s.threads {
        assert !Owing(s.threads[t]);
      }
    }
  }

  lemma {:induction false} RunKeepsProbeMeansOpen(cfg: Config, states: seq<Client>, steps: seq<Step>, n: nat)
    requires IsRun(cfg, states, steps) && n < |states|
    ensures ProbeMeansOpen(states[n])
  {
    if n > 0 {
      RunKeepsProbeMeansOpen(cfg, states, steps, n - 1);
      assert StepAt(cfg, states, steps, n - 1);
      NextKeepsProbeMeansOpen(cfg, states[n - 1], steps[n - 1]);
    }
  }

  /** A wedge is for good: once a run is wedged it stays wedged, and the breaker refuses every later call. */
  lemma {:induction false} WedgeIsPermanent(cfg: Config, states: seq<Client>, steps: seq<Step>, n: nat, m: nat)
    requires IsRun(cfg, states, steps) && n <= m < |states| && Wedged(states[n])
    ensures Wedged(states[m])
    ensures forall j: nat :: n <= j < m && steps[j].AskBreaker? && steps[j].t in states[j + 1].threads
              ==> !states[j + 1].threads[steps[j].t].admitted
    decreases m
  {
    if m > n {
      WedgeIsPermanent(cfg, states, steps, n, m - 1);
      assert StepAt(cfg, states, steps, m - 1);
      RunKeepsThreads(cfg, states, steps, m - 1);
      RunKeepsProbeMeansOpen(cfg, states, steps, m - 1);
      WedgeStays(cfg, states[m - 1], steps[m - 1]);
    }
  }

  // ---------- Which clients can wedge ----------

  /** How a client is used: whether it was given a transport, and whether every call passes dictionaries. */
  datatype Use = Use(given: bool, dicts: bool)

  ghost predicate UsedAs(u: Use, states: seq<Client>, steps: seq<Step>) {
    && states != [] && states[0].given == u.given
    && (u.dicts ==> forall j: nat :: j < |steps| && steps[j].CallRerank? ==> steps[j].dicts)
  }

  /** What an ordinary use means in a state of a run. */
  ghost predicate Ordinary(s: Client) {
    !s.given && forall t <- s.threads :: s.threads[t].dicts
  }

  lemma {:induction false} RunStaysOrdinary(cfg: Config, states: seq<Client>, steps: seq<Step>, n: nat)
    requires IsRun(cfg, states, steps) && n < |states| && UsedAs(Use(false, true), states, steps)
    ensures Ordinary(states[n])
  {
    if n > 0 {
      RunStaysOrdinary(cfg, states, steps, n - 1);
      assert StepAt(cfg, states, steps, n - 1);
    }
  }

  lemma {:induction false} ClosedStaysClosed(cfg: Config, states: seq<Client>, steps: seq<Step>, i: nat, n: nat)
    requires IsRun(cfg, states, steps) && i <= n < |states| && states[i].closed
    ensures states[n].closed
    decreases n
  {
    if i < n {
      ClosedStaysClosed(cfg, states, steps, i, n - 1);
      assert StepAt(cfg, states, steps, n - 1);
    }
  }

  lemma OpenClientIsNeverSilent(cfg: Config, states: seq<Client>, steps: seq<Step>, n: nat, j: nat)
    requires IsRun(cfg, states, steps) && j < n < |states| && UsedAs(Use(false, true), states, steps) && !states[n].closed
    ensures StepAt(cfg, states, steps, j) && !LeavesSilently(states[j], steps[j])
  {
    assert StepAt(cfg, states, steps, j);
    RunStaysOrdinary(cfg, states, steps, j);
    if states[j].closed {
      ClosedStaysClosed(cfg, states, steps, j, n);
    }
  }

  /** A client that makes its own transport and is called with dictionaries never wedges while it is
      open: a set probe flag always has an admitted call in flight, and every admitted call that has
      returned reported exactly one success or failure. */
  lemma OpenClientNeverWedges(cfg: Config, states: seq<Client>, steps: seq<Step>, n: nat)
    requires IsRun(cfg, states, steps) && n < |states| && UsedAs(Use(false, true), states, steps) && !states[n].closed
    ensures states[n].breaker.probing ==> ProbeInFlight(states[n])
    ensures forall t <- states[n].threads :: states[n].threads[t].admitted && states[n].threads[t].pc.Returned?
              ==> states[n].threads[t].reports == 1
  {
    forall j: nat | j < n
      ensures StepAt(cfg, states, steps, j) && !LeavesSilently(states[j], steps[j])
    {
      OpenClientIsNeverSilent(cfg, states, steps, n, j);
    }
    NoWedgeWithoutSilence(cfg, states, steps, n);
    forall t | t in states[n].threads && states[n].threads[t].admitted && states[n].threads[t].pc.Returned?
      ensures states[n].threads[t].reports == 1
    {
      AdmittedReportsExactlyOnce(cfg, states, steps, n, t);
    }
  }

  // ---------- A client that wedges ----------

  ghost predicate RunTo(cfg: Config, u: Use, states: seq<Client>, steps: seq<Step>, s: Client) {
    IsRun(cfg, states, steps) && UsedAs(u, states, steps) && states[|steps|] == s
  }

  ghost predicate Reachable(cfg: Config, u: Use, s: Client) {
    exists states, steps :: RunTo(cfg, u, states, steps, s)
  }

  lemma ReachNext(cfg: Config, u: Use, s: Client, step: Step)
    requires Reachable(cfg, u, s) && Enabled(s, step) && (u.dicts && step.CallRerank? ==> step.dicts)
    ensures Reachable(cfg, u, Next(cfg, s, step))
  {
    var states, steps :| RunTo(cfg, u, states, steps, s);
    var states', steps' := states + [Next(cfg, s, step)], steps + [step];
    forall i: nat | i < |steps'|
      ensures StepAt(cfg, states', steps', i)
    {
      assert i < |steps| ==> StepAt(cfg, states, steps, i);
    }
    assert RunTo(cfg, u, states', steps', Next(cfg, s, step));
  }

  /** Thread t may be inside a call; all threads before it have returned and there is no other. */
  ghost predicate Alone(s: Client, t: Tid) {
    !s.closed && forall x <- s.threads :: x != t ==> x < t && s.threads[x].pc.Returned?
  }

  /** One step of thread t. */
  lemma Move(cfg: Config, u: Use, s: Client, t: Tid, step: Step) returns (s': Client)
    requires Reachable(cfg, u, s) && Alone(s, t) && Enabled(s, step) && !step.Tick? && step.t == t
    requires !step.BeginClose? && (u.dicts && step.CallRerank? ==> step.dicts)
    ensures Reachable(cfg, u, s') && Alone(s', t)
    ensures t in s'.threads && s'.threads[t] == ThreadAfter(cfg, s, step)
    ensures s'.breaker == BreakerAfter(cfg, s, step) && s'.now == s.now && s'.given == s.given
  {
    ReachNext(cfg, u, s, step);
    s' := Next(cfg, s, step);
  }

  /** A new call reaches the breaker's question. */
  lemma CallArrives(cfg: Config, u: Use, s: Client, t: Tid, dicts: bool) returns (s': Client)
    requires Reachable(cfg, u, s) && Alone(s, t) && t !in s.threads && (u.dicts ==> dicts)
    ensures Reachable(cfg, u, s') && Alone(s', t) && s'.breaker == s.breaker && s'.now == s.now && s'.given == s.given
    ensures t in s'.threads && s'.threads[t] == Thread(AskingBreaker, dicts, false, 0)
  {
    s' := Move(cfg, u, s, t, CallRerank(t, dicts));
    s' := Move(cfg, u, s', t, Begin(t));
    s' := Move(cfg, u, s', t, Proceed(t));
    s' := Move(cfg, u, s', t, CheckClosed(t));
  }

  /** An admitted call with dictionaries reaches the transport. */
  lemma CallPosts(cfg: Config, u: Use, s: Client, t: Tid) returns (s': Client)
    requires Reachable(cfg, u, s) && Alone(s, t) && t in s.threads && s.threads[t] == Thread(AskingBreaker, true, false, 0)
    requires Admits(cfg.limits, s.breaker, s.now)
    ensures Reachable(cfg, u, s') && Alone(s', t) && s'.now == s.now && s'.given == s.given
    ensures s'.breaker == AfterCall(cfg.limits, s.breaker, s.now)
    ensures t in s'.threads && s'.threads[t] == Thread(Posting(0), true, true, 0)
  {
    s' := Move(cfg, u, s, t, AskBreaker(t));
    s' := Move(cfg, u, s', t, BuildPayload(t));
    s' := Move(cfg, u, s', t, FetchTransport(t, true));
  }

  /** A call that the transport rejects, from start to end. */
  lemma CallFails(cfg: Config, u: Use, s: Client, t: Tid) returns (s': Client)
    requires Reachable(cfg, u, s) && Alone(s, t) && t !in s.threads && s.breaker.openedAt.None?
    ensures Reachable(cfg, u, s') && Alone(s', t + 1) && t + 1 !in s'.threads && s'.given == s.given && s'.now == s.now
    ensures s'.breaker == AfterFailure(cfg.limits, s.breaker, s.now)
  {
    s' := CallArrives(cfg, u, s, t, true);
    s' := CallPosts(cfg, u, s', t);
    s' := RejectionReported(cfg, u, s', t);
  }

  lemma RejectionReported(cfg: Config, u: Use, s: Client, t: Tid) returns (s': Client)
    requires Reachable(cfg, u, s) && Alone(s, t) && t in s.threads && s.threads[t].pc == Posting(0)
    ensures Reachable(cfg, u, s') && Alone(s', t) && s'.given == s.given && s'.now == s.now
    ensures t in s'.threads && s'.threads[t].pc.Returned?
    ensures s'.breaker == AfterFailure(cfg.limits, s.breaker, s.now)
  {
    s' := Move(cfg, u, s, t, Post(t, Rejected));
    s' := Move(cfg, u, s', t, Report(t));
    s' := Move(cfg, u, s', t, Finish(t));
  }

  /** Enough failing calls open the breaker. */
  lemma {:induction false} BreakerOpens(cfg: Config, u: Use, s: Client, t: Tid) returns (s': Client, t': Tid)
    requires Reachable(cfg, u, s) && Alone(s, t) && t !in s.threads
    requires s.breaker.openedAt.None? && !s.breaker.probing && s.breaker.failures < Threshold(cfg.limits)
    ensures Reachable(cfg, u, s') && Alone(s', t') && t' !in s'.threads && s'.given == s.given
    ensures s'.breaker.openedAt == Some(s'.now) && !s'.breaker.probing
    decreases Threshold(cfg.limits) - s.breaker.failures
  {
    s' := CallFails(cfg, u, s, t);
    t' := t + 1;
    if s'.breaker.openedAt.None? {
      s', t' := BreakerOpens(cfg, u, s', t');
    }
  }

  /** Once it may recover, a call is admitted as the probe. */
  lemma ProbeArrives(cfg: Config, u: Use, dicts: bool) returns (s: Client, t: Tid)
    requires u.dicts ==> dicts
    ensures Reachable(cfg, u, s) && Alone(s, t) && s.given == u.given
    ensures t in s.threads && s.threads[t] == Thread(AskingBreaker, dicts, false, 0)
    ensures s.breaker.openedAt.Some? && Admits(cfg.limits, s.breaker, s.now)
  {
    s := Client(u.given, 0.0, 0, false, false, u.given, 0, None, CLOSED, map[]);
    var steps: seq<Step> := [];
    assert RunTo(cfg, u, [s], steps, s);
    s, t := BreakerOpens(cfg, u, s, 0);
    var wait := Tick(Recovery(cfg.limits).Floor + 1);
    ReachNext(cfg, u, s, wait);
    s := Next(cfg, s, wait);
    s := CallArrives(cfg, u, s, t, dicts);
  }

  /** The probe leaves without a report: a candidate has no text, or the given transport says so. */
  lemma ProbeLeaves(cfg: Config, u: Use) returns (s: Client)
    requires u.given || !u.dicts
    ensures Reachable(cfg, u, s) && Wedged(s) && !s.closed
  {
    var t;
    s, t := ProbeArrives(cfg, u, u.dicts);
    if u.dicts {
      s := CallPosts(cfg, u, s, t);
      s := Move(cfg, u, s, t, Post(t, SaysCircuitOpen));
    } else {
      s := Move(cfg, u, s, t, AskBreaker(t));
      s := Move(cfg, u, s, t, BuildPayload(t));
    }
  }

  /** Whatever the configuration, an open client can come to be wedged exactly when it was given a
      transport or may be called with a candidate that is no dictionary. */
  lemma OpenClientWedgesIff(cfg: Config, u: Use)
    ensures (exists s :: Reachable(cfg, u, s) && Wedged(s) && !s.closed) <==> u.given || !u.dicts
  {
    if u.given || !u.dicts {
      var s := ProbeLeaves(cfg, u);
      assert Reachable(cfg, u, s);
    } else if s :| Reachable(cfg, u, s) && Wedged(s) && !s.closed {
      var states, steps :| RunTo(cfg, u, states, steps, s);
      OpenClientNeverWedges(cfg, states, steps, |steps|);
    }
  }

  // ---------- The breaker over a run ----------

  function EventOf(s: Client, step: Step): seq<Event>
    requires Enabled(s, step)
  {
    match step
    case AskBreaker(_) => [Call(s.now)]
    case Report(t) => [if s.threads[t].pc.ReportingSuccess? then Success else Failure(s.now)]
    case _ => []
  }

  /** The calls and reports the breaker has seen in the first n steps. */
  ghost function EventsOf(cfg: Config, states: seq<Client>, steps: seq<Step>, n: nat): seq<Event>
    requires IsRun(cfg, states, steps) && n <= |steps|
  {
    if n == 0 then []
    else
      assert StepAt(cfg, states, steps, n - 1);
      EventsOf(cfg, states, steps, n - 1) + EventOf(states[n - 1], steps[n - 1])
  }

  lemma EventReplayed(cfg: Config, s: Client, step: Step, before: seq<Event>)
    requires Enabled(s, step) && s.breaker == Replay(cfg.limits, before)
    ensures BreakerAfter(cfg, s, step) == Replay(cfg.limits, before + EventOf(s, step))
  {
    var event := EventOf(s, step);
    if event == [] {
      assert before + event == before;
    } else {
      assert (before + event)[..|before + event| - 1] == before;
    }
  }

  /** The client's breaker is the replay of the calls and reports of the run, so what is proved of
      histories holds of every reachable state. */
  lemma {:induction false} RunBreakerIsReplay(cfg: Config, states: seq<Client>, steps: seq<Step>, n: nat)
    requires IsRun(cfg, states, steps) && n <= |steps|
    ensures states[n].breaker == Replay(cfg.limits, EventsOf(cfg, states, steps, n))
  {
    if n > 0 {
      RunBreakerIsReplay(cfg, states, steps, n - 1);
      assert StepAt(cfg, states, steps, n - 1);
      EventReplayed(cfg, states[n - 1], steps[n - 1], EventsOf(cfg, states, steps, n - 1));
    }
  }

  /** In every state of every run the breaker is open exactly when at least `threshold` failures were
      reported since the last success, and it admits a call while open only `recovery` after the latest. */
  lemma RunBreakerOpensAndAdmits(cfg: Config, states: seq<Client>, steps: seq<Step>, n: nat)
    requires IsRun(cfg, states, steps) && n <= |steps|
    ensures var events := EventsOf(cfg, states, steps, n);
            && (states[n].breaker.openedAt.Some? <==> FailuresSinceSuccess(events) >= Threshold(cfg.limits))
            && (Admits(cfg.limits, states[n].breaker, states[n].now) && states[n].breaker.openedAt.Some? ==>
                  LatestFailure(events).Some?
                  && states[n].now - LatestFailure(events).value >= Recovery(cfg.limits))
  {
    RunBreakerIsReplay(cfg, states, steps, n);
    OpenIffThresholdReached(cfg.limits, EventsOf(cfg, states, steps, n));
  }
}
