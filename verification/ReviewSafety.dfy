/**
 What the review consumers guarantee over whole runs.

 A record is lost when some read position or committed offset has passed it while it is
 neither settled nor in the hands of that reader. The loop has exactly one step that loses
 a record: after SET NX has failed, GET finds no marker, and the record is passed over with
 neither an acknowledgement nor a seek back.
 */
module ReviewSafety {
  import opened Wrappers
  import opened ReviewMarkers
  import opened ReviewProtocol
  import opened ReviewInvariant

  // ---------- Every committed record ----------

  /** In every state of every run, each record below a committed offset is settled or was skipped. */
  lemma CommittedRecordsAccounted(cfg: Settings, states: seq<State>, steps: seq<Step>, i: nat, at: Position)
    requires IsRun(cfg, states, steps) && i < |states|
    requires at.offset < CommittedOf(states[i], at.part)
    ensures IsSettled(states[i].facts, at) || at in states[i].facts.skipped
  {
    RunKeepsInv(cfg, states, steps, i);
  }

  /** A terminal marker in Redis is never ahead of the outcome it announces. */
  lemma TerminalMarkersBacked(cfg: Settings, states: seq<State>, steps: seq<Step>, i: nat, e: EventId)
    requires IsRun(cfg, states, steps) && i < |states|
    requires Read(states[i].cells, e).Terminal?
    ensures Read(states[i].cells, e).status == Failed ==> e in states[i].facts.deadEvents
    ensures Read(states[i].cells, e).status != Failed ==> e in states[i].facts.durable
  {
    RunKeepsInv(cfg, states, steps, i);
    assert CellOk(states[i], e);
  }

  // ---------- Exactly when a record is lost ----------

  predicate PassedBy(s: State, c: ConsumerId, at: Position) {
    && c in s.members && at.part in s.members[c].view && at.offset < s.members[c].view[at.part]
    && !InHand(s.members[c].pc, at)
  }

  ghost predicate Lost(s: State, at: Position) {
    !IsSettled(s.facts, at) && (at.offset < CommittedOf(s, at.part) || exists c :: PassedBy(s, c, at))
  }

  /** The read that finds neither a marker nor an outcome. */
  predicate LosingRead(s: State, t: Step, at: Position)
    requires Enabled(s, t)
  {
    && t.ReadMarker? && PcOf(s, t.who).m.at == at
    && PcOf(s, t.who).m.event !in s.cells
    && !EventSettled(s.facts, PcOf(s, t.who).m.event)
  }

  predicate InClaimPhase(pc: Pc) {
    pc.Reading? || pc.Watching? || pc.Taking?
  }

  /** What a step may do to the consumer that takes it, as far as positions are concerned. */
  predicate OwnEffect(s: State, t: Step, mem: Member, mem': Member) {
    if t.Poll? then
      && mem.pc.Idle? && t.part in mem.view && mem'.view == mem.view[t.part := mem.view[t.part] + 1]
      && !mem'.pc.Idle? && HeldPosition(mem'.pc) == Position(t.part, mem.view[t.part]) && !InClaimPhase(mem'.pc)
    else if t.SeekBack? then
      && !mem.pc.Idle? && mem'.pc.Idle?
      && mem'.view == mem.view[HeldPosition(mem.pc).part := HeldPosition(mem.pc).offset]
    else
      && !mem.pc.Idle? && mem'.view == mem.view
      && (mem'.pc.Idle? ==>
            (t.Commit? && mem.pc.Committing?)
            || (t.ReadMarker? && mem.pc.Reading? && Read(s.cells, mem.pc.m.event) == Unreadable))
      && (!mem'.pc.Idle? ==> HeldPosition(mem'.pc) == HeldPosition(mem.pc))
      && (InClaimPhase(mem'.pc) ==> mem'.pc.gone == (InClaimPhase(mem.pc) && mem.pc.gone))
  }

  predicate MemberEffect(s: State, t: Step, c: ConsumerId, mem': Member) {
    if c in s.members then
      || mem' == s.members[c]
      || (t.Expire? && mem' == NoteExpiry(s.members[c], t.event))
      || (t.Rebalance? && t.who == c && mem' == Member(map p | p in t.parts :: CommittedOf(s, p), Idle))
      || (IsConsumerStep(t) && t.who == c && OwnEffect(s, t, s.members[c], mem'))
    else t == Start(c) && mem' == Member(map[], Idle)
  }

  /** The part of a step that matters for lost records. */
  predicate Effect(s: State, t: Step, s': State) {
    && Grows(s.facts, s'.facts)
    && (forall c :: c in s'.members ==> MemberEffect(s, t, c, s'.members[c]))
    && (t.Commit? ==> t.who in s.members && s'.committed == s.committed + s.members[t.who].view)
    && (!t.Commit? ==> s'.committed == s.committed)
  }

  /** A consumer that moves to another position in its loop, everything else about positions unchanged. */
  lemma MoveEffect(s: State, t: Step, c: ConsumerId, pc: Pc, s': State)
    requires IsConsumerStep(t) && t.who == c && !t.Commit? && c in s.members
    requires s'.members == s.members[c := s.members[c].(pc := pc)]
    requires Grows(s.facts, s'.facts) && s'.committed == s.committed
    requires OwnEffect(s, t, s.members[c], s.members[c].(pc := pc))
    ensures Effect(s, t, s')
  {
  }

  lemma LeaveEffect(s: State, t: Step, c: ConsumerId, s': State)
    requires s'.members == s.members - {c} && s'.facts == s.facts && s'.committed == s.committed && !t.Commit?
    ensures Effect(s, t, s')
  {
  }

  lemma RaiseEffect(s: State, t: Step)
    requires IsConsumerStep(t) && t.who in s.members && !PcOf(s, t.who).Idle?
    requires !t.Commit? && !t.Poll? && !t.SeekBack?
    ensures Effect(s, t, RaiseIn(s, t.who))
  {
    match Recover(PcOf(s, t.who))
    case Some(pc) => MoveEffect(s, t, t.who, pc, RaiseIn(s, t.who));
    case None => LeaveEffect(s, t, t.who, RaiseIn(s, t.who));
  }

  lemma CommitEffect(s: State, c: ConsumerId, raises: bool)
    requires Enabled(s, Commit(c, raises))
    ensures Effect(s, Commit(c, raises), AfterCommit(s, c, raises))
  {
    var covered := s.(committed := s.committed + s.members[c].view);
    if raises {
      RaiseEffect(covered, Raise(c));
    }
    forall d | d in AfterCommit(s, c, raises).members
      ensures MemberEffect(s, Commit(c, raises), d, AfterCommit(s, c, raises).members[d])
    {
      if raises {
        assert MemberEffect(covered, Raise(c), d, RaiseIn(covered, c).members[d]);
      }
    }
  }

  lemma PollEffect(cfg: Settings, s: State, t: Step)
    requires Enabled(s, t) && (t.Poll? || t.SeekBack?)
    ensures Effect(s, t, NextConsumer(cfg, s, t))
  {
  }

  lemma SendMalformedEffect(cfg: Settings, s: State, t: Step)
    requires Enabled(s, t) && t.SendMalformed?
    ensures Effect(s, t, NextConsumer(cfg, s, t))
  {
    MoveEffect(s, t, t.who, Committing(PcOf(s, t.who).at, FromMalformed), NextConsumer(cfg, s, t));
  }

  lemma AgentEffect(cfg: Settings, s: State, t: Step)
    requires Enabled(s, t) && t.AgentReturns?
    ensures Effect(s, t, NextConsumer(cfg, s, t))
  {
    MoveEffect(s, t, t.who, Finalizing(PcOf(s, t.who).m, Decide(t.result)), NextConsumer(cfg, s, t));
  }

  lemma FallbackEffect(cfg: Settings, s: State, t: Step)
    requires Enabled(s, t) && t.FallbackReply?
    ensures Effect(s, t, NextConsumer(cfg, s, t))
  {
    var s' := NextConsumer(cfg, s, t);
    if t.applied {
      MoveEffect(s, t, t.who, PcOf(s', t.who), s');
    } else {
      RaiseEffect(s, t);
    }
  }

  lemma SetIfAbsentEffect(cfg: Settings, s: State, t: Step)
    requires Enabled(s, t) && t.SetIfAbsent?
    ensures Effect(s, t, NextConsumer(cfg, s, t))
  {
    var s' := NextConsumer(cfg, s, t);
    MoveEffect(s, t, t.who, PcOf(s', t.who), s');
  }

  lemma ReadEffect(cfg: Settings, s: State, c: ConsumerId)
    requires Enabled(s, ReadMarker(c))
    ensures Effect(s, ReadMarker(c), AfterRead(cfg, s, c))
  {
    var pc := PcOf(s, c);
    var raw := Read(s.cells, pc.m.event);
    var s' := AfterRead(cfg, s, c);
    match raw
    case Terminal(_) => MoveEffect(s, ReadMarker(c), c, Committing(pc.m.at, FromDuplicate), s');
    case Processing(_, _, _) =>
      MoveEffect(s, ReadMarker(c), c,
                 if Fresh(cfg, raw, s.now) then Deferring(pc.m) else Watching(pc.m, pc.gone, raw), s');
    case Unreadable => MoveEffect(s, ReadMarker(c), c, Idle, s');
  }

  lemma WatchEffect(cfg: Settings, s: State, t: Step)
    requires Enabled(s, t) && t.Watch?
    ensures Effect(s, t, NextConsumer(cfg, s, t))
  {
    var s' := NextConsumer(cfg, s, t);
    MoveEffect(s, t, t.who, PcOf(s', t.who), s');
  }

  lemma ExecEffect(cfg: Settings, s: State, c: ConsumerId, answerLost: bool)
    requires Enabled(s, Exec(c, answerLost))
    ensures Effect(s, Exec(c, answerLost), AfterExec(cfg, s, c, answerLost))
  {
    var s' := AfterExec(cfg, s, c, answerLost);
    MoveEffect(s, Exec(c, answerLost), c, PcOf(s', c), s');
  }

  lemma FinalCommandEffect(cfg: Settings, s: State, c: ConsumerId)
    requires Enabled(s, FinalCommand(c))
    ensures Effect(s, FinalCommand(c), AfterFinalCommand(cfg, s, c))
  {
    var s' := AfterFinalCommand(cfg, s, c);
    MoveEffect(s, FinalCommand(c), c, PcOf(s', c), s');
  }

  lemma MarkEffect(cfg: Settings, s: State, t: Step)
    requires Enabled(s, t) && (t.MarkManual? || t.SendFailed? || t.MarkFailed?)
    ensures Effect(s, t, NextConsumer(cfg, s, t))
  {
    var s' := NextConsumer(cfg, s, t);
    MoveEffect(s, t, t.who, PcOf(s', t.who), s');
  }

  lemma EnvironmentEffect(cfg: Settings, s: State, t: Step)
    requires Enabled(s, t) && !IsConsumerStep(t)
    ensures Effect(s, t, Next(cfg, s, t))
  {
  }

  lemma ConsumerEffect(cfg: Settings, s: State, t: Step)
    requires Enabled(s, t) && IsConsumerStep(t)
    ensures Effect(s, t, NextConsumer(cfg, s, t))
  {
    match t
    case Poll(_, _) => PollEffect(cfg, s, t);
    case SeekBack(_) => PollEffect(cfg, s, t);
    case SendMalformed(_) => SendMalformedEffect(cfg, s, t);
    case SetIfAbsent(_) => SetIfAbsentEffect(cfg, s, t);
    case ReadMarker(c) => ReadEffect(cfg, s, c);
    case Watch(_) => WatchEffect(cfg, s, t);
    case Exec(c, lost) => ExecEffect(cfg, s, c, lost);
    case AgentReturns(_, _) => AgentEffect(cfg, s, t);
    case FinalCommand(c) => FinalCommandEffect(cfg, s, c);
    case FallbackReply(_, _) => FallbackEffect(cfg, s, t);
    case Commit(c, raises) => CommitEffect(s, c, raises);
    case Raise(_) => RaiseEffect(s, t);
    case _ => MarkEffect(cfg, s, t);
  }

  lemma StepEffect(cfg: Settings, s: State, t: Step)
    requires Enabled(s, t)
    ensures Effect(s, t, Next(cfg, s, t))
  {
    if IsConsumerStep(t) {
      ConsumerEffect(cfg, s, t);
    } else {
      EnvironmentEffect(cfg, s, t);
    }
  }

  /** A reader newly passes a record only by starting from a committed offset or by putting it down. */
  lemma PassedOnlyWhenPutDown(s: State, t: Step, s': State, c: ConsumerId, at: Position)
    requires Effect(s, t, s') && (c in s.members ==> ViewOk(s.facts, s.members[c]))
    requires PassedBy(s', c, at) && !PassedBy(s, c, at)
    ensures at.offset < CommittedOf(s, at.part)
            || (IsConsumerStep(t) && t.who == c && c in s.members && InHand(PcOf(s, c), at) && s'.members[c].pc.Idle?
                && !t.SeekBack?)
  {
    assert MemberEffect(s, t, c, s'.members[c]);
  }

  /** Committing passes nothing new that is unsettled: what the reader holds is settled by then. */
  lemma CommitLosesNothing(cfg: Settings, s: State, t: Step, s': State, at: Position)
    requires Inv(cfg, s) && Enabled(s, t) && Effect(s, t, s') && !Lost(s, at)
    requires at.offset < CommittedOf(s', at.part)
    ensures IsSettled(s.facts, at)
  {
    if t.Commit? {
      assert MemberOk(cfg, s.facts, s.cells, s.now, s.members[t.who]);
      assert !PassedBy(s, t.who, at) || IsSettled(s.facts, at);
    }
  }

  /** Putting an unsettled record down: only GET does it, when it finds no marker. */
  lemma PutDownUnsettled(cfg: Settings, s: State, t: Step, mem': Member, at: Position)
    requires Inv(cfg, s) && IsConsumerStep(t) && t.who in s.members && OwnEffect(s, t, PcMember(s, t), mem')
    requires InHand(PcOf(s, t.who), at) && mem'.pc.Idle? && !t.SeekBack?
    requires !IsSettled(s.facts, at)
    ensures t.ReadMarker? && PcOf(s, t.who).Reading? && PcOf(s, t.who).m.at == at
    ensures PcOf(s, t.who).m.event !in s.cells && !EventSettled(s.facts, PcOf(s, t.who).m.event)
  {
    assert MemberOk(cfg, s.facts, s.cells, s.now, s.members[t.who]);
    if t.ReadMarker? {
      var e := s.members[t.who].pc.m.event;
      assert e in s.cells ==> CellOk(s, e);
    }
  }

  function PcMember(s: State, t: Step): Member
    requires IsConsumerStep(t) && t.who in s.members
  {
    s.members[t.who]
  }

  /** A record that was not lost stays so, except at its losing read. */
  lemma OnlyLosingReadLoses(cfg: Settings, s: State, t: Step, s': State, at: Position)
    requires Inv(cfg, s) && Enabled(s, t) && Effect(s, t, s')
    requires !Lost(s, at) && Lost(s', at)
    ensures LosingRead(s, t, at)
  {
    GrowsKeeps(s.facts, s'.facts, at);
    if at.offset < CommittedOf(s', at.part) {
      CommitLosesNothing(cfg, s, t, s', at);
    }
    var c :| PassedBy(s', c, at);
    assert c in s.members ==> MemberOk(cfg, s.facts, s.cells, s.now, s.members[c]);
    PassedOnlyWhenPutDown(s, t, s', c, at);
    PutDownIsLosing(cfg, s, t, s', c, at);
  }

  lemma PutDownIsLosing(cfg: Settings, s: State, t: Step, s': State, c: ConsumerId, at: Position)
    requires Inv(cfg, s) && Enabled(s, t) && Effect(s, t, s') && !IsSettled(s.facts, at)
    requires IsConsumerStep(t) && t.who == c && c in s.members && c in s'.members
    requires InHand(PcOf(s, c), at) && s'.members[c].pc.Idle? && !t.SeekBack?
    ensures LosingRead(s, t, at)
  {
    assert MemberEffect(s, t, c, s'.members[c]);
    PutDownUnsettled(cfg, s, t, s'.members[c], at);
  }

  /** A step loses a record exactly when it is the losing read of that record. */
  lemma LostExactlyByLosingRead(cfg: Settings, s: State, t: Step, at: Position)
    requires Inv(cfg, s) && Enabled(s, t) && !Lost(s, at)
    ensures Lost(Next(cfg, s, t), at) <==> LosingRead(s, t, at)
  {
    if LosingRead(s, t, at) {
      LosingReadLoses(cfg, s, t.who, at);
    } else {
      StepEffect(cfg, s, t);
      var s' := Next(cfg, s, t);
      if Lost(s', at) {
        OnlyLosingReadLoses(cfg, s, t, s', at);
      }
    }
  }

  lemma LosingReadLoses(cfg: Settings, s: State, c: ConsumerId, at: Position)
    requires Inv(cfg, s) && Enabled(s, ReadMarker(c)) && LosingRead(s, ReadMarker(c), at)
    ensures Lost(AfterRead(cfg, s, c), at)
  {
    assert MemberOk(cfg, s.facts, s.cells, s.now, s.members[c]);
    assert PassedBy(AfterRead(cfg, s, c), c, at);
  }

  /** A losing read happens only to a consumer during whose claim the event's key expired. */
  lemma LosingReadNeedsExpiry(cfg: Settings, s: State, t: Step, at: Position)
    requires Inv(cfg, s) && Enabled(s, t) && LosingRead(s, t, at)
    ensures PcOf(s, t.who).gone
  {
    assert MemberOk(cfg, s.facts, s.cells, s.now, s.members[t.who]);
  }

  /** Over a whole run: some record is lost in some state if and only if some step is a losing read. */
  lemma RunLosesIffLosingRead(cfg: Settings, states: seq<State>, steps: seq<Step>)
    requires IsRun(cfg, states, steps)
    ensures (exists i: nat, at :: i < |states| && Lost(states[i], at))
            <==> (exists j: nat, at :: j < |steps| && LosingReadAt(cfg, states, steps, j, at))
  {
    if j: nat, at :| j < |steps| && LosingReadAt(cfg, states, steps, j, at) {
      RunKeepsInv(cfg, states, steps, j);
      if !Lost(states[j], at) {
        LostExactlyByLosingRead(cfg, states[j], steps[j], at);
        assert Lost(states[j + 1], at);
      }
    }
    if i: nat, at :| i < |states| && Lost(states[i], at) {
      var j := FirstLoss(cfg, states, steps, i, at);
      assert LosingReadAt(cfg, states, steps, j, at);
    }
  }

  /** Step j of the run is the losing read of the record. */
  ghost predicate LosingReadAt(cfg: Settings, states: seq<State>, steps: seq<Step>, j: nat, at: Position)
    requires |states| == |steps| + 1 && j < |steps|
  {
    StepAt(cfg, states, steps, j) && LosingRead(states[j], steps[j], at)
  }

  lemma {:induction false} FirstLoss(cfg: Settings, states: seq<State>, steps: seq<Step>, i: nat, at: Position)
    returns (j: nat)
    requires IsRun(cfg, states, steps) && i < |states| && Lost(states[i], at)
    ensures j < |steps| && LosingReadAt(cfg, states, steps, j, at)
  {
    if i == 0 {
      assert false;
    } else if Lost(states[i - 1], at) {
      j := FirstLoss(cfg, states, steps, i - 1, at);
    } else {
      RunKeepsInv(cfg, states, steps, i - 1);
      assert StepAt(cfg, states, steps, i - 1);
      LostExactlyByLosingRead(cfg, states[i - 1], steps[i - 1], at);
      j := i - 1;
    }
  }

  // ---------- Runs without an expiry inside a claim ----------

  /** No key expires while some consumer is between its failed SET NX on that event and its verdict. */
  ghost predicate NoExpiryInsideClaim(states: seq<State>, steps: seq<Step>)
    requires |states| == |steps| + 1
  {
    forall i: nat, c :: i < |steps| && steps[i].Expire? && c in states[i].members ==>
      !InClaim(states[i].members[c].pc, steps[i].event)
  }

  predicate NothingGone(s: State) {
    forall c :: c in s.members && InClaimPhase(s.members[c].pc) ==> !s.members[c].pc.gone
  }

  lemma QuietStepKeepsNothingGone(s: State, t: Step, s': State)
    requires Effect(s, t, s') && NothingGone(s)
    requires t.Expire? ==> forall c :: c in s.members ==> !InClaim(s.members[c].pc, t.event)
    ensures NothingGone(s')
  {
    forall c | c in s'.members && InClaimPhase(s'.members[c].pc)
      ensures !s'.members[c].pc.gone
    {
      assert MemberEffect(s, t, c, s'.members[c]);
    }
  }

  lemma {:induction false} QuietRunNothingGone(cfg: Settings, states: seq<State>, steps: seq<Step>, i: nat)
    requires IsRun(cfg, states, steps) && NoExpiryInsideClaim(states, steps) && i < |states|
    ensures NothingGone(states[i])
  {
    if i > 0 {
      QuietRunNothingGone(cfg, states, steps, i - 1);
      assert StepAt(cfg, states, steps, i - 1);
      StepEffect(cfg, states[i - 1], steps[i - 1]);
      QuietStepKeepsNothingGone(states[i - 1], steps[i - 1], states[i]);
    }
  }

  /** Crashes, rebalances, takeovers, heartbeats and expiries in any order: as long as no key
      expires inside a claim, nothing is ever lost and every committed record is settled. */
  lemma QuietRunLosesNothing(cfg: Settings, states: seq<State>, steps: seq<Step>, i: nat, at: Position)
    requires IsRun(cfg, states, steps) && NoExpiryInsideClaim(states, steps) && i < |states|
    ensures !Lost(states[i], at)
    ensures at.offset < CommittedOf(states[i], at.part) ==> IsSettled(states[i].facts, at)
  {
    if Lost(states[i], at) {
      var j := FirstLoss(cfg, states, steps, i, at);
      RunKeepsInv(cfg, states, steps, j);
      LosingReadNeedsExpiry(cfg, states[j], steps[j], at);
      QuietRunNothingGone(cfg, states, steps, j);
      assert false;
    }
  }

  // ---------- A run that loses a record ----------

  ghost predicate Reachable(cfg: Settings, s: State) {
    exists states: seq<State>, steps: seq<Step> :: IsRun(cfg, states, steps) && states[|steps|] == s
  }

  lemma ReachNext(cfg: Settings, s: State, t: Step)
    requires Reachable(cfg, s) && Enabled(s, t)
    ensures Reachable(cfg, Next(cfg, s, t))
  {
    var states: seq<State>, steps: seq<Step> :| IsRun(cfg, states, steps) && states[|steps|] == s;
    var states', steps' := states + [Next(cfg, s, t)], steps + [t];
    forall i: nat | i < |steps'|
      ensures StepAt(cfg, states', steps', i)
    {
      assert i < |steps| ==> StepAt(cfg, states, steps, i);
    }
    assert IsRun(cfg, states', steps') && states'[|steps'|] == Next(cfg, s, t);
  }

  function AppliedResult(): AgentResult {
    AgentResult(false, false, [Submit(true, true, true, OtherReason, false)])
  }

  /** The state of the example: one partition with two review requests, nothing recorded for the first. */
  predicate Example(s: State, members: map<ConsumerId, Member>) {
    && s.facts.log == map[0 := [Review(1), Review(2)]]
    && 1 !in s.facts.durable && 1 !in s.facts.deadEvents
    && s.members == members
  }

  function One(who: ConsumerId, view: nat, pc: Pc): map<ConsumerId, Member> {
    map[who := Member(map[0 := view], pc)]
  }

  lemma StartsAlone(cfg: Settings, s: State, who: ConsumerId)
    requires Example(s, map[])
    ensures Next(cfg, s, Start(who)) == s.(members := map[who := Member(map[], Idle)])
  {
  }

  lemma AssignedFromStart(cfg: Settings, s: State, who: ConsumerId)
    requires s.members == map[who := Member(map[], Idle)] && s.committed == map[]
    ensures Next(cfg, s, Rebalance(who, {0})) == s.(members := One(who, 0, Idle))
  {
    var s' := Next(cfg, s, Rebalance(who, {0}));
    assert s'.members[who].view == map[0 := 0];
    assert s'.members == One(who, 0, Idle);
  }

  /** A consumer joins and reads partition 0 from its committed offset 0. */
  lemma Joins(cfg: Settings, s: State, who: ConsumerId) returns (s': State)
    requires Reachable(cfg, s) && Example(s, map[]) && s.committed == map[]
    ensures Reachable(cfg, s') && s' == s.(members := One(who, 0, Idle))
  {
    ReachNext(cfg, s, Start(who));
    StartsAlone(cfg, s, who);
    var s1 := s.(members := map[who := Member(map[], Idle)]);
    ReachNext(cfg, s1, Rebalance(who, {0}));
    AssignedFromStart(cfg, s1, who);
    s' := s.(members := One(who, 0, Idle));
  }

  lemma Polls(cfg: Settings, s: State, who: ConsumerId, view: nat) returns (s': State)
    requires Reachable(cfg, s) && Example(s, One(who, view, Idle)) && view < 2
    ensures Reachable(cfg, s') && Example(s', One(who, view + 1, Claiming(Msg(Position(0, view), view + 1))))
    ensures s'.committed == s.committed && s'.cells == s.cells && s'.now == s.now
  {
    ReachNext(cfg, s, Poll(who, 0));
    s' := Next(cfg, s, Poll(who, 0));
    assert map[0 := view][0 := view + 1] == map[0 := view + 1];
  }

  lemma FirstConsumerClaims(cfg: Settings, s: State) returns (s': State)
    requires Reachable(cfg, s) && Example(s, One(1, 1, Claiming(Msg(Position(0, 0), 1))))
    requires s.cells == map[] && s.committed == map[]
    ensures Reachable(cfg, s') && Example(s', One(1, 1, Reviewing(Msg(Position(0, 0), 1)))) && s'.committed == map[]
    ensures s'.cells.Keys == {1} && s'.cells[1].expiresAt == s'.now + Ttl(cfg)
  {
    ReachNext(cfg, s, SetIfAbsent(1));
    s' := Next(cfg, s, SetIfAbsent(1));
  }

  /** Consumer 1 dies; its marker stays. */
  lemma FirstConsumerDies(cfg: Settings, s: State) returns (s': State)
    requires Reachable(cfg, s) && Example(s, One(1, 1, Reviewing(Msg(Position(0, 0), 1))))
    ensures Reachable(cfg, s') && Example(s', map[])
    ensures s'.committed == s.committed && s'.cells == s.cells && s'.now == s.now
  {
    ReachNext(cfg, s, Crash(1));
    s' := Next(cfg, s, Crash(1));
  }

  /** Consumer 2's SET NX fails on the dead consumer's marker. */
  lemma SetIfAbsentFails(cfg: Settings, s: State) returns (s': State)
    requires Reachable(cfg, s) && Example(s, One(2, 1, Claiming(Msg(Position(0, 0), 1)))) && 1 in s.cells
    ensures Reachable(cfg, s') && Example(s', One(2, 1, Reading(Msg(Position(0, 0), 1), false)))
    ensures s'.cells == s.cells && s'.now == s.now
  {
    ReachNext(cfg, s, SetIfAbsent(2));
    s' := Next(cfg, s, SetIfAbsent(2));
  }

  lemma TimePasses(cfg: Settings, s: State) returns (s': State)
    requires Reachable(cfg, s)
    ensures Reachable(cfg, s') && s' == s.(now := s.now + Ttl(cfg))
  {
    ReachNext(cfg, s, Tick(Ttl(cfg)));
    s' := Next(cfg, s, Tick(Ttl(cfg)));
  }

  lemma MarkerExpires(cfg: Settings, s: State) returns (s': State)
    requires Reachable(cfg, s) && Example(s, One(2, 1, Reading(Msg(Position(0, 0), 1), false)))
    requires s.cells.Keys == {1} && s.cells[1].expiresAt <= s.now
    ensures Reachable(cfg, s') && Example(s', One(2, 1, Reading(Msg(Position(0, 0), 1), true))) && s'.cells == map[]
  {
    ReachNext(cfg, s, Expire(1));
    s' := Next(cfg, s, Expire(1));
    assert s'.members[2] == NoteExpiry(s.members[2], 1);
  }

  /** Consumer 2's GET finds no status: it moves on without an acknowledgement or a seek. */
  lemma GetFindsNothing(cfg: Settings, s: State) returns (s': State)
    requires Reachable(cfg, s) && Example(s, One(2, 1, Reading(Msg(Position(0, 0), 1), true))) && s.cells == map[]
    ensures Reachable(cfg, s') && Example(s', One(2, 1, Idle)) && s'.cells == map[]
  {
    ReachNext(cfg, s, ReadMarker(2));
    s' := Next(cfg, s, ReadMarker(2));
  }

  lemma NextEventClaimed(cfg: Settings, s: State) returns (s': State)
    requires Reachable(cfg, s) && Example(s, One(2, 2, Claiming(Msg(Position(0, 1), 2)))) && s.cells == map[]
    ensures Reachable(cfg, s') && Example(s', One(2, 2, Reviewing(Msg(Position(0, 1), 2))))
  {
    ReachNext(cfg, s, SetIfAbsent(2));
    s' := Next(cfg, s, SetIfAbsent(2));
  }

  lemma NextEventReviewed(cfg: Settings, s: State) returns (s': State)
    requires Reachable(cfg, s) && Example(s, One(2, 2, Reviewing(Msg(Position(0, 1), 2))))
    ensures Reachable(cfg, s') && Example(s', One(2, 2, Finalizing(Msg(Position(0, 1), 2), MarkAs(Completed))))
  {
    ReachNext(cfg, s, AgentReturns(2, AppliedResult()));
    s' := Next(cfg, s, AgentReturns(2, AppliedResult()));
    assert !HasManualVerdict(AppliedResult().trace);
  }

  lemma NextEventMarked(cfg: Settings, s: State) returns (s': State)
    requires Reachable(cfg, s) && Example(s, One(2, 2, Finalizing(Msg(Position(0, 1), 2), MarkAs(Completed))))
    ensures Reachable(cfg, s') && Example(s', One(2, 2, Committing(Position(0, 1), FromReview(2))))
  {
    ReachNext(cfg, s, FinalCommand(2));
    s' := Next(cfg, s, FinalCommand(2));
  }

  lemma NextEventCommitted(cfg: Settings, s: State) returns (s': State)
    requires Reachable(cfg, s) && Example(s, One(2, 2, Committing(Position(0, 1), FromReview(2))))
    ensures Reachable(cfg, s') && Example(s', One(2, 2, Idle)) && CommittedOf(s', 0) == 2
  {
    ReachNext(cfg, s, Commit(2, false));
    s' := Next(cfg, s, Commit(2, false));
  }

  /** Event 1 is claimed by a consumer that dies. */
  lemma DeadConsumersMarkerStays(cfg: Settings) returns (s: State)
    ensures Reachable(cfg, s) && Example(s, map[]) && s.committed == map[]
    ensures s.cells.Keys == {1} && s.cells[1].expiresAt == s.now + Ttl(cfg)
  {
    s := State(Facts(map[0 := [Review(1), Review(2)]], {}, {}, {}, {}), map[], 0, map[], 0, map[], map[], []);
    var steps: seq<Step> := [];
    assert IsRun(cfg, [s], steps) && [s][|steps|] == s;
    s := Joins(cfg, s, 1);
    s := Polls(cfg, s, 1, 0);
    s := FirstConsumerClaims(cfg, s);
    s := FirstConsumerDies(cfg, s);
  }

  /** Another consumer passes event 1 over because the marker expires between its two reads. */
  lemma RecordPassedOver(cfg: Settings) returns (s: State)
    ensures Reachable(cfg, s) && Example(s, One(2, 1, Idle)) && s.cells == map[]
  {
    s := DeadConsumersMarkerStays(cfg);
    s := Joins(cfg, s, 2);
    s := Polls(cfg, s, 2, 0);
    s := SetIfAbsentFails(cfg, s);
    s := TimePasses(cfg, s);
    s := MarkerExpires(cfg, s);
    s := GetFindsNothing(cfg, s);
  }

  /** An expiry inside a claim really loses a record: its offset is committed, nobody handled it. */
  lemma ExpiryInsideClaimLosesRecord(cfg: Settings) returns (s: State)
    ensures Reachable(cfg, s)
    ensures var at := Position(0, 0);
            at.offset < CommittedOf(s, 0) && InLog(s.facts, at) && !IsSettled(s.facts, at) && Lost(s, at)
  {
    s := RecordPassedOver(cfg);
    s := Polls(cfg, s, 2, 1);
    s := NextEventClaimed(cfg, s);
    s := NextEventReviewed(cfg, s);
    s := NextEventMarked(cfg, s);
    s := NextEventCommitted(cfg, s);
  }
}
