/**
 The review consumers as an interleaved step system: any number of consumer processes share
 a partitioned log, one Redis key per event and their heartbeat threads. The agent and the
 Java services are oracles whose answers label the steps.

 A step is one command on shared state. A consumer that dies simply takes no more steps;
 a key disappears when its time to live has run out.
 */
module ReviewProtocol {
  import opened Wrappers
  import opened ReviewMarkers

  type Partition = nat

  datatype Position = Position(part: Partition, offset: nat)

  /** A log record: one that fails decoding or validation, or a review request. */
  datatype Rec = Malformed | Review(event: EventId)

  // ---------- What the agent reports ----------

  datatype RejectReason = StaleReview | StatusChanged | OtherReason

  datatype TraceItem =
    | Submit(ok: bool, hasData: bool, applied: bool, reason: RejectReason, manualVerdict: bool)
    | RequestEvidence(ok: bool, hasMessageId: bool)
    | OtherTool

  datatype AgentResult = AgentResult(gateRequestsEvidence: bool, paused: bool, trace: seq<TraceItem>)

  datatype SubmitOutcome = Applied | Superseded | NotApplied

  /** The first usable submission decides; later ones are ignored. */
  function ReviewSubmitOutcome(trace: seq<TraceItem>): SubmitOutcome {
    if trace == [] then NotApplied
    else
      var item := trace[0];
      if item.Submit? && item.ok && item.hasData && item.applied then Applied
      else if item.Submit? && item.ok && item.hasData && item.reason != OtherReason then Superseded
      else ReviewSubmitOutcome(trace[1..])
  }

  predicate EvidenceRequestApplied(r: AgentResult) {
    r.gateRequestsEvidence && exists item <- r.trace :: item.RequestEvidence? && item.ok && item.hasMessageId
  }

  predicate HasManualVerdict(trace: seq<TraceItem>) {
    exists item <- trace :: item.Submit? && item.ok && item.manualVerdict
  }

  datatype FinalAct = MarkAs(status: Status) | ReleaseRead | ReleaseDelete | AskFallback

  /** Which Redis action closes a processed event. */
  function Decide(r: AgentResult): FinalAct {
    if EvidenceRequestApplied(r) then MarkAs(EvidenceRequired)
    else if r.paused then MarkAs(Completed)
    else match ReviewSubmitOutcome(r.trace)
      case Applied => MarkAs(if HasManualVerdict(r.trace) then ManualRequired else Completed)
      case Superseded => ReleaseRead
      case NotApplied => AskFallback
  }

  /** The agent's own report of an outcome recorded by Java or by the checkpoint store. */
  predicate ReportsDurableOutcome(r: AgentResult) {
    EvidenceRequestApplied(r) || r.paused || ReviewSubmitOutcome(r.trace) != NotApplied
  }

  // ---------- State ----------

  datatype Msg = Msg(at: Position, event: EventId)

  datatype CommitFrom = FromMalformed | FromDuplicate | FromReview(event: EventId) | FromFallback(event: EventId) | FromDlq

  /** Where a consumer is in its message loop. `gone` records that the event's key expired
      after this consumer's SET NX had failed. */
  datatype Pc =
    | Idle
    | SendingMalformed(at: Position)
    | Claiming(m: Msg)                                            // SET NX
    | Reading(m: Msg, gone: bool)                                 // GET
    | Watching(m: Msg, gone: bool, raw: Marker)                   // WATCH, GET
    | Taking(m: Msg, gone: bool, raw: Marker, watched: nat)       // EXEC
    | Deferring(m: Msg)                                           // pause, seek, resume
    | Reviewing(m: Msg)                                           // the agent runs
    | Finalizing(m: Msg, act: FinalAct)
    | FallingBack(m: Msg)
    | MarkingManual(m: Msg)
    | SendingFailed(m: Msg)
    | MarkingFailed(m: Msg)
    | Committing(at: Position, source: CommitFrom)

  datatype Member = Member(view: map<Partition, nat>, pc: Pc)

  datatype BeatPhase = Waiting | Firing | Armed(attempt: nat)

  datatype Beat = Beat(owner: ConsumerId, event: EventId, phase: BeatPhase, stopped: bool)

  datatype GrantKind = Created | Takeover(replaced: nat, examined: Marker)

  /** History: who was granted which event, and the version the grant wrote. */
  datatype Grant = Grant(owner: ConsumerId, event: EventId, kind: GrantKind, version: nat, at: int)

  /** Everything that only ever grows: the log and what has durably happened. */
  datatype Facts = Facts(
    log: map<Partition, seq<Rec>>,
    durable: set<EventId>,          // an outcome is recorded for the event
    deadEvents: set<EventId>,       // dead-lettered by event
    deadRecords: set<Position>,     // malformed records dead-lettered
    skipped: set<Position>)         // history: unsettled records passed over without a claim

  datatype State = State(
    facts: Facts,
    committed: map<Partition, nat>,
    now: int,
    cells: Cells,
    nextVersion: nat,
    members: map<ConsumerId, Member>,
    beats: map<nat, Beat>,
    grants: seq<Grant>)

  function RecordsOf(f: Facts, p: Partition): seq<Rec> {
    if p in f.log then f.log[p] else []
  }

  function CommittedOf(s: State, p: Partition): nat {
    if p in s.committed then s.committed[p] else 0
  }

  predicate EventSettled(f: Facts, e: EventId) {
    e in f.durable || e in f.deadEvents
  }

  predicate InLog(f: Facts, at: Position) {
    at.offset < |RecordsOf(f, at.part)|
  }

  function RecordAt(f: Facts, at: Position): Rec
    requires InLog(f, at)
  {
    RecordsOf(f, at.part)[at.offset]
  }

  /** The record needs no further processing: it was dead-lettered or its event has an outcome. */
  predicate IsSettled(f: Facts, at: Position) {
    InLog(f, at) && match RecordAt(f, at)
      case Malformed => at in f.deadRecords
      case Review(e) => EventSettled(f, e)
  }

  // ---------- Steps ----------

  datatype Step =
    // environment
    | Tick(seconds: nat)
    | Produce(part: Partition, rec: Rec)
    | Start(who: ConsumerId)
    | Crash(who: ConsumerId)
    | Rebalance(who: ConsumerId, parts: set<Partition>)
    | Expire(event: EventId)
    | LateOutcome(event: EventId)
    // heartbeat threads
    | BeatFire(beat: nat)
    | BeatRead(beat: nat)
    | BeatWrite(beat: nat)
    | BeatFail(beat: nat)
    | BeatExit(beat: nat)
    // one consumer
    | Poll(who: ConsumerId, part: Partition)
    | SendMalformed(who: ConsumerId)
    | SetIfAbsent(who: ConsumerId)
    | ReadMarker(who: ConsumerId)
    | Watch(who: ConsumerId)
    | Exec(who: ConsumerId, answerLost: bool)
    | SeekBack(who: ConsumerId)
    | AgentReturns(who: ConsumerId, result: AgentResult)
    | FinalCommand(who: ConsumerId)
    | FallbackReply(who: ConsumerId, applied: bool)
    | MarkManual(who: ConsumerId)
    | SendFailed(who: ConsumerId)
    | MarkFailed(who: ConsumerId)
    | Commit(who: ConsumerId, raises: bool)
    | Raise(who: ConsumerId)

  predicate IsConsumerStep(t: Step) {
    t.Poll? || t.SendMalformed? || t.SetIfAbsent? || t.ReadMarker? || t.Watch? || t.Exec? || t.SeekBack?
    || t.AgentReturns? || t.FinalCommand? || t.FallbackReply? || t.MarkManual? || t.SendFailed? || t.MarkFailed?
    || t.Commit? || t.Raise?
  }

  predicate IsBeatStep(t: Step) {
    t.BeatFire? || t.BeatRead? || t.BeatWrite? || t.BeatFail? || t.BeatExit?
  }

  function PcOf(s: State, c: ConsumerId): Pc
    requires c in s.members
  {
    s.members[c].pc
  }

  predicate Enabled(s: State, t: Step) {
    match t
    case Tick(_) => true
    case Produce(_, _) => true
    case Start(c) => c !in s.members
    case Crash(c) => c in s.members
    case Rebalance(c, _) => c in s.members && PcOf(s, c).Idle?
    case Expire(e) => e in s.cells && s.cells[e].expiresAt <= s.now
    case LateOutcome(_) => true
    case BeatFire(i) => i in s.beats && s.beats[i].phase.Waiting? && !s.beats[i].stopped
    case BeatRead(i) => i in s.beats && s.beats[i].phase.Firing?
    case BeatWrite(i) => i in s.beats && s.beats[i].phase.Armed?
    case BeatFail(i) => i in s.beats && !s.beats[i].phase.Waiting?
    case BeatExit(i) => i in s.beats && s.beats[i].phase.Waiting? && s.beats[i].stopped
    case Poll(c, p) =>
      c in s.members && PcOf(s, c).Idle? && p in s.members[c].view
      && s.members[c].view[p] < |RecordsOf(s.facts, p)|
    case SendMalformed(c) => c in s.members && PcOf(s, c).SendingMalformed?
    case SetIfAbsent(c) => c in s.members && PcOf(s, c).Claiming?
    case ReadMarker(c) => c in s.members && PcOf(s, c).Reading?
    case Watch(c) => c in s.members && PcOf(s, c).Watching?
    case Exec(c, lost) =>
      c in s.members && PcOf(s, c).Taking?
    case SeekBack(c) => c in s.members && PcOf(s, c).Deferring?
    case AgentReturns(c, _) => c in s.members && PcOf(s, c).Reviewing?
    case FinalCommand(c) => c in s.members && PcOf(s, c).Finalizing? && !PcOf(s, c).act.AskFallback?
    case FallbackReply(c, _) =>
      c in s.members && (PcOf(s, c).FallingBack? || (PcOf(s, c).Finalizing? && PcOf(s, c).act.AskFallback?))
    case MarkManual(c) => c in s.members && PcOf(s, c).MarkingManual?
    case SendFailed(c) => c in s.members && PcOf(s, c).SendingFailed?
    case MarkFailed(c) => c in s.members && PcOf(s, c).MarkingFailed?
    case Commit(c, _) => c in s.members && PcOf(s, c).Committing?
    case Raise(c) => c in s.members && !PcOf(s, c).Idle?
  }

  function SetPc(s: State, c: ConsumerId, pc: Pc): State
    requires c in s.members
  {
    s.(members := s.members[c := s.members[c].(pc := pc)])
  }

  function RemoveMember(s: State, c: ConsumerId): State {
    s.(members := s.members - {c}, beats := map i | i in s.beats && s.beats[i].owner != c :: s.beats[i])
  }

  predicate InClaim(pc: Pc, e: EventId) {
    (pc.Reading? || pc.Watching? || pc.Taking?) && pc.m.event == e
  }

  /** A consumer between its failed SET NX and its verdict notices, in history, that the key is gone. */
  function NoteExpiry(mem: Member, e: EventId): Member {
    if InClaim(mem.pc, e) then
      mem.(pc := match mem.pc
                 case Reading(m, _) => Reading(m, true)
                 case Watching(m, _, raw) => Watching(m, true, raw)
                 case Taking(m, _, raw, v) => Taking(m, true, raw, v)
                 case other => other)
    else mem
  }

  function AfterExpiry(s: State, e: EventId): State {
    s.(cells := s.cells - {e}, members := map c | c in s.members :: NoteExpiry(s.members[c], e))
  }

  /** An exception caught by the loop body, or None when it escapes and ends the process. */
  function Recover(pc: Pc): Option<Pc> {
    match pc
    case Watching(m, _, _) => Some(Deferring(m))
    case Taking(m, _, _, _) => Some(Deferring(m))
    case Reviewing(m) => Some(FallingBack(m))
    case Finalizing(m, _) => Some(FallingBack(m))
    case FallingBack(m) => Some(SendingFailed(m))
    case MarkingManual(m) => Some(SendingFailed(m))
    case Committing(at, FromReview(e)) => Some(FallingBack(Msg(at, e)))
    case Committing(at, FromFallback(e)) => Some(SendingFailed(Msg(at, e)))
    case _ => None
  }

  function RaiseIn(s: State, c: ConsumerId): State
    requires c in s.members
  {
    match Recover(PcOf(s, c))
    case Some(pc) => SetPc(s, c, pc)
    case None => RemoveMember(s, c)
  }

  /** The grant of an event: the marker is written, a heartbeat starts and the agent runs. */
  function GrantTo(cfg: Settings, s: State, c: ConsumerId, m: Msg, attempt: nat, kind: GrantKind): State
    requires c in s.members
  {
    var v := s.nextVersion;
    SetPc(s, c, Reviewing(m)).(
      cells := WriteProcessing(cfg, s.cells, m.event, c, attempt, s.now, v),
      nextVersion := v + 1,
      beats := s.beats[v := Beat(c, m.event, Waiting, false)],
      grants := s.grants + [Grant(c, m.event, kind, v, s.now)])
  }

  function AfterSetIfAbsent(cfg: Settings, s: State, c: ConsumerId): State
    requires c in s.members && PcOf(s, c).Claiming?
  {
    var m := PcOf(s, c).m;
    if m.event in s.cells then SetPc(s, c, Reading(m, false)) else GrantTo(cfg, s, c, m, 1, Created)
  }

  /** The verdict of GET: acknowledge, defer, try to take over, or move on with neither. */
  function AfterRead(cfg: Settings, s: State, c: ConsumerId): State
    requires c in s.members && PcOf(s, c).Reading?
  {
    var pc := PcOf(s, c);
    var raw := Read(s.cells, pc.m.event);
    match raw
    case Terminal(_) => SetPc(s, c, Committing(pc.m.at, FromDuplicate))
    case Processing(_, _, _) =>
      if Fresh(cfg, raw, s.now) then SetPc(s, c, Deferring(pc.m)) else SetPc(s, c, Watching(pc.m, pc.gone, raw))
    case Unreadable =>
      var moved := SetPc(s, c, Idle);
      if IsSettled(s.facts, pc.m.at) then moved
      else moved.(facts := s.facts.(skipped := s.facts.skipped + {pc.m.at}))
  }

  /** WATCH, then GET again: a value other than the one examined sends the claimer back to GET. */
  function AfterWatch(s: State, c: ConsumerId): State
    requires c in s.members && PcOf(s, c).Watching?
  {
    var pc := PcOf(s, c);
    var e := pc.m.event;
    if Read(s.cells, e) == pc.raw && e in s.cells
    then SetPc(s, c, Taking(pc.m, pc.gone, pc.raw, s.cells[e].version))
    else SetPc(s, c, Reading(pc.m, pc.gone))
  }

  /** EXEC applies only if the key has not been written since WATCH; the claimer may miss the answer. */
  function AfterExec(cfg: Settings, s: State, c: ConsumerId, answerLost: bool): State
    requires c in s.members && PcOf(s, c).Taking?
  {
    var pc := PcOf(s, c);
    var e := pc.m.event;
    if e in s.cells && s.cells[e].version == pc.watched then
      if answerLost then
        SetPc(s, c, Deferring(pc.m)).(
          cells := WriteProcessing(cfg, s.cells, e, c, AttemptOf(pc.raw) + 1, s.now, s.nextVersion),
          nextVersion := s.nextVersion + 1)
      else GrantTo(cfg, s, c, pc.m, AttemptOf(pc.raw) + 1, Takeover(pc.watched, pc.raw))
    else SetPc(s, c, Deferring(pc.m))
  }

  function AttemptOf(m: Marker): nat {
    if m.Processing? then m.attempt else 0
  }

  function AfterFinalCommand(cfg: Settings, s: State, c: ConsumerId): State
    requires c in s.members && PcOf(s, c).Finalizing? && !PcOf(s, c).act.AskFallback?
  {
    var m := PcOf(s, c).m;
    var done := SetPc(s, c, Committing(m.at, FromReview(m.event)));
    match PcOf(s, c).act
    case MarkAs(st) =>
      done.(cells := WriteTerminal(cfg, s.cells, m.event, st, s.now, s.nextVersion), nextVersion := s.nextVersion + 1)
    case ReleaseRead =>
      if OwnedBy(Read(s.cells, m.event), c) then SetPc(s, c, Finalizing(m, ReleaseDelete)) else done
    case ReleaseDelete => done.(cells := s.cells - {m.event})
    case AskFallback => s
  }

  /** commit() covers every partition in the consumer's view; the finally block then stops the heartbeat. */
  function AfterCommit(s: State, c: ConsumerId, raises: bool): State
    requires c in s.members && PcOf(s, c).Committing?
  {
    var view := s.members[c].view;
    var covered := s.(committed := s.committed + view);
    if raises then RaiseIn(covered, c)
    else SetPc(covered, c, Idle).(beats := StopBeats(s.beats, c))
  }

  /** A consumer handles one event at a time, so every heartbeat it started is told to stop. */
  function StopBeats(beats: map<nat, Beat>, c: ConsumerId): map<nat, Beat> {
    map i | i in beats :: if beats[i].owner == c then beats[i].(stopped := true) else beats[i]
  }

  function NextBeat(cfg: Settings, s: State, t: Step): State
    requires IsBeatStep(t) && Enabled(s, t)
  {
    var b := s.beats[t.beat];
    match t
    case BeatFire(i) => s.(beats := s.beats[i := b.(phase := Firing)])
    case BeatRead(i) =>
      var raw := Read(s.cells, b.event);
      s.(beats := s.beats[i := b.(phase := if OwnedBy(raw, b.owner) then Armed(raw.attempt) else Waiting)])
    case BeatWrite(i) =>
      s.(cells := WriteProcessing(cfg, s.cells, b.event, b.owner, b.phase.attempt, s.now, s.nextVersion),
         nextVersion := s.nextVersion + 1,
         beats := s.beats[i := b.(phase := Waiting)])
    case BeatFail(i) => s.(beats := s.beats[i := b.(phase := Waiting)])
    case BeatExit(i) => s.(beats := map j | j in s.beats && j != i :: s.beats[j])
  }

  function NextConsumer(cfg: Settings, s: State, t: Step): State
    requires IsConsumerStep(t) && Enabled(s, t)
  {
    var c := t.who;
    var mem := s.members[c];
    match t
    case Poll(_, p) =>
      var at := Position(p, mem.view[p]);
      var pc := match RecordAt(s.facts, at)
        case Malformed => SendingMalformed(at)
        case Review(e) => Claiming(Msg(at, e));
      s.(members := s.members[c := Member(mem.view[p := at.offset + 1], pc)])
    case SendMalformed(_) =>
      SetPc(s, c, Committing(mem.pc.at, FromMalformed)).(
        facts := s.facts.(deadRecords := s.facts.deadRecords + {mem.pc.at}))
    case SetIfAbsent(_) => AfterSetIfAbsent(cfg, s, c)
    case ReadMarker(_) => AfterRead(cfg, s, c)
    case Watch(_) => AfterWatch(s, c)
    case Exec(_, lost) => AfterExec(cfg, s, c, lost)
    case SeekBack(_) =>
      var at := mem.pc.m.at;
      s.(members := s.members[c := Member(mem.view[at.part := at.offset], Idle)])
    case AgentReturns(_, r) =>
      SetPc(s, c, Finalizing(mem.pc.m, Decide(r))).(
        facts := if ReportsDurableOutcome(r) then AddOutcome(s.facts, mem.pc.m.event) else s.facts)
    case FinalCommand(_) => AfterFinalCommand(cfg, s, c)
    case FallbackReply(_, applied) =>
      var m := mem.pc.m;
      if applied then
        SetPc(s, c, if mem.pc.FallingBack? then MarkingManual(m) else Finalizing(m, MarkAs(ManualRequired))).(
          facts := AddOutcome(s.facts, m.event))
      else RaiseIn(s, c)
    case MarkManual(_) =>
      var m := mem.pc.m;
      SetPc(s, c, Committing(m.at, FromFallback(m.event))).(
        cells := WriteTerminal(cfg, s.cells, m.event, ManualRequired, s.now, s.nextVersion),
        nextVersion := s.nextVersion + 1)
    case SendFailed(_) =>
      SetPc(s, c, MarkingFailed(mem.pc.m)).(
        facts := s.facts.(deadEvents := s.facts.deadEvents + {mem.pc.m.event}))
    case MarkFailed(_) =>
      var m := mem.pc.m;
      SetPc(s, c, Committing(m.at, FromDlq)).(
        cells := WriteTerminal(cfg, s.cells, m.event, Failed, s.now, s.nextVersion),
        nextVersion := s.nextVersion + 1)
    case Commit(_, raises) => AfterCommit(s, c, raises)
    case Raise(_) => RaiseIn(s, c)
  }

  function AddOutcome(f: Facts, e: EventId): Facts {
    f.(durable := f.durable + {e})
  }

  function Next(cfg: Settings, s: State, t: Step): State
    requires Enabled(s, t)
  {
    if IsConsumerStep(t) then NextConsumer(cfg, s, t)
    else if IsBeatStep(t) then NextBeat(cfg, s, t)
    else match t
      case Tick(d) => s.(now := s.now + d)
      case Produce(p, r) => s.(facts := s.facts.(log := s.facts.log[p := RecordsOf(s.facts, p) + [r]]))
      case Start(c) => s.(members := s.members[c := Member(map[], Idle)])
      case Crash(c) => RemoveMember(s, c)
      case Rebalance(c, parts) =>
        s.(members := s.members[c := Member(map p | p in parts :: CommittedOf(s, p), Idle)])
      case Expire(e) => AfterExpiry(s, e)
      case LateOutcome(e) => s.(facts := AddOutcome(s.facts, e))
      case _ => s
  }

  /** Before the first step: nobody runs, nothing is committed, and every Redis key is a
      readable marker whose terminal statuses are backed by an outcome. */
  predicate Init(s: State) {
    && s.members == map[] && s.beats == map[] && s.grants == [] && s.committed == map[] && s.facts.skipped == {}
    && forall e <- s.cells :: CellOk(s, e)
  }

  predicate CellOk(s: State, e: EventId)
    requires e in s.cells
  {
    && s.cells[e].version < s.nextVersion
    && !s.cells[e].marker.Unreadable?
    && (s.cells[e].marker.Terminal? ==> Backed(s.facts, e, s.cells[e].marker.status))
  }

  /** A terminal status tells the truth: FAILED means dead-lettered, the others an outcome. */
  predicate Backed(f: Facts, e: EventId, st: Status) {
    if st == Failed then e in f.deadEvents else e in f.durable
  }

  /** A run: |steps| steps taken from the first state to the last. */
  ghost predicate IsRun(cfg: Settings, states: seq<State>, steps: seq<Step>) {
    && |states| == |steps| + 1
    && Init(states[0])
    && forall i: nat :: i < |steps| ==> StepAt(cfg, states, steps, i)
  }

  ghost predicate StepAt(cfg: Settings, states: seq<State>, steps: seq<Step>, i: nat)
    requires |states| == |steps| + 1 && i < |steps|
  {
    Enabled(states[i], steps[i]) && states[i + 1] == Next(cfg, states[i], steps[i])
  }
}
