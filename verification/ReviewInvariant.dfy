/**
 The inductive invariant of the review consumers, proved step by step.

 Reading upwards from the log: whatever a consumer's read position has passed is settled, in
 its hands, or was skipped; a terminal marker never lies; a consumer acknowledges only what
 is settled. Settledness never goes away, so no argument about who owns a partition is needed.
 */
module ReviewInvariant {
  import opened Wrappers
  import opened ReviewMarkers
  import opened ReviewProtocol

  function HeldPosition(pc: Pc): Position
    requires !pc.Idle?
  {
    if pc.SendingMalformed? || pc.Committing? then pc.at else pc.m.at
  }

  /** The record a consumer currently works on. */
  predicate InHand(pc: Pc, at: Position) {
    !pc.Idle? && HeldPosition(pc) == at
  }

  /** What the loop position itself implies. */
  predicate PcOk(cfg: Settings, f: Facts, cells: Cells, now: int, pc: Pc) {
    && (!pc.Idle? ==> InLog(f, HeldPosition(pc)))
    && (pc.SendingMalformed? ==> RecordAt(f, pc.at) == Malformed)
    && (pc.Committing? ==> IsSettled(f, pc.at))
    && (pc.Committing? && pc.source.FromReview? ==> RecordAt(f, pc.at) == Review(pc.source.event))
    && (pc.Committing? && pc.source.FromFallback? ==> RecordAt(f, pc.at) == Review(pc.source.event))
    && (!pc.Idle? && !pc.SendingMalformed? && !pc.Committing? ==> RecordAt(f, pc.m.at) == Review(pc.m.event))
    && (pc.Reading? || pc.Watching? || pc.Taking? ==>
          pc.m.event in cells || EventSettled(f, pc.m.event) || pc.gone)
    && (pc.Watching? || pc.Taking? ==> pc.raw.Processing? && !Fresh(cfg, pc.raw, now))
    && (pc.Taking? && pc.m.event in cells && cells[pc.m.event].version == pc.watched ==>
          cells[pc.m.event].marker == pc.raw)
    && (pc.Finalizing? && !pc.act.AskFallback? ==> pc.m.event in f.durable)
    && (pc.Finalizing? && pc.act.MarkAs? ==> pc.act.status != Failed)
    && (pc.MarkingManual? ==> pc.m.event in f.durable)
    && (pc.MarkingFailed? ==> pc.m.event in f.deadEvents)
  }

  /** Every record the consumer has read past is accounted for. */
  predicate ViewOk(f: Facts, mem: Member) {
    && (!mem.pc.Idle? ==>
          var at := HeldPosition(mem.pc);
          at.part in mem.view && mem.view[at.part] == at.offset + 1)
    && forall p, o: nat :: p in mem.view && o < mem.view[p] ==>
         Accounted(f, Position(p, o)) || InHand(mem.pc, Position(p, o))
  }

  predicate Accounted(f: Facts, at: Position) {
    IsSettled(f, at) || at in f.skipped
  }

  predicate MemberOk(cfg: Settings, f: Facts, cells: Cells, now: int, mem: Member) {
    PcOk(cfg, f, cells, now, mem.pc) && ViewOk(f, mem)
  }

  predicate CommittedOk(f: Facts, committed: map<Partition, nat>) {
    forall p, o: nat :: p in committed && o < committed[p] ==> Accounted(f, Position(p, o))
  }

  predicate TakersOk(s: State) {
    forall c :: c in s.members && s.members[c].pc.Taking? ==> s.members[c].pc.watched < s.nextVersion
  }

  predicate Inv(cfg: Settings, s: State) {
    && (forall e :: e in s.cells ==> CellOk(s, e))
    && (forall c :: c in s.members ==> MemberOk(cfg, s.facts, s.cells, s.now, s.members[c]))
    && TakersOk(s)
    && CommittedOk(s.facts, s.committed)
  }

  // ---------- Facts only grow ----------

  predicate Grows(f: Facts, g: Facts) {
    && (forall p :: p in f.log ==> p in g.log && f.log[p] <= g.log[p])
    && f.durable <= g.durable && f.deadEvents <= g.deadEvents && f.deadRecords <= g.deadRecords
    && f.skipped <= g.skipped
  }

  lemma GrowsKeeps(f: Facts, g: Facts, at: Position)
    requires Grows(f, g)
    ensures InLog(f, at) ==> InLog(g, at) && RecordAt(g, at) == RecordAt(f, at)
    ensures IsSettled(f, at) ==> IsSettled(g, at)
    ensures Accounted(f, at) ==> Accounted(g, at)
  {
  }

  /** A key that a consumer in its claim relies on may vanish only once the event is settled,
      or by an expiry that the consumer's history notes. */
  predicate CellsKept(f: Facts, cells: Cells, cells': Cells) {
    forall e :: e in cells ==> e in cells' || EventSettled(f, e)
  }

  /** A rewritten key carries a version not seen before. */
  predicate VersionsKept(cells: Cells, cells': Cells, next: nat) {
    forall e :: e in cells' ==> (e in cells && cells'[e] == cells[e]) || cells'[e].version >= next
  }

  /** A consumer that takes no part in a step stays consistent. */
  lemma BystanderOk(cfg: Settings, f: Facts, g: Facts, cells: Cells, cells': Cells, now: int, now': int, next: nat,
                    mem: Member)
    requires MemberOk(cfg, f, cells, now, mem)
    requires Grows(f, g) && now <= now'
    requires CellsKept(g, cells, cells') && VersionsKept(cells, cells', next)
    requires mem.pc.Taking? ==> mem.pc.watched < next
    ensures MemberOk(cfg, g, cells', now', mem)
  {
    if !mem.pc.Idle? {
      GrowsKeeps(f, g, HeldPosition(mem.pc));
    }
    forall p, o: nat | p in mem.view && o < mem.view[p]
      ensures Accounted(g, Position(p, o)) || InHand(mem.pc, Position(p, o))
    {
      GrowsKeeps(f, g, Position(p, o));
    }
    assert ViewOk(g, mem);
  }

  /** The frame of one consumer's step: everyone else, the store's truthfulness and the committed
      offsets follow from monotonicity; only the acting consumer remains to be checked. */
  lemma StepFrame(cfg: Settings, s: State, s': State, c: ConsumerId)
    requires Inv(cfg, s)
    requires Grows(s.facts, s'.facts) && s.now <= s'.now && s.nextVersion <= s'.nextVersion
    requires CellsKept(s'.facts, s.cells, s'.cells) && VersionsKept(s.cells, s'.cells, s.nextVersion)
    requires forall e :: e in s'.cells && !(e in s.cells && s'.cells[e] == s.cells[e]) ==> CellOk(s', e)
    requires forall d :: d in s'.members && d != c ==> d in s.members && s'.members[d] == s.members[d]
    requires c in s'.members ==> MemberOk(cfg, s'.facts, s'.cells, s'.now, s'.members[c])
    requires c in s'.members && s'.members[c].pc.Taking? ==> s'.members[c].pc.watched < s'.nextVersion
    requires CommittedOk(s'.facts, s'.committed) || s'.committed == s.committed
    ensures Inv(cfg, s')
  {
    forall e | e in s'.cells
      ensures CellOk(s', e)
    {
      if e in s.cells && s'.cells[e] == s.cells[e] {
        assert CellOk(s, e);
      }
    }
    forall d | d in s'.members
      ensures MemberOk(cfg, s'.facts, s'.cells, s'.now, s'.members[d])
    {
      if d != c {
        BystanderOk(cfg, s.facts, s'.facts, s.cells, s'.cells, s.now, s'.now, s.nextVersion, s.members[d]);
      }
    }
    if s'.committed == s.committed {
      forall p, o: nat | p in s'.committed && o < s'.committed[p]
        ensures Accounted(s'.facts, Position(p, o))
      {
        GrowsKeeps(s.facts, s'.facts, Position(p, o));
      }
    }
  }

  // ---------- Moving one consumer ----------

  /** The same record stays in hand: the view needs no new argument. */
  lemma SameHandViewOk(f: Facts, g: Facts, mem: Member, pc: Pc)
    requires ViewOk(f, mem) && Grows(f, g)
    requires !mem.pc.Idle? && !pc.Idle? && HeldPosition(pc) == HeldPosition(mem.pc)
    ensures ViewOk(g, mem.(pc := pc))
  {
    var mem' := mem.(pc := pc);
    forall p, o: nat | p in mem'.view && o < mem'.view[p]
      ensures Accounted(g, Position(p, o)) || InHand(pc, Position(p, o))
    {
      GrowsKeeps(f, g, Position(p, o));
      assert InHand(mem.pc, Position(p, o)) ==> InHand(pc, Position(p, o));
    }
  }

  /** Letting go of the record in hand is fine once it is accounted for. */
  lemma LetGoViewOk(f: Facts, g: Facts, mem: Member)
    requires ViewOk(f, mem) && Grows(f, g)
    requires !mem.pc.Idle? && Accounted(g, HeldPosition(mem.pc))
    ensures ViewOk(g, mem.(pc := Idle))
  {
    var mem' := mem.(pc := Idle);
    forall p, o: nat | p in mem'.view && o < mem'.view[p]
      ensures Accounted(g, Position(p, o))
    {
      GrowsKeeps(f, g, Position(p, o));
      assert InHand(mem.pc, Position(p, o)) ==> Position(p, o) == HeldPosition(mem.pc);
    }
  }

  lemma GrantKeepsInv(cfg: Settings, s: State, c: ConsumerId, m: Msg, attempt: nat, kind: GrantKind)
    requires Inv(cfg, s) && c in s.members && !PcOf(s, c).Idle?
    requires HeldPosition(PcOf(s, c)) == m.at && InLog(s.facts, m.at) && RecordAt(s.facts, m.at) == Review(m.event)
    ensures Inv(cfg, GrantTo(cfg, s, c, m, attempt, kind))
  {
    var s' := GrantTo(cfg, s, c, m, attempt, kind);
    SameHandViewOk(s.facts, s'.facts, s.members[c], Reviewing(m));
    StepFrame(cfg, s, s', c);
  }

  lemma MoveKeepsInv(cfg: Settings, s: State, c: ConsumerId, pc: Pc)
    requires Inv(cfg, s) && c in s.members && !PcOf(s, c).Idle? && !pc.Idle?
    requires HeldPosition(pc) == HeldPosition(PcOf(s, c))
    requires PcOk(cfg, s.facts, s.cells, s.now, pc)
    requires pc.Taking? ==> pc.watched < s.nextVersion
    ensures Inv(cfg, SetPc(s, c, pc))
  {
    SameHandViewOk(s.facts, s.facts, s.members[c], pc);
    StepFrame(cfg, s, SetPc(s, c, pc), c);
  }

  lemma RemoveKeepsInv(cfg: Settings, s: State, c: ConsumerId)
    requires Inv(cfg, s)
    ensures Inv(cfg, RemoveMember(s, c))
  {
    StepFrame(cfg, s, RemoveMember(s, c), c);
  }

  lemma RaiseKeepsInv(cfg: Settings, s: State, c: ConsumerId)
    requires Inv(cfg, s) && c in s.members && !PcOf(s, c).Idle?
    ensures Inv(cfg, RaiseIn(s, c))
  {
    assert MemberOk(cfg, s.facts, s.cells, s.now, s.members[c]);
    match Recover(PcOf(s, c))
    case Some(pc) => MoveKeepsInv(cfg, s, c, pc);
    case None => RemoveKeepsInv(cfg, s, c);
  }

  // ---------- One lemma per kind of step ----------

  /** A step that moves no consumer. */
  lemma NobodyMovesFrame(cfg: Settings, s: State, s': State)
    requires Inv(cfg, s)
    requires Grows(s.facts, s'.facts) && s.now <= s'.now && s.nextVersion <= s'.nextVersion
    requires CellsKept(s'.facts, s.cells, s'.cells) && VersionsKept(s.cells, s'.cells, s.nextVersion)
    requires forall e :: e in s'.cells && !(e in s.cells && s'.cells[e] == s.cells[e]) ==> CellOk(s', e)
    requires s'.members == s.members && s'.committed == s.committed
    ensures Inv(cfg, s')
  {
    if c :| c in s.members {
      BystanderOk(cfg, s.facts, s'.facts, s.cells, s'.cells, s.now, s'.now, s.nextVersion, s.members[c]);
      StepFrame(cfg, s, s', c);
    } else {
      StepFrame(cfg, s, s', 0);
    }
  }

  lemma MembershipKeepsInv(cfg: Settings, s: State, t: Step)
    requires Inv(cfg, s) && Enabled(s, t) && (t.Start? || t.Crash? || t.Rebalance?)
    ensures Inv(cfg, Next(cfg, s, t))
  {
    if t.Crash? {
      RemoveKeepsInv(cfg, s, t.who);
    } else {
      StepFrame(cfg, s, Next(cfg, s, t), t.who);
    }
  }

  lemma OutsideKeepsInv(cfg: Settings, s: State, t: Step)
    requires Inv(cfg, s) && Enabled(s, t) && (t.Tick? || t.Produce? || t.LateOutcome?)
    ensures Inv(cfg, Next(cfg, s, t))
  {
    NobodyMovesFrame(cfg, s, Next(cfg, s, t));
  }

  /** A consumer whose claim depends on the expired key notes it; the others are bystanders. */
  lemma ExpiryNoted(cfg: Settings, s: State, e: EventId, mem: Member)
    requires MemberOk(cfg, s.facts, s.cells, s.now, mem)
    ensures MemberOk(cfg, s.facts, s.cells - {e}, s.now, NoteExpiry(mem, e))
  {
    if InClaim(mem.pc, e) {
      SameHandViewOk(s.facts, s.facts, mem, NoteExpiry(mem, e).pc);
    }
  }

  lemma ExpireKeepsInv(cfg: Settings, s: State, e: EventId)
    requires Inv(cfg, s) && e in s.cells
    ensures Inv(cfg, AfterExpiry(s, e))
  {
    var s' := AfterExpiry(s, e);
    forall x | x in s'.cells
      ensures CellOk(s', x)
    {
      assert CellOk(s, x);
    }
    forall c | c in s'.members
      ensures MemberOk(cfg, s'.facts, s'.cells, s'.now, s'.members[c])
      ensures s'.members[c].pc.Taking? ==> s'.members[c].pc.watched < s'.nextVersion
    {
      ExpiryNoted(cfg, s, e, s.members[c]);
    }
  }

  lemma BeatKeepsInv(cfg: Settings, s: State, t: Step)
    requires Inv(cfg, s) && Enabled(s, t) && IsBeatStep(t)
    ensures Inv(cfg, NextBeat(cfg, s, t))
  {
    NobodyMovesFrame(cfg, s, NextBeat(cfg, s, t));
  }

  lemma PollKeepsInv(cfg: Settings, s: State, c: ConsumerId, p: Partition)
    requires Inv(cfg, s) && Enabled(s, Poll(c, p))
    ensures Inv(cfg, NextConsumer(cfg, s, Poll(c, p)))
  {
    var s' := NextConsumer(cfg, s, Poll(c, p));
    var mem, mem' := s.members[c], s'.members[c];
    assert MemberOk(cfg, s.facts, s.cells, s.now, mem);
    forall q, o: nat | q in mem'.view && o < mem'.view[q]
      ensures Accounted(s'.facts, Position(q, o)) || InHand(mem'.pc, Position(q, o))
    {
      if q != p || o < mem.view[p] {
        assert Accounted(s.facts, Position(q, o));
      }
    }
    StepFrame(cfg, s, s', c);
  }

  lemma ClaimKeepsInv(cfg: Settings, s: State, t: Step)
    requires Inv(cfg, s) && Enabled(s, t) && (t.SetIfAbsent? || t.Watch?)
    ensures Inv(cfg, NextConsumer(cfg, s, t))
  {
    var c := t.who;
    var mem := s.members[c];
    assert MemberOk(cfg, s.facts, s.cells, s.now, mem);
    var e := mem.pc.m.event;
    if t.SetIfAbsent? {
      if e in s.cells {
        MoveKeepsInv(cfg, s, c, Reading(mem.pc.m, false));
      } else {
        GrantKeepsInv(cfg, s, c, mem.pc.m, 1, Created);
      }
    } else if Read(s.cells, e) == mem.pc.raw && e in s.cells {
      assert CellOk(s, e);
      MoveKeepsInv(cfg, s, c, Taking(mem.pc.m, mem.pc.gone, mem.pc.raw, s.cells[e].version));
    } else {
      MoveKeepsInv(cfg, s, c, Reading(mem.pc.m, mem.pc.gone));
    }
  }

  /** An unreadable marker lets the record go unsettled, which the facts note. */
  lemma UnreadableKeepsInv(cfg: Settings, s: State, c: ConsumerId)
    requires Inv(cfg, s) && Enabled(s, ReadMarker(c)) && Read(s.cells, PcOf(s, c).m.event).Unreadable?
    ensures Inv(cfg, AfterRead(cfg, s, c))
  {
    var s' := AfterRead(cfg, s, c);
    assert MemberOk(cfg, s.facts, s.cells, s.now, s.members[c]);
    LetGoViewOk(s.facts, s'.facts, s.members[c]);
    assert s'.cells == s.cells && s'.committed == s.committed && s'.now == s.now && s'.nextVersion == s.nextVersion;
    assert MemberOk(cfg, s'.facts, s'.cells, s'.now, s'.members[c]);
    StepFrame(cfg, s, s', c);
  }

  lemma ReadKeepsInv(cfg: Settings, s: State, c: ConsumerId)
    requires Inv(cfg, s) && Enabled(s, ReadMarker(c))
    ensures Inv(cfg, AfterRead(cfg, s, c))
  {
    var pc := PcOf(s, c);
    var raw := Read(s.cells, pc.m.event);
    if raw.Unreadable? {
      UnreadableKeepsInv(cfg, s, c);
    } else {
      assert MemberOk(cfg, s.facts, s.cells, s.now, s.members[c]);
      if raw.Terminal? {
        assert CellOk(s, pc.m.event);
        MoveKeepsInv(cfg, s, c, Committing(pc.m.at, FromDuplicate));
      } else {
        MoveKeepsInv(cfg, s, c, if Fresh(cfg, raw, s.now) then Deferring(pc.m) else Watching(pc.m, pc.gone, raw));
      }
    }
  }

  /** A takeover whose answer is lost rewrites the marker and defers the record. */
  lemma LostAnswerKeepsInv(cfg: Settings, s: State, c: ConsumerId)
    requires Inv(cfg, s) && Enabled(s, Exec(c, true))
    requires var pc := PcOf(s, c); pc.m.event in s.cells && s.cells[pc.m.event].version == pc.watched
    ensures Inv(cfg, AfterExec(cfg, s, c, true))
  {
    var s' := AfterExec(cfg, s, c, true);
    assert MemberOk(cfg, s.facts, s.cells, s.now, s.members[c]);
    SameHandViewOk(s.facts, s'.facts, s.members[c], Deferring(PcOf(s, c).m));
    StepFrame(cfg, s, s', c);
  }

  lemma ExecKeepsInv(cfg: Settings, s: State, c: ConsumerId, answerLost: bool)
    requires Inv(cfg, s) && Enabled(s, Exec(c, answerLost))
    ensures Inv(cfg, AfterExec(cfg, s, c, answerLost))
  {
    var pc := PcOf(s, c);
    var e := pc.m.event;
    if e in s.cells && s.cells[e].version == pc.watched {
      if answerLost {
        LostAnswerKeepsInv(cfg, s, c);
      } else {
        assert MemberOk(cfg, s.facts, s.cells, s.now, s.members[c]);
        GrantKeepsInv(cfg, s, c, pc.m, AttemptOf(pc.raw) + 1, Takeover(pc.watched, pc.raw));
      }
    } else {
      assert MemberOk(cfg, s.facts, s.cells, s.now, s.members[c]);
      MoveKeepsInv(cfg, s, c, Deferring(pc.m));
    }
  }

  lemma SeekKeepsInv(cfg: Settings, s: State, c: ConsumerId)
    requires Inv(cfg, s) && Enabled(s, SeekBack(c))
    ensures Inv(cfg, NextConsumer(cfg, s, SeekBack(c)))
  {
    var s' := NextConsumer(cfg, s, SeekBack(c));
    var mem, mem' := s.members[c], s'.members[c];
    assert MemberOk(cfg, s.facts, s.cells, s.now, mem);
    forall p, o: nat | p in mem'.view && o < mem'.view[p]
      ensures Accounted(s'.facts, Position(p, o))
    {
      assert p in mem.view && o < mem.view[p];
    }
    StepFrame(cfg, s, s', c);
  }

  /** The acting consumer keeps its record in hand while facts or markers are added. */
  lemma HandKept(cfg: Settings, s: State, s': State, c: ConsumerId)
    requires Inv(cfg, s) && c in s.members && c in s'.members && !PcOf(s, c).Idle? && !PcOf(s', c).Idle?
    requires s'.members == s.members[c := s.members[c].(pc := PcOf(s', c))]
    requires HeldPosition(PcOf(s', c)) == HeldPosition(PcOf(s, c)) && !PcOf(s', c).Taking?
    requires Grows(s.facts, s'.facts) && s.now == s'.now && s.nextVersion <= s'.nextVersion
    requires CellsKept(s'.facts, s.cells, s'.cells) && VersionsKept(s.cells, s'.cells, s.nextVersion)
    requires forall e :: e in s'.cells && !(e in s.cells && s'.cells[e] == s.cells[e]) ==> CellOk(s', e)
    requires s'.committed == s.committed
    requires PcOk(cfg, s.facts, s.cells, s.now, PcOf(s, c)) ==> PcOk(cfg, s'.facts, s'.cells, s'.now, PcOf(s', c))
    ensures Inv(cfg, s')
  {
    assert MemberOk(cfg, s.facts, s.cells, s.now, s.members[c]);
    SameHandViewOk(s.facts, s'.facts, s.members[c], PcOf(s', c));
    StepFrame(cfg, s, s', c);
  }

  /** A malformed record reaches the dead-letter topic. */
  lemma SendMalformedKeepsInv(cfg: Settings, s: State, t: Step)
    requires Inv(cfg, s) && Enabled(s, t) && (t.SendMalformed?)
    ensures Inv(cfg, NextConsumer(cfg, s, t))
  {
    var s' := NextConsumer(cfg, s, t);
    HandKept(cfg, s, s', t.who);
  }

  /** The agent answers. */
  lemma AgentKeepsInv(cfg: Settings, s: State, t: Step)
    requires Inv(cfg, s) && Enabled(s, t) && (t.AgentReturns?)
    ensures Inv(cfg, NextConsumer(cfg, s, t))
  {
    var s' := NextConsumer(cfg, s, t);
    HandKept(cfg, s, s', t.who);
  }

  /** Java applies a manual fallback. */
  lemma FallbackKeepsInv(cfg: Settings, s: State, t: Step)
    requires Inv(cfg, s) && Enabled(s, t) && (t.FallbackReply? && t.applied)
    ensures Inv(cfg, NextConsumer(cfg, s, t))
  {
    var s' := NextConsumer(cfg, s, t);
    HandKept(cfg, s, s', t.who);
  }

  /** MANUAL_REQUIRED is written after a fallback. */
  lemma MarkManualKeepsInv(cfg: Settings, s: State, t: Step)
    requires Inv(cfg, s) && Enabled(s, t) && (t.MarkManual?)
    ensures Inv(cfg, NextConsumer(cfg, s, t))
  {
    var s' := NextConsumer(cfg, s, t);
    HandKept(cfg, s, s', t.who);
  }

  /** A failed event reaches the dead-letter topic. */
  lemma SendFailedKeepsInv(cfg: Settings, s: State, t: Step)
    requires Inv(cfg, s) && Enabled(s, t) && (t.SendFailed?)
    ensures Inv(cfg, NextConsumer(cfg, s, t))
  {
    var s' := NextConsumer(cfg, s, t);
    HandKept(cfg, s, s', t.who);
  }

  /** FAILED is written after dead-lettering. */
  lemma MarkFailedKeepsInv(cfg: Settings, s: State, t: Step)
    requires Inv(cfg, s) && Enabled(s, t) && (t.MarkFailed?)
    ensures Inv(cfg, NextConsumer(cfg, s, t))
  {
    var s' := NextConsumer(cfg, s, t);
    HandKept(cfg, s, s', t.who);
  }

  /** One Redis command of finalisation. */
  lemma FinalCommandKeepsInv(cfg: Settings, s: State, c: ConsumerId)
    requires Inv(cfg, s) && Enabled(s, FinalCommand(c))
    ensures Inv(cfg, AfterFinalCommand(cfg, s, c))
  {
    assert MemberOk(cfg, s.facts, s.cells, s.now, s.members[c]);
    var pc := PcOf(s, c);
    var done := Committing(pc.m.at, FromReview(pc.m.event));
    match pc.act
    case ReleaseRead =>
      MoveKeepsInv(cfg, s, c, if OwnedBy(Read(s.cells, pc.m.event), c) then Finalizing(pc.m, ReleaseDelete) else done);
    case MarkAs(st) =>
      var cells' := WriteTerminal(cfg, s.cells, pc.m.event, st, s.now, s.nextVersion);
      MarkKeepsInv(cfg, s, cells', c, done);
    case ReleaseDelete =>
      var s' := SetPc(s, c, done).(cells := s.cells - {pc.m.event});
      SameHandViewOk(s.facts, s.facts, s.members[c], done);
      StepFrame(cfg, s, s', c);
  }

  lemma MarkKeepsInv(cfg: Settings, s: State, cells': Cells, c: ConsumerId, done: Pc)
    requires Inv(cfg, s) && Enabled(s, FinalCommand(c)) && PcOf(s, c).act.MarkAs?
    requires var pc := PcOf(s, c);
             && cells' == WriteTerminal(cfg, s.cells, pc.m.event, pc.act.status, s.now, s.nextVersion)
             && done == Committing(pc.m.at, FromReview(pc.m.event))
    ensures Inv(cfg, SetPc(s, c, done).(cells := cells', nextVersion := s.nextVersion + 1))
  {
    assert MemberOk(cfg, s.facts, s.cells, s.now, s.members[c]);
    HandKept(cfg, s, SetPc(s, c, done).(cells := cells', nextVersion := s.nextVersion + 1), c);
  }

  lemma CommitKeepsInv(cfg: Settings, s: State, c: ConsumerId, raises: bool)
    requires Inv(cfg, s) && Enabled(s, Commit(c, raises))
    ensures Inv(cfg, AfterCommit(s, c, raises))
  {
    var mem := s.members[c];
    assert MemberOk(cfg, s.facts, s.cells, s.now, mem);
    var covered := s.(committed := s.committed + mem.view);
    forall p, o: nat | p in covered.committed && o < covered.committed[p]
      ensures Accounted(s.facts, Position(p, o))
    {
      assert p in mem.view ==> covered.committed[p] == mem.view[p];
    }
    assert Inv(cfg, covered) by {
      forall d | d in covered.members
        ensures MemberOk(cfg, covered.facts, covered.cells, covered.now, covered.members[d])
      {
        assert MemberOk(cfg, s.facts, s.cells, s.now, s.members[d]);
      }
      forall e | e in covered.cells
        ensures CellOk(covered, e)
      {
        assert CellOk(s, e);
      }
    }
    if raises {
      RaiseKeepsInv(cfg, covered, c);
    } else {
      LetGoViewOk(s.facts, s.facts, mem);
      StepFrame(cfg, covered, AfterCommit(s, c, raises), c);
    }
  }

  lemma ConsumerKeepsInv(cfg: Settings, s: State, t: Step)
    requires Inv(cfg, s) && Enabled(s, t) && IsConsumerStep(t)
    ensures Inv(cfg, NextConsumer(cfg, s, t))
  {
    match t
    case Poll(c, p) => PollKeepsInv(cfg, s, c, p);
    case SendMalformed(_) => SendMalformedKeepsInv(cfg, s, t);
    case SetIfAbsent(_) => ClaimKeepsInv(cfg, s, t);
    case Watch(_) => ClaimKeepsInv(cfg, s, t);
    case ReadMarker(c) => ReadKeepsInv(cfg, s, c);
    case Exec(c, lost) => ExecKeepsInv(cfg, s, c, lost);
    case SeekBack(c) => SeekKeepsInv(cfg, s, c);
    case AgentReturns(_, _) => AgentKeepsInv(cfg, s, t);
    case FinalCommand(c) => FinalCommandKeepsInv(cfg, s, c);
    case FallbackReply(c, applied) =>
      if applied { FallbackKeepsInv(cfg, s, t); } else { RaiseKeepsInv(cfg, s, c); }
    case MarkManual(_) => MarkManualKeepsInv(cfg, s, t);
    case SendFailed(_) => SendFailedKeepsInv(cfg, s, t);
    case MarkFailed(_) => MarkFailedKeepsInv(cfg, s, t);
    case Commit(c, raises) => CommitKeepsInv(cfg, s, c, raises);
    case Raise(c) => RaiseKeepsInv(cfg, s, c);
  }

  /** Every step keeps the invariant. */
  lemma NextKeepsInv(cfg: Settings, s: State, t: Step)
    requires Inv(cfg, s) && Enabled(s, t)
    ensures Inv(cfg, Next(cfg, s, t))
  {
    if IsConsumerStep(t) {
      ConsumerKeepsInv(cfg, s, t);
    } else if IsBeatStep(t) {
      BeatKeepsInv(cfg, s, t);
    } else if t.Expire? {
      ExpireKeepsInv(cfg, s, t.event);
    } else if t.Start? || t.Crash? || t.Rebalance? {
      MembershipKeepsInv(cfg, s, t);
    } else {
      OutsideKeepsInv(cfg, s, t);
    }
  }

  lemma InitGivesInv(cfg: Settings, s: State)
    requires Init(s)
    ensures Inv(cfg, s)
  {
  }

  /** The invariant holds in every state of every run. */
  lemma {:induction false} RunKeepsInv(cfg: Settings, states: seq<State>, steps: seq<Step>, i: nat)
    requires IsRun(cfg, states, steps) && i < |states|
    ensures Inv(cfg, states[i])
  {
    if i == 0 {
      InitGivesInv(cfg, states[0]);
    } else {
      RunKeepsInv(cfg, states, steps, i - 1);
      assert StepAt(cfg, states, steps, i - 1);
      NextKeepsInv(cfg, states[i - 1], steps[i - 1]);
    }
  }
}
