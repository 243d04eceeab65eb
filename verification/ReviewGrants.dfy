/**
 Who is allowed to process an event: the claims of the review consumers.

 A claim is several Redis commands, so other consumers and heartbeats interleave with it. What
 makes it safe is that a grant is one atomic command: either SET NX on an absent key, or an EXEC
 that replaces exactly the stale PROCESSING marker the claimer examined.
 */
module ReviewGrants {
  import opened Wrappers
  import opened ReviewMarkers
  import opened ReviewProtocol
  import opened ReviewInvariant
  import opened ReviewSafety

  /** The shape of a grant at the instant it is made. */
  predicate GrantShape(cfg: Settings, s: State, g: Grant) {
    && g.version == s.nextVersion && g.at == s.now
    && match g.kind
       case Created => g.event !in s.cells
       case Takeover(replaced, examined) =>
         && g.event in s.cells && s.cells[g.event].version == replaced && s.cells[g.event].marker == examined
         && examined.Processing? && (examined.updatedAt <= 0 || g.at - examined.updatedAt >= StaleAfter(cfg))
  }

  /** A step either grants nothing or makes one grant of that shape, and the granted marker is the
      owner's own PROCESSING marker, written at that instant. */
  predicate GrantsAtMostOne(cfg: Settings, s: State, s': State) {
    || s'.grants == s.grants
    || (&& |s'.grants| == |s.grants| + 1 && s.grants <= s'.grants
        && var g := s'.grants[|s.grants|];
         && GrantShape(cfg, s, g)
         && g.event in s'.cells && s'.cells[g.event].version == g.version
         && s'.cells[g.event].marker.Processing? && s'.cells[g.event].marker.owner == Some(g.owner)
         && s'.cells[g.event].marker.updatedAt == s.now)
  }

  lemma GrantToShape(cfg: Settings, s: State, c: ConsumerId, m: Msg, attempt: nat, kind: GrantKind)
    requires c in s.members && GrantShape(cfg, s, Grant(c, m.event, kind, s.nextVersion, s.now))
    ensures GrantsAtMostOne(cfg, s, GrantTo(cfg, s, c, m, attempt, kind))
  {
    var g := Grant(c, m.event, kind, s.nextVersion, s.now);
    assert GrantTo(cfg, s, c, m, attempt, kind).grants == s.grants + [g];
  }

  lemma ExecGrants(cfg: Settings, s: State, c: ConsumerId, answerLost: bool)
    requires Inv(cfg, s) && Enabled(s, Exec(c, answerLost))
    ensures GrantsAtMostOne(cfg, s, AfterExec(cfg, s, c, answerLost))
  {
    assert MemberOk(cfg, s.facts, s.cells, s.now, s.members[c]);
    var pc := PcOf(s, c);
    if pc.m.event in s.cells && s.cells[pc.m.event].version == pc.watched && !answerLost {
      GrantToShape(cfg, s, c, pc.m, AttemptOf(pc.raw) + 1, Takeover(pc.watched, pc.raw));
    }
  }

  lemma OtherStepsGrantNothing(cfg: Settings, s: State, t: Step)
    requires Enabled(s, t) && !t.SetIfAbsent? && !t.Exec?
    ensures Next(cfg, s, t).grants == s.grants
  {
    if IsConsumerStep(t) {
      OtherConsumerStepsGrantNothing(cfg, s, t);
    }
  }

  lemma OtherConsumerStepsGrantNothing(cfg: Settings, s: State, t: Step)
    requires Enabled(s, t) && IsConsumerStep(t) && !t.SetIfAbsent? && !t.Exec?
    ensures NextConsumer(cfg, s, t).grants == s.grants
  {
  }

  /** In every reachable state, every step that grants an event creates an absent key or atomically
      replaces the stale PROCESSING marker its claimer examined; it never replaces a terminal one. */
  lemma EveryGrantIsCreationOrStaleTakeover(cfg: Settings, s: State, t: Step)
    requires Inv(cfg, s) && Enabled(s, t)
    ensures GrantsAtMostOne(cfg, s, Next(cfg, s, t))
  {
    match t
    case SetIfAbsent(c) =>
      var m := PcOf(s, c).m;
      if m.event !in s.cells {
        GrantToShape(cfg, s, c, m, 1, Created);
      }
    case Exec(c, lost) => ExecGrants(cfg, s, c, lost);
    case _ => OtherStepsGrantNothing(cfg, s, t);
  }

  lemma FreshMarkerBlocksGrants(cfg: Settings, s: State, s': State, e: EventId)
    requires GrantsAtMostOne(cfg, s, s') && Fresh(cfg, Read(s.cells, e), s.now)
    ensures forall i :: |s.grants| <= i < |s'.grants| ==> s'.grants[i].event != e
  {
  }

  lemma StepGrantsNothingFresh(cfg: Settings, s: State, t: Step, e: EventId)
    requires Inv(cfg, s) && Enabled(s, t) && Fresh(cfg, Read(s.cells, e), s.now)
    ensures s.grants <= Next(cfg, s, t).grants
    ensures forall i :: |s.grants| <= i < |Next(cfg, s, t).grants| ==> Next(cfg, s, t).grants[i].event != e
  {
    EveryGrantIsCreationOrStaleTakeover(cfg, s, t);
    FreshMarkerBlocksGrants(cfg, s, Next(cfg, s, t), e);
  }

  /** The marker of an event is fresh in every state from n up to m: the heartbeat keeps up. */
  ghost predicate KeptFresh(cfg: Settings, states: seq<State>, n: nat, m: nat, e: EventId)
    requires n <= m <= |states|
  {
    forall i: nat :: n <= i < m ==> Fresh(cfg, Read(states[i].cells, e), states[i].now)
  }

  /** A marker that is kept fresh is never overtaken: over any stretch of any run in which it is fresh in
      every state, whatever all other consumers and heartbeats do, nobody is granted the event. */
  lemma {:induction false} FreshMarkerIsNotOvertaken(cfg: Settings, states: seq<State>, steps: seq<Step>, n: nat, m: nat, e: EventId)
    requires IsRun(cfg, states, steps) && n <= m < |states| && KeptFresh(cfg, states, n, m, e)
    ensures states[n].grants <= states[m].grants
    ensures forall i :: |states[n].grants| <= i < |states[m].grants| ==> states[m].grants[i].event != e
    decreases m
  {
    if n < m {
      FreshMarkerIsNotOvertaken(cfg, states, steps, n, m - 1, e);
      assert StepAt(cfg, states, steps, m - 1);
      RunKeepsInv(cfg, states, steps, m - 1);
      assert Fresh(cfg, Read(states[m - 1].cells, e), states[m - 1].now);
      StepGrantsNothingFresh(cfg, states[m - 1], steps[m - 1], e);
    }
  }

  // ---------- No stored version is granted twice ----------

  predicate GrantsOk(s: State) {
    && (forall i :: 0 <= i < |s.grants| ==> s.grants[i].version < s.nextVersion)
    && (forall i, j :: 0 <= i < j < |s.grants| ==> s.grants[i].version < s.grants[j].version)
    && (forall i :: 0 <= i < |s.grants| && s.grants[i].kind.Takeover? ==> s.grants[i].kind.replaced < s.grants[i].version)
    && (forall i :: 0 <= i < |s.grants| && s.grants[i].event in s.cells ==>
          s.grants[i].version <= s.cells[s.grants[i].event].version)
    && (forall i, j :: 0 <= i < j < |s.grants| && s.grants[j].kind.Takeover? && s.grants[i].event == s.grants[j].event
          ==> s.grants[i].version <= s.grants[j].kind.replaced)
  }

  /** Versions only move up, whatever writes the key. */
  predicate VersionsRise(s: State, s': State) {
    && s.nextVersion <= s'.nextVersion
    && (forall e :: e in s'.cells && s'.cells[e].version < s.nextVersion ==> e in s.cells && s'.cells[e] == s.cells[e])
  }

  lemma ConsumerVersionsRise(cfg: Settings, s: State, t: Step)
    requires Enabled(s, t) && IsConsumerStep(t) && !t.Exec? && !t.FinalCommand? && !t.SetIfAbsent? && !t.ReadMarker?
    ensures VersionsRise(s, NextConsumer(cfg, s, t))
  {
  }

  lemma ExecVersionsRise(cfg: Settings, s: State, c: ConsumerId, answerLost: bool)
    requires Enabled(s, Exec(c, answerLost))
    ensures VersionsRise(s, AfterExec(cfg, s, c, answerLost))
  {
  }

  lemma FinalVersionsRise(cfg: Settings, s: State, c: ConsumerId)
    requires Enabled(s, FinalCommand(c))
    ensures VersionsRise(s, AfterFinalCommand(cfg, s, c))
  {
  }

  lemma BeatVersionsRise(cfg: Settings, s: State, t: Step)
    requires Enabled(s, t) && IsBeatStep(t)
    ensures VersionsRise(s, NextBeat(cfg, s, t))
  {
  }

  lemma EnvironmentVersionsRise(cfg: Settings, s: State, t: Step)
    requires Enabled(s, t) && !IsConsumerStep(t) && !IsBeatStep(t)
    ensures VersionsRise(s, Next(cfg, s, t))
  {
  }

  lemma ReadingVersionsRise(cfg: Settings, s: State, t: Step)
    requires Enabled(s, t) && (t.SetIfAbsent? || t.ReadMarker?)
    ensures VersionsRise(s, NextConsumer(cfg, s, t))
  {
  }

  lemma StepVersionsRise(cfg: Settings, s: State, t: Step)
    requires Enabled(s, t)
    ensures VersionsRise(s, Next(cfg, s, t))
  {
    if IsBeatStep(t) {
      BeatVersionsRise(cfg, s, t);
    } else if !IsConsumerStep(t) {
      EnvironmentVersionsRise(cfg, s, t);
    } else if t.Exec? {
      ExecVersionsRise(cfg, s, t.who, t.answerLost);
    } else if t.FinalCommand? {
      FinalVersionsRise(cfg, s, t.who);
    } else if t.SetIfAbsent? || t.ReadMarker? {
      ReadingVersionsRise(cfg, s, t);
    } else {
      ConsumerVersionsRise(cfg, s, t);
    }
  }

  /** Without a new grant, rising versions keep the old grants in order. */
  lemma NoGrantKeepsGrantsOk(s: State, s': State)
    requires GrantsOk(s) && VersionsRise(s, s') && s'.grants == s.grants
    ensures GrantsOk(s')
  {
  }

  lemma NewGrantKeepsGrantsOk(cfg: Settings, s: State, s': State, g: Grant)
    requires GrantsOk(s) && VersionsRise(s, s') && s'.grants == s.grants + [g] && GrantShape(cfg, s, g)
    requires g.event in s'.cells && s'.cells[g.event].version == g.version && s.nextVersion < s'.nextVersion
    requires forall e :: e in s.cells ==> s.cells[e].version < s.nextVersion
    ensures GrantsOk(s')
  {
  }

  lemma StepKeepsGrantsOk(cfg: Settings, s: State, s': State)
    requires GrantsOk(s) && VersionsRise(s, s') && GrantsAtMostOne(cfg, s, s')
    requires s'.grants != s.grants ==> s.nextVersion < s'.nextVersion
    requires forall e :: e in s.cells ==> s.cells[e].version < s.nextVersion
    ensures GrantsOk(s')
  {
    if s'.grants == s.grants {
      NoGrantKeepsGrantsOk(s, s');
    } else {
      var g := s'.grants[|s.grants|];
      assert s'.grants == s.grants + [g];
      NewGrantKeepsGrantsOk(cfg, s, s', g);
    }
  }

  lemma GrantingAdvancesVersion(cfg: Settings, s: State, t: Step)
    requires Enabled(s, t) && Next(cfg, s, t).grants != s.grants
    ensures s.nextVersion < Next(cfg, s, t).nextVersion
  {
    if !t.SetIfAbsent? && !t.Exec? {
      OtherStepsGrantNothing(cfg, s, t);
    }
  }

  lemma {:induction false} RunKeepsGrantsOk(cfg: Settings, states: seq<State>, steps: seq<Step>, i: nat)
    requires IsRun(cfg, states, steps) && i < |states|
    ensures GrantsOk(states[i])
  {
    if i > 0 {
      var s, t := states[i - 1], steps[i - 1];
      assert StepAt(cfg, states, steps, i - 1);
      RunKeepsGrantsOk(cfg, states, steps, i - 1);
      RunKeepsInv(cfg, states, steps, i - 1);
      EveryGrantIsCreationOrStaleTakeover(cfg, s, t);
      StepVersionsRise(cfg, s, t);
      if states[i].grants != s.grants {
        GrantingAdvancesVersion(cfg, s, t);
      }
      forall e | e in s.cells
        ensures s.cells[e].version < s.nextVersion
      {
        assert CellOk(s, e);
      }
      StepKeepsGrantsOk(cfg, s, states[i]);
    }
  }

  /** Over any run, two grants never write the same version and never take over the same stored
      version of an event's marker: of all consumers racing for one marker, at most one wins. */
  lemma NoVersionGrantedTwice(cfg: Settings, states: seq<State>, steps: seq<Step>, n: nat, i: nat, j: nat)
    requires IsRun(cfg, states, steps) && n < |states|
    requires i < |states[n].grants| && j < |states[n].grants| && i != j
    ensures var g, h := states[n].grants[i], states[n].grants[j];
            && g.version != h.version
            && (g.event == h.event && g.kind.Takeover? && h.kind.Takeover? ==> g.kind.replaced != h.kind.replaced)
  {
    RunKeepsGrantsOk(cfg, states, steps, n);
  }

  // ---------- A claim without interference ----------

  /** WATCH and EXEC back to back. */
  function TakeAlone(cfg: Settings, s: State, c: ConsumerId): State
    requires c in s.members && PcOf(s, c).Watching?
  {
    var s' := AfterWatch(s, c);
    if PcOf(s', c).Taking? then AfterExec(cfg, s', c, false) else s'
  }

  /** The commands of a claim, run back to back by one consumer. */
  function ClaimAlone(cfg: Settings, s: State, c: ConsumerId): State
    requires c in s.members && PcOf(s, c).Claiming?
  {
    var s1 := AfterSetIfAbsent(cfg, s, c);
    if PcOf(s1, c).Reviewing? then s1
    else
      var s2 := AfterRead(cfg, s1, c);
      if PcOf(s2, c).Watching? then TakeAlone(cfg, s2, c) else s2
  }

  /** The consumer's verdict on the claim, read off its position in the loop. */
  predicate Concludes(pc: Pc, verdict: Claim) {
    && (verdict.Granted? <==> pc.Reviewing?) && (verdict.Settled? <==> pc.Committing?)
    && (verdict.Busy? <==> pc.Deferring?) && (verdict.Unknown? <==> pc.Idle?)
  }

  lemma TakeAloneGrants(cfg: Settings, s: State, c: ConsumerId)
    requires c in s.members && PcOf(s, c).Watching?
    requires var pc := PcOf(s, c); pc.m.event in s.cells && s.cells[pc.m.event].marker == pc.raw
    ensures var pc := PcOf(s, c);
            TakeAlone(cfg, s, c).cells
            == WriteProcessing(cfg, s.cells, pc.m.event, c, AttemptOf(pc.raw) + 1, s.now, s.nextVersion)
    ensures TakeAlone(cfg, s, c).members == s.members[c := s.members[c].(pc := Reviewing(PcOf(s, c).m))]
  {
  }

  lemma ReadAloneConcludes(cfg: Settings, s: State, c: ConsumerId)
    requires c in s.members && PcOf(s, c).Reading? && PcOf(s, c).m.event in s.cells
    ensures var (cells, verdict) := ClaimEffect(cfg, s.cells, PcOf(s, c).m.event, c, s.now, s.nextVersion);
            var s2 := AfterRead(cfg, s, c);
            var s' := if PcOf(s2, c).Watching? then TakeAlone(cfg, s2, c) else s2;
            s'.cells == cells && s'.members.Keys == s.members.Keys && Concludes(PcOf(s', c), verdict)
  {
    var s2 := AfterRead(cfg, s, c);
    if PcOf(s2, c).Watching? {
      TakeAloneGrants(cfg, s2, c);
    }
  }

  /** Undisturbed, the interleaved commands do exactly what the store object's claim does. */
  lemma ClaimAloneIsClaim(cfg: Settings, s: State, c: ConsumerId)
    requires c in s.members && PcOf(s, c).Claiming?
    ensures var (cells, verdict) := ClaimEffect(cfg, s.cells, PcOf(s, c).m.event, c, s.now, s.nextVersion);
            var s' := ClaimAlone(cfg, s, c);
            s'.cells == cells && c in s'.members && Concludes(PcOf(s', c), verdict)
  {
    if PcOf(s, c).m.event in s.cells {
      ReadAloneConcludes(cfg, AfterSetIfAbsent(cfg, s, c), c);
    }
  }
}
