/** Every run with the retention compactor is simulated by a run without it: same attempts, same
    network, same broker and routers, same record; only finished documents are still there. */
module CompactorSimulation {
  import opened Types
  import opened DedupKey
  import opened DocumentStore
  import opened Containment
  import opened ContainmentClaims
  import opened ContainmentReplay

  predicate OfCompactor(e: Event) { e.CompactorScans? || e.CompactorDeletes? }

  predicate WithoutCompactor(events: seq<Event>) { forall i | 0 <= i < |events| :: !OfCompactor(events[i]) }

  /** `w` holds every document of `v`, and beyond them only finished ones. */
  ghost predicate Keeps(v: View, w: View) {
    && w.nextSeq == v.nextSeq
    && (forall id | id in v.docs :: id in w.docs && w.docs[id] == v.docs[id])
    && (forall id | id in w.docs && id !in v.docs :: w.docs[id].phase in TERMINAL_PHASES)
  }

  ghost predicate Sim(s: State, t: State) {
    Keeps(s.store, t.store) && t == s.(store := t.store, condemned := t.condemned)
  }

  /** What the run without a compactor does where the run with one does `e`. */
  function Mirror(s: State, t: State, e: Event): seq<Event> {
    match e
    case CompactorScans(_) => []
    case CompactorDeletes(_, _) => []
    case Approval(a, m) => if CanMove(s, a, m) then MirrorMove(s, t, a, m) else [e]
    case _ => [e]
  }

  function MirrorMove(s: State, t: State, a: AttemptId, m: Move): seq<Event>
    requires CanMove(s, a, m)
  {
    var k, pc := s.attempts[a].key, s.attempts[a].pc;
    var kept := Claim(k) in t.store.docs && Claim(k) !in s.store.docs;
    match m
    case CreateClaim(fault, stamp) =>    // the deleted claim is re-won by compare-and-set instead
      if kept && fault != Lost
      then [Approval(a, CreateClaim(NoFault, stamp)), Approval(a, FetchClaim(true)), Approval(a, Reclaim(fault, stamp))]
      else [Approval(a, m)]
    case FetchClaim(ok) => [Approval(a, if kept then FetchClaim(false) else m)]
    case Reclaim(fault, stamp) => [Approval(a, if kept then Reclaim(Lost, stamp) else m)]
    case LoadContext(ok) => [Approval(a, LoadContext(ok && Checkpoint(k) in s.store.docs))]
    case _ => [Approval(a, m)]
  }

  // ---- one event ----

  lemma PutKeeps(v: View, w: View, id: DocId, phase: Phase, context: Option<Payload>, stamp: int)
    requires Keeps(v, w)
    ensures Keeps(Put(v, id, phase, context, stamp), Put(w, id, phase, context, stamp))
  {}

  lemma UpdateKeeps(v: View, w: View, id: DocId, phase: Phase)
    requires Keeps(v, w) && (id in w.docs ==> id in v.docs)
    ensures Keeps(Update(v, id, phase), Update(w, id, phase))
  {}

  predicate RewonByCreate(s: State, t: State, a: AttemptId, m: Move)
    requires a in s.attempts
  {
    && m.CreateClaim?
    && m.fault != Lost
    && Claim(s.attempts[a].key) in t.store.docs
    && Claim(s.attempts[a].key) !in s.store.docs
  }

  lemma SameWrites(s: State, t: State, a: AttemptId, m: Move)
    requires Sim(s, t) && CanMove(s, a, m) && AttemptOk(s, a) && (m.WritePhase? || m.Settle?)
    ensures CanMove(t, a, m) && Sim(Effect(s, a, m), Effect(t, a, m))
  {
    var k := s.attempts[a].key;
    if m.WritePhase? {
      var pc := s.attempts[a].pc;
      PutKeeps(s.store, t.store, Checkpoint(k), PhaseFor(pc.verdict), Some(pc.context), m.stamp);
    }
    if m.Settle? { UpdateKeeps(s.store, t.store, Claim(k), ClaimPhaseFor(s.attempts[a].pc.verdict)); }
  }

  lemma SameRace(s: State, t: State, a: AttemptId, m: Move, n: Move)
    requires Sim(s, t) && CanMove(s, a, m) && (m.CreateClaim? || m.Reclaim?) && !RewonByCreate(s, t, a, m)
    requires MirrorMove(s, t, a, m) == [Approval(a, n)]
    ensures CanMove(t, a, n) && Sim(Effect(s, a, m), Effect(t, a, n)) && NextPc(s, a, m) == NextPc(t, a, n)
  {
    PutKeeps(s.store, t.store, Claim(s.attempts[a].key), Claimed, None, m.stamp);
  }

  lemma SameRest(s: State, t: State, a: AttemptId, m: Move, n: Move)
    requires Sim(s, t) && CanMove(s, a, m) && !m.CreateClaim? && !m.Reclaim? && !m.WritePhase? && !m.Settle?
    requires MirrorMove(s, t, a, m) == [Approval(a, n)]
    ensures CanMove(t, a, n) && Sim(Effect(s, a, m), Effect(t, a, n)) && NextPc(s, a, m) == NextPc(t, a, n)
  {}

  /** A single move that both runs make alike. */
  lemma SameMove(s: State, t: State, a: AttemptId, m: Move, n: Move)
    requires Sim(s, t) && CanMove(s, a, m) && AttemptOk(s, a) && !RewonByCreate(s, t, a, m)
    requires MirrorMove(s, t, a, m) == [Approval(a, n)]
    ensures CanMove(t, a, n) && Sim(NextApproval(s, a, m), NextApproval(t, a, n))
  {
    if m.WritePhase? || m.Settle? { SameWrites(s, t, a, m); }
    else if m.CreateClaim? || m.Reclaim? { SameRace(s, t, a, m, n); }
    else { SameRest(s, t, a, m, n); }
  }

  /** Creating a claim afresh is mirrored by re-winning the released one. */
  lemma CreateIsReclaim(s: State, t: State, a: AttemptId, fault: Fault, stamp: int)
    requires Sim(s, t) && CanMove(s, a, CreateClaim(fault, stamp)) && StoreOk(t) && fault != Lost
    requires Claim(s.attempts[a].key) in t.store.docs && Claim(s.attempts[a].key) !in s.store.docs
    ensures var t1 := NextApproval(t, a, CreateClaim(NoFault, stamp));
      && CanMove(t1, a, FetchClaim(true))
      && var t2 := NextApproval(t1, a, FetchClaim(true));
      && CanMove(t2, a, Reclaim(fault, stamp))
      && Sim(NextApproval(s, a, CreateClaim(fault, stamp)), NextApproval(t2, a, Reclaim(fault, stamp)))
  {
    var id := Claim(s.attempts[a].key);
    PutKeeps(s.store, t.store, id, Claimed, None, stamp);
    var t1 := NextApproval(t, a, CreateClaim(NoFault, stamp));
    assert t1 == Goto(t, a, Fetching);
    var t2 := NextApproval(t1, a, FetchClaim(true));
    assert t2.attempts == t.attempts[a := t.attempts[a].(pc := Reclaiming(t.store.docs[id].seqNo))];
    var t3 := NextApproval(t2, a, Reclaim(fault, stamp));
    assert t3.attempts == t.attempts[a := t.attempts[a].(pc := AfterWin(fault))];
  }

  /** Broker, intake and operator events happen alike in both runs. */
  lemma SameEvent(s: State, t: State, e: Event)
    requires Sim(s, t) && ClaimInv(t) && Enabled(s, e) && !e.Approval? && !OfCompactor(e)
    ensures Enabled(t, e) && Sim(Next(s, e), Next(t, e))
  {
    match e
    case StartIntake(i, p, bucket, fault, stamp) =>
      PutKeeps(s.store, t.store, Checkpoint(KeyOf(p, bucket)), Perceiving, Some(p), stamp);
    case FinishIntake(i, phase, fault, stamp) =>
      PutKeeps(s.store, t.store, Checkpoint(s.intakes[i].key), phase, Some(s.intakes[i].payload), stamp);
    case OperatorWrites(r, fault) => SameOperatorWrite(s, t, r, fault);
    case _ =>
  }

  /** A ruling never matches a document only the compactor-free run still has. */
  lemma SameOperatorWrite(s: State, t: State, r: Ruling, fault: Fault)
    requires Sim(s, t) && r in s.rulings && RulingOk(t, r)
    ensures Sim(NextOperatorWrites(s, r, fault), NextOperatorWrites(t, r, fault))
  {
    if Matches(t.store, Claim(r.key), r.seqNo) {
      assert Claim(r.key) in s.store.docs;
      UpdateKeeps(s.store, t.store, Claim(r.key), r.outcome);
    }
  }

  lemma SameEnvironment(s: State, t: State, e: Event)
    requires Sim(s, t)
    ensures Timely(s, e) == Timely(t, e) && OperatorIsTruthful(s, e) == OperatorIsTruthful(t, e)
  {
    if e.OperatorDecides? && Wins(s, e.key) != [] {
      var holder := Wins(s, e.key)[|Wins(s, e.key)| - 1];
      assert Barren(s, holder) == Barren(t, holder);
    }
  }

  lemma CompactorIsInvisible(s: State, t: State, e: Event)
    requires Sim(s, t) && CondemnedOk(s) && Enabled(s, e) && OfCompactor(e)
    ensures Sim(Next(s, e), t)
  {}

  lemma OneEventRun(t: State, e: Event)
    requires Enabled(t, e) && Timely(t, e) && OperatorIsTruthful(t, e)
    ensures Run(t, [e]) && Final(t, [e]) == Next(t, e)
  {
    assert [e][1..] == [];
    assert Run(Next(t, e), []);
  }

  lemma ThreeMovesRun(t: State, a: AttemptId, m1: Move, m2: Move, m3: Move)
    requires CanMove(t, a, m1) && CanMove(NextApproval(t, a, m1), a, m2)
    requires CanMove(NextApproval(NextApproval(t, a, m1), a, m2), a, m3)
    ensures var events := [Approval(a, m1), Approval(a, m2), Approval(a, m3)];
      Run(t, events) && Final(t, events) == NextApproval(NextApproval(NextApproval(t, a, m1), a, m2), a, m3)
  {
    var e1, e2, e3 := [Approval(a, m1)], [Approval(a, m2)], [Approval(a, m3)];
    OneEventRun(t, Approval(a, m1));
    OneEventRun(NextApproval(t, a, m1), Approval(a, m2));
    OneEventRun(NextApproval(NextApproval(t, a, m1), a, m2), Approval(a, m3));
    RunAppend(t, e1, e2);
    RunAppend(t, e1 + e2, e3);
    assert e1 + e2 + e3 == [Approval(a, m1), Approval(a, m2), Approval(a, m3)];
  }

  lemma MoveIsMirrored(s: State, t: State, a: AttemptId, m: Move)
    requires Sim(s, t) && CanMove(s, a, m) && AttemptOk(s, a) && StoreOk(t)
    ensures Run(t, MirrorMove(s, t, a, m)) && Sim(NextApproval(s, a, m), Final(t, MirrorMove(s, t, a, m)))
  {
    var mirror := MirrorMove(s, t, a, m);
    if RewonByCreate(s, t, a, m) {
      CreateIsReclaim(s, t, a, m.fault, m.stamp);
      ThreeMovesRun(t, a, CreateClaim(NoFault, m.stamp), FetchClaim(true), Reclaim(m.fault, m.stamp));
    } else {
      var n := mirror[0].move;
      assert mirror == [Approval(a, n)];
      SameMove(s, t, a, m, n);
      OneEventRun(t, Approval(a, n));
    }
  }

  lemma EventIsRepeated(s: State, t: State, e: Event)
    requires Sim(s, t) && ClaimInv(t) && Enabled(s, e) && Timely(s, e) && OperatorIsTruthful(s, e)
    requires !e.Approval? && !OfCompactor(e)
    ensures Run(t, [e]) && Sim(Next(s, e), Final(t, [e]))
  {
    SameEvent(s, t, e);
    SameEnvironment(s, t, e);
    OneEventRun(t, e);
  }

  lemma MirrorHasNoCompactor(s: State, t: State, e: Event)
    ensures WithoutCompactor(Mirror(s, t, e))
  {}

  lemma EventIsMirrored(s: State, t: State, e: Event)
    requires Sim(s, t) && CondemnedOk(s) && (e.Approval? && e.a in s.attempts ==> AttemptOk(s, e.a)) && StoreOk(t)
    requires ClaimInv(t)
    requires Enabled(s, e) && Timely(s, e) && OperatorIsTruthful(s, e)
    ensures Run(t, Mirror(s, t, e)) && Sim(Next(s, e), Final(t, Mirror(s, t, e)))
  {
    if OfCompactor(e) {
      CompactorIsInvisible(s, t, e);
    } else if e.Approval? {
      MoveIsMirrored(s, t, e.a, e.move);
    } else {
      EventIsRepeated(s, t, e);
    }
  }

  /** The simulation, over whole runs. */
  lemma {:induction false} RunIsMirrored(s: State, t: State, events: seq<Event>) returns (mirror: seq<Event>)
    requires Sim(s, t) && ClaimInv(s) && ClaimInv(t) && Run(s, events)
    ensures Run(t, mirror) && Sim(Final(s, events), Final(t, mirror))
    ensures WithoutCompactor(mirror)
    decreases |events|
  {
    if events == [] {
      mirror := [];
    } else {
      var first := Mirror(s, t, events[0]);
      EventIsMirrored(s, t, events[0]);
      MirrorHasNoCompactor(s, t, events[0]);
      StepOk(s, events[0]);
      RunOk(t, first);
      var rest := RunIsMirrored(Next(s, events[0]), Final(t, first), events[1..]);
      RunAppend(t, first, rest);
      mirror := first + rest;
    }
  }

  /** For every run with the compactor there is one without it that leaves the same attempts,
      network, broker, routers, record and history, and every document the other still has. */
  lemma CompactorChangesNothing(timing: Timing, now: int, events: seq<Event>)
    requires Run(Init(timing, now), events)
    ensures exists mirror ::
      && WithoutCompactor(mirror)
      && Run(Init(timing, now), mirror)
      && Sim(Final(Init(timing, now), events), Final(Init(timing, now), mirror))
  {
    InitOk(timing, now);
    var mirror := RunIsMirrored(Init(timing, now), Init(timing, now), events);
  }
}
