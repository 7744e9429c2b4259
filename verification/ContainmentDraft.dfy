/** What a human-approved attempt executes is what was drafted under its id. */
module ContainmentDraft {
  import opened Types
  import opened DedupKey
  import opened DocumentStore
  import opened Containment
  import opened ContainmentClaims
  import opened ContainmentRecord
  import opened ContainmentReplay

  /** `alerts` are the payloads that may come in. None of them can take over the id of another with a
      usable address of its own and a different target. */
  ghost predicate Unclashing(alerts: iset<Payload>) {
    forall p, q, b, c | TakesOver(alerts, p, b, q, c) :: SameTarget(p, q)
  }

  ghost predicate TakesOver(alerts: iset<Payload>, p: Payload, b: string, q: Payload, c: string) {
    p in alerts && q in alerts && BarFree(b) && BarFree(c) && p.ipParses && KeyOf(p, b) == KeyOf(q, c)
  }

  /** It suffices that no two of them with different targets can share an id at all. */
  lemma UnclashingIfNoneShareAnId(alerts: iset<Payload>)
    requires forall p, q | p in alerts && q in alerts && MayShareAnId(p, q) :: SameTarget(p, q)
    ensures Unclashing(alerts)
  {
    forall p, q, b, c | TakesOver(alerts, p, b, q, c) ensures SameTarget(p, q) {
      SameIdMayShare(p, b, q, c);
    }
  }

  /** In particular, that no address holds a bar. */
  lemma UnclashingIfBarFree(alerts: iset<Payload>)
    requires forall p | p in alerts :: BarFree(TargetIp(p))
    ensures Unclashing(alerts)
  {
    forall p, q, b, c | TakesOver(alerts, p, b, q, c) ensures SameTarget(p, q) {
      SameIdSameTarget(p, b, q, c);
    }
  }

  // ---- what every run keeps ----

  /** This payload may have come in and is filed under this id. */
  ghost predicate Filed(alerts: iset<Payload>, p: Payload, k: Key) {
    p in alerts && exists bucket :: BarFree(bucket) && KeyOf(p, bucket) == k
  }

  lemma FiledAgree(alerts: iset<Payload>, p: Payload, q: Payload, k: Key)
    requires Unclashing(alerts) && Filed(alerts, p, k) && Filed(alerts, q, k) && p.ipParses
    ensures SameTarget(p, q)
  {
    var b :| BarFree(b) && KeyOf(p, b) == k;
    var c :| BarFree(c) && KeyOf(q, c) == k;
    assert TakesOver(alerts, p, b, q, c);
  }

  /** A draft row of this alert, with exactly these targets, is in the record. */
  predicate DraftedAs(log: seq<Entry>, k: Key, tenant: string, ip: string, mac: string) {
    DraftRow(k, tenant, ip, mac) in log
  }

  /** The alert was drafted, with the targets of everything filed under its id. */
  ghost predicate DraftedFor(alerts: iset<Payload>, log: seq<Entry>, k: Key) {
    exists q :: Filed(alerts, q, k) && DraftedAs(log, k, SafeTenant(q), TargetIp(q), TargetMac(q))
  }

  function ContextOf(pc: Pc): Option<Payload> {
    if pc.Isolating? || pc.AwaitingReply? || pc.WritingPhase? then Some(pc.context) else None
  }

  ghost predicate CheckpointsOk(alerts: iset<Payload>, v: View, log: seq<Entry>) {
    forall k | Checkpoint(k) in v.docs ::
      && (v.docs[Checkpoint(k)].context.Some? ==> Filed(alerts, v.docs[Checkpoint(k)].context.value, k))
      && (v.docs[Checkpoint(k)].phase == PendingApproval ==> DraftedFor(alerts, log, k))
  }

  ghost predicate AttemptsDrafted(alerts: iset<Payload>, s: State) {
    forall a | a in s.attempts :: var k, pc := s.attempts[a].key, s.attempts[a].pc;
      && (ContextOf(pc).Some? ==> Filed(alerts, ContextOf(pc).value, k))
      && (!pc.CheckingPhase? && !pc.Stopped? ==> DraftedFor(alerts, s.log, k))
  }

  ghost predicate IntakesOk(alerts: iset<Payload>, s: State) {
    forall i | i in s.intakes :: var n := s.intakes[i];
      Filed(alerts, n.payload, n.key) && (n.stage == Drafted ==> DraftedFor(alerts, s.log, n.key))
  }

  /** The request an attempt sent names the targets of a draft row of its own alert. */
  predicate RequestDrafted(s: State, a: AttemptId)
    requires a in s.requests
  {
    a in s.attempts && DraftedAs(s.log, s.attempts[a].key, s.requests[a].tenant, s.requests[a].ip, s.requests[a].mac)
  }

  ghost predicate DraftOk(alerts: iset<Payload>, s: State) {
    && CheckpointsOk(alerts, s.store, s.log) && AttemptsDrafted(alerts, s) && IntakesOk(alerts, s)
    && forall a | a in s.requests :: RequestDrafted(s, a)
  }

  lemma LogKeepsDrafts(alerts: iset<Payload>, log: seq<Entry>, more: seq<Entry>, k: Key)
    requires DraftedFor(alerts, log, k)
    ensures DraftedFor(alerts, log + more, k)
  {
    var q :| Filed(alerts, q, k) && DraftedAs(log, k, SafeTenant(q), TargetIp(q), TargetMac(q));
    assert DraftedAs(log + more, k, SafeTenant(q), TargetIp(q), TargetMac(q));
  }

  /** The store effect of a move, on checkpoint documents only. */
  lemma MoveKeepsCheckpoints(alerts: iset<Payload>, s: State, a: AttemptId, m: Move)
    requires DraftOk(alerts, s) && CanMove(s, a, m)
    ensures CheckpointsOk(alerts, Effect(s, a, m).store, s.log)
  {}

  lemma MoveKeepsContext(alerts: iset<Payload>, s: State, a: AttemptId, m: Move)
    requires DraftOk(alerts, s) && CanMove(s, a, m)
    ensures var k, next := s.attempts[a].key, NextPc(s, a, m);
      && (ContextOf(next).Some? ==> Filed(alerts, ContextOf(next).value, k))
      && (!next.CheckingPhase? && !next.Stopped? ==> DraftedFor(alerts, s.log, k))
  {}

  lemma SentIsDrafted(alerts: iset<Payload>, s: State, a: AttemptId, m: Move)
    requires Unclashing(alerts) && DraftOk(alerts, s) && CanMove(s, a, m) && m.Isolate?
    ensures var r := Effect(s, a, m).requests;
      || r == s.requests
      || (&& r.Keys == s.requests.Keys + {a} && (forall b | b in s.requests && b != a :: r[b] == s.requests[b])
          && DraftedAs(s.log, s.attempts[a].key, r[a].tenant, r[a].ip, r[a].mac))
  {
    var k, p := s.attempts[a].key, s.attempts[a].pc.context;
    assert ContextOf(s.attempts[a].pc) == Some(p);
    var q :| Filed(alerts, q, k) && DraftedAs(s.log, k, SafeTenant(q), TargetIp(q), TargetMac(q));
    if !NothingSent(p, m.refused) { FiledAgree(alerts, p, q, k); }
  }

  lemma MoveKeepsDrafts(alerts: iset<Payload>, s: State, a: AttemptId, m: Move)
    requires Unclashing(alerts) && DraftOk(alerts, s) && CanMove(s, a, m)
    ensures DraftOk(alerts, NextApproval(s, a, m))
  {
    var t, u := NextApproval(s, a, m), Effect(s, a, m);
    MoveKeepsCheckpoints(alerts, s, a, m);
    MoveKeepsContext(alerts, s, a, m);
    EffectIsLocal(s, a, m);
    MoveWrites(s, a, m);
    if m.Isolate? { SentIsDrafted(alerts, s, a, m); }
    DraftsCarryOver(alerts, s, t, u, a, NextPc(s, a, m), Written(s, a, m));
  }

  lemma DraftsCarryOver(alerts: iset<Payload>, s: State, t: State, u: State, a: AttemptId, pc: Pc, more: seq<Entry>)
    requires DraftOk(alerts, s) && a in s.attempts && u.attempts == s.attempts && t == Goto(u, a, pc)
    requires u.log == s.log + more && u.intakes == s.intakes
    requires CheckpointsOk(alerts, u.store, s.log)
    requires ContextOf(pc).Some? ==> Filed(alerts, ContextOf(pc).value, s.attempts[a].key)
    requires !pc.CheckingPhase? && !pc.Stopped? ==> DraftedFor(alerts, s.log, s.attempts[a].key)
    requires forall b | b in u.requests :: RequestDrafted(s.(requests := u.requests), b)
    ensures DraftOk(alerts, t)
  {
    forall k | DraftedFor(alerts, s.log, k) ensures DraftedFor(alerts, t.log, k) {
      LogKeepsDrafts(alerts, s.log, more, k);
    }
  }

  // ---- the other events ----

  /** Only these alerts come in. */
  ghost predicate TakesIn(events: seq<Event>, alerts: iset<Payload>) {
    forall i | 0 <= i < |events| && events[i].StartIntake? :: events[i].payload in alerts
  }

  lemma StartKeepsDrafts(alerts: iset<Payload>, s: State, i: nat, p: Payload, bucket: string, fault: Fault, stamp: int)
    requires DraftOk(alerts, s) && BarFree(bucket) && p in alerts && i !in s.intakes
    ensures DraftOk(alerts, NextStartIntake(s, i, p, bucket, fault, stamp))
  {
    assert Filed(alerts, p, KeyOf(p, bucket));
  }

  lemma DraftKeepsDrafts(alerts: iset<Payload>, s: State, i: nat)
    requires DraftOk(alerts, s) && i in s.intakes
    ensures DraftOk(alerts, NextDraftIntake(s, i))
  {
    var n, t := s.intakes[i], NextDraftIntake(s, i);
    var row := DraftRow(n.key, SafeTenant(n.payload), TargetIp(n.payload), TargetMac(n.payload));
    forall k | DraftedFor(alerts, s.log, k) ensures DraftedFor(alerts, t.log, k) {
      LogKeepsDrafts(alerts, s.log, [row], k);
    }
    assert DraftedAs(t.log, n.key, SafeTenant(n.payload), TargetIp(n.payload), TargetMac(n.payload));
    assert DraftedFor(alerts, t.log, n.key);
  }

  lemma FinishKeepsDrafts(alerts: iset<Payload>, s: State, i: nat, phase: Phase, fault: Fault, stamp: int)
    requires DraftOk(alerts, s) && Enabled(s, FinishIntake(i, phase, fault, stamp))
    ensures DraftOk(alerts, NextFinishIntake(s, i, phase, fault, stamp))
  {}

  /** No checkpoint appears or changes. */
  ghost predicate CheckpointsOnlyGo(v: View, w: View) {
    forall k | Checkpoint(k) in w.docs :: Checkpoint(k) in v.docs && w.docs[Checkpoint(k)] == v.docs[Checkpoint(k)]
  }

  lemma RestIsUnrelated(s: State, e: Event)
    requires Enabled(s, e)
    requires OfBroker(e) || e.OperatorDecides? || e.OperatorWrites? || e.CompactorScans? || e.CompactorDeletes?
    ensures var t := Next(s, e);
      && t.attempts == s.attempts && t.intakes == s.intakes && t.requests == s.requests && t.log == s.log
      && CheckpointsOnlyGo(s.store, t.store)
  {}

  lemma UnrelatedKeepsDrafts(alerts: iset<Payload>, s: State, t: State)
    requires DraftOk(alerts, s) && CheckpointsOnlyGo(s.store, t.store)
    requires t.attempts == s.attempts && t.intakes == s.intakes && t.requests == s.requests && t.log == s.log
    ensures DraftOk(alerts, t)
  {}

  /** Starts, operator, compactor and broker events touch no checkpoint but to delete it. */
  lemma RestKeepsDrafts(alerts: iset<Payload>, s: State, e: Event)
    requires DraftOk(alerts, s) && Enabled(s, e) && !e.Approval? && !e.StartIntake? && !e.DraftIntake?
    requires !e.FinishIntake?
    ensures DraftOk(alerts, Next(s, e))
  {
    if e.StartApproval? {
      assert Next(s, e) == s.(attempts := s.attempts[e.a := Attempt(e.key, CheckingPhase)]);
    } else {
      RestIsUnrelated(s, e);
      UnrelatedKeepsDrafts(alerts, s, Next(s, e));
    }
  }

  lemma EventKeepsDrafts(alerts: iset<Payload>, s: State, e: Event)
    requires DraftOk(alerts, s) && Enabled(s, e) && (e.StartIntake? ==> e.payload in alerts) && !e.Approval?
    ensures DraftOk(alerts, Next(s, e))
  {
    match e
    case StartIntake(i, p, bucket, fault, stamp) => StartKeepsDrafts(alerts, s, i, p, bucket, fault, stamp);
    case DraftIntake(i) => DraftKeepsDrafts(alerts, s, i);
    case FinishIntake(i, phase, fault, stamp) => FinishKeepsDrafts(alerts, s, i, phase, fault, stamp);
    case _ => RestKeepsDrafts(alerts, s, e);
  }

  lemma {:induction false} RunKeepsDrafts(alerts: iset<Payload>, s: State, events: seq<Event>)
    requires Unclashing(alerts) && DraftOk(alerts, s) && Run(s, events) && TakesIn(events, alerts)
    ensures DraftOk(alerts, Final(s, events))
    decreases |events|
  {
    if events != [] {
      if events[0].Approval? { MoveKeepsDrafts(alerts, s, events[0].a, events[0].move); }
      else { EventKeepsDrafts(alerts, s, events[0]); }
      RunKeepsDrafts(alerts, Next(s, events[0]), events[1..]);
    }
  }

  /** Each request a human-approved attempt has sent names the tenant, address and MAC of a draft row
      recorded earlier under the same id. */
  ghost predicate AllDrafted(s: State) { forall a | a in s.requests :: RequestDrafted(s, a) }

  lemma ExecutedIsDrafted(alerts: iset<Payload>, timing: Timing, now: int, events: seq<Event>)
    requires Unclashing(alerts) && Run(Init(timing, now), events) && TakesIn(events, alerts)
    ensures AllDrafted(Final(Init(timing, now), events))
  {
    RunKeepsDrafts(alerts, Init(timing, now), events);
  }

  // ---- and when it does not ----

  ghost predicate Leads(alerts: iset<Payload>, s: State, t: State) {
    exists events :: Run(s, events) && TakesIn(events, alerts) && Final(s, events) == t
  }

  lemma LeadsTrans(alerts: iset<Payload>, s: State, t: State, u: State)
    requires Leads(alerts, s, t) && Leads(alerts, t, u)
    ensures Leads(alerts, s, u)
  {
    var xs :| Run(s, xs) && TakesIn(xs, alerts) && Final(s, xs) == t;
    var ys :| Run(t, ys) && TakesIn(ys, alerts) && Final(t, ys) == u;
    RunAppend(s, xs, ys);
    assert TakesIn(xs + ys, alerts);
  }

  lemma StepLeads(alerts: iset<Payload>, s: State, e: Event)
    requires Enabled(s, e) && Timely(s, e) && OperatorIsTruthful(s, e) && (e.StartIntake? ==> e.payload in alerts)
    ensures Leads(alerts, s, Next(s, e))
  {
    assert Run(Next(s, e), []) && [e][1..] == [];
    assert Run(s, [e]) && TakesIn([e], alerts) && Final(s, [e]) == Next(s, e);
  }

  /** One alert is drafted, another with the same id comes in while its approval is under way, and the
      approval executes the other. */
  lemma ClashingAlertIsExecuted(alerts: iset<Payload>, timing: Timing, now: int, p: Payload, q: Payload, b: string,
                                c: string)
    returns (t: State)
    requires TakesOver(alerts, p, b, q, c) && !SameTarget(p, q)
    ensures Leads(alerts, Init(timing, now), t) && !AllDrafted(t)
  {
    var s := Init(timing, now);
    var u := DraftIsApproved(alerts, s, q, c);
    var w := OtherTakesOver(alerts, u, p, b);
    LeadsTrans(alerts, s, u, w);
    t := HolderSendsOther(alerts, w, KeyOf(q, c), p, q);
    LeadsTrans(alerts, s, w, t);
  }

  /** The other alert's intake overwrites the checkpoint before the approval loads its context. */
  lemma OtherTakesOver(alerts: iset<Payload>, u: State, p: Payload, b: string) returns (w: State)
    requires p in alerts && BarFree(b) && 1 !in u.intakes
    requires u.attempts == map[0 := Attempt(KeyOf(p, b), LoadingContext)]
    ensures Leads(alerts, u, w) && w.attempts == map[0 := Attempt(KeyOf(p, b), Isolating(p))]
    ensures w.requests == u.requests && w.log == u.log
  {
    var v := NextStartIntake(u, 1, p, b, NoFault, 0);
    StepLeads(alerts, u, StartIntake(1, p, b, NoFault, 0));
    w := ContextIsLoaded(alerts, v, KeyOf(p, b), p);
    LeadsTrans(alerts, u, v, w);
  }

  lemma ContextIsLoaded(alerts: iset<Payload>, v: State, k: Key, p: Payload) returns (w: State)
    requires v.attempts == map[0 := Attempt(k, LoadingContext)] && ContextLoads(v, k)
    requires v.store.docs[Checkpoint(k)].context == Some(p)
    ensures Leads(alerts, v, w) && w.attempts == map[0 := Attempt(k, Isolating(p))]
    ensures w.requests == v.requests && w.log == v.log
  {
    w := NextApproval(v, 0, LoadContext(true));
    assert w.attempts == map[0 := Attempt(k, Isolating(p))];
    StepLeads(alerts, v, Approval(0, LoadContext(true)));
  }

  lemma HolderSendsOther(alerts: iset<Payload>, w: State, k: Key, p: Payload, q: Payload) returns (t: State)
    requires w.attempts == map[0 := Attempt(k, Isolating(p))] && w.requests == map[]
    requires w.log == [DraftRow(k, SafeTenant(q), TargetIp(q), TargetMac(q)), ClaimedRow(k, 0)]
    requires p.ipParses && !SameTarget(p, q)
    ensures Leads(alerts, w, t) && !AllDrafted(t)
  {
    t := NextApproval(w, 0, Isolate(false, 0));
    StepLeads(alerts, w, Approval(0, Isolate(false, 0)));
    assert 0 in t.requests && t.requests[0] == RequestOf(p, 0);
  }

  /** From nothing to an approval that holds the claim, with one draft row in the record. */
  lemma DraftIsApproved(alerts: iset<Payload>, s: State, q: Payload, c: string) returns (u: State)
    requires s == Init(s.broker.timing, s.broker.now) && q in alerts && BarFree(c)
    ensures var k := KeyOf(q, c);
      && Leads(alerts, s, u)
      && u.attempts == map[0 := Attempt(k, LoadingContext)]
      && 1 !in u.intakes && u.requests == map[]
      && u.log == [DraftRow(k, SafeTenant(q), TargetIp(q), TargetMac(q)), ClaimedRow(k, 0)]
  {
    var d := AlertIsWaiting(alerts, s, q, c);
    u := WaitingIsClaimed(alerts, d, KeyOf(q, c));
    LeadsTrans(alerts, s, d, u);
  }

  lemma AlertIsWaiting(alerts: iset<Payload>, s: State, q: Payload, c: string) returns (d: State)
    requires s == Init(s.broker.timing, s.broker.now) && q in alerts && BarFree(c)
    ensures var k := KeyOf(q, c);
      && Leads(alerts, s, d) && 1 !in d.intakes && d.attempts == map[] && d.requests == map[]
      && Has(d.store, Checkpoint(k), PendingApproval) && Claim(k) !in d.store.docs
      && d.log == [DraftRow(k, SafeTenant(q), TargetIp(q), TargetMac(q))]
  {
    var x := NextStartIntake(s, 0, q, c, NoFault, 0);
    StepLeads(alerts, s, StartIntake(0, q, c, NoFault, 0));
    var y := NextDraftIntake(x, 0);
    StepLeads(alerts, x, DraftIntake(0));
    LeadsTrans(alerts, s, x, y);
    d := NextFinishIntake(y, 0, PendingApproval, NoFault, 0);
    StepLeads(alerts, y, FinishIntake(0, PendingApproval, NoFault, 0));
    LeadsTrans(alerts, s, y, d);
  }

  lemma WaitingIsRaced(alerts: iset<Payload>, d: State, k: Key) returns (u: State)
    requires d.attempts == map[] && Has(d.store, Checkpoint(k), PendingApproval)
    ensures Leads(alerts, d, u) && u == d.(attempts := map[0 := Attempt(k, Creating)])
  {
    var x := Next(d, StartApproval(0, k));
    StepLeads(alerts, d, StartApproval(0, k));
    u := NextApproval(x, 0, CheckPhase(true));
    StepLeads(alerts, x, Approval(0, CheckPhase(true)));
    LeadsTrans(alerts, d, x, u);
  }

  lemma WaitingIsClaimed(alerts: iset<Payload>, d: State, k: Key) returns (u: State)
    requires d.attempts == map[] && Has(d.store, Checkpoint(k), PendingApproval) && Claim(k) !in d.store.docs
    ensures Leads(alerts, d, u) && u.intakes == d.intakes && u.requests == d.requests
    ensures u.attempts == map[0 := Attempt(k, LoadingContext)] && u.log == d.log + [ClaimedRow(k, 0)]
  {
    var y := WaitingIsRaced(alerts, d, k);
    u := RaceIsRecorded(alerts, y, k);
    LeadsTrans(alerts, d, y, u);
  }

  lemma RaceIsRecorded(alerts: iset<Payload>, y: State, k: Key) returns (u: State)
    requires y.attempts == map[0 := Attempt(k, Creating)] && Claim(k) !in y.store.docs
    ensures Leads(alerts, y, u) && u.intakes == y.intakes && u.requests == y.requests
    ensures u.attempts == map[0 := Attempt(k, LoadingContext)] && u.log == y.log + [ClaimedRow(k, 0)]
  {
    var z := NextApproval(y, 0, CreateClaim(NoFault, 0));
    StepLeads(alerts, y, Approval(0, CreateClaim(NoFault, 0)));
    assert z.attempts == map[0 := Attempt(k, AppendingClaimed)] && z.log == y.log;
    u := WinIsRecorded(alerts, z, k);
    LeadsTrans(alerts, y, z, u);
  }

  lemma WinIsRecorded(alerts: iset<Payload>, z: State, k: Key) returns (u: State)
    requires z.attempts == map[0 := Attempt(k, AppendingClaimed)]
    ensures Leads(alerts, z, u)
    ensures u == z.(attempts := map[0 := Attempt(k, LoadingContext)], log := z.log + [ClaimedRow(k, 0)])
  {
    u := NextApproval(z, 0, AppendClaimed(true));
    StepLeads(alerts, z, Approval(0, AppendClaimed(true)));
  }

  /** In every run that takes in only these alerts, what is executed was drafted. */
  ghost predicate AlwaysDrafted(alerts: iset<Payload>, timing: Timing) {
    forall now: int, events: seq<Event> | Run(Init(timing, now), events) && TakesIn(events, alerts) ::
      AllDrafted(Final(Init(timing, now), events))
  }

  /** What is executed was drafted, in every run and whatever the timing, exactly when no two of the
      alerts that come in clash. */
  lemma ExecutedIsDraftedIff(alerts: iset<Payload>, timing: Timing)
    ensures AlwaysDrafted(alerts, timing) <==> Unclashing(alerts)
  {
    if Unclashing(alerts) {
      forall now: int, events: seq<Event> | Run(Init(timing, now), events) && TakesIn(events, alerts)
        ensures AllDrafted(Final(Init(timing, now), events))
      {
        ExecutedIsDrafted(alerts, timing, now, events);
      }
    } else {
      var p, q, b, c :| TakesOver(alerts, p, b, q, c) && !SameTarget(p, q);
      var t := ClashingAlertIsExecuted(alerts, timing, 0, p, q, b, c);
      var events :| Run(Init(timing, 0), events) && TakesIn(events, alerts) && Final(Init(timing, 0), events) == t;
    }
  }
}
