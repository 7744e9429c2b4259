/** When the clocks, the network and restarts keep to a tight timing, no request is handled twice, and
    at most one attempt per alert ever leaves a block on a router. */
module ContainmentGate {
  import opened Types
  import opened DocumentStore
  import opened BrokerRpc
  import opened Containment
  import opened ContainmentClaims
  import opened ContainmentHistory

  // ---- timing ----

  function Max(a: int, b: int): int { if a < b then b else a }

  /** The earliest age at which a request can be accepted for the first time. */
  function EarliestAge(t: Timing): int { Max(t.lag, -(t.window as int)) }

  /** Nothing can be accepted at all, or neither an expired cache entry nor a restart can come before
      it is too late for a second acceptance. */
  predicate Tight(t: Timing) {
    var age := EarliestAge(t);
    || age > t.window
    || ((age > t.slack || t.life < age + t.window) && (age + t.gap > t.window || t.life < age + t.gap))
  }

  // ---- the invariant ----

  /** Handled requests are spent, and no request is handled twice. */
  ghost predicate HandledOnce(s: State) {
    && (forall h | 0 <= h < |s.broker.handlings| :: Spent(s, s.broker.handlings[h].requestId))
    && (forall g, h | 0 <= g < h < |s.broker.handlings| ::
          s.broker.handlings[g].requestId != s.broker.handlings[h].requestId)
  }

  ghost predicate VoidOk(s: State, a: AttemptId)
    requires a in s.attempts
  {
    HasVerdict(s.attempts[a].pc, NotDispatched) ==> Barren(s, a)
  }

  /** Everyone who won this claim, except a holder whose claim still stands, is barren. */
  ghost predicate LosersBarren(s: State, k: Key) {
    var w := Wins(s, k);
    forall i | 0 <= i < |w| && (i < |w| - 1 || !Standing(s, k)) :: Barren(s, w[i])
  }

  /** A release that still applies is a truthful one. */
  ghost predicate ReleaseOk(s: State, r: Ruling) {
    r.outcome == Released && Matches(s.store, Claim(r.key), r.seqNo) && Wins(s, r.key) != [] ==>
      Barren(s, Wins(s, r.key)[|Wins(s, r.key)| - 1])
  }

  predicate ClockOk(b: Broker) { b.started <= b.now && (b.lastAccepted.Some? ==> b.lastAccepted.value <= b.now) }

  ghost predicate GateInv(s: State) {
    && Tight(s.broker.timing) && ClockOk(s.broker) && HandledOnce(s)
    && (forall a | a in s.attempts :: VoidOk(s, a))
    && (forall k :: LosersBarren(s, k))
    && (forall r | r in s.rulings :: ReleaseOk(s, r))
  }

  // ---- spent requests stay spent ----

  /** What a step keeps of the broker's time: spent requests stay spent, and only others are handled. */
  ghost predicate KeepsSpent(s: State, t: State) {
    && t.broker.timing == s.broker.timing && ClockOk(t.broker)
    && (forall a | a in s.requests && Spent(s, a) :: Spent(t, a))
    && (forall h | |s.broker.handlings| <= h < |t.broker.handlings| ::
          t.broker.handlings[h].requestId in s.requests && !Spent(s, t.broker.handlings[h].requestId))
  }

  /** A check with this reading may drop an entry only once it is too late for its request. */
  lemma PruneKeepsSpent(b: Broker, a: AttemptId, ts: int, reading: int, c: Broker)
    requires TooLate(b, ts) || (a in b.seen && Outlasts(b, b.seen[a], ts))
    requires reading <= b.now && c == b.(seen := c.seen)
    requires a in b.seen && b.seen[a] > reading ==> a in c.seen && c.seen[a] == b.seen[a]
    ensures TooLate(c, ts) || (a in c.seen && Outlasts(c, c.seen[a], ts))
  {}

  lemma SpentIsNotAccepted(s: State, a: AttemptId, reading: int, stage: Stage)
    requires Enabled(s, Accept(a, reading, stage)) && Timely(s, Accept(a, reading, stage))
    ensures !Spent(s, a)
  {}

  lemma AcceptKeepsSpent(s: State, a: AttemptId, reading: int, stage: Stage)
    requires ClockOk(s.broker) && Enabled(s, Accept(a, reading, stage)) && Timely(s, Accept(a, reading, stage))
    ensures KeepsSpent(s, NextAccept(s, a, reading, stage))
  {
    var t := NextAccept(s, a, reading, stage);
    SpentIsNotAccepted(s, a, reading, stage);
    forall b | b in s.requests && Spent(s, b) ensures Spent(t, b) {
      PruneKeepsSpent(s.broker, b, s.requests[b].ts, reading, s.broker.(seen := t.broker.seen));
      LaterAcceptanceKeepsSpent(s.broker.(seen := t.broker.seen), b, s.requests[b].ts);
    }
  }

  lemma LaterAcceptanceKeepsSpent(b: Broker, a: AttemptId, ts: int)
    requires TooLate(b, ts) || (a in b.seen && Outlasts(b, b.seen[a], ts))
    requires b.lastAccepted.Some? ==> b.lastAccepted.value <= b.now
    ensures var c := b.(lastAccepted := Some(b.now)); TooLate(c, ts) || (a in c.seen && Outlasts(c, c.seen[a], ts))
  {}

  lemma RestartKeepsSpent(s: State)
    requires ClockOk(s.broker) && Timely(s, BrokerRestarts)
    ensures KeepsSpent(s, NextRestart(s))
  {}

  lemma DenyKeepsSpent(s: State, status: int, check: Option<int>)
    requires ClockOk(s.broker) && Enabled(s, Deny(status, check))
    ensures KeepsSpent(s, NextDeny(s, status, check))
  {
    var t := NextDeny(s, status, check);
    if check.Some? {
      forall b | b in s.requests && Spent(s, b) ensures Spent(t, b) {
        PruneKeepsSpent(s.broker, b, s.requests[b].ts, check.value, s.broker.(seen := t.broker.seen));
      }
    }
  }

  lemma QuietBrokerKeepsSpent(s: State, e: Event)
    requires ClockOk(s.broker) && Enabled(s, e) && (e.Tick? || e.RouterTaskEnds? || e.Reply?)
    ensures KeepsSpent(s, Next(s, e))
  {}

  /** A step that leaves the broker alone. */
  lemma AgentKeepsSpent(s: State, t: State)
    requires ClockOk(s.broker) && t.broker == s.broker && Evolves(s, t)
    ensures KeepsSpent(s, t)
  {}

  lemma OtherEventsSpareBroker(s: State, e: Event)
    requires Enabled(s, e) && !OfBroker(e)
    ensures Next(s, e).broker == s.broker
  {
    if e.Approval? { EffectIsLocal(s, e.a, e.move); }
  }

  lemma BrokerEventKeepsSpent(s: State, e: Event)
    requires ClockOk(s.broker) && Enabled(s, e) && Timely(s, e) && OfBroker(e)
    ensures KeepsSpent(s, Next(s, e))
  {
    match e
    case Accept(a, reading, stage) => AcceptKeepsSpent(s, a, reading, stage);
    case Deny(status, check) => DenyKeepsSpent(s, status, check);
    case BrokerRestarts => RestartKeepsSpent(s);
    case _ => QuietBrokerKeepsSpent(s, e);
  }

  lemma EventKeepsSpent(s: State, e: Event)
    requires ClockOk(s.broker) && Enabled(s, e) && Timely(s, e) && Evolves(s, Next(s, e))
    ensures KeepsSpent(s, Next(s, e))
  {
    if OfBroker(e) {
      BrokerEventKeepsSpent(s, e);
    } else {
      OtherEventsSpareBroker(s, e);
      AgentKeepsSpent(s, Next(s, e));
    }
  }

  lemma BarrenStays(s: State, t: State, a: AttemptId)
    requires Evolves(s, t) && KeepsSpent(s, t) && Barren(s, a)
    ensures Barren(t, a)
  {
    assert a in s.attempts && Progresses(s.attempts[a], t.attempts[a]);
    forall h | 0 <= h < |t.broker.handlings| && t.broker.handlings[h].requestId == a
      ensures LeftNothing(t.broker.handlings[h])
    {
      if h < |s.broker.handlings| { assert HandlingGrows(s.broker.handlings[h], t.broker.handlings[h]); }
    }
  }

  // ---- requests are handled once ----

  /** In a tight timing the first acceptance of a request is its last. */
  lemma FirstAcceptanceSpends(s: State, a: AttemptId, reading: int, stage: Stage)
    requires Tight(s.broker.timing) && !Handled(s, a)
    requires Enabled(s, Accept(a, reading, stage)) && Timely(s, Accept(a, reading, stage))
    ensures Spent(NextAccept(s, a, reading, stage), a)
  {
    assert reading - s.requests[a].ts >= EarliestAge(s.broker.timing);
  }

  lemma AcceptHandlesOnce(s: State, a: AttemptId, reading: int, stage: Stage)
    requires Tight(s.broker.timing) && ClockOk(s.broker) && BrokerOk(s) && HandledOnce(s)
    requires Enabled(s, Accept(a, reading, stage)) && Timely(s, Accept(a, reading, stage))
    ensures HandledOnce(NextAccept(s, a, reading, stage))
  {
    SpentIsNotAccepted(s, a, reading, stage);
    AcceptKeepsSpent(s, a, reading, stage);
    FirstAcceptanceSpends(s, a, reading, stage);
    forall h | 0 <= h < |s.broker.handlings| ensures s.broker.handlings[h].requestId in s.requests {
      assert HandlingOk(s, s.broker.handlings[h]);
    }
  }

  lemma HandledOnceStays(s: State, t: State)
    requires BrokerOk(s) && HandledOnce(s) && KeepsSpent(s, t) && |t.broker.handlings| == |s.broker.handlings|
    requires forall h | 0 <= h < |s.broker.handlings| :: HandlingGrows(s.broker.handlings[h], t.broker.handlings[h])
    ensures HandledOnce(t)
  {
    forall h | 0 <= h < |t.broker.handlings| ensures Spent(t, t.broker.handlings[h].requestId) {
      assert HandlingOk(s, s.broker.handlings[h]) && HandlingGrows(s.broker.handlings[h], t.broker.handlings[h]);
    }
  }

  /** Among requests handled once, one handling that left nothing means barren. */
  lemma TurnedAwayIsBarren(s: State, a: AttemptId)
    requires BrokerOk(s) && HandledOnce(s) && TurnedAway(s, a) && a in s.attempts && PastSending(s.attempts[a].pc)
    ensures Barren(s, a)
  {
    if a in s.requests {
      var h :| 0 <= h < |s.broker.handlings|
        && s.broker.handlings[h].requestId == a && LeftNothing(s.broker.handlings[h]);
    } else {
      forall h | 0 <= h < |s.broker.handlings| ensures s.broker.handlings[h].requestId != a {
        assert HandlingOk(s, s.broker.handlings[h]);
      }
    }
  }

  // ---- the gate ----

  /** Losers stay barren unless a claim stops standing under a holder that is not. */
  lemma LosersStay(s: State, t: State, k: Key)
    requires LosersBarren(s, k) && Evolves(s, t) && KeepsSpent(s, t) && Wins(t, k) == Wins(s, k)
    requires Standing(s, k) && !Standing(t, k) && Wins(s, k) != [] ==> Barren(s, Wins(s, k)[|Wins(s, k)| - 1])
    ensures LosersBarren(t, k)
  {
    forall i | 0 <= i < |Wins(t, k)| && (i < |Wins(t, k)| - 1 || !Standing(t, k)) ensures Barren(t, Wins(t, k)[i]) {
      BarrenStays(s, t, Wins(s, k)[i]);
    }
  }

  lemma WinnerFollowsLosers(s: State, t: State, k: Key, a: AttemptId)
    requires LosersBarren(s, k) && Evolves(s, t) && KeepsSpent(s, t)
    requires Wins(t, k) == Wins(s, k) + [a] && Standing(t, k) && !Standing(s, k)
    ensures LosersBarren(t, k)
  {
    forall i | 0 <= i < |Wins(t, k)| - 1 ensures Barren(t, Wins(t, k)[i]) { BarrenStays(s, t, Wins(s, k)[i]); }
  }

  lemma RaceKeepsLosers(s: State, a: AttemptId, m: Move, k: Key)
    requires CanMove(s, a, m) && (m.CreateClaim? || m.Reclaim?) && AttemptOk(s, a) && LosersBarren(s, k)
    requires Evolves(s, NextApproval(s, a, m)) && KeepsSpent(s, NextApproval(s, a, m))
    ensures LosersBarren(NextApproval(s, a, m), k)
  {
    var t := NextApproval(s, a, m);
    if k == s.attempts[a].key && WinsRace(s, a, m) {
      RaceIsWon(s, a, m);
      WonOnly(s, t, a, WinningStore(s, a, m));
      WinnerFollowsLosers(s, t, k, a);
    } else {
      LostRaceKeepsClaim(s, a, m, k);
      LosersStay(s, t, k);
    }
  }

  lemma LostRaceKeepsClaim(s: State, a: AttemptId, m: Move, k: Key)
    requires CanMove(s, a, m) && (m.CreateClaim? || m.Reclaim?) && (k == s.attempts[a].key ==> !WinsRace(s, a, m))
    ensures SameClaim(s, NextApproval(s, a, m), k)
  {
    if k != s.attempts[a].key { OtherClaimsKept(s, a, m, k); }
  }

  lemma SettleKeepsLosers(s: State, a: AttemptId, m: Move, k: Key)
    requires CanMove(s, a, m) && m.Settle? && AttemptOk(s, a) && VoidOk(s, a) && LosersBarren(s, k)
    requires Evolves(s, NextApproval(s, a, m)) && KeepsSpent(s, NextApproval(s, a, m))
    ensures LosersBarren(NextApproval(s, a, m), k)
  {
    var t := NextApproval(s, a, m);
    if k != s.attempts[a].key { OtherClaimsKept(s, a, m, k); }
    RestIsLocal(s, a, m);
    LosersStay(s, t, k);
  }

  lemma OperatorKeepsLosers(s: State, r: Ruling, fault: Fault, k: Key)
    requires RulingOk(s, r) && ReleaseOk(s, r) && LosersBarren(s, k)
    requires Evolves(s, NextOperatorWrites(s, r, fault)) && KeepsSpent(s, NextOperatorWrites(s, r, fault))
    ensures LosersBarren(NextOperatorWrites(s, r, fault), k)
  {
    LosersStay(s, NextOperatorWrites(s, r, fault), k);
  }

  lemma DeleteKeepsLosers(s: State, id: DocId, seqNo: nat, k: Key)
    requires CondemnedOk(s) && Enabled(s, CompactorDeletes(id, seqNo)) && LosersBarren(s, k)
    requires Evolves(s, Next(s, CompactorDeletes(id, seqNo))) && KeepsSpent(s, Next(s, CompactorDeletes(id, seqNo)))
    ensures LosersBarren(Next(s, CompactorDeletes(id, seqNo)), k)
  {
    LosersStay(s, Next(s, CompactorDeletes(id, seqNo)), k);
  }

  lemma EventKeepsLosers(s: State, e: Event, k: Key)
    requires CondemnedOk(s) && Enabled(s, e) && LosersBarren(s, k)
    requires e.Approval? ==> AttemptOk(s, e.a) && VoidOk(s, e.a)
    requires e.OperatorWrites? ==> RulingOk(s, e.ruling) && ReleaseOk(s, e.ruling)
    requires Evolves(s, Next(s, e)) && KeepsSpent(s, Next(s, e))
    ensures LosersBarren(Next(s, e), k)
  {
    if !TouchesClaims(e) {
      OtherEventsKeepClaims(s, e, k);
      LosersStay(s, Next(s, e), k);
    } else if e.OperatorWrites? {
      OperatorKeepsLosers(s, e.ruling, e.fault, k);
    } else if e.CompactorDeletes? {
      DeleteKeepsLosers(s, e.id, e.seqNo, k);
    } else if e.move.Settle? {
      SettleKeepsLosers(s, e.a, e.move, k);
    } else {
      RaceKeepsLosers(s, e.a, e.move, k);
    }
  }

  // ---- verdicts and releases ----

  lemma MoveKeepsVoid(s: State, a: AttemptId, m: Move)
    requires CanMove(s, a, m) && AttemptOk(s, a) && VoidOk(s, a) && BrokerOk(s) && HandledOnce(s)
    requires Evolves(s, NextApproval(s, a, m)) && KeepsSpent(s, NextApproval(s, a, m))
    requires AttemptOk(NextApproval(s, a, m), a) && BrokerOk(NextApproval(s, a, m))
    requires HandledOnce(NextApproval(s, a, m))
    ensures VoidOk(NextApproval(s, a, m), a)
  {
    var t := NextApproval(s, a, m);
    if HasVerdict(t.attempts[a].pc, NotDispatched) { TurnedAwayIsBarren(t, a); }
  }

  lemma VoidStays(s: State, t: State, b: AttemptId)
    requires b in s.attempts && VoidOk(s, b) && Evolves(s, t) && KeepsSpent(s, t) && t.attempts[b] == s.attempts[b]
    ensures VoidOk(t, b)
  {
    if HasVerdict(s.attempts[b].pc, NotDispatched) { BarrenStays(s, t, b); }
  }

  lemma ReleaseStays(s: State, e: Event, r: Ruling)
    requires Enabled(s, e) && RulingOk(s, r) && ReleaseOk(s, r) && Evolves(s, Next(s, e)) && KeepsSpent(s, Next(s, e))
    ensures ReleaseOk(Next(s, e), r)
  {
    WinsComeWithAVersion(s, e, r.key);
    if r.outcome == Released && Matches(Next(s, e).store, Claim(r.key), r.seqNo) && Wins(s, r.key) != [] {
      BarrenStays(s, Next(s, e), Wins(s, r.key)[|Wins(s, r.key)| - 1]);
    }
  }

  // ---- every step, every run ----

  lemma EventHandlesOnce(s: State, e: Event)
    requires Tight(s.broker.timing) && ClockOk(s.broker) && BrokerOk(s) && HandledOnce(s)
    requires Enabled(s, e) && Timely(s, e) && Evolves(s, Next(s, e)) && KeepsSpent(s, Next(s, e))
    ensures HandledOnce(Next(s, e))
  {
    if e.Accept? {
      AcceptHandlesOnce(s, e.a, e.reading, e.stage);
    } else {
      if !OfBroker(e) { OtherEventsSpareBroker(s, e); }
      HandledOnceStays(s, Next(s, e));
    }
  }

  lemma OthersStayPut(s: State, e: Event, b: AttemptId)
    requires Enabled(s, e) && b in s.attempts && (e.Approval? ==> b != e.a)
    ensures b in Next(s, e).attempts && Next(s, e).attempts[b] == s.attempts[b]
  {
    if e.Approval? { EffectIsLocal(s, e.a, e.move); }
  }

  lemma OnlyStartsAreNew(s: State, e: Event, b: AttemptId)
    requires Enabled(s, e) && b !in s.attempts && b in Next(s, e).attempts
    ensures Next(s, e).attempts[b].pc.CheckingPhase?
  {
    if e.Approval? { EffectIsLocal(s, e.a, e.move); }
  }

  lemma EventKeepsVoid(s: State, e: Event)
    requires ClaimInv(s) && GateInv(s) && Enabled(s, e) && ClaimInv(Next(s, e)) && HandledOnce(Next(s, e))
    requires Evolves(s, Next(s, e)) && KeepsSpent(s, Next(s, e))
    ensures forall b | b in Next(s, e).attempts :: VoidOk(Next(s, e), b)
  {
    var t := Next(s, e);
    forall b | b in t.attempts ensures VoidOk(t, b) {
      if b !in s.attempts {
        OnlyStartsAreNew(s, e, b);
      } else if e.Approval? && b == e.a {
        MoveKeepsVoid(s, b, e.move);
      } else {
        OthersStayPut(s, e, b);
        VoidStays(s, t, b);
      }
    }
  }

  lemma RulingsAreDecided(s: State, e: Event, r: Ruling)
    requires Enabled(s, e) && OperatorIsTruthful(s, e) && r in Next(s, e).rulings && r !in s.rulings
    requires Evolves(s, Next(s, e)) && KeepsSpent(s, Next(s, e))
    ensures ReleaseOk(Next(s, e), r)
  {
    if e.Approval? {
      OnlyOperatorsRule(s, e.a, e.move);
    } else {
      assert e.OperatorDecides?;
      var k := e.key;
      if r.outcome == Released && Wins(s, k) != [] { BarrenStays(s, Next(s, e), Wins(s, k)[|Wins(s, k)| - 1]); }
    }
  }

  lemma OnlyOperatorsRule(s: State, a: AttemptId, m: Move)
    requires CanMove(s, a, m)
    ensures NextApproval(s, a, m).rulings == s.rulings
  {}

  /** Every timely event keeps the gate. */
  lemma StepKeepsGate(s: State, e: Event)
    requires ClaimInv(s) && GateInv(s) && Enabled(s, e) && Timely(s, e) && OperatorIsTruthful(s, e)
    ensures GateInv(Next(s, e))
  {
    var t := Next(s, e);
    if e.Approval? { assert AttemptOk(s, e.a) && VoidOk(s, e.a); }
    EventEvolves(s, e);
    EventKeepsSpent(s, e);
    EventHandlesOnce(s, e);
    StepOk(s, e);
    EventKeepsVoid(s, e);
    forall k ensures LosersBarren(t, k) {
      assert e.OperatorWrites? ==> RulingOk(s, e.ruling) && ReleaseOk(s, e.ruling);
      EventKeepsLosers(s, e, k);
    }
    forall r | r in t.rulings ensures ReleaseOk(t, r) {
      if r in s.rulings { ReleaseStays(s, e, r); } else { RulingsAreDecided(s, e, r); }
    }
  }

  lemma {:induction false} RunKeepsGate(s: State, events: seq<Event>)
    requires ClaimInv(s) && GateInv(s) && Run(s, events)
    ensures ClaimInv(Final(s, events)) && GateInv(Final(s, events))
    decreases |events|
  {
    if events != [] {
      StepOk(s, events[0]);
      StepKeepsGate(s, events[0]);
      RunKeepsGate(Next(s, events[0]), events[1..]);
    }
  }

  lemma GateStartsShut(timing: Timing, now: int)
    requires Tight(timing)
    ensures GateInv(Init(timing, now))
  {}

  lemma BlockerIsHolder(s: State, a: AttemptId)
    requires ClaimInv(s) && GateInv(s) && a in s.attempts && LeftABlock(s, a)
    ensures IsHolder(s, s.attempts[a].key, a) && Standing(s, s.attempts[a].key)
  {
    var k := s.attempts[a].key;
    var h :| 0 <= h < |s.broker.handlings| && s.broker.handlings[h].requestId == a && Applied(s.broker.handlings[h]);
    assert HandlingOk(s, s.broker.handlings[h]) && AttemptOk(s, a) && LosersBarren(s, k);
    var i :| 0 <= i < |Wins(s, k)| && Wins(s, k)[i] == a;
    assert !Barren(s, a);
  }

  /** In a tight timing, whatever the interleaving of approvals, intakes, crashes, broker restarts,
      store errors, lost or replayed messages, compactions and truthful operator moves, at most one
      approval attempt per alert ever leaves a block on any router. */
  lemma AtMostOneAttemptBlocks(timing: Timing, now: int, events: seq<Event>)
    requires Tight(timing) && Run(Init(timing, now), events)
    ensures AtMostOneBlocks(Final(Init(timing, now), events))
  {
    InitOk(timing, now);
    GateStartsShut(timing, now);
    RunKeepsGate(Init(timing, now), events);
    var s := Final(Init(timing, now), events);
    forall a, b | a in s.attempts && b in s.attempts && s.attempts[a].key == s.attempts[b].key && LeftABlock(s, a)
                  && LeftABlock(s, b)
      ensures a == b
    {
      BlockerIsHolder(s, a);
      BlockerIsHolder(s, b);
    }
  }
}
