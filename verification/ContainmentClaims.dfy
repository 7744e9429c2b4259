/** What every event of the containment machine keeps of the claims, the network and the broker,
    whatever the clocks do. */
module ContainmentClaims {
  import opened Types
  import opened DocumentStore
  import opened RouterOutcomes
  import opened BrokerRpc
  import opened Containment

  predicate Racing(pc: Pc) { pc.CheckingPhase? || pc.Creating? || pc.Fetching? || pc.Reclaiming? }

  predicate Holding(pc: Pc) { !Racing(pc) && !pc.Stopped? }

  predicate HasVerdict(pc: Pc, v: Verdict) {
    (pc.WritingPhase? || pc.AppendingOutcome? || pc.Settling?) && pc.verdict == v
  }

  predicate IsHolder(s: State, k: Key, a: AttemptId) { Wins(s, k) != [] && Wins(s, k)[|Wins(s, k)| - 1] == a }

  /** The claim document forbids any new winner. */
  predicate Standing(s: State, k: Key) { Has(s.store, Claim(k), Claimed) || Has(s.store, Claim(k), Resolved) }

  // ---- the invariant ----

  ghost predicate StoreOk(s: State) {
    && (forall id | id in s.store.docs :: s.store.docs[id].seqNo < s.store.nextSeq)
    && (forall k | Claim(k) in s.store.docs :: ClaimDocOk(s, k))
  }

  predicate ClaimDocOk(s: State, k: Key)
    requires Claim(k) in s.store.docs
  {
    s.store.docs[Claim(k)].phase in {Claimed, Released, Resolved} && Wins(s, k) != []
  }

  /** The broker handled this attempt's request, if it was ever sent, and left nothing on any router. */
  ghost predicate TurnedAway(s: State, a: AttemptId) {
    || a !in s.requests
    || exists h | 0 <= h < |s.broker.handlings| ::
         s.broker.handlings[h].requestId == a && LeftNothing(s.broker.handlings[h])
  }

  ghost predicate AttemptOk(s: State, a: AttemptId)
    requires a in s.attempts
  {
    var k, pc := s.attempts[a].key, s.attempts[a].pc;
    && (Racing(pc) ==> a !in Wins(s, k))
    && (pc.Reclaiming? ==> ReadReleased(s, k, pc.seqNo))
    && (Holding(pc) ==> IsHolder(s, k, a) && Has(s.store, Claim(k), Claimed))
    && (a in s.requests ==> a in Wins(s, k) && (pc.AwaitingReply? || PastSending(pc)))
    && (pc.AwaitingReply? ==> a in s.requests)
    && (HasVerdict(pc, NotDispatched) ==> TurnedAway(s, a))
    && (HasVerdict(pc, Isolated) ==> LeftABlock(s, a))
  }

  predicate ReadReleased(s: State, k: Key, seqNo: nat) {
    seqNo < s.store.nextSeq && (Matches(s.store, Claim(k), seqNo) ==> s.store.docs[Claim(k)].phase == Released)
  }

  /** The winners of a claim are attempts on it, each once. */
  ghost predicate WinnersOk(s: State, k: Key) {
    var w := Wins(s, k);
    && (forall i, j | 0 <= i < j < |w| :: w[i] != w[j])
    && (forall i | 0 <= i < |w| :: w[i] in s.attempts && s.attempts[w[i]].key == k)
  }

  ghost predicate CondemnedOk(s: State) {
    forall c | c in s.condemned ::
      c.1 < s.store.nextSeq && (Matches(s.store, c.0, c.1) ==> s.store.docs[c.0].phase in TERMINAL_PHASES)
  }

  /** A ruling still applies only to the claim it was made on, whose holder has stopped. */
  ghost predicate RulingOk(s: State, r: Ruling) {
    && r.seqNo < s.store.nextSeq && r.outcome in {Released, Resolved}
    && (Matches(s.store, Claim(r.key), r.seqNo) ==>
          && s.store.docs[Claim(r.key)].phase == Claimed && Wins(s, r.key) != []
          && At(s, Wins(s, r.key)[|Wins(s, r.key)| - 1], Stopped))
  }

  ghost predicate BrokerOk(s: State) {
    && s.requests.Keys <= s.attempts.Keys
    && s.broker.since <= |s.broker.handlings|
    && (forall h | 0 <= h < |s.broker.handlings| :: HandlingOk(s, s.broker.handlings[h]))
    && BrokerSigned(s.broker.handlings, s.broker.responses)
  }

  predicate HandlingOk(s: State, h: Handling) { h.requestId in s.requests && SoundTasks(h) }

  ghost predicate ClaimInv(s: State) {
    && StoreOk(s)
    && (forall a | a in s.attempts :: AttemptOk(s, a))
    && (forall k :: WinnersOk(s, k))
    && CondemnedOk(s)
    && (forall r | r in s.rulings :: RulingOk(s, r))
    && BrokerOk(s)
  }

  // ---- what no event undoes ----

  ghost predicate HandlingGrows(g: Handling, h: Handling) {
    && h.requestId == g.requestId
    && (Complete(g) ==> h == g)
    && (Applied(g) ==> Applied(h))
  }

  /** What every event keeps of the attempts, the network and the broker. */
  ghost predicate Evolves(s: State, t: State) {
    && (forall a | a in s.requests :: a in t.requests && t.requests[a] == s.requests[a])
    && (forall a | a in t.requests && a !in s.requests :: a in s.attempts && !PastSending(s.attempts[a].pc))
    && |s.broker.handlings| <= |t.broker.handlings|
    && (forall h | 0 <= h < |s.broker.handlings| :: HandlingGrows(s.broker.handlings[h], t.broker.handlings[h]))
    && (forall a | a in s.attempts :: a in t.attempts && Progresses(s.attempts[a], t.attempts[a]))
  }

  predicate Progresses(x: Attempt, y: Attempt) {
    y.key == x.key && (PastSending(x.pc) ==> PastSending(y.pc)) && (x.pc.Stopped? ==> y.pc.Stopped?)
  }

  /** The claim of this key is untouched. */
  ghost predicate SameClaim(s: State, t: State, k: Key) {
    && Wins(t, k) == Wins(s, k)
    && (Claim(k) in t.store.docs <==> Claim(k) in s.store.docs)
    && (Claim(k) in s.store.docs ==> t.store.docs[Claim(k)] == s.store.docs[Claim(k)])
  }

  lemma TaskEndsGrows(g: Handling, i: nat, result: TaskResult)
    requires g.stage.Dispatching? && i < |g.stage.tasks| && g.stage.tasks[i].None?
    ensures HandlingGrows(g, g.(stage := Dispatching(g.stage.tasks[i := Some(result)])))
  {
    var h := g.(stage := Dispatching(g.stage.tasks[i := Some(result)]));
    assert !Complete(g);
    if Applied(g) {
      var j :| 0 <= j < |g.stage.tasks| && g.stage.tasks[j].Some? && g.stage.tasks[j].value.applied;
      assert h.stage.tasks[j] == g.stage.tasks[j];
    }
  }

  lemma BlocksStay(s: State, t: State, a: AttemptId)
    requires Evolves(s, t) && LeftABlock(s, a)
    ensures LeftABlock(t, a)
  {
    var h :| 0 <= h < |s.broker.handlings| && s.broker.handlings[h].requestId == a && Applied(s.broker.handlings[h]);
    assert HandlingGrows(s.broker.handlings[h], t.broker.handlings[h]);
  }

  lemma TurnedAwayStays(s: State, t: State, a: AttemptId)
    requires Evolves(s, t) && TurnedAway(s, a) && a in s.attempts && PastSending(s.attempts[a].pc)
    ensures TurnedAway(t, a)
  {
    if a in s.requests {
      var h :| 0 <= h < |s.broker.handlings|
        && s.broker.handlings[h].requestId == a && LeftNothing(s.broker.handlings[h]);
      assert HandlingGrows(s.broker.handlings[h], t.broker.handlings[h]);
    }
  }

  /** A step that leaves the broker and the network alone and moves at most attempt `a`. */
  lemma LocalStepEvolves(s: State, t: State, a: AttemptId)
    requires t.broker == s.broker && t.requests == s.requests
    requires t.attempts == s.attempts ||
      (&& a in s.attempts && a in t.attempts && t.attempts == s.attempts[a := t.attempts[a]]
       && Progresses(s.attempts[a], t.attempts[a]))
    ensures Evolves(s, t)
  {}

  lemma CheckpointPutIsQuiet(s: State, t: State, id: DocId)
    requires id.Checkpoint? && t.wins == s.wins
    requires t.store.nextSeq >= s.store.nextSeq
    requires forall d | d in t.store.docs && d != id :: d in s.store.docs && t.store.docs[d] == s.store.docs[d]
    requires forall d | d in s.store.docs && d != id :: d in t.store.docs
    requires id in t.store.docs ==>
      || s.store.nextSeq <= t.store.docs[id].seqNo < t.store.nextSeq
      || (id in s.store.docs && t.store.docs[id] == s.store.docs[id])
    ensures StoreGrows(s.store, t.store) && forall k :: SameClaim(s, t, k)
  {}

  // ---- what is left alone stays in order ----

  lemma AttemptStays(s: State, t: State, b: AttemptId)
    requires b in s.attempts && b in t.attempts && t.attempts[b] == s.attempts[b] && AttemptOk(s, b)
    requires Evolves(s, t) && StoreGrows(s.store, t.store)
    requires b in t.requests <==> b in s.requests
    requires var k, pc := s.attempts[b].key, s.attempts[b].pc;
      && (Racing(pc) ==> b !in Wins(t, k))
      && (b in Wins(s, k) ==> b in Wins(t, k))
      && (Holding(pc) ==> SameClaim(s, t, k))
    ensures AttemptOk(t, b)
  {
    if PastSending(s.attempts[b].pc) && TurnedAway(s, b) { TurnedAwayStays(s, t, b); }
    if LeftABlock(s, b) { BlocksStay(s, t, b); }
  }

  lemma WinnersStay(s: State, t: State, k: Key)
    requires WinnersOk(s, k) && Evolves(s, t) && Wins(t, k) == Wins(s, k)
    ensures WinnersOk(t, k)
  {}

  lemma RulingStays(s: State, t: State, r: Ruling)
    requires RulingOk(s, r) && Evolves(s, t) && StoreGrows(s.store, t.store)
    requires Matches(t.store, Claim(r.key), r.seqNo) ==> Wins(t, r.key) == Wins(s, r.key)
    ensures RulingOk(t, r)
  {}

  lemma BrokerStays(s: State, t: State)
    requires BrokerOk(s) && t.broker == s.broker && Evolves(s, t)
    ensures BrokerOk(t)
  {
    assert t.requests.Keys <= t.attempts.Keys by {
      forall a | a in t.requests ensures a in t.attempts { assert a in s.attempts; }
    }
  }

  /** A step that touches no claim and no pending decision, and moves at most attempt `a`. */
  lemma QuietStep(s: State, t: State, a: AttemptId)
    requires ClaimInv(s) && Evolves(s, t) && StoreGrows(s.store, t.store) && BrokerOk(t)
    requires t.condemned == s.condemned && t.rulings == s.rulings
    requires forall k :: SameClaim(s, t, k)
    requires forall b | b in t.attempts && b != a ::
      b in s.attempts && t.attempts[b] == s.attempts[b] && (b in t.requests <==> b in s.requests)
    requires a in t.attempts ==> AttemptOk(t, a)
    ensures ClaimInv(t)
  {
    forall b | b in t.attempts ensures AttemptOk(t, b) {
      if b != a {
        assert SameClaim(s, t, s.attempts[b].key);
        AttemptStays(s, t, b);
      }
    }
    forall k ensures WinnersOk(t, k) {
      assert SameClaim(s, t, k);
      WinnersStay(s, t, k);
    }
    forall r | r in t.rulings ensures RulingOk(t, r) {
      assert SameClaim(s, t, r.key);
      RulingStays(s, t, r);
    }
    forall k | Claim(k) in t.store.docs ensures ClaimDocOk(t, k) {
      assert SameClaim(s, t, k) && ClaimDocOk(s, k);
    }
  }

  /** A step of one attempt that only moves its program counter (and may write the log). */
  lemma MoveOnly(s: State, t: State, a: AttemptId, pc: Pc)
    requires ClaimInv(s) && a in s.attempts && t == Goto(s, a, pc).(log := t.log)
    requires Progresses(s.attempts[a], s.attempts[a].(pc := pc))
    requires AttemptOk(t, a)
    ensures ClaimInv(t)
  {
    LocalStepEvolves(s, t, a);
    BrokerStays(s, t);
    QuietStep(s, t, a);
  }

  lemma StartApprovalOk(s: State, a: AttemptId, k: Key)
    requires ClaimInv(s) && Enabled(s, StartApproval(a, k))
    ensures ClaimInv(Next(s, StartApproval(a, k)))
  {
    var t := s.(attempts := s.attempts[a := Attempt(k, CheckingPhase)]);
    assert WinnersOk(s, k);
    BrokerStays(s, t);
    assert a !in Wins(s, k);
    assert AttemptOk(t, a);
    QuietStep(s, t, a);
  }

  /** The moves that only read, or only write the log. */
  predicate OnlyReads(m: Move) { m.CheckPhase? || m.FetchClaim? || m.AppendClaimed? || m.LoadContext? || m.Crash? }

  lemma ReadingMoveKeepsAttempt(s: State, a: AttemptId, m: Move)
    requires CanMove(s, a, m) && OnlyReads(m) && AttemptOk(s, a) && StoreOk(s)
    ensures AttemptOk(NextApproval(s, a, m), a)
  {}

  lemma ReadingMoveOk(s: State, a: AttemptId, m: Move)
    requires ClaimInv(s) && CanMove(s, a, m) && OnlyReads(m)
    ensures ClaimInv(NextApproval(s, a, m))
  {
    ReadingMoveKeepsAttempt(s, a, m);
    MoveOnly(s, NextApproval(s, a, m), a, NextPc(s, a, m));
  }

  lemma VerdictSurvives(s: State, t: State, a: AttemptId)
    requires Evolves(s, t) && a in s.attempts && AttemptOk(s, a)
    requires s.attempts[a].pc.WritingPhase? || s.attempts[a].pc.AppendingOutcome?
    requires SameClaim(s, t, s.attempts[a].key) && t.requests == s.requests && t.store.nextSeq >= s.store.nextSeq
    requires t.attempts[a].pc.AppendingOutcome? || t.attempts[a].pc.Settling?
    requires t.attempts[a].pc.verdict == s.attempts[a].pc.verdict
    ensures AttemptOk(t, a)
  {
    if TurnedAway(s, a) { TurnedAwayStays(s, t, a); }
    if LeftABlock(s, a) { BlocksStay(s, t, a); }
  }

  lemma AppendOutcomeOk(s: State, a: AttemptId, m: Move)
    requires ClaimInv(s) && CanMove(s, a, m) && m.AppendOutcome?
    ensures ClaimInv(NextApproval(s, a, m))
  {
    var t := NextApproval(s, a, m);
    LocalStepEvolves(s, t, a);
    VerdictSurvives(s, t, a);
    MoveOnly(s, t, a, NextPc(s, a, m));
  }

  /** A confirmed answer tells the truth about this attempt's own request. */
  lemma VerdictIsTrue(s: State, a: AttemptId, reply: Option<Response>)
    requires BrokerOk(s) && a in s.requests && Deliverable(reply, s.broker.responses)
    ensures Classify(reply, a) == NotDispatched ==> TurnedAway(s, a)
    ensures Classify(reply, a) == Isolated ==> LeftABlock(s, a)
  {
    var handlings := s.broker.handlings;
    RpcAgreement(handlings, s.broker.responses, reply, a);
    if Classify(reply, a) == NotDispatched {
      var i :| 0 <= i < |handlings|
        && handlings[i].requestId == a && Complete(handlings[i]) && NoneMayHold(handlings[i]);
      assert HandlingOk(s, handlings[i]);
      NoneMayHoldMeansNotApplied(handlings[i]);
    }
    if Classify(reply, a) == Isolated {
      var i :| 0 <= i < |handlings|
        && handlings[i].requestId == a && Complete(handlings[i]) && SomeSucceeded(handlings[i]);
      assert HandlingOk(s, handlings[i]);
      SomeSucceededMeansApplied(handlings[i]);
    }
  }

  lemma ReceiveKeepsAttempt(s: State, a: AttemptId, m: Move)
    requires CanMove(s, a, m) && m.Receive? && AttemptOk(s, a) && BrokerOk(s)
    ensures AttemptOk(NextApproval(s, a, m), a)
  {
    VerdictIsTrue(s, a, m.reply);
    var t := NextApproval(s, a, m);
    if Classify(m.reply, a) == NotDispatched { assert TurnedAway(t, a); }
    if Classify(m.reply, a) == Isolated {
      var h :| 0 <= h < |s.broker.handlings| && s.broker.handlings[h].requestId == a && Applied(s.broker.handlings[h]);
      assert LeftABlock(t, a);
    }
  }

  lemma ReceiveOk(s: State, a: AttemptId, m: Move)
    requires ClaimInv(s) && CanMove(s, a, m) && m.Receive?
    ensures ClaimInv(NextApproval(s, a, m))
  {
    ReceiveKeepsAttempt(s, a, m);
    MoveOnly(s, NextApproval(s, a, m), a, NextPc(s, a, m));
  }

  lemma SendEvolves(s: State, a: AttemptId, m: Move)
    requires CanMove(s, a, m) && m.Isolate? && a !in s.requests
    ensures Evolves(s, NextApproval(s, a, m))
  {}

  lemma SendIsQuiet(s: State, a: AttemptId, m: Move)
    requires CanMove(s, a, m) && m.Isolate?
    ensures var t := NextApproval(s, a, m);
      && t == s.(attempts := t.attempts, requests := t.requests)
      && (forall k :: SameClaim(s, t, k)) && StoreGrows(s.store, t.store)
      && forall b | b in t.attempts && b != a ::
           b in s.attempts && t.attempts[b] == s.attempts[b] && (b in t.requests <==> b in s.requests)
  {}

  lemma IsolateKeepsAttempt(s: State, a: AttemptId, m: Move)
    requires CanMove(s, a, m) && m.Isolate? && AttemptOk(s, a) && BrokerOk(s)
    ensures AttemptOk(NextApproval(s, a, m), a)
  {
    assert SameClaim(s, NextApproval(s, a, m), s.attempts[a].key);
  }

  lemma IsolateOk(s: State, a: AttemptId, m: Move)
    requires ClaimInv(s) && CanMove(s, a, m) && m.Isolate?
    ensures ClaimInv(NextApproval(s, a, m))
  {
    var t := NextApproval(s, a, m);
    assert AttemptOk(s, a);
    IsolateKeepsAttempt(s, a, m);
    SendEvolves(s, a, m);
    SendIsQuiet(s, a, m);
    BrokerStays(s, t);
    QuietStep(s, t, a);
  }

  /** Any write to a checkpoint document. */
  lemma CheckpointWriteOk(s: State, t: State)
    requires ClaimInv(s) && StoreGrows(s.store, t.store)
    requires t == s.(store := t.store, intakes := t.intakes, log := t.log)
    requires forall k :: SameClaim(s, t, k)
    ensures ClaimInv(t)
  {
    LocalStepEvolves(s, t, 0);
    BrokerStays(s, t);
    forall b | b in s.attempts ensures AttemptOk(t, b) {
      assert SameClaim(s, t, s.attempts[b].key);
      AttemptStays(s, t, b);
    }
    QuietStep(s, t, 0);
  }

  lemma WritePhaseEffect(s: State, a: AttemptId, m: Move)
    requires CanMove(s, a, m) && m.WritePhase?
    ensures var u := Effect(s, a, m);
      && u == s.(store := u.store, log := u.log) && StoreGrows(s.store, u.store) && forall k :: SameClaim(s, u, k)
  {
    CheckpointPutIsQuiet(s, Effect(s, a, m), Checkpoint(s.attempts[a].key));
  }

  lemma PhaseWritten(u: State, a: AttemptId)
    requires a in u.attempts && u.attempts[a].pc.WritingPhase? && AttemptOk(u, a)
    ensures AttemptOk(Goto(u, a, AppendingOutcome(u.attempts[a].pc.verdict)), a)
  {
    var t := Goto(u, a, AppendingOutcome(u.attempts[a].pc.verdict));
    LocalStepEvolves(u, t, a);
    VerdictSurvives(u, t, a);
  }

  lemma WritePhaseOk(s: State, a: AttemptId, m: Move)
    requires ClaimInv(s) && CanMove(s, a, m) && m.WritePhase?
    ensures ClaimInv(NextApproval(s, a, m))
  {
    var u := Effect(s, a, m);
    WritePhaseEffect(s, a, m);
    CheckpointWriteOk(s, u);
    PhaseWritten(u, a);
    MoveOnly(u, NextApproval(s, a, m), a, NextPc(s, a, m));
  }

  // ---- the broker's own steps ----

  /** A broker step leaves every claim and every attempt alone. */
  lemma BrokerStep(s: State, t: State)
    requires ClaimInv(s) && t == s.(broker := t.broker) && Evolves(s, t) && BrokerOk(t)
    ensures ClaimInv(t)
  {
    forall b | b in s.attempts ensures AttemptOk(t, b) { AttemptStays(s, t, b); }
    QuietStep(s, t, 0);
  }

  lemma StillSigned(s: State, t: State)
    requires BrokerOk(s) && t.broker.responses == s.broker.responses && |s.broker.handlings| <= |t.broker.handlings|
    requires forall h | 0 <= h < |s.broker.handlings| :: HandlingGrows(s.broker.handlings[h], t.broker.handlings[h])
    ensures BrokerSigned(t.broker.handlings, t.broker.responses)
  {
    forall r | r in s.broker.responses && !(exists st :: r == Denial(st))
      ensures exists i | 0 <= i < |t.broker.handlings| ::
        Complete(t.broker.handlings[i]) && r == ReplyTo(t.broker.handlings[i])
    {
      var i :| 0 <= i < |s.broker.handlings| && Complete(s.broker.handlings[i]) && r == ReplyTo(s.broker.handlings[i]);
      assert t.broker.handlings[i] == s.broker.handlings[i];
    }
  }

  lemma AnswerKeepsBroker(s: State, t: State, r: Response)
    requires BrokerOk(s)
    requires (exists st :: r == Denial(st))
      || exists i | 0 <= i < |s.broker.handlings| ::
           Complete(s.broker.handlings[i]) && r == ReplyTo(s.broker.handlings[i])
    requires t == s.(broker := s.broker.(seen := t.broker.seen, responses := s.broker.responses + {r}))
    ensures Evolves(s, t) && BrokerOk(t)
  {}

  lemma AcceptKeepsBroker(s: State, a: AttemptId, reading: int, stage: Stage)
    requires BrokerOk(s) && Enabled(s, Accept(a, reading, stage))
    ensures var t := NextAccept(s, a, reading, stage); Evolves(s, t) && BrokerOk(t)
  {
    StillSigned(s, NextAccept(s, a, reading, stage));
  }

  lemma TaskEndsKeepsBroker(s: State, h: nat, i: nat, result: TaskResult)
    requires BrokerOk(s) && Enabled(s, RouterTaskEnds(h, i, result))
    ensures Evolves(s, NextTaskEnds(s, h, i, result)) && BrokerOk(NextTaskEnds(s, h, i, result))
  {
    assert HandlingOk(s, s.broker.handlings[h]);
    TaskEndsGrows(s.broker.handlings[h], i, result);
    StillSigned(s, NextTaskEnds(s, h, i, result));
  }

  predicate OfBroker(e: Event) { e.Tick? || e.Accept? || e.Deny? || e.BrokerRestarts? || e.RouterTaskEnds? || e.Reply? }

  lemma BrokerEventKeepsBroker(s: State, e: Event)
    requires BrokerOk(s) && Enabled(s, e) && OfBroker(e)
    ensures Next(s, e) == s.(broker := Next(s, e).broker) && Evolves(s, Next(s, e)) && BrokerOk(Next(s, e))
  {
    var t := Next(s, e);
    match e
    case Accept(a, reading, stage) => AcceptKeepsBroker(s, a, reading, stage);
    case Deny(status, _) => AnswerKeepsBroker(s, t, Denial(status));
    case RouterTaskEnds(h, i, result) => TaskEndsKeepsBroker(s, h, i, result);
    case Reply(h) => AnswerKeepsBroker(s, t, ReplyTo(s.broker.handlings[h]));
    case _ =>
  }

  lemma BrokerEventOk(s: State, e: Event)
    requires ClaimInv(s) && Enabled(s, e) && OfBroker(e)
    ensures ClaimInv(Next(s, e))
  {
    BrokerEventKeepsBroker(s, e);
    BrokerStep(s, Next(s, e));
  }

  // ---- pending decisions ----

  lemma OperatorDecidesOk(s: State, k: Key, outcome: Phase)
    requires ClaimInv(s) && Enabled(s, OperatorDecides(k, outcome))
    requires OperatorIsTruthful(s, OperatorDecides(k, outcome))
    ensures ClaimInv(NextOperatorDecides(s, k, outcome))
  {
    var r := Ruling(k, s.store.docs[Claim(k)].seqNo, outcome);
    assert ClaimDocOk(s, k);
    assert RulingOk(s, r);
    DecisionsOk(s, NextOperatorDecides(s, k, outcome));
  }

  lemma CompactorScansOk(s: State, cutoff: int)
    requires ClaimInv(s)
    ensures ClaimInv(Next(s, CompactorScans(cutoff)))
  {
    DecisionsOk(s, Next(s, CompactorScans(cutoff)));
  }

  lemma DecisionsOk(s: State, t: State)
    requires ClaimInv(s) && t == s.(condemned := t.condemned, rulings := t.rulings)
    requires CondemnedOk(t) && forall r | r in t.rulings :: RulingOk(s, r)
    ensures ClaimInv(t)
  {
    LocalStepEvolves(s, t, 0);
    BrokerStays(s, t);
    forall b | b in s.attempts ensures AttemptOk(t, b) { AttemptStays(s, t, b); }
    forall k ensures WinnersOk(t, k) { assert WinnersOk(s, k); WinnersStay(s, t, k); }
    forall r | r in t.rulings ensures RulingOk(t, r) { RulingStays(s, t, r); }
    forall k | Claim(k) in t.store.docs ensures ClaimDocOk(t, k) { assert ClaimDocOk(s, k); }
  }

  // ---- steps on one claim ----

  /** Other claims are untouched, attempts other than `a` stay put, and only `a` may have won. */
  ghost predicate TouchesOnly(s: State, t: State, k: Key, a: AttemptId) {
    && StoreGrows(s.store, t.store) && t.broker == s.broker && t.requests == s.requests
    && t.condemned == s.condemned && t.rulings == s.rulings && t.attempts.Keys == s.attempts.Keys
    && (forall b | b in s.attempts && b != a :: t.attempts[b] == s.attempts[b])
    && (forall j | j != k :: SameClaim(s, t, j))
    && (forall b | b in Wins(s, k) :: b in Wins(t, k))
    && (forall b | b in Wins(t, k) && b !in Wins(s, k) :: b == a)
    && (Claim(k) in t.store.docs ==>
          Wins(t, k) == Wins(s, k) || t.store.docs[Claim(k)].seqNo >= s.store.nextSeq)
  }

  /** A step on the claim of `k`. */
  lemma ClaimStep(s: State, t: State, k: Key, a: AttemptId)
    requires ClaimInv(s) && Evolves(s, t) && TouchesOnly(s, t, k, a)
    requires forall b | b in s.attempts && b != a && s.attempts[b].key == k :: !Holding(s.attempts[b].pc)
    requires Claim(k) in t.store.docs ==> ClaimDocOk(t, k)
    requires a in t.attempts ==> AttemptOk(t, a)
    requires WinnersOk(t, k)
    ensures ClaimInv(t)
  {
    BrokerStays(s, t);
    forall b | b in t.attempts ensures AttemptOk(t, b) {
      if b != a {
        if s.attempts[b].key != k { assert SameClaim(s, t, s.attempts[b].key); }
        AttemptStays(s, t, b);
      }
    }
    forall j ensures WinnersOk(t, j) {
      if j != k { assert SameClaim(s, t, j); WinnersStay(s, t, j); }
    }
    forall r | r in t.rulings ensures RulingOk(t, r) {
      if r.key != k { assert SameClaim(s, t, r.key); }
      RulingStays(s, t, r);
    }
    forall j | Claim(j) in t.store.docs ensures ClaimDocOk(t, j) {
      if j != k { assert SameClaim(s, t, j) && ClaimDocOk(s, j); }
    }
  }

  lemma NobodyElseHolds(s: State, k: Key, a: AttemptId)
    requires ClaimInv(s) && (Has(s.store, Claim(k), Claimed) ==> IsHolder(s, k, a))
    ensures forall b | b in s.attempts && b != a && s.attempts[b].key == k :: !Holding(s.attempts[b].pc)
  {
    forall b | b in s.attempts && b != a && s.attempts[b].key == k ensures !Holding(s.attempts[b].pc) {
      assert AttemptOk(s, b);
    }
  }

  /** A store in which the claim of `k` has just been won. */
  ghost predicate ClaimedNow(v: View, w: View, k: Key) {
    && Has(w, Claim(k), Claimed) && w.docs[Claim(k)].seqNo >= v.nextSeq && StoreGrows(v, w)
    && forall j | j != k :: SameDoc(v, w, Claim(j))
  }

  predicate SameDoc(v: View, w: View, id: DocId) {
    (id in w.docs <==> id in v.docs) && (id in w.docs ==> w.docs[id] == v.docs[id])
  }

  predicate IsWin(s: State, t: State, a: AttemptId, store: View)
    requires a in s.attempts
  {
    t == Goto(Won(s, a, store), a, AppendingClaimed) || t == Goto(Won(s, a, store), a, Stopped)
  }

  lemma WonLocally(s: State, t: State, a: AttemptId, store: View)
    requires a in s.attempts && Racing(s.attempts[a].pc) && ClaimedNow(s.store, store, s.attempts[a].key)
    requires AttemptOk(s, a)
    requires IsWin(s, t, a, store)
    ensures Evolves(s, t) && AttemptOk(t, a)
  {
    LocalStepEvolves(s, t, a);
    WinnerIsOk(s, t, a, store);
  }

  lemma WinnerIsOk(s: State, t: State, a: AttemptId, store: View)
    requires a in s.attempts && Racing(s.attempts[a].pc) && ClaimedNow(s.store, store, s.attempts[a].key)
    requires AttemptOk(s, a) && IsWin(s, t, a, store)
    ensures AttemptOk(t, a)
  {
    WonOnly(s, t, a, store);
    assert a !in t.requests;
  }

  lemma WonOnly(s: State, t: State, a: AttemptId, store: View)
    requires a in s.attempts && ClaimedNow(s.store, store, s.attempts[a].key) && IsWin(s, t, a, store)
    ensures Wins(t, s.attempts[a].key) == Wins(s, s.attempts[a].key) + [a] && t.requests == s.requests
    ensures t.broker == s.broker
    ensures forall j | j != s.attempts[a].key :: SameClaim(s, t, j)
  {
    forall j | j != s.attempts[a].key ensures SameClaim(s, t, j) { assert SameDoc(s.store, store, Claim(j)); }
  }

  /** A claim is won only when nobody holds it. */
  lemma WonOk(s: State, t: State, a: AttemptId, store: View)
    requires ClaimInv(s) && a in s.attempts && Racing(s.attempts[a].pc) && !Standing(s, s.attempts[a].key)
    requires ClaimedNow(s.store, store, s.attempts[a].key) && IsWin(s, t, a, store)
    ensures ClaimInv(t)
  {
    var k := s.attempts[a].key;
    assert AttemptOk(s, a);
    WonLocally(s, t, a, store);
    WinnerIsAdded(s, t, a, store);
    NobodyElseHolds(s, k, a);
    ClaimStep(s, t, k, a);
  }

  lemma WinnerIsAdded(s: State, t: State, a: AttemptId, store: View)
    requires a in s.attempts && WinnersOk(s, s.attempts[a].key) && a !in Wins(s, s.attempts[a].key)
    requires ClaimedNow(s.store, store, s.attempts[a].key) && IsWin(s, t, a, store)
    ensures WinnersOk(t, s.attempts[a].key) && ClaimDocOk(t, s.attempts[a].key)
    ensures TouchesOnly(s, t, s.attempts[a].key, a)
  {
    WonOnly(s, t, a, store);
  }

  /** The store a winning move leaves. */
  function WinningStore(s: State, a: AttemptId, m: Move): View
    requires CanMove(s, a, m) && (m.CreateClaim? || m.Reclaim?)
  {
    var k := s.attempts[a].key;
    if m.CreateClaim? then Create(s.store, Claim(k), Claimed, m.stamp)
    else PutIf(s.store, Claim(k), Claimed, m.stamp, s.attempts[a].pc.seqNo)
  }

  predicate WinsRace(s: State, a: AttemptId, m: Move)
    requires CanMove(s, a, m) && (m.CreateClaim? || m.Reclaim?)
  {
    var k := s.attempts[a].key;
    if m.CreateClaim? then CreateWins(s, k, m.fault) else ReclaimWins(s, k, s.attempts[a].pc.seqNo, m.fault)
  }

  /** A racing move that wins finds the claim open. */
  lemma RaceIsWon(s: State, a: AttemptId, m: Move)
    requires CanMove(s, a, m) && (m.CreateClaim? || m.Reclaim?) && WinsRace(s, a, m) && AttemptOk(s, a)
    ensures !Standing(s, s.attempts[a].key) && ClaimedNow(s.store, WinningStore(s, a, m), s.attempts[a].key)
    ensures IsWin(s, NextApproval(s, a, m), a, WinningStore(s, a, m))
  {}

  lemma RaceOk(s: State, a: AttemptId, m: Move)
    requires ClaimInv(s) && CanMove(s, a, m) && (m.CreateClaim? || m.Reclaim?)
    ensures ClaimInv(NextApproval(s, a, m))
  {
    assert AttemptOk(s, a);
    if WinsRace(s, a, m) {
      RaceIsWon(s, a, m);
      WonOk(s, NextApproval(s, a, m), a, WinningStore(s, a, m));
    } else {
      MoveOnly(s, NextApproval(s, a, m), a, NextPc(s, a, m));
    }
  }

  /** Moving the claim of `k`, after which `a` has stopped. */
  predicate IsTransition(s: State, t: State, k: Key, a: AttemptId, phase: Phase) {
    && a in s.attempts
    && t == s.(store := Update(s.store, Claim(k), phase), attempts := s.attempts[a := s.attempts[a].(pc := Stopped)],
               releases := t.releases, log := t.log)
  }

  lemma TransitionLocally(s: State, t: State, k: Key, a: AttemptId, phase: Phase)
    requires IsTransition(s, t, k, a, phase) && s.attempts[a].key == k && AttemptOk(s, a)
    requires phase in {Released, Resolved} && Standing(s, k)
    ensures Evolves(s, t) && AttemptOk(t, a) && StoreGrows(s.store, t.store)
    ensures forall j | j != k :: SameClaim(s, t, j)
  {
    LocalStepEvolves(s, t, a);
  }

  lemma TransitionOk(s: State, t: State, k: Key, a: AttemptId, phase: Phase)
    requires ClaimInv(s) && Standing(s, k) && phase in {Released, Resolved}
    requires IsTransition(s, t, k, a, phase) && s.attempts[a].key == k && IsHolder(s, k, a)
    ensures ClaimInv(t)
  {
    assert AttemptOk(s, a) && WinnersOk(s, k);
    TransitionLocally(s, t, k, a, phase);
    WinnersStay(s, t, k);
    NobodyElseHolds(s, k, a);
    ClaimStep(s, t, k, a);
  }

  lemma SettleOk(s: State, a: AttemptId, m: Move)
    requires ClaimInv(s) && CanMove(s, a, m) && m.Settle?
    ensures ClaimInv(NextApproval(s, a, m))
  {
    var k, v := s.attempts[a].key, s.attempts[a].pc.verdict;
    assert AttemptOk(s, a);
    if v == OutcomeUnknown || m.fault == Lost {
      MoveOnly(s, NextApproval(s, a, m), a, Stopped);
    } else {
      TransitionOk(s, NextApproval(s, a, m), k, a, ClaimPhaseFor(v));
    }
  }

  /** The operator's write moves the claim the ruling was made on, whose holder stays stopped. */
  lemma OperatorIsTransition(s: State, r: Ruling, fault: Fault)
    requires RulingOk(s, r) && WinnersOk(s, r.key) && fault != Lost && Matches(s.store, Claim(r.key), r.seqNo)
    ensures var holder := Wins(s, r.key)[|Wins(s, r.key)| - 1];
      IsTransition(s, NextOperatorWrites(s, r, fault), r.key, holder, r.outcome) && s.attempts[holder].key == r.key
  {
    var holder := Wins(s, r.key)[|Wins(s, r.key)| - 1];
    assert s.attempts[holder := s.attempts[holder].(pc := Stopped)] == s.attempts;
  }

  lemma OperatorWritesOk(s: State, r: Ruling, fault: Fault)
    requires ClaimInv(s) && Enabled(s, OperatorWrites(r, fault))
    ensures ClaimInv(NextOperatorWrites(s, r, fault))
  {
    assert RulingOk(s, r) && WinnersOk(s, r.key);
    if fault != Lost && Matches(s.store, Claim(r.key), r.seqNo) {
      OperatorIsTransition(s, r, fault);
      TransitionOk(s, NextOperatorWrites(s, r, fault), r.key, Wins(s, r.key)[|Wins(s, r.key)| - 1], r.outcome);
    }
  }

  /** The version check: whatever a compaction deletes is terminal at that very moment. */
  lemma CompactorDeletesOnlyTerminal(s: State, id: DocId, seqNo: nat)
    requires CondemnedOk(s) && Enabled(s, CompactorDeletes(id, seqNo))
    ensures var t := Next(s, CompactorDeletes(id, seqNo));
      forall d | d in s.store.docs && d !in t.store.docs ::
        d == id && s.store.docs[d].phase !in {Claimed, Resolved, Perceiving, PendingApproval}
  {}

  lemma DeleteReleasedOk(s: State, t: State, k: Key)
    requires ClaimInv(s) && Has(s.store, Claim(k), Released)
    requires t == s.(store := View(s.store.docs - {Claim(k)}, s.store.nextSeq))
    ensures ClaimInv(t)
  {
    assert ClaimDocOk(s, k);
    var a := Wins(s, k)[0];
    assert WinnersOk(s, k) && AttemptOk(s, a);
    LocalStepEvolves(s, t, a);
    WinnersStay(s, t, k);
    NobodyElseHolds(s, k, a);
    AttemptStays(s, t, a);
    forall j | j != k ensures SameClaim(s, t, j) {}
    ClaimStep(s, t, k, a);
  }

  lemma CompactorDeletesOk(s: State, id: DocId, seqNo: nat)
    requires ClaimInv(s) && Enabled(s, CompactorDeletes(id, seqNo))
    ensures ClaimInv(Next(s, CompactorDeletes(id, seqNo)))
  {
    var t := s.(store := DeleteIf(s.store, id, seqNo));
    if id.Checkpoint? {
      CheckpointPutIsQuiet(s, t, id);
      CheckpointWriteOk(s, t);
    } else if Matches(s.store, id, seqNo) {
      assert id == Claim(id.key) && CondemnedOk(s);
      DeleteReleasedOk(s, t, id.key);
    }
  }

  // ---- every step, every run ----

  lemma ApprovalOk(s: State, a: AttemptId, m: Move)
    requires ClaimInv(s) && CanMove(s, a, m)
    ensures ClaimInv(NextApproval(s, a, m))
  {
    match m
    case CreateClaim(_, _) => RaceOk(s, a, m);
    case Reclaim(_, _) => RaceOk(s, a, m);
    case Isolate(_, _) => IsolateOk(s, a, m);
    case Receive(_) => ReceiveOk(s, a, m);
    case WritePhase(_, _) => WritePhaseOk(s, a, m);
    case AppendOutcome(_) => AppendOutcomeOk(s, a, m);
    case Settle(_) => SettleOk(s, a, m);
    case _ => ReadingMoveOk(s, a, m);
  }

  lemma IntakeStepOk(s: State, e: Event)
    requires ClaimInv(s) && Enabled(s, e) && (e.StartIntake? || e.DraftIntake? || e.FinishIntake?)
    ensures ClaimInv(Next(s, e))
  {
    var t := Next(s, e);
    CheckpointPutIsQuiet(s, t, Checkpoint(t.intakes[e.i].key));
    CheckpointWriteOk(s, t);
  }

  /** Every event keeps the invariant, in time or not. */
  lemma StepOk(s: State, e: Event)
    requires ClaimInv(s) && Enabled(s, e) && OperatorIsTruthful(s, e)
    ensures ClaimInv(Next(s, e))
  {
    match e
    case StartApproval(a, k) => StartApprovalOk(s, a, k);
    case Approval(a, m) => ApprovalOk(s, a, m);
    case StartIntake(_, _, _, _, _) => IntakeStepOk(s, e);
    case DraftIntake(_) => IntakeStepOk(s, e);
    case FinishIntake(_, _, _, _) => IntakeStepOk(s, e);
    case OperatorDecides(k, outcome) => OperatorDecidesOk(s, k, outcome);
    case OperatorWrites(r, fault) => OperatorWritesOk(s, r, fault);
    case CompactorScans(cutoff) => CompactorScansOk(s, cutoff);
    case CompactorDeletes(id, seqNo) => CompactorDeletesOk(s, id, seqNo);
    case _ => BrokerEventOk(s, e);
  }

  // ---- every event, seen from outside ----

  lemma MoveProgresses(s: State, a: AttemptId, m: Move)
    requires CanMove(s, a, m)
    ensures Progresses(s.attempts[a], s.attempts[a].(pc := NextPc(s, a, m)))
  {}

  /** What a move never touches besides the attempt itself. */
  lemma EffectIsLocal(s: State, a: AttemptId, m: Move)
    requires CanMove(s, a, m)
    ensures var u := Effect(s, a, m);
      && u.attempts == s.attempts && u.broker == s.broker && (!m.Isolate? ==> u.requests == s.requests)
      && (u.wins == s.wins || u.wins == s.wins[s.attempts[a].key := Wins(s, s.attempts[a].key) + [a]])
  {
    if m.CreateClaim? || m.Reclaim? { RaceIsLocal(s, a, m); } else { RestIsLocal(s, a, m); }
  }

  lemma RaceIsLocal(s: State, a: AttemptId, m: Move)
    requires CanMove(s, a, m) && (m.CreateClaim? || m.Reclaim?)
    ensures var u := Effect(s, a, m);
      && u.attempts == s.attempts && u.broker == s.broker && u.requests == s.requests
      && (u.wins == s.wins || u.wins == s.wins[s.attempts[a].key := Wins(s, s.attempts[a].key) + [a]])
  {}

  lemma RestIsLocal(s: State, a: AttemptId, m: Move)
    requires CanMove(s, a, m) && !m.CreateClaim? && !m.Reclaim?
    ensures var u := Effect(s, a, m);
      u.attempts == s.attempts && u.broker == s.broker && (!m.Isolate? ==> u.requests == s.requests) && u.wins == s.wins
  {}

  lemma MoveEvolves(s: State, a: AttemptId, m: Move)
    requires CanMove(s, a, m) && AttemptOk(s, a)
    ensures Evolves(s, NextApproval(s, a, m))
  {
    if m.Isolate? {
      SendEvolves(s, a, m);
    } else {
      EffectIsLocal(s, a, m);
      MoveProgresses(s, a, m);
      LocalStepEvolves(s, NextApproval(s, a, m), a);
    }
  }

  lemma OtherEventEvolves(s: State, e: Event)
    requires BrokerOk(s) && Enabled(s, e) && !e.Approval?
    ensures Evolves(s, Next(s, e))
  {
    if OfBroker(e) { BrokerEventKeepsBroker(s, e); }
    else if !e.StartApproval? { LocalStepEvolves(s, Next(s, e), 0); }
  }

  lemma EventEvolves(s: State, e: Event)
    requires BrokerOk(s) && Enabled(s, e) && (e.Approval? ==> AttemptOk(s, e.a))
    ensures Evolves(s, Next(s, e))
  {
    if e.Approval? { MoveEvolves(s, e.a, e.move); } else { OtherEventEvolves(s, e); }
  }

  // ---- whole runs ----

  lemma {:induction false} RunOk(s: State, events: seq<Event>)
    requires ClaimInv(s) && Run(s, events)
    ensures ClaimInv(Final(s, events))
    decreases |events|
  {
    if events != [] {
      StepOk(s, events[0]);
      RunOk(Next(s, events[0]), events[1..]);
    }
  }

  lemma InitOk(timing: Timing, now: int)
    ensures ClaimInv(Init(timing, now))
  {}
}
