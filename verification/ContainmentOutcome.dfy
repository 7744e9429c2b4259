/** What approvals do when nothing stops them: a drafted alert is claimed and sent, and what its handling
    came to is recorded, for certain and not only truthfully. */
module ContainmentOutcome {
  import opened Types
  import opened DedupKey
  import opened DocumentStore
  import opened BrokerRpc
  import opened Containment
  import opened ContainmentClaims
  import opened ContainmentHistory
  import opened ContainmentRecord
  import opened ContainmentReplay

  // ---- a reply is recorded ----

  /** Attempt `a` learns its outcome with move `m` and records it, with every call succeeding. */
  function Recording(a: AttemptId, m: Move, stamp: int): seq<Event> {
    [Approval(a, m), Approval(a, WritePhase(NoFault, stamp)), Approval(a, AppendOutcome(true)),
     Approval(a, Settle(NoFault))]
  }

  /** What it leaves: the checkpoint, the queue row, the claim, and nothing else. */
  ghost predicate Leaves(s: State, t: State, a: AttemptId, p: Payload, phase: Phase, verdict: Verdict, claim: Phase) {
    && a in s.attempts
    && var k := s.attempts[a].key;
       && Has(t.store, Checkpoint(k), phase) && t.store.docs[Checkpoint(k)].context == Some(p)
       && Has(t.store, Claim(k), claim)
       && t.store.docs - {Checkpoint(k), Claim(k)} == s.store.docs - {Checkpoint(k), Claim(k)}
       && t.log == s.log + [PhaseWrite(k, a, phase), OutcomeRow(k, a, verdict)]
                   + (if claim == Claimed then [] else [ClaimSettled(k, a, claim)])
       && t.attempts == s.attempts[a := Attempt(k, Stopped)]
       && t.wins == s.wins && t.requests == s.requests && t.broker == s.broker
  }

  lemma TwoMovesRun(s: State, a: AttemptId, m: Move, n: Move)
    requires CanMove(s, a, m) && CanMove(NextApproval(s, a, m), a, n)
    ensures Run(s, [Approval(a, m), Approval(a, n)])
    ensures Final(s, [Approval(a, m), Approval(a, n)]) == NextApproval(NextApproval(s, a, m), a, n)
  {
    var t := NextApproval(s, a, m);
    OneMoveRuns(t, a, n);
    assert [Approval(a, m), Approval(a, n)][1..] == [Approval(a, n)];
  }

  lemma OneMoveRuns(s: State, a: AttemptId, m: Move)
    requires CanMove(s, a, m)
    ensures Run(s, [Approval(a, m)]) && Final(s, [Approval(a, m)]) == NextApproval(s, a, m)
  {
    assert [Approval(a, m)][1..] == [];
  }

  /** The claim phase and checkpoint phase a verdict calls for. */
  function PhaseOf(v: Verdict): Phase { if v == Isolated then Executed else PendingApproval }

  function ClaimOf(v: Verdict): Phase {
    match v
    case Isolated => Resolved
    case NotDispatched => Released
    case OutcomeUnknown => Claimed
  }

  /** The verdict is in the checkpoint. */
  ghost predicate PhaseLeft(s: State, t: State, a: AttemptId, p: Payload, v: Verdict) {
    && a in s.attempts
    && var k := s.attempts[a].key;
       && t == s.(attempts := s.attempts[a := Attempt(k, AppendingOutcome(v))], store := t.store, log := t.log)
       && Has(t.store, Checkpoint(k), PhaseOf(v)) && t.store.docs[Checkpoint(k)].context == Some(p)
       && t.store.docs - {Checkpoint(k)} == s.store.docs - {Checkpoint(k)}
       && t.log == s.log + [PhaseWrite(k, a, PhaseOf(v))]
  }

  /** The verdict is in the queue and the claim. */
  ghost predicate ClaimLeft(s: State, t: State, a: AttemptId, v: Verdict) {
    && a in s.attempts
    && var k := s.attempts[a].key;
       && t == s.(attempts := s.attempts[a := Attempt(k, Stopped)], store := t.store, log := t.log,
                  releases := t.releases)
       && Has(t.store, Claim(k), ClaimOf(v)) && t.store.docs - {Claim(k)} == s.store.docs - {Claim(k)}
       && t.log == s.log + [OutcomeRow(k, a, v)]
                   + (if ClaimOf(v) == Claimed then [] else [ClaimSettled(k, a, ClaimOf(v))])
  }

  /** With move `m` the attempt learns verdict `v`, and nothing else happens. */
  ghost predicate Learns(s: State, a: AttemptId, m: Move, p: Payload, v: Verdict) {
    CanMove(s, a, m) && NextApproval(s, a, m) == Goto(s, a, WritingPhase(p, v))
  }

  lemma PhaseIsLeft(s: State, a: AttemptId, m: Move, p: Payload, v: Verdict, stamp: int)
    requires Learns(s, a, m, p, v)
    ensures CanMove(NextApproval(s, a, m), a, WritePhase(NoFault, stamp))
    ensures PhaseLeft(s, AfterPhase(s, a, m, stamp), a, p, v)
  {
    var k := s.attempts[a].key;
    assert AfterPhase(s, a, m, stamp).attempts == s.attempts[a := Attempt(k, AppendingOutcome(v))];
  }

  lemma ClaimIsLeft(s: State, a: AttemptId, v: Verdict)
    requires At(s, a, AppendingOutcome(v)) && Has(s.store, Claim(s.attempts[a].key), Claimed)
    ensures CanMove(NextApproval(s, a, AppendOutcome(true)), a, Settle(NoFault)) && ClaimLeft(s, AfterClaim(s, a), a, v)
  {
    assert AfterClaim(s, a).attempts == s.attempts[a := Attempt(s.attempts[a].key, Stopped)];
  }

  lemma BothAreLeft(s: State, t: State, u: State, a: AttemptId, p: Payload, v: Verdict)
    requires PhaseLeft(s, t, a, p, v) && ClaimLeft(t, u, a, v)
    ensures Leaves(s, u, a, p, PhaseOf(v), v, ClaimOf(v))
  {
    var k := s.attempts[a].key;
    forall id | id !in {Checkpoint(k), Claim(k)}
      ensures id in u.store.docs <==> id in s.store.docs
      ensures id in u.store.docs ==> u.store.docs[id] == s.store.docs[id]
    {
      assert id in u.store.docs <==> id in u.store.docs - {Claim(k)};
      assert id in t.store.docs <==> id in t.store.docs - {Checkpoint(k)};
    }
    assert Checkpoint(k) in u.store.docs - {Claim(k)} <==> Checkpoint(k) in t.store.docs - {Claim(k)};
  }

  function AfterPhase(s: State, a: AttemptId, m: Move, stamp: int): State
    requires CanMove(s, a, m) && CanMove(NextApproval(s, a, m), a, WritePhase(NoFault, stamp))
  {
    NextApproval(NextApproval(s, a, m), a, WritePhase(NoFault, stamp))
  }

  function AfterClaim(t: State, a: AttemptId): State
    requires CanMove(t, a, AppendOutcome(true)) && CanMove(NextApproval(t, a, AppendOutcome(true)), a, Settle(NoFault))
  {
    NextApproval(NextApproval(t, a, AppendOutcome(true)), a, Settle(NoFault))
  }

  lemma RecordingRuns(s: State, a: AttemptId, m: Move, stamp: int, t: State)
    requires CanMove(s, a, m) && CanMove(NextApproval(s, a, m), a, WritePhase(NoFault, stamp))
    requires t == AfterPhase(s, a, m, stamp)
    requires CanMove(t, a, AppendOutcome(true)) && CanMove(NextApproval(t, a, AppendOutcome(true)), a, Settle(NoFault))
    ensures Run(s, Recording(a, m, stamp)) && Final(s, Recording(a, m, stamp)) == AfterClaim(t, a)
  {
    var xs := [Approval(a, m), Approval(a, WritePhase(NoFault, stamp))];
    var ys := [Approval(a, AppendOutcome(true)), Approval(a, Settle(NoFault))];
    TwoMovesRun(s, a, m, WritePhase(NoFault, stamp));
    TwoMovesRun(t, a, AppendOutcome(true), Settle(NoFault));
    RunAppend(s, xs, ys);
    assert Recording(a, m, stamp) == xs + ys;
  }

  /** A verdict is carried into phase, queue row and claim. */
  lemma VerdictIsRecorded(s: State, a: AttemptId, m: Move, p: Payload, v: Verdict, stamp: int)
    requires Learns(s, a, m, p, v) && Has(s.store, Claim(s.attempts[a].key), Claimed)
    ensures Run(s, Recording(a, m, stamp))
    ensures Leaves(s, Final(s, Recording(a, m, stamp)), a, p, PhaseOf(v), v, ClaimOf(v))
  {
    PhaseIsLeft(s, a, m, p, v, stamp);
    var t := AfterPhase(s, a, m, stamp);
    ClaimStands(s, t, a, p, v);
    ClaimIsLeft(t, a, v);
    RecordingRuns(s, a, m, stamp, t);
    BothAreLeft(s, t, AfterClaim(t, a), a, p, v);
  }

  lemma ClaimStands(s: State, t: State, a: AttemptId, p: Payload, v: Verdict)
    requires PhaseLeft(s, t, a, p, v) && Has(s.store, Claim(s.attempts[a].key), Claimed)
    ensures At(t, a, AppendingOutcome(v)) && t.attempts[a].key == s.attempts[a].key
    ensures Has(t.store, Claim(s.attempts[a].key), Claimed)
  {
    var k := s.attempts[a].key;
    assert Claim(k) in s.store.docs - {Checkpoint(k)};
    assert Claim(k) in t.store.docs - {Checkpoint(k)};
  }

  /** A confirmed success is recorded: handed the answer to its own complete handling, in which a router
      succeeded, the attempt leaves the checkpoint EXECUTED, the success in the queue and the claim RESOLVED. */
  lemma SuccessIsRecorded(s: State, a: AttemptId, p: Payload, h: Handling, stamp: int)
    requires ClaimInv(s) && At(s, a, AwaitingReply(p))
    requires Complete(h) && ReplyTo(h) in s.broker.responses
    requires h.requestId == a && SomeSucceeded(h)
    ensures Run(s, Recording(a, Receive(Some(ReplyTo(h))), stamp))
    ensures Leaves(s, Final(s, Recording(a, Receive(Some(ReplyTo(h))), stamp)), a, p, Executed, Isolated, Resolved)
  {
    assert AttemptOk(s, a);
    ReplyReading(h, a);
    VerdictIsRecorded(s, a, Receive(Some(ReplyTo(h))), p, Isolated, stamp);
  }

  /** A confirmed failure puts everything back: PENDING_APPROVAL, the failure in the queue, and the claim
      RELEASED for the next approval. */
  lemma FailureIsRecorded(s: State, a: AttemptId, p: Payload, h: Handling, stamp: int)
    requires ClaimInv(s) && At(s, a, AwaitingReply(p))
    requires Complete(h) && ReplyTo(h) in s.broker.responses
    requires h.requestId == a && NoneMayHold(h)
    ensures Run(s, Recording(a, Receive(Some(ReplyTo(h))), stamp))
    ensures var t := Final(s, Recording(a, Receive(Some(ReplyTo(h))), stamp));
      Leaves(s, t, a, p, PendingApproval, NotDispatched, Released)
  {
    assert AttemptOk(s, a);
    ReplyReading(h, a);
    VerdictIsRecorded(s, a, Receive(Some(ReplyTo(h))), p, NotDispatched, stamp);
  }

  /** The reply answers a handling of this attempt that settles its outcome. */
  ghost predicate Settles(reply: Option<Response>, a: AttemptId) {
    exists h :: Complete(h) && h.requestId == a && (SomeSucceeded(h) || NoneMayHold(h)) && reply == Some(ReplyTo(h))
  }

  lemma VerdictNeedsAnAnswer(s: State, a: AttemptId, reply: Option<Response>)
    requires BrokerOk(s) && Deliverable(reply, s.broker.responses)
    ensures Classify(reply, a) != OutcomeUnknown ==> Settles(reply, a)
  {
    if Classify(reply, a) != OutcomeUnknown {
      var r, handlings := reply.value, s.broker.handlings;
      assert r in s.broker.responses && !exists n :: r == Denial(n);
      var i :| 0 <= i < |handlings| && Complete(handlings[i]) && r == ReplyTo(handlings[i]);
      ReplyReading(handlings[i], a);
    }
  }

  /** Any other reply the network may hand over, or none, leaves the claim CLAIMED: nobody retries. */
  lemma AnyOtherReplyKeepsTheClaim(s: State, a: AttemptId, p: Payload, reply: Option<Response>, stamp: int)
    requires ClaimInv(s) && At(s, a, AwaitingReply(p)) && Deliverable(reply, s.broker.responses)
    requires !Settles(reply, a)
    ensures Run(s, Recording(a, Receive(reply), stamp))
    ensures Leaves(s, Final(s, Recording(a, Receive(reply), stamp)), a, p, PendingApproval, OutcomeUnknown, Claimed)
  {
    assert AttemptOk(s, a);
    VerdictNeedsAnAnswer(s, a, reply);
    VerdictIsRecorded(s, a, Receive(reply), p, OutcomeUnknown, stamp);
  }

  /** An isolation refused before anything is sent, or for an alert without a usable address, sends nothing and
      is recorded like a confirmed failure. */
  lemma RefusalIsRecorded(s: State, a: AttemptId, p: Payload, refused: bool, ts: int, stamp: int)
    requires ClaimInv(s) && At(s, a, Isolating(p)) && (refused || !p.ipParses)
    ensures Run(s, Recording(a, Isolate(refused, ts), stamp))
    ensures var t := Final(s, Recording(a, Isolate(refused, ts), stamp));
      Leaves(s, t, a, p, PendingApproval, NotDispatched, Released)
  {
    assert AttemptOk(s, a);
    VerdictIsRecorded(s, a, Isolate(refused, ts), p, NotDispatched, stamp);
  }

  // ---- the same with everyone else moving in between ----

  /** No call of attempt `a` fails, and it does not crash. */
  ghost predicate Unhindered(events: seq<Event>, a: AttemptId) {
    forall e | e in events && e.Approval? && e.a == a ::
      e.move !in {Crash, AppendOutcome(false)} && (e.move.WritePhase? || e.move.Settle? ==> e.move.fault == NoFault)
  }

  /** How far an attempt with verdict `v` has recorded it. */
  ghost predicate RecordedSoFar(s: State, a: AttemptId, v: Verdict) {
    && a in s.attempts
    && var k, pc := s.attempts[a].key, s.attempts[a].pc;
       && (pc == WritingPhase(Context(pc), v) || pc == AppendingOutcome(v) || pc == Settling(v) || pc == Stopped)
       && (!pc.WritingPhase? ==> PhaseWrite(k, a, PhaseOf(v)) in s.log)
       && (pc.Settling? || pc.Stopped? ==> OutcomeRow(k, a, v) in s.log)
       && (pc.Stopped? && v == NotDispatched ==> ClaimSettled(k, a, Released) in s.log)
       && (pc.Stopped? && v == Isolated ==>
             ClaimSettled(k, a, Resolved) in s.log && Has(s.store, Claim(k), Resolved) && Wins(s, k) != [])
  }

  function Context(pc: Pc): Payload {
    if pc.WritingPhase? then pc.context else Payload("", "", false, "", "")
  }

  lemma OwnMoveRecords(s: State, a: AttemptId, m: Move, v: Verdict)
    requires a in s.attempts && AttemptOk(s, a) && RecordedSoFar(s, a, v)
    requires CanMove(s, a, m) && Unhindered([Approval(a, m)], a)
    ensures RecordedSoFar(NextApproval(s, a, m), a, v)
  {
    var e := Approval(a, m);
    assert e in [e];
    if m.WritePhase? {
      WritePhaseRecords(s, a, m, v);
    } else if m.AppendOutcome? {
      AppendOutcomeRecords(s, a, v);
    } else {
      assert m.Settle?;
      SettleRecords(s, a, v);
    }
  }

  lemma WritePhaseRecords(s: State, a: AttemptId, m: Move, v: Verdict)
    requires RecordedSoFar(s, a, v) && CanMove(s, a, m) && m.WritePhase? && m.fault == NoFault
    ensures RecordedSoFar(NextApproval(s, a, m), a, v)
  {
    assert NextApproval(s, a, m).log == s.log + [PhaseWrite(s.attempts[a].key, a, PhaseOf(v))];
  }

  lemma AppendOutcomeRecords(s: State, a: AttemptId, v: Verdict)
    requires RecordedSoFar(s, a, v) && CanMove(s, a, AppendOutcome(true))
    ensures RecordedSoFar(NextApproval(s, a, AppendOutcome(true)), a, v)
  {
    assert NextApproval(s, a, AppendOutcome(true)).log == s.log + [OutcomeRow(s.attempts[a].key, a, v)];
  }

  lemma SettleRecords(s: State, a: AttemptId, v: Verdict)
    requires RecordedSoFar(s, a, v) && CanMove(s, a, Settle(NoFault)) && AttemptOk(s, a)
    ensures RecordedSoFar(NextApproval(s, a, Settle(NoFault)), a, v)
  {
    var k, t := s.attempts[a].key, NextApproval(s, a, Settle(NoFault));
    assert v != OutcomeUnknown ==> t.log == s.log + [ClaimSettled(k, a, ClaimOf(v))];
  }

  lemma OthersLeaveTheAttempt(s: State, e: Event, a: AttemptId)
    requires Enabled(s, e) && a in s.attempts && !(e.Approval? && e.a == a)
    ensures a in Next(s, e).attempts && Next(s, e).attempts[a] == s.attempts[a] && s.log <= Next(s, e).log
  {
    if e.Approval? {
      EffectIsLocal(s, e.a, e.move);
      MoveWrites(s, e.a, e.move);
    }
  }

  lemma OthersKeepTheRecord(s: State, e: Event, a: AttemptId, v: Verdict)
    requires ClaimInv(s) && Enabled(s, e) && RecordedSoFar(s, a, v) && !(e.Approval? && e.a == a)
    ensures RecordedSoFar(Next(s, e), a, v)
  {
    OthersLeaveTheAttempt(s, e, a);
    if s.attempts[a].pc.Stopped? && v == Isolated {
      var k := s.attempts[a].key;
      assert e.Approval? && e.a in s.attempts ==> AttemptOk(s, e.a);
      assert e.OperatorWrites? ==> RulingOk(s, e.ruling);
      StepKeepsShut(s, e, k);
    }
  }

  lemma {:induction false} RunRecords(s: State, events: seq<Event>, a: AttemptId, v: Verdict)
    requires ClaimInv(s) && Run(s, events) && Unhindered(events, a) && RecordedSoFar(s, a, v)
    ensures RecordedSoFar(Final(s, events), a, v)
    decreases |events|
  {
    if events != [] {
      var e := events[0];
      assert e in events && forall x | x in events[1..] :: x in events;
      StepOk(s, e);
      if e.Approval? && e.a == a {
        assert AttemptOk(s, a);
        OwnMoveRecords(s, a, e.move, v);
      } else {
        OthersKeepTheRecord(s, e, a, v);
      }
      RunRecords(Next(s, e), events[1..], a, v);
    }
  }

  lemma ReplyIsRecorded(s: State, a: AttemptId, p: Payload, reply: Option<Response>, events: seq<Event>)
    requires ClaimInv(s) && At(s, a, AwaitingReply(p))
    requires CanMove(s, a, Receive(reply)) && Run(NextApproval(s, a, Receive(reply)), events) && Unhindered(events, a)
    ensures RecordedSoFar(Final(NextApproval(s, a, Receive(reply)), events), a, Classify(reply, a))
  {
    StepOk(s, Approval(a, Receive(reply)));
    RunRecords(NextApproval(s, a, Receive(reply)), events, a, Classify(reply, a));
  }

  /** Whatever everyone else does in between: once an attempt that is not hindered has received the answer
      to its own successful handling and stopped, the success is in the checkpoint history, in the queue
      and in the claim, which stays RESOLVED. */
  lemma SuccessIsRecordedInEveryRun(s: State, a: AttemptId, p: Payload, h: Handling, events: seq<Event>)
    requires ClaimInv(s) && At(s, a, AwaitingReply(p))
    requires Complete(h) && h.requestId == a && SomeSucceeded(h) && CanMove(s, a, Receive(Some(ReplyTo(h))))
    requires var t := NextApproval(s, a, Receive(Some(ReplyTo(h))));
      Run(t, events) && Unhindered(events, a) && At(Final(t, events), a, Stopped)
    ensures var k, u := s.attempts[a].key, Final(NextApproval(s, a, Receive(Some(ReplyTo(h)))), events);
      && PhaseWrite(k, a, Executed) in u.log && OutcomeRow(k, a, Isolated) in u.log
      && ClaimSettled(k, a, Resolved) in u.log && Has(u.store, Claim(k), Resolved)
  {
    ReplyReading(h, a);
    ReplyIsRecorded(s, a, p, Some(ReplyTo(h)), events);
    KeyStays(NextApproval(s, a, Receive(Some(ReplyTo(h)))), events, a);
  }

  /** And so is a confirmed failure. */
  lemma FailureIsRecordedInEveryRun(s: State, a: AttemptId, p: Payload, h: Handling, events: seq<Event>)
    requires ClaimInv(s) && At(s, a, AwaitingReply(p))
    requires Complete(h) && h.requestId == a && NoneMayHold(h) && CanMove(s, a, Receive(Some(ReplyTo(h))))
    requires var t := NextApproval(s, a, Receive(Some(ReplyTo(h))));
      Run(t, events) && Unhindered(events, a) && At(Final(t, events), a, Stopped)
    ensures var k, u := s.attempts[a].key, Final(NextApproval(s, a, Receive(Some(ReplyTo(h)))), events);
      && PhaseWrite(k, a, PendingApproval) in u.log && OutcomeRow(k, a, NotDispatched) in u.log
      && ClaimSettled(k, a, Released) in u.log
  {
    ReplyReading(h, a);
    ReplyIsRecorded(s, a, p, Some(ReplyTo(h)), events);
    KeyStays(NextApproval(s, a, Receive(Some(ReplyTo(h)))), events, a);
  }

  lemma {:induction false} KeyStays(s: State, events: seq<Event>, a: AttemptId)
    requires Run(s, events) && a in s.attempts
    ensures a in Final(s, events).attempts && Final(s, events).attempts[a].key == s.attempts[a].key
    decreases |events|
  {
    if events != [] {
      var e := events[0];
      if !(e.Approval? && e.a == a) { OthersLeaveTheAttempt(s, e, a); } else { EffectIsLocal(s, a, e.move); }
      KeyStays(Next(s, e), events[1..], a);
    }
  }

  // ---- getting there ----

  /** The alert waits for approval, and nobody holds its claim. */
  ghost predicate Approvable(s: State, k: Key, p: Payload) {
    && Has(s.store, Checkpoint(k), PendingApproval) && s.store.docs[Checkpoint(k)].context == Some(p)
    && SafeTenant(p) == k.tenant && (Claim(k) !in s.store.docs || Has(s.store, Claim(k), Released))
  }

  /** An approval that nobody hinders claims the alert and sends its request, for the context on file. */
  lemma ApprovalIsSent(s: State, a: AttemptId, k: Key, p: Payload, ts: int) returns (t: State)
    requires a !in s.attempts && a !in s.requests && Approvable(s, k, p) && p.ipParses
    ensures Reaches(s, t) && t.attempts == s.attempts[a := Attempt(k, AwaitingReply(p))]
    ensures t.requests == s.requests[a := Request(k.tenant, p.ip, TargetMac(p), ts)]
    ensures Has(t.store, Claim(k), Claimed) && Wins(t, k) == Wins(s, k) + [a]
    ensures t.log == s.log + [ClaimedRow(k, a)] && t.broker == s.broker
  {
    var c := ClaimIsWon(s, a, k, p);
    HolderSends(c, a, p, ts);
    t := c.(attempts := c.attempts[a := Attempt(k, AwaitingReply(p))], requests := c.requests[a := RequestOf(p, ts)],
            log := c.log + [ClaimedRow(k, a)]);
    ReachesTrans(s, c, t);
    assert t.attempts == s.attempts[a := Attempt(k, AwaitingReply(p))];
  }

  lemma ClaimIsWon(s: State, a: AttemptId, k: Key, p: Payload) returns (c: State)
    requires a !in s.attempts && Approvable(s, k, p)
    ensures Reaches(s, c)
    ensures c == s.(attempts := s.attempts[a := Attempt(k, AppendingClaimed)], store := c.store, wins := c.wins)
    ensures Has(c.store, Claim(k), Claimed) && Wins(c, k) == Wins(s, k) + [a]
    ensures Has(c.store, Checkpoint(k), PendingApproval) && c.store.docs[Checkpoint(k)].context == Some(p)
  {
    var b := s.(attempts := s.attempts[a := Attempt(k, Creating)]);
    c := ClaimTaken(b, a, k);
    WonFrom(s, b, a, k);
    assert c.attempts == s.attempts[a := Attempt(k, AppendingClaimed)];
  }

  lemma WonFrom(s: State, b: State, a: AttemptId, k: Key)
    requires a !in s.attempts && Has(s.store, Checkpoint(k), PendingApproval)
    requires Claim(k) !in s.store.docs || Has(s.store, Claim(k), Released)
    requires b == s.(attempts := s.attempts[a := Attempt(k, Creating)])
    ensures Reaches(s, ClaimTaken(b, a, k))
  {
    ApprovalStarts(s, a, k);
    if Claim(k) in s.store.docs { ReleasedIsRewon(b, a); } else { AbsentClaimIsWon(b, a); }
    ReachesTrans(s, b, ClaimTaken(b, a, k));
  }

  // ---- and only for a drafted alert ----

  /** Somewhere along the run the alert waited for approval. */
  ghost predicate EverPending(s: State, events: seq<Event>, k: Key)
    requires Run(s, events)
    decreases |events|
  {
    Has(s.store, Checkpoint(k), PendingApproval) || (events != [] && EverPending(Next(s, events[0]), events[1..], k))
  }

  /** Nobody has got past checking the phase of this alert. */
  ghost predicate Untouched(s: State, k: Key) {
    && Wins(s, k) == []
    && forall a | a in s.attempts && s.attempts[a].key == k :: s.attempts[a].pc in {CheckingPhase, Stopped}
  }

  lemma UntouchedStays(s: State, e: Event, k: Key)
    requires Untouched(s, k) && Enabled(s, e) && !Has(s.store, Checkpoint(k), PendingApproval)
    ensures Untouched(Next(s, e), k)
  {
    if e.Approval? {
      var a := e.a;
      EffectIsLocal(s, a, e.move);
      if s.attempts[a].key == k { assert s.attempts[a].pc in {CheckingPhase, Stopped}; }
    }
  }

  lemma {:induction false} UntouchedOrEverPending(s: State, events: seq<Event>, k: Key)
    requires Run(s, events) && Untouched(s, k)
    ensures EverPending(s, events, k) || Untouched(Final(s, events), k)
    decreases |events|
  {
    if events != [] && !Has(s.store, Checkpoint(k), PendingApproval) {
      UntouchedStays(s, events[0], k);
      UntouchedOrEverPending(Next(s, events[0]), events[1..], k);
    }
  }

  /** In every run, a claim is won and a request sent only for an alert that waited for approval. */
  lemma OnlyPendingAlertsAreClaimed(timing: Timing, now: int, events: seq<Event>, k: Key)
    requires Run(Init(timing, now), events) && !EverPending(Init(timing, now), events, k)
    ensures Wins(Final(Init(timing, now), events), k) == []
  {
    UntouchedOrEverPending(Init(timing, now), events, k);
  }

  // ---- and only for its own tenant ----

  /** Whoever holds a context, and whoever sent a request, did so for the tenant of its alert. */
  ghost predicate TenantOk(s: State, a: AttemptId) {
    && a in s.attempts
    && var k, pc := s.attempts[a].key, s.attempts[a].pc;
       && (pc.Isolating? ==> SafeTenant(pc.context) == k.tenant)
       && (a in s.requests ==> s.requests[a].tenant == k.tenant)
  }

  lemma TenantStays(s: State, e: Event, a: AttemptId)
    requires Enabled(s, e) && (a in s.attempts ==> TenantOk(s, a)) && (a in s.requests ==> a in s.attempts)
    ensures a in Next(s, e).requests ==> a in Next(s, e).attempts
    ensures a in Next(s, e).attempts ==> TenantOk(Next(s, e), a)
  {
    if e.Approval? && e.a == a {
      OwnMoveKeepsTenant(s, a, e.move);
    } else if e.Approval? {
      EffectIsLocal(s, e.a, e.move);
      assert a in Next(s, e).requests <==> a in s.requests;
    }
  }

  lemma OwnMoveKeepsTenant(s: State, a: AttemptId, m: Move)
    requires CanMove(s, a, m) && TenantOk(s, a)
    ensures TenantOk(NextApproval(s, a, m), a)
  {
    EffectIsLocal(s, a, m);
  }

  /** Whatever the store holds at the start, a foreign context under an alert's id included: in every run, a request
      names the tenant of the alert it is for. */
  lemma {:induction false} RequestsStayInTheirTenant(s: State, events: seq<Event>, a: AttemptId)
    requires (a in s.attempts ==> TenantOk(s, a)) && (a in s.requests ==> a in s.attempts) && Run(s, events)
    ensures var t := Final(s, events);
      a in t.requests ==> a in t.attempts && t.requests[a].tenant == t.attempts[a].key.tenant
    decreases |events|
  {
    if events != [] {
      TenantStays(s, events[0], a);
      RequestsStayInTheirTenant(Next(s, events[0]), events[1..], a);
    }
  }

  // ---- the other writers ----

  /** An intake has filed its alert under its id, and added these rows. */
  ghost predicate FiledAs(s: State, t: State, k: Key, p: Payload, phase: Phase, rows: seq<Entry>) {
    && Has(t.store, Checkpoint(k), phase) && t.store.docs[Checkpoint(k)].context == Some(p)
    && t.store.docs - {Checkpoint(k)} == s.store.docs - {Checkpoint(k)}
    && t.log == s.log + rows
  }

  /** An alert that is to wait for approval is filed as PENDING_APPROVAL, with its draft row. */
  lemma DraftIsFiled(s: State, i: nat, p: Payload, bucket: string, stamp: int)
    requires i !in s.intakes && BarFree(bucket)
    ensures var events := [StartIntake(i, p, bucket, NoFault, stamp), DraftIntake(i),
                           FinishIntake(i, PendingApproval, NoFault, stamp)];
      var k := KeyOf(p, bucket);
      && Run(s, events)
      && FiledAs(s, Final(s, events), k, p, PendingApproval, [DraftRow(k, SafeTenant(p), TargetIp(p), TargetMac(p))])
  {
    var start, draft := StartIntake(i, p, bucket, NoFault, stamp), DraftIntake(i);
    var end := FinishIntake(i, PendingApproval, NoFault, stamp);
    OneEventRuns(Next(Next(s, start), draft), end);
    assert [draft, end][1..] == [end] && [start, draft, end][1..] == [draft, end];
  }

  /** Any other alert is filed in the phase its intake ended in, and leaves no row. */
  lemma AlertIsFiled(s: State, i: nat, p: Payload, bucket: string, phase: Phase, stamp: int)
    requires i !in s.intakes && BarFree(bucket) && phase in {NoActionProtectedAsset, AutoIsolated, IsolationFailed}
    ensures var events := [StartIntake(i, p, bucket, NoFault, stamp), FinishIntake(i, phase, NoFault, stamp)];
      Run(s, events) && FiledAs(s, Final(s, events), KeyOf(p, bucket), p, phase, [])
  {
    var start, end := StartIntake(i, p, bucket, NoFault, stamp), FinishIntake(i, phase, NoFault, stamp);
    OneEventRuns(Next(s, start), end);
    assert [start, end][1..] == [end];
  }

  lemma OneEventRuns(s: State, e: Event)
    requires Enabled(s, e) && Timely(s, e) && OperatorIsTruthful(s, e)
    ensures Run(s, [e]) && Final(s, [e]) == Next(s, e)
  {
    assert [e][1..] == [];
  }

  /** A truthful ruling on a CLAIMED claim that nobody touches in between takes effect, and nothing else. */
  lemma RulingTakesEffect(s: State, k: Key, outcome: Phase)
    requires Enabled(s, OperatorDecides(k, outcome)) && OperatorIsTruthful(s, OperatorDecides(k, outcome))
    ensures var events := [OperatorDecides(k, outcome),
                           OperatorWrites(Ruling(k, s.store.docs[Claim(k)].seqNo, outcome), NoFault)];
      && Run(s, events)
      && var t := Final(s, events);
         && outcome in {Released, Resolved} && Has(t.store, Claim(k), outcome)
         && t.store.docs - {Claim(k)} == s.store.docs - {Claim(k)}
         && t.wins == s.wins && t.log == s.log && t.attempts == s.attempts
  {
    var d := OperatorDecides(k, outcome);
    var w := OperatorWrites(Ruling(k, s.store.docs[Claim(k)].seqNo, outcome), NoFault);
    OneEventRuns(Next(s, d), w);
    assert [d, w][1..] == [w];
  }
}
