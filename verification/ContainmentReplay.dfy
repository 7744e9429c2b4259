/** The exact condition of the at-most-once theorem: how old a request must be when it is first
    accepted, against how stale a clock reading, how fast a restart and how late a delivery may be. */
module ContainmentReplay {
  import opened Types
  import opened DedupKey
  import opened DocumentStore
  import opened RouterOutcomes
  import opened BrokerRpc
  import opened ReplayCache
  import opened Containment
  import opened ContainmentGate
  import opened ContainmentRecord

  ghost predicate Reaches(s: State, t: State) { exists events :: Run(s, events) && Final(s, events) == t }

  lemma {:induction false} RunAppend(s: State, xs: seq<Event>, ys: seq<Event>)
    requires Run(s, xs) && Run(Final(s, xs), ys)
    ensures Run(s, xs + ys) && Final(s, xs + ys) == Final(Final(s, xs), ys)
    decreases |xs|
  {
    if xs == [] {
      assert xs + ys == ys;
    } else {
      RunAppend(Next(s, xs[0]), xs[1..], ys);
      assert (xs + ys)[1..] == xs[1..] + ys;
    }
  }

  lemma ReachesTrans(s: State, t: State, u: State)
    requires Reaches(s, t) && Reaches(t, u)
    ensures Reaches(s, u)
  {
    var xs :| Run(s, xs) && Final(s, xs) == t;
    var ys :| Run(t, ys) && Final(t, ys) == u;
    RunAppend(s, xs, ys);
  }

  lemma StepReaches(s: State, e: Event)
    requires Enabled(s, e) && Timely(s, e) && OperatorIsTruthful(s, e)
    ensures Reaches(s, Next(s, e))
  {
    assert Run(Next(s, e), []);
    assert [e][1..] == [];
    assert Run(s, [e]) && Final(s, [e]) == Next(s, e);
  }

  lemma MoveReaches(s: State, a: AttemptId, m: Move)
    requires CanMove(s, a, m)
    ensures Reaches(s, NextApproval(s, a, m))
  {
    StepReaches(s, Approval(a, m));
  }

  // ---- stretches of a run ----

  /** An approval of a drafted alert gets as far as trying to create its claim. */
  lemma ApprovalStarts(s: State, a: AttemptId, k: Key)
    requires a !in s.attempts && Has(s.store, Checkpoint(k), PendingApproval)
    ensures Reaches(s, s.(attempts := s.attempts[a := Attempt(k, Creating)]))
  {
    var t := s.(attempts := s.attempts[a := Attempt(k, CheckingPhase)]);
    StepReaches(s, StartApproval(a, k));
    MoveReaches(t, a, CheckPhase(true));
    assert NextApproval(t, a, CheckPhase(true)) == s.(attempts := s.attempts[a := Attempt(k, Creating)]);
    ReachesTrans(s, t, NextApproval(t, a, CheckPhase(true)));
  }

  function RequestOf(p: Payload, ts: int): Request { Request(SafeTenant(p), TargetIp(p), TargetMac(p), ts) }

  /** The holder records its claim, loads the context and sends its request, stamped `ts`. */
  lemma HolderSends(s: State, a: AttemptId, p: Payload, ts: int)
    requires At(s, a, AppendingClaimed) && p.ipParses
    requires ContextLoads(s, s.attempts[a].key) && s.store.docs[Checkpoint(s.attempts[a].key)].context == Some(p)
    ensures var k := s.attempts[a].key;
      Reaches(s, s.(attempts := s.attempts[a := Attempt(k, AwaitingReply(p))],
                    requests := s.requests[a := RequestOf(p, ts)], log := s.log + [ClaimedRow(k, a)]))
  {
    var k := s.attempts[a].key;
    var t := NextApproval(s, a, AppendClaimed(true));
    MoveReaches(s, a, AppendClaimed(true));
    var u := NextApproval(t, a, LoadContext(true));
    MoveReaches(t, a, LoadContext(true));
    assert u.attempts == s.attempts[a := Attempt(k, Isolating(p))];
    var v := NextApproval(u, a, Isolate(false, ts));
    MoveReaches(u, a, Isolate(false, ts));
    assert v == s.(attempts := s.attempts[a := Attempt(k, AwaitingReply(p))],
                   requests := s.requests[a := RequestOf(p, ts)], log := s.log + [ClaimedRow(k, a)]);
    ReachesTrans(s, t, u);
    ReachesTrans(s, u, v);
  }

  /** The broker after accepting one request, whose one router task ends. */
  function Dispatched(b: Broker, a: AttemptId, reading: int, result: TaskResult): Broker {
    b.(seen := Record(b.seen, a, reading, b.timing.window), lastAccepted := Some(b.now),
       handlings := b.handlings + [Handling(a, Dispatching([Some(result)]))])
  }

  lemma BrokerDispatches(s: State, a: AttemptId, reading: int, result: TaskResult)
    requires Sound(result)
    requires var e := Accept(a, reading, Dispatching([None])); Enabled(s, e) && Timely(s, e)
    ensures Reaches(s, s.(broker := Dispatched(s.broker, a, reading, result)))
  {
    var n := |s.broker.handlings|;
    var t := NextAccept(s, a, reading, Dispatching([None]));
    StepReaches(s, Accept(a, reading, Dispatching([None])));
    StepReaches(t, RouterTaskEnds(n, 0, result));
    var u := NextTaskEnds(t, n, 0, result);
    assert [None][0 := Some(result)] == [Some(result)];
    assert u.broker.handlings == Dispatched(s.broker, a, reading, result).handlings;
    ReachesTrans(s, t, u);
  }

  /** What a confirmed failure leaves behind. */
  ghost predicate FailedAndReleased(s: State, t: State, a: AttemptId, p: Payload)
    requires a in s.attempts
  {
    var k := s.attempts[a].key;
    && t == s.(broker := t.broker, attempts := s.attempts[a := Attempt(k, Stopped)], store := t.store, log := t.log,
               releases := t.releases)
    && t.broker == s.broker.(responses := t.broker.responses)
    && t.store == Update(Put(s.store, Checkpoint(k), PendingApproval, Some(p), 0), Claim(k), Released)
    && OutcomeRow(k, a, NotDispatched) in t.log
  }

  /** A confirmed failure comes back, and the holder records it and releases the claim. */
  lemma FailureReleases(s: State, a: AttemptId, h: nat, p: Payload) returns (v: State)
    requires At(s, a, AwaitingReply(p)) && Claim(s.attempts[a].key) in s.store.docs
    requires s.broker.since <= h < |s.broker.handlings| && Complete(s.broker.handlings[h])
    requires NoneMayHold(s.broker.handlings[h])
    requires s.broker.handlings[h].requestId == a
    ensures Reaches(s, v) && FailedAndReleased(s, v, a, p)
  {
    var k := s.attempts[a].key;
    var reply := ReplyTo(s.broker.handlings[h]);
    StepReaches(s, Reply(h));
    var t := Next(s, Reply(h));
    ReplyReading(s.broker.handlings[h], a);
    var u := NextApproval(t, a, Receive(Some(reply)));
    MoveReaches(t, a, Receive(Some(reply)));
    assert u == t.(attempts := s.attempts[a := Attempt(k, WritingPhase(p, NotDispatched))]);
    ReachesTrans(s, t, u);
    v := FailureRecorded(u, a, p);
    ReachesTrans(s, u, v);
    assert v.attempts == s.attempts[a := Attempt(k, Stopped)];
  }

  lemma FailureRecorded(u: State, a: AttemptId, p: Payload) returns (x: State)
    requires At(u, a, WritingPhase(p, NotDispatched)) && Claim(u.attempts[a].key) in u.store.docs
    ensures Reaches(u, x) && FailedAndReleased(u, x, a, p) && x.broker == u.broker
  {
    var v := NextApproval(u, a, WritePhase(NoFault, 0));
    MoveReaches(u, a, WritePhase(NoFault, 0));
    var w := NextApproval(v, a, AppendOutcome(true));
    MoveReaches(v, a, AppendOutcome(true));
    ReachesTrans(u, v, w);
    x := NextApproval(w, a, Settle(NoFault));
    MoveReaches(w, a, Settle(NoFault));
    ReachesTrans(u, w, x);
    assert x.attempts == u.attempts[a := Attempt(u.attempts[a].key, Stopped)];
  }

  /** The attempt has won the claim. */
  function ClaimTaken(s: State, a: AttemptId, k: Key): State {
    s.(attempts := s.attempts[a := Attempt(k, AppendingClaimed)],
       store := Put(s.store, Claim(k), Claimed, None, 0), wins := s.wins[k := Wins(s, k) + [a]])
  }

  lemma TakenStaysDrafted(s: State, a: AttemptId, k: Key, p: Payload)
    requires Drafted(s, k, p)
    ensures Drafted(ClaimTaken(s, a, k), k, p) && Claim(k) in ClaimTaken(s, a, k).store.docs
  {}

  /** A second approval wins the released claim. */
  lemma ReleasedIsRewon(s: State, a: AttemptId)
    requires At(s, a, Creating) && Has(s.store, Claim(s.attempts[a].key), Released)
    ensures var k := s.attempts[a].key;
      Reaches(s, ClaimTaken(s, a, k))
  {
    var k := s.attempts[a].key;
    var q := s.store.docs[Claim(k)].seqNo;
    var t := NextApproval(s, a, CreateClaim(NoFault, 0));
    MoveReaches(s, a, CreateClaim(NoFault, 0));
    var u := NextApproval(t, a, FetchClaim(true));
    MoveReaches(t, a, FetchClaim(true));
    assert u.attempts == s.attempts[a := Attempt(k, Reclaiming(q))];
    var v := NextApproval(u, a, Reclaim(NoFault, 0));
    MoveReaches(u, a, Reclaim(NoFault, 0));
    assert v.attempts == s.attempts[a := Attempt(k, AppendingClaimed)];
    ReachesTrans(s, t, u);
    ReachesTrans(s, u, v);
  }

  // ---- the failing run ----

  /** Drafting one alert, from nothing. */
  lemma AlertIsDrafted(timing: Timing, now: int, p: Payload, bucket: string) returns (t: State)
    requires BarFree(bucket)
    ensures Reaches(Init(timing, now), t)
    ensures t == Init(timing, now).(intakes := t.intakes, log := t.log, store := t.store)
    ensures var k := KeyOf(p, bucket);
      && Has(t.store, Checkpoint(k), PendingApproval)
      && t.store.docs[Checkpoint(k)].context == Some(p)
      && t.store.docs.Keys == {Checkpoint(k)}
  {
    var s := Init(timing, now);
    var u := NextStartIntake(s, 0, p, bucket, NoFault, 0);
    StepReaches(s, StartIntake(0, p, bucket, NoFault, 0));
    var v := NextDraftIntake(u, 0);
    StepReaches(u, DraftIntake(0));
    t := NextFinishIntake(v, 0, PendingApproval, NoFault, 0);
    StepReaches(v, FinishIntake(0, PendingApproval, NoFault, 0));
    ReachesTrans(s, u, v);
    ReachesTrans(s, v, t);
  }

  ghost predicate Drafted(s: State, k: Key, p: Payload) {
    && Has(s.store, Checkpoint(k), PendingApproval) && s.store.docs[Checkpoint(k)].context == Some(p)
    && SafeTenant(p) == k.tenant && p.ipParses
  }

  lemma FirstAttemptWins(s: State, k: Key, p: Payload) returns (c: State)
    requires s.attempts == map[] && Drafted(s, k, p) && Claim(k) !in s.store.docs
    ensures Reaches(s, c) && c.broker == s.broker && c.requests == s.requests
    ensures c.attempts == map[0 := Attempt(k, AppendingClaimed)]
    ensures Drafted(c, k, p) && Claim(k) in c.store.docs
  {
    ApprovalStarts(s, 0, k);
    var b := s.(attempts := s.attempts[0 := Attempt(k, Creating)]);
    AbsentClaimIsWon(b, 0);
    c := ClaimTaken(b, 0, k);
    TakenStaysDrafted(b, 0, k, p);
    ReachesTrans(s, b, c);
  }

  lemma AbsentClaimIsWon(s: State, a: AttemptId)
    requires At(s, a, Creating) && Claim(s.attempts[a].key) !in s.store.docs
    ensures var k := s.attempts[a].key;
      Reaches(s, ClaimTaken(s, a, k))
  {
    MoveReaches(s, a, CreateClaim(NoFault, 0));
  }

  lemma FirstAttemptSends(s: State, k: Key, p: Payload) returns (d: State)
    requires s.attempts == map[] && s.requests == map[] && Drafted(s, k, p) && Claim(k) !in s.store.docs
    ensures Reaches(s, d) && d.broker == s.broker && d.attempts == map[0 := Attempt(k, AwaitingReply(p))]
    ensures d.requests == map[0 := RequestOf(p, 0)] && Drafted(d, k, p) && Claim(k) in d.store.docs
  {
    var c := FirstAttemptWins(s, k, p);
    HolderSends(c, 0, p, 0);
    d := c.(attempts := c.attempts[0 := Attempt(k, AwaitingReply(p))], requests := c.requests[0 := RequestOf(p, 0)],
            log := c.log + [ClaimedRow(k, 0)]);
    ReachesTrans(s, c, d);
  }

  const MISSED: TaskResult := TaskResult(Failed, false)
  const LANDED: TaskResult := TaskResult(Succeeded, true)

  /** A broker that first served at `x` and has accepted request 0 at that reading. */
  predicate Accepted0(b: Broker, timing: Timing, x: int) {
    && b.timing == timing && b.now == x && b.started == x && b.since == 0 && b.lastAccepted == Some(x)
    && (0 in b.seen ==> b.seen[0] == x + timing.window)
  }

  lemma FirstAttemptMisses(s: State, k: Key, p: Payload, timing: Timing, x: int) returns (e: State)
    requires s.attempts == map[] && s.requests == map[] && Drafted(s, k, p) && Claim(k) !in s.store.docs
    requires s.broker == Init(timing, x).broker && timing.lag <= x && 0 <= x + timing.window && x <= timing.window
    requires x <= timing.life
    ensures Reaches(s, e) && e.attempts == map[0 := Attempt(k, AwaitingReply(p))]
    ensures e.requests == map[0 := RequestOf(p, 0)] && Accepted0(e.broker, timing, x) && 1 !in e.broker.seen
    ensures e.broker.handlings == [Handling(0, Dispatching([Some(MISSED)]))]
    ensures Drafted(e, k, p) && Claim(k) in e.store.docs
  {
    var d := FirstAttemptSends(s, k, p);
    BrokerDispatches(d, 0, x, MISSED);
    e := d.(broker := Dispatched(d.broker, 0, x, MISSED));
    ReachesTrans(s, d, e);
  }

  /** First attempt: claimed, sent, accepted, failed on the only router, released. */
  lemma FirstAttemptFails(s: State, k: Key, p: Payload, timing: Timing, x: int) returns (t: State)
    requires s.attempts == map[] && s.requests == map[] && Drafted(s, k, p) && Claim(k) !in s.store.docs
    requires s.broker == Init(timing, x).broker && timing.lag <= x && 0 <= x + timing.window && x <= timing.window
    requires x <= timing.life
    ensures Reaches(s, t) && t.attempts == map[0 := Attempt(k, Stopped)] && t.requests == map[0 := RequestOf(p, 0)]
    ensures Accepted0(t.broker, timing, x) && 1 !in t.broker.seen
    ensures t.broker.handlings == [Handling(0, Dispatching([Some(MISSED)]))]
    ensures Drafted(t, k, p) && Has(t.store, Claim(k), Released) && OutcomeRow(k, 0, NotDispatched) in t.log
  {
    var e := FirstAttemptMisses(s, k, p, timing, x);
    t := FailureReleases(e, 0, 0, p);
    ReachesTrans(s, e, t);
  }

  /** Any further approval wins a released claim. */
  lemma ReleasedIsTaken(s: State, a: AttemptId, k: Key, p: Payload) returns (c: State)
    requires a !in s.attempts && Drafted(s, k, p) && Has(s.store, Claim(k), Released)
    ensures Reaches(s, c) && c.broker == s.broker && c.requests == s.requests && Drafted(c, k, p)
    ensures c.attempts == s.attempts[a := Attempt(k, AppendingClaimed)]
  {
    ApprovalStarts(s, a, k);
    var b := s.(attempts := s.attempts[a := Attempt(k, Creating)]);
    ReleasedIsRewon(b, a);
    c := ClaimTaken(b, a, k);
    TakenStaysDrafted(b, a, k, p);
    ReachesTrans(s, b, c);
  }

  lemma SecondAttemptWins(s: State, k: Key, p: Payload) returns (c: State)
    requires s.attempts == map[0 := Attempt(k, Stopped)] && Drafted(s, k, p) && Has(s.store, Claim(k), Released)
    ensures Reaches(s, c) && c.broker == s.broker && c.requests == s.requests && Drafted(c, k, p)
    ensures c.attempts == map[0 := Attempt(k, Stopped), 1 := Attempt(k, AppendingClaimed)]
  {
    c := ReleasedIsTaken(s, 1, k, p);
  }

  lemma SecondAttemptSends(s: State, k: Key, p: Payload) returns (d: State)
    requires s.attempts == map[0 := Attempt(k, Stopped)] && s.requests == map[0 := RequestOf(p, 0)]
    requires Drafted(s, k, p) && Has(s.store, Claim(k), Released)
    ensures Reaches(s, d) && d.broker == s.broker
    ensures d.attempts == map[0 := Attempt(k, Stopped), 1 := Attempt(k, AwaitingReply(p))]
    ensures d.requests == map[0 := RequestOf(p, 0), 1 := RequestOf(p, 0)]
  {
    var c := SecondAttemptWins(s, k, p);
    HolderSends(c, 1, p, 0);
    d := c.(attempts := c.attempts[1 := Attempt(k, AwaitingReply(p))],
            requests := c.requests[1 := RequestOf(p, 0)], log := c.log + [ClaimedRow(k, 1)]);
    ReachesTrans(s, c, d);
  }

  /** Second attempt: wins the released claim, and its block lands. */
  lemma SecondAttemptBlocks(s: State, k: Key, p: Payload, timing: Timing, x: int) returns (t: State)
    requires s.attempts == map[0 := Attempt(k, Stopped)] && s.requests == map[0 := RequestOf(p, 0)]
    requires Drafted(s, k, p) && Has(s.store, Claim(k), Released)
    requires Accepted0(s.broker, timing, x) && 1 !in s.broker.seen
    requires timing.lag <= x && 0 <= x + timing.window && x <= timing.window && x <= timing.life
    ensures Reaches(s, t) && t.attempts == map[0 := Attempt(k, Stopped), 1 := Attempt(k, AwaitingReply(p))]
    ensures 0 in t.requests && t.requests[0] == RequestOf(p, 0) && Accepted0(t.broker, timing, x)
    ensures t.broker.handlings == s.broker.handlings + [Handling(1, Dispatching([Some(LANDED)]))]
  {
    var d := SecondAttemptSends(s, k, p);
    BrokerDispatches(d, 1, x, LANDED);
    t := d.(broker := Dispatched(d.broker, 1, x, LANDED));
    ReachesTrans(s, d, t);
  }

  /** A request handled before is accepted again. */
  lemma AcceptedAgain(s: State, reading: int) returns (t: State)
    requires 0 in s.requests && s.requests[0].ts == 0 && Handled(s, 0) && 0 !in s.broker.seen
    requires CouldRead(s.broker, reading) && InWindow(reading, 0, s.broker.timing.window)
    requires s.broker.now - reading <= s.broker.timing.slack && s.broker.now <= s.broker.timing.life
    ensures Reaches(s, t) && t.attempts == s.attempts
    ensures t.broker.handlings == s.broker.handlings + [Handling(0, Dispatching([Some(LANDED)]))]
  {
    BrokerDispatches(s, 0, reading, LANDED);
    t := s.(broker := Dispatched(s.broker, 0, reading, LANDED));
  }

  /** A check drops the expired entry while a copy of the request still holds its older reading. */
  lemma ReplayedPastExpiry(s: State, timing: Timing, x: int) returns (t: State)
    requires 0 in s.requests && s.requests[0].ts == 0 && Handled(s, 0) && Accepted0(s.broker, timing, x)
    requires 0 <= x + timing.window && x <= timing.window && x <= timing.slack && x + timing.window <= timing.life
    ensures Reaches(s, t) && t.attempts == s.attempts
    ensures t.broker.handlings == s.broker.handlings + [Handling(0, Dispatching([Some(LANDED)]))]
  {
    var later := x + timing.window;
    var u := s.(broker := s.broker.(now := later));
    StepReaches(s, Tick(later));
    var v := NextDeny(u, 401, Some(later));
    StepReaches(u, Deny(401, Some(later)));
    ReachesTrans(s, u, v);
    t := AcceptedAgain(v, if x <= 0 then later else timing.window);
    ReachesTrans(s, v, t);
  }

  /** A restarted broker has forgotten the request. */
  lemma ReplayedPastRestart(s: State, timing: Timing, x: int) returns (t: State)
    requires 0 in s.requests && s.requests[0].ts == 0 && Handled(s, 0) && Accepted0(s.broker, timing, x)
    requires 0 <= x + timing.window && x + timing.gap <= timing.window && x + timing.gap <= timing.life
    ensures Reaches(s, t) && t.attempts == s.attempts
    ensures t.broker.handlings == s.broker.handlings + [Handling(0, Dispatching([Some(LANDED)]))]
  {
    var later := x + timing.gap;
    var u := s.(broker := s.broker.(now := later));
    StepReaches(s, Tick(later));
    var v := NextRestart(u);
    StepReaches(u, BrokerRestarts);
    ReachesTrans(s, u, v);
    t := AcceptedAgain(v, later);
    ReachesTrans(s, v, t);
  }

  lemma TwoBlocks(t: State, k: Key, first: Handling, pcs: seq<Pc>)
    requires |pcs| == 2 && t.attempts == map[0 := Attempt(k, pcs[0]), 1 := Attempt(k, pcs[1])]
    requires
      var landed := Dispatching([Some(LANDED)]);
      t.broker.handlings == [first, Handling(1, landed), Handling(0, landed)]
    ensures !AtMostOneBlocks(t)
  {
    var landed := Dispatching([Some(LANDED)]);
    assert t.broker.handlings[1] == Handling(1, landed) && t.broker.handlings[2] == Handling(0, landed);
    assert landed.tasks[0].value.applied;
    assert Applied(t.broker.handlings[1]) && Applied(t.broker.handlings[2]);
    assert LeftABlock(t, 1) && LeftABlock(t, 0);
  }

  /** One draft and one approval, which fails and is released. */
  lemma OneFailedApproval(timing: Timing, x: int) returns (k: Key, p: Payload, t: State)
    requires timing.lag <= x && 0 <= x + timing.window && x <= timing.window && x <= timing.life
    ensures Reaches(Init(timing, x), t)
    ensures t.attempts == map[0 := Attempt(k, Stopped)] && t.requests == map[0 := RequestOf(p, 0)]
    ensures Accepted0(t.broker, timing, x) && 1 !in t.broker.seen
    ensures t.broker.handlings == [Handling(0, Dispatching([Some(MISSED)]))]
    ensures Drafted(t, k, p) && Has(t.store, Claim(k), Released) && OutcomeRow(k, 0, NotDispatched) in t.log
  {
    p := Payload("home", "203.0.113.9", true, "", "high");
    assert BarFree("5");
    k := KeyOf(p, "5");
    var a := AlertIsDrafted(timing, x, p, "5");
    t := FirstAttemptFails(a, k, p, timing, x);
    ReachesTrans(Init(timing, x), a, t);
  }

  /** One draft and two approvals: the first fails and is released, the second blocks. */
  lemma TwoApprovals(timing: Timing, x: int) returns (k: Key, p: Payload, t: State)
    requires timing.lag <= x && 0 <= x + timing.window && x <= timing.window && x <= timing.life
    ensures Reaches(Init(timing, x), t)
    ensures t.attempts == map[0 := Attempt(k, Stopped), 1 := Attempt(k, AwaitingReply(p))]
    ensures 0 in t.requests && t.requests[0] == RequestOf(p, 0) && Accepted0(t.broker, timing, x)
    ensures t.broker.handlings == [Handling(0, Dispatching([Some(MISSED)])), Handling(1, Dispatching([Some(LANDED)]))]
  {
    var b;
    k, p, b := OneFailedApproval(timing, x);
    t := SecondAttemptBlocks(b, k, p, timing, x);
    ReachesTrans(Init(timing, x), b, t);
  }

  /** In any timing that is not tight: one duplicated request later, both approvals have left a block. */
  lemma LooseTimingBreaksTheGate(timing: Timing) returns (t: State)
    requires !Tight(timing)
    ensures Reaches(Init(timing, EarliestAge(timing)), t) && !AtMostOneBlocks(t)
  {
    var x := EarliestAge(timing);
    var k, p, c := TwoApprovals(timing, x);
    assert c.broker.handlings[0].requestId == 0;
    if x <= timing.slack && x + timing.window <= timing.life {
      t := ReplayedPastExpiry(c, timing, x);
    } else {
      t := ReplayedPastRestart(c, timing, x);
    }
    ReachesTrans(Init(timing, x), c, t);
    TwoBlocks(t, k, c.broker.handlings[0], [Stopped, AwaitingReply(p)]);
  }

  /** In every run that keeps to the timing, at most one attempt per alert blocks. */
  ghost predicate GateHolds(timing: Timing) {
    forall now: int, events: seq<Event> | Run(Init(timing, now), events) ::
      AtMostOneBlocks(Final(Init(timing, now), events))
  }

  /** At most one attempt blocks in every run exactly when the timing is tight. */
  lemma GateHoldsIffTight(timing: Timing)
    ensures GateHolds(timing) <==> Tight(timing)
  {
    if Tight(timing) {
      forall now: int, events: seq<Event> | Run(Init(timing, now), events)
        ensures AtMostOneBlocks(Final(Init(timing, now), events))
      {
        AtMostOneAttemptBlocks(timing, now, events);
      }
    } else {
      var t := LooseTimingBreaksTheGate(timing);
      var start := Init(timing, EarliestAge(timing));
      var events :| Run(start, events) && Final(start, events) == t;
    }
  }

  // ---- and what a recorded failure is worth ----

  /** In every run that keeps to the timing, a recorded failure or release means that nothing of the attempt
      is on a router or can still get there. */
  ghost predicate VoidsAreBarren(timing: Timing) {
    forall now: int, events: seq<Event> | Run(Init(timing, now), events) ::
      AllVoidsBarren(Final(Init(timing, now), events))
  }

  /** It does exactly when the timing is tight. */
  lemma VoidsAreBarrenIffTight(timing: Timing)
    ensures VoidsAreBarren(timing) <==> Tight(timing)
  {
    if Tight(timing) {
      forall now: int, events: seq<Event> | Run(Init(timing, now), events)
        ensures AllVoidsBarren(Final(Init(timing, now), events))
      {
        VoidIsBarren(timing, now, events);
      }
    } else {
      var x := EarliestAge(timing);
      var k, p, t := OneFailedApproval(timing, x);
      assert SaysVoid(OutcomeRow(k, 0, NotDispatched)) && !Spent(t, 0);
      assert !AllVoidsBarren(t);
      var events :| Run(Init(timing, x), events) && Final(Init(timing, x), events) == t;
    }
  }

  /** Where messages arrive at any age, the lag has to exceed the slack and restarts have to leave the
      window behind. Where restarts take longer than the window, the lag, or a bound on how late a
      message arrives, is enough. Where no message arrives a window or a restart after the lag, nothing
      else is needed. */
  lemma WhatTightMeans(timing: Timing)
    requires 0 <= timing.lag <= timing.window
    ensures timing.life >= timing.lag + timing.window && timing.life >= timing.lag + timing.gap ==>
      (Tight(timing) <==> timing.lag > timing.slack && timing.lag + timing.gap > timing.window)
    ensures timing.gap > timing.window ==>
      (Tight(timing) <==> timing.lag > timing.slack || timing.life < timing.lag + timing.window)
    ensures timing.life < timing.lag + timing.window && timing.life < timing.lag + timing.gap ==> Tight(timing)
  {}
}
