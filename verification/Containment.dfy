/** The containment protocol as one state machine: intakes, racing approvals, the operator tool and
    the retention compactor over one document store; the network; the broker and its routers.
    Every event is one atomic effect. A store call may fail without effect, or take effect and
    still report an error; an actor crashes by never moving again. */
module Containment {
  import opened Types
  import opened DedupKey
  import opened DocumentStore
  import opened RouterOutcomes
  import opened BrokerRpc
  import opened ReplayCache

  type AttemptId = RequestId   // one approval attempt makes at most one dispatch call, under a fresh id

  /** Where an approval attempt (execute_approved) stands. */
  datatype Pc =
    | CheckingPhase | Creating | Fetching | Reclaiming(seqNo: nat)                  // racing for the claim
    | AppendingClaimed | LoadingContext | Isolating(context: Payload)               // holding it
    | AwaitingReply(context: Payload)
    | WritingPhase(context: Payload, verdict: Verdict) | AppendingOutcome(verdict: Verdict) | Settling(verdict: Verdict)
    | Stopped

  datatype Attempt = Attempt(key: Key, pc: Pc)

  datatype Intake = Intake(key: Key, payload: Payload, stage: IntakeStage)
  datatype IntakeStage = Started | Drafted | Over

  datatype Request = Request(tenant: string, ip: string, mac: string, ts: int)

  /** An operator-tool decision, with the version of the claim it was based on. */
  datatype Ruling = Ruling(key: Key, seqNo: nat, outcome: Phase)

  /** The agent's durable record: queue rows, and the checkpoint and claim writes around them. */
  datatype Entry =
    | DraftRow(key: Key, tenant: string, ip: string, mac: string)
    | ClaimedRow(key: Key, attempt: AttemptId)
    | PhaseWrite(key: Key, attempt: AttemptId, phase: Phase)
    | OutcomeRow(key: Key, attempt: AttemptId, verdict: Verdict)
    | ClaimSettled(key: Key, attempt: AttemptId, phase: Phase)

  /** What the clocks, the network and broker restarts are held to, in seconds. `window` is the replay
      window. On the broker's clock a request is first accepted at least `lag` after the timestamp
      the agent signed, and nothing is delivered later than `life` after it. A cache check may use a
      reading of the clock up to `slack` old, and a restarted broker serves no sooner than `gap`
      after the last acceptance. */
  datatype Timing = Timing(window: nat, lag: int, slack: nat, gap: nat, life: int)

  /** The broker: its clock, when the serving process started and with which handling, when it last
      accepted, its replay cache, the requests it accepted and the answers it signed. */
  datatype Broker = Broker(
    timing: Timing,
    now: int,
    started: int,
    since: nat,
    lastAccepted: Option<int>,
    seen: map<AttemptId, int>,
    handlings: seq<Handling>,
    responses: set<Response>)

  /** `wins` and `releases` are history: who won each claim, in order, and how often it was released. */
  datatype State = State(
    store: View,
    attempts: map<AttemptId, Attempt>,
    intakes: map<nat, Intake>,
    condemned: set<(DocId, nat)>,
    rulings: set<Ruling>,
    requests: map<AttemptId, Request>,
    broker: Broker,
    log: seq<Entry>,
    wins: map<Key, seq<AttemptId>>,
    releases: map<Key, nat>)

  function Init(timing: Timing, now: int): State {
    State(EMPTY_VIEW, map[], map[], {}, {}, map[], Broker(timing, now, now, 0, None, map[], [], {}), [], map[], map[])
  }

  function Wins(s: State, k: Key): seq<AttemptId> { if k in s.wins then s.wins[k] else [] }
  function Releases(s: State, k: Key): nat { if k in s.releases then s.releases[k] else 0 }

  /** One move of an approval attempt. */
  datatype Move =
    | CheckPhase(ok: bool)
    | CreateClaim(fault: Fault, stamp: int)
    | FetchClaim(ok: bool)
    | Reclaim(fault: Fault, stamp: int)
    | AppendClaimed(written: bool)
    | LoadContext(ok: bool)
    | Isolate(refused: bool, ts: int)
    | Receive(reply: Option<Response>)
    | WritePhase(fault: Fault, stamp: int)
    | AppendOutcome(written: bool)
    | Settle(fault: Fault)
    | Crash

  datatype Event =
    | StartApproval(a: AttemptId, key: Key)
    | Approval(a: AttemptId, move: Move)
    | StartIntake(i: nat, payload: Payload, bucket: string, fault: Fault, stamp: int)
    | DraftIntake(i: nat)
    | FinishIntake(i: nat, phase: Phase, fault: Fault, stamp: int)
    | OperatorDecides(key: Key, outcome: Phase)
    | OperatorWrites(ruling: Ruling, fault: Fault)
    | CompactorScans(cutoff: int)
    | CompactorDeletes(id: DocId, seqNo: nat)
    | Tick(now: int)
    | Accept(a: AttemptId, reading: int, stage: Stage)
    | Deny(status: int, check: Option<int>)      // turned away, or failed partway; after a cache check or before
    | BrokerRestarts
    | RouterTaskEnds(h: nat, i: nat, result: TaskResult)
    | Reply(h: nat)

  predicate At(s: State, a: AttemptId, pc: Pc) { a in s.attempts && s.attempts[a].pc == pc }

  predicate CanMove(s: State, a: AttemptId, m: Move) {
    a in s.attempts &&
    var pc := s.attempts[a].pc;
    match m
    case CheckPhase(_) => pc.CheckingPhase?
    case CreateClaim(_, _) => pc.Creating?
    case FetchClaim(_) => pc.Fetching?
    case Reclaim(_, _) => pc.Reclaiming?
    case AppendClaimed(_) => pc.AppendingClaimed?
    case LoadContext(_) => pc.LoadingContext?
    case Isolate(_, _) => pc.Isolating?
    case Receive(reply) => pc.AwaitingReply? && Deliverable(reply, s.broker.responses)
    case WritePhase(_, _) => pc.WritingPhase?
    case AppendOutcome(_) => pc.AppendingOutcome?
    case Settle(_) => pc.Settling?
    case Crash => true
  }

  predicate Enabled(s: State, e: Event) {
    match e
    case StartApproval(a, _) => a !in s.attempts
    case Approval(a, m) => CanMove(s, a, m)
    case StartIntake(i, _, bucket, _, _) => i !in s.intakes && BarFree(bucket)
    case DraftIntake(i) => i in s.intakes && s.intakes[i].stage == Started
    case FinishIntake(i, phase, _, _) =>
      && i in s.intakes
      && ((s.intakes[i].stage == Drafted && phase == PendingApproval)
          || (s.intakes[i].stage == Started && phase in {NoActionProtectedAsset, AutoIsolated, IsolationFailed}))
    case OperatorDecides(k, outcome) => Has(s.store, Claim(k), Claimed) && outcome in {Released, Resolved}
    case OperatorWrites(r, _) => r in s.rulings
    case CompactorScans(_) => true
    case CompactorDeletes(id, seqNo) => (id, seqNo) in s.condemned
    case Tick(now) => s.broker.now <= now
    case Accept(a, reading, stage) =>
      && a in s.requests && CouldRead(s.broker, reading)
      && InWindow(reading, s.requests[a].ts, s.broker.timing.window) && Unseen(s.broker.seen, a, reading)
      && (stage.Dispatching? ==> forall i | 0 <= i < |stage.tasks| :: stage.tasks[i].None?)
    case Deny(_, check) => check.Some? ==> CouldRead(s.broker, check.value)
    case BrokerRestarts => true
    case RouterTaskEnds(h, i, result) =>
      && h < |s.broker.handlings| && s.broker.handlings[h].stage.Dispatching? && i < |s.broker.handlings[h].stage.tasks|
      && s.broker.handlings[h].stage.tasks[i].None? && Sound(result)
    case Reply(h) => s.broker.since <= h < |s.broker.handlings| && Complete(s.broker.handlings[h])
  }

  /** The serving process may have read this off its clock. */
  predicate CouldRead(b: Broker, reading: int) { b.started <= reading <= b.now }

  // ---- effects ----

  function Goto(s: State, a: AttemptId, pc: Pc): State
    requires a in s.attempts
  {
    s.(attempts := s.attempts[a := s.attempts[a].(pc := pc)])
  }

  function Recorded(s: State, entry: Entry, written: bool): State {
    if written then s.(log := s.log + [entry]) else s
  }

  /** The write that claims the alert takes effect. */
  function Won(s: State, a: AttemptId, store: View): State
    requires a in s.attempts
  {
    var k := s.attempts[a].key;
    s.(store := store, wins := s.wins[k := Wins(s, k) + [a]])
  }

  function AfterWin(fault: Fault): Pc { if fault == NoFault then AppendingClaimed else Stopped }

  predicate CreateWins(s: State, k: Key, fault: Fault) { fault != Lost && Claim(k) !in s.store.docs }

  predicate ReclaimWins(s: State, k: Key, seqNo: nat, fault: Fault) {
    fault != Lost && Matches(s.store, Claim(k), seqNo)
  }

  predicate ContextLoads(s: State, k: Key) {
    Checkpoint(k) in s.store.docs && s.store.docs[Checkpoint(k)].context.Some?
    && SafeTenant(s.store.docs[Checkpoint(k)].context.value) == k.tenant
  }

  /** Refused before anything is sent: exclusion list, no usable address, no secret. */
  predicate NothingSent(p: Payload, refused: bool) { refused || !p.ipParses }

  function PhaseFor(v: Verdict): Phase { if v == Isolated then Executed else PendingApproval }

  function ClaimPhaseFor(v: Verdict): Phase { if v == Isolated then Resolved else Released }

  function CountRelease(s: State, k: Key, phase: Phase): State {
    if phase == Released && Claim(k) in s.store.docs then s.(releases := s.releases[k := Releases(s, k) + 1]) else s
  }

  /** Where the attempt goes. */
  function NextPc(s: State, a: AttemptId, m: Move): Pc
    requires CanMove(s, a, m)
  {
    var k, pc := s.attempts[a].key, s.attempts[a].pc;
    match m
    case CheckPhase(ok) => if ok && Has(s.store, Checkpoint(k), PendingApproval) then Creating else Stopped
    case CreateClaim(fault, _) =>
      if CreateWins(s, k, fault) then AfterWin(fault) else if fault == NoFault then Fetching else Stopped
    case FetchClaim(ok) =>
      if ok && Has(s.store, Claim(k), Released) then Reclaiming(s.store.docs[Claim(k)].seqNo) else Stopped
    case Reclaim(fault, _) => if ReclaimWins(s, k, pc.seqNo, fault) then AfterWin(fault) else Stopped
    case AppendClaimed(_) => LoadingContext
    case LoadContext(ok) =>
      if ok && ContextLoads(s, k) then Isolating(s.store.docs[Checkpoint(k)].context.value) else Stopped
    case Isolate(refused, _) =>
      if NothingSent(pc.context, refused) then WritingPhase(pc.context, NotDispatched) else AwaitingReply(pc.context)
    case Receive(reply) => WritingPhase(pc.context, Classify(reply, a))
    case WritePhase(_, _) => AppendingOutcome(pc.verdict)
    case AppendOutcome(_) => Settling(pc.verdict)
    case Settle(_) => Stopped
    case Crash => Stopped
  }

  /** What the move does to the store, the network and the record. The claim moves last of all,
      and an unknown outcome leaves it CLAIMED. */
  function Effect(s: State, a: AttemptId, m: Move): State
    requires CanMove(s, a, m)
  {
    var k, pc := s.attempts[a].key, s.attempts[a].pc;
    match m
    case CreateClaim(fault, stamp) =>
      if CreateWins(s, k, fault) then Won(s, a, Create(s.store, Claim(k), Claimed, stamp)) else s
    case Reclaim(fault, stamp) =>
      if ReclaimWins(s, k, pc.seqNo, fault) then Won(s, a, PutIf(s.store, Claim(k), Claimed, stamp, pc.seqNo)) else s
    case AppendClaimed(written) => Recorded(s, ClaimedRow(k, a), written)
    case Isolate(refused, ts) =>
      var p := pc.context;
      if NothingSent(p, refused) then s
      else s.(requests := s.requests[a := Request(SafeTenant(p), TargetIp(p), TargetMac(p), ts)])
    case WritePhase(fault, stamp) =>
      var phase := PhaseFor(pc.verdict);
      if fault == Lost then s
      else
        var t := s.(store := Put(s.store, Checkpoint(k), phase, Some(pc.context), stamp));
        Recorded(t, PhaseWrite(k, a, phase), true)
    case AppendOutcome(written) => Recorded(s, OutcomeRow(k, a, pc.verdict), written)
    case Settle(fault) =>
      var phase := ClaimPhaseFor(pc.verdict);
      if pc.verdict == OutcomeUnknown || fault == Lost then s
      else
        var t := CountRelease(s, k, phase).(store := Update(s.store, Claim(k), phase));
        Recorded(t, ClaimSettled(k, a, phase), true)
    case _ => s
  }

  function NextApproval(s: State, a: AttemptId, m: Move): State
    requires CanMove(s, a, m)
  {
    Goto(Effect(s, a, m), a, NextPc(s, a, m))
  }

  function NextStartIntake(s: State, i: nat, p: Payload, bucket: string, fault: Fault, stamp: int): State {
    var k := KeyOf(p, bucket);
    s.(intakes := s.intakes[i := Intake(k, p, Started)],
       store := if fault == Lost then s.store else Put(s.store, Checkpoint(k), Perceiving, Some(p), stamp))
  }

  function NextDraftIntake(s: State, i: nat): State
    requires i in s.intakes
  {
    var n := s.intakes[i];
    Recorded(s, DraftRow(n.key, SafeTenant(n.payload), TargetIp(n.payload), TargetMac(n.payload)), true)
      .(intakes := s.intakes[i := n.(stage := Drafted)])
  }

  function NextFinishIntake(s: State, i: nat, phase: Phase, fault: Fault, stamp: int): State
    requires i in s.intakes
  {
    var n := s.intakes[i];
    s.(intakes := s.intakes[i := n.(stage := Over)],
       store := if fault == Lost then s.store else Put(s.store, Checkpoint(n.key), phase, Some(n.payload), stamp))
  }

  function NextOperatorDecides(s: State, k: Key, outcome: Phase): State
    requires Claim(k) in s.store.docs
  {
    s.(rulings := s.rulings + {Ruling(k, s.store.docs[Claim(k)].seqNo, outcome)})
  }

  function NextOperatorWrites(s: State, r: Ruling, fault: Fault): State {
    if fault != Lost && Matches(s.store, Claim(r.key), r.seqNo)
    then CountRelease(s, r.key, r.outcome).(store := UpdateIf(s.store, Claim(r.key), r.outcome, r.seqNo))
    else s
  }

  function NextAccept(s: State, a: AttemptId, reading: int, stage: Stage): State {
    s.(broker := s.broker.(seen := Record(s.broker.seen, a, reading, s.broker.timing.window),
                           lastAccepted := Some(s.broker.now),
                           handlings := s.broker.handlings + [Handling(a, stage)]))
  }

  function NextDeny(s: State, status: int, check: Option<int>): State {
    s.(broker := s.broker.(seen := if check.Some? then Prune(s.broker.seen, check.value) else s.broker.seen,
                           responses := s.broker.responses + {Denial(status)}))
  }

  /** A new process with an empty cache; commands already sent may still land, but nobody answers
      for them any more. */
  function NextRestart(s: State): State {
    s.(broker := s.broker.(started := s.broker.now, since := |s.broker.handlings|, seen := map[]))
  }

  function NextTaskEnds(s: State, h: nat, i: nat, result: TaskResult): State
    requires h < |s.broker.handlings| && s.broker.handlings[h].stage.Dispatching?
    requires i < |s.broker.handlings[h].stage.tasks|
  {
    var g := s.broker.handlings[h];
    var stage := Dispatching(g.stage.tasks[i := Some(result)]);
    s.(broker := s.broker.(handlings := s.broker.handlings[h := g.(stage := stage)]))
  }

  function Next(s: State, e: Event): State
    requires Enabled(s, e)
  {
    match e
    case StartApproval(a, k) => s.(attempts := s.attempts[a := Attempt(k, CheckingPhase)])
    case Approval(a, m) => NextApproval(s, a, m)
    case StartIntake(i, p, bucket, fault, stamp) => NextStartIntake(s, i, p, bucket, fault, stamp)
    case DraftIntake(i) => NextDraftIntake(s, i)
    case FinishIntake(i, phase, fault, stamp) => NextFinishIntake(s, i, phase, fault, stamp)
    case OperatorDecides(k, outcome) => NextOperatorDecides(s, k, outcome)
    case OperatorWrites(r, fault) => NextOperatorWrites(s, r, fault)
    case CompactorScans(cutoff) => s.(condemned := s.condemned + Condemned(s.store, cutoff))
    case CompactorDeletes(id, seqNo) => s.(store := DeleteIf(s.store, id, seqNo))
    case Tick(now) => s.(broker := s.broker.(now := now))
    case Accept(a, reading, stage) => NextAccept(s, a, reading, stage)
    case Deny(status, check) => NextDeny(s, status, check)
    case BrokerRestarts => NextRestart(s)
    case RouterTaskEnds(h, i, result) => NextTaskEnds(s, h, i, result)
    case Reply(h) => s.(broker := s.broker.(responses := s.broker.responses + {ReplyTo(s.broker.handlings[h])}))
  }

  // ---- what the environment is held to ----

  predicate Handled(s: State, a: AttemptId) {
    exists h | 0 <= h < |s.broker.handlings| :: s.broker.handlings[h].requestId == a
  }

  /** The event keeps to the timing. */
  predicate Timely(s: State, e: Event) {
    var b := s.broker;
    match e
    case Accept(a, reading, _) =>
      && b.now - reading <= b.timing.slack
      && (a in s.requests ==>
            && b.now <= s.requests[a].ts + b.timing.life
            && (!Handled(s, a) ==> reading - s.requests[a].ts >= b.timing.lag))
    case Deny(_, check) => check.Some? ==> b.now - check.value <= b.timing.slack
    case BrokerRestarts => b.lastAccepted.Some? ==> b.now >= b.lastAccepted.value + b.timing.gap
    case _ => true
  }

  /** No reading is left at which a request with this timestamp could be accepted. */
  predicate TooLate(b: Broker, ts: int) {
    || b.now - b.timing.slack > ts + b.timing.window
    || b.started > ts + b.timing.window
    || b.now > ts + b.timing.life
  }

  /** It will be too late once this cache entry has expired, and once a restart has dropped it. */
  predicate Outlasts(b: Broker, expiry: int, ts: int) {
    && (expiry - b.timing.slack > ts + b.timing.window || expiry > ts + b.timing.life)
    && b.lastAccepted.Some?
    && var serving := b.lastAccepted.value + b.timing.gap;
       serving > ts + b.timing.window || serving > ts + b.timing.life
  }

  /** The broker can never accept this request again. */
  predicate Spent(s: State, a: AttemptId) {
    a in s.requests ==>
      || TooLate(s.broker, s.requests[a].ts)
      || (a in s.broker.seen && Outlasts(s.broker, s.broker.seen[a], s.requests[a].ts))
  }

  predicate PastSending(pc: Pc) { pc.WritingPhase? || pc.AppendingOutcome? || pc.Settling? || pc.Stopped? }

  /** Nothing of this attempt is on a router, and nothing can still get there. */
  ghost predicate Barren(s: State, a: AttemptId) {
    && a in s.attempts && PastSending(s.attempts[a].pc) && Spent(s, a)
    && forall h | 0 <= h < |s.broker.handlings| && s.broker.handlings[h].requestId == a ::
         LeftNothing(s.broker.handlings[h])
  }

  predicate LeftNothing(h: Handling) { Complete(h) && !Applied(h) }

  /** The operator tool is used only once the holder has stopped, and "released" only truthfully. */
  ghost predicate OperatorIsTruthful(s: State, e: Event) {
    e.OperatorDecides? && Wins(s, e.key) != [] ==>
      var holder := Wins(s, e.key)[|Wins(s, e.key)| - 1];
      At(s, holder, Stopped) && (e.outcome == Released ==> Barren(s, holder))
  }

  ghost predicate Run(s: State, events: seq<Event>)
    decreases |events|
  {
    events == [] ||
    (&& Enabled(s, events[0]) && Timely(s, events[0]) && OperatorIsTruthful(s, events[0])
     && Run(Next(s, events[0]), events[1..]))
  }

  ghost function Final(s: State, events: seq<Event>): State
    requires Run(s, events)
    decreases |events|
  {
    if events == [] then s else Final(Next(s, events[0]), events[1..])
  }

  /** Some router holds, or held, a block this attempt put there. */
  ghost predicate LeftABlock(s: State, a: AttemptId) {
    exists h | 0 <= h < |s.broker.handlings| :: s.broker.handlings[h].requestId == a && Applied(s.broker.handlings[h])
  }

  ghost predicate AtMostOneBlocks(s: State) {
    forall a, b | a in s.attempts && b in s.attempts && s.attempts[a].key == s.attempts[b].key
      && LeftABlock(s, a) && LeftABlock(s, b) :: a == b
  }
}
