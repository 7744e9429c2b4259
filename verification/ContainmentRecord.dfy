/** The agent's own record: attempts on one alert never interleave in it. */
module ContainmentRecord {
  import opened Types
  import opened DedupKey
  import opened DocumentStore
  import opened BrokerRpc
  import opened Containment
  import opened ContainmentClaims
  import opened ContainmentGate

  // ---- attempts are serialised in the record ----

  predicate ByAttempt(e: Entry) { !e.DraftRow? }

  /** The order in which one attempt writes: claimed row, phase, outcome row, and the claim last. */
  function Rank(e: Entry): nat {
    match e
    case DraftRow(_, _, _, _) => 0
    case ClaimedRow(_, _) => 0
    case PhaseWrite(_, _, _) => 1
    case OutcomeRow(_, _, _) => 2
    case ClaimSettled(_, _, _) => 3
  }

  /** The first rank an attempt has not written yet. */
  function Due(pc: Pc): nat {
    match pc
    case AppendingClaimed => 0
    case LoadingContext => 1
    case Isolating(_) => 1
    case AwaitingReply(_) => 1
    case WritingPhase(_, _) => 1
    case AppendingOutcome(_) => 2
    case Settling(_) => 3
    case Stopped => 4
    case _ => 0
  }

  /** An entry was written by a winner of its claim, who has moved past it. */
  ghost predicate EntryOk(s: State, e: Entry) {
    ByAttempt(e) ==>
      && e.attempt in s.attempts && s.attempts[e.attempt].key == e.key && e.attempt in Wins(s, e.key)
      && Rank(e) < Due(s.attempts[e.attempt].pc)
      && Truthful(s, e)
      && (Says(e).Some? && HasAnyVerdict(s.attempts[e.attempt].pc) ==>
            Says(e).value == (s.attempts[e.attempt].pc.verdict == Isolated))
  }

  predicate HasAnyVerdict(pc: Pc) { pc.WritingPhase? || pc.AppendingOutcome? || pc.Settling? }

  /** Whether an entry reports the attempt as executed, if it reports on that at all. */
  function Says(e: Entry): Option<bool> {
    match e
    case PhaseWrite(_, _, phase) => Some(phase == Executed)
    case OutcomeRow(_, _, verdict) => Some(verdict == Isolated)
    case ClaimSettled(_, _, phase) => Some(phase == Resolved)
    case _ => None
  }

  predicate Agree(d: Entry, e: Entry) { Says(d).Some? && Says(e).Some? ==> Says(d) == Says(e) }

  /** An entry that says the alert was executed is there only if the block is on a router; one that
      says the attempt is void, only if the broker handled its request and left nothing. */
  ghost predicate Truthful(s: State, e: Entry) {
    && (SaysExecuted(e) ==> LeftABlock(s, e.attempt))
    && (SaysVoid(e) ==> TurnedAway(s, e.attempt))
  }

  predicate SaysExecuted(e: Entry) {
    || (e.PhaseWrite? && e.phase == Executed)
    || (e.OutcomeRow? && e.verdict == Isolated)
    || (e.ClaimSettled? && e.phase == Resolved)
  }

  predicate SaysVoid(e: Entry) {
    (e.OutcomeRow? && e.verdict == NotDispatched) || (e.ClaimSettled? && e.phase == Released)
  }

  predicate WonBefore(s: State, k: Key, a: AttemptId, b: AttemptId) {
    exists i, j | 0 <= i < j < |Wins(s, k)| :: Wins(s, k)[i] == a && Wins(s, k)[j] == b
  }

  /** Two entries of one alert, in order: the same attempt in its own order, or an earlier winner
      before a later one. */
  predicate InOrder(s: State, d: Entry, e: Entry) {
    ByAttempt(d) && ByAttempt(e) && d.key == e.key ==>
      (d.attempt == e.attempt && Rank(d) < Rank(e) && Agree(d, e)) || WonBefore(s, d.key, d.attempt, e.attempt)
  }

  ghost predicate RecordOk(s: State) {
    && (forall i | 0 <= i < |s.log| :: EntryOk(s, s.log[i]))
    && (forall i, j | 0 <= i < j < |s.log| :: InOrder(s, s.log[i], s.log[j]))
  }

  /** A verdict is reached once, before anything is written about it. */
  predicate SameVerdict(pc: Pc, next: Pc) {
    HasAnyVerdict(next) ==> if HasAnyVerdict(pc) then next.verdict == pc.verdict else Due(pc) <= 1
  }

  /** What a step must keep for old entries to stay in order. */
  ghost predicate Extends(s: State, t: State) {
    && (forall k :: |Wins(s, k)| <= |Wins(t, k)| && Wins(t, k)[..|Wins(s, k)|] == Wins(s, k))
    && (forall a | a in s.attempts :: a in t.attempts && t.attempts[a].key == s.attempts[a].key
          && Due(s.attempts[a].pc) <= Due(t.attempts[a].pc) && SameVerdict(s.attempts[a].pc, t.attempts[a].pc))
  }

  lemma EntriesStay(s: State, t: State, e: Entry)
    requires EntryOk(s, e) && Extends(s, t) && Evolves(s, t)
    ensures EntryOk(t, e)
  {
    if ByAttempt(e) {
      assert e.attempt in Wins(t, e.key) by {
        var i :| 0 <= i < |Wins(s, e.key)| && Wins(s, e.key)[i] == e.attempt;
        assert Wins(t, e.key)[..|Wins(s, e.key)|][i] == e.attempt;
      }
      if LeftABlock(s, e.attempt) { BlocksStay(s, t, e.attempt); }
      if SaysVoid(e) { TurnedAwayStays(s, t, e.attempt); }
    }
  }

  lemma OrderStays(s: State, t: State, d: Entry, e: Entry)
    requires InOrder(s, d, e) && Extends(s, t)
    ensures InOrder(t, d, e)
  {
    if ByAttempt(d) && ByAttempt(e) && d.key == e.key && WonBefore(s, d.key, d.attempt, e.attempt) {
      var w, x := Wins(s, d.key), Wins(t, d.key);
      var i, j :| 0 <= i < j < |w| && w[i] == d.attempt && w[j] == e.attempt;
      assert x[..|w|][i] == d.attempt && x[..|w|][j] == e.attempt;
    }
  }

  /** A new entry reports the verdict the attempt has reached. */
  predicate Reports(pc: Pc, e: Entry) {
    Says(e).Some? ==> HasAnyVerdict(pc) && Says(e).value == (pc.verdict == Isolated)
  }

  /** A holder's new entry comes after everything already recorded. */
  lemma HolderComesLast(s: State, d: Entry, e: Entry)
    requires EntryOk(s, d) && ByAttempt(e) && IsHolder(s, e.key, e.attempt) && e.attempt in s.attempts
    requires Due(s.attempts[e.attempt].pc) <= Rank(e) && Reports(s.attempts[e.attempt].pc, e)
    ensures InOrder(s, d, e)
  {
    if ByAttempt(d) && d.key == e.key && d.attempt != e.attempt {
      var w := Wins(s, e.key);
      var i :| 0 <= i < |w| && w[i] == d.attempt;
      assert i < |w| - 1;
    }
  }

  lemma LogStays(s: State, t: State)
    requires RecordOk(s) && Extends(s, t) && Evolves(s, t) && t.log == s.log
    ensures RecordOk(t)
  {
    forall i | 0 <= i < |t.log| ensures EntryOk(t, t.log[i]) { EntriesStay(s, t, s.log[i]); }
    forall i, j | 0 <= i < j < |t.log| ensures InOrder(t, t.log[i], t.log[j]) { OrderStays(s, t, s.log[i], s.log[j]); }
  }

  lemma LogGrows(s: State, t: State, e: Entry)
    requires RecordOk(s) && Extends(s, t) && Evolves(s, t) && t.log == s.log + [e] && EntryOk(t, e)
    requires ByAttempt(e) ==>
      && IsHolder(s, e.key, e.attempt)
      && e.attempt in s.attempts
      && Due(s.attempts[e.attempt].pc) <= Rank(e)
      && Reports(s.attempts[e.attempt].pc, e)
    ensures RecordOk(t)
  {
    forall i | 0 <= i < |t.log| ensures EntryOk(t, t.log[i]) {
      if i < |s.log| { EntriesStay(s, t, s.log[i]); }
    }
    forall i, j | 0 <= i < j < |t.log| ensures InOrder(t, t.log[i], t.log[j]) {
      if j < |s.log| { OrderStays(s, t, s.log[i], s.log[j]); }
      else if ByAttempt(e) { HolderComesLast(s, s.log[i], e); OrderStays(s, t, s.log[i], e); }
    }
  }

  // ---- every step ----

  lemma MoveAdvances(s: State, a: AttemptId, m: Move)
    requires CanMove(s, a, m)
    ensures Due(s.attempts[a].pc) <= Due(NextPc(s, a, m)) && SameVerdict(s.attempts[a].pc, NextPc(s, a, m))
  {}

  lemma GotoExtends(s: State, u: State, a: AttemptId, pc: Pc)
    requires a in s.attempts && u.attempts == s.attempts && Due(s.attempts[a].pc) <= Due(pc)
    requires SameVerdict(s.attempts[a].pc, pc)
    requires u.wins == s.wins || u.wins == s.wins[s.attempts[a].key := Wins(s, s.attempts[a].key) + [a]]
    ensures Extends(s, Goto(u, a, pc))
  {}

  lemma MoveExtends(s: State, a: AttemptId, m: Move)
    requires CanMove(s, a, m)
    ensures Extends(s, NextApproval(s, a, m))
  {
    EffectIsLocal(s, a, m);
    MoveAdvances(s, a, m);
    GotoExtends(s, Effect(s, a, m), a, NextPc(s, a, m));
  }

  /** Every event that is not an attempt's move keeps attempts and wins as they are. */
  lemma OtherEventExtends(s: State, e: Event)
    requires Enabled(s, e) && !e.Approval?
    ensures Extends(s, Next(s, e))
  {}

  /** What a move adds to the record: at most the attempt's own next entry. */
  function Written(s: State, a: AttemptId, m: Move): seq<Entry>
    requires CanMove(s, a, m)
  {
    var k, pc := s.attempts[a].key, s.attempts[a].pc;
    match m
    case AppendClaimed(written) => if written then [ClaimedRow(k, a)] else []
    case WritePhase(fault, _) => if fault == Lost then [] else [PhaseWrite(k, a, PhaseFor(pc.verdict))]
    case AppendOutcome(written) => if written then [OutcomeRow(k, a, pc.verdict)] else []
    case Settle(fault) =>
      if pc.verdict == OutcomeUnknown || fault == Lost then [] else [ClaimSettled(k, a, ClaimPhaseFor(pc.verdict))]
    case _ => []
  }

  lemma MoveWrites(s: State, a: AttemptId, m: Move)
    requires CanMove(s, a, m)
    ensures Effect(s, a, m).log == s.log + Written(s, a, m)
  {
    assert s.log == s.log + [];
  }

  lemma WrittenIsDue(s: State, a: AttemptId, m: Move)
    requires CanMove(s, a, m) && AttemptOk(s, a) && Written(s, a, m) != []
    ensures var e := Written(s, a, m)[0];
      && Written(s, a, m) == [e] && ByAttempt(e)
      && e.attempt == a && e.key == s.attempts[a].key && IsHolder(s, e.key, a)
      && Rank(e) == Due(s.attempts[a].pc) && Rank(e) < Due(NextPc(s, a, m))
      && Truthful(s, e) && Reports(s.attempts[a].pc, e)
  {}

  lemma MoveKeepsRecord(s: State, a: AttemptId, m: Move)
    requires CanMove(s, a, m) && AttemptOk(s, a) && RecordOk(s)
    ensures RecordOk(NextApproval(s, a, m))
  {
    var t := NextApproval(s, a, m);
    MoveEvolves(s, a, m);
    MoveExtends(s, a, m);
    MoveWrites(s, a, m);
    if Written(s, a, m) == [] {
      assert s.log + [] == s.log;
      LogStays(s, t);
    } else {
      WrittenIsDue(s, a, m);
      NewEntryOk(s, t, Written(s, a, m)[0], a);
      LogGrows(s, t, Written(s, a, m)[0]);
    }
  }

  lemma NewEntryOk(s: State, t: State, e: Entry, a: AttemptId)
    requires ByAttempt(e) && e.attempt == a && a in s.attempts && e.key == s.attempts[a].key && IsHolder(s, e.key, a)
    requires Evolves(s, t) && Extends(s, t) && Rank(e) < Due(t.attempts[a].pc)
    requires Truthful(s, e) && Reports(s.attempts[a].pc, e)
    ensures EntryOk(t, e)
  {
    assert Wins(t, e.key)[..|Wins(s, e.key)|][|Wins(s, e.key)| - 1] == a;
    if LeftABlock(s, a) { BlocksStay(s, t, a); }
  }

  lemma StepKeepsRecord(s: State, e: Event)
    requires ClaimInv(s) && RecordOk(s) && Enabled(s, e)
    ensures RecordOk(Next(s, e))
  {
    if e.Approval? {
      assert AttemptOk(s, e.a);
      MoveKeepsRecord(s, e.a, e.move);
    } else {
      OtherEventEvolves(s, e);
      OtherEventExtends(s, e);
      if e.DraftIntake? {
        var n := s.intakes[e.i];
        LogGrows(s, Next(s, e), DraftRow(n.key, SafeTenant(n.payload), TargetIp(n.payload), TargetMac(n.payload)));
      } else {
        LogStays(s, Next(s, e));
      }
    }
  }

  lemma {:induction false} RunKeepsRecord(s: State, events: seq<Event>)
    requires ClaimInv(s) && RecordOk(s) && Run(s, events)
    ensures ClaimInv(Final(s, events)) && RecordOk(Final(s, events))
    decreases |events|
  {
    if events != [] {
      StepOk(s, events[0]);
      StepKeepsRecord(s, events[0]);
      RunKeepsRecord(Next(s, events[0]), events[1..]);
    }
  }

  /** Between two entries of one attempt on an alert no other attempt writes. */
  ghost predicate Contiguous(log: seq<Entry>) {
    forall i, j, m |
      0 <= i < j < m < |log| && OneAlert(log[i], log[j]) && OneAlert(log[i], log[m]) && log[i].attempt == log[m].attempt
      :: log[j].attempt == log[i].attempt
  }

  predicate OneAlert(d: Entry, e: Entry) { ByAttempt(d) && ByAttempt(e) && d.key == e.key }

  /** An attempt writes its entries in order, with the claim's own move last. */
  ghost predicate Ranked(log: seq<Entry>) {
    forall i, j | 0 <= i < j < |log| && OneAlert(log[i], log[j]) && log[i].attempt == log[j].attempt ::
      Rank(log[i]) < Rank(log[j])
  }

  /** Phase, queue row and claim tell one story. */
  ghost predicate OneStory(log: seq<Entry>) {
    forall i, j | 0 <= i < j < |log| && OneAlert(log[i], log[j]) && log[i].attempt == log[j].attempt ::
      Agree(log[i], log[j])
  }

  ghost predicate RecordIsTrue(s: State) { forall i | 0 <= i < |s.log| :: Truthful(s, s.log[i]) }

  lemma RanksRise(s: State, i: nat, j: nat)
    requires ClaimInv(s) && RecordOk(s) && i < j < |s.log| && OneAlert(s.log[i], s.log[j])
    requires s.log[i].attempt == s.log[j].attempt
    ensures Rank(s.log[i]) < Rank(s.log[j]) && Agree(s.log[i], s.log[j])
  {
    NoSelfPrecedence(s, s.log[i].key, s.log[i].attempt, s.log[j].attempt);
    assert InOrder(s, s.log[i], s.log[j]);
  }

  lemma NoneBetween(s: State, i: nat, j: nat, m: nat)
    requires ClaimInv(s) && RecordOk(s) && i < j < m < |s.log| && OneAlert(s.log[i], s.log[j])
    requires OneAlert(s.log[i], s.log[m])
    requires s.log[i].attempt == s.log[m].attempt
    ensures s.log[j].attempt == s.log[i].attempt
  {
    NoSelfPrecedence(s, s.log[i].key, s.log[i].attempt, s.log[j].attempt);
    assert InOrder(s, s.log[i], s.log[j]) && InOrder(s, s.log[j], s.log[m]);
  }

  lemma RecordIsSerial(s: State)
    requires ClaimInv(s) && RecordOk(s)
    ensures Contiguous(s.log) && Ranked(s.log) && OneStory(s.log) && RecordIsTrue(s)
  {
    var log := s.log;
    forall i, j | 0 <= i < j < |log| && OneAlert(log[i], log[j]) && log[i].attempt == log[j].attempt
      ensures Rank(log[i]) < Rank(log[j]) && Agree(log[i], log[j])
    {
      RanksRise(s, i, j);
    }
    forall i, j, m | 0 <= i < j < m < |log| && OneAlert(log[i], log[j]) && OneAlert(log[i], log[m])
                     && log[i].attempt == log[m].attempt
      ensures log[j].attempt == log[i].attempt
    {
      NoneBetween(s, i, j, m);
    }
    forall i | 0 <= i < |log| ensures Truthful(s, log[i]) { assert EntryOk(s, log[i]); }
  }

  /** In every run: between two entries of one attempt on an alert no other attempt writes, an
      attempt writes its entries in order with the claim's own move last, its phase, its queue row
      and its claim agree, and what they say about success or failure is true. */
  lemma AttemptsAreSerialised(timing: Timing, now: int, events: seq<Event>)
    requires Run(Init(timing, now), events)
    ensures
      var s := Final(Init(timing, now), events);
      Contiguous(s.log) && Ranked(s.log) && OneStory(s.log) && RecordIsTrue(s)
  {
    InitOk(timing, now);
    RunKeepsRecord(Init(timing, now), events);
    RecordIsSerial(Final(Init(timing, now), events));
  }

  ghost predicate AllVoidsBarren(s: State) { forall e | e in s.log && SaysVoid(e) :: Barren(s, e.attempt) }

  /** In a tight timing, moreover, an attempt recorded as failed or released never has a block on a
      router, then or later. */
  lemma VoidIsBarren(timing: Timing, now: int, events: seq<Event>)
    requires Tight(timing) && Run(Init(timing, now), events)
    ensures AllVoidsBarren(Final(Init(timing, now), events))
  {
    InitOk(timing, now);
    GateStartsShut(timing, now);
    RunKeepsGate(Init(timing, now), events);
    RunKeepsRecord(Init(timing, now), events);
    var s := Final(Init(timing, now), events);
    forall e | e in s.log && SaysVoid(e) ensures Barren(s, e.attempt) {
      assert EntryOk(s, e);
      TurnedAwayIsBarren(s, e.attempt);
    }
  }

  /** Winning order is strict. */
  lemma NoSelfPrecedence(s: State, k: Key, a: AttemptId, b: AttemptId)
    requires ClaimInv(s)
    ensures !(WonBefore(s, k, a, b) && WonBefore(s, k, b, a))
  {
    assert WinnersOk(s, k);
  }
}
