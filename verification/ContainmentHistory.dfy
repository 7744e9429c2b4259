/** What the claim's history always satisfies: exclusion, conservation, and claims that stay closed. */
module ContainmentHistory {
  import opened Types
  import opened DocumentStore
  import opened Containment
  import opened ContainmentClaims

  /** The events that can write or delete a claim document. */
  predicate TouchesClaims(e: Event) {
    || (e.Approval? && (e.move.CreateClaim? || e.move.Reclaim? || e.move.Settle?))
    || e.OperatorWrites? || e.CompactorDeletes?
  }

  ghost predicate Keeps(s: State, t: State, k: Key) { SameClaim(s, t, k) && Releases(t, k) == Releases(s, k) }

  lemma OtherMovesKeepClaims(s: State, a: AttemptId, m: Move, k: Key)
    requires CanMove(s, a, m) && !m.CreateClaim? && !m.Reclaim? && !m.Settle?
    ensures Keeps(s, NextApproval(s, a, m), k)
  {
    if m.WritePhase? { WritePhaseKeepsClaims(s, a, m, k); } else { QuietMoveKeepsClaims(s, a, m, k); }
  }

  lemma WritePhaseKeepsClaims(s: State, a: AttemptId, m: Move, k: Key)
    requires CanMove(s, a, m) && m.WritePhase?
    ensures Keeps(s, NextApproval(s, a, m), k)
  {}

  lemma QuietMoveKeepsClaims(s: State, a: AttemptId, m: Move, k: Key)
    requires CanMove(s, a, m) && !m.CreateClaim? && !m.Reclaim? && !m.Settle? && !m.WritePhase?
    ensures Keeps(s, NextApproval(s, a, m), k)
  {}

  lemma OtherEventsKeepClaims(s: State, e: Event, k: Key)
    requires Enabled(s, e) && !TouchesClaims(e)
    ensures Keeps(s, Next(s, e), k)
  {
    if e.Approval? { OtherMovesKeepClaims(s, e.a, e.move, k); }
  }

  lemma StoppedStaysStopped(s: State, e: Event, a: AttemptId)
    requires Enabled(s, e) && At(s, a, Stopped)
    ensures At(Next(s, e), a, Stopped)
  {
    if e.Approval? {
      EffectIsLocal(s, e.a, e.move);
      MoveProgresses(s, e.a, e.move);
    }
  }

  /** A claim's winners change only together with its document's version. */
  lemma WinsComeWithAVersion(s: State, e: Event, k: Key)
    requires Enabled(s, e)
    ensures StoreGrows(s.store, Next(s, e).store)
    ensures Wins(Next(s, e), k) == Wins(s, k)
      || (Claim(k) in Next(s, e).store.docs && Next(s, e).store.docs[Claim(k)].seqNo >= s.store.nextSeq)
  {
    if e.Approval? { MoveVersionsWins(s, e.a, e.move, k); }
  }

  lemma MoveVersionsWins(s: State, a: AttemptId, m: Move, k: Key)
    requires CanMove(s, a, m)
    ensures var t := NextApproval(s, a, m);
      && StoreGrows(s.store, t.store)
      && (Wins(t, k) == Wins(s, k) || (Claim(k) in t.store.docs && t.store.docs[Claim(k)].seqNo >= s.store.nextSeq))
  {
    if m.CreateClaim? || m.Reclaim? { RaceVersionsWins(s, a, m, k); }
    else { RestIsLocal(s, a, m); MoveGrowsStore(s, a, m); }
  }

  lemma MoveGrowsStore(s: State, a: AttemptId, m: Move)
    requires CanMove(s, a, m) && !m.CreateClaim? && !m.Reclaim?
    ensures StoreGrows(s.store, Effect(s, a, m).store)
  {}

  lemma RaceVersionsWins(s: State, a: AttemptId, m: Move, k: Key)
    requires CanMove(s, a, m) && (m.CreateClaim? || m.Reclaim?)
    ensures var t := NextApproval(s, a, m);
      && StoreGrows(s.store, t.store)
      && (Wins(t, k) == Wins(s, k) || (Claim(k) in t.store.docs && t.store.docs[Claim(k)].seqNo >= s.store.nextSeq))
  {}

  // ---- exclusion ----

  /** In every reachable state at most one live attempt holds a given claim, and then it is CLAIMED. */
  lemma AtMostOneHolder(timing: Timing, now: int, events: seq<Event>, a: AttemptId, b: AttemptId)
    requires Run(Init(timing, now), events)
    requires var s := Final(Init(timing, now), events);
      && a in s.attempts && b in s.attempts && s.attempts[a].key == s.attempts[b].key
      && Holding(s.attempts[a].pc) && Holding(s.attempts[b].pc)
    ensures var s := Final(Init(timing, now), events); a == b && Has(s.store, Claim(s.attempts[a].key), Claimed)
  {
    InitOk(timing, now);
    RunOk(Init(timing, now), events);
    var s := Final(Init(timing, now), events);
    assert AttemptOk(s, a) && AttemptOk(s, b);
  }

  // ---- conservation ----

  /** Wins are conserved: each one beyond the releases is a claim that still stands. */
  predicate ConservedAt(s: State, k: Key) { |Wins(s, k)| == Releases(s, k) + if Standing(s, k) then 1 else 0 }

  ghost predicate Conserved(s: State) { forall k :: ConservedAt(s, k) }

  lemma OtherClaimsKept(s: State, a: AttemptId, m: Move, k: Key)
    requires CanMove(s, a, m) && (m.CreateClaim? || m.Reclaim? || m.Settle?) && k != s.attempts[a].key
    ensures Keeps(s, NextApproval(s, a, m), k)
  {
    if m.CreateClaim? { CreateKeepsOthers(s, a, m, k); }
    else if m.Reclaim? { ReclaimKeepsOthers(s, a, m, k); }
    else { SettleKeepsOthers(s, a, m, k); }
  }

  lemma CreateKeepsOthers(s: State, a: AttemptId, m: Move, k: Key)
    requires CanMove(s, a, m) && m.CreateClaim? && k != s.attempts[a].key
    ensures Keeps(s, NextApproval(s, a, m), k)
  {}

  lemma ReclaimKeepsOthers(s: State, a: AttemptId, m: Move, k: Key)
    requires CanMove(s, a, m) && m.Reclaim? && k != s.attempts[a].key
    ensures Keeps(s, NextApproval(s, a, m), k)
  {}

  lemma SettleKeepsOthers(s: State, a: AttemptId, m: Move, k: Key)
    requires CanMove(s, a, m) && m.Settle? && k != s.attempts[a].key
    ensures Keeps(s, NextApproval(s, a, m), k)
  {}

  lemma RaceConserves(s: State, a: AttemptId, m: Move)
    requires CanMove(s, a, m) && (m.CreateClaim? || m.Reclaim?)
    requires AttemptOk(s, a) && ConservedAt(s, s.attempts[a].key)
    ensures ConservedAt(NextApproval(s, a, m), s.attempts[a].key)
  {
    assert Wins(Won(s, a, s.store), s.attempts[a].key) == Wins(s, s.attempts[a].key) + [a];
  }

  lemma SettleConserves(s: State, a: AttemptId, m: Move)
    requires CanMove(s, a, m) && m.Settle? && AttemptOk(s, a) && ConservedAt(s, s.attempts[a].key)
    ensures ConservedAt(NextApproval(s, a, m), s.attempts[a].key)
  {}

  lemma ApprovalConserves(s: State, a: AttemptId, m: Move, k: Key)
    requires CanMove(s, a, m) && (m.CreateClaim? || m.Reclaim? || m.Settle?)
    requires AttemptOk(s, a) && ConservedAt(s, k)
    ensures ConservedAt(NextApproval(s, a, m), k)
  {
    if k != s.attempts[a].key { OtherClaimsKept(s, a, m, k); }
    else if m.Settle? { SettleConserves(s, a, m); }
    else { RaceConserves(s, a, m); }
  }

  lemma OperatorConserves(s: State, r: Ruling, fault: Fault, k: Key)
    requires RulingOk(s, r) && ConservedAt(s, k)
    ensures ConservedAt(NextOperatorWrites(s, r, fault), k)
  {
    if k != r.key { assert Keeps(s, NextOperatorWrites(s, r, fault), k); }
  }

  /** Each event keeps the balance: wins are releases, plus one when the claim still stands. */
  lemma StepConserves(s: State, e: Event)
    requires ClaimInv(s) && Enabled(s, e) && Conserved(s)
    ensures Conserved(Next(s, e))
  {
    forall k ensures ConservedAt(Next(s, e), k) {
      assert ConservedAt(s, k);
      if !TouchesClaims(e) {
        OtherEventsKeepClaims(s, e, k);
      } else if e.Approval? {
        assert AttemptOk(s, e.a);
        ApprovalConserves(s, e.a, e.move, k);
      } else if e.OperatorWrites? {
        assert RulingOk(s, e.ruling);
        OperatorConserves(s, e.ruling, e.fault, k);
      }
    }
  }

  lemma {:induction false} WinsAreConserved(s: State, events: seq<Event>)
    requires ClaimInv(s) && Conserved(s) && Run(s, events)
    ensures Conserved(Final(s, events)) && ClaimInv(Final(s, events))
    decreases |events|
  {
    if events != [] {
      StepOk(s, events[0]);
      StepConserves(s, events[0]);
      WinsAreConserved(Next(s, events[0]), events[1..]);
    }
  }

  /** In every run the wins of a claim never exceed its releases by more than one. */
  lemma WinsNeverExceedReleasesPlusOne(timing: Timing, now: int, events: seq<Event>, k: Key)
    requires Run(Init(timing, now), events)
    ensures var s := Final(Init(timing, now), events);
      Releases(s, k) <= |Wins(s, k)| <= Releases(s, k) + 1
  {
    InitOk(timing, now);
    WinsAreConserved(Init(timing, now), events);
    assert ConservedAt(Final(Init(timing, now), events), k);
  }

  // ---- closed claims stay closed ----

  /** Nobody can win this claim: it is RESOLVED, or CLAIMED by an attempt that has stopped. */
  ghost predicate Shut(s: State, k: Key) {
    && Wins(s, k) != []
    && (|| Has(s.store, Claim(k), Resolved)
        || (Has(s.store, Claim(k), Claimed) && At(s, Wins(s, k)[|Wins(s, k)| - 1], Stopped)))
  }

  predicate OperatorReleases(e: Event, k: Key) {
    e.OperatorWrites? && e.ruling.key == k && e.ruling.outcome == Released
  }

  lemma ApprovalKeepsShut(s: State, a: AttemptId, m: Move, k: Key)
    requires CanMove(s, a, m) && (m.CreateClaim? || m.Reclaim? || m.Settle?)
    requires AttemptOk(s, a) && Shut(s, k)
    ensures Keeps(s, NextApproval(s, a, m), k)
  {
    if k != s.attempts[a].key {
      OtherClaimsKept(s, a, m, k);
    } else {
      assert Claim(k) in s.store.docs && !Has(s.store, Claim(k), Released);
      assert !m.Settle?;
      assert Effect(s, a, m) == s;
    }
  }

  /** An operator move keeps a claim shut unless it truthfully releases a CLAIMED one. */
  lemma OperatorKeepsShut(s: State, r: Ruling, fault: Fault, k: Key)
    requires RulingOk(s, r) && Shut(s, k)
    requires Has(s.store, Claim(k), Resolved) || r.key != k || r.outcome != Released
    ensures var t := NextOperatorWrites(s, r, fault);
      Shut(t, k) && Wins(t, k) == Wins(s, k) && (Has(s.store, Claim(k), Resolved) ==> Has(t.store, Claim(k), Resolved))
  {}

  lemma DeleteKeepsShut(s: State, id: DocId, seqNo: nat, k: Key)
    requires CondemnedOk(s) && (id, seqNo) in s.condemned && Shut(s, k)
    ensures Keeps(s, s.(store := DeleteIf(s.store, id, seqNo)), k)
  {}

  lemma StepKeepsShut(s: State, e: Event, k: Key)
    requires CondemnedOk(s) && (e.Approval? && e.a in s.attempts ==> AttemptOk(s, e.a))
    requires e.OperatorWrites? ==> RulingOk(s, e.ruling)
    requires Enabled(s, e) && Shut(s, k)
    requires Has(s.store, Claim(k), Resolved) || !OperatorReleases(e, k)
    ensures Shut(Next(s, e), k) && Wins(Next(s, e), k) == Wins(s, k)
    ensures Has(s.store, Claim(k), Resolved) ==> Has(Next(s, e).store, Claim(k), Resolved)
  {
    if e.OperatorWrites? {
      OperatorKeepsShut(s, e.ruling, e.fault, k);
    } else {
      var holder := Wins(s, k)[|Wins(s, k)| - 1];
      if At(s, holder, Stopped) { StoppedStaysStopped(s, e, holder); }
      EventKeepsShutClaim(s, e, k);
    }
  }

  lemma EventKeepsShutClaim(s: State, e: Event, k: Key)
    requires CondemnedOk(s) && (e.Approval? && e.a in s.attempts ==> AttemptOk(s, e.a)) && Enabled(s, e) && Shut(s, k)
    requires !e.OperatorWrites?
    ensures Keeps(s, Next(s, e), k)
  {
    if !TouchesClaims(e) {
      OtherEventsKeepClaims(s, e, k);
    } else if e.Approval? {
      ApprovalKeepsShut(s, e.a, e.move, k);
    } else {
      DeleteKeepsShut(s, e.id, e.seqNo, k);
    }
  }

  ghost predicate NeverReleased(events: seq<Event>, k: Key) {
    forall i | 0 <= i < |events| :: !OperatorReleases(events[i], k)
  }

  /** A claim left CLAIMED by a crash or an unknown outcome is never won again unless an operator
      releases it; a RESOLVED claim is never won again, whatever the operator decided earlier. */
  lemma {:induction false} ShutClaimsAreNeverRewon(s: State, events: seq<Event>, k: Key)
    requires ClaimInv(s) && Run(s, events) && Shut(s, k)
    requires Has(s.store, Claim(k), Resolved) || NeverReleased(events, k)
    ensures Shut(Final(s, events), k) && Wins(Final(s, events), k) == Wins(s, k)
    decreases |events|
  {
    if events != [] {
      var e := events[0];
      StepOk(s, e);
      StepKeepsShut(s, e, k);
      assert NeverReleased(events, k) ==> NeverReleased(events[1..], k);
      ShutClaimsAreNeverRewon(Next(s, events[0]), events[1..], k);
    }
  }
}
