/** The vanished-claims metric: a snapshot of open and resolved claims, compared one sample later
    with what is still there. Times are on one clock; searches and reads answer truthfully or fail. */
module VanishedClaims {
  import opened Types
  import opened DocumentStore
  import opened BrokerRpc
  import opened Containment
  import opened ContainmentClaims
  import opened ContainmentHistory
  import opened CompactorSimulation

  // ---- the comparison ----

  datatype Ref = Ref(index: string, id: string)

  /** An entry of the stored baseline: of the expected shape, or anything else. */
  datatype BaselineEntry = Listed(ref: Ref) | Misshapen

  datatype ReadResult = Found | NotFound | Errored

  /** The prior sample's search, and the multi-get over what it named. */
  datatype Lookup = Failed | Baseline(entries: seq<BaselineEntry>)
  datatype MultiGet = GetFailed | Answers(results: seq<ReadResult>)

  datatype MetricValue = Unavailable | Vanished(count: nat, refs: seq<Ref>)

  predicate StartsWith(s: string, prefix: string) { prefix <= s }
  predicate EndsWith(s: string, suffix: string) { |suffix| <= |s| && s[|s| - |suffix|..] == suffix }

  predicate OwnRef(r: Ref) { StartsWith(r.index, "agent-checkpoints-") && EndsWith(r.id, ".claim") }

  function Prior(entries: seq<BaselineEntry>): seq<Ref> {
    if entries == [] then []
    else if entries[0].Listed? && OwnRef(entries[0].ref) then [entries[0].ref] + Prior(entries[1..])
    else Prior(entries[1..])
  }

  function NotFoundAmong(prior: seq<Ref>, results: seq<ReadResult>): seq<Ref>
    requires |prior| == |results|
  {
    if prior == [] then []
    else if results[0] == NotFound then [prior[0]] + NotFoundAmong(prior[1..], results[1..])
    else NotFoundAmong(prior[1..], results[1..])
  }

  /** _vanished_claims_detail. */
  function Detail(lookup: Lookup, get: MultiGet): MetricValue {
    if lookup.Failed? then Unavailable
    else
      var prior := Prior(lookup.entries);
      if prior == [] then Vanished(0, [])
      else if get.GetFailed? || Errored in get.results || |get.results| != |prior| then Unavailable
      else Vanished(|NotFoundAmong(prior, get.results)|, NotFoundAmong(prior, get.results))
  }

  // ---- the snapshot ----

  /** A claim's place in the index of its tenant. */
  function RefOf(k: Key): Ref { Ref("agent-checkpoints-" + k.tenant, k.alertId + ".claim") }

  lemma RefsAreUnambiguous(k: Key, j: Key)
    ensures RefOf(k) == RefOf(j) ==> k == j
    ensures OwnRef(RefOf(k))
  {
    assert RefOf(k).index[..18] == "agent-checkpoints-";
    assert RefOf(k).index[18..] == k.tenant && RefOf(j).index[18..] == j.tenant;
    assert RefOf(k).id[..|RefOf(k).id| - 6] == k.alertId && RefOf(j).id[..|RefOf(j).id| - 6] == j.alertId;
    assert RefOf(k).id[|RefOf(k).id| - 6..] == ".claim";
  }

  /** A capped search for one phase: all claims of the phase, unless the cap is reached. */
  ghost predicate Search(hits: seq<Key>, s: State, phase: Phase, size: nat, oldestFirst: bool) {
    && |hits| <= size
    && (forall k | k in hits :: Has(s.store, Claim(k), phase))
    && (forall k, j | j in hits && Has(s.store, Claim(k), phase) && k !in hits ::
          |hits| == size && if oldestFirst then Stamp(s, j) <= Stamp(s, k) else Stamp(s, k) <= Stamp(s, j))
    && (hits == [] && size > 0 ==> forall k :: !Has(s.store, Claim(k), phase))
  }

  function Stamp(s: State, k: Key): int { if Claim(k) in s.store.docs then s.store.docs[Claim(k)].stamp else 0 }

  function Entries(claimed: seq<Key>, resolved: seq<Key>): seq<BaselineEntry> {
    seq(|claimed + resolved|, i requires 0 <= i < |claimed + resolved| => Listed(RefOf((claimed + resolved)[i])))
  }

  /** The multi-get answers in order, truthfully or with an error, for the state it reads. */
  ghost predicate Reads(get: MultiGet, prior: seq<Key>, s: State) {
    get.Answers? && |get.results| == |prior| ==>
      forall i | 0 <= i < |prior| && get.results[i] != Errored ::
        get.results[i] == Found <==> Claim(prior[i]) in s.store.docs
  }

  lemma {:induction false} PriorOfSnapshot(claimed: seq<Key>, resolved: seq<Key>)
    ensures |Prior(Entries(claimed, resolved))| == |claimed + resolved|
    ensures forall i | 0 <= i < |claimed + resolved| ::
      Prior(Entries(claimed, resolved))[i] == RefOf((claimed + resolved)[i])
  {
    var all := claimed + resolved;
    if all != [] {
      RefsAreUnambiguous(all[0], all[0]);
      if claimed != [] {
        PriorOfSnapshot(claimed[1..], resolved);
        assert all[1..] == claimed[1..] + resolved;
        assert Entries(claimed, resolved)[1..] == Entries(claimed[1..], resolved);
      } else {
        PriorOfSnapshot([], resolved[1..]);
        assert all[1..] == [] + resolved[1..];
        assert Entries(claimed, resolved)[1..] == Entries([], resolved[1..]);
      }
    }
  }

  lemma {:induction false} NotFoundHolds(prior: seq<Ref>, results: seq<ReadResult>, r: Ref)
    requires |prior| == |results|
    ensures r in NotFoundAmong(prior, results) <==>
      exists i :: 0 <= i < |prior| && prior[i] == r && results[i] == NotFound
  {
    if prior != [] {
      NotFoundHolds(prior[1..], results[1..], r);
      if r in NotFoundAmong(prior[1..], results[1..]) {
        var i :| 0 <= i < |prior| - 1 && prior[1..][i] == r && results[1..][i] == NotFound;
        assert prior[i + 1] == r && results[i + 1] == NotFound;
      }
      if i :| 0 < i < |prior| && prior[i] == r && results[i] == NotFound {
        assert prior[1..][i - 1] == r && results[1..][i - 1] == NotFound;
      }
    }
  }

  /** The metric answers exactly when it has nothing to look up or every lookup was answered. */
  lemma AnswersIff(claimed: seq<Key>, resolved: seq<Key>, get: MultiGet)
    ensures Detail(Baseline(Entries(claimed, resolved)), get).Vanished? <==>
      || claimed + resolved == []
      || (get.Answers? && |get.results| == |claimed + resolved| && Errored !in get.results)
    ensures Detail(Failed, get) == Unavailable
  {
    PriorOfSnapshot(claimed, resolved);
  }

  /** Of any stored baseline, the entries of the expected shape that name a claim of a checkpoint index count. */
  lemma {:induction false} PriorHolds(entries: seq<BaselineEntry>, r: Ref)
    ensures r in Prior(entries) <==>
      Listed(r) in entries && "agent-checkpoints-" <= r.index && |r.id| >= 6 && r.id[|r.id| - 6..] == ".claim"
  {
    if entries != [] {
      PriorHolds(entries[1..], r);
      assert entries == [entries[0]] + entries[1..];
    }
  }

  /** Whatever happened to the store: when the metric answers, a snapshotted claim is reported, under
      its own index and id, exactly when it is gone; nothing else is reported. */
  lemma ReportsExactlyTheGone(claimed: seq<Key>, resolved: seq<Key>, get: MultiGet, now: State)
    requires Reads(get, claimed + resolved, now)
    ensures var v := Detail(Baseline(Entries(claimed, resolved)), get);
      v.Vanished? ==>
        && v.count == |v.refs|
        && (forall k :: RefOf(k) in v.refs <==> k in claimed + resolved && Claim(k) !in now.store.docs)
        && (forall r | r in v.refs :: exists k :: k in claimed + resolved && r == RefOf(k))
  {
    var all := claimed + resolved;
    var prior := Prior(Entries(claimed, resolved));
    PriorOfSnapshot(claimed, resolved);
    if prior != [] && Detail(Baseline(Entries(claimed, resolved)), get).Vanished? {
      forall r
        ensures r in NotFoundAmong(prior, get.results) <==>
          exists i :: 0 <= i < |prior| && prior[i] == r && get.results[i] == NotFound
      {
        NotFoundHolds(prior, get.results, r);
      }
      forall k ensures RefOf(k) in NotFoundAmong(prior, get.results) <==> k in all && Claim(k) !in now.store.docs {
        if RefOf(k) in NotFoundAmong(prior, get.results) {
          var i :| 0 <= i < |prior| && prior[i] == RefOf(k) && get.results[i] == NotFound;
          RefsAreUnambiguous(k, all[i]);
        }
        if k in all && Claim(k) !in now.store.docs {
          var i :| 0 <= i < |all| && all[i] == k;
          assert get.results[i] == NotFound;
        }
      }
    }
  }

  // ---- no false alarm ----

  /** The compactor cannot touch this claim: it is young, and no pending deletion names its version. */
  ghost predicate Safe(s: State, k: Key, youngest: int) {
    && Claim(k) in s.store.docs && s.store.docs[Claim(k)].stamp >= youngest
    && (Claim(k), s.store.docs[Claim(k)].seqNo) !in s.condemned
  }

  /** A scan deletes nothing stamped at or after `youngest`, and claims are stamped no earlier. */
  predicate Dated(e: Event, youngest: int) {
    match e
    case CompactorScans(cutoff) => cutoff <= youngest
    case Approval(_, CreateClaim(_, stamp)) => stamp >= youngest
    case Approval(_, Reclaim(_, stamp)) => stamp >= youngest
    case _ => true
  }

  lemma ApprovalKeepsSafe(s: State, a: AttemptId, m: Move, k: Key, youngest: int)
    requires CondemnedOk(s) && CanMove(s, a, m) && Safe(s, k, youngest) && Dated(Approval(a, m), youngest)
    ensures Safe(NextApproval(s, a, m), k, youngest)
  {}

  lemma StepKeepsSafe(s: State, e: Event, k: Key, youngest: int)
    requires CondemnedOk(s) && Enabled(s, e) && Safe(s, k, youngest) && Dated(e, youngest)
    ensures Safe(Next(s, e), k, youngest)
  {
    if e.Approval? { ApprovalKeepsSafe(s, e.a, e.move, k, youngest); }
  }

  lemma {:induction false} RunKeepsSafe(s: State, events: seq<Event>, k: Key, youngest: int)
    requires ClaimInv(s) && Run(s, events) && Safe(s, k, youngest)
    requires forall e | e in events :: Dated(e, youngest)
    ensures Safe(Final(s, events), k, youngest)
    decreases |events|
  {
    if events != [] {
      StepOk(s, events[0]);
      StepKeepsSafe(s, events[0], k, youngest);
      RunKeepsSafe(Next(s, events[0]), events[1..], k, youngest);
    }
  }

  /** Taken at t0, compared within `window`: scans run with cutoff `now - retention`, and claims
      written meanwhile are no older than the snapshotted ones may be. */
  ghost predicate Sampled(events: seq<Event>, t0: int, retention: int, window: int) {
    forall e | e in events :: Dated(e, t0 + window - retention)
  }

  lemma NothingGone(claimed: seq<Key>, resolved: seq<Key>, get: MultiGet, now: State)
    requires Reads(get, claimed + resolved, now)
    requires (forall k | k in claimed :: Claim(k) in now.store.docs)
    requires (forall k | k in resolved :: Claim(k) in now.store.docs)
    ensures var v := Detail(Baseline(Entries(claimed, resolved)), get); v == Unavailable || v == Vanished(0, [])
  {
    ReportsExactlyTheGone(claimed, resolved, get, now);
    var v := Detail(Baseline(Entries(claimed, resolved)), get);
    if v.Vanished? {
      assert forall r :: r !in v.refs;
      FirstIsIn(v.refs);
    }
  }

  lemma FirstIsIn(refs: seq<Ref>)
    ensures refs != [] ==> refs[0] in refs
  {}

  lemma YoungClaimStays(s: State, between: seq<Event>, after: seq<Event>, k: Key, youngest: int)
    requires ClaimInv(s) && Run(s, between) && Run(Final(s, between), after)
    requires forall e | e in between :: Dated(e, youngest)
    requires forall e | e in after :: Dated(e, youngest)
    requires Has(s.store, Claim(k), Claimed) && Stamp(s, k) >= youngest
    ensures Claim(k) in Final(Final(s, between), after).store.docs
  {
    RunKeepsSafe(s, between, k, youngest);
    RunOk(s, between);
    RunKeepsSafe(Final(s, between), after, k, youngest);
  }

  lemma ResolvedStays(s: State, events: seq<Event>, k: Key)
    requires ClaimInv(s) && Run(s, events) && Has(s.store, Claim(k), Resolved)
    ensures Claim(k) in Final(s, events).store.docs
  {
    ShutClaimsAreNeverRewon(s, events, k);
  }

  /** If only the protocol's own transitions and the compactor act, and every claim snapshotted as
      CLAIMED is younger than the retention less the baseline window, the metric answers zero (or
      that it cannot answer), however old the RESOLVED ones are. The two searches of the snapshot
      may be apart in time. */
  lemma NoFalseAlarm(s: State, between: seq<Event>, after: seq<Event>,
                     claimed: seq<Key>, resolved: seq<Key>, get: MultiGet, t0: int, retention: int, window: int)
    requires ClaimInv(s) && Run(s, between) && Run(Final(s, between), after)
    requires Sampled(between, t0, retention, window) && Sampled(after, t0, retention, window)
    requires Search(claimed, s, Claimed, 200, true) && forall k | k in claimed :: Stamp(s, k) >= t0 + window - retention
    requires Search(resolved, Final(s, between), Resolved, 200, false)
    requires Reads(get, claimed + resolved, Final(Final(s, between), after))
    ensures var v := Detail(Baseline(Entries(claimed, resolved)), get); v == Unavailable || v == Vanished(0, [])
  {
    var t := Final(s, between);
    forall k | k in claimed ensures Claim(k) in Final(t, after).store.docs {
      YoungClaimStays(s, between, after, k, t0 + window - retention);
    }
    RunOk(s, between);
    forall k | k in resolved ensures Claim(k) in Final(t, after).store.docs { ResolvedStays(t, after, k); }
    NothingGone(claimed, resolved, get, Final(t, after));
  }

  lemma ScanAndDelete(s: State, k: Key, cutoff: int)
    requires Has(s.store, Claim(k), Released) && Stamp(s, k) < cutoff
    ensures var events := [CompactorScans(cutoff), CompactorDeletes(Claim(k), s.store.docs[Claim(k)].seqNo)];
      Run(s, events) && Claim(k) !in Final(s, events).store.docs
  {
    var e1, e2 := CompactorScans(cutoff), CompactorDeletes(Claim(k), s.store.docs[Claim(k)].seqNo);
    assert (Claim(k), e2.seqNo) in Condemned(s.store, cutoff);
    OneEventRun(Next(s, e1), e2);
    assert [e1, e2][1..] == [e2];
  }

  lemma SettleReleases(s: State, a: AttemptId, cutoff: int)
    requires ClaimInv(s) && a in s.attempts && s.attempts[a].pc == Settling(NotDispatched)
    requires Stamp(s, s.attempts[a].key) < cutoff
    ensures Has(s.store, Claim(s.attempts[a].key), Claimed) && CanMove(s, a, Settle(NoFault))
    ensures var k, t := s.attempts[a].key, NextApproval(s, a, Settle(NoFault));
      && Has(t.store, Claim(k), Released) && Stamp(t, k) < cutoff
      && t.store.docs[Claim(k)].seqNo == s.store.nextSeq
  {
    assert AttemptOk(s, a);
  }

  /** The age condition is needed: wherever an attempt is about to release an older claim, the
      protocol and the compactor alone make it vanish. */
  lemma OldClaimCanVanish(s: State, a: AttemptId, cutoff: int)
    requires ClaimInv(s) && a in s.attempts && s.attempts[a].pc == Settling(NotDispatched)
    requires Stamp(s, s.attempts[a].key) < cutoff
    ensures var k := s.attempts[a].key;
      var events := [Approval(a, Settle(NoFault)), CompactorScans(cutoff), CompactorDeletes(Claim(k), s.store.nextSeq)];
      Has(s.store, Claim(k), Claimed) && Run(s, events) && Claim(k) !in Final(s, events).store.docs
  {
    var k, e := s.attempts[a].key, Approval(a, Settle(NoFault));
    var rest := [CompactorScans(cutoff), CompactorDeletes(Claim(k), s.store.nextSeq)];
    SettleReleases(s, a, cutoff);
    ScanAndDelete(NextApproval(s, a, Settle(NoFault)), k, cutoff);
    assert ([e] + rest)[1..] == rest && [e] + rest == [e, rest[0], rest[1]];
  }
}
