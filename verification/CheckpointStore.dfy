/** The store calls themselves, in place, each under interference: between any two calls of a method
    other actors may have written anything. Only the compactor may delete. */
module CheckpointStore {
  import opened Types
  import opened DedupKey
  import opened DocumentStore

  /** A write by some other actor. */
  datatype Write =
    | Index(id: DocId, phase: Phase, context: Option<Payload>, stamp: int)
    | Partial(id: DocId, phase: Phase)

  function Apply(v: View, w: Write): View {
    match w
    case Index(id, phase, context, stamp) => Put(v, id, phase, context, stamp)
    case Partial(id, phase) => Update(v, id, phase)
  }

  function ApplyAll(v: View, writes: seq<Write>): View {
    if writes == [] then v else Apply(ApplyAll(v, writes[..|writes| - 1]), writes[|writes| - 1])
  }

  /** The store after other actors' writes: nothing disappears. */
  ghost predicate WrittenByOthers(v: View, w: View) { StoreGrows(v, w) && v.docs.Keys <= w.docs.Keys }

  /** The operator tool may go ahead: the claim is CLAIMED, and old enough or the use of force was asked for. */
  ghost predicate GuardsOpen(v: View, k: Key, now: int, maxAge: int, force: bool, ageReadable: bool) {
    Has(v, Claim(k), Claimed) && ageReadable && (now - v.docs[Claim(k)].stamp >= maxAge || force)
  }

  /** Why a claim is refused: it was there, and when re-read it was not RELEASED, or it was rewritten since. */
  ghost predicate Refused(k: Key, start: View, read: View, before: View) {
    && Claim(k) in start.docs && Claim(k) in read.docs
    && (read.docs[Claim(k)].phase != Released || !Matches(before, Claim(k), read.docs[Claim(k)].seqNo))
  }

  ghost predicate Numbered(v: View) { forall id | id in v.docs :: v.docs[id].seqNo < v.nextSeq }

  datatype Answer = Ok | Conflict | Missing | Error

  /** A call's outcome for its caller; an exception leaves the caller without an answer. */
  datatype Outcome = True | False | Raised

  class Store {
    var docs: map<DocId, Doc>
    var nextSeq: nat

    function Contents(): View
      reads this
    {
      View(docs, nextSeq)
    }

    constructor ()
      ensures Contents() == EMPTY_VIEW
    {
      docs, nextSeq := map[], 0;
    }

    method Others(writes: seq<Write>)
      requires Numbered(Contents())
      modifies this
      ensures Contents() == ApplyAll(old(Contents()), writes)
      ensures Numbered(Contents()) && WrittenByOthers(old(Contents()), Contents())
    {
      var i := 0;
      while i < |writes|
        invariant 0 <= i <= |writes| && Contents() == ApplyAll(old(Contents()), writes[..i])
        invariant Numbered(Contents()) && WrittenByOthers(old(Contents()), Contents())
      {
        assert writes[..i + 1][..i] == writes[..i];
        var v := Apply(View(docs, nextSeq), writes[i]);
        docs, nextSeq := v.docs, v.nextSeq;
        i := i + 1;
      }
      assert writes[..|writes|] == writes;
    }

    method CreateDoc(id: DocId, phase: Phase, stamp: int, fault: Fault) returns (answer: Answer)
      modifies this
      ensures Contents() == if fault == Lost then old(Contents()) else Create(old(Contents()), id, phase, stamp)
      ensures answer == if fault != NoFault then Error else if id in old(docs) then Conflict else Ok
    {
      answer := Error;
      if fault != Lost {
        if id in docs {
          answer := Conflict;
        } else {
          docs, nextSeq := docs[id := Doc(phase, None, stamp, nextSeq)], nextSeq + 1;
          answer := Ok;
        }
      }
      if fault != NoFault {
        answer := Error;
      }
    }

    method GetDoc(id: DocId, fault: Fault) returns (answer: Answer, doc: Option<Doc>)
      ensures answer == if fault != NoFault then Error else if id in docs then Ok else Missing
      ensures doc == if answer == Ok then Some(docs[id]) else None
    {
      if fault != NoFault {
        return Error, None;
      }
      if id in docs {
        return Ok, Some(docs[id]);
      }
      return Missing, None;
    }

    method PutDocIf(id: DocId, phase: Phase, stamp: int, seqNo: nat, fault: Fault) returns (answer: Answer)
      modifies this
      ensures Contents() == if fault == Lost then old(Contents()) else PutIf(old(Contents()), id, phase, stamp, seqNo)
      ensures answer == if fault != NoFault then Error else if Matches(old(Contents()), id, seqNo) then Ok else Conflict
    {
      answer := if fault == NoFault then Conflict else Error;
      if fault != Lost && id in docs && docs[id].seqNo == seqNo {
        docs, nextSeq := docs[id := Doc(phase, None, stamp, nextSeq)], nextSeq + 1;
        answer := if fault == NoFault then Ok else Error;
      }
    }

    method UpdateDoc(id: DocId, phase: Phase, ifSeqNo: Option<nat>, fault: Fault) returns (answer: Answer)
      modifies this
      ensures Contents() ==
        if fault == Lost then old(Contents())
        else if ifSeqNo.Some? then UpdateIf(old(Contents()), id, phase, ifSeqNo.value)
        else Update(old(Contents()), id, phase)
      ensures answer ==
        if fault != NoFault then Error
        else if id !in old(docs) then Missing
        else if ifSeqNo.Some? && !Matches(old(Contents()), id, ifSeqNo.value) then Conflict else Ok
    {
      answer :=
        if id !in docs then Missing else if ifSeqNo.Some? && docs[id].seqNo != ifSeqNo.value then Conflict else Ok;
      if fault != Lost && answer == Ok {
        docs, nextSeq := docs[id := docs[id].(phase := phase, seqNo := nextSeq)], nextSeq + 1;
      }
      if fault != NoFault {
        answer := Error;
      }
    }

    method DeleteDocIf(id: DocId, seqNo: nat) returns (deleted: bool)
      modifies this
      ensures Contents() == DeleteIf(old(Contents()), id, seqNo)
      ensures deleted <==> Matches(old(Contents()), id, seqNo)
    {
      deleted := id in docs && docs[id].seqNo == seqNo;
      if deleted {
        docs := docs - {id};
      }
    }

    // ---- claim_approval ----

    /** The claim is taken by at most one write of this call, made at a moment when the claim was
        absent or RELEASED. `read` is the store as re-read after a conflict, `before` and `after` the
        store around the moment of the write. It is won for certain where it was free and nobody
        else and no fault came in between. */
    method ClaimApproval(k: Key, stamp: int, faults: (Fault, Fault, Fault), writes: (seq<Write>, seq<Write>))
        returns (won: Outcome, ghost read: View, ghost before: View, ghost after: View)
      requires Numbered(Contents())
      modifies this
      ensures WrittenByOthers(old(Contents()), before) && WrittenByOthers(after, Contents()) && Numbered(Contents())
      ensures after == before
        || (Claim(k) !in before.docs && after == Create(before, Claim(k), Claimed, stamp))
        || (&& Has(before, Claim(k), Released)
            && after == PutIf(before, Claim(k), Claimed, stamp, before.docs[Claim(k)].seqNo))
      ensures won == True ==> after != before
      ensures won == False ==> after == before
      ensures won == True ==> after == Contents() && Has(Contents(), Claim(k), Claimed)
      ensures won == Raised ==> faults != (NoFault, NoFault, NoFault)
      ensures faults.0 != NoFault ==> won == Raised
      ensures faults.0 == NoFault && Claim(k) !in old(docs) ==> won == True && before == old(Contents())
      ensures won == False ==> Refused(k, old(Contents()), read, before)
      ensures faults == (NoFault, NoFault, NoFault) && Claim(k) in old(docs) ==>
        && read == ApplyAll(old(Contents()), writes.0)
        && (won == True <==> Has(read, Claim(k), Released)
                             && before == ApplyAll(read, writes.1) && before.docs[Claim(k)] == read.docs[Claim(k)])
      ensures faults == (NoFault, NoFault, NoFault) && writes == ([], []) ==>
        (won == True <==> Claim(k) !in old(docs) || old(docs)[Claim(k)].phase == Released)
    {
      read, before := Contents(), Contents();
      var created := CreateDoc(Claim(k), Claimed, stamp, faults.0);
      after := Contents();
      if created == Error {
        return Raised, read, before, after;
      }
      if created != Conflict {
        return True, read, before, after;
      }
      Others(writes.0);
      var got, existing := GetDoc(Claim(k), faults.1);
      read, before, after := Contents(), Contents(), Contents();
      if got != Ok {
        return Raised, read, before, after;
      }
      if existing.value.phase != Released {
        return False, read, before, after;
      }
      Others(writes.1);
      before := Contents();
      var reclaimed := PutDocIf(Claim(k), Claimed, stamp, existing.value.seqNo, faults.2);
      after := Contents();
      assert Matches(before, Claim(k), existing.value.seqNo) ==> before.docs[Claim(k)] == read.docs[Claim(k)];
      if reclaimed == Conflict {
        return False, read, before, after;
      }
      if reclaimed == Error {
        return Raised, read, before, after;
      }
      return True, read, before, after;
    }

    // ---- _transition_claim ----

    /** Release or resolve: an absent claim counts as done, a lost race as False. */
    method TransitionClaim(k: Key, phase: Phase, ifSeqNo: Option<nat>, fault: Fault) returns (done: Outcome)
      modifies this
      ensures Contents() ==
        if fault == Lost then old(Contents())
        else if ifSeqNo.Some? then UpdateIf(old(Contents()), Claim(k), phase, ifSeqNo.value)
        else Update(old(Contents()), Claim(k), phase)
      ensures done == Raised <==> fault != NoFault
      ensures done == True ==> Claim(k) !in docs || docs[Claim(k)].phase == phase
      ensures done == False ==> Contents() == old(Contents())
      ensures done == False <==>
        && fault == NoFault && Claim(k) in old(docs)
        && ifSeqNo.Some? && old(docs)[Claim(k)].seqNo != ifSeqNo.value
      ensures fault == NoFault && Claim(k) in old(docs) && done == True ==>
        docs[Claim(k)] == Doc(phase, old(docs)[Claim(k)].context, old(docs)[Claim(k)].stamp, old(nextSeq))
    {
      var answer := UpdateDoc(Claim(k), phase, ifSeqNo, fault);
      if answer == Missing {
        return True;
      }
      if answer == Conflict {
        return False;
      }
      if answer == Error {
        return Raised;
      }
      return True;
    }

    // ---- manage_stuck_claims.cmd_resolve ----

    /** The operator tool writes only with --yes, only to the very claim it read as CLAIMED, and only
        when its age could be read and is high enough (or --force was given) and its version could be
        read; whatever others did since wins. */
    method CmdResolve(k: Key, outcome: Phase, now: int, maxAge: int, force: bool, yes: bool,
                      ageReadable: bool, versionReadable: bool, faults: (Fault, Fault), writes: seq<Write>)
        returns (code: nat, raised: bool, ghost read: View, ghost before: View)
      requires Numbered(Contents()) && outcome in {Released, Resolved}
      modifies this
      ensures read == old(Contents()) && (Contents() == read || WrittenByOthers(read, before))
      ensures Contents() != read && Contents() != before ==>
        && yes && Has(read, Claim(k), Claimed) && ageReadable && versionReadable
        && (now - read.docs[Claim(k)].stamp >= maxAge || force)
        && Claim(k) in before.docs && before.docs[Claim(k)] == read.docs[Claim(k)]
        && Contents() == Update(before, Claim(k), outcome)
      ensures code == 0 && !raised && yes ==> Claim(k) !in docs || docs[Claim(k)].phase == outcome
      ensures !raised && !Has(read, Claim(k), Claimed) ==> code == 1 && Contents() == read
      ensures !raised && Has(read, Claim(k), Claimed)
              && !(ageReadable && (now - read.docs[Claim(k)].stamp >= maxAge || force)) ==>
        code == 1 && Contents() == read
      ensures !raised && yes && !versionReadable ==> code == 1 && Contents() == read
      ensures raised ==> faults != (NoFault, NoFault) && code == 1
      ensures faults == (NoFault, NoFault) && GuardsOpen(read, k, now, maxAge, force, ageReadable) ==>
        if !yes then code == 0 && Contents() == read
        else if !versionReadable then code == 1 && Contents() == read
        else
          && before == ApplyAll(read, writes)
          && Claim(k) in before.docs
          && if before.docs[Claim(k)] == read.docs[Claim(k)]
             then code == 0 && Contents() == Update(before, Claim(k), outcome)
             else code == 1 && Contents() == before
    {
      read, before := Contents(), Contents();
      raised := false;
      var got, claim := GetDoc(Claim(k), faults.0);
      if got == Error {
        return 1, true, read, before;
      }
      if got == Missing {
        return 1, false, read, before;
      }
      if claim.value.phase != Claimed {
        return 1, false, read, before;
      }
      if !ageReadable {
        return 1, false, read, before;
      }
      if now - claim.value.stamp < maxAge && !force {
        return 1, false, read, before;
      }
      if !yes {
        return 0, false, read, before;
      }
      if !versionReadable {
        return 1, false, read, before;
      }
      Others(writes);
      before := Contents();
      var done := TransitionClaim(k, outcome, Some(claim.value.seqNo), faults.1);
      if done == Raised {
        return 1, true, read, before;
      }
      code := if done == True then 0 else 1;
    }

    // ---- compact_agent_checkpoints.compact ----

    /** The store's delete-by-query: a snapshot, then version-checked deletes in any order, with other
        actors writing in between. `gone` holds each deleted document as it was at its deletion. */
    method DeleteByQuery(cutoff: int, writes: seq<seq<Write>>) returns (count: nat, ghost gone: map<DocId, Doc>)
      requires Numbered(Contents())
      modifies this
      ensures Numbered(Contents()) && count == |gone| && Swept(old(Contents()), Contents(), gone, cutoff)
      ensures writes == [] ==> nextSeq == old(nextSeq)
    {
      var condemned := Condemned(View(docs, nextSeq), cutoff);
      ghost var was := Contents();
      var todo, turn := condemned, 0;
      count, gone := 0, map[];
      SweepStarts(was, condemned, cutoff);
      while todo != {}
        invariant todo <= condemned && count == |gone| && Numbered(Contents())
        invariant writes == [] ==> nextSeq == was.nextSeq
        invariant Sweeping(was, Contents(), condemned - todo, gone, cutoff)
        decreases todo
      {
        if turn < |writes| {
          ghost var before := Contents();
          Others(writes[turn]);
          OthersKeepTheSweep(was, before, Contents(), condemned - todo, gone, cutoff);
          turn := turn + 1;
        }
        var c :| c in todo;
        DeleteKeepsTheSweep(was, Contents(), c, todo, gone, cutoff);
        gone := WithDeleted(gone, Contents(), c);
        var deleted := DeleteDocIf(c.0, c.1);
        todo := todo - {c};
        if deleted {
          count := count + 1;
        }
      }
      assert condemned - {} == condemned;
      SweptInTheEnd(was, Contents(), gone, cutoff);
    }

    /** The count is exact, and a dry run only counts. */
    method Compact(cutoff: int, dryRun: bool, writes: seq<seq<Write>>)
        returns (count: nat, ghost gone: map<DocId, Doc>)
      requires Numbered(Contents())
      modifies this
      ensures Numbered(Contents())
      ensures dryRun ==> count == |DueIds(old(Contents()), cutoff)| && gone == map[] && Contents() == old(Contents())
      ensures !dryRun ==> count == |gone| && Swept(old(Contents()), Contents(), gone, cutoff)
      ensures !dryRun && writes == [] ==>
        var due := DueIds(old(Contents()), cutoff);
        docs == old(docs) - due && count == |due|
    {
      CondemnedCount(View(docs, nextSeq), cutoff);
      if dryRun {
        return |Condemned(View(docs, nextSeq), cutoff)|, map[];
      }
      count, gone := DeleteByQuery(cutoff, writes);
      if writes == [] { UndisturbedSweep(old(Contents()), Contents(), gone, cutoff); }
    }
  }

  /** What a compaction has done: what is gone was due in the snapshot and untouched since, what is missing is
      gone, what is there is untouched or written since, and what was due is either gone or had been
      written since. */
  ghost predicate Swept(was: View, v: View, gone: map<DocId, Doc>, cutoff: int) {
    && (forall id | id in gone :: id in was.docs && gone[id] == was.docs[id] && Due(gone[id], cutoff))
    && (forall id | id in gone && id in v.docs :: v.docs[id].seqNo >= was.nextSeq)
    && (forall id | id in was.docs && id !in v.docs :: id in gone)
    && OldOrNew(was, v)
    && (forall id | id in DueIds(was, cutoff) :: id in gone || Rewritten(v, id, was.nextSeq))
  }

  /** Undisturbed, exactly what was due is gone. */
  lemma UndisturbedSweep(was: View, v: View, gone: map<DocId, Doc>, cutoff: int)
    requires Swept(was, v, gone, cutoff) && Numbered(v) && v.nextSeq == was.nextSeq
    ensures v.docs == was.docs - DueIds(was, cutoff) && |gone| == |DueIds(was, cutoff)|
  {
    assert gone.Keys == DueIds(was, cutoff);
  }

  // ---- how far a compaction has come: `done` of the snapshot handled, `gone` deleted ----

  ghost predicate Rewritten(v: View, id: DocId, since: nat) { id in v.docs && v.docs[id].seqNo >= since }

  ghost predicate Doomed(was: View, v: View, id: DocId, d: Doc, done: set<(DocId, nat)>, cutoff: int) {
    && id in was.docs && d == was.docs[id] && Compactable(d, cutoff) && (id, d.seqNo) in done
    && (id in v.docs ==> v.docs[id].seqNo >= was.nextSeq)
  }

  ghost predicate OldOrNew(was: View, v: View) {
    && v.nextSeq >= was.nextSeq
    && forall id | id in v.docs :: (id in was.docs && v.docs[id] == was.docs[id]) || v.docs[id].seqNo >= was.nextSeq
  }

  ghost predicate Sweeping(was: View, v: View, done: set<(DocId, nat)>, gone: map<DocId, Doc>, cutoff: int) {
    && OldOrNew(was, v)
    && (forall id | id in was.docs && id !in v.docs :: id in gone)
    && (forall id | id in gone :: Doomed(was, v, id, gone[id], done, cutoff))
    && (forall c | c in done :: c.0 in gone || Rewritten(v, c.0, was.nextSeq))
  }

  lemma SweepStarts(was: View, condemned: set<(DocId, nat)>, cutoff: int)
    ensures Sweeping(was, was, condemned - condemned, map[], cutoff)
  {}

  lemma OthersKeepTheSweep(was: View, v: View, w: View, done: set<(DocId, nat)>, gone: map<DocId, Doc>, cutoff: int)
    requires Sweeping(was, v, done, gone, cutoff) && WrittenByOthers(v, w)
    ensures Sweeping(was, w, done, gone, cutoff)
  {
  }

  ghost function WithDeleted(gone: map<DocId, Doc>, v: View, c: (DocId, nat)): map<DocId, Doc> {
    if Matches(v, c.0, c.1) then gone[c.0 := v.docs[c.0]] else gone
  }

  lemma SweptInTheEnd(was: View, v: View, gone: map<DocId, Doc>, cutoff: int)
    requires Sweeping(was, v, Condemned(was, cutoff), gone, cutoff)
    ensures Swept(was, v, gone, cutoff)
  {
    forall id | id in DueIds(was, cutoff) ensures id in gone || Rewritten(v, id, was.nextSeq) {
      CondemnedIffDue(was, cutoff, id, was.docs[id].seqNo);
    }
  }

  lemma OneMoreIsDone(was: View, v: View, c: (DocId, nat), done: set<(DocId, nat)>, gone: map<DocId, Doc>, cutoff: int)
    requires Sweeping(was, v, done, gone, cutoff) && Numbered(was) && c in Condemned(was, cutoff)
    ensures Sweeping(was, DeleteIf(v, c.0, c.1), done + {c}, WithDeleted(gone, v, c), cutoff)
  {}

  lemma OneMoreIsGone(was: View, v: View, c: (DocId, nat), done: set<(DocId, nat)>, gone: map<DocId, Doc>, cutoff: int)
    requires Sweeping(was, v, done, gone, cutoff) && Numbered(was) && c in Condemned(was, cutoff)
    ensures |WithDeleted(gone, v, c)| == |gone| + if Matches(v, c.0, c.1) then 1 else 0
  {
    assert c.0 in gone ==> !Matches(v, c.0, c.1);
  }

  lemma DeleteKeepsTheSweep(was: View, v: View, c: (DocId, nat), todo: set<(DocId, nat)>, gone: map<DocId, Doc>,
                            cutoff: int)
    requires Sweeping(was, v, Condemned(was, cutoff) - todo, gone, cutoff) && Numbered(was)
    requires c in Condemned(was, cutoff) && c in todo && Numbered(v)
    ensures
      var w := DeleteIf(v, c.0, c.1);
      Sweeping(was, w, Condemned(was, cutoff) - (todo - {c}), WithDeleted(gone, v, c), cutoff) && Numbered(w)
    ensures |WithDeleted(gone, v, c)| == |gone| + if Matches(v, c.0, c.1) then 1 else 0
  {
    var condemned := Condemned(was, cutoff);
    OneMoreIsDone(was, v, c, condemned - todo, gone, cutoff);
    OneMoreIsGone(was, v, c, condemned - todo, gone, cutoff);
    assert condemned - (todo - {c}) == condemned - todo + {c};
  }
}
