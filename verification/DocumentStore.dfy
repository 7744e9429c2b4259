/** The checkpoint index as a store of versioned documents. Every write takes the next number of
    one strictly increasing sequence, which is what conditional writes compare. */
module DocumentStore {
  import opened Types
  import opened DedupKey

  datatype DocId = Checkpoint(key: Key) | Claim(key: Key)
  datatype Doc = Doc(phase: Phase, context: Option<Payload>, stamp: int, seqNo: nat)
  datatype View = View(docs: map<DocId, Doc>, nextSeq: nat)

  /** Whether a call reached the store and whether its answer came back. */
  datatype Fault = NoFault | Lost | Unreported

  const EMPTY_VIEW: View := View(map[], 0)

  predicate Has(v: View, id: DocId, phase: Phase) { id in v.docs && v.docs[id].phase == phase }

  function Put(v: View, id: DocId, phase: Phase, context: Option<Payload>, stamp: int): View {
    View(v.docs[id := Doc(phase, context, stamp, v.nextSeq)], v.nextSeq + 1)
  }

  /** PUT _create: writes only when the document is absent. */
  function Create(v: View, id: DocId, phase: Phase, stamp: int): View {
    if id in v.docs then v else Put(v, id, phase, None, stamp)
  }

  predicate Matches(v: View, id: DocId, seqNo: nat) { id in v.docs && v.docs[id].seqNo == seqNo }

  /** PUT with if_seq_no. */
  function PutIf(v: View, id: DocId, phase: Phase, stamp: int, seqNo: nat): View {
    if Matches(v, id, seqNo) then Put(v, id, phase, None, stamp) else v
  }

  /** POST _update: replaces the phase and keeps the rest; an absent document stays absent. */
  function Update(v: View, id: DocId, phase: Phase): View {
    if id in v.docs
    then View(v.docs[id := v.docs[id].(phase := phase, seqNo := v.nextSeq)], v.nextSeq + 1)
    else v
  }

  function UpdateIf(v: View, id: DocId, phase: Phase, seqNo: nat): View {
    if Matches(v, id, seqNo) then Update(v, id, phase) else v
  }

  /** One deletion of a delete-by-query: skipped when the document changed since the snapshot. */
  function DeleteIf(v: View, id: DocId, seqNo: nat): View {
    if Matches(v, id, seqNo) then View(v.docs - {id}, v.nextSeq) else v
  }

  /** A document either stays exactly as it was or carries a fresh sequence number: this is why a
      stale conditional write can never succeed, even after a delete and re-create. */
  ghost predicate StoreGrows(v: View, w: View) {
    && v.nextSeq <= w.nextSeq
    && forall id | id in w.docs ::
         (id in v.docs && w.docs[id] == v.docs[id]) || v.nextSeq <= w.docs[id].seqNo < w.nextSeq
  }

  // ---- retention ----

  const TERMINAL_PHASES: set<Phase> := {NoActionProtectedAsset, AutoIsolated, Executed, IsolationFailed, Released}

  predicate Compactable(d: Doc, cutoff: int) { d.phase in TERMINAL_PHASES && d.stamp < cutoff }

  /** What a delete-by-query started now would try to delete. */
  function Condemned(v: View, cutoff: int): set<(DocId, nat)> {
    set id | id in v.docs && Compactable(v.docs[id], cutoff) :: (id, v.docs[id].seqNo)
  }

  /** What retention is for, by the phases that must stay: the document is old, and neither an open alert nor a
      claim that still says something. */
  predicate Due(d: Doc, cutoff: int) {
    d.stamp < cutoff && d.phase !in {Perceiving, PendingApproval, Claimed, Resolved}
  }

  function DueIds(v: View, cutoff: int): set<DocId> { set id | id in v.docs && Due(v.docs[id], cutoff) }

  /** A scan condemns exactly the documents that are due, in their current versions. */
  lemma CondemnedIffDue(v: View, cutoff: int, id: DocId, seqNo: nat)
    ensures (id, seqNo) in Condemned(v, cutoff) <==> Matches(v, id, seqNo) && id in DueIds(v, cutoff)
  {
    if id in v.docs { OnlySettledPhasesAreTerminal(v.docs[id].phase); }
  }

  lemma OnlySettledPhasesAreTerminal(phase: Phase)
    ensures phase in TERMINAL_PHASES <==> phase !in {Perceiving, PendingApproval, Claimed, Resolved}
  {
    match phase
    case Perceiving | PendingApproval | Claimed | Resolved =>
    case _ =>
  }

  function Versions(v: View, ids: set<DocId>): set<(DocId, nat)>
    requires ids <= v.docs.Keys
  {
    set id | id in ids :: (id, v.docs[id].seqNo)
  }

  lemma {:induction false} OneVersionEach(v: View, ids: set<DocId>)
    requires ids <= v.docs.Keys
    ensures |Versions(v, ids)| == |ids|
  {
    if ids != {} {
      var id :| id in ids;
      OneVersionEach(v, ids - {id});
      assert Versions(v, ids) == Versions(v, ids - {id}) + {(id, v.docs[id].seqNo)};
    }
  }

  lemma CondemnedCount(v: View, cutoff: int)
    ensures |Condemned(v, cutoff)| == |DueIds(v, cutoff)|
  {
    OneVersionEach(v, DueIds(v, cutoff));
    forall c ensures c in Condemned(v, cutoff) <==> c in Versions(v, DueIds(v, cutoff)) {
      CondemnedIffDue(v, cutoff, c.0, c.1);
    }
    assert Condemned(v, cutoff) == Versions(v, DueIds(v, cutoff));
  }
}
