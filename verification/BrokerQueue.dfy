/** The broker's queue: its /pending view, when compaction may change it, and why it never does. */
module BrokerQueue {
  import opened Types
  import opened ApprovalQueue
  import opened Selection

  const LISTED: set<string> := {"pending"}

  // ---- GET /pending of the broker ----

  /** The ids with an approved or denied row. */
  function Resolved(rows: seq<Row>): set<string> {
    set r | r in rows && HasStatus(r, RESOLVED_STATUSES) && r.id.Some? :: r.id.value
  }

  function PendingOutside(rows: seq<Row>, resolved: set<string>): seq<Row> {
    if rows == [] then []
    else
      var rest := PendingOutside(rows[..|rows| - 1], resolved);
      var r := rows[|rows| - 1];
      if HasStatus(r, LISTED) && !Of(r, resolved) then rest + [r] else rest
  }

  /** A row of these statuses without an id makes the listing fail. */
  predicate Lists(rows: seq<Row>) {
    forall r | r in rows && (HasStatus(r, RESOLVED_STATUSES) || HasStatus(r, LISTED)) :: r.id.Some?
  }

  function BrokerView(rows: seq<Row>): Option<seq<Row>> {
    if Lists(rows) then Some(PendingOutside(rows, Resolved(rows))) else None
  }

  // ---- the same by position ----

  predicate Says(r: Row, status: string) { r.status == Some(status) }

  /** Somewhere in the file the id was approved or denied. */
  predicate ResolvedById(rows: seq<Row>, id: Option<string>) {
    exists k | 0 <= k < |rows| :: rows[k].id == id && (Says(rows[k], "approved") || Says(rows[k], "denied"))
  }

  function OpenAt(rows: seq<Row>, n: nat): set<nat>
    requires n <= |rows|
  {
    set i: nat | i < n && Says(rows[i], "pending") && !ResolvedById(rows, rows[i].id)
  }

  /** The broker lists exactly the pending rows whose id was never approved or denied, in file order, and fails
      exactly when a row of one of these three statuses has no id. */
  lemma BrokerPendingByPosition(rows: seq<Row>)
    ensures BrokerView(rows).None? <==>
      exists k | 0 <= k < |rows| ::
        rows[k].id.None? && (Says(rows[k], "pending") || Says(rows[k], "approved") || Says(rows[k], "denied"))
    ensures BrokerView(rows).Some? ==> Selects(rows, OpenAt(rows, |rows|), BrokerView(rows).value)
  {
    if Lists(rows) {
      OpenIsSelected(rows, |rows|);
      assert rows[..|rows|] == rows;
    } else {
      var r :| r in rows && (HasStatus(r, RESOLVED_STATUSES) || HasStatus(r, LISTED)) && r.id.None?;
      var k :| 0 <= k < |rows| && rows[k] == r;
    }
    if k :| 0 <= k < |rows| && rows[k].id.None?
            && (Says(rows[k], "pending") || Says(rows[k], "approved") || Says(rows[k], "denied")) {
      assert rows[k] in rows;
    }
  }

  lemma {:induction false} OpenIsSelected(rows: seq<Row>, n: nat)
    requires n <= |rows| && Lists(rows)
    ensures Selects(rows[..n], OpenAt(rows, n), PendingOutside(rows[..n], Resolved(rows)))
  {
    if n == 0 {
      SelectsNothing(rows[..0]);
      assert OpenAt(rows, 0) == {};
    } else {
      var before, r := rows[..n - 1], rows[n - 1];
      OpenIsSelected(rows, n - 1);
      SelectsOneMore(before, OpenAt(rows, n - 1), PendingOutside(before, Resolved(rows)), r);
      assert before + [r] == rows[..n] && rows[..n][..n - 1] == before && r in rows;
      OpenAtNext(rows, n - 1);
    }
  }

  lemma OpenAtNext(rows: seq<Row>, n: nat)
    requires n < |rows| && Lists(rows)
    ensures OpenAt(rows, n + 1) ==
            if HasStatus(rows[n], LISTED) && !Of(rows[n], Resolved(rows)) then OpenAt(rows, n) + {n}
            else OpenAt(rows, n)
  {
    assert rows[n] in rows;
    ResolvedIffById(rows, rows[n]);
  }

  lemma ResolvedIffById(rows: seq<Row>, r: Row)
    requires r in rows && (HasStatus(r, LISTED) ==> r.id.Some?)
    ensures HasStatus(r, LISTED) <==> Says(r, "pending")
    ensures r.id.Some? ==> (Of(r, Resolved(rows)) <==> ResolvedById(rows, r.id))
  {
    if r.id.Some? && ResolvedById(rows, r.id) {
      var k :| 0 <= k < |rows| && rows[k].id == r.id && (Says(rows[k], "approved") || Says(rows[k], "denied"));
      assert rows[k] in rows;
    }
  }

  // ---- one compaction ----

  lemma {:induction false} PendingHolds(rows: seq<Row>, resolved: set<string>, r: Row)
    ensures r in PendingOutside(rows, resolved) <==> r in rows && HasStatus(r, LISTED) && !Of(r, resolved)
  {
    if rows != [] {
      PendingHolds(rows[..|rows| - 1], resolved, r);
      assert rows == rows[..|rows| - 1] + [rows[|rows| - 1]];
    }
  }

  /** Dropping ids commutes with listing; ids that are not dropped keep their resolution. */
  lemma {:induction false} PendingWithout(rows: seq<Row>, ids: set<string>, before: set<string>, after: set<string>)
    requires forall id | id !in ids :: id in before <==> id in after
    ensures PendingOutside(Without(rows, ids), after) == Without(PendingOutside(rows, before), ids)
  {
    if rows != [] {
      var n := |rows| - 1;
      var r, kept, listed := rows[n], Without(rows[..n], ids), PendingOutside(rows[..n], before);
      PendingWithout(rows[..n], ids, before, after);
      assert (kept + [r])[..|kept|] == kept;
      assert (listed + [r])[..|listed|] == listed;
    }
  }

  /** An aged-out id that was executed although it also has an open draft. */
  predicate ExecutedDraft(rows: seq<Row>, id: string, cutoff: int) {
    && Archivable(rows, id, BROKER_TERMINAL, cutoff) && HasStatus(Latest(rows, Some(id)).value, {"executed"})
    && id !in Resolved(rows) && exists r :: r in rows && r.id == Some(id) && HasStatus(r, LISTED)
  }

  lemma ResolvedWithout(rows: seq<Row>, ids: set<string>, id: string)
    ensures id in Resolved(Without(rows, ids)) <==> id in Resolved(rows) && id !in ids
  {
    if id in Resolved(rows) {
      var r :| r in rows && HasStatus(r, RESOLVED_STATUSES) && r.id == Some(id);
      WithoutHolds(rows, ids, r);
    }
    if id in Resolved(Without(rows, ids)) {
      var r :| r in Without(rows, ids) && HasStatus(r, RESOLVED_STATUSES) && r.id == Some(id);
      WithoutHolds(rows, ids, r);
    }
  }

  /** The broker's listing survives a compaction exactly when no such id is about to be archived. */
  lemma BrokerCompactionIsInvisibleIff(rows: seq<Row>, cutoff: int)
    ensures Lists(rows) ==>
      (BrokerView(Compacted(rows, BROKER_TERMINAL, cutoff)) == BrokerView(rows) <==>
         forall id :: !ExecutedDraft(rows, id, cutoff))
    ensures !Lists(rows) ==> BrokerView(Compacted(rows, BROKER_TERMINAL, cutoff)) == BrokerView(rows)
  {
    var ids := ArchivableIds(rows, BROKER_TERMINAL, cutoff);
    var kept, before := Without(rows, ids), Resolved(rows);
    forall r ensures r in kept <==> r in rows && !Of(r, ids) { WithoutHolds(rows, ids, r); }
    if Lists(rows) {
      forall id | id !in ids ensures id in before <==> id in Resolved(kept) { ResolvedWithout(rows, ids, id); }
      PendingWithout(rows, ids, before, Resolved(kept));
      var view := PendingOutside(rows, before);
      WithoutNothing(view, ids);
      forall id ensures (exists r :: r in view && r.id == Some(id) && id in ids) <==> ExecutedDraft(rows, id, cutoff) {
        ListedAndArchivable(rows, id, cutoff);
      }
    } else {
      var r :| r in rows && (HasStatus(r, RESOLVED_STATUSES) || HasStatus(r, LISTED)) && r.id.None?;
      assert r in kept;
    }
  }

  lemma ListedAndArchivable(rows: seq<Row>, id: string, cutoff: int)
    ensures (exists r :: r in PendingOutside(rows, Resolved(rows)) && r.id == Some(id)
                         && id in ArchivableIds(rows, BROKER_TERMINAL, cutoff))
      <==> ExecutedDraft(rows, id, cutoff)
  {
    ArchivableIffListed(rows, id, BROKER_TERMINAL, cutoff);
    LatestIsARow(rows, Some(id));
    forall r
      ensures r in PendingOutside(rows, Resolved(rows)) <==> r in rows && HasStatus(r, LISTED) && !Of(r, Resolved(rows))
    {
      PendingHolds(rows, Resolved(rows), r);
    }
    if ExecutedDraft(rows, id, cutoff) {
      var r :| r in rows && r.id == Some(id) && HasStatus(r, LISTED);
      assert r in PendingOutside(rows, Resolved(rows));
    }
  }

  // ---- runs of the endpoints ----

  /** The live rows, and the ids the endpoints have drawn so far. */
  datatype State = State(live: seq<Row>, drafted: set<string>, dispatched: set<string>)

  datatype Event =
    | Drafts(id: string, ts: int)                                    // /webhook/alert
    | Dispatches(id: string, ts: int, note: string)                  // /webhook/dispatch
    | Resolves(id: string, approved: bool, ts: int, note: string)    // /approve, however it raced
    | Compacts(cutoff: int)

  /** uuid4 ids do not collide; an approval names a row it saw pending. */
  predicate Enabled(s: State, e: Event) {
    match e
    case Drafts(id, _) => id !in s.drafted + s.dispatched
    case Dispatches(id, _, _) => id !in s.drafted + s.dispatched
    case Resolves(id, _, _, _) => id in s.drafted
    case Compacts(_) => true
  }

  function Next(s: State, e: Event): State {
    match e
    case Drafts(id, ts) =>
      State(s.live + [Row(Some(id), Some("pending"), Some(ts), "")], s.drafted + {id}, s.dispatched)
    case Dispatches(id, ts, note) =>
      State(s.live + [Row(Some(id), Some("executed"), Some(ts), note)], s.drafted, s.dispatched + {id})
    case Resolves(id, approved, ts, note) =>
      var status := if approved then "approved" else "denied";
      State(s.live + [Row(Some(id), Some(status), Some(ts), note)], s.drafted, s.dispatched)
    case Compacts(cutoff) => State(Compacted(s.live, BROKER_TERMINAL, cutoff), s.drafted, s.dispatched)
  }

  predicate Run(s: State, events: seq<Event>)
    decreases |events|
  {
    events == [] || (Enabled(s, events[0]) && Run(Next(s, events[0]), events[1..]))
  }

  function Final(s: State, events: seq<Event>): State
    requires Run(s, events)
    decreases |events|
  {
    if events == [] then s else Final(Next(s, events[0]), events[1..])
  }

  /** An id is either a draft's or a dispatch's, and only a dispatch is executed. */
  ghost predicate Inv(s: State) {
    && s.drafted !! s.dispatched
    && forall r | r in s.live :: RowOk(s, r)
  }

  predicate RowOk(s: State, r: Row) {
    && r.id.Some?
    && (|| (r.id.value in s.drafted && (HasStatus(r, LISTED) || HasStatus(r, RESOLVED_STATUSES)))
        || (r.id.value in s.dispatched && HasStatus(r, {"executed"})))
  }

  lemma StepKeepsInv(s: State, e: Event)
    requires Inv(s) && Enabled(s, e)
    ensures Inv(Next(s, e))
  {
    var t := Next(s, e);
    forall r | r in t.live ensures RowOk(t, r) {
      if e.Compacts? { WithoutHolds(s.live, ArchivableIds(s.live, BROKER_TERMINAL, e.cutoff), r); }
      if r in s.live { assert RowOk(s, r); }
    }
  }

  lemma {:induction false} RunKeepsInv(s: State, events: seq<Event>)
    requires Inv(s) && Run(s, events)
    ensures Inv(Final(s, events))
    decreases |events|
  {
    if events != [] {
      StepKeepsInv(s, events[0]);
      RunKeepsInv(Next(s, events[0]), events[1..]);
    }
  }

  /** In every state the endpoints can reach, a compaction leaves /pending as it was. */
  lemma CompactionIsInvisibleInEveryRun(events: seq<Event>, cutoff: int)
    requires Run(State([], {}, {}), events)
    ensures var rows := Final(State([], {}, {}), events).live;
      BrokerView(rows).Some? && BrokerView(Compacted(rows, BROKER_TERMINAL, cutoff)) == BrokerView(rows)
  {
    RunKeepsInv(State([], {}, {}), events);
    CompactionIsInvisible(Final(State([], {}, {}), events), cutoff);
  }

  lemma CompactionIsInvisible(s: State, cutoff: int)
    requires Inv(s)
    ensures BrokerView(s.live).Some? && BrokerView(Compacted(s.live, BROKER_TERMINAL, cutoff)) == BrokerView(s.live)
  {
    BrokerCompactionIsInvisibleIff(s.live, cutoff);
    assert Lists(s.live) by {
      forall r | r in s.live ensures r.id.Some? { assert RowOk(s, r); }
    }
    forall id ensures !ExecutedDraft(s.live, id, cutoff) { NoDraftIsExecuted(s, id); }
  }

  lemma NoDraftIsExecuted(s: State, id: string)
    requires Inv(s)
    ensures forall r, x | r in s.live && x in s.live && r.id == x.id == Some(id) && HasStatus(r, LISTED) ::
      !HasStatus(x, {"executed"})
    ensures Latest(s.live, Some(id)).Some? ==>
      Latest(s.live, Some(id)).value in s.live && Latest(s.live, Some(id)).value.id == Some(id)
  {
    LatestIsARow(s.live, Some(id));
    forall r, x | r in s.live && x in s.live && r.id == x.id == Some(id) && HasStatus(r, LISTED)
      ensures !HasStatus(x, {"executed"})
    {
      assert RowOk(s, r) && RowOk(s, x);
    }
  }

  // ---- what the listing shows in every run ----

  /** What a call's row says: pending for a draft, executed for a dispatch, the ruling for an approval or denial. */
  predicate SaysSo(r: Row, e: Event) {
    match e
    case Drafts(id, _) => r.id == Some(id) && r.status == Some("pending")
    case Dispatches(id, _, _) => r.id == Some(id) && r.status == Some("executed")
    case Resolves(id, approved, _, _) => r.id == Some(id) && r.status == Some(if approved then "approved" else "denied")
    case Compacts(_) => false
  }

  /** The row a call appends is its id's latest. */
  lemma CallsAreRecorded(s: State, e: Event)
    requires !e.Compacts?
    ensures Next(s, e).live != []
    ensures var r := Next(s, e).live[|s.live|]; SaysSo(r, e) && Latest(Next(s, e).live, r.id) == Some(r)
  {}

  ghost predicate Listed(s: State, id: string) {
    BrokerView(s.live).Some? && exists r :: r in BrokerView(s.live).value && r.id == Some(id)
  }

  /** A draft is on file, and no ruling on it. */
  ghost predicate Open(rows: seq<Row>, id: string) {
    (exists r :: IsDraft(rows, r, id)) && !ResolvedById(rows, Some(id))
  }

  predicate IsDraft(rows: seq<Row>, r: Row, id: string) { r in rows && r.id == Some(id) && Says(r, "pending") }

  lemma ListedIffOpen(s: State, id: string)
    requires Inv(s)
    ensures Listed(s, id) <==> Open(s.live, id)
  {
    var rows := s.live;
    CompactionIsInvisible(s, 0);
    forall r: Row | r.id == Some(id) ensures r in BrokerView(rows).value <==> IsDraft(rows, r, id) && Open(rows, id) {
      PendingHolds(rows, Resolved(rows), r);
      if r in rows { ResolvedIffById(rows, r); }
    }
  }

  lemma AppendOpens(rows: seq<Row>, r: Row, id: string)
    requires r.id.Some?
    ensures r.id != Some(id) ==> (Open(rows + [r], id) <==> Open(rows, id))
    ensures r.id == Some(id) && (Says(r, "approved") || Says(r, "denied")) ==> !Open(rows + [r], id)
    ensures r.id == Some(id) && Says(r, "pending") && !ResolvedById(rows, Some(id)) ==> Open(rows + [r], id)
  {
    var all := rows + [r];
    forall x ensures IsDraft(all, x, id) <==> IsDraft(rows, x, id) || (x == r && IsDraft([r], r, id)) {}
    if ResolvedById(rows, Some(id)) {
      var k :| 0 <= k < |rows| && rows[k].id == Some(id) && (Says(rows[k], "approved") || Says(rows[k], "denied"));
      assert all[k] == rows[k];
    }
    if ResolvedById(all, Some(id)) {
      var k :| 0 <= k < |all| && all[k].id == Some(id) && (Says(all[k], "approved") || Says(all[k], "denied"));
      assert k < |rows| ==> rows[k] == all[k];
    }
    assert all[|rows|] == r && (r.id == Some(id) && Says(r, "pending") ==> IsDraft(all, r, id));
  }

  /** Only its own draft lists an id, and only its own ruling takes it off the list. */
  lemma StepLists(s: State, e: Event, id: string)
    requires Inv(s) && Enabled(s, e)
    ensures Listed(Next(s, e), id) <==> (Listed(s, id) || (e.Drafts? && e.id == id)) && !(e.Resolves? && e.id == id)
  {
    StepKeepsInv(s, e);
    if e.Compacts? {
      CompactionIsInvisible(s, e.cutoff);
    } else {
      ListedIffOpen(s, id);
      ListedIffOpen(Next(s, e), id);
      var r := Next(s, e).live[|s.live|];
      assert Next(s, e).live == s.live + [r];
      AppendOpens(s.live, r, id);
      if !e.Resolves? { NewIdsHaveNoRows(s, e.id); }
    }
  }

  lemma NewIdsHaveNoRows(s: State, id: string)
    requires Inv(s) && id !in s.drafted + s.dispatched
    ensures !ResolvedById(s.live, Some(id)) && !Open(s.live, id) && forall r | r in s.live :: r.id != Some(id)
  {
    forall r | r in s.live ensures r.id != Some(id) { assert RowOk(s, r); }
  }

  ghost predicate IsDrafted(events: seq<Event>, id: string) { exists e :: e in events && e.Drafts? && e.id == id }

  ghost predicate IsResolved(events: seq<Event>, id: string) { exists e :: e in events && e.Resolves? && e.id == id }

  lemma {:induction false} DraftedOnce(s: State, events: seq<Event>, id: string)
    requires Run(s, events) && id in s.drafted + s.dispatched
    ensures !IsDrafted(events, id)
    decreases |events|
  {
    if events != [] {
      DraftedOnce(Next(s, events[0]), events[1..], id);
      assert forall e | e in events :: e == events[0] || e in events[1..];
    }
  }

  /** In every run, with any compactions in between, GET /pending shows an id exactly from its draft to its ruling. */
  lemma {:induction false} ListedUntilResolved(s: State, events: seq<Event>, id: string)
    requires Inv(s) && Run(s, events)
    ensures Listed(Final(s, events), id) <==> (Listed(s, id) || IsDrafted(events, id)) && !IsResolved(events, id)
    decreases |events|
  {
    if events != [] {
      var e, later := events[0], events[1..];
      StepKeepsInv(s, e);
      StepLists(s, e, id);
      ListedUntilResolved(Next(s, e), later, id);
      assert forall x :: x in events <==> x == e || x in later;
      assert IsDrafted(events, id) <==> (e.Drafts? && e.id == id) || IsDrafted(later, id);
      assert IsResolved(events, id) <==> (e.Resolves? && e.id == id) || IsResolved(later, id);
      if e.Resolves? && e.id == id { DraftedOnce(Next(s, e), later, id); }
    }
  }
}
