/** The approval queues as append-only logs of rows, their /pending views and their compaction.
    Rows are whole parsed lines; how they reach the files is QueueFiles. */
module ApprovalQueue {
  import opened Types
  import opened Selection

  /** A row; any of the fields the code reads may be missing. */
  datatype Row = Row(id: Option<string>, status: Option<string>, ts: Option<int>, note: string)

  const RESOLVED_STATUSES: set<string> := {"approved", "denied"}
  const AGENT_TERMINAL: set<string> := {"approved", "denied"}
  const BROKER_TERMINAL: set<string> := {"approved", "denied", "executed"}

  const DAY_SECONDS := 86400

  lemma StatusesByName(status: string)
    ensures status in RESOLVED_STATUSES <==> status == "approved" || status == "denied"
    ensures status in AGENT_TERMINAL <==> status == "approved" || status == "denied"
    ensures status in BROKER_TERMINAL <==> status == "approved" || status == "denied" || status == "executed"
  {}

  predicate HasStatus(r: Row, statuses: set<string>) { r.status.Some? && r.status.value in statuses }

  function Timestamp(r: Row): int { if r.ts.Some? then r.ts.value else 0 }

  /** The last row with this id. */
  function Latest(rows: seq<Row>, id: Option<string>): Option<Row> {
    if rows == [] then None
    else if rows[|rows| - 1].id == id then Some(rows[|rows| - 1])
    else Latest(rows[..|rows| - 1], id)
  }

  // ---- compaction ----

  predicate Archivable(rows: seq<Row>, id: string, terminal: set<string>, cutoff: int) {
    var latest := Latest(rows, Some(id));
    latest.Some? && HasStatus(latest.value, terminal) && Timestamp(latest.value) < cutoff
  }

  function ArchivableIds(rows: seq<Row>, terminal: set<string>, cutoff: int): set<string> {
    set r | r in rows && r.id.Some? && Archivable(rows, r.id.value, terminal, cutoff) :: r.id.value
  }

  predicate Of(r: Row, ids: set<string>) { r.id.Some? && r.id.value in ids }

  function Without(rows: seq<Row>, ids: set<string>): seq<Row> {
    if rows == [] then []
    else
      var rest := Without(rows[..|rows| - 1], ids);
      if Of(rows[|rows| - 1], ids) then rest else rest + [rows[|rows| - 1]]
  }

  function Only(rows: seq<Row>, ids: set<string>): seq<Row> {
    if rows == [] then []
    else
      var rest := Only(rows[..|rows| - 1], ids);
      if Of(rows[|rows| - 1], ids) then rest + [rows[|rows| - 1]] else rest
  }

  function Compacted(rows: seq<Row>, terminal: set<string>, cutoff: int): seq<Row> {
    Without(rows, ArchivableIds(rows, terminal, cutoff))
  }

  lemma {:induction false} LatestIsThere(rows: seq<Row>, id: Option<string>)
    ensures Latest(rows, id).Some? ==> Latest(rows, id).value in rows && Latest(rows, id).value.id == id
  {
    if rows != [] && rows[|rows| - 1].id != id {
      LatestIsThere(rows[..|rows| - 1], id);
    }
  }

  lemma {:induction false} RowHasALatest(rows: seq<Row>, r: Row)
    requires r in rows
    ensures Latest(rows, r.id).Some?
  {
    var n := |rows| - 1;
    if rows[n].id != r.id {
      assert rows == rows[..n] + [rows[n]];
      RowHasALatest(rows[..n], r);
    }
  }

  /** An id has a latest row exactly when it has a row at all, and that row is one of its own. */
  lemma LatestIsARow(rows: seq<Row>, id: Option<string>)
    ensures Latest(rows, id).Some? <==> exists r :: r in rows && r.id == id
    ensures Latest(rows, id).Some? ==> Latest(rows, id).value in rows && Latest(rows, id).value.id == id
  {
    LatestIsThere(rows, id);
    forall r | r in rows && r.id == id ensures Latest(rows, id).Some? { RowHasALatest(rows, r); }
  }

  lemma ArchivableIffListed(rows: seq<Row>, id: string, terminal: set<string>, cutoff: int)
    ensures id in ArchivableIds(rows, terminal, cutoff) <==> Archivable(rows, id, terminal, cutoff)
  {
    LatestIsARow(rows, Some(id));
  }

  lemma {:induction false} LatestWithout(rows: seq<Row>, ids: set<string>, id: Option<string>)
    ensures Latest(Without(rows, ids), id) == if id.Some? && id.value in ids then None else Latest(rows, id)
  {
    if rows != [] {
      var n := |rows| - 1;
      LatestWithout(rows[..n], ids, id);
      if !Of(rows[n], ids) {
        assert Without(rows, ids)[..|Without(rows, ids)| - 1] == Without(rows[..n], ids);
      }
    }
  }

  lemma {:induction false} WithoutHolds(rows: seq<Row>, ids: set<string>, r: Row)
    ensures r in Without(rows, ids) <==> r in rows && !Of(r, ids)
  {
    if rows != [] {
      WithoutHolds(rows[..|rows| - 1], ids, r);
      assert rows == rows[..|rows| - 1] + [rows[|rows| - 1]];
    }
  }

  lemma {:induction false} WithoutNothing(rows: seq<Row>, ids: set<string>)
    ensures Without(rows, ids) == rows <==> forall r | r in rows :: !Of(r, ids)
    ensures |Without(rows, ids)| <= |rows|
  {
    if rows != [] {
      WithoutNothing(rows[..|rows| - 1], ids);
      assert rows == rows[..|rows| - 1] + [rows[|rows| - 1]];
    }
  }

  // ---- the same by position ----

  /** Row j is the last one of its id. */
  predicate LastOfItsId(rows: seq<Row>, j: nat) {
    j < |rows| && forall k | j < k < |rows| :: rows[k].id != rows[j].id
  }

  predicate FirstOfItsId(rows: seq<Row>, j: nat) {
    j < |rows| && forall k | 0 <= k < j :: rows[k].id != rows[j].id
  }

  lemma LastWithout(rows: seq<Row>, j: nat, r: Row)
    requires rows != []
    ensures var n := |rows| - 1;
      LastOfItsId(rows, j) && rows[j] == r <==>
      if rows[n].id == r.id then j == n && rows[n] == r else LastOfItsId(rows[..n], j) && rows[..n][j] == r
  {
    var n := |rows| - 1;
    if j < n {
      assert LastOfItsId(rows, j) <==> LastOfItsId(rows[..n], j) && rows[n].id != rows[j].id;
    }
  }

  lemma {:induction false} LatestIsLast(rows: seq<Row>, r: Row)
    ensures Latest(rows, r.id) == Some(r) <==> exists j: nat :: LastOfItsId(rows, j) && rows[j] == r
  {
    if rows != [] {
      LatestIsLast(rows[..|rows| - 1], r);
      LastWithout(rows, |rows| - 1, r);
      forall j: nat
        ensures LastOfItsId(rows, j) && rows[j] == r <==>
          if rows[|rows| - 1].id == r.id then j == |rows| - 1 && rows[|rows| - 1] == r
          else LastOfItsId(rows[..|rows| - 1], j) && rows[..|rows| - 1][j] == r
      {
        LastWithout(rows, j, r);
      }
    }
  }

  /** The last row of this id has one of these statuses and is older than the retention; a missing time counts
      as 0. */
  predicate Aged(rows: seq<Row>, id: string, statuses: set<string>, now: int, retentionDays: int) {
    exists j | 0 <= j < |rows| ::
      && LastOfItsId(rows, j) && rows[j].id == Some(id)
      && rows[j].status.Some? && rows[j].status.value in statuses
      && (if rows[j].ts.Some? then rows[j].ts.value else 0) + retentionDays * 86400 < now
  }

  lemma ArchivableIffAged(rows: seq<Row>, id: string, terminal: set<string>, now: int, retentionDays: int)
    ensures id in ArchivableIds(rows, terminal, now - retentionDays * DAY_SECONDS) <==>
      Aged(rows, id, terminal, now, retentionDays)
  {
    ArchivableIffListed(rows, id, terminal, now - retentionDays * DAY_SECONDS);
    LatestIsARow(rows, Some(id));
    forall r: Row | r.id == Some(id)
      ensures Latest(rows, Some(id)) == Some(r) <==> exists j: nat :: LastOfItsId(rows, j) && rows[j] == r
    {
      LatestIsLast(rows, r);
    }
  }

  function PositionsOf(rows: seq<Row>, ids: set<string>): set<nat> {
    set i: nat | i < |rows| && rows[i].id.Some? && rows[i].id.value in ids
  }

  function PositionsOutside(rows: seq<Row>, ids: set<string>): set<nat> {
    set i: nat | i < |rows| && !(rows[i].id.Some? && rows[i].id.value in ids)
  }

  lemma {:induction false} SplitByPosition(rows: seq<Row>, ids: set<string>)
    ensures Selects(rows, PositionsOf(rows, ids), Only(rows, ids))
    ensures Selects(rows, PositionsOutside(rows, ids), Without(rows, ids))
  {
    if rows == [] {
      SelectsNothing(rows);
      assert PositionsOf(rows, ids) == {} && PositionsOutside(rows, ids) == {};
    } else {
      var n := |rows| - 1;
      var ins, outs := PositionsOf(rows[..n], ids), PositionsOutside(rows[..n], ids);
      SplitByPosition(rows[..n], ids);
      SelectsOneMore(rows[..n], ins, Only(rows[..n], ids), rows[n]);
      SelectsOneMore(rows[..n], outs, Without(rows[..n], ids), rows[n]);
      assert rows[..n] + [rows[n]] == rows;
      assert PositionsOf(rows, ids) == if Of(rows[n], ids) then ins + {n} else ins;
      assert PositionsOutside(rows, ids) == if Of(rows[n], ids) then outs else outs + {n};
    }
  }

  // ---- the agent's view ----

  /** Assigning to the index by id: a known id keeps its place. */
  function Assign(index: seq<Row>, r: Row): seq<Row> {
    if index == [] then [r]
    else if index[0].id == r.id then [r] + index[1..]
    else [index[0]] + Assign(index[1..], r)
  }

  /** The latest row of every id, in order of the ids' first appearance. */
  function Index(rows: seq<Row>): seq<Row> {
    if rows == [] then [] else Assign(Index(rows[..|rows| - 1]), rows[|rows| - 1])
  }

  function Unresolved(rows: seq<Row>): seq<Row> {
    if rows == [] then []
    else if HasStatus(rows[0], RESOLVED_STATUSES) then Unresolved(rows[1..])
    else [rows[0]] + Unresolved(rows[1..])
  }

  function AgentView(rows: seq<Row>): seq<Row> { Unresolved(Index(rows)) }

  /** GET /pending of the agent. */
  method ListPending(rows: seq<Row>) returns (pending: seq<Row>)
    ensures pending == AgentView(rows)
  {
    var latest: seq<Row> := [];
    for i := 0 to |rows|
      invariant latest == Index(rows[..i])
    {
      assert rows[..i + 1][..i] == rows[..i];
      latest := Assign(latest, rows[i]);
    }
    assert rows[..|rows|] == rows;
    pending := Unresolved(latest);
  }

  ghost predicate DistinctIds(rows: seq<Row>) { forall i, j | 0 <= i < j < |rows| :: rows[i].id != rows[j].id }

  lemma {:induction false} AssignHolds(index: seq<Row>, r: Row, x: Row)
    requires DistinctIds(index)
    ensures DistinctIds(Assign(index, r))
    ensures x in Assign(index, r) <==> x == r || (x in index && x.id != r.id)
  {
    if index != [] {
      assert index == [index[0]] + index[1..];
      if index[0].id != r.id {
        AssignHolds(index[1..], r, x);
        forall y | y in Assign(index[1..], r) ensures y.id != index[0].id { AssignHolds(index[1..], r, y); }
      }
    }
  }

  /** The index holds exactly the latest row of each id. */
  lemma {:induction false} IndexHoldsTheLatest(rows: seq<Row>, x: Row)
    ensures DistinctIds(Index(rows))
    ensures x in Index(rows) <==> Latest(rows, x.id) == Some(x)
  {
    if rows != [] {
      IndexHoldsTheLatest(rows[..|rows| - 1], x);
      AssignHolds(Index(rows[..|rows| - 1]), rows[|rows| - 1], x);
    }
  }

  function WithoutFront(rows: seq<Row>, ids: set<string>): seq<Row> {
    if rows == [] then []
    else if Of(rows[0], ids) then WithoutFront(rows[1..], ids)
    else [rows[0]] + WithoutFront(rows[1..], ids)
  }

  lemma {:induction false} WithoutAssign(index: seq<Row>, r: Row, ids: set<string>)
    ensures WithoutFront(Assign(index, r), ids) ==
      if Of(r, ids) then WithoutFront(index, ids) else Assign(WithoutFront(index, ids), r)
  {
    if index == [] {
      assert WithoutFront([r], ids) == if Of(r, ids) then [] else [r];
    } else {
      WithoutAssign(index[1..], r, ids);
      var head := if index[0].id == r.id then r else index[0];
      var tail := if index[0].id == r.id then index[1..] else Assign(index[1..], r);
      assert Assign(index, r) == [head] + tail && ([head] + tail)[1..] == tail;
    }
  }

  /** Dropping ids commutes with indexing. */
  lemma {:induction false} IndexWithout(rows: seq<Row>, ids: set<string>)
    ensures Index(Without(rows, ids)) == WithoutFront(Index(rows), ids)
  {
    if rows != [] {
      var n := |rows| - 1;
      IndexWithout(rows[..n], ids);
      WithoutAssign(Index(rows[..n]), rows[n], ids);
      if !Of(rows[n], ids) {
        assert Without(rows, ids)[..|Without(rows, ids)| - 1] == Without(rows[..n], ids);
      }
    }
  }

  lemma {:induction false} DroppingResolvedIsInvisible(index: seq<Row>, ids: set<string>)
    requires forall r | r in index && Of(r, ids) :: HasStatus(r, RESOLVED_STATUSES)
    ensures Unresolved(WithoutFront(index, ids)) == Unresolved(index)
  {
    if index != [] {
      DroppingResolvedIsInvisible(index[1..], ids);
      if !Of(index[0], ids) {
        var rest := WithoutFront(index[1..], ids);
        assert WithoutFront(index, ids) == [index[0]] + rest && ([index[0]] + rest)[1..] == rest;
      }
    }
  }

  /** The agent's /pending shows the same rows in the same order before and after a compaction. */
  lemma AgentCompactionIsInvisible(rows: seq<Row>, cutoff: int)
    ensures AgentView(Compacted(rows, AGENT_TERMINAL, cutoff)) == AgentView(rows)
  {
    var ids := ArchivableIds(rows, AGENT_TERMINAL, cutoff);
    IndexWithout(rows, ids);
    forall r | r in Index(rows) && Of(r, ids) ensures HasStatus(r, RESOLVED_STATUSES) {
      IndexHoldsTheLatest(rows, r);
      ArchivableIffListed(rows, r.id.value, AGENT_TERMINAL, cutoff);
    }
    DroppingResolvedIsInvisible(Index(rows), ids);
  }

  // ---- the order of /pending ----

  /** Ids come in the order in which they first appear in the file. */
  ghost predicate InOrderOfAppearance(rows: seq<Row>, view: seq<Row>) {
    forall x, y | 0 <= x < y < |view| :: AppearsBefore(rows, view[x].id, view[y].id)
  }

  predicate IsFirst(rows: seq<Row>, i: nat, id: Option<string>) { FirstOfItsId(rows, i) && rows[i].id == id }

  ghost predicate AppearsBefore(rows: seq<Row>, id: Option<string>, later: Option<string>) {
    exists i: nat, j: nat :: i < j && IsFirst(rows, i, id) && IsFirst(rows, j, later)
  }

  lemma AppearsBeforeStays(rows: seq<Row>, r: Row, id: Option<string>, later: Option<string>)
    requires AppearsBefore(rows, id, later)
    ensures AppearsBefore(rows + [r], id, later)
  {
    var i: nat, j: nat :| i < j && IsFirst(rows, i, id) && IsFirst(rows, j, later);
    assert IsFirst(rows + [r], i, id) && IsFirst(rows + [r], j, later);
  }

  lemma {:induction false} AssignKeepsPlaces(index: seq<Row>, r: Row)
    ensures (exists i :: 0 <= i < |index| && index[i].id == r.id) ==>
      |Assign(index, r)| == |index| && forall i | 0 <= i < |index| :: Assign(index, r)[i].id == index[i].id
    ensures !(exists i :: 0 <= i < |index| && index[i].id == r.id) ==> Assign(index, r) == index + [r]
  {
    if index != [] {
      AssignKeepsPlaces(index[1..], r);
      if index[0].id != r.id {
        if i :| 0 <= i < |index| && index[i].id == r.id { assert index[1..][i - 1].id == r.id; }
        if i :| 0 <= i < |index[1..]| && index[1..][i].id == r.id { assert index[i + 1].id == r.id; }
      }
    }
  }

  lemma {:induction false} FirstRowOf(rows: seq<Row>, j: nat) returns (i: nat)
    requires j < |rows|
    ensures i <= j && FirstOfItsId(rows, i) && rows[i].id == rows[j].id
  {
    if k: nat :| k < j && rows[k].id == rows[j].id { i := FirstRowOf(rows, k); } else { i := j; }
  }

  lemma {:induction false} IndexInOrder(rows: seq<Row>)
    ensures InOrderOfAppearance(rows, Index(rows))
  {
    if rows != [] {
      var n, r := |rows| - 1, rows[|rows| - 1];
      var before, index := rows[..n], Index(rows[..n]);
      IndexInOrder(before);
      AssignKeepsPlaces(index, r);
      assert before + [r] == rows;
      forall x, y | 0 <= x < y < |index| ensures AppearsBefore(rows, index[x].id, index[y].id) {
        AppearsBeforeStays(before, r, index[x].id, index[y].id);
      }
      if !exists i :: 0 <= i < |index| && index[i].id == r.id {
        NewIdComesLast(before, r, index);
      }
    }
  }

  lemma NewIdComesLast(before: seq<Row>, r: Row, index: seq<Row>)
    requires index == Index(before) && !exists i :: 0 <= i < |index| && index[i].id == r.id
    ensures forall x | 0 <= x < |index| :: AppearsBefore(before + [r], index[x].id, r.id)
  {
    var rows := before + [r];
    forall k | 0 <= k < |before| ensures before[k].id != r.id {
      if before[k].id == r.id {
        LatestIsARow(before, r.id);
        IndexHoldsTheLatest(before, Latest(before, r.id).value);
      }
    }
    assert IsFirst(rows, |before|, r.id);
    forall x | 0 <= x < |index| ensures AppearsBefore(rows, index[x].id, r.id) {
      IndexHoldsTheLatest(before, index[x]);
      LatestIsThere(before, index[x].id);
      var j :| 0 <= j < |before| && before[j] == index[x];
      var i := FirstRowOf(before, j);
      assert IsFirst(rows, i, index[x].id);
    }
  }

  function UnresolvedAt(rows: seq<Row>): set<nat> {
    set i: nat | i < |rows| && !HasStatus(rows[i], RESOLVED_STATUSES)
  }

  lemma {:induction false} UnresolvedIsSelected(rows: seq<Row>)
    ensures Selects(rows, UnresolvedAt(rows), Unresolved(rows))
  {
    if rows == [] {
      SelectsNothing(rows);
      assert UnresolvedAt(rows) == {};
    } else {
      var rest, keep := rows[1..], UnresolvedAt(rows[1..]);
      UnresolvedIsSelected(rest);
      SelectsBehind(rows[0], rest, keep, Unresolved(rest));
      assert [rows[0]] + rest == rows;
      PositionsBehind(UnresolvedAt(rows), keep);
    }
  }

  /** /pending by position: the last row of every id, unless that is approved or denied, each once, in the order
      in which the ids first appear. */
  lemma PendingByPosition(rows: seq<Row>)
    ensures forall r :: r in AgentView(rows) <==>
      && r.status != Some("approved") && r.status != Some("denied")
      && exists j: nat :: LastOfItsId(rows, j) && rows[j] == r
    ensures DistinctIds(AgentView(rows)) && InOrderOfAppearance(rows, AgentView(rows))
  {
    var index, view := Index(rows), AgentView(rows);
    IndexInOrder(rows);
    UnresolvedIsSelected(index);
    forall r ensures DistinctIds(index) && (r in index <==> Latest(rows, r.id) == Some(r)) {
      IndexHoldsTheLatest(rows, r);
    }
    forall r ensures r in view <==> Latest(rows, r.id) == Some(r) && !HasStatus(r, RESOLVED_STATUSES) {
      UnresolvedHolds(index, r);
    }
    forall r: Row
      ensures Latest(rows, r.id) == Some(r) <==> exists j: nat :: LastOfItsId(rows, j) && rows[j] == r
    {
      LatestIsLast(rows, r);
    }
    var at :| Picks(index, at, view) && forall i :: i in at <==> i in UnresolvedAt(index);
  }

  // ---- which ids /pending shows ----

  ghost predicate Shown(rows: seq<Row>, id: string) { exists r :: r in AgentView(rows) && r.id == Some(id) }

  lemma {:induction false} UnresolvedHolds(rows: seq<Row>, r: Row)
    ensures r in Unresolved(rows) <==> r in rows && !HasStatus(r, RESOLVED_STATUSES)
  {
    if rows != [] {
      UnresolvedHolds(rows[1..], r);
      assert rows == [rows[0]] + rows[1..];
    }
  }

  lemma ShownIffUnresolved(rows: seq<Row>, id: string)
    ensures Shown(rows, id) <==>
      Latest(rows, Some(id)).Some? && !HasStatus(Latest(rows, Some(id)).value, RESOLVED_STATUSES)
  {
    LatestIsARow(rows, Some(id));
    forall r ensures r in AgentView(rows) <==> Latest(rows, r.id) == Some(r) && !HasStatus(r, RESOLVED_STATUSES) {
      UnresolvedHolds(Index(rows), r);
      IndexHoldsTheLatest(rows, r);
    }
    if Latest(rows, Some(id)).Some? && !HasStatus(Latest(rows, Some(id)).value, RESOLVED_STATUSES) {
      assert Latest(rows, Some(id)).value in AgentView(rows);
    }
  }

  // ---- the compaction script ----

  datatype Line = Blank | Malformed(text: string) | Parsed(row: Row)

  function Entries(lines: seq<Line>): seq<Row> {
    if lines == [] then []
    else
      var rest := Entries(lines[..|lines| - 1]);
      match lines[|lines| - 1]
      case Parsed(row) => rest + [row]
      case _ => rest
  }

  function Written(rows: seq<Row>): seq<Line> { seq(|rows|, i requires 0 <= i < |rows| => Parsed(rows[i])) }

  /** The ids whose rows leave, by position. */
  function AgedIds(rows: seq<Row>, terminal: set<string>, now: int, retentionDays: int): set<string> {
    set r | r in rows && r.id.Some? && Aged(rows, r.id.value, terminal, now, retentionDays) :: r.id.value
  }

  /** What a compaction does to the two files: the rows of the aged ids, and only they, move from the one to the
      end of the other, all in their order; the number returned is that of the ids. Nothing is written in
      a dry run or when no id is aged. */
  ghost predicate AgedOut(live: seq<Line>, archive: seq<Line>, live': seq<Line>, archive': seq<Line>, archived: nat,
                          terminal: set<string>, now: int, retentionDays: int, dryRun: bool) {
    var rows := Entries(live);
    var ids := AgedIds(rows, terminal, now, retentionDays);
    && archived == |ids|
    && if dryRun || ids == {} then live' == live && archive' == archive
       else
         && live' == Written(Entries(live')) && Selects(rows, PositionsOutside(rows, ids), Entries(live'))
         && archive <= archive' && archive'[|archive|..] == Written(Entries(archive'[|archive|..]))
         && Selects(rows, PositionsOf(rows, ids), Entries(archive'[|archive|..]))
  }

  lemma ByPosition(live: seq<Line>, archive: seq<Line>, ids: set<string>, terminal: set<string>, now: int,
                   retentionDays: int)
    requires ids == ArchivableIds(Entries(live), terminal, now - retentionDays * DAY_SECONDS)
    ensures AgedOut(live, archive, live, archive, |ids|, terminal, now, retentionDays, true)
    ensures ids == {} ==> AgedOut(live, archive, live, archive, 0, terminal, now, retentionDays, false)
    ensures ids != {} ==>
      AgedOut(live, archive, Written(Without(Entries(live), ids)), archive + Written(Only(Entries(live), ids)), |ids|,
              terminal, now, retentionDays, false)
  {
    var rows := Entries(live);
    forall id ensures id in ids <==> id in AgedIds(rows, terminal, now, retentionDays) {
      ArchivableIffAged(rows, id, terminal, now, retentionDays);
    }
    assert ids == AgedIds(rows, terminal, now, retentionDays);
    SplitByPosition(rows, ids);
    WrittenReadsBack(Without(rows, ids));
    WrittenReadsBack(Only(rows, ids));
    assert (archive + Written(Only(rows, ids)))[|archive|..] == Written(Only(rows, ids));
  }

  lemma {:induction false} WrittenReadsBack(rows: seq<Row>)
    ensures Entries(Written(rows)) == rows
  {
    if rows != [] {
      var n := |rows| - 1;
      WrittenReadsBack(rows[..n]);
      assert Written(rows)[..n] == Written(rows[..n]);
    }
  }

  class QueueFile {
    var live: seq<Line>
    var archive: seq<Line>
    const terminal: set<string>

    constructor (terminal: set<string>)
      ensures live == [] && archive == [] && this.terminal == terminal
    {
      live, archive := [], [];
      this.terminal := terminal;
    }

    /** The appended row becomes its id's latest, and no other id's: readers see it at once. */
    method Append(row: Row)
      modifies this`live
      ensures old(live) <= live && Entries(live) == Entries(old(live)) + [row]
      ensures forall id ::
        Latest(Entries(live), id) == if id == row.id then Some(row) else Latest(Entries(old(live)), id)
    {
      ghost var rows := Entries(live);
      live := live + [Parsed(row)];
      assert live[..|live| - 1] == old(live) && (rows + [row])[..|rows|] == rows;
    }

    /** compact(): both queues' script, which differ in the terminal statuses only. Lines that do
        not parse stay out of the rewritten file. */
    method Compact(now: int, retentionDays: int, dryRun: bool) returns (archived: nat)
      modifies this`live, this`archive
      ensures
        var rows := Entries(old(live));
        var ids := ArchivableIds(rows, terminal, now - retentionDays * DAY_SECONDS);
        && archived == |ids|
        && live == (if dryRun || ids == {} then old(live) else Written(Without(rows, ids)))
        && archive == (if dryRun || ids == {} then old(archive) else old(archive) + Written(Only(rows, ids)))
      ensures AgedOut(old(live), old(archive), live, archive, archived, terminal, now, retentionDays, dryRun)
    {
      var entries: seq<Row> := [];
      for i := 0 to |live|
        invariant entries == Entries(live[..i])
      {
        assert live[..i + 1][..i] == live[..i];
        if live[i].Parsed? {
          entries := entries + [live[i].row];
        }
      }
      assert live[..|live|] == live;
      var latest: map<string, Row> := map[];
      for i := 0 to |entries|
        invariant forall id :: id in latest <==> Latest(entries[..i], Some(id)).Some?
        invariant forall id | id in latest :: Latest(entries[..i], Some(id)) == Some(latest[id])
      {
        assert entries[..i + 1][..i] == entries[..i];
        var e := entries[i];
        if e.id.Some? {
          latest := latest[e.id.value := e];
        }
      }
      assert entries[..|entries|] == entries;
      var cutoff := now - retentionDays * DAY_SECONDS;
      var ids := set id | id in latest && HasStatus(latest[id], terminal) && Timestamp(latest[id]) < cutoff;
      assert ids == ArchivableIds(entries, terminal, cutoff) by {
        forall id ensures id in ids <==> id in ArchivableIds(entries, terminal, cutoff) {
          ArchivableIffListed(entries, id, terminal, cutoff);
        }
      }
      ByPosition(live, archive, ids, terminal, now, retentionDays);
      if ids == {} { return 0; }
      if !dryRun {
        archive := archive + Written(Only(entries, ids));
        live := Written(Without(entries, ids));
      }
      archived := |ids|;
    }
  }

  /** Compaction conserves rows: each goes to exactly one of the two files, in its old order. */
  lemma {:induction false} CompactionConserves(rows: seq<Row>, ids: set<string>)
    ensures multiset(Without(rows, ids)) + multiset(Only(rows, ids)) == multiset(rows)
    ensures forall r | r in Without(rows, ids) :: !Of(r, ids)
    ensures forall r | r in Only(rows, ids) :: Of(r, ids)
  {
    if rows != [] {
      CompactionConserves(rows[..|rows| - 1], ids);
      assert rows == rows[..|rows| - 1] + [rows[|rows| - 1]];
    }
  }
}
