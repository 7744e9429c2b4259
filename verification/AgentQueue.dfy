/** The agent's queue over whole runs of the containment protocol, with compactions in between:
    an alert leaves /pending only once its block is confirmed. */
module AgentQueue {
  import opened Types
  import opened ApprovalQueue
  import opened BrokerRpc
  import opened Containment
  import opened ContainmentClaims
  import opened ContainmentRecord
  import QueueFiles
  import QueueRecovery

  // ---- a queue that is appended to and compacted ----

  datatype Step = Appends(row: Row) | Compacts(cutoff: int)

  function Live(steps: seq<Step>): seq<Row> {
    if steps == [] then []
    else
      var before := Live(steps[..|steps| - 1]);
      match steps[|steps| - 1]
      case Appends(row) => before + [row]
      case Compacts(cutoff) => Compacted(before, AGENT_TERMINAL, cutoff)
  }

  function Appended(steps: seq<Step>): seq<Row> {
    if steps == [] then []
    else
      var before := Appended(steps[..|steps| - 1]);
      match steps[|steps| - 1]
      case Appends(row) => before + [row]
      case Compacts(_) => before
  }

  /** Compaction forgets an id only when its latest row ever appended is a resolution. */
  lemma {:induction false} LiveKeepsTheLatest(steps: seq<Step>, id: Option<string>)
    ensures var live, ever := Latest(Live(steps), id), Latest(Appended(steps), id);
      live == ever || (live == None && ever.Some? && HasStatus(ever.value, RESOLVED_STATUSES))
  {
    if steps != [] {
      var n := |steps| - 1;
      LiveKeepsTheLatest(steps[..n], id);
      var live, ever := Live(steps[..n]), Appended(steps[..n]);
      match steps[n]
      case Appends(row) =>
        assert (live + [row])[..|live|] == live && (ever + [row])[..|ever|] == ever;
      case Compacts(cutoff) =>
        var ids := ArchivableIds(live, AGENT_TERMINAL, cutoff);
        LatestWithout(live, ids, id);
        if id.Some? { ArchivableIffListed(live, id.value, AGENT_TERMINAL, cutoff); }
    }
  }

  /** However often the queue is compacted, an id is shown exactly when its latest row ever
      appended is not a resolution. */
  lemma ShownAcrossCompactions(steps: seq<Step>, id: string)
    ensures Shown(Live(steps), id) <==>
      Latest(Appended(steps), Some(id)).Some? && !HasStatus(Latest(Appended(steps), Some(id)).value, RESOLVED_STATUSES)
  {
    LiveKeepsTheLatest(steps, Some(id));
    ShownIffUnresolved(Live(steps), id);
  }

  // ---- the rows of a protocol run ----

  function StatusOf(e: Entry): Option<string> {
    match e
    case DraftRow(_, _, _, _) => Some("pending")
    case ClaimedRow(_, _) => Some("claimed")
    case OutcomeRow(_, _, Isolated) => Some("approved")
    case OutcomeRow(_, _, NotDispatched) => Some("isolation_failed")
    case OutcomeRow(_, _, OutcomeUnknown) => Some("isolation_unknown")
    case _ => None   // not a queue row
  }

  /** `rows` are the queue rows of `log`, in order, whatever their times and other fields. */
  ghost predicate Records(rows: seq<Row>, log: seq<Entry>)
    decreases |log|
  {
    if log == [] then rows == []
    else
      var n := |log| - 1;
      if StatusOf(log[n]).None? then Records(rows, log[..n])
      else
        && rows != [] && rows[|rows| - 1].status == StatusOf(log[n]) && rows[|rows| - 1].id == Some(log[n].key.alertId)
        && Records(rows[..|rows| - 1], log[..n])
  }

  lemma {:induction false} RowComesFromTheLog(rows: seq<Row>, log: seq<Entry>, r: Row) returns (e: Entry)
    requires Records(rows, log) && r in rows
    ensures e in log && StatusOf(e) == r.status && StatusOf(e).Some? && r.id == Some(e.key.alertId)
    decreases |log|
  {
    var n := |log| - 1;
    if StatusOf(log[n]).None? {
      e := RowComesFromTheLog(rows, log[..n], r);
    } else if r == rows[|rows| - 1] {
      e := log[n];
    } else {
      e := RowComesFromTheLog(rows[..|rows| - 1], log[..n], r);
    }
  }

  /** The last queue row of this id in the record records a confirmed success. */
  predicate EndsIsolated(log: seq<Entry>, id: string) {
    exists j | 0 <= j < |log| ::
      && log[j].OutcomeRow? && log[j].verdict == Isolated && log[j].key.alertId == id
      && forall k | j < k < |log| && log[k].key.alertId == id :: log[k].PhaseWrite? || log[k].ClaimSettled?
  }

  lemma {:induction false} LatestRowRecords(rows: seq<Row>, log: seq<Entry>, id: string)
    requires Records(rows, log)
    ensures (Latest(rows, Some(id)).Some? && HasStatus(Latest(rows, Some(id)).value, RESOLVED_STATUSES)) <==>
      EndsIsolated(log, id)
    decreases |log|
  {
    if log != [] {
      var n, e := |log| - 1, log[|log| - 1];
      if StatusOf(e).None? {
        LatestRowRecords(rows, log[..n], id);
        if EndsIsolated(log[..n], id) { OneMoreEntry(log, id); }
      } else {
        LatestRowRecords(rows[..|rows| - 1], log[..n], id);
        if e.key.alertId != id && EndsIsolated(log[..n], id) { OneMoreEntry(log, id); }
      }
    }
  }

  lemma OneMoreEntry(log: seq<Entry>, id: string)
    requires log != [] && EndsIsolated(log[..|log| - 1], id)
    requires log[|log| - 1].key.alertId == id ==> StatusOf(log[|log| - 1]).None?
    ensures EndsIsolated(log, id)
  {
    var before := log[..|log| - 1];
    var j :| 0 <= j < |before| && before[j].OutcomeRow? && before[j].verdict == Isolated && before[j].key.alertId == id
      && forall k | j < k < |before| && before[k].key.alertId == id :: before[k].PhaseWrite? || before[k].ClaimSettled?;
    assert log[j] == before[j];
  }

  /** With any compactions in between, an id that was ever queued is shown exactly until its confirmed success is
      queued: nothing else takes it away, and that does. */
  lemma ShownUntilIsolated(steps: seq<Step>, log: seq<Entry>, id: string)
    requires Records(Appended(steps), log) && Latest(Appended(steps), Some(id)).Some?
    ensures Shown(Live(steps), id) <==> !EndsIsolated(log, id)
  {
    ShownAcrossCompactions(steps, id);
    LatestRowRecords(Appended(steps), log, id);
  }

  ghost predicate BlockConfirmed(s: State, id: string) {
    exists a ::
      && a in s.attempts
      && s.attempts[a].key.alertId == id
      && LeftABlock(s, a)
      && OutcomeRow(s.attempts[a].key, a, Isolated) in s.log
  }

  /** In every run, with any compactions of its queue in between: an id that was ever queued is
      still shown, or its block was confirmed and is on a router. */
  lemma LeavesPendingOnlyWhenIsolated(timing: Timing, now: int, events: seq<Event>, steps: seq<Step>, id: string)
    requires Run(Init(timing, now), events)
    requires Records(Appended(steps), Final(Init(timing, now), events).log)
    requires Latest(Appended(steps), Some(id)).Some?
    ensures Shown(Live(steps), id) || BlockConfirmed(Final(Init(timing, now), events), id)
  {
    var s := Final(Init(timing, now), events);
    ShownAcrossCompactions(steps, id);
    var latest := Latest(Appended(steps), Some(id)).value;
    if HasStatus(latest, RESOLVED_STATUSES) {
      LatestIsARow(Appended(steps), Some(id));
      var e := RowComesFromTheLog(Appended(steps), s.log, latest);
      InitOk(timing, now);
      RunKeepsRecord(Init(timing, now), events);
      assert EntryOk(s, e);
      assert e == OutcomeRow(s.attempts[e.attempt].key, e.attempt, Isolated);
    }
  }

  // ---- the same over the files, crashes included ----

  /** This row is a queue row of the record, whatever its time and other fields. */
  ghost predicate IsRecorded(row: Row, log: seq<Entry>) {
    exists e :: e in log && StatusOf(e).Some? && StatusOf(e) == row.status && row.id == Some(e.key.alertId)
  }

  predicate Appending(pc: QueueFiles.Pc) { pc.AppendWaiting? || pc.AppendLocked? || pc.AppendOpened? }

  /** Everything the appenders of this run write is in the record. */
  ghost predicate AppendsTheRecord(events: seq<QueueFiles.Event>, log: seq<Entry>) {
    forall e | e in events && e.Spawn? && e.pc.AppendWaiting? :: IsRecorded(e.pc.row, log)
  }

  ghost predicate PendingRowsRecorded(q: QueueFiles.State, log: seq<Entry>) {
    forall i | i in q.procs && Appending(q.procs[i]) :: IsRecorded(q.procs[i].row, log)
  }

  lemma StepKeepsRows(q: QueueFiles.State, e: QueueFiles.Event, log: seq<Entry>)
    requires PendingRowsRecorded(q, log) && QueueFiles.Enabled(q, e)
    requires e.Spawn? && e.pc.AppendWaiting? ==> IsRecorded(e.pc.row, log)
    ensures PendingRowsRecorded(QueueFiles.Next(q, e), log)
  {}

  /** Some write of the run continued the line of the row that showed the id. */
  ghost predicate SpoiledAlong(q: QueueFiles.State, events: seq<QueueFiles.Event>, id: string)
    requires QueueFiles.Run(q, events)
    decreases |events|
  {
    events != [] &&
    (QueueRecovery.Spoils(q, events[0], id) || SpoiledAlong(QueueFiles.Next(q, events[0]), events[1..], id))
  }

  lemma {:induction false} TakenIsResolvedOrSpoiled(q: QueueFiles.State, events: seq<QueueFiles.Event>, id: string,
                                                    log: seq<Entry>)
    requires QueueFiles.Run(q, events) && QueueRecovery.TakenAlong(q, events, id)
    requires PendingRowsRecorded(q, log) && AppendsTheRecord(events, log)
    ensures SpoiledAlong(q, events, id) || IsResolvedIn(log, id)
    decreases |events|
  {
    var e := events[0];
    if QueueRecovery.Resolves(q, e, id) {
      assert Appending(q.procs[e.i]) && IsRecorded(q.procs[e.i].row, log);
    } else if !QueueRecovery.Spoils(q, e, id) {
      assert e in events;
      StepKeepsRows(q, e, log);
      TakenIsResolvedOrSpoiled(QueueFiles.Next(q, e), events[1..], id, log);
    }
  }

  ghost predicate IsResolvedIn(log: seq<Entry>, id: string) {
    exists e :: e in log && e.key.alertId == id && e.OutcomeRow? && e.verdict == Isolated
  }

  lemma ResolvedIsConfirmed(timing: Timing, now: int, events: seq<Event>, id: string)
    requires Run(Init(timing, now), events) && IsResolvedIn(Final(Init(timing, now), events).log, id)
    ensures BlockConfirmed(Final(Init(timing, now), events), id)
  {
    var s := Final(Init(timing, now), events);
    var e :| e in s.log && e.key.alertId == id && e.OutcomeRow? && e.verdict == Isolated;
    InitOk(timing, now);
    RunKeepsRecord(Init(timing, now), events);
    assert EntryOk(s, e);
    assert e == OutcomeRow(s.attempts[e.attempt].key, e.attempt, Isolated);
  }

  /** In every protocol run whose queue rows go to the file by any interleaving of appenders and
      compactions, crashes anywhere: an id once shown in /pending is still shown, or its block was
      confirmed and is on a router, or the row that showed it had lost its line end in a crash and was
      continued by the next write. */
  lemma LeavesPendingOnlyWhenIsolatedOrSpoiled(timing: Timing, now: int, events: seq<Event>,
                                               before: seq<QueueFiles.Event>, after: seq<QueueFiles.Event>, id: string)
    requires Run(Init(timing, now), events)
    requires var log := Final(Init(timing, now), events).log;
      AppendsTheRecord(before, log) && AppendsTheRecord(after, log)
    requires QueueFiles.Run(QueueFiles.Init(AGENT_TERMINAL), before)
    requires var q := QueueFiles.Final(QueueFiles.Init(AGENT_TERMINAL), before);
      QueueFiles.Run(q, after) && Shown(QueueFiles.Rows(QueueFiles.FileAt(q, q.live)), id)
    ensures var q := QueueFiles.Final(QueueFiles.Init(AGENT_TERMINAL), before);
      var r := QueueFiles.Final(q, after);
      || Shown(QueueFiles.Rows(QueueFiles.FileAt(r, r.live)), id)
      || BlockConfirmed(Final(Init(timing, now), events), id)
      || SpoiledAlong(q, after, id)
  {
    var start, log := QueueFiles.Init(AGENT_TERMINAL), Final(Init(timing, now), events).log;
    var q := QueueFiles.Final(start, before);
    QueueFiles.RunKeepsInv(start, before);
    QueueRecovery.RunKeepsChoice(start, before);
    RunKeepsRows(start, before, log);
    QueueRecovery.LeftPendingIsTaken(q, after, id);
    if QueueRecovery.TakenAlong(q, after, id) {
      TakenIsResolvedOrSpoiled(q, after, id, log);
      if IsResolvedIn(log, id) { ResolvedIsConfirmed(timing, now, events, id); }
    }
  }

  lemma {:induction false} RunKeepsRows(q: QueueFiles.State, events: seq<QueueFiles.Event>, log: seq<Entry>)
    requires PendingRowsRecorded(q, log) && QueueFiles.Run(q, events) && AppendsTheRecord(events, log)
    ensures PendingRowsRecorded(QueueFiles.Final(q, events), log)
    decreases |events|
  {
    if events != [] {
      assert events[0] in events;
      StepKeepsRows(q, events[0], log);
      RunKeepsRows(QueueFiles.Next(q, events[0]), events[1..], log);
    }
  }
}
