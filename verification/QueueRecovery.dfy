/** What a compaction makes of the live queue file, seen by a reader without the lock, after crashes,
    and next to an archive that a crash tore. */
module QueueRecovery {
  import opened Types
  import opened ApprovalQueue
  import opened QueueFiles

  // ---- what a compaction makes of the live file ----

  /** The live file after an uninterrupted compaction. */
  function CompactedFile(f: File, terminal: set<string>, cutoff: int): File {
    var ids := ArchivableIds(Rows(f), terminal, cutoff);
    if ids == {} then f else File(Written(Without(Rows(f), ids)), NoTail)
  }

  /** A process archives the ids its cutoff calls for. */
  ghost predicate Chosen(s: State, pc: Pc) {
    Compacting(pc) ==> pc.ids != {} && pc.ids == ArchivableIds(pc.entries, s.terminal, pc.cutoff)
  }

  ghost predicate AllChosen(s: State) { forall i | i in s.procs :: Chosen(s, s.procs[i]) }

  lemma StepKeepsChoice(s: State, e: Event)
    requires AllChosen(s) && Enabled(s, e)
    ensures AllChosen(Next(s, e)) && Next(s, e).terminal == s.terminal
  {
    if e.Step? { TakeKeepsChoice(s, e.i, s.procs[e.i], e.inode); }
  }

  lemma TakeKeepsChoice(s: State, i: nat, pc: Pc, inode: nat)
    requires Chosen(s, pc)
    ensures
      var t := Take(s, i, pc, inode);
      t.terminal == s.terminal && t.procs == s.procs[i := t.procs[i]] && Chosen(t, t.procs[i])
  {}

  /** A process in the middle of its own append. */
  predicate WritesAppend(s: State, e: Event) { !e.Spawn? && e.i in s.procs && s.procs[e.i].AppendOpened? }

  predicate Replaces(s: State, e: Event) { e.Step? && e.i in s.procs && AtReplace(s.procs[e.i]) }

  /** Apart from appends, the live file only ever changes by becoming its compacted self. */
  lemma LiveChangesAtomically(s: State, e: Event)
    requires Inv(s) && AllChosen(s) && Enabled(s, e) && !WritesAppend(s, e)
    ensures var f, g := FileAt(s, s.live), FileAt(Next(s, e), Next(s, e).live);
      if Replaces(s, e) then g == CompactedFile(f, s.terminal, s.procs[e.i].cutoff) else g == f
  {
    match e
    case Spawn(i, pc) =>
    case Crash(i, tear) => CrashSparesLive(s, i, s.procs[i], tear);
    case Step(i, inode) => TakeChangesLiveAtomically(s, i, s.procs[i], inode);
  }

  lemma TakeChangesLiveAtomically(s: State, i: nat, pc: Pc, inode: nat)
    requires FilesOk(s) && PcOk(s, pc) && Chosen(s, pc) && inode !in s.inodes && i in s.procs && !pc.AppendOpened?
    ensures var t := Take(s, i, pc, inode);
      FileAt(t, t.live) ==
      if AtReplace(pc) then CompactedFile(FileAt(s, s.live), s.terminal, pc.cutoff) else FileAt(s, s.live)
  {
    if pc.Archiving? {
      if pc.written < |Only(pc.entries, pc.ids)| { ArchiveLineOk(s, i, pc); } else { OpenTmpOk(s, i, pc, inode); }
    } else if pc.WritingTmp? {
      if pc.written < |Without(pc.entries, pc.ids)| { TmpLineOk(s, i, pc); } else { ReplaceOk(s, i, pc); }
    } else {
      OpeningSparesLive(s, i, pc, inode);
    }
  }

  lemma CrashSparesLive(s: State, i: nat, pc: Pc, tear: Tear)
    requires FilesOk(s) && PcOk(s, pc) && !pc.AppendOpened?
    ensures FileAt(Crashed(s, i, pc, tear), s.live) == FileAt(s, s.live)
  {}

  lemma OpeningSparesLive(s: State, i: nat, pc: Pc, inode: nat)
    requires FilesOk(s) && inode !in s.inodes && !Compacting(pc) && !pc.AppendOpened?
    ensures var t := Take(s, i, pc, inode); FileAt(t, t.live) == FileAt(s, s.live)
  {}

  /** The agent's /pending, which reads the live file without the lock, never sees a compaction. */
  lemma ReadersNeverNotice(s: State, e: Event)
    requires s.terminal == AGENT_TERMINAL
    requires Inv(s) && AllChosen(s) && Enabled(s, e) && !WritesAppend(s, e)
    ensures AgentView(Rows(FileAt(Next(s, e), Next(s, e).live))) == AgentView(Rows(FileAt(s, s.live)))
  {
    LiveChangesAtomically(s, e);
    if Replaces(s, e) { CompactedView(FileAt(s, s.live), s.procs[e.i].cutoff); }
  }

  lemma CompactedRows(f: File, terminal: set<string>, cutoff: int)
    ensures Rows(CompactedFile(f, terminal, cutoff)) == Compacted(Rows(f), terminal, cutoff)
  {
    var ids := ArchivableIds(Rows(f), terminal, cutoff);
    WrittenReadsBack(Without(Rows(f), ids));
    WithoutNothing(Rows(f), ids);
  }

  lemma CompactedView(f: File, cutoff: int)
    ensures AgentView(Rows(CompactedFile(f, AGENT_TERMINAL, cutoff))) == AgentView(Rows(f))
  {
    CompactedRows(f, AGENT_TERMINAL, cutoff);
    AgentCompactionIsInvisible(Rows(f), cutoff);
  }

  // ---- which ids a reader loses ----

  /** Some of the append reaches the file. */
  predicate Reaches(e: Event) { e.Step? || (e.Crash? && e.tear != Nothing) }

  /** A whole row reaches the file, with or without its line end. */
  predicate ReachesWhole(e: Event) { e.Step? || (e.Crash? && e.tear == AllButItsEnd) }

  /** The event appends a resolution of this id, and it can be read. */
  predicate Resolves(s: State, e: Event, id: string) {
    && WritesAppend(s, e) && ReachesWhole(e) && FileAt(s, s.live).tail == NoTail
    && s.procs[e.i].row.id == Some(id) && HasStatus(s.procs[e.i].row, RESOLVED_STATUSES)
  }

  /** The event continues the line of the row that showed this id, which a crash had left without its end,
      and nothing before that row shows it. */
  ghost predicate Spoils(s: State, e: Event, id: string) {
    && WritesAppend(s, e) && Reaches(e) && FileAt(s, s.live).tail.Unterminated?
    && FileAt(s, s.live).tail.row.id == Some(id) && !Shown(Terminated(FileAt(s, s.live)), id)
  }

  /** An id leaves /pending, as readers without the lock see it, exactly when its resolution is appended or
      the row that showed it is spoiled: no other step, crash or compaction takes it away. */
  lemma LeavesPendingIff(s: State, e: Event, id: string)
    requires s.terminal == AGENT_TERMINAL && Inv(s) && AllChosen(s) && Enabled(s, e)
    requires Shown(Rows(FileAt(s, s.live)), id)
    ensures !Shown(Rows(FileAt(Next(s, e), Next(s, e).live)), id) <==> Resolves(s, e, id) || Spoils(s, e, id)
  {
    if WritesAppend(s, e) {
      AppendTakesIff(s, e, id);
    } else {
      ReadersNeverNotice(s, e);
    }
  }

  lemma AppendTakesIff(s: State, e: Event, id: string)
    requires WritesAppend(s, e) && PcOk(s, s.procs[e.i]) && Enabled(s, e) && Shown(Rows(FileAt(s, s.live)), id)
    ensures !Shown(Rows(FileAt(Next(s, e), Next(s, e).live)), id) <==> Resolves(s, e, id) || Spoils(s, e, id)
  {
    AppendWrites(s, e);
    WriteTakesIff(FileAt(s, s.live), s.procs[e.i].row, e, id);
  }

  function AfterWrite(f: File, row: Row, e: Event): File
    requires !e.Spawn?
  {
    if e.Step? then WriteLine(f, row) else TornWrite(f, row, e.tear)
  }

  lemma AppendWrites(s: State, e: Event)
    requires WritesAppend(s, e) && PcOk(s, s.procs[e.i]) && Enabled(s, e)
    ensures FileAt(Next(s, e), Next(s, e).live) == AfterWrite(FileAt(s, s.live), s.procs[e.i].row, e)
  {}

  lemma WriteTakesIff(f: File, row: Row, e: Event, id: string)
    requires Shown(Rows(f), id) && !e.Spawn?
    ensures !Shown(Rows(AfterWrite(f, row, e)), id) <==>
      || (ReachesWhole(e) && f.tail == NoTail && row.id == Some(id) && HasStatus(row, RESOLVED_STATUSES))
      || (Reaches(e) && f.tail.Unterminated? && f.tail.row.id == Some(id) && !Shown(Terminated(f), id))
  {
    RowsAfterWrite(f, row, e);
    RowTakes(Rows(f), row, id);
    if f.tail.Unterminated? { RowTakes(Terminated(f), f.tail.row, id); }
  }

  /** What a reader gets after a write, whole or cut short. */
  lemma RowsAfterWrite(f: File, row: Row, e: Event)
    requires !e.Spawn?
    ensures Rows(AfterWrite(f, row, e)) ==
      if !Reaches(e) then Rows(f)
      else if f.tail != NoTail then Terminated(f)
      else if ReachesWhole(e) then Rows(f) + [row] else Rows(f)
  {
    AppendSurvivesIff(f, row);
  }

  /** One more row takes an id away exactly when it is its resolution. */
  lemma RowTakes(rows: seq<Row>, row: Row, id: string)
    ensures Shown(rows, id) ==> (!Shown(rows + [row], id) <==> row.id == Some(id) && HasStatus(row, RESOLVED_STATUSES))
    ensures !Shown(rows, id) && Shown(rows + [row], id) ==> row.id == Some(id)
  {
    ShownIffUnresolved(rows, id);
    ShownIffUnresolved(rows + [row], id);
    assert (rows + [row])[..|rows|] == rows;
  }

  /** Somewhere along the run the id's resolution was appended or its row spoiled. */
  ghost predicate TakenAlong(s: State, events: seq<Event>, id: string)
    requires Run(s, events)
    decreases |events|
  {
    events != [] &&
    (|| Resolves(s, events[0], id) || Spoils(s, events[0], id)
     || TakenAlong(Next(s, events[0]), events[1..], id))
  }

  lemma {:induction false} LeftPendingIsTaken(s: State, events: seq<Event>, id: string)
    requires s.terminal == AGENT_TERMINAL && Inv(s) && AllChosen(s) && Run(s, events)
    requires Shown(Rows(FileAt(s, s.live)), id)
    ensures var t := Final(s, events); Shown(Rows(FileAt(t, t.live)), id) || TakenAlong(s, events, id)
    decreases |events|
  {
    if events != [] {
      LeavesPendingIff(s, events[0], id);
      StepKeepsInv(s, events[0]);
      StepKeepsChoice(s, events[0]);
      var t := Next(s, events[0]);
      if Shown(Rows(FileAt(t, t.live)), id) { LeftPendingIsTaken(t, events[1..], id); }
    }
  }

  // ---- running again after a crash ----

  function Max(a: int, b: int): int { if a < b then b else a }

  lemma {:induction false} WithoutTwice(rows: seq<Row>, a: set<string>, b: set<string>)
    ensures Without(Without(rows, a), b) == Without(rows, a + b)
  {
    if rows != [] {
      var n := |rows| - 1;
      WithoutTwice(rows[..n], a, b);
      var once := Without(rows[..n], a);
      assert (once + [rows[n]])[..|once|] == once;
    }
  }

  /** What is left to archive after archiving with another cutoff. */
  lemma ArchivableAgain(rows: seq<Row>, terminal: set<string>, a: int, b: int)
    ensures var first := ArchivableIds(rows, terminal, a);
      first + ArchivableIds(Without(rows, first), terminal, b) == ArchivableIds(rows, terminal, Max(a, b))
  {
    var first := ArchivableIds(rows, terminal, a);
    var rest := Without(rows, first);
    forall id
      ensures id in first + ArchivableIds(rest, terminal, b) <==> id in ArchivableIds(rows, terminal, Max(a, b))
    {
      ArchivableIffListed(rows, id, terminal, a);
      ArchivableIffListed(rows, id, terminal, Max(a, b));
      ArchivableIffListed(rest, id, terminal, b);
      LatestWithout(rows, first, Some(id));
    }
  }

  /** Compacting twice is compacting once with the later cutoff. */
  lemma CompactingTwice(f: File, terminal: set<string>, a: int, b: int)
    ensures CompactedFile(CompactedFile(f, terminal, a), terminal, b) == CompactedFile(f, terminal, Max(a, b))
  {
    var rows := Rows(f);
    var first := ArchivableIds(rows, terminal, a);
    CompactedRows(f, terminal, a);
    ArchivableAgain(rows, terminal, a, b);
    var second := ArchivableIds(Without(rows, first), terminal, b);
    WithoutTwice(rows, first, second);
    if second == {} { assert first + second == first; }
  }

  /** The live file is the original one or what some compaction up to this cutoff makes of it. */
  ghost predicate Settled(original: File, now: File, terminal: set<string>, cutoff: int) {
    now == original || exists c :: c <= cutoff && now == CompactedFile(original, terminal, c)
  }

  predicate UpTo(pc: Pc, cutoff: int) {
    pc.CompactWaiting? || pc.CompactLocked? || Compacting(pc) ==> pc.cutoff <= cutoff
  }

  /** A stretch of a run in which nothing is appended and no compaction has a later cutoff. */
  ghost predicate QuietRun(s: State, events: seq<Event>, cutoff: int)
    requires Run(s, events)
    decreases |events|
  {
    (forall i | i in s.procs :: UpTo(s.procs[i], cutoff))
    && (events != [] ==> !WritesAppend(s, events[0]) && QuietRun(Next(s, events[0]), events[1..], cutoff))
  }

  lemma {:induction false} QuietRunSettles(original: File, s: State, events: seq<Event>, cutoff: int)
    requires Inv(s) && AllChosen(s) && Run(s, events) && QuietRun(s, events, cutoff)
    requires Settled(original, FileAt(s, s.live), s.terminal, cutoff)
    ensures var t := Final(s, events);
      && Inv(t) && AllChosen(t) && t.terminal == s.terminal && Settled(original, FileAt(t, t.live), s.terminal, cutoff)
      && forall i | i in t.procs :: UpTo(t.procs[i], cutoff)
    decreases |events|
  {
    if events != [] {
      var e, t := events[0], Next(s, events[0]);
      StepKeepsInv(s, e);
      StepKeepsChoice(s, e);
      LiveChangesAtomically(s, e);
      if Replaces(s, e) { SettlesAgain(original, FileAt(s, s.live), s.terminal, s.procs[e.i].cutoff, cutoff); }
      QuietRunSettles(original, t, events[1..], cutoff);
    }
  }

  lemma SettlesAgain(original: File, now: File, terminal: set<string>, c: int, cutoff: int)
    requires Settled(original, now, terminal, cutoff) && c <= cutoff
    ensures Settled(original, CompactedFile(now, terminal, c), terminal, cutoff)
    ensures c == cutoff ==> CompactedFile(now, terminal, c) == CompactedFile(original, terminal, cutoff)
  {
    if now != original {
      var d :| d <= cutoff && now == CompactedFile(original, terminal, d);
      CompactingTwice(original, terminal, d, c);
    }
  }

  /** A compaction completes: it replaces the live file, or finds nothing to archive. */
  predicate Finishes(s: State, e: Event) {
    && e.Step? && e.i in s.procs
    && (AtReplace(s.procs[e.i])
        || (&& s.procs[e.i].CompactLocked?
            && ArchivableIds(Rows(FileAt(s, s.live)), s.terminal, s.procs[e.i].cutoff) == {}))
  }

  lemma FinishingSettles(s: State, events: seq<Event>, e: Event, cutoff: int)
    requires Inv(s) && AllChosen(s) && Run(s, events) && QuietRun(s, events, cutoff)
    requires Enabled(Final(s, events), e) && Finishes(Final(s, events), e)
    requires Final(s, events).procs[e.i].cutoff == cutoff
    ensures
      var t := Next(Final(s, events), e);
      FileAt(t, t.live) == CompactedFile(FileAt(s, s.live), s.terminal, cutoff)
  {
    var t := Final(s, events);
    QuietRunSettles(FileAt(s, s.live), s, events, cutoff);
    TakeChangesLiveAtomically(t, e.i, t.procs[e.i], e.inode);
    SettlesAgain(FileAt(s, s.live), FileAt(t, t.live), s.terminal, cutoff, cutoff);
  }

  /** However many compactions have crashed wherever they were, one that finishes afterwards leaves
      the live file an uninterrupted run would have left. */
  lemma RerunGivesTheSameFile(terminal: set<string>, before: seq<Event>, events: seq<Event>, e: Event, cutoff: int)
    requires Run(Init(terminal), before)
    requires var s := Final(Init(terminal), before);
      && Run(s, events) && QuietRun(s, events, cutoff)
      && Enabled(Final(s, events), e) && Finishes(Final(s, events), e) && Final(s, events).procs[e.i].cutoff == cutoff
    ensures var s := Final(Init(terminal), before); var t := Next(Final(s, events), e);
      FileAt(t, t.live) == CompactedFile(FileAt(s, s.live), terminal, cutoff)
  {
    RunKeepsInv(Init(terminal), before);
    RunKeepsChoice(Init(terminal), before);
    FinishingSettles(Final(Init(terminal), before), events, e, cutoff);
  }

  lemma {:induction false} RunKeepsChoice(s: State, events: seq<Event>)
    requires AllChosen(s) && Run(s, events)
    ensures AllChosen(Final(s, events)) && Final(s, events).terminal == s.terminal
    decreases |events|
  {
    if events != [] {
      StepKeepsChoice(s, events[0]);
      RunKeepsChoice(Next(s, events[0]), events[1..]);
    }
  }

  // ---- an archive that ends in the middle of a line ----

  function Extended(f: File, rows: seq<Row>): File {
    if rows == [] then f else WriteLine(Extended(f, rows[..|rows| - 1]), rows[|rows| - 1])
  }

  /** Archiving onto a torn archive spoils exactly the first row it writes. */
  lemma {:induction false} TornArchiveSpoilsTheFirst(f: File, rows: seq<Row>)
    ensures rows != [] ==> Extended(f, rows).tail == NoTail
    ensures Terminated(Extended(f, rows)) == Terminated(f) + if f.tail == NoTail || rows == [] then rows else rows[1..]
  {
    if rows != [] {
      var n := |rows| - 1;
      TornArchiveSpoilsTheFirst(f, rows[..n]);
      AppendSurvivesIff(Extended(f, rows[..n]), rows[n]);
      assert rows == rows[..n] + [rows[n]];
      if n > 0 { assert rows[1..] == rows[..n][1..] + [rows[n]]; }
    }
  }

  /** So a compaction conserves the rows of both files exactly when it has nothing to archive or the
      archive ends at a line end. */
  lemma CompactionIsLosslessIff(live: File, archive: File, terminal: set<string>, cutoff: int)
    ensures var out := Only(Rows(live), ArchivableIds(Rows(live), terminal, cutoff));
      multiset(Rows(CompactedFile(live, terminal, cutoff))) + multiset(Terminated(Extended(archive, out)))
        == multiset(Rows(live)) + multiset(Terminated(archive))
      <==> out == [] || archive.tail == NoTail
  {
    var ids := ArchivableIds(Rows(live), terminal, cutoff);
    var out := Only(Rows(live), ids);
    CompactedRows(live, terminal, cutoff);
    CompactionConserves(Rows(live), ids);
    TornArchiveSpoilsTheFirst(archive, out);
    Balance(Without(Rows(live), ids), Terminated(archive), out, Rows(live));
  }

  lemma Balance(kept: seq<Row>, archived: seq<Row>, out: seq<Row>, rows: seq<Row>)
    requires multiset(kept) + multiset(out) == multiset(rows)
    ensures multiset(kept) + multiset(archived + out) == multiset(rows) + multiset(archived)
    ensures out != [] ==> multiset(kept) + multiset(archived + out[1..]) != multiset(rows) + multiset(archived)
  {
    if out != [] {
      var r := out[0];
      assert out == [r] + out[1..];
      assert (multiset(rows) + multiset(archived))[r] == (multiset(kept) + multiset(archived + out[1..]))[r] + 1;
    }
  }
}
