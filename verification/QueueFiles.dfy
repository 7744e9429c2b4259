/** The approval-queue files: appending processes and the compactor as interleaved steps over
    path -> inode -> lines, serialised by a lock on a path that is never replaced. A process may
    crash between any two steps, and in the middle of writing a line; its lock is then free. */
module QueueFiles {
  import opened Types
  import opened ApprovalQueue

  // ---- files ----

  /** What follows the last line end: nothing, a piece of a row, or a row that only lacks its end. */
  datatype Tail = NoTail | Fragment | Unterminated(row: Row)

  datatype File = File(lines: seq<Line>, tail: Tail)

  const EMPTY_FILE := File([], NoTail)

  /** The rows of complete lines. */
  function Terminated(f: File): seq<Row> { Entries(f.lines) }

  /** The rows a reader gets. */
  function Rows(f: File): seq<Row> { Terminated(f) + if f.tail.Unterminated? then [f.tail.row] else [] }

  /** Writing one line in append mode: it continues whatever the file ends in. */
  function WriteLine(f: File, r: Row): File {
    File(f.lines + [if f.tail == NoTail then Parsed(r) else Malformed("")], NoTail)
  }

  datatype Tear = Nothing | Piece | AllButItsEnd

  /** The same write, cut short. */
  function TornWrite(f: File, r: Row, tear: Tear): File {
    match tear
    case Nothing => f
    case Piece => f.(tail := Fragment)
    case AllButItsEnd => f.(tail := if f.tail == NoTail then Unterminated(r) else Fragment)
  }

  lemma EntriesGrow(lines: seq<Line>, l: Line)
    ensures Entries(lines + [l]) == Entries(lines) + if l.Parsed? then [l.row] else []
  {
    assert (lines + [l])[..|lines|] == lines;
  }

  /** An append survives exactly when the file did not end in the middle of a line. */
  lemma AppendSurvivesIff(f: File, r: Row)
    ensures Terminated(WriteLine(f, r)) == Terminated(f) + [r] <==> f.tail == NoTail
    ensures f.tail != NoTail ==> Terminated(WriteLine(f, r)) == Terminated(f)
  {
    EntriesGrow(f.lines, if f.tail == NoTail then Parsed(r) else Malformed(""));
  }

  // ---- processes ----

  datatype Pc =
    | AppendWaiting(row: Row) | AppendLocked(row: Row) | AppendOpened(row: Row, inode: nat) | AppendWritten
    | CompactWaiting(cutoff: int) | CompactLocked(cutoff: int)
    | Archiving(cutoff: int, entries: seq<Row>, ids: set<string>, inode: nat, written: nat)
    | WritingTmp(cutoff: int, entries: seq<Row>, ids: set<string>, inode: nat, written: nat)
    | Replaced
    | Gone

  /** The inode each of the three file names currently leads to, if any. */
  datatype State = State(
    live: Option<nat>, tmp: Option<nat>, archive: Option<nat>, inodes: map<nat, File>,
    lock: Option<nat>, procs: map<nat, Pc>, terminal: set<string>, history: History)

  /** The rows whose append completed; what the archive held when the running compaction took the
      lock, and whether it ended in the middle of a line; and the rows whose last copy went onto a file
      that ended in the middle of a line. */
  datatype History = History(appended: seq<Row>, base: seq<Row>, torn: bool, spoiled: multiset<Row>)

  function Init(terminal: set<string>): State {
    State(None, None, None, map[], None, map[], terminal, History([], [], false, multiset{}))
  }

  function Contents(s: State, inode: nat): File { if inode in s.inodes then s.inodes[inode] else EMPTY_FILE }

  function FileAt(s: State, path: Option<nat>): File { if path.Some? then Contents(s, path.value) else EMPTY_FILE }

  /** A process may start, take a step (`inode` is the one a new file would get), or crash. */
  datatype Event = Spawn(i: nat, pc: Pc) | Step(i: nat, inode: nat) | Crash(i: nat, tear: Tear)

  predicate Holding(pc: Pc) { !pc.AppendWaiting? && !pc.CompactWaiting? && !pc.Gone? }

  /** The file a process writes its next line to, and the line. */
  function NextWrite(pc: Pc): Option<(nat, Row)> {
    match pc
    case AppendOpened(row, inode) => Some((inode, row))
    case Archiving(_, entries, ids, inode, n) =>
      if n < |Only(entries, ids)| then Some((inode, Only(entries, ids)[n])) else None
    case WritingTmp(_, entries, ids, inode, n) =>
      if n < |Without(entries, ids)| then Some((inode, Without(entries, ids)[n])) else None
    case _ => None
  }

  predicate Enabled(s: State, e: Event) {
    match e
    case Spawn(i, pc) => i !in s.procs && (pc.AppendWaiting? || pc.CompactWaiting?)
    case Step(i, inode) =>
      && i in s.procs && !s.procs[i].Gone? && inode !in s.inodes
      && (Holding(s.procs[i]) || s.lock == None)
    case Crash(i, tear) => i in s.procs && (tear != Nothing ==> NextWrite(s.procs[i]).Some?)
  }

  /** Opening creates the file if its name is new. */
  function Opened(path: Option<nat>, inode: nat): nat { if path.Some? then path.value else inode }

  function Put(s: State, inode: nat, f: File): State { s.(inodes := s.inodes[inode := f]) }

  function Goto(s: State, i: nat, pc: Pc): State { s.(procs := s.procs[i := pc]) }

  function Leave(s: State, i: nat): State { Goto(s, i, Gone).(lock := None) }

  /** Written in one go onto a file that ends in the middle of a line, rows lose their first one. */
  function SpoiledBy(torn: bool, rows: seq<Row>): multiset<Row> {
    if torn && rows != [] then multiset{rows[0]} else multiset{}
  }

  function Surviving(torn: bool, rows: seq<Row>): seq<Row> { if torn && rows != [] then rows[1..] else rows }

  function AppendStep(s: State, i: nat, pc: Pc, inode: nat): State {
    match pc
    case AppendWaiting(row) => Goto(s, i, AppendLocked(row)).(lock := Some(i))
    case AppendLocked(row) =>
      var ino := Opened(s.live, inode);
      Goto(Put(s, ino, Contents(s, ino)), i, AppendOpened(row, ino)).(live := Some(ino))
    case AppendOpened(row, ino) =>
      Goto(Put(s, ino, WriteLine(Contents(s, ino), row)), i, AppendWritten)
        .(history := s.history.(appended := s.history.appended + [row],
                                spoiled := s.history.spoiled + SpoiledBy(Contents(s, ino).tail != NoTail, [row])))
    case _ => Leave(s, i)
  }

  function Opening(h: History, archive: File): History {
    h.(base := Terminated(archive), torn := archive.tail != NoTail)
  }

  function StartStep(s: State, i: nat, pc: Pc, inode: nat): State {
    match pc
    case CompactWaiting(cutoff) =>
      if s.live.None? then Goto(s, i, Gone)
      else Goto(s, i, CompactLocked(cutoff)).(lock := Some(i), history := Opening(s.history, FileAt(s, s.archive)))
    case CompactLocked(cutoff) =>
      var entries := Rows(FileAt(s, s.live));
      var ids := ArchivableIds(entries, s.terminal, cutoff);
      if ids == {} then Leave(s, i)
      else
        var ino := Opened(s.archive, inode);
        Goto(Put(s, ino, Contents(s, ino)), i, Archiving(cutoff, entries, ids, ino, 0)).(archive := Some(ino))
    case _ => Leave(s, i)
  }

  function ArchivingStep(s: State, i: nat, pc: Pc, inode: nat): State
    requires pc.Archiving?
  {
    var Archiving(cutoff, entries, ids, ino, n) := pc;
    if n < |Only(entries, ids)|
    then
      var t := Put(s, ino, WriteLine(Contents(s, ino), Only(entries, ids)[n]));
      Goto(t, i, Archiving(cutoff, entries, ids, ino, n + 1))
    else
      var tmp := Opened(s.tmp, inode);   // opening for writing truncates
      Goto(Put(s, tmp, EMPTY_FILE), i, WritingTmp(cutoff, entries, ids, tmp, 0)).(tmp := Some(tmp))
  }

  function WritingTmpStep(s: State, i: nat, pc: Pc): State
    requires pc.WritingTmp?
  {
    var WritingTmp(cutoff, entries, ids, ino, n) := pc;
    if n < |Without(entries, ids)|
    then
      var t := Put(s, ino, WriteLine(Contents(s, ino), Without(entries, ids)[n]));
      Goto(t, i, WritingTmp(cutoff, entries, ids, ino, n + 1))
    else   // os.replace
      var spoiled := s.history.spoiled + SpoiledBy(s.history.torn, Only(entries, ids));
      Goto(s, i, Replaced).(live := s.tmp, tmp := None, history := s.history.(spoiled := spoiled))
  }

  /** One step of process i. */
  function Take(s: State, i: nat, pc: Pc, inode: nat): State {
    match pc
    case Archiving(_, _, _, _, _) => ArchivingStep(s, i, pc, inode)
    case WritingTmp(_, _, _, _, _) => WritingTmpStep(s, i, pc)
    case CompactWaiting(_) => StartStep(s, i, pc, inode)
    case CompactLocked(_) => StartStep(s, i, pc, inode)
    case Replaced => StartStep(s, i, pc, inode)
    case _ => AppendStep(s, i, pc, inode)
  }

  function Crashed(s: State, i: nat, pc: Pc, tear: Tear): State {
    var w := NextWrite(pc);
    var t := if w.Some? then Put(s, w.value.0, TornWrite(Contents(s, w.value.0), w.value.1, tear)) else s;
    Goto(t, i, Gone).(lock := if s.lock == Some(i) then None else s.lock)
  }

  function Next(s: State, e: Event): State
    requires Enabled(s, e)
  {
    match e
    case Spawn(i, pc) => Goto(s, i, pc)
    case Step(i, inode) => Take(s, i, s.procs[i], inode)
    case Crash(i, tear) => Crashed(s, i, s.procs[i], tear)
  }

  ghost predicate Run(s: State, events: seq<Event>)
    decreases |events|
  {
    events == [] || (Enabled(s, events[0]) && Run(Next(s, events[0]), events[1..]))
  }

  ghost function Final(s: State, events: seq<Event>): State
    requires Run(s, events)
    decreases |events|
  {
    if events == [] then s else Final(Next(s, events[0]), events[1..])
  }

  // ---- what every step keeps ----

  /** Every completed append is a complete line of the live file, among `archived`, or was spoiled. */
  ghost predicate Kept(appended: seq<Row>, live: seq<Row>, archived: seq<Row>, spoiled: multiset<Row>) {
    multiset(appended) <= multiset(live) + multiset(archived) + spoiled
  }

  predicate PathOk(s: State, path: Option<nat>) { path.Some? ==> path.value in s.inodes }

  /** The three names lead to three different inodes. */
  predicate FilesOk(s: State) {
    && PathOk(s, s.live) && PathOk(s, s.tmp) && PathOk(s, s.archive)
    && (s.live.Some? ==> s.live != s.tmp && s.live != s.archive) && (s.tmp.Some? ==> s.tmp != s.archive)
  }

  predicate LockOk(s: State) { forall i | i in s.procs && Holding(s.procs[i]) :: s.lock == Some(i) }

  predicate Compacting(pc: Pc) { pc.Archiving? || pc.WritingTmp? }

  predicate PcOk(s: State, pc: Pc) {
    && (Compacting(pc) ==> s.live.Some? && s.archive.Some? && pc.entries == Rows(FileAt(s, s.live)))
    && match pc
       case AppendOpened(_, ino) => s.live == Some(ino)
       case CompactLocked(_) => s.live.Some? && s.history == Opening(s.history, FileAt(s, s.archive))
       case Archiving(_, entries, ids, ino, n) =>
         && s.archive == Some(ino) && n <= |Only(entries, ids)|
         && Terminated(FileAt(s, s.archive)) == s.history.base + Surviving(s.history.torn, Only(entries, ids)[..n])
         && (FileAt(s, s.archive).tail != NoTail) == (n == 0 && s.history.torn)
       case WritingTmp(_, entries, ids, ino, n) =>
         && s.tmp == Some(ino) && n <= |Without(entries, ids)|
         && Terminated(FileAt(s, s.archive)) == s.history.base + Surviving(s.history.torn, Only(entries, ids))
         && FileAt(s, s.tmp) == File(Written(Without(entries, ids)[..n]), NoTail)
       case _ => true
  }

  /** Nothing is lost but what was spoiled, and a running compaction does not rely on what it has
      archived so far. */
  ghost predicate Lossless(s: State, pc: Pc) {
    var h := s.history;
    && Kept(h.appended, Terminated(FileAt(s, s.live)), Terminated(FileAt(s, s.archive)), h.spoiled)
    && (Compacting(pc) ==> Kept(h.appended, Terminated(FileAt(s, s.live)), h.base, h.spoiled))
  }

  ghost predicate Inv(s: State) {
    && LockOk(s) && FilesOk(s) && Lossless(s, Gone)
    && forall i | i in s.procs :: PcOk(s, s.procs[i]) && Lossless(s, s.procs[i])
  }

  // ---- one step at a time ----

  lemma WriteExtends(rows: seq<Row>, n: nat)
    requires n < |rows|
    ensures WriteLine(File(Written(rows[..n]), NoTail), rows[n]) == File(Written(rows[..n + 1]), NoTail)
  {}

  lemma KeptByMore(appended: seq<Row>, live: seq<Row>, base: seq<Row>, spoiled: multiset<Row>, more: seq<Row>)
    requires Kept(appended, live, base, spoiled)
    ensures Kept(appended, live, base + more, spoiled) && Kept(appended + more, live + more, base, spoiled)
    ensures Kept(appended + more, live, base, spoiled + multiset(more))
  {}

  /** The atomic replace loses nothing: what leaves the live file is in the archive, or was spoiled there. */
  lemma ReplaceKeepsRows(appended: seq<Row>, live: File, base: seq<Row>, spoiled: multiset<Row>, ids: set<string>,
                         torn: bool)
    requires Kept(appended, Terminated(live), base, spoiled)
    ensures var out := Only(Rows(live), ids);
      Kept(appended, Entries(Written(Without(Rows(live), ids))), base + Surviving(torn, out),
           spoiled + SpoiledBy(torn, out))
  {
    var rows := Rows(live);
    var out := Only(rows, ids);
    CompactionConserves(rows, ids);
    WrittenReadsBack(Without(rows, ids));
    var rest := rows[|Terminated(live)|..];
    assert rows == Terminated(live) + rest;
    SurvivorsAndSpoiled(torn, out);
    Rebalance(multiset(appended), multiset(Terminated(live)), multiset(base), spoiled, multiset(rest),
              multiset(Without(rows, ids)), multiset(Surviving(torn, out)), SpoiledBy(torn, out));
  }

  lemma SurvivorsAndSpoiled(torn: bool, rows: seq<Row>)
    ensures multiset(rows) == multiset(Surviving(torn, rows)) + SpoiledBy(torn, rows)
  {
    if rows != [] { assert rows == [rows[0]] + rows[1..]; }
  }

  lemma Rebalance(appended: multiset<Row>, live: multiset<Row>, base: multiset<Row>, spoiled: multiset<Row>,
                  rest: multiset<Row>,
                  kept: multiset<Row>, moved: multiset<Row>, more: multiset<Row>)
    requires appended <= live + base + spoiled && kept + (moved + more) == live + rest
    ensures appended <= kept + (base + moved) + (spoiled + more)
  {
    forall r ensures appended[r] <= kept[r] + base[r] + moved[r] + spoiled[r] + more[r] {
      assert (kept + (moved + more))[r] == (live + rest)[r];
      assert appended[r] <= (live + base + spoiled)[r];
    }
  }

  lemma AppendStepOk(s: State, i: nat, pc: Pc, inode: nat)
    requires FilesOk(s) && PcOk(s, pc) && inode !in s.inodes && i in s.procs && Lossless(s, pc)
    requires pc.AppendWaiting? || pc.AppendLocked? || pc.AppendOpened? || pc.AppendWritten?
    ensures var t := AppendStep(s, i, pc, inode); FilesOk(t) && PcOk(t, t.procs[i]) && Lossless(t, t.procs[i])
  {
    if pc.AppendOpened? {
      AppendSurvivesIff(FileAt(s, s.live), pc.row);
      KeptByMore(s.history.appended, Terminated(FileAt(s, s.live)), Terminated(FileAt(s, s.archive)), s.history.spoiled,
                 [pc.row]);
    }
  }

  lemma StartStepOk(s: State, i: nat, pc: Pc, inode: nat)
    requires FilesOk(s) && PcOk(s, pc) && inode !in s.inodes && i in s.procs
    requires pc.CompactWaiting? || pc.CompactLocked? || pc.Replaced?
    ensures var t := StartStep(s, i, pc, inode);
      && FilesOk(t) && PcOk(t, t.procs[i]) && t.history.appended == s.history.appended
      && Terminated(FileAt(t, t.live)) == Terminated(FileAt(s, s.live))
      && Terminated(FileAt(t, t.archive)) == Terminated(FileAt(s, s.archive))
      && (Compacting(t.procs[i]) ==> t.history.base == Terminated(FileAt(s, s.archive)))
  {}

  lemma ArchiveLineOk(s: State, i: nat, pc: Pc)
    requires FilesOk(s) && PcOk(s, pc) && i in s.procs && pc.Archiving? && pc.written < |Only(pc.entries, pc.ids)|
    ensures var t := ArchivingStep(s, i, pc, 0);
      && FilesOk(t) && PcOk(t, t.procs[i]) && t.history == s.history && FileAt(t, t.live) == FileAt(s, s.live)
      && s.history.base <= Terminated(FileAt(t, t.archive))
  {
    var out, n := Only(pc.entries, pc.ids), pc.written;
    AppendSurvivesIff(FileAt(s, s.archive), out[n]);
    assert out[..n + 1] == out[..n] + [out[n]];
    OneMoreSurvives(s.history.base, s.history.torn, out[..n], out[n]);
  }

  lemma OneMoreSurvives(base: seq<Row>, torn: bool, rows: seq<Row>, r: Row)
    ensures
      base + Surviving(torn, rows + [r]) == if torn && rows == [] then base else base + Surviving(torn, rows) + [r]
  {
    if torn && rows == [] {
      assert ([] + [r])[1..] == [];
    } else if torn {
      assert (rows + [r])[1..] == rows[1..] + [r];
    }
  }

  lemma OpenTmpOk(s: State, i: nat, pc: Pc, inode: nat)
    requires FilesOk(s) && PcOk(s, pc) && inode !in s.inodes && i in s.procs && pc.Archiving?
    requires pc.written == |Only(pc.entries, pc.ids)|
    ensures var t := ArchivingStep(s, i, pc, inode);
      && FilesOk(t) && PcOk(t, t.procs[i]) && t.history == s.history && FileAt(t, t.live) == FileAt(s, s.live)
      && s.history.base <= Terminated(FileAt(t, t.archive))
  {
    assert Only(pc.entries, pc.ids)[..pc.written] == Only(pc.entries, pc.ids);
    assert Written(Without(pc.entries, pc.ids)[..0]) == [];
  }

  lemma TmpLineOk(s: State, i: nat, pc: Pc)
    requires FilesOk(s) && PcOk(s, pc) && i in s.procs && pc.WritingTmp? && pc.written < |Without(pc.entries, pc.ids)|
    ensures var t := WritingTmpStep(s, i, pc);
      && FilesOk(t) && PcOk(t, t.procs[i]) && t.history == s.history && FileAt(t, t.live) == FileAt(s, s.live)
      && s.history.base <= Terminated(FileAt(t, t.archive))
  {
    WriteExtends(Without(pc.entries, pc.ids), pc.written);
  }

  lemma ReplaceOk(s: State, i: nat, pc: Pc)
    requires FilesOk(s) && PcOk(s, pc) && i in s.procs && pc.WritingTmp? && pc.written == |Without(pc.entries, pc.ids)|
    ensures var t := WritingTmpStep(s, i, pc);
      && FilesOk(t) && PcOk(t, t.procs[i]) && t.procs[i] == Replaced
      && FileAt(t, t.live) == File(Written(Without(pc.entries, pc.ids)), NoTail)
      && Terminated(FileAt(t, t.archive)) == s.history.base + Surviving(s.history.torn, Only(pc.entries, pc.ids))
      && t.history == s.history.(spoiled := s.history.spoiled + SpoiledBy(s.history.torn, Only(pc.entries, pc.ids)))
  {
    assert Without(pc.entries, pc.ids)[..pc.written] == Without(pc.entries, pc.ids);
  }

  /** While a compaction runs, what it started from already suffices. */
  lemma StillLossless(s: State, t: State)
    requires Kept(s.history.appended, Terminated(FileAt(s, s.live)), s.history.base, s.history.spoiled)
    requires t.history == s.history && FileAt(t, t.live) == FileAt(s, s.live)
    requires s.history.base <= Terminated(FileAt(t, t.archive))
    ensures Lossless(t, Gone)
    ensures Kept(t.history.appended, Terminated(FileAt(t, t.live)), t.history.base, t.history.spoiled)
  {
    var base, now := s.history.base, Terminated(FileAt(t, t.archive));
    assert now == base + now[|base|..];
    KeptByMore(s.history.appended, Terminated(FileAt(s, s.live)), base, s.history.spoiled, now[|base|..]);
  }

  lemma CompactionStepOk(s: State, i: nat, pc: Pc, inode: nat)
    requires FilesOk(s) && PcOk(s, pc) && inode !in s.inodes && i in s.procs && Lossless(s, pc) && Compacting(pc)
    ensures var t := Take(s, i, pc, inode); FilesOk(t) && PcOk(t, t.procs[i]) && Lossless(t, t.procs[i])
  {
    var t := Take(s, i, pc, inode);
    if pc.Archiving? {
      if pc.written < |Only(pc.entries, pc.ids)| { ArchiveLineOk(s, i, pc); } else { OpenTmpOk(s, i, pc, inode); }
      StillLossless(s, t);
    } else if pc.written < |Without(pc.entries, pc.ids)| {
      TmpLineOk(s, i, pc);
      StillLossless(s, t);
    } else {
      ReplaceOk(s, i, pc);
      var h := s.history;
      ReplaceKeepsRows(h.appended, FileAt(s, s.live), h.base, h.spoiled, pc.ids, h.torn);
    }
  }

  lemma TakeOk(s: State, i: nat, pc: Pc, inode: nat)
    requires FilesOk(s) && PcOk(s, pc) && !pc.Gone? && inode !in s.inodes && i in s.procs && Lossless(s, pc)
    ensures var t := Take(s, i, pc, inode); FilesOk(t) && PcOk(t, t.procs[i]) && Lossless(t, t.procs[i])
  {
    if Compacting(pc) { CompactionStepOk(s, i, pc, inode); }
    else if pc.CompactWaiting? || pc.CompactLocked? || pc.Replaced? { StartStepOk(s, i, pc, inode); }
    else { AppendStepOk(s, i, pc, inode); }
  }

  lemma TakeMovesOne(s: State, i: nat, pc: Pc, inode: nat)
    requires i in s.procs && (Holding(pc) ==> s.lock == Some(i))
    ensures var t := Take(s, i, pc, inode);
      i in t.procs && t.procs == s.procs[i := t.procs[i]] && (Holding(t.procs[i]) ==> t.lock == Some(i))
  {}

  lemma CrashOk(s: State, i: nat, pc: Pc, tear: Tear)
    requires FilesOk(s) && PcOk(s, pc) && Lossless(s, Gone)
    ensures FilesOk(Crashed(s, i, pc, tear)) && Lossless(Crashed(s, i, pc, tear), Gone)
  {
    var w := NextWrite(pc);
    if w.Some? {
      var f := Contents(s, w.value.0);
      assert Terminated(TornWrite(f, w.value.1, tear)) == Terminated(f);
    }
  }

  /** Only the lock holder's own obligations have to be checked. */
  lemma HolderSteps(s: State, t: State, i: nat, pc: Pc)
    requires LockOk(s) && i in s.procs && t.procs == s.procs[i := pc]
    requires s.lock == Some(i) || (s.lock == None && !Holding(s.procs[i]))
    requires Holding(pc) ==> t.lock == Some(i)
    requires FilesOk(t) && PcOk(t, pc) && Lossless(t, pc)
    ensures Inv(t)
  {
    forall j | j in t.procs
      ensures PcOk(t, t.procs[j]) && Lossless(t, t.procs[j]) && (Holding(t.procs[j]) ==> t.lock == Some(j))
    {
      assert j != i ==> !Holding(s.procs[j]);
    }
  }

  lemma SameFilesSameDuties(s: State, t: State, pc: Pc)
    requires t.live == s.live && t.tmp == s.tmp && t.archive == s.archive && t.inodes == s.inodes
    requires t.history == s.history
    requires PcOk(s, pc) && Lossless(s, pc)
    ensures PcOk(t, pc) && Lossless(t, pc)
  {
    assert FileAt(t, t.live) == FileAt(s, s.live) && FileAt(t, t.tmp) == FileAt(s, s.tmp);
    assert FileAt(t, t.archive) == FileAt(s, s.archive);
  }

  /** A process without the lock changes no file when it goes. */
  lemma BystanderCrashes(s: State, i: nat, tear: Tear)
    requires Inv(s) && i in s.procs && !Holding(s.procs[i])
    ensures Inv(Crashed(s, i, s.procs[i], tear))
  {
    var t := Crashed(s, i, s.procs[i], tear);
    SameFilesSameDuties(s, t, Gone);
    forall j | j in t.procs
      ensures PcOk(t, t.procs[j]) && Lossless(t, t.procs[j]) && (Holding(t.procs[j]) ==> t.lock == Some(j))
    {
      if j != i { SameFilesSameDuties(s, t, s.procs[j]); }
    }
  }

  lemma SpawnKeepsInv(s: State, i: nat, pc: Pc)
    requires Inv(s) && i !in s.procs && !Holding(pc)
    ensures Inv(Goto(s, i, pc))
  {
    var t := Goto(s, i, pc);
    SameFilesSameDuties(s, t, Gone);
    forall j | j in t.procs
      ensures PcOk(t, t.procs[j]) && Lossless(t, t.procs[j]) && (Holding(t.procs[j]) ==> t.lock == Some(j))
    {
      if j != i { SameFilesSameDuties(s, t, s.procs[j]); }
    }
  }

  lemma StepKeepsInv(s: State, e: Event)
    requires Inv(s) && Enabled(s, e)
    ensures Inv(Next(s, e))
  {
    match e
    case Spawn(i, pc) => SpawnKeepsInv(s, i, pc);
    case Crash(i, tear) =>
      if Holding(s.procs[i]) {
        CrashOk(s, i, s.procs[i], tear);
        HolderSteps(s, Next(s, e), i, Gone);
      } else {
        BystanderCrashes(s, i, tear);
      }
    case Step(i, inode) =>
      TakeOk(s, i, s.procs[i], inode);
      TakeMovesOne(s, i, s.procs[i], inode);
      HolderSteps(s, Next(s, e), i, Next(s, e).procs[i]);
  }

  lemma {:induction false} RunKeepsInv(s: State, events: seq<Event>)
    requires Inv(s) && Run(s, events)
    ensures Inv(Final(s, events))
    decreases |events|
  {
    if events != [] {
      StepKeepsInv(s, events[0]);
      RunKeepsInv(Next(s, events[0]), events[1..]);
    }
  }

  /** Under every interleaving of appenders and compactions, with crashes anywhere, every row whose
      append completed is a complete line of the live file or of the archive, as often as it was
      appended, except those whose last copy was written onto a file that a crash had left ending in
      the middle of a line. */
  lemma OnlySpoiledRowsAreLost(terminal: set<string>, events: seq<Event>)
    requires Run(Init(terminal), events)
    ensures var s := Final(Init(terminal), events);
      Kept(s.history.appended, Terminated(FileAt(s, s.live)), Terminated(FileAt(s, s.archive)), s.history.spoiled)
  {
    RunKeepsInv(Init(terminal), events);
  }

  // ---- exactly when an append or a compaction loses something ----

  ghost predicate NothingLost(s: State) {
    Kept(s.history.appended, Terminated(FileAt(s, s.live)), Terminated(FileAt(s, s.archive)), multiset{})
  }

  /** There is a complete copy of this row beyond those that were appended. */
  ghost predicate HasSpare(appended: seq<Row>, rows: seq<Row>, archived: seq<Row>, r: Row) {
    multiset(appended)[r] < multiset(rows)[r] + multiset(archived)[r]
  }

  /** An append loses nothing exactly when the live file ends at a line end, or a spare copy of the very
      row is there already. */
  lemma AppendLosesNothingIff(s: State, i: nat, inode: nat)
    requires Inv(s) && Enabled(s, Step(i, inode)) && s.procs[i].AppendOpened? && NothingLost(s)
    ensures NothingLost(Next(s, Step(i, inode))) <==>
      || FileAt(s, s.live).tail == NoTail
      || HasSpare(s.history.appended, Terminated(FileAt(s, s.live)), Terminated(FileAt(s, s.archive)), s.procs[i].row)
  {
    assert PcOk(s, s.procs[i]);
    var live, archive, row := FileAt(s, s.live), Terminated(FileAt(s, s.archive)), s.procs[i].row;
    var t := Next(s, Step(i, inode));
    AppendSurvivesIff(live, row);
    assert FileAt(t, t.live) == WriteLine(live, row) && FileAt(t, t.archive) == FileAt(s, s.archive);
    AppendedKeptIff(s.history.appended, Terminated(live), archive, row);
  }

  lemma AppendedKeptIff(appended: seq<Row>, live: seq<Row>, archived: seq<Row>, row: Row)
    requires Kept(appended, live, archived, multiset{})
    ensures Kept(appended + [row], live + [row], archived, multiset{})
    ensures Kept(appended + [row], live, archived, multiset{}) <==> HasSpare(appended, live, archived, row)
  {
    if HasSpare(appended, live, archived, row) {
      forall r ensures multiset(appended + [row])[r] <= (multiset(live) + multiset(archived))[r] {
        assert multiset(appended)[r] <= (multiset(live) + multiset(archived))[r];
      }
    }
    assert multiset(appended + [row])[row] == multiset(appended)[row] + 1;
  }

  /** The replace of a compaction loses nothing exactly when the archive ended at a line end as the
      compaction began, or there is a spare copy of the first row it archived: for a row appended
      once, when an earlier compaction had archived it before it crashed. */
  lemma ReplaceLosesNothingIff(s: State, i: nat, inode: nat)
    requires Inv(s) && Enabled(s, Step(i, inode)) && AtReplace(s.procs[i])
    requires Kept(s.history.appended, Terminated(FileAt(s, s.live)), s.history.base, multiset{})
    ensures NothingLost(Next(s, Step(i, inode))) <==>
      CompactsWell(s.history, FileAt(s, s.live), Only(s.procs[i].entries, s.procs[i].ids))
  {
    assert PcOk(s, s.procs[i]);
    assert Next(s, Step(i, inode)) == WritingTmpStep(s, i, s.procs[i]);
    ReplacingLosesNothingIff(s, i, s.procs[i]);
  }

  predicate AtReplace(pc: Pc) { pc.WritingTmp? && pc.written == |Without(pc.entries, pc.ids)| }

  ghost predicate CompactsWell(h: History, live: File, out: seq<Row>) {
    !h.torn || out == [] || HasSpare(h.appended, Rows(live), h.base, out[0])
  }

  lemma ReplacingLosesNothingIff(s: State, i: nat, pc: Pc)
    requires FilesOk(s) && PcOk(s, pc) && i in s.procs && AtReplace(pc)
    requires Kept(s.history.appended, Terminated(FileAt(s, s.live)), s.history.base, multiset{})
    ensures NothingLost(WritingTmpStep(s, i, pc)) <==>
      CompactsWell(s.history, FileAt(s, s.live), Only(pc.entries, pc.ids))
  {
    ReplaceOk(s, i, pc);
    WrittenReadsBack(Without(pc.entries, pc.ids));
    ReplacedKeptIff(s.history, FileAt(s, s.live), pc.ids);
  }

  lemma ReplacedKeptIff(h: History, live: File, ids: set<string>)
    requires Kept(h.appended, Terminated(live), h.base, multiset{})
    ensures var out := Only(Rows(live), ids);
      Kept(h.appended, Without(Rows(live), ids), h.base + Surviving(h.torn, out), multiset{}) <==>
      CompactsWell(h, live, out)
  {
    var rows := Rows(live);
    var out := Only(rows, ids);
    CompactionConserves(rows, ids);
    SurvivorsAndSpoiled(h.torn, out);
    var rest := rows[|Terminated(live)|..];
    assert rows == Terminated(live) + rest;
    OneShortIff(multiset(h.appended), multiset(Terminated(live)), multiset(rest), multiset(h.base),
                multiset(Without(rows, ids)), multiset(Surviving(h.torn, out)), SpoiledBy(h.torn, out));
    assert multiset(h.base + Surviving(h.torn, out)) == multiset(h.base) + multiset(Surviving(h.torn, out));
  }

  /** Taking a row away from a sufficient supply leaves it sufficient exactly when there was one to spare. */
  lemma OneShortIff(appended: multiset<Row>, live: multiset<Row>, rest: multiset<Row>, base: multiset<Row>,
                    kept: multiset<Row>, moved: multiset<Row>, spoiled: multiset<Row>)
    requires appended <= live + base && kept + (moved + spoiled) == live + rest
    requires spoiled == multiset{} || exists r :: spoiled == multiset{r}
    ensures appended <= kept + (base + moved) <==> forall r | r in spoiled :: appended[r] < (live + rest)[r] + base[r]
  {
    forall r ensures kept[r] + moved[r] + spoiled[r] == (live + rest)[r] && appended[r] <= live[r] + base[r] {
      assert (kept + (moved + spoiled))[r] == (live + rest)[r];
      assert appended[r] <= (live + base)[r];
    }
    forall r ensures (kept + (base + moved))[r] == (live + rest)[r] + base[r] - spoiled[r] {}
  }
}
