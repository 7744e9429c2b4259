/** What an append and a compaction of a queue file come to when nothing interrupts them. */
module QueueProgress {
  import opened Types
  import opened ApprovalQueue
  import opened QueueFiles
  import opened QueueRecovery

  /** By steps of process i alone, the files get from s to t. */
  ghost predicate Leads(s: State, i: nat, t: State) {
    exists events :: AllStepsOf(events, i) && Run(s, events) && Final(s, events) == t
  }

  ghost predicate AllStepsOf(events: seq<Event>, i: nat) { forall e | e in events :: e.Step? && e.i == i }

  lemma LeadsNowhere(s: State, i: nat)
    ensures Leads(s, i, s)
  {
    assert AllStepsOf([], i) && Run(s, []) && Final(s, []) == s;
  }

  lemma LeadsOn(s: State, i: nat, inode: nat, t: State)
    requires Enabled(s, Step(i, inode)) && Leads(Next(s, Step(i, inode)), i, t)
    ensures Leads(s, i, t)
  {
    var events :| AllStepsOf(events, i) && Run(Next(s, Step(i, inode)), events)
                  && Final(Next(s, Step(i, inode)), events) == t;
    var all := [Step(i, inode)] + events;
    assert all[1..] == events;
    assert AllStepsOf(all, i) && Run(s, all) && Final(s, all) == t;
  }

  /** An inode number that is not in use. */
  lemma {:induction false} SomeFreeInode(used: set<nat>) returns (inode: nat)
    ensures forall n | n in used :: n < inode
  {
    if used == {} {
      inode := 0;
    } else {
      var n :| n in used;
      var other := SomeFreeInode(used - {n});
      inode := if other <= n then n + 1 else other;
      forall m | m in used ensures m < inode { assert m == n || m in used - {n}; }
    }
  }

  /** The next step of process i, and where it leads. */
  lemma Moves(s: State, i: nat) returns (inode: nat, u: State)
    requires i in s.procs && !s.procs[i].Gone? && (Holding(s.procs[i]) || s.lock == None)
    ensures inode !in s.inodes && Enabled(s, Step(i, inode)) && u == Take(s, i, s.procs[i], inode)
    ensures forall t :: Leads(u, i, t) ==> Leads(s, i, t)
  {
    inode := SomeFreeInode(s.inodes.Keys);
    u := Next(s, Step(i, inode));
    forall t | Leads(u, i, t) ensures Leads(s, i, t) { LeadsOn(s, i, inode, t); }
  }

  // ---- an append ----

  /** Nothing but the live file, which has this content now, and process i, which is through, has changed. */
  ghost predicate Through(s: State, t: State, i: nat, live: File, archive: File) {
    && t.procs == s.procs[i := Gone] && t.lock == None && t.terminal == s.terminal
    && FileAt(t, t.live) == live && FileAt(t, t.archive) == archive
  }

  /** Left alone, a waiting append adds its row at the end of the live file. */
  lemma AppendCompletes(s: State, i: nat, row: Row) returns (t: State)
    requires FilesOk(s) && s.lock == None && i in s.procs && s.procs[i] == AppendWaiting(row)
    ensures Leads(s, i, t) && Through(s, t, i, WriteLine(FileAt(s, s.live), row), FileAt(s, s.archive))
    ensures t.history.appended == s.history.appended + [row]
  {
    var n0, u := Moves(s, i);
    var n1, v := Moves(u, i);
    t := RowIsWritten(v, i);
    assert FileAt(v, v.live) == FileAt(s, s.live) && FileAt(v, v.archive) == FileAt(s, s.archive);
    assert t.procs == s.procs[i := Gone];
  }

  lemma RowIsWritten(v: State, i: nat) returns (t: State)
    requires i in v.procs && v.procs[i].AppendOpened? && FilesOk(v) && v.lock == Some(i)
    requires v.live == Some(v.procs[i].inode)
    ensures Leads(v, i, t)
    ensures Through(v, t, i, WriteLine(FileAt(v, v.live), v.procs[i].row), FileAt(v, v.archive))
    ensures t.history.appended == v.history.appended + [v.procs[i].row]
  {
    var n1, w := Moves(v, i);
    var n2, x := Moves(w, i);
    t := x;
    LeadsNowhere(x, i);
    assert t.procs == v.procs[i := Gone];
  }

  // ---- a compaction ----

  /** What is left to write of the archive and of the new live file. */
  lemma {:induction false} ArchivingCompletes(s: State, i: nat, f: File) returns (t: State)
    requires i in s.procs && s.procs[i].Archiving? && FilesOk(s) && s.lock == Some(i)
    requires var Archiving(_, entries, ids, inode, n) := s.procs[i];
      && s.archive == Some(inode) && n <= |Only(entries, ids)|
      && FileAt(s, s.archive) == Extended(f, Only(entries, ids)[..n])
    ensures Leads(s, i, t) && FilesOk(t)
    ensures var Archiving(cutoff, entries, ids, inode, _) := s.procs[i];
      && t == s.(inodes := t.inodes, procs := t.procs)
      && t.procs == s.procs[i := Archiving(cutoff, entries, ids, inode, |Only(entries, ids)|)]
      && FileAt(t, t.live) == FileAt(s, s.live) && FileAt(t, t.archive) == Extended(f, Only(entries, ids))
    decreases |Only(s.procs[i].entries, s.procs[i].ids)| - s.procs[i].written
  {
    var Archiving(cutoff, entries, ids, inode, n) := s.procs[i];
    var out := Only(entries, ids);
    if n == |out| {
      t := s;
      assert out[..n] == out && s.procs[i := s.procs[i]] == s.procs;
      LeadsNowhere(s, i);
    } else {
      var n', u := Moves(s, i);
      assert out[..n + 1] == out[..n] + [out[n]];
      assert u.procs[i] == Archiving(cutoff, entries, ids, inode, n + 1);
      t := ArchivingCompletes(u, i, f);
    }
  }

  lemma {:induction false} WritingCompletes(s: State, i: nat) returns (t: State)
    requires i in s.procs && s.procs[i].WritingTmp? && FilesOk(s) && s.lock == Some(i)
    requires var WritingTmp(_, entries, ids, inode, n) := s.procs[i];
      && s.tmp == Some(inode) && n <= |Without(entries, ids)|
      && FileAt(s, s.tmp) == File(Written(Without(entries, ids)[..n]), NoTail)
    ensures Leads(s, i, t) && FilesOk(t)
    ensures var WritingTmp(cutoff, entries, ids, inode, _) := s.procs[i];
      && t == s.(inodes := t.inodes, procs := t.procs)
      && t.procs == s.procs[i := WritingTmp(cutoff, entries, ids, inode, |Without(entries, ids)|)]
      && FileAt(t, t.archive) == FileAt(s, s.archive)
      && FileAt(t, t.tmp) == File(Written(Without(entries, ids)), NoTail)
    decreases |Without(s.procs[i].entries, s.procs[i].ids)| - s.procs[i].written
  {
    var WritingTmp(cutoff, entries, ids, inode, n) := s.procs[i];
    var rest := Without(entries, ids);
    if n == |rest| {
      t := s;
      assert rest[..n] == rest && s.procs[i := s.procs[i]] == s.procs;
      LeadsNowhere(s, i);
    } else {
      var n', u := Moves(s, i);
      WriteExtends(rest, n);
      assert u.procs[i] == WritingTmp(cutoff, entries, ids, inode, n + 1);
      t := WritingCompletes(u, i);
    }
  }

  lemma LeadsTrans(s: State, i: nat, u: State, t: State)
    requires Leads(s, i, u) && Leads(u, i, t)
    ensures Leads(s, i, t)
  {
    var xs :| AllStepsOf(xs, i) && Run(s, xs) && Final(s, xs) == u;
    var ys :| AllStepsOf(ys, i) && Run(u, ys) && Final(u, ys) == t;
    RunThenRun(s, xs, ys);
    assert AllStepsOf(xs + ys, i);
  }

  lemma {:induction false} RunThenRun(s: State, xs: seq<Event>, ys: seq<Event>)
    requires Run(s, xs) && Run(Final(s, xs), ys)
    ensures Run(s, xs + ys) && Final(s, xs + ys) == Final(Final(s, xs), ys)
    decreases |xs|
  {
    if xs == [] {
      assert xs + ys == ys;
    } else {
      assert (xs + ys)[1..] == xs[1..] + ys && (xs + ys)[0] == xs[0];
      RunThenRun(Next(s, xs[0]), xs[1..], ys);
    }
  }

  /** The new live file is written, takes the live file's place, and the lock is released. */
  lemma TmpReplacesLive(s: State, i: nat) returns (t: State)
    requires i in s.procs && s.procs[i].Archiving? && FilesOk(s) && s.lock == Some(i)
    requires var Archiving(_, entries, ids, _, n) := s.procs[i]; n == |Only(entries, ids)|
    ensures Leads(s, i, t)
    ensures var Archiving(_, entries, ids, _, _) := s.procs[i];
      Through(s, t, i, File(Written(Without(entries, ids)), NoTail), FileAt(s, s.archive))
  {
    var n, u := Moves(s, i);
    TmpIsEmpty(s, i, n);
    var w := WritingCompletes(u, i);
    t := ReplacesAndLeaves(w, i);
    LeadsTrans(u, i, w, t);
    assert t.procs == s.procs[i := Gone];
  }

  lemma TmpIsEmpty(s: State, i: nat, inode: nat)
    requires i in s.procs && s.procs[i].Archiving? && FilesOk(s) && s.lock == Some(i) && inode !in s.inodes
    requires var Archiving(_, entries, ids, _, n) := s.procs[i]; n == |Only(entries, ids)|
    ensures
      var u := Take(s, i, s.procs[i], inode);
      var Archiving(cutoff, entries, ids, _, _) := s.procs[i];
      && u == s.(inodes := u.inodes, procs := u.procs, tmp := u.tmp) && FilesOk(u) && u.tmp.Some?
      && u.procs == s.procs[i := WritingTmp(cutoff, entries, ids, u.tmp.value, 0)]
      && FileAt(u, u.tmp) == File(Written(Without(entries, ids)[..0]), NoTail)
      && FileAt(u, u.archive) == FileAt(s, s.archive)
  {
    assert Written(Without(s.procs[i].entries, s.procs[i].ids)[..0]) == [];
  }

  lemma ReplacesAndLeaves(w: State, i: nat) returns (t: State)
    requires i in w.procs && AtReplace(w.procs[i]) && FilesOk(w) && w.lock == Some(i)
    ensures Leads(w, i, t) && Through(w, t, i, FileAt(w, w.tmp), FileAt(w, w.archive))
  {
    var n1, v := Moves(w, i);
    var n2, x := Moves(v, i);
    t := x;
    LeadsNowhere(x, i);
    assert t.procs == w.procs[i := Gone];
  }

  /** Left alone, a waiting compaction appends exactly the rows of the ids that are to be archived to the archive,
      and leaves exactly the others in the live file. */
  lemma CompactionCompletes(s: State, i: nat, cutoff: int) returns (t: State)
    requires FilesOk(s) && s.lock == None && i in s.procs && s.procs[i] == CompactWaiting(cutoff)
    ensures Leads(s, i, t)
    ensures var rows := Rows(FileAt(s, s.live));
      Through(s, t, i, CompactedFile(FileAt(s, s.live), s.terminal, cutoff),
              Extended(FileAt(s, s.archive), Only(rows, ArchivableIds(rows, s.terminal, cutoff))))
  {
    var rows := Rows(FileAt(s, s.live));
    var ids := ArchivableIds(rows, s.terminal, cutoff);
    if ids == {} { OnlyNothing(rows, ids); }
    var n0, u := Moves(s, i);
    if s.live.None? {
      t := u;
      LeadsNowhere(u, i);
    } else {
      var n1, v := Moves(u, i);
      if ids == {} {
        t := v;
        LeadsNowhere(v, i);
      } else {
        t := ArchivesAndReplaces(v, i, FileAt(s, s.archive));
      }
    }
    assert t.procs == s.procs[i := Gone];
  }

  lemma ArchivesAndReplaces(v: State, i: nat, f: File) returns (t: State)
    requires i in v.procs && v.procs[i].Archiving? && FilesOk(v) && v.lock == Some(i)
    requires v.procs[i].written == 0 && v.archive == Some(v.procs[i].inode) && FileAt(v, v.archive) == f
    ensures Leads(v, i, t)
    ensures var Archiving(_, entries, ids, _, _) := v.procs[i];
      Through(v, t, i, File(Written(Without(entries, ids)), NoTail), Extended(f, Only(entries, ids)))
  {
    var w := ArchivingCompletes(v, i, f);
    t := TmpReplacesLive(w, i);
    LeadsTrans(v, i, w, t);
    assert t.procs == v.procs[i := Gone];
  }

  lemma {:induction false} OnlyNothing(rows: seq<Row>, ids: set<string>)
    requires ids == {}
    ensures Only(rows, ids) == []
  {
    if rows != [] { OnlyNothing(rows[..|rows| - 1], ids); }
  }
}
