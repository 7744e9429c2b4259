/** What one router task can report about a block command. */
module RouterOutcomes {
  import opened Selection

  datatype Outcome = Succeeded | Failed | Unknown

  /** What a router task reported, and whether its own command took effect. */
  datatype TaskResult = TaskResult(outcome: Outcome, applied: bool)

  predicate Sound(r: TaskResult) {
    && (r.outcome == Succeeded ==> r.applied)
    && (r.outcome == Failed ==> !r.applied)
  }

  function Count(results: seq<Outcome>, o: Outcome): nat {
    if results == [] then 0 else (if results[0] == o then 1 else 0) + Count(results[1..], o)
  }

  /** The tasks that reported this outcome. */
  function TasksWith(results: seq<Outcome>, o: Outcome): set<nat> { set i: nat | i < |results| && results[i] == o }

  lemma TasksBehind(head: Outcome, rest: seq<Outcome>, o: Outcome)
    ensures
      var later := Shifted(TasksWith(rest, o));
      TasksWith([head] + rest, o) == if head == o then {0} + later else later
  {
    PositionsBehind(TasksWith([head] + rest, o), TasksWith(rest, o));
  }

  lemma {:induction false} CountIsTheNumber(results: seq<Outcome>, o: Outcome)
    ensures Count(results, o) == |TasksWith(results, o)|
  {
    if results != [] {
      CountIsTheNumber(results[1..], o);
      TasksBehind(results[0], results[1..], o);
      ShiftedSize(TasksWith(results[1..], o));
      assert [results[0]] + results[1..] == results;
    }
  }

  lemma {:induction false} CountIsZeroIffAbsent(results: seq<Outcome>, o: Outcome)
    ensures Count(results, o) == 0 <==> o !in results
  {
    if results != [] {
      CountIsZeroIffAbsent(results[1..], o);
      assert results == [results[0]] + results[1..];
    }
  }
}

/** Pushing one block to a fleet of routers, concurrently.
    Environment: a command whose session was lost has taken effect, or never will, by the time of
    the follow-up check; exit status 1 from that check means the element is absent; nobody removes
    an element while the dispatch runs. */
module RouterDispatch {
  import opened Types
  import opened RouterOutcomes

  // ---- one router ----

  /** How the block command ended. */
  datatype Ending =
    | ExitZero
    | ExitNonZero                       // a clean failure reported by the router
    | Interrupted(tookEffect: bool)     // signalled, connection lost or timed out

  /** How the bounded follow-up check ended. */
  datatype Check = Answered | Inconclusive   // answered: exit 0 or 1 by set membership

  datatype Link = Link(wellFormed: bool, connects: bool, ending: Ending, check: Check)

  class Router {
    var blocklist: set<string>

    constructor ()
      ensures blocklist == {}
    {
      blocklist := {};
    }

    /** block_ip_on_router with its reconciliation of an unknown outcome. */
    method BlockIp(ip: string, link: Link) returns (outcome: Outcome)
      modifies this
      ensures old(blocklist) <= blocklist <= old(blocklist) + {ip}
      ensures outcome == Succeeded <==> link.wellFormed && link.connects && link.ending.ExitZero?
      ensures outcome == Succeeded ==> ip in blocklist
      ensures outcome == Failed ==> blocklist == old(blocklist)
      ensures outcome == Unknown <==>
        link.wellFormed && link.connects && link.ending.Interrupted? && (link.check == Answered ==> ip in blocklist)
    {
      if !link.wellFormed || !link.connects {
        return Failed;
      }
      match link.ending {
        case ExitZero =>
          blocklist := blocklist + {ip};
          return Succeeded;
        case ExitNonZero =>
          return Failed;
        case Interrupted(tookEffect) =>
          if tookEffect {
            blocklist := blocklist + {ip};
          }
          outcome := ReconcileUnknown(ip, link.check);
      }
    }

    /** The read-only follow-up: it may settle an unknown outcome as failed, never as success. */
    method ReconcileUnknown(ip: string, check: Check) returns (outcome: Outcome)
      ensures outcome == if check == Answered && ip !in blocklist then Failed else Unknown
    {
      var verified := if check == Answered then Some(ip in blocklist) else None;
      if verified == Some(false) {
        return Failed;
      }
      return Unknown;
    }
  }

  // ---- the whole fleet, interleaved ----

  datatype Pc = Ready | Connected | Uncertain | Done(outcome: Outcome) | Raised

  /** `targets[i]` is the router task i works on; `elements` is every router's blocklist set;
      `applied` are the tasks whose own command took effect. */
  datatype Fleet = Fleet(ip: string, targets: seq<nat>, elements: map<nat, set<string>>, tasks: seq<Pc>,
                         applied: set<nat>)

  datatype Move =
    | Malformed(task: nat) | ConnectFails(task: nat) | Connects(task: nat)
    | Ends(task: nat, ending: Ending)
    | Checks(task: nat, check: Check)
    | Raises(task: nat, tookEffect: bool)        // an exception no handler classifies
    | Elsewhere(router: nat, ip: string)         // another call adds an element

  function Elements(f: Fleet, r: nat): set<string> { if r in f.elements then f.elements[r] else {} }

  function Add(f: Fleet, r: nat, ip: string): Fleet {
    f.(elements := f.elements[r := Elements(f, r) + {ip}])
  }

  predicate Valid(f: Fleet) { |f.tasks| == |f.targets| }

  predicate Enabled(f: Fleet, m: Move) {
    Valid(f) && match m
      case Malformed(i) => i < |f.tasks| && f.tasks[i] == Ready
      case ConnectFails(i) => i < |f.tasks| && f.tasks[i] == Ready
      case Connects(i) => i < |f.tasks| && f.tasks[i] == Ready
      case Ends(i, _) => i < |f.tasks| && f.tasks[i] == Connected
      case Checks(i, _) => i < |f.tasks| && f.tasks[i] == Uncertain
      case Raises(i, tookEffect) =>
        i < |f.tasks| && !f.tasks[i].Done? && !f.tasks[i].Raised? && (tookEffect ==> f.tasks[i] == Connected)
      case Elsewhere(_, _) => true
  }

  function Become(f: Fleet, i: nat, pc: Pc): Fleet
    requires i < |f.tasks|
  {
    f.(tasks := f.tasks[i := pc])
  }

  function Apply(f: Fleet, i: nat): Fleet
    requires i < |f.targets|
  {
    Add(f, f.targets[i], f.ip).(applied := f.applied + {i})
  }

  function Next(f: Fleet, m: Move): Fleet
    requires Enabled(f, m)
  {
    match m
    case Malformed(i) => Become(f, i, Done(Failed))
    case ConnectFails(i) => Become(f, i, Done(Failed))
    case Connects(i) => Become(f, i, Connected)
    case Ends(i, ExitZero) => Become(Apply(f, i), i, Done(Succeeded))
    case Ends(i, ExitNonZero) => Become(f, i, Done(Failed))
    case Ends(i, Interrupted(tookEffect)) => Become(if tookEffect then Apply(f, i) else f, i, Uncertain)
    case Checks(i, check) =>
      Become(f, i, Done(if check == Answered && f.ip !in Elements(f, f.targets[i]) then Failed else Unknown))
    case Raises(i, tookEffect) => Become(if tookEffect then Apply(f, i) else f, i, Raised)
    case Elsewhere(r, ip) => Add(f, r, ip)
  }

  predicate Run(f: Fleet, moves: seq<Move>)
    decreases |moves|
  {
    moves == [] || (Enabled(f, moves[0]) && Run(Next(f, moves[0]), moves[1..]))
  }

  function Final(f: Fleet, moves: seq<Move>): Fleet
    requires Run(f, moves)
    decreases |moves|
  {
    if moves == [] then f else Final(Next(f, moves[0]), moves[1..])
  }

  predicate Start(f: Fleet) {
    Valid(f) && f.applied == {} && forall i | 0 <= i < |f.tasks| :: f.tasks[i] == Ready
  }

  predicate Finished(f: Fleet) { forall i | 0 <= i < |f.tasks| :: f.tasks[i].Done? || f.tasks[i].Raised? }

  /** What gather() hands back: an exception counts as unknown. */
  function Result(pc: Pc): Outcome { if pc.Done? then pc.outcome else Unknown }

  function Results(f: Fleet): seq<Outcome> { seq(|f.tasks|, i requires 0 <= i < |f.tasks| => Result(f.tasks[i])) }

  ghost predicate Inv(f: Fleet) {
    && Valid(f)
    && (forall i | i in f.applied :: i < |f.tasks|)
    && (forall i | 0 <= i < |f.tasks| :: TaskOk(f, i, f.tasks[i]))
  }

  ghost predicate TaskOk(f: Fleet, i: nat, pc: Pc)
    requires i < |f.targets|
  {
    && (i in f.applied ==> f.ip in Elements(f, f.targets[i]))
    && match pc
       case Ready => i !in f.applied
       case Connected => i !in f.applied
       case Done(o) => Sound(TaskResult(o, i in f.applied))
       case _ => true
  }

  lemma BecomeKeepsInv(f: Fleet, i: nat, pc: Pc)
    requires Valid(f) && i < |f.tasks| && TaskOk(f, i, pc)
    requires forall j | j in f.applied :: j < |f.tasks|
    requires forall j | 0 <= j < |f.tasks| && j != i :: TaskOk(f, j, f.tasks[j])
    ensures Inv(Become(f, i, pc))
  {
    var g := Become(f, i, pc);
    forall j | 0 <= j < |g.tasks| ensures TaskOk(g, j, g.tasks[j]) {
      assert j != i ==> TaskOk(f, j, f.tasks[j]);
    }
  }

  lemma AddKeepsTasks(f: Fleet, r: nat, ip: string, j: nat)
    requires Valid(f) && j < |f.tasks| && TaskOk(f, j, f.tasks[j])
    ensures TaskOk(Add(f, r, ip), j, f.tasks[j])
  {}

  lemma StepKeepsInv(f: Fleet, m: Move)
    requires Inv(f) && Enabled(f, m)
    ensures Inv(Next(f, m)) && Next(f, m).ip == f.ip && |Next(f, m).tasks| == |f.tasks|
  {
    if m.Elsewhere? {
      forall j | 0 <= j < |f.tasks| ensures TaskOk(Next(f, m), j, f.tasks[j]) { AddKeepsTasks(f, m.router, m.ip, j); }
    } else {
      var i := m.task;
      assert TaskOk(f, i, f.tasks[i]);
      var lands := (m.Ends? && (m.ending == ExitZero || m.ending == Interrupted(true))) || (m.Raises? && m.tookEffect);
      var g := if lands then Apply(f, i) else f;
      forall j | 0 <= j < |f.tasks| && j != i ensures TaskOk(g, j, g.tasks[j]) {
        AddKeepsTasks(f, f.targets[i], f.ip, j);
      }
      var pc := Next(f, m).tasks[i];
      assert Next(f, m) == Become(g, i, pc);
      BecomeKeepsInv(g, i, pc);
    }
  }

  lemma {:induction false} RunKeepsInv(f: Fleet, moves: seq<Move>)
    requires Inv(f) && Run(f, moves)
    ensures Inv(Final(f, moves)) && |Final(f, moves).tasks| == |f.tasks|
    decreases |moves|
  {
    if moves != [] {
      StepKeepsInv(f, moves[0]);
      RunKeepsInv(Next(f, moves[0]), moves[1..]);
    }
  }

  /** For every interleaving of the tasks with each other and with other calls: every reported
      outcome is sound, no success and no unknown means no command of this call took effect, and
      a success means one did. */
  lemma AggregationIsSound(f: Fleet, moves: seq<Move>)
    requires Start(f) && Run(f, moves) && Finished(Final(f, moves))
    ensures var g := Final(f, moves);
      && (forall i | 0 <= i < |g.tasks| :: Sound(TaskResult(Results(g)[i], i in g.applied)))
      && (Count(Results(g), Succeeded) == 0 && Count(Results(g), Unknown) == 0 ==> g.applied == {})
      && (Count(Results(g), Succeeded) > 0 ==> g.applied != {})
  {
    RunKeepsInv(f, moves);
    var g := Final(f, moves);
    var rs := Results(g);
    CountIsZeroIffAbsent(rs, Succeeded);
    CountIsZeroIffAbsent(rs, Unknown);
    forall i | i in g.applied ensures rs[i] in rs && rs[i] != Failed {}
    if Succeeded in rs {
      var i :| 0 <= i < |rs| && rs[i] == Succeeded;
      assert i in g.applied;
    }
  }

  // ---- when each outcome is reported ----

  /** This very move ends task i as failed: it never got to the router, the router refused, or the check found
      the element absent. */
  predicate FailsNow(f: Fleet, m: Move, i: nat)
    requires Valid(f)
  {
    || m == Malformed(i) || m == ConnectFails(i) || m == Ends(i, ExitNonZero)
    || (m == Checks(i, Answered) && i < |f.targets| && f.ip !in Elements(f, f.targets[i]))
  }

  predicate FailsAlong(f: Fleet, moves: seq<Move>, i: nat)
    requires Valid(f) && Run(f, moves)
    decreases |moves|
  {
    moves != [] && (FailsNow(f, moves[0], i) || FailsAlong(Next(f, moves[0]), moves[1..], i))
  }

  lemma {:induction false} TaskEnds(f: Fleet, moves: seq<Move>, i: nat)
    requires Valid(f) && Run(f, moves) && i < |f.tasks|
    ensures i < |Final(f, moves).tasks|
    ensures Final(f, moves).tasks[i] == Done(Succeeded) <==>
      f.tasks[i] == Done(Succeeded) || Ends(i, ExitZero) in moves
    ensures Final(f, moves).tasks[i] == Done(Failed) <==> f.tasks[i] == Done(Failed) || FailsAlong(f, moves, i)
    decreases |moves|
  {
    if moves != [] {
      TaskEnds(Next(f, moves[0]), moves[1..], i);
      assert moves == [moves[0]] + moves[1..];
    }
  }

  /** Every outcome that is reported, exactly: a success when the command exited with 0, a failure when it never
      got there, was refused, or was found to have left nothing; everything else, an exception included, is
      unknown. The counts are the numbers of such tasks. */
  lemma OutcomesAreReported(f: Fleet, moves: seq<Move>)
    requires Start(f) && Run(f, moves) && Finished(Final(f, moves))
    ensures var rs := Results(Final(f, moves));
      && |rs| == |f.tasks|
      && (forall i: nat | i < |rs| :: rs[i] == Succeeded <==> Ends(i, ExitZero) in moves)
      && (forall i: nat | i < |rs| :: rs[i] == Failed <==> FailsAlong(f, moves, i))
      && Count(rs, Succeeded) == |TasksWith(rs, Succeeded)| && Count(rs, Unknown) == |TasksWith(rs, Unknown)|
  {
    RunKeepsInv(f, moves);
    var rs := Results(Final(f, moves));
    forall i: nat | i < |rs|
      ensures rs[i] == Succeeded <==> Ends(i, ExitZero) in moves
      ensures rs[i] == Failed <==> FailsAlong(f, moves, i)
    {
      TaskEnds(f, moves, i);
    }
    CountIsTheNumber(rs, Succeeded);
    CountIsTheNumber(rs, Unknown);
  }
}
