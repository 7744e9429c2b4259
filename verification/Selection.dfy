/** Which elements of a sequence another one consists of, by their positions. */
module Selection {
  ghost predicate Picks<T>(xs: seq<T>, at: seq<nat>, out: seq<T>) {
    && |at| == |out|
    && (forall i, j | 0 <= i < j < |at| :: at[i] < at[j])
    && (forall i | 0 <= i < |at| :: at[i] < |xs| && out[i] == xs[at[i]])
  }

  /** `out` is the elements of `xs` at the positions in `keep`, in their order. */
  ghost predicate Selects<T>(xs: seq<T>, keep: set<nat>, out: seq<T>) {
    exists at :: Picks(xs, at, out) && forall i :: i in at <==> i in keep
  }

  lemma SelectsNothing<T>(xs: seq<T>)
    ensures Selects(xs, {}, [])
  {
    assert Picks(xs, [], []);
  }

  /** One more element at the end, taken or not. */
  lemma SelectsOneMore<T>(xs: seq<T>, keep: set<nat>, out: seq<T>, x: T)
    requires Selects(xs, keep, out)
    ensures Selects(xs + [x], keep, out) && Selects(xs + [x], keep + {|xs|}, out + [x])
  {
    var at :| Picks(xs, at, out) && forall i :: i in at <==> i in keep;
    assert Picks(xs + [x], at, out);
    forall i | 0 <= i < |at| ensures at[i] < |xs| {}
    var last: nat := |xs|;
    var more: seq<nat> := at + [last];
    assert Picks(xs + [x], more, out + [x]);
    forall i ensures i in more <==> i in keep + {|xs|} {}
  }

  function Shifted(keep: set<nat>): set<nat> { set i | i in keep :: i + 1 }

  lemma {:induction false} ShiftedSize(keep: set<nat>)
    ensures |Shifted(keep)| == |keep|
  {
    if keep == {} {
      assert Shifted(keep) == {};
    } else {
      var i :| i in keep;
      ShiftedSize(keep - {i});
      forall j: nat ensures j in Shifted(keep) <==> j in Shifted(keep - {i}) + {i + 1} {
        if j in Shifted(keep) && j != i + 1 { assert j - 1 in keep - {i}; }
      }
      assert Shifted(keep) == Shifted(keep - {i}) + {i + 1};
    }
  }

  /** The positions in a sequence from those behind its first element. */
  lemma PositionsBehind(at: set<nat>, keep: set<nat>)
    requires forall i: nat :: i in keep <==> i + 1 in at
    ensures at == if 0 in at then {0} + Shifted(keep) else Shifted(keep)
  {
    forall i: nat | i > 0 ensures i in at <==> i in Shifted(keep) { assert i - 1 in keep <==> i - 1 + 1 in at; }
  }

  function Later(at: seq<nat>): seq<nat> { seq(|at|, i requires 0 <= i < |at| => at[i] + 1) }

  lemma LaterHolds(at: seq<nat>, keep: set<nat>, i: nat)
    requires forall j :: j in at <==> j in keep
    ensures i in Later(at) <==> i in Shifted(keep)
  {
    if i in Shifted(keep) {
      var j :| 0 <= j < |at| && at[j] == i - 1;
      assert Later(at)[j] == i;
    }
    if i in Later(at) {
      var j :| 0 <= j < |at| && Later(at)[j] == i;
      assert at[j] in at && i == at[j] + 1;
    }
  }

  /** One more element at the front, taken or not. */
  lemma SelectsBehind<T>(x: T, xs: seq<T>, keep: set<nat>, out: seq<T>)
    requires Selects(xs, keep, out)
    ensures Selects([x] + xs, Shifted(keep), out) && Selects([x] + xs, {0} + Shifted(keep), [x] + out)
  {
    var at :| Picks(xs, at, out) && forall i :: i in at <==> i in keep;
    var later := Later(at);
    forall i: nat ensures i in later <==> i in Shifted(keep) { LaterHolds(at, keep, i); }
    assert Picks([x] + xs, later, out);
    var all: seq<nat> := [0] + later;
    assert Picks([x] + xs, all, [x] + out);
    forall i: nat ensures i in all <==> i in {0} + Shifted(keep) {}
  }

  /** What is selected is exactly what stands at those positions. */
  lemma SelectedHolds<T>(xs: seq<T>, keep: set<nat>, out: seq<T>, x: T)
    requires Selects(xs, keep, out)
    ensures x in out <==> exists i :: i in keep && i < |xs| && xs[i] == x
  {
    var at :| Picks(xs, at, out) && forall i :: i in at <==> i in keep;
    if i: nat :| i in keep && i < |xs| && xs[i] == x {
      var j :| 0 <= j < |at| && at[j] == i;
      assert out[j] == x;
    }
    if x in out {
      var j :| 0 <= j < |out| && out[j] == x;
      assert at[j] in at && xs[at[j]] == x;
    }
  }
}
