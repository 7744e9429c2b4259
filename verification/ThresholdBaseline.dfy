/** Suggested detection_filter counts from a traffic baseline. Times and the margin are real numbers:
    float rounding is not part of this model. */
module ThresholdBaseline {
  import opened Types
  import opened SlidingWindow
  import opened Selection

  datatype Candidate = Candidate(sid: int, bySrc: bool, count: nat, seconds: nat)

  datatype Alert = Alert(sid: int, src: string, dst: string, ts: real)

  datatype Note = Untested | NoisyRaise | AlreadyClears

  datatype Result = Result(events: nat, keys: nat, observed: nat, topKey: Option<string>, reaching: nat, suggested: nat,
                           note: Note)

  // ---- what the analysis is about ----

  /** Whether rule `sid` tracks by source: the last candidate of that sid decides. */
  function Tracks(cands: seq<Candidate>, sid: int): Option<bool> {
    if cands == [] then None
    else if cands[|cands| - 1].sid == sid then Some(cands[|cands| - 1].bySrc)
    else Tracks(cands[..|cands| - 1], sid)
  }

  function KeyOf(bySrc: bool, e: Alert): string { if bySrc then e.src else e.dst }

  predicate Belongs(bySrc: bool, sid: int, key: string, e: Alert) { e.sid == sid && KeyOf(bySrc, e) == key }

  /** The times of one key's events, in order of arrival. */
  function Series(es: seq<Alert>, bySrc: bool, sid: int, key: string): seq<real> {
    if es == [] then []
    else
      var rest := Series(es[..|es| - 1], bySrc, sid, key);
      if Belongs(bySrc, sid, key, es[|es| - 1]) then rest + [es[|es| - 1].ts] else rest
  }

  function Keys(es: seq<Alert>, bySrc: bool, sid: int): set<string> {
    set e | e in es && e.sid == sid :: KeyOf(bySrc, e)
  }

  /** The keys in the order in which they first appear. */
  function FirstSeen(es: seq<Alert>, bySrc: bool, sid: int): (order: seq<string>)
    ensures forall i, j | 0 <= i < j < |order| :: order[i] != order[j]
  {
    if es == [] then []
    else
      var order, e := FirstSeen(es[..|es| - 1], bySrc, sid), es[|es| - 1];
      if e.sid == sid && KeyOf(bySrc, e) !in order then order + [KeyOf(bySrc, e)] else order
  }

  /** The smallest integer not below x. */
  function Ceil(x: real): (c: int)
    ensures c as real - 1.0 < x <= c as real
  {
    -((-x).Floor)
  }

  function Max(a: int, b: int): int { if a < b then b else a }

  function Suggestion(count: nat, observed: nat, margin: real): nat {
    if observed == 0 then count else Max(count, Ceil(observed as real * margin) + 1)
  }

  /** Key number n of `order` has the given peak and no key before it reaches that. */
  ghost predicate FirstPeak(order: seq<string>, n: nat, es: seq<Alert>, bySrc: bool, c: Candidate, observed: nat) {
    && n < |order| && IsPeak(Series(es, bySrc, c.sid, order[n]), c.seconds, observed)
    && forall i | 0 <= i < n :: Below(Series(es, bySrc, c.sid, order[i]), c.seconds, observed)
  }

  ghost predicate Below(ts: seq<real>, seconds: nat, bound: nat) { forall t: real :: InWindow(ts, t, seconds) < bound }

  ghost predicate TopKey(order: seq<string>, top: Option<string>, es: seq<Alert>, bySrc: bool, c: Candidate,
                         observed: nat) {
    match top
    case None => order == [] && observed == 0
    case Some(key) => exists n: nat :: FirstPeak(order, n, es, bySrc, c, observed) && order[n] == key
  }

  /** What a result says about the events. */
  ghost predicate Describes(r: Result, es: seq<Alert>, bySrc: bool, c: Candidate, margin: real) {
    var keys := Keys(es, bySrc, c.sid);
    && r.keys == |keys|
    && r.events == Count(es, (e: Alert) => e.sid == c.sid)
    && (forall k | k in keys :: forall t: real :: InWindow(Series(es, bySrc, c.sid, k), t, c.seconds) <= r.observed)
    && TopKey(FirstSeen(es, bySrc, c.sid), r.topKey, es, bySrc, c, r.observed)
    && r.reaching == |set k | k in keys && Reaches(es, bySrc, c, k, c.count)|
    && r.suggested == Suggestion(c.count, r.observed, margin)
    && (r.note == Untested <==> r.observed == 0)
    && (r.note == NoisyRaise <==> r.observed > 0 && r.suggested > c.count)
  }

  /** Some window of this key holds at least `count` events. */
  ghost predicate Reaches(es: seq<Alert>, bySrc: bool, c: Candidate, key: string, count: nat) {
    exists t: real :: InWindow(Series(es, bySrc, c.sid, key), t, c.seconds) >= count
  }

  // ---- the same by position ----

  /** The last candidate of the rule decides what it tracks by. */
  lemma {:induction false} TracksByPosition(cands: seq<Candidate>, sid: int, bySrc: bool)
    ensures Tracks(cands, sid) == Some(bySrc) <==>
      exists j | 0 <= j < |cands| ::
        cands[j].sid == sid && cands[j].bySrc == bySrc && forall k | j < k < |cands| :: cands[k].sid != sid
  {
    if cands != [] {
      var n := |cands| - 1;
      TracksByPosition(cands[..n], sid, bySrc);
      if cands[n].sid != sid {
        if j :| 0 <= j < |cands| && cands[j].sid == sid && cands[j].bySrc == bySrc
                && forall k | j < k < |cands| :: cands[k].sid != sid {
          assert cands[..n][j].sid == sid;
        }
      }
    }
  }

  /** The events of one key: those of the rule with that source, or that destination. */
  function EventsOf(es: seq<Alert>, bySrc: bool, sid: int, key: string): set<nat> {
    set i: nat | i < |es| && es[i].sid == sid && ((bySrc && es[i].src == key) || (!bySrc && es[i].dst == key))
  }

  function Times(es: seq<Alert>): seq<real> { seq(|es|, i requires 0 <= i < |es| => es[i].ts) }

  /** A key's series is the times of its events, in order of arrival. */
  lemma {:induction false} SeriesByPosition(es: seq<Alert>, bySrc: bool, sid: int, key: string)
    returns (own: seq<Alert>)
    ensures Selects(es, EventsOf(es, bySrc, sid, key), own) && Series(es, bySrc, sid, key) == Times(own)
  {
    if es == [] {
      own := [];
      SelectsNothing(es);
      assert EventsOf(es, bySrc, sid, key) == {};
    } else {
      var n, e := |es| - 1, es[|es| - 1];
      var at := EventsOf(es[..n], bySrc, sid, key);
      own := SeriesByPosition(es[..n], bySrc, sid, key);
      SelectsOneMore(es[..n], at, own, e);
      assert es[..n] + [e] == es;
      var mine := e.sid == sid && ((bySrc && e.src == key) || (!bySrc && e.dst == key));
      assert EventsOf(es, bySrc, sid, key) == if mine then at + {n} else at;
      assert Times(own + [e]) == Times(own) + [e.ts];
      own := if mine then own + [e] else own;
    }
  }

  /** The keys of a rule are the sources, or the destinations, of its events. */
  lemma KeysByField(es: seq<Alert>, sid: int, key: string)
    ensures key in Keys(es, true, sid) <==> exists e :: e in es && e.sid == sid && e.src == key
    ensures key in Keys(es, false, sid) <==> exists e :: e in es && e.sid == sid && e.dst == key
  {}

  ghost predicate InOrderOfAppearance(es: seq<Alert>, bySrc: bool, sid: int, order: seq<string>) {
    forall x, y | 0 <= x < y < |order| :: SeenBefore(es, bySrc, sid, order[x], order[y])
  }

  /** Keys are listed in the order of their first events. */
  lemma {:induction false} FirstSeenInOrder(es: seq<Alert>, bySrc: bool, sid: int)
    ensures InOrderOfAppearance(es, bySrc, sid, FirstSeen(es, bySrc, sid))
  {
    if es != [] {
      var n, e := |es| - 1, es[|es| - 1];
      var before := FirstSeen(es[..n], bySrc, sid);
      FirstSeenInOrder(es[..n], bySrc, sid);
      forall x, y | 0 <= x < y < |before| ensures SeenBefore(es, bySrc, sid, before[x], before[y]) {
        assert SeenBefore(es[..n], bySrc, sid, before[x], before[y]);
        SeenBeforeStays(es[..n], e, bySrc, sid, before[x], before[y]);
        assert es[..n] + [e] == es;
      }
      var key := KeyOf(bySrc, e);
      if e.sid == sid && key !in before {
        forall x | 0 <= x < |before| ensures SeenBefore(es, bySrc, sid, before[x], key) {
          NewKeyIsSeenLater(es, bySrc, sid, before[x]);
        }
      }
    }
  }

  predicate IsOf(e: Alert, bySrc: bool, sid: int, key: string) {
    e.sid == sid && ((bySrc && e.src == key) || (!bySrc && e.dst == key))
  }

  predicate FirstEvent(es: seq<Alert>, bySrc: bool, sid: int, key: string, i: nat) {
    i < |es| && IsOf(es[i], bySrc, sid, key) && forall k | 0 <= k < i :: !IsOf(es[k], bySrc, sid, key)
  }

  predicate NoneUpTo(es: seq<Alert>, bySrc: bool, sid: int, key: string, i: nat)
    requires i < |es|
  {
    forall k | 0 <= k <= i :: !IsOf(es[k], bySrc, sid, key)
  }

  /** The first event of `key` comes before any of `later`. */
  ghost predicate SeenBefore(es: seq<Alert>, bySrc: bool, sid: int, key: string, later: string) {
    exists i: nat :: FirstEvent(es, bySrc, sid, key, i) && NoneUpTo(es, bySrc, sid, later, i)
  }

  lemma SeenBeforeStays(es: seq<Alert>, e: Alert, bySrc: bool, sid: int, key: string, later: string)
    requires SeenBefore(es, bySrc, sid, key, later)
    ensures SeenBefore(es + [e], bySrc, sid, key, later)
  {
    var i: nat :| FirstEvent(es, bySrc, sid, key, i) && NoneUpTo(es, bySrc, sid, later, i);
    assert FirstEvent(es + [e], bySrc, sid, key, i) && NoneUpTo(es + [e], bySrc, sid, later, i);
  }

  lemma {:induction false} FirstEventOf(es: seq<Alert>, bySrc: bool, sid: int, key: string, j: nat) returns (i: nat)
    requires j < |es| && IsOf(es[j], bySrc, sid, key)
    ensures i <= j && FirstEvent(es, bySrc, sid, key, i)
  {
    if k: nat :| k < j && IsOf(es[k], bySrc, sid, key) { i := FirstEventOf(es, bySrc, sid, key, k); } else { i := j; }
  }

  lemma NewKeyIsSeenLater(es: seq<Alert>, bySrc: bool, sid: int, key: string)
    requires es != [] && key in FirstSeen(es[..|es| - 1], bySrc, sid)
    requires KeyOf(bySrc, es[|es| - 1]) !in FirstSeen(es[..|es| - 1], bySrc, sid)
    ensures SeenBefore(es, bySrc, sid, key, KeyOf(bySrc, es[|es| - 1]))
  {
    var n, later := |es| - 1, KeyOf(bySrc, es[|es| - 1]);
    FirstSeenHasTheKeys(es[..n], bySrc, sid, key);
    FirstSeenHasTheKeys(es[..n], bySrc, sid, later);
    var e :| e in es[..n] && e.sid == sid && KeyOf(bySrc, e) == key;
    var j :| 0 <= j < n && es[..n][j] == e;
    var i := FirstEventOf(es, bySrc, sid, key, j);
    forall k | 0 <= k <= i ensures !IsOf(es[k], bySrc, sid, later) {
      assert es[..n][k] in es[..n];
    }
    assert FirstEvent(es, bySrc, sid, key, i) && NoneUpTo(es, bySrc, sid, later, i);
  }

  /** The suggestion is the least integer that exceeds the scaled peak by one, or the shipped count. */
  lemma SuggestionIsTheLeast(count: nat, observed: nat, margin: real)
    ensures var s := Suggestion(count, observed, margin);
      && s >= count && (observed == 0 ==> s == count)
      && (observed > 0 ==>
            s as real - 1.0 >= observed as real * margin
            && (s == count || s as real - 2.0 < observed as real * margin))
  {}

  function Where<T>(xs: seq<T>, p: T -> bool): set<nat> { set i: nat | i < |xs| && p(xs[i]) }

  /** A count is the number of positions. */
  lemma {:induction false} CountIsTheNumber<T>(xs: seq<T>, p: T -> bool)
    ensures Count(xs, p) == |Where(xs, p)|
  {
    if xs == [] {
      assert Where(xs, p) == {};
    } else {
      var n := |xs| - 1;
      CountIsTheNumber(xs[..n], p);
      assert Where(xs, p) == if p(xs[n]) then Where(xs[..n], p) + {n} else Where(xs[..n], p);
    }
  }

  // ---- counting is blind to order ----

  function Count<T>(xs: seq<T>, p: T -> bool): nat {
    if xs == [] then 0 else Count(xs[..|xs| - 1], p) + if p(xs[|xs| - 1]) then 1 else 0
  }

  lemma {:induction false} CountSplits<T>(xs: seq<T>, ys: seq<T>, p: T -> bool)
    ensures Count(xs + ys, p) == Count(xs, p) + Count(ys, p)
  {
    if ys == [] {
      assert xs + ys == xs;
    } else {
      CountSplits(xs, ys[..|ys| - 1], p);
      assert (xs + ys)[..|xs + ys| - 1] == xs + ys[..|ys| - 1];
    }
  }

  lemma RemoveOne<T>(xs: seq<T>, j: nat)
    requires j < |xs|
    ensures multiset(xs) == multiset(xs[..j] + xs[j + 1..]) + multiset{xs[j]}
  {
    assert xs == xs[..j] + [xs[j]] + xs[j + 1..];
  }

  lemma Cancel<T>(a: multiset<T>, b: multiset<T>, x: T)
    requires a + multiset{x} == b + multiset{x}
    ensures a == b
  {
    forall y ensures a[y] == b[y] { assert (a + multiset{x})[y] == (b + multiset{x})[y]; }
  }

  lemma {:induction false} CountOfPermutation<T>(xs: seq<T>, ys: seq<T>, p: T -> bool)
    requires multiset(xs) == multiset(ys)
    ensures Count(xs, p) == Count(ys, p)
  {
    if xs == [] {
      assert |multiset(ys)| == 0;
    } else {
      var n, x := |xs| - 1, xs[|xs| - 1];
      RemoveOne(xs, n);
      assert xs[..n] + xs[n + 1..] == xs[..n];
      assert x in multiset(ys);
      var j :| 0 <= j < |ys| && ys[j] == x;
      RemoveOne(ys, j);
      Cancel(multiset(xs[..n]), multiset(ys[..j] + ys[j + 1..]), x);
      CountOfPermutation(xs[..n], ys[..j] + ys[j + 1..], p);
      assert ys == ys[..j] + [x] + ys[j + 1..];
      CountSplits(ys[..j], ys[j + 1..], p);
      CountSplits(ys[..j] + [x], ys[j + 1..], p);
      CountSplits(ys[..j], [x], p);
      assert [x][..0] == [];
    }
  }

  lemma {:induction false} InWindowSplits(ts: seq<real>, us: seq<real>, t: real, seconds: nat)
    ensures InWindow(ts + us, t, seconds) == InWindow(ts, t, seconds) + InWindow(us, t, seconds)
  {
    if ts == [] {
      assert ts + us == us;
    } else {
      InWindowSplits(ts[1..], us, t, seconds);
      assert (ts + us)[1..] == ts[1..] + us;
    }
  }

  lemma {:induction false} InWindowIsCount(ts: seq<real>, t: real, seconds: nat, p: real -> bool)
    requires forall x: real :: p(x) == Within(x, t, seconds)
    ensures InWindow(ts, t, seconds) == Count(ts, p)
  {
    if ts != [] {
      var n := |ts| - 1;
      InWindowIsCount(ts[..n], t, seconds, p);
      InWindowSplits(ts[..n], [ts[n]], t, seconds);
      assert ts == ts[..n] + [ts[n]] && [ts[n]][1..] == [];
    }
  }

  lemma InWindowOfPermutation(ts: seq<real>, us: seq<real>, t: real, seconds: nat)
    requires multiset(ts) == multiset(us)
    ensures InWindow(ts, t, seconds) == InWindow(us, t, seconds)
  {
    var p := (x: real) => Within(x, t, seconds);
    InWindowIsCount(ts, t, seconds, p);
    InWindowIsCount(us, t, seconds, p);
    CountOfPermutation(ts, us, p);
  }

  lemma {:induction false} SeriesIsCount(es: seq<Alert>, bySrc: bool, sid: int, key: string, t: real, seconds: nat,
                                         p: Alert -> bool)
    requires forall e :: p(e) == (Belongs(bySrc, sid, key, e) && Within(e.ts, t, seconds))
    ensures InWindow(Series(es, bySrc, sid, key), t, seconds) == Count(es, p)
  {
    if es != [] {
      var n := |es| - 1;
      SeriesIsCount(es[..n], bySrc, sid, key, t, seconds, p);
      InWindowSplits(Series(es[..n], bySrc, sid, key), [es[n].ts], t, seconds);
      assert [es[n].ts][1..] == [];
    }
  }

  lemma SeriesOfPermutation(es: seq<Alert>, fs: seq<Alert>, bySrc: bool, sid: int, key: string, t: real, seconds: nat)
    requires multiset(es) == multiset(fs)
    ensures InWindow(Series(es, bySrc, sid, key), t, seconds) == InWindow(Series(fs, bySrc, sid, key), t, seconds)
  {
    var p := (e: Alert) => Belongs(bySrc, sid, key, e) && Within(e.ts, t, seconds);
    SeriesIsCount(es, bySrc, sid, key, t, seconds, p);
    SeriesIsCount(fs, bySrc, sid, key, t, seconds, p);
    CountOfPermutation(es, fs, p);
  }

  lemma SameKeys(es: seq<Alert>, fs: seq<Alert>, bySrc: bool, sid: int)
    requires multiset(es) == multiset(fs)
    ensures Keys(es, bySrc, sid) == Keys(fs, bySrc, sid)
  {
    forall e ensures e in es <==> e in fs {
      assert e in es <==> e in multiset(es); assert e in fs <==> e in multiset(fs);
    }
  }

  lemma {:induction false} FirstSeenHasTheKeys(es: seq<Alert>, bySrc: bool, sid: int, key: string)
    ensures key in FirstSeen(es, bySrc, sid) <==> key in Keys(es, bySrc, sid)
  {
    if es != [] {
      var n := |es| - 1;
      FirstSeenHasTheKeys(es[..n], bySrc, sid, key);
      assert es == es[..n] + [es[n]];
    }
  }

  lemma SomeKeyPeaks(r: Result, es: seq<Alert>, bySrc: bool, c: Candidate, margin: real)
    requires Describes(r, es, bySrc, c, margin)
    ensures Keys(es, bySrc, c.sid) == {} ==> r.observed == 0
    ensures Keys(es, bySrc, c.sid) != {} ==>
      exists k :: k in Keys(es, bySrc, c.sid) && IsPeak(Series(es, bySrc, c.sid, k), c.seconds, r.observed)
  {
    var order := FirstSeen(es, bySrc, c.sid);
    forall k ensures k in order <==> k in Keys(es, bySrc, c.sid) { FirstSeenHasTheKeys(es, bySrc, c.sid, k); }
    match r.topKey
    case None =>
    case Some(key) => assert key in order;
  }

  lemma ObservedAtMost(es: seq<Alert>, fs: seq<Alert>, bySrc: bool, c: Candidate, margin: real, r: Result, q: Result)
    requires multiset(es) == multiset(fs) && Describes(r, es, bySrc, c, margin) && Describes(q, fs, bySrc, c, margin)
    ensures r.observed <= q.observed
  {
    SomeKeyPeaks(r, es, bySrc, c, margin);
    SameKeys(es, fs, bySrc, c.sid);
    if k :| k in Keys(es, bySrc, c.sid) && IsPeak(Series(es, bySrc, c.sid, k), c.seconds, r.observed) {
      var t: real :| InWindow(Series(es, bySrc, c.sid, k), t, c.seconds) == r.observed;
      SeriesOfPermutation(es, fs, bySrc, c.sid, k, t, c.seconds);
    }
  }

  lemma SameReach(es: seq<Alert>, fs: seq<Alert>, bySrc: bool, c: Candidate, k: string)
    requires multiset(es) == multiset(fs)
    ensures Reaches(es, bySrc, c, k, c.count) == Reaches(fs, bySrc, c, k, c.count)
  {
    forall t: real
      ensures InWindow(Series(es, bySrc, c.sid, k), t, c.seconds) == InWindow(Series(fs, bySrc, c.sid, k), t, c.seconds)
    {
      SeriesOfPermutation(es, fs, bySrc, c.sid, k, t, c.seconds);
    }
  }

  /** Up to which of several equal keys is named, a result does not depend on the order of the events. */
  lemma ResultIsOrderBlind(es: seq<Alert>, fs: seq<Alert>, bySrc: bool, c: Candidate, margin: real, r: Result,
                           q: Result)
    requires multiset(es) == multiset(fs) && Describes(r, es, bySrc, c, margin) && Describes(q, fs, bySrc, c, margin)
    ensures r == q.(topKey := r.topKey)
  {
    SameKeys(es, fs, bySrc, c.sid);
    ObservedAtMost(es, fs, bySrc, c, margin, r, q);
    ObservedAtMost(fs, es, bySrc, c, margin, q, r);
    CountOfPermutation(es, fs, (e: Alert) => e.sid == c.sid);
    forall k ensures Reaches(es, bySrc, c, k, c.count) == Reaches(fs, bySrc, c, k, c.count) {
      SameReach(es, fs, bySrc, c, k);
    }
    var keys := Keys(es, bySrc, c.sid);
    assert (set k | k in keys && Reaches(es, bySrc, c, k, c.count)) ==
           (set k | k in keys && Reaches(fs, bySrc, c, k, c.count));
  }

  /** With a margin of at least 1, no key of the baseline reaches the suggested count in any window
      once there was traffic to measure, and the suggestion never drops below the shipped count. */
  lemma NoKeyReachesTheSuggestion(es: seq<Alert>, bySrc: bool, c: Candidate, margin: real, r: Result, key: string)
    requires Describes(r, es, bySrc, c, margin) && margin >= 1.0 && key in Keys(es, bySrc, c.sid)
    ensures r.suggested >= c.count
    ensures r.observed > 0 ==> !Reaches(es, bySrc, c, key, r.suggested)
    ensures r.observed == 0 ==> r.suggested == c.count && !Reaches(es, bySrc, c, key, 1)
  {
    SuggestionClears(c.count, r.observed, margin);
    forall t: real ensures InWindow(Series(es, bySrc, c.sid, key), t, c.seconds) <= r.observed {}
  }

  /** With a margin of at least 1, a rule noted as clearing its baseline has no key that reaches the
      shipped count, and a rule noted as untested has no event in any window. */
  lemma NotesAreTrue(es: seq<Alert>, bySrc: bool, c: Candidate, margin: real, r: Result, key: string)
    requires Describes(r, es, bySrc, c, margin) && margin >= 1.0 && key in Keys(es, bySrc, c.sid)
    ensures r.note == AlreadyClears ==> r.reaching == 0 && !Reaches(es, bySrc, c, key, c.count)
    ensures r.note == Untested ==> !Reaches(es, bySrc, c, key, 1)
    ensures r.note == NoisyRaise <==> r.suggested > c.count
  {
    SuggestionClears(c.count, r.observed, margin);
    forall k | k in Keys(es, bySrc, c.sid) ensures r.note == AlreadyClears ==> !Reaches(es, bySrc, c, k, c.count) {
      NoKeyReachesTheSuggestion(es, bySrc, c, margin, r, k);
    }
    if r.note == AlreadyClears {
      assert (set k | k in Keys(es, bySrc, c.sid) && Reaches(es, bySrc, c, k, c.count)) == {};
    }
    NoKeyReachesTheSuggestion(es, bySrc, c, margin, r, key);
  }

  lemma SuggestionClears(count: nat, observed: nat, margin: real)
    requires margin >= 1.0
    ensures Suggestion(count, observed, margin) >= count
    ensures observed > 0 ==> Suggestion(count, observed, margin) > observed
  {
    ScalesUp(observed as real, margin);
  }

  lemma ScalesUp(x: real, margin: real)
    requires x >= 0.0 && margin >= 1.0
    ensures x * margin >= x
  {
    NotBelowZero(x, margin - 1.0);
    assert x * margin == x + x * (margin - 1.0);
  }

  lemma NotBelowZero(x: real, y: real)
    requires x >= 0.0 && y >= 0.0
    ensures x * y >= 0.0
  {}

  // ---- the analysis ----

  /** sorted(), as a specification of the library call. */
  function Sort(ts: seq<real>): (r: seq<real>)
    ensures Sorted(r) && multiset(r) == multiset(ts)
  {
    if ts == [] then []
    else
      assert ts == ts[..|ts| - 1] + [ts[|ts| - 1]];
      InsertAddsOne(Sort(ts[..|ts| - 1]), ts[|ts| - 1]);
      Insert(Sort(ts[..|ts| - 1]), ts[|ts| - 1])
  }

  function Insert(ts: seq<real>, x: real): (r: seq<real>)
    requires Sorted(ts)
    ensures Sorted(r) && r != [] && r[0] == if ts == [] || x <= ts[0] then x else ts[0]
  {
    if ts == [] || x <= ts[0] then [x] + ts else [ts[0]] + Insert(ts[1..], x)
  }

  lemma {:induction false} InsertAddsOne(ts: seq<real>, x: real)
    requires Sorted(ts)
    ensures multiset(Insert(ts, x)) == multiset(ts) + multiset{x}
  {
    if ts != [] {
      assert ts == [ts[0]] + ts[1..];
      InsertAddsOne(ts[1..], x);
    }
  }

  /** One rule's dictionary: its keys in order of insertion, and the times of each. */
  datatype Table = Table(order: seq<string>, at: map<string, seq<real>>)

  const EMPTY_TABLE := Table([], map[])

  /** It holds every key's series and no empty ones, in the order in which the keys first appeared. */
  ghost predicate Holds(table: Table, es: seq<Alert>, bySrc: bool, sid: int) {
    table.order == FirstSeen(es, bySrc, sid) && forall key :: HoldsKey(table, es, bySrc, sid, key)
  }

  predicate HoldsKey(table: Table, es: seq<Alert>, bySrc: bool, sid: int, key: string) {
    && (key in table.at <==> key in table.order) && (key in table.at ==> table.at[key] != [])
    && Series(es, bySrc, sid, key) == if key in table.at then table.at[key] else []
  }

  /** setdefault(key, []).append(ts) */
  function Recorded(table: Table, key: string, ts: real): Table {
    if key in table.at then Table(table.order, table.at[key := table.at[key] + [ts]])
    else Table(table.order + [key], table.at[key := [ts]])
  }

  lemma OneMoreEvent(es: seq<Alert>, e: Alert, bySrc: bool, sid: int, key: string)
    ensures Series(es + [e], bySrc, sid, key) ==
      Series(es, bySrc, sid, key) + if Belongs(bySrc, sid, key, e) then [e.ts] else []
  {
    assert (es + [e])[..|es|] == es;
  }

  lemma OneMoreKey(es: seq<Alert>, e: Alert, bySrc: bool, sid: int)
    ensures var order, key := FirstSeen(es, bySrc, sid), KeyOf(bySrc, e);
      FirstSeen(es + [e], bySrc, sid) == if e.sid == sid && key !in order then order + [key] else order
  {
    assert (es + [e])[..|es|] == es;
  }

  lemma KeyIsRecorded(table: Table, es: seq<Alert>, e: Alert, bySrc: bool, sid: int, key: string)
    requires HoldsKey(table, es, bySrc, sid, key)
    ensures
      var next := if e.sid == sid then Recorded(table, KeyOf(bySrc, e), e.ts) else table;
      HoldsKey(next, es + [e], bySrc, sid, key)
  {
    OneMoreEvent(es, e, bySrc, sid, key);
  }

  lemma RecordedHolds(table: Table, es: seq<Alert>, e: Alert, bySrc: bool, sid: int)
    requires Holds(table, es, bySrc, sid)
    ensures Holds(if e.sid == sid then Recorded(table, KeyOf(bySrc, e), e.ts) else table, es + [e], bySrc, sid)
  {
    OneMoreKey(es, e, bySrc, sid);
    assert HoldsKey(table, es, bySrc, sid, KeyOf(bySrc, e));
    var next := if e.sid == sid then Recorded(table, KeyOf(bySrc, e), e.ts) else table;
    forall key ensures HoldsKey(next, es + [e], bySrc, sid, key) {
      assert HoldsKey(table, es, bySrc, sid, key);
      KeyIsRecorded(table, es, e, bySrc, sid, key);
    }
  }

  function Filed(series: map<int, Table>, bySid: map<int, bool>, e: Alert): map<int, Table>
    requires series.Keys == bySid.Keys
  {
    if e.sid in bySid then series[e.sid := Recorded(series[e.sid], KeyOf(bySid[e.sid], e), e.ts)] else series
  }

  ghost predicate AllHold(series: map<int, Table>, bySid: map<int, bool>, es: seq<Alert>) {
    && series.Keys == bySid.Keys
    && forall sid | sid in series :: Holds(series[sid], es, bySid[sid], sid)
  }

  lemma FiledHolds(series: map<int, Table>, bySid: map<int, bool>, es: seq<Alert>, e: Alert)
    requires AllHold(series, bySid, es)
    ensures AllHold(Filed(series, bySid, e), bySid, es + [e])
  {
    var filed := Filed(series, bySid, e);
    assert filed.Keys == series.Keys;
    forall sid | sid in filed ensures Holds(filed[sid], es + [e], bySid[sid], sid) {
      RecordedHolds(series[sid], es, e, bySid[sid], sid);
    }
  }

  predicate Relevant(cands: seq<Candidate>, e: Alert) { Tracks(cands, e.sid).Some? }

  /** `first` and `last` bound the relevant events and are attained. */
  ghost predicate Spans(es: seq<Alert>, cands: seq<Candidate>, first: Option<real>, last: Option<real>) {
    && (first.None? <==> last.None?) && (first.None? <==> forall e | e in es :: !Relevant(cands, e))
    && (first.Some? ==>
          && (forall e | e in es && Relevant(cands, e) :: first.value <= e.ts <= last.value)
          && (exists e :: e in es && Relevant(cands, e) && e.ts == first.value)
          && (exists e :: e in es && Relevant(cands, e) && e.ts == last.value))
  }

  function Earlier(first: Option<real>, ts: real): Option<real> {
    if first.None? || ts < first.value then Some(ts) else first
  }

  function Later(last: Option<real>, ts: real): Option<real> {
    if last.None? || last.value < ts then Some(ts) else last
  }

  lemma SpansOneMore(es: seq<Alert>, e: Alert, cands: seq<Candidate>, first: Option<real>, last: Option<real>)
    requires Spans(es, cands, first, last)
    ensures !Relevant(cands, e) ==> Spans(es + [e], cands, first, last)
    ensures Relevant(cands, e) ==> Spans(es + [e], cands, Earlier(first, e.ts), Later(last, e.ts))
  {
    var fs := es + [e];
    assert e in fs && forall x :: x in fs <==> x in es || x == e;
  }

  /** The series dictionary (rule, then key, then times in order of arrival), and the times of the first
      and the last relevant event. */
  method Collect(es: seq<Alert>, cands: seq<Candidate>)
    returns (series: map<int, Table>, first: Option<real>, last: Option<real>)
    ensures forall sid :: sid in series <==> Tracks(cands, sid).Some?
    ensures forall sid | sid in series :: Holds(series[sid], es, Tracks(cands, sid).value, sid)
    ensures Spans(es, cands, first, last)
  {
    var bySid := BySid(cands);
    series := map sid | sid in bySid :: EMPTY_TABLE;
    first, last := None, None;
    for i := 0 to |es|
      invariant AllHold(series, bySid, es[..i]) && Spans(es[..i], cands, first, last)
    {
      var e := es[i];
      FiledHolds(series, bySid, es[..i], e);
      SpansOneMore(es[..i], e, cands, first, last);
      assert es[..i + 1] == es[..i] + [e];
      series := Filed(series, bySid, e);
      if e.sid in bySid {
        first, last := Earlier(first, e.ts), Later(last, e.ts);
      }
    }
    assert es[..|es|] == es;
  }

  method BySid(cands: seq<Candidate>) returns (bySid: map<int, bool>)
    ensures forall sid :: sid in bySid <==> Tracks(cands, sid).Some?
    ensures forall sid | sid in bySid :: Tracks(cands, sid) == Some(bySid[sid])
  {
    bySid := map[];
    for i := 0 to |cands|
      invariant forall sid :: sid in bySid <==> Tracks(cands[..i], sid).Some?
      invariant forall sid | sid in bySid :: Tracks(cands[..i], sid) == Some(bySid[sid])
    {
      assert cands[..i + 1][..i] == cands[..i];
      bySid := bySid[cands[i].sid := cands[i].bySrc];
    }
    assert cands[..|cands|] == cands;
  }

  /** How many events of the rule have one of these keys. */
  function Traffic(es: seq<Alert>, bySrc: bool, sid: int, keys: set<string>): nat {
    if es == [] then 0
    else
      var e := es[|es| - 1];
      Traffic(es[..|es| - 1], bySrc, sid, keys) + if e.sid == sid && KeyOf(bySrc, e) in keys then 1 else 0
  }

  lemma {:induction false} TrafficGrows(es: seq<Alert>, bySrc: bool, sid: int, keys: set<string>, key: string)
    requires key !in keys
    ensures Traffic(es, bySrc, sid, keys + {key}) == Traffic(es, bySrc, sid, keys) + |Series(es, bySrc, sid, key)|
    ensures Traffic(es, bySrc, sid, {}) == 0
  {
    if es != [] { TrafficGrows(es[..|es| - 1], bySrc, sid, keys, key); }
  }

  lemma {:induction false} SeriesIsEmptyIff(es: seq<Alert>, bySrc: bool, sid: int, key: string)
    ensures Series(es, bySrc, sid, key) != [] <==> key in Keys(es, bySrc, sid)
  {
    if es != [] {
      var n := |es| - 1;
      SeriesIsEmptyIff(es[..n], bySrc, sid, key);
      assert es == es[..n] + [es[n]];
    }
  }

  lemma {:induction false} AllTraffic(es: seq<Alert>, bySrc: bool, sid: int, keys: set<string>, p: Alert -> bool)
    requires forall e | e in es && e.sid == sid :: KeyOf(bySrc, e) in keys
    requires forall e: Alert :: p(e) == (e.sid == sid)
    ensures Traffic(es, bySrc, sid, keys) == Count(es, p)
  {
    if es != [] {
      assert es[|es| - 1] in es;
      AllTraffic(es[..|es| - 1], bySrc, sid, keys, p);
    }
  }

  function KeySet(order: seq<string>): set<string> { set key | key in order }

  lemma HoldsTheKeys(table: Table, es: seq<Alert>, bySrc: bool, sid: int)
    requires Holds(table, es, bySrc, sid)
    ensures KeySet(table.order) == table.at.Keys == Keys(es, bySrc, sid)
  {
    forall key
      ensures (key in table.at <==> key in Keys(es, bySrc, sid)) && (key in table.at <==> key in table.order)
    {
      assert HoldsKey(table, es, bySrc, sid, key);
      SeriesIsEmptyIff(es, bySrc, sid, key);
    }
  }

  /** What the loop over the keys has established for the keys it is done with. */
  ghost predicate Measured(done: seq<string>, es: seq<Alert>, bySrc: bool, c: Candidate, observed: nat,
                           topKey: Option<string>, hits: set<string>) {
    && (forall k | k in done :: Below(Series(es, bySrc, c.sid, k), c.seconds, observed + 1))
    && TopKey(done, topKey, es, bySrc, c, observed)
    && (forall k :: k in hits <==> k in done && Reaches(es, bySrc, c, k, c.count))
  }

  lemma MeasureOne(done: seq<string>, es: seq<Alert>, bySrc: bool, c: Candidate, observed: nat, topKey: Option<string>,
                   hits: set<string>, k: string, m: nat)
    requires Measured(done, es, bySrc, c, observed, topKey, hits) && IsPeak(Series(es, bySrc, c.sid, k), c.seconds, m)
    ensures Measured(done + [k], es, bySrc, c, if observed < m then m else observed,
                     if topKey.None? || observed < m then Some(k) else topKey,
                     if m >= c.count then hits + {k} else hits)
  {
    assert Reaches(es, bySrc, c, k, c.count) <==> m >= c.count;
    forall j | j in done
      ensures Below(Series(es, bySrc, c.sid, j), c.seconds, (if observed < m then m else observed) + 1)
    {
      assert Below(Series(es, bySrc, c.sid, j), c.seconds, observed + 1);
    }
    MeasureTop(done, es, bySrc, c, observed, topKey, k, m);
  }

  lemma MeasureTop(done: seq<string>, es: seq<Alert>, bySrc: bool, c: Candidate, observed: nat, topKey: Option<string>,
                   k: string, m: nat)
    requires forall j | j in done :: Below(Series(es, bySrc, c.sid, j), c.seconds, observed + 1)
    requires TopKey(done, topKey, es, bySrc, c, observed) && IsPeak(Series(es, bySrc, c.sid, k), c.seconds, m)
    ensures TopKey(done + [k], if topKey.None? || observed < m then Some(k) else topKey, es, bySrc, c,
                   if observed < m then m else observed)
  {
    var order := done + [k];
    if topKey.None? || observed < m {
      forall i | 0 <= i < |done| ensures Below(Series(es, bySrc, c.sid, order[i]), c.seconds, m) {
        assert done[i] in done;
      }
      assert FirstPeak(order, |done|, es, bySrc, c, m);
    } else {
      var n: nat :| FirstPeak(done, n, es, bySrc, c, observed) && done[n] == topKey.value;
      assert FirstPeak(order, n, es, bySrc, c, observed);
    }
  }

  method PeakOf(ts: seq<real>, seconds: nat) returns (m: nat)
    ensures IsPeak(ts, seconds, m)
  {
    m := WindowMax(Sort(ts), seconds);
    forall t: real ensures InWindow(Sort(ts), t, seconds) == InWindow(ts, t, seconds) {
      InWindowOfPermutation(Sort(ts), ts, t, seconds);
    }
  }

  /** The running totals over the keys. */
  datatype Tally = Tally(events: nat, observed: nat, topKey: Option<string>, reaching: nat)

  function Add(y: Tally, key: string, events: nat, m: nat, count: nat): Tally {
    Tally(y.events + events, if y.observed < m then m else y.observed,
          if y.topKey.None? || y.observed < m then Some(key) else y.topKey,
          if m >= count then y.reaching + 1 else y.reaching)
  }

  ghost predicate Tallies(y: Tally, done: seq<string>, c: Candidate, es: seq<Alert>, bySrc: bool, hits: set<string>) {
    && Measured(done, es, bySrc, c, y.observed, y.topKey, hits)
    && y.reaching == |hits| && y.events == Traffic(es, bySrc, c.sid, KeySet(done))
  }

  lemma TallyNothing(c: Candidate, es: seq<Alert>, bySrc: bool)
    ensures Tallies(Tally(0, 0, None, 0), [], c, es, bySrc, {})
  {
    TrafficGrows(es, bySrc, c.sid, {}, "");
    assert KeySet([]) == {};
  }

  lemma TallyOne(y: Tally, done: seq<string>, c: Candidate, es: seq<Alert>, bySrc: bool, hits: set<string>, k: string,
                 m: nat)
    requires Tallies(y, done, c, es, bySrc, hits) && k !in done && IsPeak(Series(es, bySrc, c.sid, k), c.seconds, m)
    ensures Tallies(Add(y, k, |Series(es, bySrc, c.sid, k)|, m, c.count), done + [k], c, es, bySrc,
                    if m >= c.count then hits + {k} else hits)
  {
    MeasureOne(done, es, bySrc, c, y.observed, y.topKey, hits, k, m);
    TrafficGrows(es, bySrc, c.sid, KeySet(done), k);
    assert KeySet(done + [k]) == KeySet(done) + {k};
  }

  function Summary(y: Tally, keys: nat, count: nat, margin: real): Result {
    var suggested := Suggestion(count, y.observed, margin);
    var note := if y.observed == 0 then Untested else if suggested > count then NoisyRaise else AlreadyClears;
    Result(y.events, keys, y.observed, y.topKey, y.reaching, suggested, note)
  }

  lemma TallyDescribes(y: Tally, table: Table, es: seq<Alert>, bySrc: bool, c: Candidate, margin: real,
                       hits: set<string>)
    requires Holds(table, es, bySrc, c.sid) && Tallies(y, table.order, c, es, bySrc, hits)
    ensures Describes(Summary(y, |table.at|, c.count, margin), es, bySrc, c, margin)
  {
    HoldsTheKeys(table, es, bySrc, c.sid);
    AllTraffic(es, bySrc, c.sid, KeySet(table.order), (e: Alert) => e.sid == c.sid);
    assert hits == set k | k in Keys(es, bySrc, c.sid) && Reaches(es, bySrc, c, k, c.count);
    forall k | k in Keys(es, bySrc, c.sid) ensures Below(Series(es, bySrc, c.sid, k), c.seconds, y.observed + 1) {
      assert k in table.order;
    }
  }

  /** A result of candidate c, under the way of tracking in force for its rule. */
  ghost predicate DescribesRule(r: Result, es: seq<Alert>, cands: seq<Candidate>, c: Candidate, margin: real) {
    Tracks(cands, c.sid).Some? && Describes(r, es, Tracks(cands, c.sid).value, c, margin)
  }

  lemma KeyIsNew(table: Table, i: nat, es: seq<Alert>, bySrc: bool, sid: int)
    requires i < |table.order| && Holds(table, es, bySrc, sid)
    ensures var k := table.order[i];
      k !in table.order[..i] && k in table.at && table.at[k] == Series(es, bySrc, sid, k)
  {
    assert HoldsKey(table, es, bySrc, sid, table.order[i]);
  }

  lemma TallyNext(y: Tally, i: nat, table: Table, c: Candidate, es: seq<Alert>, bySrc: bool, hits: set<string>, m: nat)
    requires i < |table.order| && Holds(table, es, bySrc, c.sid) && Tallies(y, table.order[..i], c, es, bySrc, hits)
    requires table.order[i] in table.at && IsPeak(table.at[table.order[i]], c.seconds, m)
    ensures var k := table.order[i];
      Tallies(Add(y, k, |table.at[k]|, m, c.count), table.order[..i + 1], c, es, bySrc,
              if m >= c.count then hits + {k} else hits)
  {
    var k := table.order[i];
    KeyIsNew(table, i, es, bySrc, c.sid);
    assert table.order[..i + 1] == table.order[..i] + [k];
    TallyOne(y, table.order[..i], c, es, bySrc, hits, k, m);
  }

  /** One key of the dictionary is measured and added to the totals. */
  method TallyKey(tally: Tally, i: nat, c: Candidate, table: Table, ghost es: seq<Alert>, ghost bySrc: bool,
                  ghost hits: set<string>)
    returns (next: Tally, ghost nextHits: set<string>)
    requires i < |table.order| && Holds(table, es, bySrc, c.sid) && Tallies(tally, table.order[..i], c, es, bySrc, hits)
    ensures Tallies(next, table.order[..i + 1], c, es, bySrc, nextHits)
  {
    var k := table.order[i];
    KeyIsNew(table, i, es, bySrc, c.sid);
    var m := PeakOf(table.at[k], c.seconds);
    TallyNext(tally, i, table, c, es, bySrc, hits, m);
    next := Add(tally, k, |table.at[k]|, m, c.count);
    nextHits := if m >= c.count then hits + {k} else hits;
  }

  /** The loop over one rule's keys, in the order of its dictionary. */
  method TallyUp(c: Candidate, table: Table, ghost es: seq<Alert>, ghost bySrc: bool)
    returns (tally: Tally, ghost hits: set<string>)
    requires Holds(table, es, bySrc, c.sid)
    ensures Tallies(tally, table.order, c, es, bySrc, hits)
  {
    tally, hits := Tally(0, 0, None, 0), {};
    TallyNothing(c, es, bySrc);
    for i := 0 to |table.order|
      invariant Tallies(tally, table.order[..i], c, es, bySrc, hits)
    {
      tally, hits := TallyKey(tally, i, c, table, es, bySrc, hits);
    }
    assert table.order[..|table.order|] == table.order;
  }

  method Assess(c: Candidate, table: Table, margin: real, ghost es: seq<Alert>, ghost cands: seq<Candidate>)
    returns (r: Result)
    requires Tracks(cands, c.sid).Some? && Holds(table, es, Tracks(cands, c.sid).value, c.sid)
    ensures DescribesRule(r, es, cands, c, margin)
  {
    ghost var bySrc := Tracks(cands, c.sid).value;
    var tally;
    ghost var hits;
    tally, hits := TallyUp(c, table, es, bySrc);
    r := Summary(tally, |table.at|, c.count, margin);
    TallyDescribes(tally, table, es, bySrc, c, margin, hits);
  }

  // ---- the whole report ----

  lemma {:induction false} TracksACandidate(cands: seq<Candidate>, i: nat)
    requires i < |cands|
    ensures Tracks(cands, cands[i].sid).Some?
  {
    if i < |cands| - 1 { TracksACandidate(cands[..|cands| - 1], i); }
  }

  /** Each result is about the candidate in its place. */
  ghost predicate DescribeInTurn(results: seq<Result>, es: seq<Alert>, cands: seq<Candidate>, margin: real) {
    |results| <= |cands| && forall i | 0 <= i < |results| :: DescribesRule(results[i], es, cands, cands[i], margin)
  }

  lemma DescribesOneMore(results: seq<Result>, r: Result, es: seq<Alert>, cands: seq<Candidate>, margin: real)
    requires DescribeInTurn(results, es, cands, margin) && |results| < |cands|
    requires DescribesRule(r, es, cands, cands[|results|], margin)
    ensures DescribeInTurn(results + [r], es, cands, margin)
  {
    forall i | 0 <= i <= |results| ensures DescribesRule((results + [r])[i], es, cands, cands[i], margin) {
      if i < |results| { assert (results + [r])[i] == results[i]; }
    }
  }

  method AnalyzeEvents(es: seq<Alert>, cands: seq<Candidate>, margin: real)
    returns (results: seq<Result>, first: Option<real>, last: Option<real>)
    ensures |results| == |cands| && DescribeInTurn(results, es, cands, margin)
    ensures Spans(es, cands, first, last)
  {
    var series;
    series, first, last := Collect(es, cands);
    results := [];
    for i := 0 to |cands|
      invariant |results| == i && DescribeInTurn(results, es, cands, margin)
    {
      TracksACandidate(cands, i);
      var r := Assess(cands[i], series[cands[i].sid], margin, es, cands);
      DescribesOneMore(results, r, es, cands, margin);
      results := results + [r];
    }
  }
}
