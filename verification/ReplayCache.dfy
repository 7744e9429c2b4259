/** The replay cache both services keep: signature -> expiry. The clock never goes back, but a check may
    use a reading taken before its message's body was awaited. */
module ReplayCache {
  function Prune<Sig>(seen: map<Sig, int>, now: int): map<Sig, int> {
    map s | s in seen && seen[s] > now :: seen[s]
  }

  predicate Unseen<Sig>(seen: map<Sig, int>, signature: Sig, now: int) {
    signature !in Prune(seen, now)
  }

  function Record<Sig>(seen: map<Sig, int>, signature: Sig, now: int, window: int): map<Sig, int> {
    if Unseen(seen, signature, now) then Prune(seen, now)[signature := now + window] else Prune(seen, now)
  }

  predicate InWindow(now: int, ts: int, window: int) { -window <= now - ts <= window }

  class Cache<Sig(==)> {
    var seen: map<Sig, int>
    const window: int

    constructor (window: int)
      ensures this.window == window && seen == map[]
    {
      this.window := window;
      seen := map[];
    }

    /** _nonce_is_fresh: prunes in a loop, then records the signature unless it is there. */
    method NonceIsFresh(signature: Sig, now: int) returns (isFresh: bool)
      modifies this`seen
      ensures isFresh == Unseen(old(seen), signature, now)
      ensures seen == Record(old(seen), signature, now, window)
    {
      var items := seen.Keys;
      while items != {}
        invariant items <= seen.Keys <= old(seen).Keys
        invariant forall s | s in seen :: seen[s] == old(seen)[s]
        invariant forall s | s in old(seen) && s !in seen :: old(seen)[s] <= now
        invariant forall s | s in seen && s !in items :: seen[s] > now
        decreases |items|
      {
        var s :| s in items;
        items := items - {s};
        if seen[s] <= now {
          seen := seen - {s};
        }
      }
      assert seen == Prune(old(seen), now);
      if signature in seen {
        return false;
      }
      seen := seen[signature := now + window];
      return true;
    }

    /** verify_signature, and the broker's _verify: the cache is consulted only once the timestamp
        is in the window and the signature is proven. `ts` is None when it does not parse. */
    method Verify(ts: int, parses: bool, matches: bool, signature: Sig, now: int) returns (ok: bool)
      modifies this`seen
      ensures ok == (parses && InWindow(now, ts, window) && matches && Unseen(old(seen), signature, now))
      ensures seen == if parses && InWindow(now, ts, window) && matches then Record(old(seen), signature, now, window)
                      else old(seen)
    {
      if !parses {
        return false;
      }
      var distance := if now - ts < 0 then ts - now else now - ts;
      if distance > window {
        return false;
      }
      if !matches {
        return false;
      }
      ok := NonceIsFresh(signature, now);
    }
  }

  // ---- runs ----

  /** One message presented to the cache at time `now`. */
  datatype Arrival<Sig> = Arrival(signature: Sig, ts: int, matches: bool, now: int)

  predicate Checked<Sig>(a: Arrival<Sig>, window: int) { a.matches && InWindow(a.now, a.ts, window) }

  function Step<Sig>(seen: map<Sig, int>, a: Arrival<Sig>, window: int): map<Sig, int> {
    if Checked(a, window) then Record(seen, a.signature, a.now, window) else seen
  }

  function After<Sig(==)>(arrivals: seq<Arrival<Sig>>, window: int): map<Sig, int> {
    if arrivals == [] then map[]
    else Step(After(arrivals[..|arrivals| - 1], window), arrivals[|arrivals| - 1], window)
  }

  predicate Accepted<Sig(==)>(arrivals: seq<Arrival<Sig>>, i: nat, window: int)
    requires i < |arrivals|
  {
    Checked(arrivals[i], window) && Unseen(After(arrivals[..i], window), arrivals[i].signature, arrivals[i].now)
  }

  /** Checks may use clock readings out of order, by at most `slack`: a later check's reading is never
      more than that behind an earlier one's. */
  ghost predicate ClockWithin<Sig>(arrivals: seq<Arrival<Sig>>, slack: nat) {
    forall i, j | 0 <= i <= j < |arrivals| :: arrivals[i].now <= arrivals[j].now + slack
  }

  lemma AfterNext<Sig>(arrivals: seq<Arrival<Sig>>, j: nat, window: int)
    requires j < |arrivals|
    ensures After(arrivals[..j + 1], window) == Step(After(arrivals[..j], window), arrivals[j], window)
  {
    assert arrivals[..j + 1][..j] == arrivals[..j];
  }

  /** Once accepted, a signature stays cached until a check reads a time a window later. */
  lemma {:induction false} AcceptedStaysCached<Sig>(arrivals: seq<Arrival<Sig>>, i: nat, j: nat, window: int)
    requires i < j <= |arrivals| && Accepted(arrivals, i, window)
    requires forall k | i < k < j :: arrivals[k].now < arrivals[i].now + window
    ensures var seen := After(arrivals[..j], window);
      arrivals[i].signature in seen && seen[arrivals[i].signature] == arrivals[i].now + window
  {
    AfterNext(arrivals, j - 1, window);
    if i < j - 1 {
      AcceptedStaysCached(arrivals, i, j - 1, window);
    }
  }

  /** Two acceptances of one signature are at least a window apart, less the slack, over every run. */
  lemma AcceptancesAreApart<Sig>(arrivals: seq<Arrival<Sig>>, i: nat, j: nat, window: int, slack: nat)
    requires i < j < |arrivals| && ClockWithin(arrivals, slack)
    requires Accepted(arrivals, i, window) && Accepted(arrivals, j, window)
    requires arrivals[i].signature == arrivals[j].signature
    ensures arrivals[j].now >= arrivals[i].now + window - slack
  {
    if k :| i < k <= j && arrivals[k].now >= arrivals[i].now + window {
      assert arrivals[k].now <= arrivals[j].now + slack;
    } else {
      AcceptedStaysCached(arrivals, i, j, window);
      assert false;
    }
  }

  // ---- how often ----

  /** Positions, in order, at which one signature with its one timestamp is accepted. */
  ghost predicate AcceptedAt<Sig>(arrivals: seq<Arrival<Sig>>, at: seq<nat>, window: int) {
    && (forall x, y | 0 <= x < y < |at| :: at[x] < at[y])
    && (forall x | 0 <= x < |at| :: at[x] < |arrivals| && Accepted(arrivals, at[x], window))
    && (forall x | 0 <= x < |at| ::
          arrivals[at[x]].signature == arrivals[at[0]].signature && arrivals[at[x]].ts == arrivals[at[0]].ts)
  }

  lemma {:induction false} AcceptancesSpread<Sig>(arrivals: seq<Arrival<Sig>>, at: seq<nat>, n: nat, window: int,
                                                  slack: nat)
    requires ClockWithin(arrivals, slack) && AcceptedAt(arrivals, at, window) && n < |at|
    ensures arrivals[at[n]].now >= arrivals[at[0]].now + n * (window - slack)
  {
    if n > 0 {
      AcceptancesSpread(arrivals, at, n - 1, window, slack);
      AcceptancesAreApart(arrivals, at[n - 1], at[n], window, slack);
      assert n * (window - slack) == (n - 1) * (window - slack) + (window - slack);
    }
  }

  /** A signature lives for two windows around its timestamp, and that bounds its acceptances. */
  lemma AcceptancesFitItsLife<Sig>(arrivals: seq<Arrival<Sig>>, at: seq<nat>, window: int, slack: nat)
    requires at != [] && ClockWithin(arrivals, slack) && AcceptedAt(arrivals, at, window)
    ensures (|at| - 1) * (window - slack) <= 2 * window
  {
    var n := |at| - 1;
    AcceptancesSpread(arrivals, at, n, window, slack);
    assert Accepted(arrivals, at[n], window) && Accepted(arrivals, at[0], window);
  }

  /** At most three in every run. */
  ghost predicate AtMostThree(window: nat, slack: nat) {
    forall arrivals: seq<Arrival<nat>>, at | ClockWithin(arrivals, slack) && AcceptedAt(arrivals, at, window) ::
      |at| <= 3
  }

  /** No run accepts a request four times exactly when the slack stays below a third of the window. */
  lemma AtMostThreeIff(window: nat, slack: nat)
    ensures AtMostThree(window, slack) <==> 3 * slack < window
  {
    if 3 * slack < window {
      forall arrivals: seq<Arrival<nat>>, at | ClockWithin(arrivals, slack) && AcceptedAt(arrivals, at, window)
        ensures |at| <= 3
      {
        AtMostThreeAcceptances(arrivals, at, window, slack);
      }
    } else {
      FourAcceptances(window, slack);
    }
  }

  lemma AtMostThreeAcceptances<Sig>(arrivals: seq<Arrival<Sig>>, at: seq<nat>, window: int, slack: nat)
    requires 3 * slack < window && ClockWithin(arrivals, slack) && AcceptedAt(arrivals, at, window)
    ensures |at| <= 3
  {
    if at != [] {
      AcceptancesFitItsLife(arrivals, at, window, slack);
      FewerThanThree(|at| - 1, window - slack);
    }
  }

  lemma FewerThanThree(m: int, gap: int)
    requires gap > 0 && m * gap < 3 * gap
    ensures m < 3
  {}

  /** Another request, checked in the second it was signed. */
  function Other(signature: nat, now: int): Arrival<nat> { Arrival(signature, now, true, now) }

  /** Request 0, signed at time 0, at four readings `gap` apart, with another request's check a window
      after each of the first three. */
  function FourTimes(window: int, gap: int): seq<Arrival<nat>> {
    [Arrival(0, 0, true, -window), Other(1, 0),
     Arrival(0, 0, true, gap - window), Other(2, gap),
     Arrival(0, 0, true, 2 * gap - window), Other(3, 2 * gap),
     Arrival(0, 0, true, 3 * gap - window)]
  }

  lemma FourAcceptances(window: nat, slack: nat)
    requires window <= 3 * slack
    ensures !AtMostThree(window, slack)
  {
    var gap := if slack < window then window - slack else 0;
    var arrivals, at := FourTimes(window, gap), [0, 2, 4, 6];
    AcceptedAfterOther(arrivals, 0, window);
    AcceptedAfterOther(arrivals, 2, window);
    AcceptedAfterOther(arrivals, 4, window);
    assert forall x | 0 <= x < |at| :: arrivals[at[x]].signature == 0 && arrivals[at[x]].ts == 0;
    assert AcceptedAt(arrivals, at, window);
    assert ClockWithin(arrivals, slack);
  }

  /** Another request's check a window after an acceptance makes room for the next one. */
  lemma AcceptedAfterOther<Sig>(arrivals: seq<Arrival<Sig>>, j: nat, window: int)
    requires j + 2 < |arrivals| && Accepted(arrivals, j, window)
    requires arrivals[j + 1].signature != arrivals[j].signature && Checked(arrivals[j + 1], window)
    requires arrivals[j + 1].now >= arrivals[j].now + window
    requires arrivals[j + 2].signature == arrivals[j].signature && Checked(arrivals[j + 2], window)
    ensures Accepted(arrivals, j + 2, window)
  {
    AfterNext(arrivals, j, window);
    AfterNext(arrivals, j + 1, window);
  }

  /** The cache after each of the first arrivals. */
  lemma FirstPrefixes<Sig>(arrivals: seq<Arrival<Sig>>, window: int)
    ensures forall j | 0 <= j < |arrivals| ::
      After(arrivals[..j + 1], window) == Step(After(arrivals[..j], window), arrivals[j], window)
  {
    forall j | 0 <= j < |arrivals|
      ensures After(arrivals[..j + 1], window) == Step(After(arrivals[..j], window), arrivals[j], window)
    {
      AfterNext(arrivals, j, window);
    }
  }

  /** One request presented at both ends and in the middle of its life. */
  function Thrice<Sig>(signature: Sig, ts: int, window: int): seq<Arrival<Sig>> {
    [Arrival(signature, ts, true, ts - window), Arrival(signature, ts, true, ts),
     Arrival(signature, ts, true, ts + window)]
  }

  /** Three is reached: the bound is tight. */
  lemma ThreeAcceptancesHappen<Sig>(signature: Sig, ts: int, window: int)
    requires 0 < window
    ensures
      var arrivals := Thrice(signature, ts, window);
      ClockWithin(arrivals, 0) && AcceptedAt(arrivals, [0, 1, 2], window)
  {
    var arrivals := Thrice(signature, ts, window);
    AfterNext(arrivals, 0, window);
    AfterNext(arrivals, 1, window);
  }

  // ---- how far apart ----

  /** Arrivals i and j are one request, accepted both times. */
  predicate AcceptedAgain(arrivals: seq<Arrival<nat>>, i: nat, j: nat, window: nat)
    requires i < j < |arrivals|
  {
    && arrivals[i].signature == arrivals[j].signature && arrivals[i].ts == arrivals[j].ts
    && Accepted(arrivals, i, window) && Accepted(arrivals, j, window)
  }

  /** In every run, acceptances of one request are a full window apart. */
  ghost predicate AWindowApart(window: nat, slack: nat) {
    forall arrivals: seq<Arrival<nat>>, i, j |
      0 <= i < j < |arrivals| && ClockWithin(arrivals, slack) && AcceptedAgain(arrivals, i, j, window)
      :: arrivals[j].now >= arrivals[i].now + window
  }

  /** They are exactly when no check uses a late reading (or the window is empty). */
  lemma AWindowApartIff(window: nat, slack: nat)
    ensures AWindowApart(window, slack) <==> slack == 0 || window == 0
  {
    if slack == 0 || window == 0 {
      forall arrivals: seq<Arrival<nat>>, i, j |
        0 <= i < j < |arrivals| && ClockWithin(arrivals, slack) && AcceptedAgain(arrivals, i, j, window)
        ensures arrivals[j].now >= arrivals[i].now + window
      {
        if slack == 0 { AcceptancesAreApart(arrivals, i, j, window, slack); }
      }
    } else {
      var arrivals := [Arrival(0, 0, true, 1), Other(1, 1 + window), Arrival(0, 0, true, window)];
      FirstPrefixes(arrivals, window);
      assert ClockWithin(arrivals, slack) && AcceptedAgain(arrivals, 0, 2, window);
    }
  }

  // ---- exactly once ----

  /** No run accepts a request again that it first accepted at least `lag` after it was signed. */
  ghost predicate AcceptedOnce(window: nat, slack: nat, lag: int) {
    forall arrivals: seq<Arrival<nat>>, i, j | 0 <= i < j < |arrivals| && ClockWithin(arrivals, slack) ::
      !AcceptedTwice(arrivals, i, j, window, lag)
  }

  predicate AcceptedTwice(arrivals: seq<Arrival<nat>>, i: nat, j: nat, window: nat, lag: int)
    requires i < j < |arrivals|
  {
    AcceptedAgain(arrivals, i, j, window) && arrivals[i].now - arrivals[i].ts >= lag
  }

  /** A request is accepted once in every run exactly when its age at the first acceptance exceeds the
      slack (or the window, and then it is never accepted). */
  lemma AcceptedOnceIff(window: nat, slack: nat, lag: int)
    ensures AcceptedOnce(window, slack, lag) <==> lag > slack || lag > window
  {
    if lag > slack || lag > window {
      forall arrivals: seq<Arrival<nat>>, i, j | 0 <= i < j < |arrivals| && ClockWithin(arrivals, slack)
        ensures !AcceptedTwice(arrivals, i, j, window, lag)
      {
        if AcceptedTwice(arrivals, i, j, window, lag) { AcceptancesAreApart(arrivals, i, j, window, slack); }
      }
    } else {
      var age := if lag < -(window as int) then -(window as int) else lag;
      var arrivals := [Arrival(0, 0, true, age), Arrival(1, age + window, true, age + window),
                       Arrival(0, 0, true, if age <= 0 then age + window else window)];
      AfterNext(arrivals, 0, window);
      AfterNext(arrivals, 1, window);
      assert AcceptedTwice(arrivals, 0, 2, window, lag);
      assert ClockWithin(arrivals, slack);
    }
  }

  /** With readings in order, a message that arrived at `first` can be accepted again later exactly when
      it was accepted no later than the very second it was signed in. */
  lemma ReplayableIffNotLaterThanSigned<Sig>(seen: map<Sig, int>, signature: Sig, ts: int, first: int, window: int)
    requires InWindow(first, ts, window) && Unseen(seen, signature, first)
    ensures (exists again :: again >= first && InWindow(again, ts, window)
                             && Unseen(Record(seen, signature, first, window), signature, again))
       <==> first <= ts
  {
    var cache := Record(seen, signature, first, window);
    assert cache[signature] == first + window;
    if first <= ts {
      assert Unseen(cache, signature, first + window);
    }
  }

  /** Right after a check every entry expires later than the time it read, and by the end of the next
      window plus the slack, over every run. */
  lemma {:induction false} EntriesExpireWithinAWindow<Sig>(arrivals: seq<Arrival<Sig>>, window: int, slack: nat)
    requires ClockWithin(arrivals, slack) && arrivals != []
    ensures var last := arrivals[|arrivals| - 1]; var seen := After(arrivals, window);
      && (forall s | s in seen :: seen[s] <= last.now + slack + window)
      && (Checked(last, window) && 0 < window ==> forall s | s in seen :: last.now < seen[s])
  {
    var last := arrivals[|arrivals| - 1];
    forall s | s in After(arrivals, window) ensures After(arrivals, window)[s] <= last.now + slack + window {
      var k := EntryWasAccepted(arrivals, s, window);
    }
    assert After(arrivals, window) == Step(After(arrivals[..|arrivals| - 1], window), last, window);
  }

  /** In every run, right after a check every entry expires within the next window. */
  ghost predicate ExpireWithinAWindow(window: nat, slack: nat) {
    forall arrivals: seq<Arrival<nat>>, s | arrivals != [] && ClockWithin(arrivals, slack) ::
      ExpiresInTime(arrivals, s, window)
  }

  ghost predicate ExpiresInTime(arrivals: seq<Arrival<nat>>, s: nat, window: nat)
    requires arrivals != []
  {
    var last := arrivals[|arrivals| - 1];
    Checked(last, window) && s in After(arrivals, window) ==> last.now < After(arrivals, window)[s] <= last.now + window
  }

  /** They do exactly when no check uses a late reading and the window is not empty. */
  lemma ExpireWithinAWindowIff(window: nat, slack: nat)
    ensures ExpireWithinAWindow(window, slack) <==> slack == 0 && 0 < window
  {
    if slack == 0 && 0 < window {
      forall arrivals: seq<Arrival<nat>>, s | arrivals != [] && ClockWithin(arrivals, slack)
        ensures ExpiresInTime(arrivals, s, window)
      {
        EntriesExpireWithinAWindow(arrivals, window, slack);
      }
    } else {
      var arrivals := if slack == 0 then [Other(1, 1)] else [Other(1, 1), Arrival(0, 0, true, 0)];
      FirstPrefixes(arrivals, window);
      assert arrivals[..|arrivals|] == arrivals;
      assert ClockWithin(arrivals, slack) && !ExpiresInTime(arrivals, 1, window);
    }
  }

  lemma {:induction false} EntryWasAccepted<Sig>(arrivals: seq<Arrival<Sig>>, s: Sig, window: int) returns (k: nat)
    requires s in After(arrivals, window)
    ensures k < |arrivals| && After(arrivals, window)[s] == arrivals[k].now + window
  {
    var n := |arrivals| - 1;
    var before := After(arrivals[..n], window);
    if s in before && before[s] == After(arrivals, window)[s] {
      k := EntryWasAccepted(arrivals[..n], s, window);
    } else {
      k := n;
    }
  }
}
