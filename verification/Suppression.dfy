/** The bounded host+technique suppression window. Times are whole clock ticks. */
module Suppression {
  import opened Types
  import DocumentStore

  /** The suppression document of one host and technique. */
  datatype Doc = Doc(lastSeen: int, firstSeen: int, suppressedCount: nat, maxSeverity: string)

  datatype Firing = Firing(now: int, severity: string)

  function Suppresses(d: Option<Doc>, f: Firing, window: int, maxDuration: int): bool {
    d.Some?
    && f.now - d.value.lastSeen < window
    && f.now - d.value.firstSeen < maxDuration
    && !(f.severity == "critical" && d.value.maxSeverity != "critical")
  }

  function Fire(d: Option<Doc>, f: Firing, window: int, maxDuration: int): Doc {
    if Suppresses(d, f, window, maxDuration)
    then Doc(f.now, d.value.firstSeen, d.value.suppressedCount + 1, d.value.maxSeverity)
    else Doc(f.now, f.now, 0, f.severity)
  }

  /** One call for a host and technique: the firing, and how its read and its write fared. */
  datatype Call = Call(firing: Firing, read: DocumentStore.Fault, write: DocumentStore.Fault)

  predicate Answered(c: Call) { c.read == DocumentStore.NoFault && c.write == DocumentStore.NoFault }

  predicate Written(c: Call) { c.read == DocumentStore.NoFault && c.write != DocumentStore.Lost }

  /** A call that raises counts as "not suppressed" for its caller: only this one is silent. */
  predicate Silent(d: Option<Doc>, c: Call, window: int, maxDuration: int) {
    Answered(c) && Suppresses(d, c.firing, window, maxDuration)
  }

  class SuppressionStore {
    var docs: map<(string, string), Doc>

    constructor ()
      ensures docs == map[]
    {
      docs := map[];
    }

    /** should_suppress_technique: read, decide, write back; None when a store error escapes. */
    method ShouldSuppress(host: string, technique: string, c: Call, window: int, maxDuration: int)
        returns (suppress: Option<bool>)
      modifies this
      ensures host == "" || technique == "" ==> suppress == Some(false) && docs == old(docs)
      ensures host != "" && technique != "" ==>
        var before := if (host, technique) in old(docs) then Some(old(docs)[(host, technique)]) else None;
        && suppress == (if Answered(c) then Some(Suppresses(before, c.firing, window, maxDuration)) else None)
        && docs == if Written(c) then old(docs)[(host, technique) := Fire(before, c.firing, window, maxDuration)]
                   else old(docs)
    {
      if host == "" || technique == "" {
        return Some(false);
      }
      var f := c.firing;
      if c.read != DocumentStore.NoFault {
        return None;
      }
      var silent := false;
      var firstSeen, count: nat, maxSeverity := f.now, 0, f.severity;
      if (host, technique) in docs {
        var src := docs[(host, technique)];
        firstSeen := src.firstSeen;
        var escalated := f.severity == "critical" && src.maxSeverity != "critical";
        silent := f.now - src.lastSeen < window && f.now - firstSeen < maxDuration && !escalated;
        if silent {
          count := src.suppressedCount + 1;
          maxSeverity := src.maxSeverity;
        } else {
          firstSeen := f.now;
        }
      }
      if c.write != DocumentStore.Lost {
        docs := docs[(host, technique) := Doc(f.now, firstSeen, count, maxSeverity)];
      }
      suppress := if c.write == DocumentStore.NoFault then Some(silent) else None;
    }
  }

  // ---- runs of one key, store errors included ----

  function AfterCalls(cs: seq<Call>, window: int, maxDuration: int): Option<Doc> {
    if cs == [] then None
    else
      var d, c := AfterCalls(cs[..|cs| - 1], window, maxDuration), cs[|cs| - 1];
      if Written(c) then Some(Fire(d, c.firing, window, maxDuration)) else d
  }

  predicate SilentAt(cs: seq<Call>, i: nat, window: int, maxDuration: int)
    requires i < |cs|
  {
    Silent(AfterCalls(cs[..i], window, maxDuration), cs[i], window, maxDuration)
  }

  /** Call i writes a fresh window: it was not to be suppressed. */
  predicate Opens(cs: seq<Call>, i: nat, window: int, maxDuration: int)
    requires i < |cs|
  {
    Written(cs[i]) && !Suppresses(AfterCalls(cs[..i], window, maxDuration), cs[i].firing, window, maxDuration)
  }

  ghost predicate Monotone(cs: seq<Call>) { forall i, j | 0 <= i <= j < |cs| :: cs[i].firing.now <= cs[j].firing.now }

  predicate AnyWritten(cs: seq<Call>) { exists i | 0 <= i < |cs| :: Written(cs[i]) }

  /** The last call whose write took effect. */
  function LastWritten(cs: seq<Call>): (k: nat)
    requires AnyWritten(cs)
    ensures k < |cs| && Written(cs[k]) && forall j | k < j < |cs| :: !Written(cs[j])
  {
    var n := |cs| - 1;
    if Written(cs[n]) then n
    else
      assert forall i | 0 <= i < n :: cs[..n][i] == cs[i];
      LastWritten(cs[..n])
  }

  function WrittenFrom(cs: seq<Call>, k: nat): nat
    requires k <= |cs|
    decreases |cs|
  {
    if k == |cs| then 0
    else WrittenFrom(cs[..|cs| - 1], k) + if Written(cs[|cs| - 1]) then 1 else 0
  }

  function WrittenAt(cs: seq<Call>, k: nat): set<nat> { set j: nat | k <= j < |cs| && Written(cs[j]) }

  /** It is the number of calls from k on whose write took effect. */
  lemma {:induction false} WrittenFromIsTheNumber(cs: seq<Call>, k: nat)
    requires k <= |cs|
    ensures WrittenFrom(cs, k) == |WrittenAt(cs, k)|
    decreases |cs|
  {
    if k == |cs| {
      assert WrittenAt(cs, k) == {};
    } else {
      var n := |cs| - 1;
      WrittenFromIsTheNumber(cs[..n], k);
      assert WrittenAt(cs, k) == if Written(cs[n]) then WrittenAt(cs[..n], k) + {n} else WrittenAt(cs[..n], k);
    }
  }

  lemma PrefixOpens(cs: seq<Call>, n: nat, window: int, maxDuration: int)
    requires n <= |cs|
    ensures forall j | 0 <= j < n :: Opens(cs[..n], j, window, maxDuration) == Opens(cs, j, window, maxDuration)
  {
    forall j | 0 <= j < n ensures Opens(cs[..n], j, window, maxDuration) == Opens(cs, j, window, maxDuration) {
      assert cs[..n][..j] == cs[..j];
    }
  }

  /** There is a document exactly when some write took effect. */
  lemma {:induction false} DocumentIffWritten(cs: seq<Call>, window: int, maxDuration: int)
    ensures AfterCalls(cs, window, maxDuration).Some? <==> AnyWritten(cs)
  {
    if cs != [] {
      var n := |cs| - 1;
      DocumentIffWritten(cs[..n], window, maxDuration);
      assert forall i | 0 <= i < n :: cs[..n][i] == cs[i];
      if AnyWritten(cs[..n]) {
        var i :| 0 <= i < n && Written(cs[..n][i]);
        assert Written(cs[i]);
      }
    }
  }

  /** The last call that opened a window. */
  function LastOpening(cs: seq<Call>, window: int, maxDuration: int): (k: nat)
    requires AnyWritten(cs)
    ensures k < |cs| && Opens(cs, k, window, maxDuration)
    ensures forall j | k < j < |cs| :: !Opens(cs, j, window, maxDuration)
    decreases |cs|
  {
    var n := |cs| - 1;
    if Opens(cs, n, window, maxDuration) then n
    else
      DocumentIffWritten(cs, window, maxDuration);
      DocumentIffWritten(cs[..n], window, maxDuration);
      PrefixOpens(cs, n, window, maxDuration);
      LastOpening(cs[..n], window, maxDuration)
  }

  /** In every run, store errors included, the document is exactly the story since the last opening: it
      opened then, at that severity, was last written by the last call whose write took effect, and
      counts the writes that took effect since. */
  lemma {:induction false} DocumentTellsTheStory(cs: seq<Call>, window: int, maxDuration: int)
    ensures AfterCalls(cs, window, maxDuration) ==
      if !AnyWritten(cs) then None
      else
        var j, k := LastWritten(cs), LastOpening(cs, window, maxDuration);
        Some(Doc(cs[j].firing.now, cs[k].firing.now, WrittenFrom(cs, k + 1), cs[k].firing.severity))
    decreases |cs|
  {
    DocumentIffWritten(cs, window, maxDuration);
    if AnyWritten(cs) {
      var n := |cs| - 1;
      if !Opens(cs, n, window, maxDuration) {
        DocumentIffWritten(cs[..n], window, maxDuration);
        DocumentTellsTheStory(cs[..n], window, maxDuration);
        PrefixOpens(cs, n, window, maxDuration);
      }
    }
  }

  /** In every run a call is suppressed exactly when its own store calls succeed, the last write is less
      than a window old, the last opening less than the maximum duration, and a critical call has a
      critical opening before it. */
  lemma SuppressionIsBounded(cs: seq<Call>, i: nat, window: int, maxDuration: int)
    requires i < |cs|
    ensures SilentAt(cs, i, window, maxDuration) <==>
      && Answered(cs[i]) && AnyWritten(cs[..i])
      && var j, k := LastWritten(cs[..i]), LastOpening(cs[..i], window, maxDuration);
         && cs[i].firing.now - cs[j].firing.now < window
         && cs[i].firing.now - cs[k].firing.now < maxDuration
         && (cs[i].firing.severity == "critical" ==> cs[k].firing.severity == "critical")
  {
    DocumentTellsTheStory(cs[..i], window, maxDuration);
  }

  /** So a silent call has an earlier alert less than the maximum duration before it, a critical one if it
      is critical itself, and an earlier call less than a window before it. */
  lemma SilenceHasAnAlert(cs: seq<Call>, i: nat, window: int, maxDuration: int) returns (k: nat, j: nat)
    requires i < |cs| && SilentAt(cs, i, window, maxDuration)
    ensures k <= j < i && !SilentAt(cs, k, window, maxDuration)
    ensures cs[i].firing.now - cs[k].firing.now < maxDuration && cs[i].firing.now - cs[j].firing.now < window
    ensures cs[i].firing.severity == "critical" ==> cs[k].firing.severity == "critical"
  {
    SuppressionIsBounded(cs, i, window, maxDuration);
    j, k := LastWritten(cs[..i]), LastOpening(cs[..i], window, maxDuration);
    assert cs[..i][..k] == cs[..k];
  }

  // ---- how many alerts fit in a span ----

  function Min(a: int, b: int): int { if a < b then a else b }

  /** What opens a window later than another one: silence, age, or an escalation. */
  lemma OpeningNeedsAReason(cs: seq<Call>, i: nat, k: nat, window: int, maxDuration: int) returns (j: nat)
    requires i < k < |cs| && Monotone(cs) && Opens(cs, i, window, maxDuration) && Opens(cs, k, window, maxDuration)
    ensures i <= j < k && Opens(cs, j, window, maxDuration)
    ensures forall n | j < n < k :: !Opens(cs, n, window, maxDuration)
    ensures
      || cs[k].firing.now - cs[j].firing.now >= Min(window, maxDuration)
      || (cs[k].firing.severity == "critical" && cs[j].firing.severity != "critical")
  {
    var before := cs[..k];
    assert before[i] == cs[i];
    j := LastOpening(before, window, maxDuration);
    PrefixOpens(cs, k, window, maxDuration);
    DocumentTellsTheStory(before, window, maxDuration);
    var last := LastWritten(before);
    assert before[j] == cs[j] && before[last] == cs[last];
  }

  /** Two openings further apart than neighbours are a full window apart: an escalation cannot follow an
      escalation. */
  lemma SecondNextOpeningIsFar(cs: seq<Call>, i: nat, j: nat, k: nat, window: int, maxDuration: int)
    requires i < j < k < |cs| && Monotone(cs) && Opens(cs, i, window, maxDuration)
    requires Opens(cs, j, window, maxDuration) && Opens(cs, k, window, maxDuration)
    ensures cs[k].firing.now - cs[i].firing.now >= Min(window, maxDuration)
  {
    var last := OpeningNeedsAReason(cs, j, k, window, maxDuration);
    if cs[k].firing.now - cs[last].firing.now < Min(window, maxDuration) {
      var _ := OpeningNeedsAReason(cs, i, last, window, maxDuration);
    }
  }

  /** Strictly increasing positions within a span of the given length. */
  ghost predicate Within(cs: seq<Call>, at: seq<nat>, span: int) {
    && (forall x, y | 0 <= x < y < |at| :: at[x] < at[y])
    && (forall x | 0 <= x < |at| :: at[x] < |cs|)
    && (forall x, y | 0 <= x <= y < |at| :: cs[at[y]].firing.now - cs[at[x]].firing.now <= span)
  }

  ghost predicate AllOpen(cs: seq<Call>, at: seq<nat>, window: int, maxDuration: int) {
    forall x | 0 <= x < |at| :: at[x] < |cs| && Opens(cs, at[x], window, maxDuration)
  }

  lemma {:induction false} EveryOtherOpeningIsFar(cs: seq<Call>, at: seq<nat>, span: int, window: int, maxDuration: int,
                                                  n: nat)
    requires Monotone(cs) && Within(cs, at, span) && AllOpen(cs, at, window, maxDuration) && 2 * n < |at|
    ensures cs[at[2 * n]].firing.now - cs[at[0]].firing.now >= n * Min(window, maxDuration)
  {
    if n > 0 {
      EveryOtherOpeningIsFar(cs, at, span, window, maxDuration, n - 1);
      SecondNextOpeningIsFar(cs, at[2 * n - 2], at[2 * n - 1], at[2 * n], window, maxDuration);
      assert n * Min(window, maxDuration) == (n - 1) * Min(window, maxDuration) + Min(window, maxDuration);
    }
  }

  /** In every run, any span L holds at most 2 * (L / min(window, maxDuration) + 1) openings. */
  lemma OpeningsPerSpan(cs: seq<Call>, at: seq<nat>, span: nat, window: int, maxDuration: int)
    requires 0 < window && 0 < maxDuration && Monotone(cs) && Within(cs, at, span)
    requires AllOpen(cs, at, window, maxDuration)
    ensures |at| <= 2 * (span / Min(window, maxDuration) + 1)
  {
    if |at| > 0 {
      var m, n := Min(window, maxDuration), (|at| - 1) / 2;
      EveryOtherOpeningIsFar(cs, at, span, window, maxDuration, n);
      assert n * m <= span;
      assert n <= span / m by { QuotientBound(n, m, span); }
    }
  }

  /** How many of these calls had a store call fail. */
  function Failures(cs: seq<Call>, at: seq<nat>): nat
    requires forall x | 0 <= x < |at| :: at[x] < |cs|
  {
    if at == [] then 0
    else Failures(cs, at[..|at| - 1]) + if Answered(cs[at[|at| - 1]]) then 0 else 1
  }

  lemma WithinOneMore(cs: seq<Call>, at: seq<nat>, n: nat, span: int)
    requires Within(cs, at, span) && n < |cs| && 0 <= span
    requires forall x | 0 <= x < |at| :: at[x] < n && cs[n].firing.now - cs[at[x]].firing.now <= span
    ensures Within(cs, at + [n], span)
  {}

  /** The calls among these that had their store calls succeed. */
  lemma {:induction false} AnsweredAmong(cs: seq<Call>, at: seq<nat>, span: int) returns (answered: seq<nat>)
    requires Within(cs, at, span)
    ensures Within(cs, answered, span) && |answered| + Failures(cs, at) == |at|
    ensures forall x | x in answered :: x in at && Answered(cs[x])
  {
    if at == [] {
      answered := [];
    } else {
      var n := |at| - 1;
      answered := AnsweredAmong(cs, at[..n], span);
      if Answered(cs[at[n]]) {
        forall x | 0 <= x < |answered|
          ensures answered[x] < at[n] && cs[at[n]].firing.now - cs[answered[x]].firing.now <= span
        {
          assert answered[x] in answered && answered[x] in at[..n];
        }
        WithinOneMore(cs, answered, at[n], span);
        answered := answered + [at[n]];
      }
    }
  }

  /** In every run, store errors included: of the alerts in a span L, those whose store calls succeeded
      number at most 2 * (L / min(window, maxDuration) + 1); each failed call adds at most one. */
  lemma AlertsPerSpan(cs: seq<Call>, at: seq<nat>, span: nat, window: int, maxDuration: int)
    requires 0 < window && 0 < maxDuration && Monotone(cs) && Within(cs, at, span)
    requires forall x | 0 <= x < |at| :: !SilentAt(cs, at[x], window, maxDuration)
    ensures |at| - Failures(cs, at) <= 2 * (span / Min(window, maxDuration) + 1)
  {
    var answered := AnsweredAmong(cs, at, span);
    forall x | 0 <= x < |answered| ensures Opens(cs, answered[x], window, maxDuration) {
      assert answered[x] in answered;
      var y :| 0 <= y < |at| && at[y] == answered[x];
      assert !SilentAt(cs, at[y], window, maxDuration);
    }
    OpeningsPerSpan(cs, answered, span, window, maxDuration);
  }

  lemma QuotientBound(n: nat, m: nat, span: nat)
    requires m > 0 && n * m <= span
    ensures n <= span / m
  {
    if n > span / m {
      Monotonic(span / m + 1, n, m);
    }
  }

  lemma Monotonic(a: nat, b: nat, m: nat)
    requires a <= b
    ensures a * m <= b * m
  {}
}
