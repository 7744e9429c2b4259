/** The semantic deduplication key of an alert, and what the intake perceives in a payload.
    SHA-256 is taken to be collision free, so the key is the joined string itself. */
module DedupKey {
  import opened Types

  predicate BarFree(s: string) { forall i | 0 <= i < |s| :: s[i] != '|' }

  function Join(tenant: string, ip: string, mac: string, severity: string, bucket: string): string {
    tenant + "|" + ip + "|" + mac + "|" + severity + "|" + bucket
  }

  /** Two strings that agree up to their first bar agree on both sides of it. */
  lemma FirstBarSplits(a: string, x: string, b: string, y: string)
    requires BarFree(a) && BarFree(b)
    requires a + "|" + x == b + "|" + y
    ensures a == b && x == y
  {
    var s, t := a + "|" + x, b + "|" + y;
    assert s[|a|] == '|' && t[|b|] == '|';
    assert |a| == |b|;
    assert a == s[..|a|] && b == t[..|b|];
    assert x == s[|a| + 1..] && y == t[|b| + 1..];
  }

  /** The same at the last bar. */
  lemma LastBarSplits(a: string, x: string, b: string, y: string)
    requires BarFree(x) && BarFree(y)
    requires a + "|" + x == b + "|" + y
    ensures a == b && x == y
  {
    var s, t := a + "|" + x, b + "|" + y;
    assert s[|a|] == '|' && t[|b|] == '|';
    assert |a| == |b|;
    assert a == s[..|a|] && b == t[..|b|];
    assert x == s[|a| + 1..] && y == t[|b| + 1..];
  }

  /** The key determines all five parts when the three fields before the severity hold no bar.
      The severity may be any text: it is whatever lies between the third bar and the last one. */
  lemma JoinIsInjective(t: string, i: string, m: string, s: string, b: string,
                        t': string, i': string, m': string, s': string, b': string)
    requires BarFree(t) && BarFree(i) && BarFree(m) && BarFree(b)
    requires BarFree(t') && BarFree(i') && BarFree(m') && BarFree(b')
    ensures Join(t, i, m, s, b) == Join(t', i', m', s', b')
       <==> (t == t' && i == i' && m == m' && s == s' && b == b')
  {
    if Join(t, i, m, s, b) == Join(t', i', m', s', b') {
      var r3, r3' := s + "|" + b, s' + "|" + b';
      var r2, r2' := m + "|" + r3, m' + "|" + r3';
      var r1, r1' := i + "|" + r2, i' + "|" + r2';
      assert t + "|" + r1 == Join(t, i, m, s, b);
      assert t' + "|" + r1' == Join(t', i', m', s', b');
      FirstBarSplits(t, r1, t', r1');
      FirstBarSplits(i, r2, i', r2');
      FirstBarSplits(m, r3, m', r3');
      LastBarSplits(s, b, s', b');
    }
  }

  /** What the key says about the target: everything between the tenant and the severity. */
  function TargetPart(ip: string, mac: string): string { ip + "|" + mac + "|" }

  /** One is a prefix of the other. */
  predicate Comparable(x: string, y: string) { x <= y || y <= x }

  /** Two targets of one tenant share a key, for some severities, exactly when the target part of one
      is a prefix of the other's. */
  lemma TargetsShareAKeyIff(t: string, i: string, m: string, i': string, m': string, b: string)
    ensures (exists s, s' :: Join(t, i, m, s, b) == Join(t, i', m', s', b))
       <==> Comparable(TargetPart(i, m), TargetPart(i', m'))
  {
    var x, y := TargetPart(i, m), TargetPart(i', m');
    if s, s' :| Join(t, i, m, s, b) == Join(t, i', m', s', b) {
      JoinIsAround(t, i, m, s, b);
      JoinIsAround(t, i', m', s', b);
      SameMiddle(t + "|", x + s, y + s', "|" + b);
      PrefixesOfOne(x, s, y, s');
    }
    if x <= y {
      JoinIsAround(t, i, m, y[|x|..], b);
      JoinIsAround(t, i', m', "", b);
      assert x + y[|x|..] == y + "";
      assert Join(t, i, m, y[|x|..], b) == Join(t, i', m', "", b);
    }
    if y <= x {
      JoinIsAround(t, i, m, "", b);
      JoinIsAround(t, i', m', x[|y|..], b);
      assert y + x[|y|..] == x + "";
      assert Join(t, i, m, "", b) == Join(t, i', m', x[|y|..], b);
    }
  }

  lemma JoinIsAround(t: string, i: string, m: string, s: string, b: string)
    ensures Join(t, i, m, s, b) == (t + "|") + (TargetPart(i, m) + s) + ("|" + b)
  {
    assert t + "|" + i + "|" + m + "|" + s + "|" + b == (t + "|") + (i + "|" + m + "|" + s) + ("|" + b);
  }

  lemma SameMiddle(head: string, x: string, y: string, tail: string)
    requires head + x + tail == head + y + tail
    ensures x == y
  {
    assert |x| == |y|;
    assert x == (head + x + tail)[|head|..|head| + |x|] && y == (head + y + tail)[|head|..|head| + |y|];
  }

  lemma PrefixesOfOne(x: string, s: string, y: string, s': string)
    requires x + s == y + s'
    ensures Comparable(x, y)
  {
    assert x == (x + s)[..|x|] && y == (y + s')[..|y|];
  }

  /** Bar-free targets are comparable only when they are the same. */
  lemma BarFreeTargetsDiffer(i: string, m: string, i': string, m': string)
    requires BarFree(i) && BarFree(m) && BarFree(i') && BarFree(m')
    ensures Comparable(TargetPart(i, m), TargetPart(i', m')) <==> i == i' && m == m'
  {
    if TargetPart(i, m) <= TargetPart(i', m') {
      BarFreePrefix(i, m, i', m');
    } else if TargetPart(i', m') <= TargetPart(i, m) {
      BarFreePrefix(i', m', i, m);
    }
  }

  lemma BarFreePrefix(i: string, m: string, i': string, m': string)
    requires BarFree(i) && BarFree(m) && BarFree(i') && BarFree(m') && TargetPart(i, m) <= TargetPart(i', m')
    ensures i == i' && m == m'
  {
    var rest := TargetPart(i', m')[|TargetPart(i, m)|..];
    assert TargetPart(i, m) + rest == TargetPart(i', m');
    assert i + "|" + (m + "|" + rest) == TargetPart(i, m) + rest;
    assert i' + "|" + (m' + "|" + "") == TargetPart(i', m');
    FirstBarSplits(i, m + "|" + rest, i', m' + "|" + "");
    FirstBarSplits(m, rest, m', "");
  }

  /** A scoped IPv6 address may hold a bar, and then two different addresses of one tenant can share
      a key. */
  lemma BarInAddressCollides(t: string, s: string, b: string)
    ensures Join(t, "fe80::1%x|", "", s, b) == Join(t, "fe80::1%x", "", "|" + s, b)
  {
    var head := t + "|" + "fe80::1%x";
    assert Join(t, "fe80::1%x|", "", s, b) == head + "|||" + s + "|" + b;
    assert Join(t, "fe80::1%x", "", "|" + s, b) == head + "|||" + s + "|" + b;
  }

  // ---- perceive() ----

  predicate IsSlugChar(c: char) { 'a' <= c <= 'z' || '0' <= c <= '9' || c == '-' }

  predicate IsTenantSlug(s: string) {
    2 <= |s| <= 39 && s[0] != '-' && forall i | 0 <= i < |s| :: IsSlugChar(s[i])
  }

  predicate IsHex(c: char) { '0' <= c <= '9' || 'a' <= c <= 'f' || 'A' <= c <= 'F' }

  predicate IsMac(s: string) {
    |s| == 17 && forall i | 0 <= i < 17 :: if i % 3 == 2 then s[i] == ':' || s[i] == '-' else IsHex(s[i])
  }

  /** A webhook payload, stripped and lower-cased as the intake does; `ipParses` is what the
      address parser said about `ip`. */
  datatype Payload = Payload(tenant: string, ip: string, ipParses: bool, mac: string, severity: string)

  function SafeTenant(p: Payload): string { if IsTenantSlug(p.tenant) then p.tenant else "unassigned" }
  function TargetIp(p: Payload): string { if p.ipParses then p.ip else "unknown" }
  function TargetMac(p: Payload): string { if IsMac(p.mac) then p.mac else "" }

  /** The id an alert gets in the five-minute `bucket` it arrives in. */
  function KeyOf(p: Payload, bucket: string): Key {
    Key(SafeTenant(p), Join(SafeTenant(p), TargetIp(p), TargetMac(p), p.severity, bucket))
  }

  /** A tenant slug by its grammar: a letter or digit, then 1 to 38 letters, digits or hyphens. */
  ghost predicate SlugOf(s: string, head: char, rest: string) {
    && s == [head] + rest && ('a' <= head <= 'z' || '0' <= head <= '9') && 1 <= |rest| <= 38
    && forall c | c in rest :: 'a' <= c <= 'z' || '0' <= c <= '9' || c == '-'
  }

  /** A MAC by its grammar: six pairs of hexadecimal digits, with a colon or a hyphen between any two. */
  predicate PairAt(s: string, k: nat) {
    && 3 * k + 1 < |s| && IsHex(s[3 * k]) && IsHex(s[3 * k + 1])
    && (k < 5 ==> 3 * k + 2 < |s| && (s[3 * k + 2] == ':' || s[3 * k + 2] == '-'))
  }

  /** Exactly the well-formed tenant, MAC and address are kept; anything else is replaced. */
  lemma WellFormedFieldsAreKept(p: Payload)
    ensures if exists head, rest :: SlugOf(p.tenant, head, rest) then SafeTenant(p) == p.tenant
            else SafeTenant(p) == "unassigned"
    ensures TargetIp(p) == if p.ipParses then p.ip else "unknown"
    ensures TargetMac(p) == if |p.mac| == 17 && forall k: nat | k < 6 :: PairAt(p.mac, k) then p.mac else ""
  {
    SlugIff(p.tenant);
    MacIff(p.mac);
  }

  lemma SlugIff(s: string)
    ensures IsTenantSlug(s) <==> exists head, rest :: SlugOf(s, head, rest)
  {
    if IsTenantSlug(s) {
      assert s == [s[0]] + s[1..] && IsSlugChar(s[0]);
      forall c | c in s[1..] ensures IsSlugChar(c) {
        var i :| 0 < i < |s| && s[i] == c;
        assert IsSlugChar(s[i]);
      }
      assert SlugOf(s, s[0], s[1..]);
    }
    if head, rest :| SlugOf(s, head, rest) {
      forall i | 0 <= i < |s| ensures IsSlugChar(s[i]) {
        assert i > 0 ==> s[i] in rest;
      }
    }
  }

  lemma MacIff(s: string)
    ensures IsMac(s) <==> |s| == 17 && forall k: nat | k < 6 :: PairAt(s, k)
  {
    if |s| == 17 && forall k: nat | k < 6 :: PairAt(s, k) {
      forall i | 0 <= i < 17 ensures if i % 3 == 2 then s[i] == ':' || s[i] == '-' else IsHex(s[i]) {
        assert PairAt(s, i / 3);
      }
    }
    if IsMac(s) {
      forall k: nat | k < 6 ensures PairAt(s, k) { MacPair(s, k); }
    }
  }

  lemma MacPair(s: string, k: nat)
    requires IsMac(s) && k < 6
    ensures PairAt(s, k)
  {
    assert (3 * k) % 3 == 0 && (3 * k + 1) % 3 == 1 && (3 * k + 2) % 3 == 2;
    assert IsHex(s[3 * k]) && IsHex(s[3 * k + 1]);
  }

  predicate SameTarget(p: Payload, q: Payload) {
    SafeTenant(p) == SafeTenant(q) && TargetIp(p) == TargetIp(q) && TargetMac(p) == TargetMac(q)
  }

  /** Their ids can coincide. */
  predicate MayShareAnId(p: Payload, q: Payload) {
    && SafeTenant(p) == SafeTenant(q)
    && Comparable(TargetPart(TargetIp(p), TargetMac(p)), TargetPart(TargetIp(q), TargetMac(q)))
  }

  /** What the intake perceives holds no bar, except in an address that has one itself. */
  lemma PerceivedFieldsAreBarFree(p: Payload)
    ensures BarFree(SafeTenant(p)) && BarFree(TargetMac(p))
    ensures BarFree(TargetIp(p)) <==> !p.ipParses || BarFree(p.ip)
  {
    assert BarFree("unassigned") && BarFree("unknown");
    if IsMac(p.mac) {
      forall i | 0 <= i < 17 ensures p.mac[i] != '|' {
        assert if i % 3 == 2 then p.mac[i] == ':' || p.mac[i] == '-' else IsHex(p.mac[i]);
      }
    }
  }

  /** Some severities and buckets give both payloads one id. */
  ghost predicate IdsCanCoincide(p: Payload, q: Payload) {
    exists s, s', b :: BarFree(b) && SameIdWith(p, s, q, s', b)
  }

  predicate SameIdWith(p: Payload, s: string, q: Payload, s': string, b: string) {
    KeyOf(p.(severity := s), b).alertId == KeyOf(q.(severity := s'), b).alertId
  }

  /** Two payloads can get one id exactly when they agree on the tenant and the target part of one is
      a prefix of the other's. */
  lemma IdsCoincideIff(p: Payload, q: Payload)
    ensures IdsCanCoincide(p, q) <==> MayShareAnId(p, q)
  {
    if IdsCanCoincide(p, q) {
      var s, s', b :| BarFree(b) && SameIdWith(p, s, q, s', b);
      SameIdMayShare(p.(severity := s), b, q.(severity := s'), b);
    }
    if MayShareAnId(p, q) {
      var t, b := SafeTenant(p), "5";
      TargetsShareAKeyIff(t, TargetIp(p), TargetMac(p), TargetIp(q), TargetMac(q), b);
      var s, s' :| Join(t, TargetIp(p), TargetMac(p), s, b) == Join(t, TargetIp(q), TargetMac(q), s', b);
      assert BarFree(b) && SameIdWith(p, s, q, s', b);
    }
  }

  lemma SameIdMayShare(p: Payload, b: string, q: Payload, c: string)
    requires BarFree(b) && BarFree(c) && KeyOf(p, b).alertId == KeyOf(q, c).alertId
    ensures MayShareAnId(p, q) && b == c
  {
    PerceivedFieldsAreBarFree(p);
    PerceivedFieldsAreBarFree(q);
    SameJoinMayShare(SafeTenant(p), TargetIp(p), TargetMac(p), p.severity, b,
                     SafeTenant(q), TargetIp(q), TargetMac(q), q.severity, c);
  }

  lemma SameJoinMayShare(t: string, i: string, m: string, s: string, b: string,
                         t': string, i': string, m': string, s': string, b': string)
    requires BarFree(t) && BarFree(t') && BarFree(b) && BarFree(b')
    requires Join(t, i, m, s, b) == Join(t', i', m', s', b')
    ensures t == t' && b == b' && Comparable(TargetPart(i, m), TargetPart(i', m'))
  {
    var x, y := TargetPart(i, m) + s, TargetPart(i', m') + s';
    assert t + "|" + (x + "|" + b) == Join(t, i, m, s, b);
    assert t' + "|" + (y + "|" + b') == Join(t', i', m', s', b');
    FirstBarSplits(t, x + "|" + b, t', y + "|" + b');
    LastBarSplits(x, b, y, b');
    PrefixesOfOne(TargetPart(i, m), s, TargetPart(i', m'), s');
  }

  /** In particular, payloads whose addresses hold no bar share an id only if they share the target. */
  lemma SameIdSameTarget(p: Payload, b: string, q: Payload, c: string)
    requires BarFree(TargetIp(p)) && BarFree(TargetIp(q)) && BarFree(b) && BarFree(c)
    requires KeyOf(p, b).alertId == KeyOf(q, c).alertId
    ensures SameTarget(p, q)
  {
    SameIdMayShare(p, b, q, c);
    PerceivedFieldsAreBarFree(p);
    PerceivedFieldsAreBarFree(q);
    BarFreeTargetsDiffer(TargetIp(p), TargetMac(p), TargetIp(q), TargetMac(q));
  }
}
