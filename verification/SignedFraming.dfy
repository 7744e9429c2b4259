/** The exact bytes both services sign: <domain> + '<timestamp>.' + body. */
module SignedFraming {
  const RESPONSE_DOMAIN: string := "broker-response:"

  function SignedPayload(domain: string, timestamp: string, body: string): string {
    domain + timestamp + "." + body
  }

  // ---- the timestamps int() accepts ----

  /** The characters int() reads as decimal digits and strips as blanks: the ASCII ones and whatever
      others the runtime's character tables add. */
  datatype Alphabet = Alphabet(digits: set<char>, blanks: set<char>) {
    predicate IsDigit(c: char) { c in digits }
    predicate IsBlank(c: char) { c in blanks }

    /** What every such table has: the ASCII digits and blanks are in, a full stop and letters are
        neither digits nor blanks. */
    ghost predicate Valid() {
      && (forall c | '0' <= c <= '9' :: c in digits)
      && (forall c | c in " \t\n\r" :: c in blanks)
      && (forall c | c == '.' || 'a' <= c <= 'z' || 'A' <= c <= 'Z' :: c !in digits && c !in blanks)
    }
  }

  /** Digits, with single underscores between them. */
  predicate IsDigits(al: Alphabet, s: string)
    decreases |s|
  {
    |s| > 0 && al.IsDigit(s[0])
    && (|s| == 1 || IsDigits(al, s[1..]) || (|s| > 2 && s[1] == '_' && IsDigits(al, s[2..])))
  }

  function TrimLeft(al: Alphabet, s: string): string
    decreases |s|
  {
    if s != "" && al.IsBlank(s[0]) then TrimLeft(al, s[1..]) else s
  }

  function TrimRight(al: Alphabet, s: string): string
    decreases |s|
  {
    if s != "" && al.IsBlank(s[|s| - 1]) then TrimRight(al, s[..|s| - 1]) else s
  }

  /** int(s) succeeds: surrounding blanks, one optional sign, digits. */
  predicate ParsesAsInt(al: Alphabet, s: string) {
    var t := TrimRight(al, TrimLeft(al, s));
    IsDigits(al, t) || (|t| > 0 && (t[0] == '+' || t[0] == '-') && IsDigits(al, t[1..]))
  }

  predicate IntChar(al: Alphabet, c: char) { al.IsDigit(c) || al.IsBlank(c) || c == '_' || c == '+' || c == '-' }

  ghost predicate OnlyIntChars(al: Alphabet, s: string) { forall i | 0 <= i < |s| :: IntChar(al, s[i]) }

  lemma {:induction false} DigitsAreIntChars(al: Alphabet, s: string)
    requires IsDigits(al, s)
    ensures OnlyIntChars(al, s)
    decreases |s|
  {
    if |s| > 1 {
      if IsDigits(al, s[1..]) {
        DigitsAreIntChars(al, s[1..]);
        assert s == [s[0]] + s[1..];
      } else {
        DigitsAreIntChars(al, s[2..]);
        assert s == [s[0], s[1]] + s[2..];
      }
    }
  }

  lemma {:induction false} UntrimLeft(al: Alphabet, s: string)
    requires OnlyIntChars(al, TrimLeft(al, s))
    ensures OnlyIntChars(al, s)
    decreases |s|
  {
    if s != "" && al.IsBlank(s[0]) {
      UntrimLeft(al, s[1..]);
      assert s == [s[0]] + s[1..];
    }
  }

  lemma {:induction false} UntrimRight(al: Alphabet, s: string)
    requires OnlyIntChars(al, TrimRight(al, s))
    ensures OnlyIntChars(al, s)
    decreases |s|
  {
    if s != "" && al.IsBlank(s[|s| - 1]) {
      UntrimRight(al, s[..|s| - 1]);
      assert s == s[..|s| - 1] + [s[|s| - 1]];
    }
  }

  /** A timestamp that parses holds nothing but digits, blanks, signs and underscores, so no full stop
      and no letter. */
  lemma ParsedTimestampChars(al: Alphabet, s: string)
    requires ParsesAsInt(al, s)
    ensures OnlyIntChars(al, s)
  {
    var t := TrimRight(al, TrimLeft(al, s));
    if IsDigits(al, t) {
      DigitsAreIntChars(al, t);
    } else {
      DigitsAreIntChars(al, t[1..]);
      assert t == [t[0]] + t[1..];
    }
    UntrimRight(al, TrimLeft(al, s));
    UntrimLeft(al, s);
  }

  // ---- unambiguity ----

  ghost predicate DotFree(s: string) { forall i | 0 <= i < |s| :: s[i] != '.' }

  lemma FirstDotSplits(a: string, x: string, b: string, y: string)
    requires DotFree(a) && DotFree(b) && a + "." + x == b + "." + y
    ensures a == b && x == y
  {
    var s, t := a + "." + x, b + "." + y;
    assert s[|a|] == '.' && t[|b|] == '.';
    assert |a| == |b|;
    assert a == s[..|a|] && b == t[..|b|];
    assert x == s[|a| + 1..] && y == t[|b| + 1..];
  }

  /** Among accepted timestamps, equal signed bytes are equal timestamps and equal bodies; the same
      in either direction. */
  lemma FramingIsUnambiguous(al: Alphabet, domain: string, t: string, body: string, t': string, body': string)
    requires al.Valid() && (domain == "" || domain == RESPONSE_DOMAIN)
    requires ParsesAsInt(al, t) && ParsesAsInt(al, t')
    ensures SignedPayload(domain, t, body) == SignedPayload(domain, t', body') <==> (t == t' && body == body')
  {
    if SignedPayload(domain, t, body) == SignedPayload(domain, t', body') {
      ParsedTimestampChars(al, t);
      ParsedTimestampChars(al, t');
      assert DotFree(domain + t) && DotFree(domain + t');
      FirstDotSplits(domain + t, body, domain + t', body');
      assert t == (domain + t)[|domain|..] && t' == (domain + t')[|domain|..];
    }
  }

  /** No request payload is a response payload: a reflected request never verifies. */
  lemma RequestIsNeverAResponse(al: Alphabet, t: string, body: string, t': string, body': string)
    requires al.Valid() && ParsesAsInt(al, t)
    ensures SignedPayload("", t, body) != SignedPayload(RESPONSE_DOMAIN, t', body')
  {
    ParsedTimestampChars(al, t);
    assert SignedPayload(RESPONSE_DOMAIN, t', body')[0] == 'b';
    var head := (t + "." + body)[0];
    assert head == if |t| == 0 then '.' else t[0];
    assert SignedPayload("", t, body)[0] == head;
  }

  lemma DottedNeverParses(al: Alphabet, s: string, i: nat)
    requires al.Valid() && i < |s| && s[i] == '.'
    ensures !ParsesAsInt(al, s)
  {
    if ParsesAsInt(al, s) { ParsedTimestampChars(al, s); }
  }

  /** Without the timestamp check the framing would be ambiguous. */
  lemma UnparsedTimestampIsAmbiguous(al: Alphabet)
    requires al.Valid()
    ensures SignedPayload("", "1.2", "x") == SignedPayload("", "1", "2.x") && !ParsesAsInt(al, "1.2")
  {
    assert "1.2" + "." + "x" == "1" + "." + "2.x";
    DottedNeverParses(al, "1.2", 1);
  }
}
