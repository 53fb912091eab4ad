/** String building as Go's fmt and strings packages do it, and when it can be undone.

    Every composite key of the program ("%s:%d", "%s|%s|%s|%d", "%d.%d.%d.%d") is a
    concatenation around a separator, so every claim about such a key comes down to two
    facts: a decimal contains no separator and determines its number, and a separator
    that occurs nowhere else in the last (or the first) part splits a string uniquely. */
module Text {

  datatype Option<+T> = None | Some(value: T)

  // ---- decimals: the verb %d ------------------------------------------------

  const DIGITS: string := "0123456789"

  function NatText(n: nat): (s: string)
    ensures |s| > 0
    ensures forall c :: c in s ==> c in DIGITS
  {
    if n < 10 then [DIGITS[n]] else NatText(n / 10) + [DIGITS[n % 10]]
  }

  /** A signed integer in base ten, as %d prints it. */
  function Decimal(n: int): (s: string)
    ensures |s| > 0
    ensures forall c :: c in s ==> c == '-' || c in DIGITS
  {
    if n < 0 then "-" + NatText(-n) else NatText(n)
  }

  function DigitValue(c: char): nat {
    if '0' <= c <= '9' then (c - '0') as nat else 0
  }

  /** The value a digit string denotes, most significant digit first. */
  function NatValue(s: string): nat {
    if s == "" then 0 else 10 * NatValue(s[..|s| - 1]) + DigitValue(s[|s| - 1])
  }

  function DecimalValue(s: string): int {
    if s != "" && s[0] == '-' then -(NatValue(s[1..]) as int) else NatValue(s)
  }

  lemma {:induction false} NatTextRoundTrip(n: nat)
    ensures NatValue(NatText(n)) == n
  {
    var s := NatText(n);
    if n < 10 {
      assert s[..|s| - 1] == "";
    } else {
      NatTextRoundTrip(n / 10);
      assert s[..|s| - 1] == NatText(n / 10);
    }
  }

  /** Reading back what %d printed gives the number, negative numbers included. */
  lemma DecimalRoundTrip(n: int)
    ensures DecimalValue(Decimal(n)) == n
  {
    var m: nat := if n < 0 then -n else n;
    NatTextRoundTrip(m);
    var t := NatText(m);
    if n < 0 {
      assert Decimal(n)[1..] == t;
    } else {
      assert t[0] in DIGITS && '-' !in DIGITS;
    }
  }

  lemma DecimalInjective(m: int, n: int)
    requires Decimal(m) == Decimal(n)
    ensures m == n
  {
    DecimalRoundTrip(m);
    DecimalRoundTrip(n);
  }

  // ---- separators -------------------------------------------------------------

  /** strings.LastIndex for a one-character pattern: -1 when the character is absent. */
  function LastIndex(s: string, c: char): (i: int)
    ensures -1 <= i < |s|
    ensures i >= 0 ==> s[i] == c
    ensures forall k :: i < k < |s| ==> s[k] != c
  {
    if s == "" then -1
    else if s[|s| - 1] == c then |s| - 1
    else LastIndex(s[..|s| - 1], c)
  }

  /** A separator absent from what follows it is the last one. */
  lemma {:induction false} LastIndexOfSeparator(a: string, b: string, sep: char)
    requires sep !in b
    ensures LastIndex(a + [sep] + b, sep) == |a|
  {
    var s := a + [sep] + b;
    TheLastIndex(s, sep, |a|);
  }

  lemma {:induction false} TheLastIndex(s: string, sep: char, i: nat)
    requires i < |s| && s[i] == sep
    requires forall k :: i < k < |s| ==> s[k] != sep
    ensures LastIndex(s, sep) == i
  {
    if i < |s| - 1 {
      TheLastIndex(s[..|s| - 1], sep, i);
    }
  }

  /** Two strings cut at a separator that does not occur to its right agree part by part. */
  lemma LastSeparatorSplits(a: string, b: string, a': string, b': string, sep: char)
    requires a + [sep] + b == a' + [sep] + b'
    requires sep !in b && sep !in b'
    ensures a == a' && b == b'
  {
    LastIndexOfSeparator(a, b, sep);
    LastIndexOfSeparator(a', b', sep);
    EqualCuts(a, b, a', b', sep);
  }

  lemma EqualCuts(a: string, b: string, a': string, b': string, sep: char)
    requires a + [sep] + b == a' + [sep] + b' && |a| == |a'|
    ensures a == a' && b == b'
  {
    var s, s' := a + [sep] + b, a' + [sep] + b';
    assert a == s[..|a|] && a' == s'[..|a|];
    assert b == s[|a| + 1..] && b' == s'[|a| + 1..];
  }

  /** Two strings cut at a separator that does not occur to its left agree part by part. */
  lemma FirstSeparatorSplits(a: string, b: string, a': string, b': string, sep: char)
    requires a + [sep] + b == a' + [sep] + b'
    requires sep !in a && sep !in a'
    ensures a == a' && b == b'
  {
    var s, s' := a + [sep] + b, a' + [sep] + b';
    assert s[|a|] == sep && s'[|a'|] == sep;
    assert forall k :: 0 <= k < |a| ==> s[k] == a[k];
    assert forall k :: 0 <= k < |a'| ==> s'[k] == a'[k];
    assert |a| == |a'|;
    EqualCuts(a, b, a', b', sep);
  }

  // ---- the host part of an address ----------------------------------------------

  /** hostOf: the address without its port, cut at the last colon. */
  function HostOf(addr: string): string {
    var i := LastIndex(addr, ':');
    if i >= 0 then addr[..i] else addr
  }

  /** fmt.Sprintf("%s:%d", host, port). */
  function HostPort(host: string, port: int): string {
    host + ":" + Decimal(port)
  }

  /** An address prints and parses back to its host, colons in the host included
      (so an IPv6 prober keeps one identity whatever port it probes from). */
  lemma HostOfInvertsHostPort(host: string, port: int)
    ensures HostOf(HostPort(host, port)) == host
  {
    LastIndexOfSeparator(host, Decimal(port), ':');
    assert HostPort(host, port)[..|host|] == host;
  }

  /** "%s:%d" is injective on all strings and all signed ports. */
  lemma HostPortInjective(host: string, port: int, host': string, port': int)
    requires HostPort(host, port) == HostPort(host', port')
    ensures host == host' && port == port'
  {
    LastSeparatorSplits(host, Decimal(port), host', Decimal(port'), ':');
    DecimalInjective(port, port');
  }
}
