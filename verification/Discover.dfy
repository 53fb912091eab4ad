/** internal/config/discover.go: site, tenant and region from the search lines of a
    resolv.conf file. */
module Discover {
  import opened Text

  const TENANT_SUFFIX := ".tenant.local"
  const COMPUTE_SUFFIX := ".compute.internal"
  const SEARCH := "search"

  // ---- labels ----------------------------------------------------------------------------------

  predicate HasSuffix(s: string, suffix: string) {
    |suffix| <= |s| && s[|s| - |suffix|..] == suffix
  }

  predicate HasPrefix(s: string, prefix: string) {
    prefix <= s
  }

  /** strings.Split at dots: one part more than there are dots. */
  function Split(s: string): (parts: seq<string>)
    ensures |parts| >= 1
  {
    if s == "" then [""]
    else
      var rest := Split(s[1..]);
      if s[0] == '.' then [""] + rest else [[s[0]] + rest[0]] + rest[1..]
  }

  function Join(parts: seq<string>): string {
    if parts == [] then ""
    else if |parts| == 1 then parts[0]
    else parts[0] + "." + Join(parts[1..])
  }

  lemma {:induction false} JoinInvertsSplit(s: string)
    ensures Join(Split(s)) == s
    ensures forall i :: 0 <= i < |Split(s)| ==> '.' !in Split(s)[i]
  {
    if s != "" {
      JoinInvertsSplit(s[1..]);
      assert s == [s[0]] + s[1..];
    }
  }

  lemma {:induction false} SplitDotFree(s: string)
    requires '.' !in s
    ensures Split(s) == [s]
  {
    if s != "" {
      SplitDotFree(s[1..]);
      assert s == [s[0]] + s[1..];
    }
  }

  /** A dot splits a name into the parts before it and the parts after it. */
  lemma {:induction false} SplitAtDot(a: string, b: string)
    ensures Split(a + "." + b) == Split(a) + Split(b)
  {
    var s := a + "." + b;
    if a == "" {
      assert s[1..] == b;
    } else {
      assert s[1..] == a[1..] + "." + b;
      SplitAtDot(a[1..], b);
    }
  }

  // ---- the two token parsers ---------------------------------------------------------------------

  function ParseTenantLocal(tok: string): Option<(string, string)> {
    if !HasSuffix(tok, TENANT_SUFFIX) then None
    else
      var parts := Split(tok);
      if |parts| != 4 then None
      else if parts[0] == "" || parts[1] == "" then None
      else Some((parts[0], parts[1]))
  }

  function ParseComputeInternal(tok: string): Option<string> {
    if !HasSuffix(tok, COMPUTE_SUFFIX) then None
    else
      var parts := Split(tok);
      if |parts| != 3 then None
      else if parts[0] == "" then None
      else Some(parts[0])
  }

  predicate Label(s: string) {
    s != "" && '.' !in s
  }

  lemma SplitSuffix(front: string, a: string, b: string)
    requires '.' !in a && '.' !in b
    ensures Split(front + ("." + a + "." + b)) == Split(front) + [a, b]
  {
    SplitDotFree(a);
    SplitDotFree(b);
    SplitAtDot(a, b);
    SplitAtDot(front, a + "." + b);
    assert front + "." + (a + "." + b) == front + ("." + a + "." + b);
  }

  lemma Suffixes()
    ensures TENANT_SUFFIX == "." + "tenant" + "." + "local" && '.' !in "tenant" && '.' !in "local"
    ensures COMPUTE_SUFFIX == "." + "compute" + "." + "internal" && '.' !in "compute" && '.' !in "internal"
  {
  }

  lemma SplitTenantSuffix(front: string)
    ensures Split(front + TENANT_SUFFIX) == Split(front) + ["tenant", "local"]
  {
    Suffixes();
    SplitSuffix(front, "tenant", "local");
  }

  lemma SplitComputeSuffix(front: string)
    ensures Split(front + COMPUTE_SUFFIX) == Split(front) + ["compute", "internal"]
  {
    Suffixes();
    SplitSuffix(front, "compute", "internal");
  }

  /** parseTenantLocalToken inverts the printing of <site>.<tenant>.tenant.local, and parses
      nothing else. */
  lemma TenantLocalIff(tok: string, site: string, tenant: string)
    ensures ParseTenantLocal(tok) == Some((site, tenant))
            <==> Label(site) && Label(tenant) && tok == site + "." + tenant + TENANT_SUFFIX
  {
    if HasSuffix(tok, TENANT_SUFFIX) {
      var front := tok[..|tok| - |TENANT_SUFFIX|];
      assert tok == front + TENANT_SUFFIX;
      SplitTenantSuffix(front);
      JoinInvertsSplit(front);
    }
    if Label(site) && Label(tenant) && tok == site + "." + tenant + TENANT_SUFFIX {
      SplitDotFree(site);
      SplitDotFree(tenant);
      SplitAtDot(site, tenant);
      SplitTenantSuffix(site + "." + tenant);
      assert tok[|tok| - |TENANT_SUFFIX|..] == TENANT_SUFFIX;
    }
  }

  lemma ComputeInternalIff(tok: string, region: string)
    ensures ParseComputeInternal(tok) == Some(region) <==> Label(region) && tok == region + COMPUTE_SUFFIX
  {
    if HasSuffix(tok, COMPUTE_SUFFIX) {
      var front := tok[..|tok| - |COMPUTE_SUFFIX|];
      assert tok == front + COMPUTE_SUFFIX;
      SplitComputeSuffix(front);
      JoinInvertsSplit(front);
    }
    if Label(region) && tok == region + COMPUTE_SUFFIX {
      SplitDotFree(region);
      assert tok[|tok| - |COMPUTE_SUFFIX|..] == COMPUTE_SUFFIX;
    }
  }

  /** No token is both, so the order in which the code tries them does not matter. */
  lemma NeverBoth(tok: string)
    ensures ParseTenantLocal(tok).None? || ParseComputeInternal(tok).None?
  {
    if HasSuffix(tok, TENANT_SUFFIX) && HasSuffix(tok, COMPUTE_SUFFIX) {
      SuffixAt(tok, TENANT_SUFFIX, 3);
      SuffixAt(tok, COMPUTE_SUFFIX, 3);
    }
  }

  lemma SuffixAt(s: string, suffix: string, k: nat)
    requires HasSuffix(s, suffix) && 0 < k <= |suffix|
    ensures s[|s| - k] == suffix[|suffix| - k]
  {
    assert s[|s| - |suffix|..][|suffix| - k] == s[|s| - k];
  }

  // ---- lines ---------------------------------------------------------------------------------------

  /** unicode.IsSpace */
  predicate IsSpace(ch: char) {
    || '\t' <= ch <= '\r' || ch == ' ' || ch == '\U{85}' || ch == '\U{A0}' || ch == '\U{1680}'
    || '\U{2000}' <= ch <= '\U{200a}' || ch == '\U{2028}' || ch == '\U{2029}' || ch == '\U{202f}'
    || ch == '\U{205f}' || ch == '\U{3000}'
  }

  function TrimLeft(s: string): (t: string)
    ensures t != "" ==> !IsSpace(t[0])
    ensures |t| <= |s|
  {
    if s == "" || !IsSpace(s[0]) then s else TrimLeft(s[1..])
  }

  function TrimRight(s: string): string {
    if s == "" || !IsSpace(s[|s| - 1]) then s else TrimRight(s[..|s| - 1])
  }

  function TrimSpace(s: string): string {
    TrimRight(TrimLeft(s))
  }

  function WordLength(s: string): (n: nat)
    ensures n <= |s| && (s != "" && !IsSpace(s[0]) ==> n > 0)
  {
    if s == "" || IsSpace(s[0]) then 0 else 1 + WordLength(s[1..])
  }

  /** strings.Fields: the maximal runs of characters that are not white space. */
  function Fields(s: string): seq<string>
    decreases |s|
  {
    var t := TrimLeft(s);
    if t == "" then [] else [t[..WordLength(t)]] + Fields(t[WordLength(t)..])
  }

  predicate Word(s: string) {
    s != "" && forall i :: 0 <= i < |s| ==> !IsSpace(s[i])
  }

  predicate Gap(s: string) {
    s != "" && forall i :: 0 <= i < |s| ==> IsSpace(s[i])
  }

  predicate Words(words: seq<string>) {
    forall i :: 0 <= i < |words| ==> Word(words[i])
  }

  predicate Gaps(gaps: seq<string>) {
    forall i :: 0 <= i < |gaps| ==> Gap(gaps[i])
  }

  /** The words, each after its gap. */
  function Spaced(gaps: seq<string>, words: seq<string>): string
    requires |gaps| == |words|
  {
    if words == [] then "" else gaps[0] + words[0] + Spaced(gaps[1..], words[1..])
  }

  lemma {:induction false} WordEnds(w: string, rest: string)
    requires forall i :: 0 <= i < |w| ==> !IsSpace(w[i])
    requires rest == "" || IsSpace(rest[0])
    ensures WordLength(w + rest) == |w|
  {
    if w != "" {
      assert (w + rest)[1..] == w[1..] + rest;
      WordEnds(w[1..], rest);
    } else {
      assert w + rest == rest;
    }
  }

  lemma {:induction false} TrimGap(gap: string, rest: string)
    requires forall i :: 0 <= i < |gap| ==> IsSpace(gap[i])
    ensures TrimLeft(gap + rest) == TrimLeft(rest)
  {
    if gap != "" {
      assert (gap + rest)[1..] == gap[1..] + rest;
      TrimGap(gap[1..], rest);
    } else {
      assert gap + rest == rest;
    }
  }

  lemma SpacedStarts(gaps: seq<string>, words: seq<string>)
    requires |gaps| == |words| && Gaps(gaps)
    ensures Spaced(gaps, words) == "" || IsSpace(Spaced(gaps, words)[0])
  {
  }

  /** Fields inverts the writing of words with any white space before each. */
  lemma {:induction false} FieldsInvertsSpaced(gaps: seq<string>, words: seq<string>)
    requires |gaps| == |words| && Gaps(gaps) && Words(words)
    ensures Fields(Spaced(gaps, words)) == words
    decreases |words|
  {
    if words != [] {
      var w, rest := words[0], Spaced(gaps[1..], words[1..]);
      assert Spaced(gaps, words) == gaps[0] + (w + rest);
      TrimGap(gaps[0], w + rest);
      SpacedStarts(gaps[1..], words[1..]);
      WordEnds(w, rest);
      FieldsInvertsSpaced(gaps[1..], words[1..]);
      assert (w + rest)[..|w|] == w && (w + rest)[|w|..] == rest;
    }
  }

  // Trimming a line changes none of its words.

  lemma {:induction false} TrimLeftAppend(s: string, ch: char)
    requires IsSpace(ch)
    ensures TrimLeft(s + [ch]) == if TrimLeft(s) == "" then "" else TrimLeft(s) + [ch]
  {
    if s != "" && IsSpace(s[0]) {
      assert (s + [ch])[1..] == s[1..] + [ch];
      TrimLeftAppend(s[1..], ch);
    } else if s == "" {
      assert (s + [ch])[1..] == "";
    }
  }

  lemma {:induction false} WordLengthAppend(s: string, ch: char)
    requires IsSpace(ch)
    ensures WordLength(s + [ch]) == WordLength(s)
  {
    if s != "" && !IsSpace(s[0]) {
      assert (s + [ch])[1..] == s[1..] + [ch];
      WordLengthAppend(s[1..], ch);
    }
  }

  lemma {:induction false} FieldsAppend(s: string, ch: char)
    requires IsSpace(ch)
    ensures Fields(s + [ch]) == Fields(s)
    decreases |s|
  {
    TrimLeftAppend(s, ch);
    var t := TrimLeft(s);
    if t != "" {
      var n := WordLength(t);
      WordLengthAppend(t, ch);
      assert (t + [ch])[..n] == t[..n] && (t + [ch])[n..] == t[n..] + [ch];
      FieldsAppend(t[n..], ch);
    }
  }

  lemma {:induction false} FieldsOfTrimRight(s: string)
    ensures Fields(TrimRight(s)) == Fields(s) && TrimRight(s) <= s
  {
    if s != "" && IsSpace(s[|s| - 1]) {
      FieldsOfTrimRight(s[..|s| - 1]);
      FieldsAppend(s[..|s| - 1], s[|s| - 1]);
      assert s == s[..|s| - 1] + [s[|s| - 1]];
    }
  }

  lemma {:induction false} TrimLeftTwice(s: string)
    ensures TrimLeft(TrimLeft(s)) == TrimLeft(s)
  {
    if s != "" && IsSpace(s[0]) {
      TrimLeftTwice(s[1..]);
    }
  }

  lemma FieldsOfTrimSpace(s: string)
    ensures Fields(TrimSpace(s)) == Fields(s) && TrimLeft(TrimSpace(s)) == TrimSpace(s)
  {
    TrimLeftTwice(s);
    FieldsOfTrimRight(TrimLeft(s));
  }

  /** A word is a prefix of a text exactly when it is one of the text's first word. */
  lemma {:induction false} PrefixOfFirstWord(w: string, s: string)
    requires forall i :: 0 <= i < |w| ==> !IsSpace(w[i])
    ensures w <= s <==> w <= s[..WordLength(s)]
  {
    if w != "" && s != "" && w[0] == s[0] {
      PrefixOfFirstWord(w[1..], s[1..]);
      assert w <= s <==> w[1..] <= s[1..];
      assert s[..WordLength(s)] == [s[0]] + s[1..][..WordLength(s[1..])];
      assert w == [w[0]] + w[1..];
    }
  }

  /** The tokens of a line: those after the first word of a line that starts with "search". */
  function LineTokens(line: string): seq<string> {
    var line' := TrimSpace(line);
    var fields := Fields(line');
    if !HasPrefix(line', SEARCH) || |fields| < 2 then [] else fields[1..]
  }

  function Tokens(lines: seq<string>): seq<string> {
    if lines == [] then [] else Tokens(lines[..|lines| - 1]) + LineTokens(lines[|lines| - 1])
  }

  lemma SearchIsAWord()
    ensures forall i :: 0 <= i < |SEARCH| ==> !IsSpace(SEARCH[i])
  {
  }

  /** Every line, however it is spaced: if its first word starts with "search", even if that is
      not all of it, its tokens are the other words; otherwise it has none. */
  lemma TokensOfAnyLine(line: string)
    ensures var fields := Fields(line);
            LineTokens(line) == if fields != [] && HasPrefix(fields[0], SEARCH) then fields[1..] else []
  {
    var line' := TrimSpace(line);
    FieldsOfTrimSpace(line);
    SearchIsAWord();
    PrefixOfFirstWord(SEARCH, line');
    if |Fields(line')| == 1 {
      assert Fields(line')[1..] == [];
    }
  }

  /** So a line written word by word is read back word by word, if and only if its first word
      starts with "search" or there is no other. */
  lemma SearchLineReadBack(first: string, gaps: seq<string>, words: seq<string>)
    requires Word(first) && |gaps| == |words| && Gaps(gaps) && Words(words)
    ensures LineTokens(first + Spaced(gaps, words)) == if HasPrefix(first, SEARCH) then words else []
    ensures LineTokens(first + Spaced(gaps, words)) == words <==> HasPrefix(first, SEARCH) || words == []
  {
    FieldsOfLine(first, gaps, words);
    TokensOfAnyLine(first + Spaced(gaps, words));
    assert ([first] + words)[1..] == words;
  }

  /** In particular any words of visible characters, with blanks and tabs between them. */
  lemma BlanksAndTabsSeparate(first: string, gaps: seq<string>, words: seq<string>)
    requires first != "" && forall ch :: ch in first ==> '!' <= ch <= '~'
    requires forall w :: w in words ==> w != "" && forall ch :: ch in w ==> '!' <= ch <= '~'
    requires |gaps| == |words|
    requires forall g :: g in gaps ==> g != "" && forall ch :: ch in g ==> ch == ' ' || ch == '\t'
    ensures LineTokens(first + Spaced(gaps, words)) == if "search" <= first then words else []
  {
    assert forall ch :: '!' <= ch <= '~' ==> !IsSpace(ch);
    forall i | 0 <= i < |words| ensures Word(words[i]) {
      assert words[i] in words;
      assert forall k :: 0 <= k < |words[i]| ==> words[i][k] in words[i];
    }
    forall i | 0 <= i < |gaps| ensures Gap(gaps[i]) {
      assert gaps[i] in gaps;
      assert forall k :: 0 <= k < |gaps[i]| ==> gaps[i][k] in gaps[i];
    }
    assert forall k :: 0 <= k < |first| ==> first[k] in first;
    SearchLineReadBack(first, gaps, words);
  }

  lemma FieldsOfLine(first: string, gaps: seq<string>, words: seq<string>)
    requires Word(first) && |gaps| == |words| && Gaps(gaps) && Words(words)
    ensures Fields(first + Spaced(gaps, words)) == [first] + words
  {
    var rest := Spaced(gaps, words);
    var line := first + rest;
    SpacedStarts(gaps, words);
    WordEnds(first, rest);
    FieldsInvertsSpaced(gaps, words);
    assert TrimLeft(line) == line;
    assert line[..|first|] == first && line[|first|..] == rest;
  }

  // ---- the scan ------------------------------------------------------------------------------------

  /** What the first token that parses yields. */
  function FirstParsed<T>(toks: seq<string>, parse: string -> Option<T>): Option<T> {
    if toks == [] then None
    else if parse(toks[0]).Some? then parse(toks[0])
    else FirstParsed(toks[1..], parse)
  }

  lemma {:induction false} FirstParsedConcat<T>(a: seq<string>, b: seq<string>, parse: string -> Option<T>)
    ensures FirstParsed(a + b, parse)
            == if FirstParsed(a, parse).Some? then FirstParsed(a, parse) else FirstParsed(b, parse)
  {
    if a == [] {
      assert a + b == b;
    } else {
      assert (a + b)[1..] == a[1..] + b;
      FirstParsedConcat(a[1..], b, parse);
    }
  }

  lemma FirstParsedOne<T>(toks: seq<string>, tok: string, parse: string -> Option<T>)
    ensures FirstParsed(toks + [tok], parse)
            == if FirstParsed(toks, parse).Some? then FirstParsed(toks, parse) else parse(tok)
  {
    FirstParsedConcat(toks, [tok], parse);
  }

  /** The position of that token: before it nothing parses. */
  lemma {:induction false} FirstParsedIsFirst<T>(toks: seq<string>, parse: string -> Option<T>) returns (k: nat)
    ensures k <= |toks| && (forall i :: 0 <= i < k ==> parse(toks[i]).None?)
    ensures FirstParsed(toks, parse) == if k < |toks| then parse(toks[k]) else None
    ensures FirstParsed(toks, parse).Some? <==> k < |toks|
  {
    if toks == [] || parse(toks[0]).Some? {
      k := 0;
    } else {
      var k' := FirstParsedIsFirst(toks[1..], parse);
      k := k' + 1;
      assert forall i :: 1 <= i < |toks| ==> toks[i] == toks[1..][i - 1];
    }
  }

  function GetOr<T>(o: Option<T>, default_: T): T {
    if o.Some? then o.value else default_
  }

  /** What the three results should be for these tokens. */
  ghost predicate Found(toks: seq<string>, site: string, tenant: string, region: string) {
    && (site, tenant) == GetOr(FirstParsed(toks, ParseTenantLocal), ("", ""))
    && region == GetOr(FirstParsed(toks, ParseComputeInternal), "")
  }

  lemma ParsedNonEmpty(toks: seq<string>)
    ensures FirstParsed(toks, ParseTenantLocal).Some? ==>
              FirstParsed(toks, ParseTenantLocal).value.0 != "" && FirstParsed(toks, ParseTenantLocal).value.1 != ""
    ensures FirstParsed(toks, ParseComputeInternal).Some? ==> FirstParsed(toks, ParseComputeInternal).value != ""
  {
    var k := FirstParsedIsFirst(toks, ParseTenantLocal);
    var n := FirstParsedIsFirst(toks, ParseComputeInternal);
  }

  /** In terms of the file's text: either no token prints as some site and tenant and both are
      empty, or the first that does prints as this site and this tenant. Likewise the region. */
  lemma WhatIsFound(toks: seq<string>, site: string, tenant: string, region: string) returns (k: nat, n: nat)
    requires Found(toks, site, tenant, region)
    ensures k <= |toks| && n <= |toks|
    ensures if k < |toks| then Label(site) && Label(tenant) && toks[k] == site + "." + tenant + TENANT_SUFFIX
            else site == "" && tenant == ""
    ensures forall i, a, b :: 0 <= i < k && Label(a) && Label(b) ==> toks[i] != a + "." + b + TENANT_SUFFIX
    ensures if n < |toks| then Label(region) && toks[n] == region + COMPUTE_SUFFIX else region == ""
    ensures forall i, r :: 0 <= i < n && Label(r) ==> toks[i] != r + COMPUTE_SUFFIX
  {
    k := FirstParsedIsFirst(toks, ParseTenantLocal);
    n := FirstParsedIsFirst(toks, ParseComputeInternal);
    if k < |toks| {
      TenantLocalIff(toks[k], site, tenant);
    }
    if n < |toks| {
      ComputeInternalIff(toks[n], region);
    }
    forall i, a, b | 0 <= i < k && Label(a) && Label(b) ensures toks[i] != a + "." + b + TENANT_SUFFIX {
      TenantLocalIff(toks[i], a, b);
    }
    forall i, r | 0 <= i < n && Label(r) ensures toks[i] != r + COMPUTE_SUFFIX {
      ComputeInternalIff(toks[i], r);
    }
  }

  /** The effect of one more token. */
  lemma OneMore(seen: seq<string>, tok: string, site: string, tenant: string, region: string)
    requires Found(seen, site, tenant, region)
    ensures site == "" <==> tenant == ""
    ensures ParseTenantLocal(tok).Some? ==>
              Found(seen + [tok], if site == "" then ParseTenantLocal(tok).value.0 else site,
                    if tenant == "" then ParseTenantLocal(tok).value.1 else tenant, region)
    ensures ParseTenantLocal(tok).None? && ParseComputeInternal(tok).Some? ==>
              Found(seen + [tok], site, tenant, if region == "" then ParseComputeInternal(tok).value else region)
    ensures ParseTenantLocal(tok).None? && ParseComputeInternal(tok).None? ==> Found(seen + [tok], site, tenant, region)
  {
    FirstParsedOne(seen, tok, ParseTenantLocal);
    FirstParsedOne(seen, tok, ParseComputeInternal);
    ParsedNonEmpty(seen);
    NeverBoth(tok);
  }

  /** The inner loop: first match per field wins. */
  method ScanTokens(toks: seq<string>, ghost before: seq<string>, site0: string, tenant0: string, region0: string)
    returns (site: string, tenant: string, region: string)
    requires Found(before, site0, tenant0, region0)
    ensures Found(before + toks, site, tenant, region)
  {
    site, tenant, region := site0, tenant0, region0;
    assert before + toks[..0] == before;
    for i := 0 to |toks|
      invariant Found(before + toks[..i], site, tenant, region)
    {
      var tok := toks[i];
      assert before + toks[..i + 1] == before + toks[..i] + [tok];
      OneMore(before + toks[..i], tok, site, tenant, region);
      var t := ParseTenantLocal(tok);
      if t.Some? {
        if site == "" {
          site := t.value.0;
        }
        if tenant == "" {
          tenant := t.value.1;
        }
      } else {
        var r := ParseComputeInternal(tok);
        if r.Some? && region == "" {
          region := r.value;
        }
      }
    }
    assert toks[..|toks|] == toks;
  }

  /** discoverFromResolvConf: site and tenant are those of one and the same token, the first
      of the file's search lines that parses as such, and region is that of the first compute
      token; empty strings when there is none, or no file. */
  method FromResolvConf(file: Option<seq<string>>) returns (site: string, tenant: string, region: string)
    ensures file.None? ==> site == tenant == region == ""
    ensures file.Some? ==> Found(Tokens(file.value), site, tenant, region)
  {
    site, tenant, region := "", "", "";
    if file.None? {
      return;
    }
    var lines := file.value;
    for n := 0 to |lines|
      invariant Found(Tokens(lines[..n]), site, tenant, region)
    {
      assert lines[..n + 1][..n] == lines[..n];
      ghost var before := Tokens(lines[..n]);
      assert Tokens(lines[..n + 1]) == before + LineTokens(lines[n]);
      assert before + [] == before;
      var line := TrimSpace(lines[n]);
      if !HasPrefix(line, SEARCH) {
        continue;
      }
      var fields := Fields(line);
      if |fields| < 2 {
        continue;
      }
      site, tenant, region := ScanTokens(fields[1..], before, site, tenant, region);
    }
    assert lines[..|lines|] == lines;
  }
}
