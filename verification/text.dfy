/**
 The string helpers of Go's standard library that the proxy uses.  A string is the sequence
 of its bytes, one char below 256 for each.
 */
module Text {
  import opened Common

  predicate Octets(s: string) {
    forall i :: 0 <= i < |s| ==> s[i] as int < 256
  }

  // ------------------------------------------------------------- white space

  predicate AsciiSpace(c: char) {
    c == ' ' || '\t' <= c <= '\r'
  }

  /** The UTF-8 encodings of the white space runes above ASCII. */
  predicate WideSpace(s: string) {
    || s == "\U{C2}\U{85}" || s == "\U{C2}\U{A0}" || s == "\U{E1}\U{9A}\U{80}"
    || (|s| == 3 && s[..2] == "\U{E2}\U{80}" && ('\U{80}' <= s[2] <= '\U{8A}' || s[2] in {'\U{A8}', '\U{A9}', '\U{AF}'}))
    || s == "\U{E2}\U{81}\U{9F}" || s == "\U{E3}\U{80}\U{80}"
  }

  function TrimLeft(s: string): string {
    if s != "" && AsciiSpace(s[0]) then TrimLeft(s[1..])
    else if |s| >= 2 && WideSpace(s[..2]) then TrimLeft(s[2..])
    else if |s| >= 3 && WideSpace(s[..3]) then TrimLeft(s[3..])
    else s
  }

  function TrimRight(s: string): string {
    if s != "" && AsciiSpace(s[|s| - 1]) then TrimRight(s[..|s| - 1])
    else if |s| >= 2 && WideSpace(s[|s| - 2..]) then TrimRight(s[..|s| - 2])
    else if |s| >= 3 && WideSpace(s[|s| - 3..]) then TrimRight(s[..|s| - 3])
    else s
  }

  function TrimSpace(s: string): string {
    TrimRight(TrimLeft(s))
  }

  predicate Blank(s: string) {
    TrimSpace(s) == ""
  }

  // ---------------------------------------------------------------- prefixes

  function TrimPrefix(s: string, p: string): string {
    if p <= s then s[|p|..] else s
  }

  lemma TrimPrefixUndoes(p: string, s: string)
    ensures TrimPrefix(p + s, p) == s
  {
  }

  // ----------------------------------------------------------- split and join

  lemma SliceOfTail(s: string, i: nat, n: nat)
    requires 0 < i && i + n <= |s|
    ensures s[1..][i - 1..i - 1 + n] == s[i..i + n]
  {
  }

  /** Where `sep` first occurs in `s`, or the length of `s`. */
  function Index(s: string, sep: string): (i: nat)
    requires sep != ""
    ensures i <= |s| && (i < |s| ==> i + |sep| <= |s| && s[i..i + |sep|] == sep)
  {
    if s == "" then 0
    else if sep <= s then 0
    else
      var i := Index(s[1..], sep) + 1;
      if i < |s| then SliceOfTail(s, i, |sep|); i else i
  }

  function Split(s: string, sep: string): (parts: seq<string>)
    requires sep != ""
    ensures parts != []
    decreases |s|
  {
    var i := Index(s, sep);
    if i == |s| then [s] else [s[..i]] + Split(s[i + |sep|..], sep)
  }

  /** At most `n` parts; the last one keeps the remaining separators. */
  function SplitN(s: string, sep: string, n: nat): (parts: seq<string>)
    requires sep != "" && n > 0
    ensures 0 < |parts| <= n
    decreases n
  {
    var i := Index(s, sep);
    if n == 1 || i == |s| then [s] else [s[..i]] + SplitN(s[i + |sep|..], sep, n - 1)
  }

  function Join(parts: seq<string>, sep: string): string {
    if parts == [] then ""
    else if |parts| == 1 then parts[0]
    else parts[0] + sep + Join(parts[1..], sep)
  }

  /** A separator none of whose later characters repeats its first one. */
  predicate Separator(sep: string) {
    sep != "" && sep[0] !in sep[1..]
  }

  lemma {:induction false} IndexOf(p: string, sep: string, rest: string)
    requires Separator(sep) && sep[0] !in p
    ensures Index(p + sep + rest, sep) == |p|
    decreases |p|
  {
    var s := p + sep + rest;
    if p == "" {
      assert sep <= s;
    } else {
      assert s[0] == p[0] && s[1..] == p[1..] + sep + rest;
      IndexOf(p[1..], sep, rest);
    }
  }

  lemma {:induction false} IndexNone(p: string, sep: string)
    requires sep != "" && sep[0] !in p
    ensures Index(p, sep) == |p|
    decreases |p|
  {
  }

  ghost predicate Clean(parts: seq<string>, sep: string) {
    Separator(sep) && forall p :: p in parts ==> sep[0] !in p
  }

  lemma SplitFirst(p: string, sep: string, rest: string)
    requires Separator(sep) && sep[0] !in p
    ensures Split(p + sep + rest, sep) == [p] + Split(rest, sep)
  {
    var s := p + sep + rest;
    IndexOf(p, sep, rest);
    assert s[..|p|] == p && s[|p| + |sep|..] == rest;
  }

  lemma SplitNFirst(p: string, sep: string, rest: string, n: nat)
    requires Separator(sep) && sep[0] !in p && n > 1
    ensures SplitN(p + sep + rest, sep, n) == [p] + SplitN(rest, sep, n - 1)
  {
    var s := p + sep + rest;
    IndexOf(p, sep, rest);
    assert s[..|p|] == p && s[|p| + |sep|..] == rest;
  }

  lemma JoinFirst(parts: seq<string>, sep: string)
    requires |parts| > 1
    ensures Join(parts, sep) == parts[0] + sep + Join(parts[1..], sep)
    ensures [parts[0]] + parts[1..] == parts
  {
  }

  /** Splitting undoes joining when no part holds the separator's first character. */
  lemma {:induction false} SplitUndoesJoin(parts: seq<string>, sep: string)
    requires parts != [] && Clean(parts, sep)
    ensures Split(Join(parts, sep), sep) == parts
    decreases |parts|
  {
    assert parts[0] in parts;
    if |parts| == 1 {
      IndexNone(parts[0], sep);
    } else {
      JoinFirst(parts, sep);
      SplitFirst(parts[0], sep, Join(parts[1..], sep));
      SplitUndoesJoin(parts[1..], sep);
    }
  }

  /** The same for a split bounded by the number of parts; the last part is not split. */
  lemma {:induction false} SplitNUndoesJoin(parts: seq<string>, sep: string)
    requires parts != [] && Clean(parts, sep)
    ensures SplitN(Join(parts, sep), sep, |parts|) == parts
    decreases |parts|
  {
    assert parts[0] in parts;
    if |parts| > 1 {
      JoinFirst(parts, sep);
      SplitNFirst(parts[0], sep, Join(parts[1..], sep), |parts|);
      SplitNUndoesJoin(parts[1..], sep);
    }
  }

  lemma Around(s: string, i: nat)
    requires i < |s|
    ensures s == s[..i] + [s[i]] + s[i + 1..]
  {
  }

  lemma IndexCuts(s: string, c: char)
    requires Index(s, [c]) < |s|
    ensures var i := Index(s, [c]); s == s[..i] + [c] + s[i + 1..]
  {
    var i := Index(s, [c]);
    assert s[i] == s[i..i + |[c]|][0];
    Around(s, i);
  }

  lemma SplitStep(s: string, c: char)
    ensures var i := Index(s, [c]);
      && c !in s[..i]
      && (i == |s| ==> c !in s && Split(s, [c]) == [s])
      && (i < |s| ==> s == s[..i] + [c] + s[i + 1..] && Split(s, [c]) == [s[..i]] + Split(s[i + 1..], [c]))
  {
    FirstIndex(s, c);
    if Index(s, [c]) == |s| {
      NotInIndex(s, c);
    } else {
      IndexCuts(s, c);
    }
  }

  lemma AroundSeparator(s: string, sep: string)
    requires sep != "" && Index(s, sep) < |s|
    ensures var i := Index(s, sep); s == s[..i] + sep + s[i + |sep|..]
  {
    var i := Index(s, sep);
    assert s == s[..i] + s[i..i + |sep|] + s[i + |sep|..];
  }

  /** Joining undoes splitting, always. */
  lemma {:induction false} JoinUndoesSplit(s: string, sep: string)
    requires sep != ""
    ensures Join(Split(s, sep), sep) == s
    decreases |s|
  {
    var i := Index(s, sep);
    if i < |s| {
      AroundSeparator(s, sep);
      JoinUndoesSplit(s[i + |sep|..], sep);
      JoinFirst(Split(s, sep), sep);
    }
  }

  /** And a bounded split. */
  lemma {:induction false} JoinUndoesSplitN(s: string, sep: string, n: nat)
    requires sep != "" && n > 0
    ensures Join(SplitN(s, sep, n), sep) == s
    decreases n
  {
    var i := Index(s, sep);
    if n > 1 && i < |s| {
      AroundSeparator(s, sep);
      JoinUndoesSplitN(s[i + |sep|..], sep, n - 1);
      JoinFirst(SplitN(s, sep, n), sep);
    }
  }

  lemma {:induction false} JoinChars(parts: seq<string>, sep: string, bad: char)
    requires bad !in sep && forall p :: p in parts ==> bad !in p
    ensures bad !in Join(parts, sep)
    decreases |parts|
  {
    if |parts| > 1 {
      assert parts[0] in parts;
      assert forall p :: p in parts[1..] ==> p in parts;
      JoinChars(parts[1..], sep, bad);
    } else if |parts| == 1 {
      assert parts[0] in parts;
    }
  }

  lemma {:induction false} JoinAppend(a: seq<string>, b: seq<string>, sep: string)
    requires a != [] && b != []
    ensures Join(a + b, sep) == Join(a, sep) + sep + Join(b, sep)
    decreases |a|
  {
    assert (a + b)[1..] == a[1..] + b;
    if |a| > 1 { JoinAppend(a[1..], b, sep); }
  }

  lemma Regrouped(a: string, c: char, b: string, d: string)
    ensures (a + [c] + b) + [c] + d == a + [c] + (b + [c] + d)
  {
  }

  lemma ConsAppend(x: string, a: seq<string>, b: seq<string>)
    ensures [x] + (a + b) == ([x] + a) + b
  {
  }

  lemma SplitAppendStep(first: string, c: char, rest: string, b: string)
    requires c !in first && Split(rest + [c] + b, [c]) == Split(rest, [c]) + Split(b, [c])
    ensures Split((first + [c] + rest) + [c] + b, [c]) == Split(first + [c] + rest, [c]) + Split(b, [c])
  {
    Regrouped(first, c, rest, b);
    SplitFirst(first, [c], rest + [c] + b);
    SplitFirst(first, [c], rest);
    ConsAppend(first, Split(rest, [c]), Split(b, [c]));
  }

  /** Splitting at one character distributes over a separator in the middle. */
  lemma {:induction false} SplitAppend(a: string, c: char, b: string)
    ensures Split(a + [c] + b, [c]) == Split(a, [c]) + Split(b, [c])
    decreases |a|
  {
    NotInIndex(a, c);
    if c !in a {
      SplitFirst(a, [c], b);
    } else {
      var i := Index(a, [c]);
      FirstIndex(a, c);
      IndexCuts(a, c);
      SplitAppend(a[i + 1..], c, b);
      SplitAppendStep(a[..i], c, a[i + 1..], b);
    }
  }

  /** No part of a split at one character holds that character. */
  lemma {:induction false} SplitParts(s: string, c: char)
    ensures forall p :: p in Split(s, [c]) ==> c !in p
    decreases |s|
  {
    var i := Index(s, [c]);
    SplitStep(s, c);
    if i < |s| { SplitParts(s[i + 1..], c); }
  }

  lemma {:induction false} NotInIndex(s: string, c: char)
    ensures Index(s, [c]) == |s| <==> c !in s
    decreases |s|
  {
    if s != "" && s[0] != c {
      NotInIndex(s[1..], c);
    } else if s != "" {
      assert [c] <= s;
    }
  }

  lemma {:induction false} FirstIndex(s: string, c: char)
    ensures c !in s[..Index(s, [c])]
    decreases |s|
  {
    if s != "" && !([c] <= s) {
      FirstIndex(s[1..], c);
      var i := Index(s[1..], [c]);
      assert s[0] != c;
      assert s[..i + 1] == [s[0]] + s[1..][..i];
    }
  }

  // ------------------------------------------------------------- letter case

  function LowerChar(c: char): char {
    if 'A' <= c <= 'Z' then c - 'A' + 'a' else c
  }

  function UpperChar(c: char): char {
    if 'a' <= c <= 'z' then c - 'a' + 'A' else c
  }

  function Lower(s: string): string {
    seq(|s|, i requires 0 <= i < |s| => LowerChar(s[i]))
  }

  // ------------------------------------------------------------------ integers

  predicate Numeral(s: string) {
    s != "" && forall i :: 0 <= i < |s| ==> '0' <= s[i] <= '9'
  }

  function Number(s: string): (n: int)
    requires Numeral(s)
    ensures n >= 0
  {
    var last := (s[|s| - 1] - '0') as int;
    if |s| == 1 then last else Number(s[..|s| - 1]) * 10 + last
  }

  /** strconv.Atoi: an optional sign and decimal digits, within 64 bits. */
  function Atoi(s: string): Option<int> {
    var digits := if s != "" && (s[0] == '-' || s[0] == '+') then s[1..] else s;
    if !Numeral(digits) then None
    else
      var n := if s[0] == '-' then -Number(digits) else Number(digits);
      if -0x8000_0000_0000_0000 <= n < 0x8000_0000_0000_0000 then Some(n) else None
  }

  // ---------------------------------------------------------- byte-wise order

  /** Go compares strings byte by byte. */
  predicate Less(a: string, b: string) {
    b != "" && (a == "" || a[0] < b[0] || (a[0] == b[0] && Less(a[1..], b[1..])))
  }

  predicate AtMost(a: string, b: string) {
    a == b || Less(a, b)
  }

  lemma {:induction false} LessTrichotomy(a: string, b: string)
    ensures Less(a, b) || a == b || Less(b, a)
    ensures !(Less(a, b) && Less(b, a)) && !Less(a, a)
    decreases |a|
  {
    if a != "" && b != "" {
      LessTrichotomy(a[1..], b[1..]);
      assert a == [a[0]] + a[1..] && b == [b[0]] + b[1..];
    }
    if a != "" { LessTrichotomy(a[1..], a[1..]); }
  }

  lemma {:induction false} LessTransitive(a: string, b: string, c: string)
    requires Less(a, b) && Less(b, c)
    ensures Less(a, c)
    decreases |a|
  {
    if a != "" && a[0] == b[0] == c[0] { LessTransitive(a[1..], b[1..], c[1..]); }
  }
}
