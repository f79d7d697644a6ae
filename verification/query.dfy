/** Sorting by byte order, and the canonical query string of http_server/s3_auth.go. */
module Sorting {
  import opened Common
  import opened Text

  ghost predicate Sorted<T(!new)>(s: seq<T>, le: (T, T) -> bool) {
    forall i, j :: 0 <= i < j < |s| ==> le(s[i], s[j])
  }

  ghost predicate Antisymmetric<T(!new)>(le: (T, T) -> bool) {
    forall x, y :: le(x, y) && le(y, x) ==> x == y
  }

  lemma TailMultiset<T>(s: seq<T>)
    requires s != []
    ensures multiset(s[1..]) == multiset(s) - multiset{s[0]}
  {
    assert s == [s[0]] + s[1..];
  }

  lemma SameHead<T(!new)>(a: seq<T>, b: seq<T>, le: (T, T) -> bool)
    requires a != [] && b != [] && a[0] != b[0] && Sorted(a, le) && b[0] in multiset(a)
    ensures le(a[0], b[0])
  {
  }

  /** There is one sorted arrangement of a multiset. */
  lemma {:induction false} SortedUnique<T(!new)>(a: seq<T>, b: seq<T>, le: (T, T) -> bool)
    requires Antisymmetric(le) && Sorted(a, le) && Sorted(b, le) && multiset(a) == multiset(b)
    ensures a == b
    decreases |a|
  {
    if a == [] {
      assert |multiset(b)| == 0;
    } else {
      assert a[0] in multiset(b);
      assert b[0] in multiset(a);
      if a[0] != b[0] {
        SameHead(a, b, le);
        SameHead(b, a, le);
      }
      TailMultiset(a);
      TailMultiset(b);
      SortedUnique(a[1..], b[1..], le);
      assert a == [a[0]] + a[1..] && b == [b[0]] + b[1..];
    }
  }

  const BYTES: (string, string) -> bool := (a, b) => AtMost(a, b)

  lemma BytesAntisymmetric()
    ensures Antisymmetric(BYTES)
  {
    forall a, b | BYTES(a, b) && BYTES(b, a) ensures a == b { LessTrichotomy(a, b); }
  }

  function Insert(x: string, s: seq<string>): seq<string> {
    if s == [] || AtMost(x, s[0]) then [x] + s else [s[0]] + Insert(x, s[1..])
  }

  /** What sort.Strings does to a slice. */
  function Sort(s: seq<string>): seq<string> {
    if s == [] then [] else Insert(s[0], Sort(s[1..]))
  }

  /** Nothing in a sorted sequence is below its head, or below what is at most its head. */
  lemma AllAbove(x: string, s: seq<string>, i: nat)
    requires Sorted(s, BYTES) && i < |s| && AtMost(x, s[0])
    ensures AtMost(x, s[i])
  {
    if i > 0 && x != s[0] && s[0] != s[i] {
      assert BYTES(s[0], s[i]);
      LessTransitive(x, s[0], s[i]);
    } else if i > 0 {
      assert BYTES(s[0], s[i]);
    }
  }

  lemma SortedCons(x: string, s: seq<string>)
    requires Sorted(s, BYTES) && forall y :: y in s ==> AtMost(x, y)
    ensures Sorted([x] + s, BYTES)
  {
    var t := [x] + s;
    forall i, j | 0 <= i < j < |t| ensures BYTES(t[i], t[j]) {
      assert t[j] == s[j - 1];
      if i > 0 { assert t[i] == s[i - 1] && BYTES(s[i - 1], s[j - 1]); }
    }
  }

  lemma {:induction false} InsertHolds(x: string, s: seq<string>)
    ensures multiset(Insert(x, s)) == multiset(s) + multiset{x}
  {
    if s != [] && !AtMost(x, s[0]) {
      InsertHolds(x, s[1..]);
      assert s == [s[0]] + s[1..];
    }
  }

  lemma {:induction false} InsertSorted(x: string, s: seq<string>)
    requires Sorted(s, BYTES)
    ensures Sorted(Insert(x, s), BYTES)
  {
    if s == [] {
    } else if AtMost(x, s[0]) {
      forall y | y in s ensures AtMost(x, y) {
        var i :| 0 <= i < |s| && s[i] == y;
        AllAbove(x, s, i);
      }
      SortedCons(x, s);
    } else {
      var t := Insert(x, s[1..]);
      InsertSorted(x, s[1..]);
      InsertHolds(x, s[1..]);
      LessTrichotomy(x, s[0]);
      forall y | y in t ensures AtMost(s[0], y) {
        assert y in multiset(t);
        if y != x {
          assert y in multiset(s[1..]);
          var i :| 0 < i < |s| && s[i] == y;
          AllAbove(s[0], s, i);
        }
      }
      SortedCons(s[0], t);
    }
  }

  lemma {:induction false} SortSorts(s: seq<string>)
    ensures Sorted(Sort(s), BYTES) && multiset(Sort(s)) == multiset(s)
  {
    if s != [] {
      SortSorts(s[1..]);
      InsertSorted(s[0], Sort(s[1..]));
      InsertHolds(s[0], Sort(s[1..]));
      TailMultiset(s);
    }
  }

  /** The sorted sequence depends only on what is sorted, not on the order it came in. */
  lemma SortIgnoresOrder(a: seq<string>, b: seq<string>)
    requires multiset(a) == multiset(b)
    ensures Sort(a) == Sort(b)
  {
    BytesAntisymmetric();
    SortSorts(a);
    SortSorts(b);
    SortedUnique(Sort(a), Sort(b), BYTES);
  }

  /** Go's map iteration order is unspecified; this fixes one order. */
  ghost function Enumerate(s: set<string>): (r: seq<string>)
    ensures multiset(r) == multiset(s)
  {
    if s == {} then []
    else
      var x :| x in s;
      assert multiset(s) == multiset(s - {x}) + multiset{x};
      [x] + Enumerate(s - {x})
  }

  lemma OccursTwice(s: seq<string>, i: nat, j: nat)
    requires i < j < |s|
    ensures s[i] == s[j] ==> multiset(s)[s[i]] >= 2
  {
    assert s[i] in s[..j];
    assert s == s[..j] + [s[j]] + s[j + 1..];
  }

  lemma SortedSet(s: set<string>)
    ensures var r := Sort(Enumerate(s));
      NoDuplicates(r) && (forall x :: x in r <==> x in s) && Sorted(r, BYTES)
  {
    var r := Sort(Enumerate(s));
    SortSorts(Enumerate(s));
    forall x ensures x in r <==> x in s { assert x in r <==> x in multiset(r); }
    forall i, j | 0 <= i < j < |r| ensures r[i] != r[j] { OccursTwice(r, i, j); }
  }
}

module Query {
  import opened Common
  import opened Text
  import opened Percent
  import opened Sorting

  type Values = map<string, seq<string>>

  type Pair = (string, string)

  /** How often the query holds the pair. */
  ghost function Count(q: Values, p: Pair): nat {
    if p.0 in q then multiset(q[p.0])[p.1] else 0
  }

  ghost predicate SamePairs(a: Values, b: Values) {
    forall p: Pair :: Count(a, p) == Count(b, p)
  }

  ghost predicate ByteValues(q: Values) {
    forall k :: k in q ==> Octets(k) && forall v :: v in q[k] ==> Octets(v)
  }

  function PairsWith(k: string, values: seq<string>): seq<Pair> {
    seq(|values|, i requires 0 <= i < |values| => (k, values[i]))
  }

  function PairsFor(keys: seq<string>, q: Values): seq<Pair>
    requires forall k :: k in keys ==> k in q
  {
    if keys == [] then [] else PairsWith(keys[0], Sort(q[keys[0]])) + PairsFor(keys[1..], q)
  }

  function EncodePair(p: Pair): string {
    UriEncode(p.0) + "=" + UriEncode(p.1)
  }

  function Encoded(ps: seq<Pair>): seq<string> {
    seq(|ps|, i requires 0 <= i < |ps| => EncodePair(ps[i]))
  }

  ghost function CanonicalPairs(q: Values): seq<Pair> {
    SortedSet(q.Keys);
    PairsFor(Sort(Enumerate(q.Keys)), q)
  }

  ghost function CanonicalQuery(q: Values): string {
    Join(Encoded(CanonicalPairs(q)), "&")
  }

  // ------------------------------------------------ the list of sorted pairs

  const PAIRS: (Pair, Pair) -> bool := (a: Pair, b: Pair) => Less(a.0, b.0) || (a.0 == b.0 && AtMost(a.1, b.1))

  lemma PairsAntisymmetric()
    ensures Antisymmetric(PAIRS)
  {
    forall a, b | PAIRS(a, b) && PAIRS(b, a) ensures a == b {
      LessTrichotomy(a.0, b.0);
      LessTrichotomy(a.1, b.1);
    }
  }

  lemma {:induction false} PairsWithCount(k: string, values: seq<string>, p: Pair)
    ensures multiset(PairsWith(k, values))[p] == if p.0 == k then multiset(values)[p.1] else 0
  {
    if values != [] {
      PairsWithCount(k, values[1..], p);
      assert PairsWith(k, values) == [(k, values[0])] + PairsWith(k, values[1..]);
      assert values == [values[0]] + values[1..];
    }
  }

  lemma {:induction false} PairsForCount(keys: seq<string>, q: Values, p: Pair)
    requires NoDuplicates(keys) && forall k :: k in keys ==> k in q
    ensures multiset(PairsFor(keys, q))[p] == if p.0 in keys then Count(q, p) else 0
  {
    if keys != [] {
      PairsForCount(keys[1..], q, p);
      PairsWithCount(keys[0], Sort(q[keys[0]]), p);
      SortSorts(q[keys[0]]);
      assert keys == [keys[0]] + keys[1..];
    }
  }

  lemma {:induction false} PairsForKeys(keys: seq<string>, q: Values)
    requires forall k :: k in keys ==> k in q
    ensures forall p :: p in PairsFor(keys, q) ==> p.0 in keys
  {
    if keys != [] { PairsForKeys(keys[1..], q); }
  }

  lemma {:induction false} PairsForSorted(keys: seq<string>, q: Values)
    requires NoDuplicates(keys) && Sorted(keys, BYTES) && forall k :: k in keys ==> k in q
    ensures Sorted(PairsFor(keys, q), PAIRS)
  {
    if keys != [] {
      var a, b := PairsWith(keys[0], Sort(q[keys[0]])), PairsFor(keys[1..], q);
      PairsForSorted(keys[1..], q);
      PairsForKeys(keys[1..], q);
      SortSorts(q[keys[0]]);
      assert forall i, j :: 0 <= i < j < |a| ==> PAIRS(a[i], a[j]) by {
        assert forall i, j :: 0 <= i < j < |a| ==> BYTES(a[i].1, a[j].1);
      }
      forall x, y | x in a && y in b ensures PAIRS(x, y) {
        var j :| 0 < j < |keys| && keys[j] == y.0;
        assert BYTES(keys[0], keys[j]);
      }
    }
  }

  lemma CanonicalPairsCount(q: Values, p: Pair)
    ensures multiset(CanonicalPairs(q))[p] == Count(q, p)
  {
    SortedSet(q.Keys);
    PairsForCount(Sort(Enumerate(q.Keys)), q, p);
  }

  lemma CanonicalPairsSorted(q: Values)
    ensures Sorted(CanonicalPairs(q), PAIRS)
  {
    SortedSet(q.Keys);
    PairsForSorted(Sort(Enumerate(q.Keys)), q);
  }

  // ------------------------------------------------------------ faithfulness

  predicate BytePair(p: Pair) {
    Octets(p.0) && Octets(p.1)
  }

  lemma EncodePairInjective(a: Pair, b: Pair)
    requires BytePair(a) && BytePair(b) && EncodePair(a) == EncodePair(b)
    ensures a == b
  {
    EncodedAlphabet(a.0);
    EncodedAlphabet(b.0);
    IndexOf(UriEncode(a.0), "=", UriEncode(a.1));
    IndexOf(UriEncode(b.0), "=", UriEncode(b.1));
    assert EncodePair(a)[..|UriEncode(a.0)|] == UriEncode(a.0);
    assert EncodePair(b)[..|UriEncode(b.0)|] == UriEncode(b.0);
    assert EncodePair(a)[|UriEncode(a.0)| + 1..] == UriEncode(a.1);
    assert EncodePair(b)[|UriEncode(b.0)| + 1..] == UriEncode(b.1);
    EncodeInjective(a.0, b.0);
    EncodeInjective(a.1, b.1);
  }

  lemma EncodePairClean(p: Pair)
    ensures '&' !in EncodePair(p)
  {
    EncodedAlphabet(p.0);
    EncodedAlphabet(p.1);
    assert '&' !in UriEncode(p.0) && '&' !in UriEncode(p.1);
  }

  lemma EncodedClean(ps: seq<Pair>)
    ensures Clean(Encoded(ps), "&")
  {
    forall s | s in Encoded(ps) ensures '&' !in s {
      var i :| 0 <= i < |ps| && s == EncodePair(ps[i]);
      EncodePairClean(ps[i]);
    }
  }

  lemma JoinedEmpty(ps: seq<Pair>)
    requires ps != []
    ensures Join(Encoded(ps), "&") != ""
  {
  }

  lemma JoinedInjective(a: seq<Pair>, b: seq<Pair>)
    requires (forall p :: p in a ==> BytePair(p)) && (forall p :: p in b ==> BytePair(p))
    requires Join(Encoded(a), "&") == Join(Encoded(b), "&")
    ensures a == b
  {
    if a == [] || b == [] {
      if a != [] { JoinedEmpty(a); }
      if b != [] { JoinedEmpty(b); }
    } else {
      EncodedClean(a);
      EncodedClean(b);
      SplitUndoesJoin(Encoded(a), "&");
      SplitUndoesJoin(Encoded(b), "&");
      assert |Encoded(a)| == |a| && |Encoded(b)| == |b|;
      forall i | 0 <= i < |a| ensures a[i] == b[i] {
        assert Encoded(a)[i] == EncodePair(a[i]) && Encoded(b)[i] == EncodePair(b[i]);
        EncodePairInjective(a[i], b[i]);
      }
    }
  }

  lemma CanonicalBytes(q: Values)
    requires ByteValues(q)
    ensures forall p :: p in CanonicalPairs(q) ==> BytePair(p)
  {
    forall p | p in CanonicalPairs(q) ensures BytePair(p) {
      CanonicalPairsCount(q, p);
      assert p in multiset(CanonicalPairs(q));
      assert p.1 in multiset(q[p.0]);
    }
  }

  /** Two queries have the same canonical string exactly when they hold the same pairs equally often. */
  lemma CanonicalFaithful(a: Values, b: Values)
    requires ByteValues(a) && ByteValues(b)
    ensures CanonicalQuery(a) == CanonicalQuery(b) <==> SamePairs(a, b)
  {
    var x, y := CanonicalPairs(a), CanonicalPairs(b);
    forall p: Pair ensures multiset(x)[p] == Count(a, p) && multiset(y)[p] == Count(b, p) {
      CanonicalPairsCount(a, p);
      CanonicalPairsCount(b, p);
    }
    if SamePairs(a, b) {
      assert multiset(x) == multiset(y) by {
        assert forall p :: multiset(x)[p] == multiset(y)[p];
      }
      CanonicalPairsSorted(a);
      CanonicalPairsSorted(b);
      PairsAntisymmetric();
      SortedUnique(x, y, PAIRS);
    }
    if CanonicalQuery(a) == CanonicalQuery(b) {
      CanonicalBytes(a);
      CanonicalBytes(b);
      JoinedInjective(x, y);
    }
  }

  // --------------------------------------------------------- as the code does

  lemma EncodedAppend(a: seq<Pair>, b: seq<Pair>)
    ensures Encoded(a + b) == Encoded(a) + Encoded(b)
  {
  }

  method SortedKeys(q: Values) returns (keys: seq<string>)
    ensures keys == Sort(Enumerate(q.Keys))
  {
    keys := [];
    var pending := q.Keys;
    while pending != {}
      invariant pending <= q.Keys && multiset(keys) == multiset(q.Keys - pending)
      decreases |pending|
    {
      var k :| k in pending;
      assert q.Keys - (pending - {k}) == (q.Keys - pending) + {k};
      keys, pending := keys + [k], pending - {k};
    }
    assert q.Keys - {} == q.Keys;
    SortIgnoresOrder(keys, Enumerate(q.Keys));
    keys := Sort(keys);
  }

  method EncodeValues(key: string, values: seq<string>) returns (pairs: seq<string>)
    ensures pairs == Encoded(PairsWith(key, values))
  {
    pairs := [];
    for j := 0 to |values|
      invariant pairs == Encoded(PairsWith(key, values[..j]))
    {
      var k := AwsUriEncode(key);
      var v := AwsUriEncode(values[j]);
      assert PairsWith(key, values[..j + 1]) == PairsWith(key, values[..j]) + [(key, values[j])];
      EncodedAppend(PairsWith(key, values[..j]), [(key, values[j])]);
      pairs := pairs + [k + "=" + v];
    }
    assert values[..|values|] == values;
  }

  lemma EncodedStep(keys: seq<string>, q: Values, i: nat)
    requires i < |keys| && forall k :: k in keys ==> k in q
    ensures Encoded(PairsFor(keys[i..], q))
         == Encoded(PairsWith(keys[i], Sort(q[keys[i]]))) + Encoded(PairsFor(keys[i + 1..], q))
  {
  }

  lemma Regroup(a: seq<string>, b: seq<string>, c: seq<string>)
    ensures a + (b + c) == (a + b) + c
  {
  }

  method EncodePairs(keys: seq<string>, q: Values) returns (pairs: seq<string>)
    requires forall k :: k in keys ==> k in q
    ensures pairs == Encoded(PairsFor(keys, q))
  {
    pairs := [];
    ghost var all := Encoded(PairsFor(keys, q));
    var i := 0;
    assert keys[0..] == keys;
    while i < |keys|
      invariant 0 <= i <= |keys| && pairs + Encoded(PairsFor(keys[i..], q)) == all
    {
      EncodedStep(keys, q, i);
      var more := EncodeValues(keys[i], Sort(q[keys[i]]));
      Regroup(pairs, more, Encoded(PairsFor(keys[i + 1..], q)));
      pairs, i := pairs + more, i + 1;
    }
  }

  method CanonicalQueryString(q: Values) returns (r: string)
    ensures r == CanonicalQuery(q)
  {
    var keys := SortedKeys(q);
    SortedSet(q.Keys);
    var pairs := EncodePairs(keys, q);
    r := Join(pairs, "&");
  }
}
