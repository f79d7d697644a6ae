/**
 The bounded recency cache of controlplane/cache.go: a map of timed values and a
 recency list of the same keys, most recently touched first.  `Lru` is the value
 the class `LocalCache` holds; the class updates it in place.
 */
module Cache {
  import opened Common

  datatype Timed<V> = Timed(value: V, expiresAt: int)

  datatype Lru<V> = Lru(entries: map<string, Timed<V>>, order: seq<string>)

  function Empty<V>(): Lru<V> {
    Lru(map[], [])
  }

  /** `order` without `k`. */
  function Without(order: seq<string>, k: string): (rest: seq<string>)
    ensures forall x :: x in rest <==> x in order && x != k
  {
    if order == [] then []
    else if order[0] == k then Without(order[1..], k)
    else [order[0]] + Without(order[1..], k)
  }

  function Drop<V>(c: Lru<V>, k: string): Lru<V> {
    Lru(c.entries - {k}, Without(c.order, k))
  }

  function GetState<V>(c: Lru<V>, k: string, now: int): Lru<V> {
    if k !in c.entries then c
    else if c.entries[k].expiresAt <= now then Drop(c, k)
    else Lru(c.entries, [k] + Without(c.order, k))
  }

  function GetResult<V>(c: Lru<V>, k: string, now: int): Option<V> {
    if k in c.entries && c.entries[k].expiresAt > now then Some(c.entries[k].value) else None
  }

  /** The state right after `k` was stored, before any eviction. */
  function Stored<V>(c: Lru<V>, k: string, entry: Timed<V>): Lru<V> {
    Lru(c.entries[k := entry], [k] + Without(c.order, k))
  }

  function SetState<V>(c: Lru<V>, maximum: nat, k: string, value: V, ttl: int, now: int): Lru<V>
  {
    if ttl <= 0 then c
    else
      var s := Stored(c, k, Timed(value, now + ttl));
      if k in c.entries || |s.entries| <= maximum then s else Evicted(s)
  }

  function Evicted<V>(s: Lru<V>): Lru<V>
    requires s.order != []
  {
    Lru(s.entries - {Last(s.order)}, s.order[..|s.order| - 1])
  }

  function Last(order: seq<string>): string
    requires order != []
  {
    order[|order| - 1]
  }

  /** The map and the recency list hold the same duplicate-free keys, within the bound. */
  ghost predicate Sound<V>(c: Lru<V>, maximum: nat) {
    && NoDuplicates(c.order)
    && (forall k :: k in c.order <==> k in c.entries)
    && |c.entries| <= maximum
  }

  function Contents<V>(c: Lru<V>): map<string, V> {
    map k | k in c.entries :: c.entries[k].value
  }

  // ---------------------------------------------------------------- soundness

  lemma {:induction false} WithoutNoDuplicates(order: seq<string>, k: string)
    requires NoDuplicates(order)
    ensures NoDuplicates(Without(order, k))
  {
    if order != [] {
      var tail := order[1..];
      WithoutNoDuplicates(tail, k);
      assert order[0] !in tail;
      var rest := Without(tail, k);
      forall i, j | 0 <= i < j < |[order[0]] + rest|
        ensures ([order[0]] + rest)[i] != ([order[0]] + rest)[j]
      {
        assert rest[j - 1] in tail;
      }
    }
  }

  lemma {:induction false} OrderSize(order: seq<string>, keys: set<string>)
    requires NoDuplicates(order)
    requires forall k :: k in order <==> k in keys
    ensures |order| == |keys|
  {
    if order == [] {
      assert keys == {};
    } else {
      var rest := keys - {order[0]};
      assert order == [order[0]] + order[1..];
      forall k ensures k in order[1..] <==> k in rest {
        if k in order[1..] {
          var j :| 0 <= j < |order[1..]| && order[1..][j] == k;
          assert order[j + 1] == k;
        }
      }
      OrderSize(order[1..], rest);
    }
  }

  lemma OrderMatchesEntries<V>(c: Lru<V>, maximum: nat)
    requires Sound(c, maximum)
    ensures |c.order| == |c.entries|
  {
    OrderSize(c.order, c.entries.Keys);
  }

  lemma DropSound<V>(c: Lru<V>, maximum: nat, k: string)
    requires Sound(c, maximum)
    ensures Sound(Drop(c, k), maximum)
  {
    WithoutNoDuplicates(c.order, k);
    assert (c.entries - {k}).Keys == c.entries.Keys - {k};
  }

  lemma GetSound<V>(c: Lru<V>, maximum: nat, k: string, now: int)
    requires Sound(c, maximum)
    ensures Sound(GetState(c, k, now), maximum)
  {
    DropSound(c, maximum, k);
  }

  lemma StoredSound<V>(c: Lru<V>, maximum: nat, k: string, entry: Timed<V>)
    requires Sound(c, maximum)
    ensures Sound(Stored(c, k, entry), maximum + 1)
    ensures k in c.entries ==> |Stored(c, k, entry).entries| <= maximum
  {
    WithoutNoDuplicates(c.order, k);
    assert c.entries[k := entry].Keys == c.entries.Keys + {k};
  }

  lemma EvictedSound<V>(s: Lru<V>, maximum: nat)
    requires Sound(s, maximum + 1) && s.order != []
    ensures Sound(Evicted(s), maximum)
  {
    var last, rest := Last(s.order), s.order[..|s.order| - 1];
    assert (s.entries - {last}).Keys == s.entries.Keys - {last};
    assert last in s.entries;
    forall k ensures k in rest <==> k in s.entries - {last} {
      assert s.order == rest + [last];
    }
  }

  lemma SetSound<V>(c: Lru<V>, maximum: nat, k: string, value: V, ttl: int, now: int)
    requires Sound(c, maximum)
    ensures Sound(SetState(c, maximum, k, value, ttl, now), maximum)
  {
    if ttl > 0 {
      var s := Stored(c, k, Timed(value, now + ttl));
      StoredSound(c, maximum, k, Timed(value, now + ttl));
      if k !in c.entries && |s.entries| > maximum {
        EvictedSound(s, maximum);
      }
    }
  }

  // --------------------------------------------- what an operation can change

  /** A lookup only ever removes entries, and answers with what it holds. */
  lemma GetShrinks<V>(c: Lru<V>, k: string, now: int)
    ensures SubMap(Contents(GetState(c, k, now)), Contents(c))
    ensures GetResult(c, k, now).Some? ==> Get(Contents(c), k) == GetResult(c, k, now)
    ensures GetResult(c, k, now).Some? ==> GetState(c, k, now).entries == c.entries
    ensures GetResult(c, k, now).None? ==> k !in GetState(c, k, now).entries
  {
  }

  /** A store adds at most the stored pair; capacity may drop another key. */
  lemma SetAdds<V>(c: Lru<V>, maximum: nat, k: string, value: V, ttl: int, now: int)
    requires ttl > 0
    ensures SubMap(Contents(SetState(c, maximum, k, value, ttl, now)), Contents(c)[k := value])
  {
  }

  // ------------------------------------------------------- histories of a cache

  datatype Op<V> =
    | GetOp(key: string, now: int)
    | SetOp(key: string, value: V, ttl: int, now: int)
    | InvalidateOp(key: string)
    | InvalidateAllOp

  function Apply<V>(c: Lru<V>, maximum: nat, op: Op<V>): Lru<V> {
    match op
    case GetOp(k, now) => GetState(c, k, now)
    case SetOp(k, value, ttl, now) => SetState(c, maximum, k, value, ttl, now)
    case InvalidateOp(k) => Drop(c, k)
    case InvalidateAllOp => Empty()
  }

  /** The key an operation makes most recent: a stored key or a hit. */
  function Touched<V>(c: Lru<V>, op: Op<V>): Option<string> {
    match op
    case GetOp(k, now) => if GetResult(c, k, now).Some? then Some(k) else None
    case SetOp(k, _, ttl, _) => if ttl > 0 then Some(k) else None
    case _ => None
  }

  function After<V>(maximum: nat, ops: seq<Op<V>>): Lru<V> {
    if ops == [] then Empty()
    else Apply(After(maximum, ops[..|ops| - 1]), maximum, ops[|ops| - 1])
  }

  /** The distinct other keys touched since `k` was last touched. */
  function TouchedSince<V>(maximum: nat, ops: seq<Op<V>>, k: string): set<string> {
    if ops == [] then {}
    else
      var earlier := ops[..|ops| - 1];
      match Touched(After(maximum, earlier), ops[|ops| - 1])
      case None => TouchedSince(maximum, earlier, k)
      case Some(t) => if t == k then {} else TouchedSince(maximum, earlier, k) + {t}
  }

  lemma ApplySound<V>(c: Lru<V>, maximum: nat, op: Op<V>)
    requires Sound(c, maximum)
    ensures Sound(Apply(c, maximum, op), maximum)
  {
    match op
    case GetOp(k, now) => GetSound(c, maximum, k, now);
    case SetOp(k, value, ttl, now) => SetSound(c, maximum, k, value, ttl, now);
    case InvalidateOp(k) => DropSound(c, maximum, k);
    case InvalidateAllOp =>
  }

  /** Main result: every history leaves map and list in agreement and within the bound. */
  lemma {:induction false} HistorySound<V>(maximum: nat, ops: seq<Op<V>>)
    ensures Sound(After(maximum, ops), maximum)
  {
    if ops != [] {
      HistorySound(maximum, ops[..|ops| - 1]);
      ApplySound(After(maximum, ops[..|ops| - 1]), maximum, ops[|ops| - 1]);
    }
  }

  // ---------------------------------------------------------------- lifetimes

  /** A stored value is served until its time is up and not after. */
  lemma SetThenGet<V>(c: Lru<V>, maximum: nat, k: string, value: V, ttl: int, now: int, later: int)
    requires Sound(c, maximum) && maximum > 0 && ttl > 0
    ensures GetResult(SetState(c, maximum, k, value, ttl, now), k, later) == if later - now < ttl then Some(value) else None
  {
    var s := Stored(c, k, Timed(value, now + ttl));
    StoredSound(c, maximum, k, Timed(value, now + ttl));
    OrderMatchesEntries(s, maximum + 1);
    if k !in c.entries && |s.entries| > maximum {
      assert s.order[0] == k && s.order[|s.order| - 1] != k;
    }
  }

  /** The operation decides what the cache may say of `k` from then on. */
  predicate Decides<V>(op: Op<V>, k: string) {
    match op
    case GetOp(_, _) => false
    case SetOp(x, _, ttl, _) => x == k && ttl > 0
    case InvalidateOp(x) => x == k
    case InvalidateAllOp => true
  }

  /** The last operation to decide on `k` stored `value` at `ops[i].now` for `ops[i].ttl`. */
  ghost predicate StoredAt<V>(ops: seq<Op<V>>, i: nat, k: string, entry: Timed<V>) {
    && i < |ops| && ops[i].SetOp? && ops[i].key == k && ops[i].ttl > 0
    && entry == Timed(ops[i].value, ops[i].now + ops[i].ttl)
    && forall j :: i < j < |ops| ==> !Decides(ops[j], k)
  }

  lemma StoredLater<V>(ops: seq<Op<V>>, op: Op<V>, i: nat, k: string, entry: Timed<V>)
    requires StoredAt(ops, i, k, entry) && !Decides(op, k)
    ensures StoredAt(ops + [op], i, k, entry)
  {
  }

  lemma HeldUnchanged<V>(c: Lru<V>, maximum: nat, op: Op<V>, k: string)
    requires k in Apply(c, maximum, op).entries
    ensures if Decides(op, k) then op.SetOp? && Apply(c, maximum, op).entries[k] == Timed(op.value, op.now + op.ttl)
            else k in c.entries && Apply(c, maximum, op).entries[k] == c.entries[k]
  {
  }

  /** Main result: what any history leaves under a key is what the last operation to decide on it stored. */
  lemma {:induction false} HeldIsLatest<V>(maximum: nat, ops: seq<Op<V>>, k: string) returns (i: nat)
    requires k in After(maximum, ops).entries
    ensures StoredAt(ops, i, k, After(maximum, ops).entries[k])
  {
    if ops == [] {
      assert false;
    } else {
      var earlier, op := ops[..|ops| - 1], ops[|ops| - 1];
      HeldUnchanged(After(maximum, earlier), maximum, op, k);
      if Decides(op, k) {
        i := |ops| - 1;
      } else {
        i := HeldIsLatest(maximum, earlier, k);
        StoredLater(earlier, op, i, k, After(maximum, ops).entries[k]);
        assert earlier + [op] == ops;
      }
    }
  }

  /** So nothing is served that was not stored less than its lifetime ago, nor after it was invalidated. */
  lemma ServedIsLive<V>(maximum: nat, ops: seq<Op<V>>, k: string, now: int) returns (i: nat)
    requires GetResult(After(maximum, ops), k, now).Some?
    ensures i < |ops| && ops[i].SetOp? && ops[i].key == k && now - ops[i].now < ops[i].ttl
    ensures GetResult(After(maximum, ops), k, now) == Some(ops[i].value)
    ensures forall j :: i < j < |ops| ==> !Decides(ops[j], k)
  {
    i := HeldIsLatest(maximum, ops, k);
  }

  /** The keys in front of `k` in a recency list. */
  function Front(order: seq<string>, k: string): set<string> {
    if order == [] || order[0] == k then {} else {order[0]} + Front(order[1..], k)
  }

  lemma {:induction false} FrontWithout(order: seq<string>, x: string, k: string)
    requires x != k
    ensures Front(Without(order, x), k) <= Front(order, k)
  {
    if order != [] {
      FrontWithout(order[1..], x, k);
      if order[0] != x {
        assert Without(order, x)[1..] == Without(order[1..], x);
      }
    }
  }

  lemma {:induction false} FrontPrefix(order: seq<string>, n: nat, k: string)
    requires n <= |order|
    ensures Front(order[..n], k) <= Front(order, k)
  {
    if n != 0 && order[0] != k {
      FrontPrefix(order[1..], n - 1, k);
      assert order[..n][1..] == order[1..][..n - 1];
    }
  }

  lemma FrontStep(order: seq<string>)
    requires NoDuplicates(order) && |order| > 1
    ensures NoDuplicates(order[1..]) && Last(order[1..]) == Last(order) && order[0] !in order[1..]
    ensures Front(order, Last(order)) == {order[0]} + Front(order[1..], Last(order))
  {
    assert order[0] != order[|order| - 1];
  }

  lemma {:induction false} FrontOfLast(order: seq<string>)
    requires NoDuplicates(order) && order != []
    ensures |Front(order, Last(order))| == |order| - 1
    ensures forall x :: x in Front(order, Last(order)) ==> x in order
  {
    if |order| > 1 {
      FrontStep(order);
      FrontOfLast(order[1..]);
    }
  }

  /** Keys in front of a held key were all touched after it. */
  lemma {:induction false} FrontWasTouched<V>(maximum: nat, ops: seq<Op<V>>, k: string)
    requires k in After(maximum, ops).entries
    ensures Front(After(maximum, ops).order, k) <= TouchedSince(maximum, ops, k)
  {
    if ops != [] {
      var earlier, op := ops[..|ops| - 1], ops[|ops| - 1];
      var c, c' := After(maximum, earlier), After(maximum, ops);
      if Touched(c, op) == Some(k) {
        assert c'.order[0] == k by { TouchedFirst(maximum, earlier, op); }
      } else {
        assert k in c.entries;
        FrontWasTouched(maximum, earlier, k);
        FrontGrowsByTouched(c, maximum, op, k);
      }
    }
  }

  lemma TouchedFirst<V>(maximum: nat, earlier: seq<Op<V>>, op: Op<V>)
    requires Touched(After(maximum, earlier), op).Some?
    requires Touched(After(maximum, earlier), op).value in Apply(After(maximum, earlier), maximum, op).entries
    ensures var order := Apply(After(maximum, earlier), maximum, op).order;
            order != [] && order[0] == Touched(After(maximum, earlier), op).value
  {
  }

  lemma FrontGrowsByTouched<V>(c: Lru<V>, maximum: nat, op: Op<V>, k: string)
    requires k in c.entries && k in Apply(c, maximum, op).entries
    requires Touched(c, op) != Some(k)
    ensures Touched(c, op).None? ==> Front(Apply(c, maximum, op).order, k) <= Front(c.order, k)
    ensures Touched(c, op).Some? ==>
              Front(Apply(c, maximum, op).order, k) <= Front(c.order, k) + {Touched(c, op).value}
  {
    match op
    case GetOp(x, now) =>
      if x != k && x in c.entries {
        FrontWithout(c.order, x, k);
        if c.entries[x].expiresAt > now {
          assert ([x] + Without(c.order, x))[1..] == Without(c.order, x);
        }
      }
    case SetOp(x, value, ttl, now) =>
      if ttl > 0 {
        FrontWithout(c.order, x, k);
        var s := Stored(c, x, Timed(value, now + ttl));
        assert s.order[1..] == Without(c.order, x);
        FrontPrefix(s.order, |s.order| - 1, k);
      }
    case InvalidateOp(x) =>
      FrontWithout(c.order, x, k);
    case InvalidateAllOp =>
  }

  /**
   Main result: a held key is lost only by its own invalidation or expiry, or after at
   least `maximum` distinct other keys were stored or hit since it was last touched.
   */
  lemma LostOnlyWhenOlder<V>(maximum: nat, ops: seq<Op<V>>, op: Op<V>, k: string)
    requires k in After(maximum, ops).entries
    requires k !in After(maximum, ops + [op]).entries
    ensures
      || op.InvalidateAllOp?
      || op == InvalidateOp(k)
      || (op.GetOp? && op.key == k && After(maximum, ops).entries[k].expiresAt <= op.now)
      || |TouchedSince(maximum, ops + [op], k)| >= maximum
  {
    var all := ops + [op];
    assert all[..|all| - 1] == ops && all[|all| - 1] == op;
    var c := After(maximum, ops);
    if op.SetOp? {
      HistorySound(maximum, ops);
      FrontWasTouched(maximum, ops, k);
      EvictedIsOldest(c, maximum, op, k);
      Smaller(Front(c.order, k) + {op.key}, TouchedSince(maximum, all, k));
    }
  }

  lemma EvictedIsLast<V>(c: Lru<V>, maximum: nat, op: Op<V>, k: string)
    requires Sound(c, maximum) && op.SetOp?
    requires k in c.entries && k !in Apply(c, maximum, op).entries
    ensures op.ttl > 0 && op.key != k
    ensures var s := Stored(c, op.key, Timed(op.value, op.now + op.ttl));
      s.order != [] && Last(s.order) == k && |s.entries| > maximum && NoDuplicates(s.order) && |s.order| == |s.entries|
  {
    var s := Stored(c, op.key, Timed(op.value, op.now + op.ttl));
    assert op.ttl > 0 && op.key !in c.entries && |s.entries| > maximum;
    StoredSound(c, maximum, op.key, Timed(op.value, op.now + op.ttl));
    OrderMatchesEntries(s, maximum + 1);
  }

  lemma EvictedIsOldest<V>(c: Lru<V>, maximum: nat, op: Op<V>, k: string)
    requires Sound(c, maximum) && op.SetOp?
    requires k in c.entries && k !in Apply(c, maximum, op).entries
    ensures op.ttl > 0 && op.key != k
    ensures |Front(c.order, k) + {op.key}| >= maximum
  {
    var s := Stored(c, op.key, Timed(op.value, op.now + op.ttl));
    EvictedIsLast(c, maximum, op, k);
    FrontOfLast(s.order);
    FrontWithout(c.order, op.key, k);
    assert s.order[1..] == Without(c.order, op.key);
    Smaller(Front(s.order, k), Front(c.order, k) + {op.key});
  }

  lemma {:induction false} Smaller(a: set<string>, b: set<string>)
    requires a <= b
    ensures |a| <= |b|
  {
    if a != {} {
      var x :| x in a;
      Smaller(a - {x}, b - {x});
    }
  }

  // -------------------------------------------------------------- the class

  class LocalCache<V> {
    var entries: map<string, Timed<V>>
    var order: seq<string>
    const maximum: nat
    ghost var held: map<string, V>  // what the entries say, without their deadlines

    ghost function Value(): Lru<V>
      reads this
    {
      Lru(entries, order)
    }

    ghost predicate Valid()
      reads this
    {
      maximum >= 1 && Sound(Value(), maximum) && held == Contents(Value())
    }

    constructor (maximum: int)
      ensures Valid() && Value() == Empty() && held == map[]
      ensures this.maximum == if maximum < 1 then 1 else maximum
    {
      this.maximum := if maximum < 1 then 1 else maximum;
      entries, order, held := map[], [], map[];
    }

    method GetIfPresent(k: string, now: int) returns (r: Option<V>)
      requires Valid()
      modifies this
      ensures Valid()
      ensures r == GetResult(old(Value()), k, now)
      ensures Value() == GetState(old(Value()), k, now)
    {
      GetSound(Value(), maximum, k, now);
      if k !in entries {
        return None;
      }
      var entry := entries[k];
      var rest := Remove(order, k);
      if entry.expiresAt <= now {
        order := rest;
        entries := entries - {k};
        held := Contents(Value());
        return None;
      }
      order := [k] + rest;
      return Some(entry.value);
    }

    method Set(k: string, value: V, ttl: int, now: int)
      requires Valid()
      modifies this
      ensures Valid()
      ensures Value() == SetState(old(Value()), maximum, k, value, ttl, now)
    {
      SetSound(Value(), maximum, k, value, ttl, now);
      if ttl <= 0 {
        return;
      }
      var known := k in entries;
      StoreFront(k, Timed(value, now + ttl));
      if !known && |entries| > maximum {
        EvictBack();
      }
      held := Contents(Value());
    }

    /** The key moves, or is added, to the front of the list. */
    method StoreFront(k: string, entry: Timed<V>)
      requires Valid()
      modifies this`entries, this`order
      ensures Value() == Stored(old(Value()), k, entry)
    {
      if k in entries {
        order := Remove(order, k);
      } else {
        NotHeld(order, k);
      }
      order := [k] + order;
      entries := entries[k := entry];
    }

    method EvictBack()
      requires order != []
      modifies this`entries, this`order
      ensures Value() == Evicted(old(Value()))
    {
      var oldest := order[|order| - 1];
      order := order[..|order| - 1];
      entries := entries - {oldest};
    }

    method Invalidate(k: string)
      requires Valid()
      modifies this
      ensures Valid() && Value() == Drop(old(Value()), k)
    {
      DropSound(Value(), maximum, k);
      if k in entries {
        order := Remove(order, k);
      } else {
        NotHeld(order, k);
      }
      entries := entries - {k};
      held := Contents(Value());
    }

    method InvalidateAll()
      requires Valid()
      modifies this
      ensures Valid() && Value() == Empty() && held == map[]
    {
      entries, order, held := map[], [], map[];
    }
  }

  lemma {:induction false} NotHeld(order: seq<string>, k: string)
    requires k !in order
    ensures Without(order, k) == order
  {
    if order != [] {
      NotHeld(order[1..], k);
    }
  }

  lemma {:induction false} WithoutAppend(a: seq<string>, x: string, k: string)
    ensures Without(a + [x], k) == Without(a, k) + (if x == k then [] else [x])
  {
    if a != [] {
      WithoutAppend(a[1..], x, k);
      assert (a + [x])[1..] == a[1..] + [x];
    } else {
      assert a + [x] == [x];
    }
  }

  /** Unlinks `k` from a recency list. */
  method Remove(order: seq<string>, k: string) returns (rest: seq<string>)
    ensures rest == Without(order, k)
  {
    rest := [];
    for i := 0 to |order|
      invariant rest == Without(order[..i], k)
    {
      WithoutAppend(order[..i], order[i], k);
      assert order[..i + 1] == order[..i] + [order[i]];
      if order[i] != k {
        rest := rest + [order[i]];
      }
    }
    assert order[..|order|] == order;
  }
}
