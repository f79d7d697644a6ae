/** The token bucket and in-flight slots of controlplane/cache.go, over exact reals. */
module Admission {

  datatype Bucket = Bucket(rate: real, burst: real, tokens: real, last: real, slots: nat, limit: nat)

  predicate Usable(b: Bucket) {
    0.0 <= b.rate && 0.0 <= b.tokens <= b.burst && b.slots <= b.limit
  }

  /** What `elapsed` time earns at `rate`. */
  function Earned(elapsed: real, rate: real): (e: real)
    ensures 0.0 <= elapsed && 0.0 <= rate ==> 0.0 <= e
  {
    elapsed * rate
  }

  function Refilled(b: Bucket, now: real): real {
    var t := b.tokens + Earned(now - b.last, b.rate);
    if t < b.burst then t else b.burst
  }

  function Acquire(b: Bucket, now: real): (Bucket, bool) {
    var t := Refilled(b, now);
    if t < 1.0 then (b.(last := now, tokens := t), false)
    else if b.slots < b.limit then (b.(last := now, tokens := t - 1.0, slots := b.slots + 1), true)
    else (b.(last := now, tokens := t - 1.0), false)
  }

  function Release(b: Bucket): Bucket {
    if b.slots == 0 then b else b.(slots := b.slots - 1)
  }

  datatype Op = Try(now: real) | Free

  function Step(b: Bucket, op: Op): Bucket {
    match op
    case Try(now) => Acquire(b, now).0
    case Free => Release(b)
  }

  function Grants(b: Bucket, ops: seq<Op>): nat
    decreases |ops|
  {
    if ops == [] then 0
    else (if ops[0].Try? && Acquire(b, ops[0].now).1 then 1 else 0) + Grants(Step(b, ops[0]), ops[1..])
  }

  /** The clock never goes back, and never past `until`. */
  predicate Monotone(from: real, ops: seq<Op>, until: real)
    decreases |ops|
  {
    if ops == [] then from <= until
    else match ops[0]
      case Try(now) => from <= now && Monotone(now, ops[1..], until)
      case Free => Monotone(from, ops[1..], until)
  }

  lemma EarnedSplits(x: real, y: real, rate: real)
    ensures Earned(x, rate) + Earned(y, rate) == Earned(x + y, rate)
  {
  }

  lemma AcquireKeeps(b: Bucket, now: real)
    requires Usable(b) && b.last <= now
    ensures var (b', granted) := Acquire(b, now);
      && Usable(b') && b'.last == now && b'.rate == b.rate && b'.burst == b.burst && b'.limit == b.limit
      && b'.tokens + (if granted then 1.0 else 0.0) <= b.tokens + Earned(now - b.last, b.rate)
      && b'.tokens + (if granted then 1.0 else 0.0) <= b.burst
      && b'.slots == b.slots + if granted then 1 else 0
  {
  }

  /** Slots depend on no clock: whatever it reads, an admission takes one free slot. */
  lemma AcquireSlots(b: Bucket, now: real)
    ensures var (b', granted) := Acquire(b, now);
      && b'.limit == b.limit && b'.slots == b.slots + (if granted then 1 else 0)
      && (granted ==> b.slots < b.limit)
  {
  }

  lemma {:induction false} GrantsBounded(b: Bucket, ops: seq<Op>, until: real)
    requires Usable(b) && Monotone(b.last, ops, until)
    ensures Grants(b, ops) as real <= b.tokens + Earned(until - b.last, b.rate)
    decreases |ops|
  {
    if ops == [] {
      assert 0.0 <= Earned(until - b.last, b.rate);
    } else {
      var b' := Step(b, ops[0]);
      match ops[0] {
        case Try(now) =>
          AcquireKeeps(b, now);
          GrantsBounded(b', ops[1..], until);
          EarnedSplits(until - now, now - b.last, b.rate);
        case Free =>
          GrantsBounded(b', ops[1..], until);
      }
    }
  }

  /** The clock of `ops` stays within the window from `start` to `end`. */
  predicate Within(start: real, ops: seq<Op>, end: real) {
    forall i :: 0 <= i < |ops| && ops[i].Try? ==> start <= ops[i].now <= end
  }

  /**
   Main result: with a clock that never goes back, the admissions in any window are at
   most burst + rate * window, from any usable state, however long it had been idle.
   */
  lemma {:induction false} WindowBound(b: Bucket, ops: seq<Op>, start: real, end: real)
    requires Usable(b) && Monotone(b.last, ops, end) && Within(start, ops, end) && start <= end
    ensures Grants(b, ops) as real <= b.burst + Earned(end - start, b.rate)
    decreases |ops|
  {
    assert 0.0 <= Earned(end - start, b.rate);
    if ops != [] {
      var rest := ops[1..];
      assert forall i :: 0 <= i < |rest| ==> rest[i] == ops[i + 1];
      match ops[0] {
        case Free => WindowBound(Release(b), rest, start, end);
        case Try(now) =>
          AcquireKeeps(b, now);
          GrantsBounded(Acquire(b, now).0, rest, end);
          assert 0.0 <= Earned(now - start, b.rate);
          EarnedSplits(end - now, now - start, b.rate);
      }
    }
  }

  /** A bucket with a free slot that has been idle long enough to earn a token admits. */
  lemma IdleAdmits(b: Bucket, now: real)
    requires Usable(b) && 1.0 <= b.burst && b.slots < b.limit && 1.0 <= Earned(now - b.last, b.rate)
    ensures Acquire(b, now).1
  {
  }

  function Tries(now: real, n: nat): seq<Op> {
    seq(n, i => Try(now))
  }

  /** At one instant, as many tries in a row are admitted as there are whole tokens and free slots. */
  lemma {:induction false} BurstAdmits(b: Bucket, n: nat)
    requires Usable(b) && n as real <= b.tokens && b.slots + n <= b.limit
    ensures Grants(b, Tries(b.last, n)) == n
    decreases n
  {
    if n > 0 {
      assert Earned(b.last - b.last, b.rate) == 0.0;
      var b' := Acquire(b, b.last).0;
      assert Tries(b.last, n)[1..] == Tries(b'.last, n - 1);
      BurstAdmits(b', n - 1);
    }
  }

  class MissAdmission {
    const rate: real
    const burst: real
    const limit: nat
    var tokens: real
    var last: real
    var slots: nat

    ghost function Value(): Bucket
      reads this
    {
      Bucket(rate, burst, tokens, last, slots, limit)
    }

    constructor (rate: real, burst: nat, limit: nat, now: real)
      requires 0.0 <= rate
      ensures Value() == Bucket(rate, burst as real, burst as real, now, 0, limit) && Usable(Value())
    {
      this.rate, this.burst, this.limit := rate, burst as real, limit;
      tokens, last, slots := burst as real, now, 0;
    }

    /** Takes a token, then a slot; a token taken without a free slot is spent. */
    method TryAcquire(now: real) returns (granted: bool)
      modifies this
      ensures (Value(), granted) == Acquire(old(Value()), now)
      ensures old(Usable(Value())) && old(last) <= now ==> Usable(Value())
    {
      if Usable(Value()) && last <= now {
        AcquireKeeps(Value(), now);
      }
      var elapsed := now - last;
      last := now;
      tokens := tokens + Earned(elapsed, rate);
      if burst < tokens {
        tokens := burst;
      }
      if tokens < 1.0 {
        return false;
      }
      tokens := tokens - 1.0;
      if slots < limit {
        slots := slots + 1;
        return true;
      }
      return false;
    }

    method Free()
      requires slots > 0
      modifies this`slots
      ensures Value() == Release(old(Value()))
      ensures old(Usable(Value())) ==> Usable(Value())
    {
      slots := slots - 1;
    }
  }
}

/** The single-flight group of controlplane/cache.go and its callers, step by step. */
module LoadGroup {
  import opened Common
  import A = Admission

  datatype Phase = Loading | Returned | Removed | Closed

  datatype Call = Call(key: string, phase: Phase)

  datatype Caller = Waiting(call: nat) | Got(call: nat) | Rejected | Cancelled

  datatype Group = Group(calls: map<string, nat>, table: map<nat, Call>, callers: map<nat, Caller>, bucket: A.Bucket)

  datatype Step =
    | Enter(caller: nat, key: string, newId: nat, now: real)
    | Return(call: nat)
    | Remove(call: nat)
    | Close(call: nat)
    | Receive(caller: nat)
    | Cancel(caller: nat)

  ghost predicate Init(g: Group) {
    && g.calls == map[] && g.table == map[] && g.callers == map[]
    && g.bucket.slots == 0
  }

  ghost predicate Next(g: Group, g': Group, step: Step) {
    match step
    case Enter(c, k, newId, now) =>
      && c !in g.callers && newId !in g.table
      && g' == Entered(g, c, k, newId, now)
    case Return(n) =>
      && n in g.table && g.table[n].phase == Loading
      && g' == g.(table := g.table[n := g.table[n].(phase := Returned)], bucket := A.Release(g.bucket))
    case Remove(n) =>
      && n in g.table && g.table[n].phase == Returned
      && g' == g.(table := g.table[n := g.table[n].(phase := Removed)], calls := Unlinked(g, n))
    case Close(n) =>
      && n in g.table && g.table[n].phase == Removed
      && g' == g.(table := g.table[n := g.table[n].(phase := Closed)])
    case Receive(c) =>
      && c in g.callers && g.callers[c].Waiting? && g.callers[c].call in g.table
      && g.table[g.callers[c].call].phase == Closed
      && g' == g.(callers := g.callers[c := Got(g.callers[c].call)])
    case Cancel(c) =>
      && c in g.callers && g.callers[c].Waiting?
      && g' == g.(callers := g.callers[c := Cancelled])
  }

  /** The section at the start of Do: join the key's call, or lead a new one if admitted. */
  function Entered(g: Group, c: nat, k: string, newId: nat, now: real): Group {
    if k in g.calls then g.(callers := g.callers[c := Waiting(g.calls[k])])
    else
      var (bucket, granted) := A.Acquire(g.bucket, now);
      if granted
      then Group(g.calls[k := newId], g.table[newId := Call(k, Loading)], g.callers[c := Waiting(newId)], bucket)
      else g.(callers := g.callers[c := Rejected], bucket := bucket)
  }

  function Unlinked(g: Group, n: nat): map<string, nat>
    requires n in g.table
  {
    var k := g.table[n].key;
    if k in g.calls && g.calls[k] == n then g.calls - {k} else g.calls
  }

  ghost function Running(g: Group): set<nat> {
    set n | n in g.table && g.table[n].phase == Loading
  }

  ghost predicate Open(p: Phase) {
    p == Loading || p == Returned
  }

  /** Open calls and joinable calls are the same thing; slots count the running ones. */
  ghost predicate Inv(g: Group) {
    && (forall k :: k in g.calls ==>
          g.calls[k] in g.table && g.table[g.calls[k]].key == k && Open(g.table[g.calls[k]].phase))
    && (forall n :: n in g.table && Open(g.table[n].phase) ==>
          g.table[n].key in g.calls && g.calls[g.table[n].key] == n)
    && g.bucket.slots == |Running(g)| <= g.bucket.limit
  }

  lemma EnterKeeps(g: Group, c: nat, k: string, newId: nat, now: real)
    requires Inv(g) && newId !in g.table
    ensures Inv(Entered(g, c, k, newId, now))
  {
    var g' := Entered(g, c, k, newId, now);
    A.AcquireSlots(g.bucket, now);
    if k !in g.calls && A.Acquire(g.bucket, now).1 {
      assert Running(g') == Running(g) + {newId};
    } else {
      assert Running(g') == Running(g);
    }
  }

  /** A caller waits for an open call of its own key, unless it had to lead one and was not admitted. */
  lemma EnterServes(g: Group, c: nat, k: string, newId: nat, now: real)
    requires Inv(g) && newId !in g.table
    ensures var g' := Entered(g, c, k, newId, now);
      && c in g'.callers && (g'.callers[c] == Rejected <==> k !in g.calls && !A.Acquire(g.bucket, now).1)
      && (g'.callers[c] != Rejected ==>
            && g'.callers[c].Waiting? && g'.callers[c].call in g'.table
            && g'.table[g'.callers[c].call].key == k && Open(g'.table[g'.callers[c].call].phase))
      && (k in g.calls ==> g'.bucket == g.bucket && g'.table == g.table)
      && forall other :: other in g.callers && other != c ==> g'.callers[other] == g.callers[other]
  {
  }

  lemma ReturnKeeps(g: Group, g': Group, n: nat)
    requires Inv(g) && Next(g, g', Return(n))
    ensures Inv(g')
  {
    assert n in Running(g);
    assert Running(g') == Running(g) - {n};
  }

  lemma RemoveKeeps(g: Group, g': Group, n: nat)
    requires Inv(g) && Next(g, g', Remove(n))
    ensures Inv(g')
  {
    assert Running(g') == Running(g);
  }

  lemma NextKeeps(g: Group, g': Group, step: Step)
    requires Inv(g) && Next(g, g', step)
    ensures Inv(g')
  {
    match step {
      case Enter(c, k, newId, now) => EnterKeeps(g, c, k, newId, now);
      case Return(n) => ReturnKeeps(g, g', n);
      case Remove(n) => RemoveKeeps(g, g', n);
      case _ => assert Running(g') == Running(g);
    }
  }

  ghost predicate IsRun(gs: seq<Group>, steps: seq<Step>) {
    && |gs| == |steps| + 1 && Init(gs[0])
    && forall i :: 0 <= i < |steps| ==> Next(gs[i], gs[i + 1], steps[i])
  }

  lemma {:induction false} Reachable(gs: seq<Group>, steps: seq<Step>, i: nat)
    requires IsRun(gs, steps) && i < |gs|
    ensures Inv(gs[i])
  {
    if i == 0 {
      assert Running(gs[0]) == {};
    } else {
      Reachable(gs, steps, i - 1);
      NextKeeps(gs[i - 1], gs[i], steps[i - 1]);
    }
  }

  /**
   Main result: in every interleaving at most one load per key runs, and the occupied slots
   are exactly the running loads, never more than the limit.
   */
  lemma SingleFlight(gs: seq<Group>, steps: seq<Step>, i: nat)
    requires IsRun(gs, steps) && i < |gs|
    ensures forall m, n :: m in Running(gs[i]) && n in Running(gs[i]) && m != n ==>
              gs[i].table[m].key != gs[i].table[n].key
    ensures gs[i].bucket.slots == |Running(gs[i])| <= gs[i].bucket.limit
  {
    Reachable(gs, steps, i);
  }

  /** A call that has left the map never becomes joinable or open again. */
  lemma {:induction false} StaysClosed(gs: seq<Group>, steps: seq<Step>, i: nat, j: nat, n: nat)
    requires IsRun(gs, steps) && i <= j < |gs|
    requires n in gs[i].table && !Open(gs[i].table[n].phase)
    ensures n in gs[j].table && !Open(gs[j].table[n].phase)
    decreases j
  {
    if i < j {
      StaysClosed(gs, steps, i, j - 1, n);
      assert Next(gs[j - 1], gs[j], steps[j - 1]);
    }
  }

  ghost predicate RefersTo(g: Group, c: nat, n: nat) {
    c in g.callers && (g.callers[c] == Waiting(n) || g.callers[c] == Got(n))
  }

  lemma {:induction false} KeepsItsCall(gs: seq<Group>, steps: seq<Step>, j: nat, k: nat, c: nat, n: nat)
    requires IsRun(gs, steps) && j < k < |gs|
    requires c in gs[j + 1].callers && !RefersTo(gs[j + 1], c, n)
    ensures c in gs[k].callers && !RefersTo(gs[k], c, n)
    decreases k
  {
    if j + 1 < k {
      KeepsItsCall(gs, steps, j, k - 1, c, n);
      assert Next(gs[k - 1], gs[k], steps[k - 1]);
    }
  }

  /** Main result: a call that starts after a completion was published never gets that result. */
  lemma NoStaleResult(gs: seq<Group>, steps: seq<Step>, i: nat, j: nat, k: nat, n: nat)
    requires IsRun(gs, steps) && i <= j < |steps| && j < k < |gs|
    requires n in gs[i].table && gs[i].table[n].phase == Closed
    requires steps[j].Enter?
    ensures !RefersTo(gs[k], steps[j].caller, n)
  {
    StaysClosed(gs, steps, i, j, n);
    Reachable(gs, steps, j);
    assert Next(gs[j], gs[j + 1], steps[j]);
    KeepsItsCall(gs, steps, j, k, steps[j].caller, n);
  }

  /** The group's own fields; its callers are the goroutines waiting in Do. */
  class Flights {
    var calls: map<string, nat>
    var table: map<nat, Call>
    const admission: A.MissAdmission

    ghost function Value(callers: map<nat, Caller>): Group
      reads this, admission
    {
      Group(calls, table, callers, admission.Value())
    }

    constructor (admission: A.MissAdmission)
      ensures calls == map[] && table == map[] && this.admission == admission
    {
      calls, table := map[], map[];
      this.admission := admission;
    }

    /** The locked start of Do for caller `c`. */
    method Enter(c: nat, k: string, newId: nat, now: real) returns (r: Caller)
      requires Inv(Value(map[])) && newId !in table
      modifies this, admission
      ensures Value(map[c := r]) == Entered(old(Value(map[])), c, k, newId, now) && Inv(Value(map[c := r]))
    {
      EnterKeeps(Value(map[]), c, k, newId, now);
      if k in calls {
        return Waiting(calls[k]);
      }
      var granted := admission.TryAcquire(now);
      if !granted {
        return Rejected;
      }
      table := table[newId := Call(k, Loading)];
      calls := calls[k := newId];
      return Waiting(newId);
    }

    /** The load returned: its slot is free, and the call is not yet published. */
    method Finish(n: nat)
      requires Inv(Value(map[])) && n in table && table[n].phase == Loading
      modifies this, admission
      ensures Next(old(Value(map[])), Value(map[]), Return(n)) && Inv(Value(map[]))
    {
      ghost var before := Value(map[]);
      assert n in Running(before);
      admission.Free();
      table := table[n := table[n].(phase := Returned)];
      ReturnKeeps(before, Value(map[]), n);
    }

    /** The locked end of Do: the call stops being joinable before its result is published. */
    method Complete(n: nat)
      requires Inv(Value(map[])) && n in table && table[n].phase == Returned
      modifies this
      ensures Next(old(Value(map[])), Value(map[]), Remove(n)) && Inv(Value(map[]))
      ensures forall k :: k in calls ==> calls[k] != n
    {
      ghost var before := Value(map[]);
      var k := table[n].key;
      if k in calls && calls[k] == n {
        calls := calls - {k};
      }
      table := table[n := table[n].(phase := Removed)];
      RemoveKeeps(before, Value(map[]), n);
    }
  }
}
