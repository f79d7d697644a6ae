/**
 The client object of controlplane/client.go, watch.go and lookup.go.  Every method is
 one section that runs under the synchronization lock, and is proved to compute the
 matching function of Protocol, up to cache entries that recency or expiry drops.
 */
module Client {
  import opened Common
  import opened Contract
  import P = Protocol
  import opened Cache

  datatype Stamp = Stamp(revision: nat, epoch: nat)

  class Client {
    var state: P.State
    var revision: nat
    var cursor: string
    var epoch: nat
    var snapshot: Option<P.Snapshot>
    var required: nat
    var barrierRequired: bool
    var baseHosts: map<string, nat>
    const cfg: P.Config
    const credentials: LocalCache<Entry>
    const vbuckets: LocalCache<Entry>

    ghost function View(): P.View
      reads this, credentials, vbuckets
    {
      P.View(state, revision, cursor, epoch, snapshot, required, barrierRequired, baseHosts,
             credentials.held, vbuckets.held)
    }

    ghost predicate Valid()
      reads credentials, vbuckets
    {
      credentials != vbuckets && credentials.Valid() && vbuckets.Valid()
    }

    constructor (cfg: P.Config, maxCredentials: int, maxVBuckets: int)
      ensures Valid() && View() == P.START && this.cfg == cfg
      ensures fresh(credentials) && fresh(vbuckets)
    {
      state, revision, cursor, epoch, snapshot := P.Startup, 0, "", 0, None;
      required, barrierRequired, baseHosts := 0, true, map[];
      this.cfg := cfg;
      credentials := new LocalCache<Entry>(maxCredentials);
      vbuckets := new LocalCache<Entry>(maxVBuckets);
    }

    method TransitionLocked(s: P.State)
      requires Valid()
      modifies this`state, this`epoch
      ensures Valid() && View() == P.Transition(old(View()), s)
    {
      if state == P.Shutdown && s != P.Shutdown {
        return;
      }
      if state != s {
        if state == P.Ready && s != P.Ready {
          epoch := epoch + 1;
        }
        state := s;
      }
    }

    method RequestResyncLocked()
      requires Valid()
      modifies this`state, this`epoch, this`barrierRequired
      ensures Valid() && View() == P.RequestResync(old(View()))
    {
      if state == P.Shutdown {
        return;
      }
      barrierRequired := true;
      TransitionLocked(P.Disconnected);
    }

    method MarkUnsynchronized(s: P.State)
      requires Valid()
      modifies this
      ensures Valid() && View() == P.Unsynchronize(old(View()), s)
    {
      TransitionLocked(s);
      snapshot := None;
      barrierRequired := true;
    }

    /** The locked part of opening a stream; returns the resume pair it asks for. */
    method OpenWatch() returns (resume: string, after: nat)
      requires Valid()
      modifies this`state, this`epoch
      ensures Valid() && View() == P.Reopen(old(View()))
      ensures resume == cursor && after == revision
    {
      TransitionLocked(P.Synchronizing);
      return cursor, revision;
    }

    method FailLocked()
      requires Valid()
      modifies this`state, this`epoch, this`barrierRequired
      ensures Valid() && View() == P.Fail(old(View()))
    {
      barrierRequired := true;
      TransitionLocked(P.Disconnected);
    }

    method ProcessWatch(f: Frame, now: int, later: int) returns (ok: bool)
      requires Valid()
      modifies this, credentials, vbuckets
      ensures Valid() && ok == P.ProcessWatch(cfg, old(View()), f).1
      ensures P.Shrinks(View(), P.ProcessWatch(cfg, old(View()), f).0)
    {
      if f.event.NoEvent? {
        return false;
      }
      if state != P.Ready && state != P.Synchronizing {
        FailLocked();
        return false;
      }
      if f.event.SnapshotBegin? {
        ok := SnapshotBeginLocked(f);
      } else if f.event.Barrier? {
        ok := BarrierLocked(f);
      } else if f.event.Heartbeat? {
        ok := HeartbeatLocked(f);
      } else if snapshot.Some? {
        ok := SnapshotEntryLocked(f);
      } else {
        ok := MutationLocked(f, now, later);
      }
    }

    method HeartbeatLocked(f: Frame) returns (ok: bool)
      requires Valid()
      modifies this`state, this`epoch, this`barrierRequired
      ensures Valid() && (View(), ok) == P.OrFail(old(View()), P.OnHeartbeat(old(View()), f))
    {
      if snapshot.Some? || f.revision != revision || f.cursor == "" || f.cursor != cursor {
        FailLocked();
        return false;
      }
      return true;
    }

    method SnapshotBeginLocked(f: Frame) returns (ok: bool)
      requires Valid()
      modifies this, credentials, vbuckets
      ensures Valid() && (View(), ok) == P.OrFail(old(View()), P.OnSnapshotBegin(old(View()), f))
    {
      if snapshot.Some? || f.revision == 0 || f.cursor != "" || f.revision < revision {
        FailLocked();
        return false;
      }
      TransitionLocked(P.Synchronizing);
      barrierRequired := true;
      credentials.InvalidateAll();
      vbuckets.InvalidateAll();
      var expected := if f.revision == revision then cursor else "";
      snapshot := Some(P.Snapshot(f.revision, expected, cursor, map[]));
      return true;
    }

    method BarrierLocked(f: Frame) returns (ok: bool)
      requires Valid()
      modifies this
      ensures Valid() && (View(), ok) == P.OrFail(old(View()), P.OnBarrier(old(View()), f))
    {
      if f.revision == 0 || f.cursor == "" {
        FailLocked();
        return false;
      }
      if snapshot.Some? {
        ok := SnapshotBarrierLocked(f);
        return;
      }
      if f.revision != revision || f.cursor != cursor {
        FailLocked();
        return false;
      }
      barrierRequired := false;
      SettleLocked();
      return true;
    }

    method SnapshotBarrierLocked(f: Frame) returns (ok: bool)
      requires Valid() && snapshot.Some?
      modifies this
      ensures Valid() && (View(), ok) == P.OrFail(old(View()), P.OnSnapshotBarrier(old(View()), f))
    {
      var s := snapshot.value;
      if || f.revision != s.revision
         || (s.expectedCursor != "" && f.cursor != s.expectedCursor)
         || (s.revision > revision && s.previousCursor != "" && f.cursor == s.previousCursor)
      {
        FailLocked();
        return false;
      }
      baseHosts, snapshot := s.baseHosts, None;
      revision, cursor := f.revision, f.cursor;
      barrierRequired := false;
      SettleLocked();
      return true;
    }

    /** The common end of both barriers: Ready once the catch-up target is met. */
    method SettleLocked()
      requires Valid()
      modifies this`state, this`epoch, this`required
      ensures Valid() && View() == P.Settle(old(View()))
    {
      if required != 0 && revision >= required {
        required := 0;
      }
      if required == 0 {
        TransitionLocked(P.Ready);
      } else {
        TransitionLocked(P.Synchronizing);
      }
    }

    method SnapshotEntryLocked(f: Frame) returns (ok: bool)
      requires Valid() && snapshot.Some?
      modifies this
      ensures Valid() && (View(), ok) == P.OrFail(old(View()), P.OnSnapshotEntry(cfg, old(View()), f))
    {
      var s := snapshot.value;
      if f.revision == 0 || f.revision > s.revision || f.cursor != "" || !f.event.BaseHostDelta? {
        FailLocked();
        return false;
      }
      var domain := cfg.normalize(f.event.host);
      if domain.None? || f.event.remove || domain.value in s.baseHosts || |s.baseHosts| >= cfg.baseHostMax {
        FailLocked();
        return false;
      }
      snapshot := Some(s.(baseHosts := s.baseHosts[domain.value := f.revision]));
      return true;
    }

    method MutationLocked(f: Frame, now: int, later: int) returns (ok: bool)
      requires Valid()
      modifies this, credentials, vbuckets
      ensures Valid() && ok == P.OnMutation(cfg, old(View()), f).1
      ensures P.Shrinks(View(), P.OnMutation(cfg, old(View()), f).0)
    {
      if revision == 0 || cursor == "" {
        FailLocked();
        return false;
      }
      if f.revision != revision + 1 || f.cursor == "" || f.cursor == cursor {
        FailLocked();
        return false;
      }
      ok := ApplyEntityLocked(f, now, later);
      ghost var applied := P.ApplyEntity(cfg, old(View()), f).0;
      if !ok {
        P.FailShrinks(View(), applied);
        FailLocked();
        return;
      }
      P.CatchUpShrinks(View(), applied, f);
      revision, cursor := f.revision, f.cursor;
      CatchUpLocked();
    }

    method CatchUpLocked()
      requires Valid()
      modifies this`state, this`epoch, this`required
      ensures Valid() && View() == P.CatchUp(old(View()))
    {
      if required != 0 && revision >= required {
        required := 0;
        if !barrierRequired {
          TransitionLocked(P.Ready);
        }
      }
    }

    method ApplyEntityLocked(f: Frame, now: int, later: int) returns (ok: bool)
      requires Valid()
      modifies this`baseHosts, credentials, vbuckets
      ensures Valid() && ok == P.ApplyEntity(cfg, old(View()), f).1
      ensures P.Shrinks(View(), P.ApplyEntity(cfg, old(View()), f).0)
    {
      match f.event {
        case CredentialsDelta(a, remove, ttl) =>
          if a == "" {
            return false;
          }
          ok := ApplyDeltaTo(credentials, a, remove, ttl, f.revision, now, later);
        case BaseHostDelta(host, remove) =>
          ok := ApplyBaseHostLocked(host, remove, f.revision);
        case VBucketDelta(a, b, remove, ttl) =>
          if a == "" || b == "" {
            return false;
          }
          ok := ApplyDeltaTo(vbuckets, P.VBucketSlot(a, b), remove, ttl, f.revision, now, later);
        case _ =>
          return false;
      }
    }

    method ApplyBaseHostLocked(host: string, remove: bool, at: nat) returns (ok: bool)
      requires Valid()
      modifies this`baseHosts
      ensures Valid() && (View(), ok) == P.ApplyBaseHost(cfg, old(View()), host, remove, at)
    {
      var domain := cfg.normalize(host);
      if domain.None? {
        return false;
      }
      if remove {
        baseHosts := baseHosts - {domain.value};
      } else {
        if domain.value !in baseHosts && |baseHosts| >= cfg.baseHostMax {
          return false;
        }
        baseHosts := baseHosts[domain.value := at];
      }
      return true;
    }

    method CheckUnaryRevision(reply: nat, expected: nat) returns (ok: bool)
      requires Valid()
      modifies this`state, this`epoch, this`barrierRequired, this`required
      ensures Valid() && View() == P.CheckUnary(old(View()), reply, expected).0
      ensures ok == P.CheckUnary(old(View()), reply, expected).1
    {
      if reply == expected {
        return true;
      }
      if state == P.Shutdown {
        return false;
      }
      if reply < expected {
        RequestResyncLocked();
      } else if reply > revision {
        required := Max(required, reply);
        if state == P.Ready {
          TransitionLocked(P.Synchronizing);
        }
      }
      return false;
    }

    method FinishCreate(captured: nat, reply: Option<nat>) returns (outcome: P.CreateOutcome)
      requires Valid()
      modifies this`state, this`epoch, this`barrierRequired, this`required
      ensures Valid() && View() == P.FinishCreate(old(View()), captured, reply).0
      ensures outcome == P.FinishCreate(old(View()), captured, reply).1
    {
      if reply.None? || reply.value == 0 || reply.value <= captured {
        RequestResyncLocked();
        return P.CreateRace;
      }
      if state == P.Shutdown {
        return P.Created;
      }
      if reply.value > revision {
        required := Max(required, reply.value);
        if state == P.Ready || state == P.Synchronizing {
          TransitionLocked(P.Synchronizing);
        }
      }
      return P.Created;
    }

    /** The loader's commit section, reading the cache at `now` and again at `later`. */
    method CommitLoad(k: Key, at: Stamp, candidate: Entry, now: int, later: int)
      returns (r: P.LoadResult, ghost first: Option<Entry>, ghost second: Option<Entry>)
      requires Valid() && candidate.ttl > 0
      modifies this, credentials, vbuckets
      ensures Valid()
      ensures P.Seen(old(View()), k, first) && P.Seen(old(View()), k, second)
      ensures var (after, result) := P.Commit(old(View()), k, at.revision, at.epoch, candidate, first, second);
              r == result && P.Shrinks(View(), after)
    {
      first, second := None, None;
      if state != P.Ready || epoch != at.epoch {
        return P.Race, first, second;
      }
      var cache, slot := CacheOf(k);
      ghost var before := View();
      var verdict;
      verdict, first, second := Arbitrate(cache, slot, revision, at.revision, candidate, now, later);
      r := verdict.result;
      ghost var settled := if verdict.store then P.Store(before, k, candidate) else before;
      assert P.Shrinks(View(), settled);
      if verdict.resync {
        P.ResyncShrinks(View(), settled);
        RequestResyncLocked();
      }
    }

    method CacheOf(k: Key) returns (cache: LocalCache<Entry>, slot: string)
      ensures cache == if k.CredentialKey? then credentials else vbuckets
      ensures slot == if k.CredentialKey? then k.accessKey else P.VBucketSlot(k.accessKey, k.bucket)
    {
      match k
      case CredentialKey(a) => return credentials, a;
      case VBucketKey(a, b) => return vbuckets, P.VBucketSlot(a, b);
    }

    /** The stamp a lookup or a request starts from: the only one that is current at this moment. */
    method LookupSnapshot() returns (at: Option<Stamp>)
      ensures forall s: Stamp :: at == Some(s) <==> P.StillCurrent(View(), s.revision, s.epoch)
    {
      return if state == P.Ready then Some(Stamp(revision, epoch)) else None;
    }

    method ValidateResolution(at: Stamp) returns (ok: bool)
      ensures ok == P.StillCurrent(View(), at.revision, at.epoch)
    {
      return state == P.Ready && revision == at.revision && epoch == at.epoch;
    }
  }

  /** A cache read, by what it may drop and what it may return. */
  method Read(cache: LocalCache<Entry>, slot: string, now: int) returns (r: Option<Entry>)
    requires cache.Valid()
    modifies cache
    ensures cache.Valid()
    ensures SubMap(cache.held, old(cache.held))
    ensures r.Some? ==> r == Get(old(cache.held), slot)
    ensures r.None? ==> slot !in cache.held
  {
    GetShrinks(cache.Value(), slot, now);
    r := cache.GetIfPresent(slot, now);
  }

  /** A cache write, by what it may add. */
  method Write(cache: LocalCache<Entry>, slot: string, e: Entry, now: int)
    requires cache.Valid() && e.ttl > 0
    modifies cache
    ensures cache.Valid()
    ensures SubMap(cache.held, old(cache.held)[slot := e])
  {
    SetAdds(cache.Value(), cache.maximum, slot, e, e.ttl, now);
    cache.Set(slot, e, e.ttl, now);
  }

  /**
   Arbitration between a loaded candidate and the cache at the client's `current`
   revision: a newer held entry wins, a candidate for another revision loses.
   */
  method Arbitrate(cache: LocalCache<Entry>, slot: string, current: nat, captured: nat, candidate: Entry,
                   now: int, later: int)
    returns (verdict: P.Verdict, ghost first: Option<Entry>, ghost second: Option<Entry>)
    requires cache.Valid() && candidate.ttl > 0
    modifies cache
    ensures cache.Valid()
    ensures first.None? || first == Get(old(cache.held), slot)
    ensures second.None? || second == Get(old(cache.held), slot)
    ensures verdict == P.Arbitration(current, captured, candidate, first, second)
    ensures var before, after := old(cache.held), cache.held;
            SubMap(after, if verdict.store then before[slot := candidate] else before)
  {
    first, second := None, None;
    ghost var c0 := cache.held;
    var newer := Read(cache, slot, now);
    ghost var c1 := cache.held;
    first := newer;
    if newer.Some? && newer.value.revision > candidate.revision && newer.value.revision == current {
      return P.Verdict(P.Value(newer.value), false, false), first, second;
    }
    if candidate.revision > current {
      return P.Verdict(P.Race, true, false), first, second;
    }
    if current != captured || candidate.revision != current {
      return P.Verdict(P.Race, false, false), first, second;
    }
    newer := Read(cache, slot, later);
    ghost var c2 := cache.held;
    SubMapTrans(c2, c1, c0);
    second := newer;
    if newer.Some? && newer.value.revision >= candidate.revision {
      return P.Verdict(P.Value(newer.value), false, false), first, second;
    }
    Write(cache, slot, candidate, later);
    SubMapStore(c2, c0, slot, candidate);
    SubMapTrans(cache.held, c2[slot := candidate], c0[slot := candidate]);
    return P.Verdict(P.Value(candidate), false, true), first, second;
  }

  /** A credential or vbucket delta on its cache: hot keys get a tombstone or are dropped. */
  method ApplyDeltaTo(cache: LocalCache<Entry>, slot: string, remove: bool, negativeTtl: Duration,
                      revision: nat, now: int, later: int) returns (ok: bool)
    requires cache.Valid()
    modifies cache
    ensures cache.Valid()
    ensures ok == P.DeltaOk(remove, negativeTtl)
    ensures SubMap(cache.held, P.AfterDelta(old(cache.held), slot, remove, negativeTtl, revision))
  {
    ghost var c0 := cache.held;
    var hot := Read(cache, slot, now);
    ghost var c1 := cache.held;
    if remove {
      var ttl := CacheTtl(negativeTtl);
      if ttl.None? {
        Discard(cache, slot);
        SubMapStore(c1, c0, slot, Entry(None, 0, 0));
        SubMapTrans(cache.held, c1 - {slot}, c0 - {slot});
        return false;
      }
      if hot.Some? {
        Write(cache, slot, Entry(None, revision, ttl.value), later);
        SubMapStore(c1, c0, slot, Entry(None, revision, ttl.value));
        SubMapTrans(cache.held, c1[slot := Entry(None, revision, ttl.value)],
                    c0[slot := Entry(None, revision, ttl.value)]);
      }
      return true;
    }
    if negativeTtl != Absent {
      return false;
    }
    if hot.Some? {
      Discard(cache, slot);
      SubMapStore(c1, c0, slot, Entry(None, 0, 0));
      SubMapTrans(cache.held, c1 - {slot}, c0 - {slot});
    }
    return true;
  }

  method Discard(cache: LocalCache<Entry>, slot: string)
    requires cache.Valid()
    modifies cache
    ensures cache.Valid()
    ensures SubMap(cache.held, old(cache.held) - {slot})
  {
    cache.Invalidate(slot);
  }
}
