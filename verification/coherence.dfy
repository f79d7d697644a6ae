/**
 What every locked section of the client keeps: readiness, agreement of both caches and
 the base-host registry with the control plane's world at the accepted revision, and the
 one-way progress of revision and epoch.
 */
module Coherence {
  import opened Common
  import opened Contract
  import opened Protocol

  ghost predicate Readiness(v: View) {
    && (v.state == Ready ==>
          v.snapshot.None? && !v.barrierRequired && v.required == 0 && v.revision > 0 && v.cursor != "")
    && (v.state == Startup || v.state == Connecting || v.state == Disconnected ==> v.barrierRequired)
    && (v.state == Synchronizing ==> v.barrierRequired || v.required > v.revision)
    && (v.snapshot.Some? ==>
          v.barrierRequired && v.state != Ready && v.credentials == map[] && v.vbuckets == map[])
  }

  /** Cached answers, registry and cursor are those of the world at the accepted revision. */
  ghost predicate Coherent(h: History, v: View) {
    && (forall k :: Plain(k) && Held(v, k).Some? ==> Right(h, v.revision, k, Held(v, k).value))
    && v.baseHosts.Keys == h.world(v.revision).hosts
    && v.cursor == (if v.revision == 0 then "" else h.cursor(v.revision))
    && (v.snapshot.Some? ==> Prepared(v, v.snapshot.value))
  }

  ghost predicate Right(h: History, revision: nat, k: Key, e: Entry) {
    e.answer == Truth(h, revision, k) && e.revision <= revision
  }

  /** A staged snapshot remembers the pair it was staged against. */
  ghost predicate Prepared(v: View, s: Snapshot) {
    && 0 < s.revision && v.revision <= s.revision
    && s.previousCursor == v.cursor
    && s.expectedCursor == if s.revision == v.revision then v.cursor else ""
  }

  /** The staged registry is what the stream has sent so far. */
  ghost predicate Staged(v: View, sent: Option<Sent>) {
    v.state == Ready || v.state == Synchronizing ==>
      match v.snapshot
      case None => sent.None?
      case Some(s) => sent.Some? && s.revision == sent.value.revision && s.baseHosts.Keys == sent.value.hosts
  }

  /** One-way progress: neither counter goes back, and Ready is never left and re-entered in one epoch. */
  ghost predicate Advances(v: View, w: View) {
    && v.revision <= w.revision
    && v.epoch <= w.epoch
    && (v.state == Ready && w.state != Ready ==> v.epoch < w.epoch)
    && (v.state == Ready && v.epoch == w.epoch ==> w.state == Ready)
    && (v.state == Shutdown ==> w.state == Shutdown)
    && Max(v.revision, v.required) <= Max(w.revision, w.required)
  }

  lemma AdvancesTrans(u: View, v: View, w: View)
    requires Advances(u, v) && Advances(v, w)
    ensures Advances(u, w)
  {
  }

  lemma ShrinksKeeps(h: History, small: View, big: View, sent: Option<Sent>)
    requires Shrinks(small, big) && Readiness(big) && Coherent(h, big) && Staged(big, sent)
    ensures Readiness(small) && Coherent(h, small) && Staged(small, sent)
    ensures Advances(big, small) && small.barrierRequired == big.barrierRequired
  {
    forall k | Plain(k) && Held(small, k).Some?
      ensures Right(h, small.revision, k, Held(small, k).value)
    {
      assert Held(big, k) == Held(small, k);
    }
  }

  // ------------------------------------------------------------ state changes

  lemma FailKeeps(h: History, v: View, sent: Option<Sent>)
    requires Readiness(v) && Coherent(h, v)
    ensures Readiness(Fail(v)) && Coherent(h, Fail(v)) && Staged(Fail(v), sent)
    ensures Advances(v, Fail(v)) && Fail(v).barrierRequired
    ensures Fail(v).state == Shutdown || Fail(v).state == Disconnected
  {
    SameCaches(h, v, Fail(v));
  }

  lemma SameCaches(h: History, v: View, w: View)
    requires Coherent(h, v)
    requires w.credentials == v.credentials && w.vbuckets == v.vbuckets && w.revision == v.revision
    requires w.baseHosts == v.baseHosts && w.cursor == v.cursor
    requires w.snapshot.None? || w.snapshot == v.snapshot
    ensures Coherent(h, w)
  {
    assert forall k :: Held(w, k) == Held(v, k);
  }

  lemma ResyncKeeps(h: History, v: View, sent: Option<Sent>)
    requires Readiness(v) && Coherent(h, v) && Staged(v, sent)
    ensures var w := RequestResync(v);
            Readiness(w) && Coherent(h, w) && Staged(w, sent) && Advances(v, w)
            && (v.barrierRequired ==> w.barrierRequired)
  {
  }

  /** Retiring a stream drops whatever it staged and keeps registry, caches and pair. */
  lemma UnsynchronizeKeeps(h: History, v: View, s: State, sent: Option<Sent>)
    requires Readiness(v) && Coherent(h, v)
    requires s == Connecting || s == Disconnected || s == Shutdown
    ensures var w := Unsynchronize(v, s);
            && Readiness(w) && Coherent(h, w) && Staged(w, sent) && Advances(v, w)
            && w.barrierRequired && w.snapshot.None? && w.state != Ready && w.state != Synchronizing
            && w.baseHosts == v.baseHosts && w.revision == v.revision
            && w.credentials == v.credentials && w.vbuckets == v.vbuckets
  {
    SameCaches(h, v, Unsynchronize(v, s));
  }

  lemma ReopenKeeps(h: History, v: View)
    requires Readiness(v) && Coherent(h, v) && v.snapshot.None? && v.state != Ready && v.state != Synchronizing
    ensures var w := Reopen(v);
            && Readiness(w) && Coherent(h, w) && Staged(w, None) && Advances(v, w)
            && w.state != Ready && w.barrierRequired == v.barrierRequired
  {
    SameCaches(h, v, Reopen(v));
  }

  lemma AwaitKeeps(h: History, v: View, revision: nat, leave: bool, sent: Option<Sent>)
    requires Readiness(v) && Coherent(h, v) && Staged(v, sent)
    requires v.state == Ready ==> leave
    requires leave ==> v.state == Ready || v.state == Synchronizing
    ensures var w := Await(v, revision, leave);
            && Readiness(w) && Coherent(h, w) && Staged(w, sent) && Advances(v, w)
            && revision <= Max(w.revision, w.required) && w.barrierRequired == v.barrierRequired
  {
  }

  // -------------------------------------------------------------- watch frames

  lemma SnapshotBeginKeeps(h: History, cfg: Config, v: View, f: Frame)
    requires Readiness(v) && Coherent(h, v)
    requires v.state == Ready || v.state == Synchronizing
    requires f.event.SnapshotBegin? && OnSnapshotBegin(v, f).Some?
    ensures var w := OnSnapshotBegin(v, f).value;
            && Readiness(w) && Coherent(h, w) && Staged(w, NextSent(cfg.normalize, None, f)) && Advances(v, w)
            && w.barrierRequired
  {
  }

  lemma SettleKeeps(h: History, v: View)
    requires v.snapshot.None? && !v.barrierRequired && v.revision > 0 && Coherent(h, v) && Canonical(h)
    requires v.state == Ready || v.state == Synchronizing
    requires v.state == Ready ==> v.required == 0
    ensures Readiness(Settle(v)) && Coherent(h, Settle(v)) && Staged(Settle(v), None) && Advances(v, Settle(v))
  {
    SameCaches(h, v, Settle(v));
  }

  lemma BarrierKeeps(h: History, cfg: Config, v: View, f: Frame, sent: Option<Sent>)
    requires Canonical(h) && Readiness(v) && Coherent(h, v) && Staged(v, sent)
    requires v.state == Ready || v.state == Synchronizing
    requires f.event.Barrier? && Owes(h, cfg.normalize, sent, f) && OnBarrier(v, f).Some?
    ensures var w := OnBarrier(v, f).value;
            Readiness(w) && Coherent(h, w) && Staged(w, None) && Advances(v, w)
  {
    if v.snapshot.Some? {
      var s := v.snapshot.value;
      var u := v.(baseHosts := s.baseHosts, snapshot := None,
                  revision := f.revision, cursor := f.cursor, barrierRequired := false);
      assert forall k :: Held(u, k).None?;
      SettleKeeps(h, u);
      AdvancesTrans(v, u, Settle(u));
    } else {
      var u := v.(barrierRequired := false);
      SameCaches(h, v, u);
      SettleKeeps(h, u);
      AdvancesTrans(v, u, Settle(u));
    }
  }

  lemma SnapshotEntryKeeps(h: History, cfg: Config, v: View, f: Frame, sent: Option<Sent>)
    requires Readiness(v) && Coherent(h, v) && Staged(v, sent)
    requires v.state == Ready || v.state == Synchronizing
    requires v.snapshot.Some? && OnSnapshotEntry(cfg, v, f).Some?
    ensures var w := OnSnapshotEntry(cfg, v, f).value;
            && Readiness(w) && Coherent(h, w) && Staged(w, NextSent(cfg.normalize, sent, f)) && Advances(v, w)
            && w.barrierRequired && w.baseHosts == v.baseHosts
  {
    var w := OnSnapshotEntry(cfg, v, f).value;
    assert forall k :: Held(w, k) == Held(v, k);
  }

  /** Two pairs share a cache slot only if they are the same pair, when one has no slash. */
  lemma SlotInjective(a: string, b: string, a': string, b': string)
    requires '/' !in a && '/' !in b
    requires VBucketSlot(a, b) == VBucketSlot(a', b')
    ensures a == a' && b == b'
  {
    var s := VBucketSlot(a, b);
    assert s[|a'|] == '/' by { assert VBucketSlot(a', b')[|a'|] == '/'; }
    assert forall i :: 0 <= i < |a| ==> s[i] == a[i];
    assert forall i :: |a| < i < |s| ==> s[i] == b[i - |a| - 1];
    assert |a'| == |a|;
    assert a == s[..|a|] && a' == s[..|a'|];
    assert b == s[|a| + 1..] && b' == s[|a'| + 1..];
  }

  ghost predicate OwnsSlot(a: string, b: string) {
    forall a', b' :: VBucketSlot(a, b) == VBucketSlot(a', b') ==> a == a' && b == b'
  }

  /** A pair owns its cache key among all pairs exactly when neither name holds a slash. */
  lemma SlotOwnedExactly(a: string, b: string)
    ensures OwnsSlot(a, b) <==> '/' !in a && '/' !in b
  {
    if '/' in a {
      var i :| 0 <= i < |a| && a[i] == '/';
      assert VBucketSlot(a, b) == VBucketSlot(a[..i], a[i + 1..] + "/" + b);
    } else if '/' in b {
      var i :| 0 <= i < |b| && b[i] == '/';
      assert VBucketSlot(a, b) == VBucketSlot(a + "/" + b[..i], b[i + 1..]);
    } else {
      forall a', b' | VBucketSlot(a, b) == VBucketSlot(a', b') ensures a == a' && b == b' {
        SlotInjective(a, b, a', b');
      }
    }
  }

  lemma AppliedCredentials(h: History, cfg: Config, v: View, f: Frame)
    requires Coherent(h, v) && f.revision == v.revision + 1 && f.cursor == h.cursor(f.revision)
    requires v.snapshot.None? && f.event.CredentialsDelta? && Describes(h, cfg.normalize, f)
    requires ApplyEntity(cfg, v, f).1
    ensures Coherent(h, ApplyEntity(cfg, v, f).0.(revision := f.revision, cursor := f.cursor))
  {
    var named := CredentialKey(f.event.accessKey);
    var w := ApplyEntity(cfg, v, f).0.(revision := f.revision, cursor := f.cursor);
    forall k | Plain(k) && Held(w, k).Some? ensures Right(h, w.revision, k, Held(w, k).value) {
      if k != named {
        assert Held(v, k) == Held(w, k);
        assert Truth(h, v.revision, k) == Truth(h, f.revision, k);
      }
    }
  }

  lemma AppliedVBucket(h: History, cfg: Config, v: View, f: Frame)
    requires Coherent(h, v) && f.revision == v.revision + 1 && f.cursor == h.cursor(f.revision)
    requires v.snapshot.None? && f.event.VBucketDelta? && Describes(h, cfg.normalize, f)
    requires ApplyEntity(cfg, v, f).1
    ensures Coherent(h, ApplyEntity(cfg, v, f).0.(revision := f.revision, cursor := f.cursor))
  {
    var named := VBucketKey(f.event.accessKey, f.event.bucket);
    var w := ApplyEntity(cfg, v, f).0.(revision := f.revision, cursor := f.cursor);
    forall k | Plain(k) && Held(w, k).Some? ensures Right(h, w.revision, k, Held(w, k).value) {
      if k != named {
        if k.VBucketKey? && VBucketSlot(k.accessKey, k.bucket) == VBucketSlot(f.event.accessKey, f.event.bucket) {
          SlotInjective(k.accessKey, k.bucket, f.event.accessKey, f.event.bucket);
        }
        assert Held(v, k) == Held(w, k);
        assert Truth(h, v.revision, k) == Truth(h, f.revision, k);
      }
    }
  }

  lemma HostsFollow(before: map<string, nat>, d: string, remove: bool, revision: nat)
    ensures (if remove then before - {d} else before[d := revision]).Keys
         == if remove then before.Keys - {d} else before.Keys + {d}
  {
  }

  lemma SameRecords(h: History, v: View, w: View)
    requires Coherent(h, v) && w.credentials == v.credentials && w.vbuckets == v.vbuckets
    requires h.world(w.revision).records == h.world(v.revision).records && v.revision <= w.revision
    ensures forall k :: Plain(k) && Held(w, k).Some? ==> Right(h, w.revision, k, Held(w, k).value)
  {
  }

  lemma AppliedBaseHost(h: History, cfg: Config, v: View, f: Frame)
    requires Coherent(h, v) && f.revision == v.revision + 1 && f.cursor == h.cursor(f.revision)
    requires v.snapshot.None? && f.event.BaseHostDelta? && Describes(h, cfg.normalize, f)
    requires ApplyEntity(cfg, v, f).1
    ensures Coherent(h, ApplyEntity(cfg, v, f).0.(revision := f.revision, cursor := f.cursor))
  {
    var w := ApplyEntity(cfg, v, f).0.(revision := f.revision, cursor := f.cursor);
    var d := cfg.normalize(f.event.host).value;
    HostsFollow(v.baseHosts, d, f.event.remove, f.revision);
    SameRecords(h, v, w);
    assert w.baseHosts.Keys == h.world(w.revision).hosts;
  }

  /** An accepted live mutation moves caches and registry to the next world. */
  lemma AppliedEntity(h: History, cfg: Config, v: View, f: Frame)
    requires Coherent(h, v) && f.revision == v.revision + 1 && f.cursor == h.cursor(f.revision)
    requires v.snapshot.None? && Describes(h, cfg.normalize, f) && ApplyEntity(cfg, v, f).1
    ensures Coherent(h, ApplyEntity(cfg, v, f).0.(revision := f.revision, cursor := f.cursor))
    ensures SameControl(ApplyEntity(cfg, v, f).0, v)
  {
    match f.event
    case CredentialsDelta(_, _, _) => AppliedCredentials(h, cfg, v, f);
    case VBucketDelta(_, _, _, _) => AppliedVBucket(h, cfg, v, f);
    case BaseHostDelta(_, _) => AppliedBaseHost(h, cfg, v, f);
    case _ =>
  }

  ghost predicate SameControl(w: View, v: View) {
    && w.state == v.state && w.epoch == v.epoch && w.snapshot == v.snapshot
    && w.required == v.required && w.barrierRequired == v.barrierRequired
  }

  /** A rejected delta may drop a key but says nothing new. */
  lemma RejectedEntity(h: History, cfg: Config, v: View, f: Frame)
    requires !ApplyEntity(cfg, v, f).1
    ensures Shrinks(ApplyEntity(cfg, v, f).0, v)
  {
  }

  lemma CatchUpKeeps(h: History, v: View, u: View)
    requires Readiness(v) && SameControl(u, v) && v.snapshot.None?
    requires Coherent(h, u) && u.revision > v.revision && u.cursor != ""
    requires v.state == Ready || v.state == Synchronizing
    ensures Keeps(h, v, CatchUp(u), None)
    ensures v.barrierRequired ==> CatchUp(u).barrierRequired
  {
  }

  ghost predicate Keeps(h: History, v: View, w: View, sent: Option<Sent>) {
    Readiness(w) && Coherent(h, w) && Staged(w, sent) && Advances(v, w)
  }

  ghost predicate IsDelta(e: Event) {
    e.CredentialsDelta? || e.VBucketDelta? || e.BaseHostDelta?
  }

  lemma MutationKeeps(h: History, cfg: Config, v: View, f: Frame)
    requires Canonical(h) && Readiness(v) && Coherent(h, v) && v.snapshot.None?
    requires v.state == Ready || v.state == Synchronizing
    requires IsDelta(f.event) && Owes(h, cfg.normalize, None, f)
    ensures Keeps(h, v, OnMutation(cfg, v, f).0, None)
    ensures v.barrierRequired ==> OnMutation(cfg, v, f).0.barrierRequired
    ensures !OnMutation(cfg, v, f).1 ==> Stopped(OnMutation(cfg, v, f).0)
  {
    if v.revision == 0 || v.cursor == "" || f.revision != v.revision + 1 || f.cursor == "" || f.cursor == v.cursor {
      FailKeeps(h, v, None);
    } else {
      var applied := ApplyEntity(cfg, v, f).0;
      if ApplyEntity(cfg, v, f).1 {
        AppliedEntity(h, cfg, v, f);
        CatchUpKeeps(h, v, applied.(revision := f.revision, cursor := f.cursor));
      } else {
        RejectedEntity(h, cfg, v, f);
        ShrinksKeeps(h, applied, v, None);
        FailKeeps(h, applied, None);
        AdvancesTrans(v, applied, Fail(applied));
      }
    }
  }

  ghost predicate Stopped(v: View) {
    v.state == Disconnected || v.state == Shutdown
  }

  lemma OrFailKeeps(h: History, v: View, next: Option<View>, sent: Option<Sent>)
    requires Readiness(v) && Coherent(h, v)
    requires next.Some? ==> Keeps(h, v, next.value, sent)
    ensures var (w, ok) := OrFail(v, next);
            Keeps(h, v, w, sent) && ok == next.Some? && (!ok ==> Stopped(w) && w.barrierRequired)
  {
  }

  /** Every frame, accepted or not, keeps readiness and coherence. */
  lemma FrameKeeps(h: History, cfg: Config, v: View, f: Frame, sent: Option<Sent>)
    requires Canonical(h) && Readiness(v) && Coherent(h, v) && Staged(v, sent)
    requires Owes(h, cfg.normalize, sent, f)
    ensures var (w, ok) := ProcessWatch(cfg, v, f);
            && Keeps(h, v, w, NextSent(cfg.normalize, sent, f))
            && (!ok && !f.event.NoEvent? ==> Stopped(w))
            && (v.barrierRequired && !w.barrierRequired ==> f.event.Barrier? && ok)
  {
    var sent' := NextSent(cfg.normalize, sent, f);
    if f.event.NoEvent? {
    } else if v.state != Ready && v.state != Synchronizing {
      FailKeeps(h, v, sent');
    } else if f.event.SnapshotBegin? {
      var next := OnSnapshotBegin(v, f);
      if next.Some? { SnapshotBeginKeeps(h, cfg, v, f); }
      OrFailKeeps(h, v, next, sent');
    } else if f.event.Barrier? {
      var next := OnBarrier(v, f);
      if next.Some? { BarrierKeeps(h, cfg, v, f, sent); }
      OrFailKeeps(h, v, next, sent');
    } else if f.event.Heartbeat? {
      OrFailKeeps(h, v, OnHeartbeat(v, f), sent');
    } else if v.snapshot.Some? {
      var next := OnSnapshotEntry(cfg, v, f);
      if next.Some? { SnapshotEntryKeeps(h, cfg, v, f, sent); }
      OrFailKeeps(h, v, next, sent');
    } else {
      MutationKeeps(h, cfg, v, f);
    }
  }

  // ---------------------------------------------------------------- unary side

  lemma CheckUnaryKeeps(h: History, v: View, revision: nat, expected: nat, sent: Option<Sent>)
    requires Readiness(v) && Coherent(h, v) && Staged(v, sent) && expected <= v.revision
    ensures var (w, ok) := CheckUnary(v, revision, expected);
            && Readiness(w) && Coherent(h, w) && Staged(w, sent) && Advances(v, w)
            && (v.barrierRequired ==> w.barrierRequired)
            && (v.state != Shutdown ==> revision <= Max(w.revision, w.required))
            && (ok <==> revision == expected)
  {
    if v.state != Shutdown && revision < expected {
      ResyncKeeps(h, v, sent);
    } else if v.state != Shutdown && revision > expected {
      AwaitKeeps(h, v, revision, v.state == Ready, sent);
    }
  }

  lemma FinishCreateKeeps(h: History, v: View, captured: nat, reply: Option<nat>, sent: Option<Sent>)
    requires Readiness(v) && Coherent(h, v) && Staged(v, sent)
    ensures var (w, outcome) := FinishCreate(v, captured, reply);
            && Readiness(w) && Coherent(h, w) && Staged(w, sent) && Advances(v, w)
            && (v.barrierRequired ==> w.barrierRequired)
            && (outcome == Created && v.state != Shutdown ==>
                  reply.Some? && reply.value <= Max(w.revision, w.required))
  {
    if reply.None? || reply.value <= captured {
      ResyncKeeps(h, v, sent);
    } else if v.state != Shutdown {
      AwaitKeeps(h, v, reply.value, v.state == Ready || v.state == Synchronizing, sent);
    }
  }

  /**
   The commit section: its answer is the truth at the answer's own revision, and the
   branch for a candidate ahead of the watch is never taken.
   */
  lemma CommitKeeps(h: History, v: View, k: Key, revision: nat, epoch: nat, candidate: Entry,
                    first: Option<Entry>, second: Option<Entry>, sent: Option<Sent>)
    requires Readiness(v) && Coherent(h, v) && Staged(v, sent) && Plain(k)
    requires candidate.revision == revision <= v.revision
    requires candidate.answer == Truth(h, candidate.revision, k)
    requires Seen(v, k, first) && Seen(v, k, second)
    ensures !Arbitration(v.revision, revision, candidate, first, second).resync
    ensures var (w, r) := Commit(v, k, revision, epoch, candidate, first, second);
            && Readiness(w) && Coherent(h, w) && Staged(w, sent) && Advances(v, w)
            && w.barrierRequired == v.barrierRequired
            && (r.Value? ==> r.entry.answer == Truth(h, r.entry.revision, k))
  {
    var (w, r) := Commit(v, k, revision, epoch, candidate, first, second);
    if w != v {
      forall k' | Plain(k') && Held(w, k').Some? ensures Right(h, w.revision, k', Held(w, k').value) {
        if k' != k {
          if k.VBucketKey? && k'.VBucketKey?
             && VBucketSlot(k.accessKey, k.bucket) == VBucketSlot(k'.accessKey, k'.bucket) {
            SlotInjective(k.accessKey, k.bucket, k'.accessKey, k'.bucket);
          }
          assert Held(v, k') == Held(w, k');
        }
      }
    }
  }
}
