/** What holds along every run of the client among its callers. */
module Runs {
  import opened Common
  import opened Contract
  import opened Protocol
  import opened Coherence
  import opened System

  datatype Run = Run(states: seq<Sys>, steps: seq<Step>)

  ghost predicate IsRun(h: History, cfg: Config, r: Run) {
    && Canonical(h)
    && |r.states| == |r.steps| + 1
    && Init(r.states[0])
    && forall i :: 0 <= i < |r.steps| ==> Steps(h, cfg, r, i)
  }

  ghost predicate Steps(h: History, cfg: Config, r: Run, i: nat)
    requires i < |r.steps| && |r.states| == |r.steps| + 1
  {
    Next(h, cfg, r.states[i], r.states[i + 1], r.steps[i])
  }

  lemma {:induction false} Reachable(h: History, cfg: Config, r: Run, i: nat)
    requires IsRun(h, cfg, r) && i < |r.states|
    ensures Inv(h, r.states[i])
  {
    if i == 0 {
      InitInv(h, r.states[0]);
    } else {
      Reachable(h, cfg, r, i - 1);
      assert Steps(h, cfg, r, i - 1);
      NextKeeps(h, cfg, r.states[i - 1], r.states[i], r.steps[i - 1]);
    }
  }

  /** One step of a run moves the client forward; only a barrier settles an owed barrier. */
  lemma StepAt(h: History, cfg: Config, r: Run, i: nat)
    requires IsRun(h, cfg, r) && i < |r.steps|
    ensures Advances(r.states[i].client, r.states[i + 1].client)
    ensures r.states[i].client.barrierRequired && !r.states[i + 1].client.barrierRequired ==>
              AcceptsBarrier(cfg, r.states[i], r.steps[i])
  {
    Reachable(h, cfg, r, i);
    assert Steps(h, cfg, r, i);
    NextKeeps(h, cfg, r.states[i], r.states[i + 1], r.steps[i]);
  }

  /**
   Main result: in every reachable state, connected or not, each cached answer is the
   control plane's record at the accepted revision and the registry is its base-host set;
   a staged snapshot leaves the caches empty and the client unready.
   */
  lemma CacheCoherence(h: History, cfg: Config, r: Run, i: nat)
    requires IsRun(h, cfg, r) && i < |r.states|
    ensures var v := r.states[i].client;
      && (forall a :: a in v.credentials ==>
            v.credentials[a].answer == Truth(h, v.revision, CredentialKey(a)))
      && (forall a, b :: '/' !in a && '/' !in b && VBucketSlot(a, b) in v.vbuckets ==>
            v.vbuckets[VBucketSlot(a, b)].answer == Truth(h, v.revision, VBucketKey(a, b)))
      && v.baseHosts.Keys == h.world(v.revision).hosts
      && (v.snapshot.Some? ==> v.credentials == map[] && v.vbuckets == map[] && v.state != Ready)
  {
    Reachable(h, cfg, r, i);
    var v := r.states[i].client;
    forall a | a in v.credentials
      ensures v.credentials[a].answer == Truth(h, v.revision, CredentialKey(a))
    {
      assert Right(h, v.revision, CredentialKey(a), Held(v, CredentialKey(a)).value);
    }
    forall a, b | '/' !in a && '/' !in b && VBucketSlot(a, b) in v.vbuckets
      ensures v.vbuckets[VBucketSlot(a, b)].answer == Truth(h, v.revision, VBucketKey(a, b))
    {
      assert Right(h, v.revision, VBucketKey(a, b), Held(v, VBucketKey(a, b)).value);
    }
  }

  /**
   The registry changes only by an accepted snapshot barrier or an accepted live base-host
   event, and a barrier installs exactly what was staged: an abandoned snapshot leaves no trace.
   */
  lemma RegistryChangesOnlyOnCommit(h: History, cfg: Config, r: Run, i: nat)
    requires IsRun(h, cfg, r) && i < |r.steps|
    requires r.states[i].client.baseHosts != r.states[i + 1].client.baseHosts
    ensures r.steps[i].Watch? && ProcessWatch(cfg, r.states[i].client, r.steps[i].frame).1
    ensures RegistryCommit(r.states[i].client, r.states[i + 1].client, r.steps[i].frame)
  {
    assert Steps(h, cfg, r, i);
    RegistryStep(h, cfg, r.states[i], r.states[i + 1], r.steps[i]);
  }

  ghost predicate RegistryCommit(before: View, after: View, f: Frame) {
    || (f.event.Barrier? && before.snapshot.Some? && after.baseHosts == before.snapshot.value.baseHosts)
    || (f.event.BaseHostDelta? && before.snapshot.None? && after.revision == before.revision + 1)
  }

  lemma RegistryMutation(cfg: Config, v: View, f: Frame)
    requires v.snapshot.None?
    ensures var (w, ok) := OnMutation(cfg, v, f); w.baseHosts == v.baseHosts || (ok && RegistryCommit(v, w, f))
  {
  }

  lemma RegistryBarrier(v: View, f: Frame)
    requires f.event.Barrier? && OnBarrier(v, f).Some?
    ensures var w := OnBarrier(v, f).value; w.baseHosts == v.baseHosts || RegistryCommit(v, w, f)
  {
  }

  lemma RegistryFrame(cfg: Config, v: View, f: Frame)
    ensures var (w, ok) := ProcessWatch(cfg, v, f); w.baseHosts == v.baseHosts || (ok && RegistryCommit(v, w, f))
  {
    assert Fail(v).baseHosts == v.baseHosts;
    if f.event.NoEvent? || (v.state != Ready && v.state != Synchronizing) {
    } else if f.event.Barrier? {
      if OnBarrier(v, f).Some? { RegistryBarrier(v, f); }
    } else if f.event.SnapshotBegin? || f.event.Heartbeat? {
    } else if v.snapshot.None? {
      RegistryMutation(cfg, v, f);
    }
  }

  lemma RegistryStep(h: History, cfg: Config, s: Sys, s': Sys, step: Step)
    requires Next(h, cfg, s, s', step)
    ensures s'.client.baseHosts == s.client.baseHosts
         || (step.Watch? && ProcessWatch(cfg, s.client, step.frame).1
             && RegistryCommit(s.client, s'.client, step.frame))
  {
    if step.Watch? {
      RegistryFrame(cfg, s.client, step.frame);
    } else if IsReply(step) {
      ReplyFrame(h, s, s', step);
    } else if !IsClientStep(step) {
      CallerFrame(s, s', step);
    }
  }

  // ---------------------------------------------------------------- progress

  lemma {:induction false} Progress(h: History, cfg: Config, r: Run, i: nat, j: nat)
    requires IsRun(h, cfg, r) && i <= j < |r.states|
    ensures Advances(r.states[i].client, r.states[j].client)
    decreases j
  {
    if i < j {
      Progress(h, cfg, r, i, j - 1);
      StepAt(h, cfg, r, j - 1);
      AdvancesTrans(r.states[i].client, r.states[j - 1].client, r.states[j].client);
    }
  }

  /**
   Main result: readiness over all interleavings.  Ready means no staged snapshot, no owed
   barrier, no target, and an accepted pair; revisions never go back, leaving Ready changes
   the epoch for good, and Shutdown is final.
   */
  lemma ReadinessOverRuns(h: History, cfg: Config, r: Run, i: nat, j: nat)
    requires IsRun(h, cfg, r) && i <= j < |r.states|
    ensures var v, w := r.states[i].client, r.states[j].client;
      && (v.state == Ready ==>
            v.snapshot.None? && !v.barrierRequired && v.required == 0 && v.revision != 0 && v.cursor != "")
      && v.revision <= w.revision
      && (v.state == Ready && w.state != Ready ==> v.epoch < w.epoch)
      && (v.state == Shutdown ==> w.state == Shutdown)
  {
    Reachable(h, cfg, r, i);
    Progress(h, cfg, r, i, j);
  }

  ghost predicate AcceptsBarrier(cfg: Config, s: Sys, step: Step) {
    step.Watch? && step.frame.event.Barrier? && ProcessWatch(cfg, s.client, step.frame).1
  }

  lemma {:induction false} BarrierBetween(h: History, cfg: Config, r: Run, i: nat, j: nat)
    requires IsRun(h, cfg, r) && i <= j < |r.states|
    requires r.states[i].client.barrierRequired && !r.states[j].client.barrierRequired
    ensures exists k :: i <= k < j && AcceptsBarrier(cfg, r.states[k], r.steps[k])
    decreases j
  {
    StepAt(h, cfg, r, j - 1);
    if !r.states[j - 1].client.barrierRequired {
      BarrierBetween(h, cfg, r, i, j - 1);
    }
  }

  /** After any disconnect, Ready comes back only after an accepted barrier. */
  lemma ReadyOnlyAfterBarrier(h: History, cfg: Config, r: Run, i: nat, j: nat)
    requires IsRun(h, cfg, r) && i <= j < |r.states|
    requires var s := r.states[i].client.state; s == Startup || s == Connecting || s == Disconnected
    requires r.states[j].client.state == Ready
    ensures exists k :: i <= k < j && AcceptsBarrier(cfg, r.states[k], r.steps[k])
  {
    Reachable(h, cfg, r, i);
    Reachable(h, cfg, r, j);
    BarrierBetween(h, cfg, r, i, j);
  }

  // ------------------------------------------------------------ catch-up fence

  /** The revision a step reveals to a running client, if it reveals one. */
  ghost function Revealed(s: Sys, step: Step): Option<nat> {
    if s.client.state == Shutdown then None
    else match step
      case LoadReply(_, reply) => Some(reply.revision)
      case ListReply(_, revision) => Some(revision)
      case CreateReply(id, create) =>
        if id in s.unary && FinishCreate(s.client, s.unary[id], create).1 == Created then create else None
      case _ => None
  }

  lemma {:induction false} FenceGrows(h: History, cfg: Config, r: Run, i: nat, j: nat)
    requires IsRun(h, cfg, r) && i <= j < |r.states|
    ensures r.states[i].fence <= r.states[j].fence
    decreases j
  {
    if i < j {
      FenceGrows(h, cfg, r, i, j - 1);
      assert Steps(h, cfg, r, j - 1);
      StepFrame(h, cfg, r.states[j - 1], r.states[j], r.steps[j - 1]);
    }
  }

  /**
   Main result: once a create or a unary reply reveals a revision, no later Ready state is
   behind it, whatever disconnects, replays, snapshots and lower targets follow.
   */
  lemma CatchUpFence(h: History, cfg: Config, r: Run, i: nat, j: nat)
    requires IsRun(h, cfg, r) && i < j < |r.states|
    requires Revealed(r.states[i], r.steps[i]).Some? && r.states[j].client.state == Ready
    ensures Revealed(r.states[i], r.steps[i]).value <= r.states[j].client.revision
  {
    assert Steps(h, cfg, r, i);
    assert Revealed(r.states[i], r.steps[i]).value <= r.states[i + 1].fence;
    FenceGrows(h, cfg, r, i + 1, j);
    Reachable(h, cfg, r, j);
  }

  // ------------------------------------------------------- resolution stamps

  /** Main result: an accepted stamp was current at every instant since it was taken. */
  lemma NoAba(h: History, cfg: Config, r: Run, i: nat, k: nat, j: nat, revision: nat, epoch: nat)
    requires IsRun(h, cfg, r) && i <= k <= j < |r.states|
    requires StillCurrent(r.states[i].client, revision, epoch)
    requires StillCurrent(r.states[j].client, revision, epoch)
    ensures StillCurrent(r.states[k].client, revision, epoch)
  {
    Progress(h, cfg, r, i, k);
    Progress(h, cfg, r, k, j);
  }

  // --------------------------------------------------------- linearizability

  ghost predicate Answers(r: Run, i: nat, id: nat, k: Key, answer: Option<Record>)
    requires i < |r.steps| && |r.states| == |r.steps| + 1
  {
    && (r.steps[i] == CheckHit(id) || r.steps[i] == CheckLoaded(id))
    && id in r.states[i + 1].lookups
    && r.states[i + 1].lookups[id] == Answered(k, answer)
  }

  lemma {:induction false} BegunBefore(h: History, cfg: Config, r: Run, i: nat, id: nat)
    requires IsRun(h, cfg, r) && i < |r.states| && id in r.states[i].lookups
    ensures exists b :: 0 <= b < i && r.steps[b] == Begin(id, r.states[i].lookups[id].key)
  {
    if i > 0 {
      assert Steps(h, cfg, r, i - 1);
      StepFrame(h, cfg, r.states[i - 1], r.states[i], r.steps[i - 1]);
      if id in r.states[i - 1].lookups {
        BegunBefore(h, cfg, r, i - 1, id);
      }
    }
  }

  lemma StepFrame(h: History, cfg: Config, s: Sys, s': Sys, step: Step)
    requires Next(h, cfg, s, s', step)
    ensures s.fence <= s'.fence
    ensures forall id :: id in s.lookups ==> id in s'.lookups && s'.lookups[id].key == s.lookups[id].key
    ensures forall id :: id in s'.lookups && id !in s.lookups ==> step == Begin(id, s'.lookups[id].key)
  {
    if IsClientStep(step) {
      ClientFrame(h, cfg, s, s', step);
    } else if IsReply(step) {
      ReplyFrame(h, s, s', step);
    } else {
      CallerFrame(s, s', step);
    }
  }

  /**
   Main result: an answer, positive or negative, from the cache, a fresh load or another
   caller's load, is the control plane's record at the revision the client was Ready at,
   at an instant between the call's begin and its return.
   */
  lemma LookupsAreLinearizable(h: History, cfg: Config, r: Run, i: nat, id: nat, k: Key, answer: Option<Record>)
    requires IsRun(h, cfg, r) && i < |r.steps| && Answers(r, i, id, k, answer)
    ensures r.states[i].client.state == Ready
    ensures answer == Truth(h, r.states[i].client.revision, k)
    ensures exists b :: 0 <= b < i && r.steps[b] == Begin(id, k)
  {
    var s, s' := r.states[i], r.states[i + 1];
    Reachable(h, cfg, r, i);
    assert Steps(h, cfg, r, i);
    assert LookupOk(h, s.client, s.loads, s.lookups[id]);
    BegunBefore(h, cfg, r, i, id);
  }

  /** The loader's branch for a candidate ahead of the watch is never taken. */
  lemma CandidateNeverAhead(h: History, cfg: Config, r: Run, i: nat)
    requires IsRun(h, cfg, r) && i < |r.steps| && r.steps[i].CommitLoad?
    ensures r.steps[i].load in r.states[i].loads && r.states[i].loads[r.steps[i].load].phase.Parsed?
    ensures r.states[i].loads[r.steps[i].load].phase.candidate.revision <= r.states[i].client.revision
  {
    Reachable(h, cfg, r, i);
    assert Steps(h, cfg, r, i);
    assert LoadOk(h, r.states[i].client, r.states[i].loads[r.steps[i].load]);
  }

  // ------------------------------------------------ one request through S3Auth

  /** A lookup of the run and the step that answered it. */
  datatype Answer = Answer(id: nat, step: nat, record: Option<Record>)

  /** The resolver steps of one dispatched request, as positions in a run. */
  datatype Request = Request(
    accessKey: string, bucket: string,
    begun: nat,                    // BeginResolution
    credential: Answer,            // LookupCredentials
    hostsAt: nat,                  // LookupBaseHost
    mapping: Option<Answer>,       // LookupVBucket; listing and creating buckets make none
    validated: nat)                // ValidateResolution, right before dispatch

  ghost predicate Dispatched(r: Run, q: Request)
    requires |r.states| == |r.steps| + 1
  {
    && q.begun <= q.credential.step <= q.hostsAt <= q.validated < |r.states| && q.credential.step < |r.steps|
    && Answers(r, q.credential.step, q.credential.id, CredentialKey(q.accessKey), q.credential.record)
    && r.states[q.hostsAt].client.state == Ready
    && (q.mapping.Some? ==>
          var m := q.mapping.value;
          q.hostsAt <= m.step < q.validated && Answers(r, m.step, m.id, VBucketKey(q.accessKey, q.bucket), m.record))
    && var stamp := r.states[q.begun].client;
       stamp.state == Ready && StillCurrent(r.states[q.validated].client, stamp.revision, stamp.epoch)
  }

  /**
   Main result: a dispatched request used credentials, base hosts and mapping, if it needs
   one, of one single revision, and the client was Ready at it from the stamp to the dispatch.
   */
  lemma RequestSeesOneRevision(h: History, cfg: Config, r: Run, q: Request)
    requires IsRun(h, cfg, r) && Dispatched(r, q)
    ensures var revision := r.states[q.begun].client.revision;
      && q.credential.record == Truth(h, revision, CredentialKey(q.accessKey))
      && r.states[q.hostsAt].client.baseHosts.Keys == h.world(revision).hosts
      && (q.mapping.Some? ==> q.mapping.value.record == Truth(h, revision, VBucketKey(q.accessKey, q.bucket)))
      && forall k :: q.begun <= k <= q.validated ==>
           r.states[k].client.state == Ready && r.states[k].client.revision == revision
  {
    var stamp := r.states[q.begun].client;
    forall k | q.begun <= k <= q.validated
      ensures StillCurrent(r.states[k].client, stamp.revision, stamp.epoch)
    {
      NoAba(h, cfg, r, q.begun, k, q.validated, stamp.revision, stamp.epoch);
    }
    var c := q.credential;
    LookupsAreLinearizable(h, cfg, r, c.step, c.id, CredentialKey(q.accessKey), c.record);
    CacheCoherence(h, cfg, r, q.hostsAt);
    if q.mapping.Some? {
      var m := q.mapping.value;
      LookupsAreLinearizable(h, cfg, r, m.step, m.id, VBucketKey(q.accessKey, q.bucket), m.record);
    }
  }

  // ------------------------------------------------- an honest server gets through

  function Feed(cfg: Config, v: View, frames: seq<Frame>): (View, bool)
    decreases |frames|
  {
    if frames == [] then (v, true)
    else
      var (w, ok) := ProcessWatch(cfg, v, frames[0]);
      if ok then Feed(cfg, w, frames[1..]) else (w, false)
  }

  function Entries(hosts: seq<string>, revision: nat): seq<Frame> {
    if hosts == [] then [] else [Frame(BaseHostDelta(hosts[0], false), revision, "")] + Entries(hosts[1..], revision)
  }

  function HonestSnapshot(hosts: seq<string>, revision: nat, cursor: string): seq<Frame> {
    [Frame(SnapshotBegin, revision, "")] + Entries(hosts, revision) + [Frame(Barrier, revision, cursor)]
  }

  function StagedHosts(staged: map<string, nat>, hosts: seq<string>, revision: nat): map<string, nat>
    decreases |hosts|
  {
    if hosts == [] then staged else StagedHosts(staged[hosts[0] := revision], hosts[1..], revision)
  }

  lemma {:induction false} StagedKeys(staged: map<string, nat>, hosts: seq<string>, revision: nat)
    ensures StagedHosts(staged, hosts, revision).Keys == staged.Keys + (set d | d in hosts)
    decreases |hosts|
  {
    if hosts != [] {
      StagedKeys(staged[hosts[0] := revision], hosts[1..], revision);
      assert hosts == [hosts[0]] + hosts[1..];
      assert staged[hosts[0] := revision].Keys == staged.Keys + {hosts[0]};
    }
  }

  function WithStaged(v: View, staged: map<string, nat>): View
    requires v.snapshot.Some?
  {
    v.(snapshot := Some(v.snapshot.value.(baseHosts := staged)))
  }

  lemma EntryAccepted(cfg: Config, v: View, d: string, revision: nat)
    requires v.state == Synchronizing && v.snapshot.Some? && v.snapshot.value.revision == revision > 0
    requires cfg.normalize(d) == Some(d) && d !in v.snapshot.value.baseHosts
    requires |v.snapshot.value.baseHosts| < cfg.baseHostMax
    ensures ProcessWatch(cfg, v, Frame(BaseHostDelta(d, false), revision, ""))
         == (WithStaged(v, v.snapshot.value.baseHosts[d := revision]), true)
  {
  }

  lemma {:induction false} FeedEntries(cfg: Config, v: View, hosts: seq<string>, revision: nat, rest: seq<Frame>)
    requires v.state == Synchronizing && v.snapshot.Some? && v.snapshot.value.revision == revision > 0
    requires NoDuplicates(hosts)
    requires forall d :: d in hosts ==> cfg.normalize(d) == Some(d) && d !in v.snapshot.value.baseHosts
    requires |v.snapshot.value.baseHosts| + |hosts| <= cfg.baseHostMax
    ensures Feed(cfg, v, Entries(hosts, revision) + rest)
         == Feed(cfg, WithStaged(v, StagedHosts(v.snapshot.value.baseHosts, hosts, revision)), rest)
    decreases |hosts|
  {
    var s := v.snapshot.value;
    var frames := Entries(hosts, revision) + rest;
    if hosts == [] {
      assert frames == rest;
    } else {
      var d := hosts[0];
      var next := s.baseHosts[d := revision];
      assert next.Keys == s.baseHosts.Keys + {d};
      EntryAccepted(cfg, v, d, revision);
      assert frames[0] == Frame(BaseHostDelta(d, false), revision, "");
      assert frames[1..] == Entries(hosts[1..], revision) + rest;
      assert d !in hosts[1..];
      FeedEntries(cfg, WithStaged(v, next), hosts[1..], revision, rest);
    }
  }

  /**
   No check rejects an honest server: from any reachable view with an open stream, a full
   snapshot at any revision not behind the client is accepted whole and makes the client
   Ready, or leaves it catching up exactly when the fence is still ahead.
   */
  lemma HonestSnapshotIsAccepted(h: History, cfg: Config, v: View, hosts: seq<string>, revision: nat)
    requires Canonical(h) && Readiness(v) && Coherent(h, v)
    requires v.state == Synchronizing && v.snapshot.None?
    requires 0 < revision && v.revision <= revision
    requires NoDuplicates(hosts) && |hosts| <= cfg.baseHostMax
    requires forall d :: d in hosts ==> cfg.normalize(d) == Some(d)
    ensures var (w, ok) := Feed(cfg, v, HonestSnapshot(hosts, revision, h.cursor(revision)));
      && ok && w.revision == revision && w.cursor == h.cursor(revision)
      && w.baseHosts.Keys == (set d | d in hosts)
      && (w.state == Ready <==> v.required <= revision)
      && (w.state != Ready ==> w.state == Synchronizing && w.required == v.required)
  {
    var begin, barrier := Frame(SnapshotBegin, revision, ""), Frame(Barrier, revision, h.cursor(revision));
    var frames := HonestSnapshot(hosts, revision, h.cursor(revision));
    assert frames[0] == begin && frames[1..] == Entries(hosts, revision) + [barrier];
    var u := OnSnapshotBegin(v, begin).value;
    FeedEntries(cfg, u, hosts, revision, [barrier]);
    StagedKeys(map[], hosts, revision);
    HonestBarrier(h, cfg, v, u, WithStaged(u, StagedHosts(map[], hosts, revision)), barrier);
  }

  lemma HonestBarrier(h: History, cfg: Config, v: View, u: View, t: View, barrier: Frame)
    requires Canonical(h) && Readiness(v) && Coherent(h, v) && v.state == Synchronizing && v.snapshot.None?
    requires barrier == Frame(Barrier, barrier.revision, h.cursor(barrier.revision))
    requires 0 < barrier.revision && v.revision <= barrier.revision
    requires OnSnapshotBegin(v, Frame(SnapshotBegin, barrier.revision, "")) == Some(u)
    requires t.snapshot.Some? && t == WithStaged(u, t.snapshot.value.baseHosts)
    ensures var (w, ok) := Feed(cfg, t, [barrier]);
      && ok && w.revision == barrier.revision && w.cursor == barrier.cursor
      && w.baseHosts == t.snapshot.value.baseHosts
      && (w.state == Ready <==> v.required <= barrier.revision)
      && (w.state != Ready ==> w.state == Synchronizing && w.required == v.required)
  {
  }

  /** A live mutation no check of its own can refuse: names, lifetime and domain are in order. */
  ghost predicate WellFormed(cfg: Config, e: Event) {
    match e
    case CredentialsDelta(a, remove, ttl) => a != "" && DeltaOk(remove, ttl)
    case VBucketDelta(a, b, remove, ttl) => a != "" && b != "" && DeltaOk(remove, ttl)
    case BaseHostDelta(host, _) => cfg.normalize(host).Some?
    case _ => false
  }

  /**
   What a server may send while it replays: the next revisions one by one, as the control plane
   lived them and within the registry bound, with heartbeats (None) anywhere between.
   */
  ghost predicate HonestReplay(h: History, cfg: Config, from: nat, items: seq<Option<Event>>)
    decreases |items|
  {
    items != [] ==>
      if items[0].None? then HonestReplay(h, cfg, from, items[1..])
      else
        && WellFormed(cfg, items[0].value)
        && Describes(h, cfg.normalize, Frame(items[0].value, from + 1, h.cursor(from + 1)))
        && |h.world(from + 1).hosts| <= cfg.baseHostMax
        && HonestReplay(h, cfg, from + 1, items[1..])
  }

  /** The revision a replay ends at. */
  function LastOf(from: nat, items: seq<Option<Event>>): nat
    decreases |items|
  {
    if items == [] then from else LastOf(if items[0].None? then from else from + 1, items[1..])
  }

  function Replay(h: History, from: nat, items: seq<Option<Event>>): seq<Frame>
    decreases |items|
  {
    if items == [] then []
    else match items[0]
      case None => [Frame(Heartbeat, from, h.cursor(from))] + Replay(h, from, items[1..])
      case Some(e) => [Frame(e, from + 1, h.cursor(from + 1))] + Replay(h, from + 1, items[1..])
  }

  /** A client that is replaying after a reconnect. */
  ghost predicate Resuming(h: History, v: View) {
    && Readiness(v) && Coherent(h, v)
    && v.state == Synchronizing && v.snapshot.None? && v.barrierRequired && 0 < v.revision
  }

  /** The registry can take a described host within the bound. */
  lemma HostFits(h: History, cfg: Config, v: View, host: string)
    requires Coherent(h, v) && |h.world(v.revision + 1).hosts| <= cfg.baseHostMax && cfg.normalize(host).Some?
    requires h.world(v.revision + 1).hosts == h.world(v.revision).hosts + {cfg.normalize(host).value}
    ensures cfg.normalize(host).value in v.baseHosts || |v.baseHosts| < cfg.baseHostMax
  {
    var d := cfg.normalize(host).value;
    assert |v.baseHosts| == |v.baseHosts.Keys|;
    if d !in v.baseHosts {
      assert |v.baseHosts.Keys + {d}| == |v.baseHosts.Keys| + 1;
    }
  }

  lemma EntityAccepted(h: History, cfg: Config, v: View, f: Frame)
    requires Coherent(h, v) && f.revision == v.revision + 1 && WellFormed(cfg, f.event)
    requires Describes(h, cfg.normalize, f) && |h.world(f.revision).hosts| <= cfg.baseHostMax
    ensures ApplyEntity(cfg, v, f).1
    ensures SameControl(v, ApplyEntity(cfg, v, f).0)
  {
    if f.event.BaseHostDelta? && !f.event.remove {
      HostFits(h, cfg, v, f.event.host);
    }
  }

  /** Revision and target after one accepted revision of a replay. */
  ghost predicate OneOn(v: View, w: View) {
    w.revision == v.revision + 1 && w.required == if w.revision < v.required then v.required else 0
  }

  lemma MutationAccepted(h: History, cfg: Config, v: View, f: Frame) returns (w: View)
    requires Canonical(h) && Resuming(h, v) && f == Frame(f.event, v.revision + 1, h.cursor(v.revision + 1))
    requires WellFormed(cfg, f.event) && Describes(h, cfg.normalize, f)
    requires |h.world(f.revision).hosts| <= cfg.baseHostMax
    ensures ProcessWatch(cfg, v, f) == (w, true) && Resuming(h, w) && OneOn(v, w)
  {
    EntityAccepted(h, cfg, v, f);
    MutationKeeps(h, cfg, v, f);
    w := ProcessWatch(cfg, v, f).0;
  }

  /** What feeding a whole replay and its barrier at `last` must have done. */
  ghost predicate CaughtUp(h: History, required: nat, last: nat, w: View, ok: bool) {
    && ok && w.revision == last && w.cursor == h.cursor(last) && Coherent(h, w)
    && (w.state == Ready <==> required <= last)
    && (w.state != Ready ==> w.state == Synchronizing && w.required == required)
  }

  lemma FeedOne(cfg: Config, v: View, f: Frame, w: View, rest: seq<Frame>)
    requires ProcessWatch(cfg, v, f) == (w, true)
    ensures Feed(cfg, v, [f] + rest) == Feed(cfg, w, rest)
  {
    assert ([f] + rest)[1..] == rest;
  }

  /** Feeding `frames` catches the client up with `last`. */
  ghost predicate Resumes(h: History, cfg: Config, v: View, frames: seq<Frame>, last: nat) {
    CaughtUp(h, v.required, last, Feed(cfg, v, frames).0, Feed(cfg, v, frames).1)
  }

  lemma ResumesEarlier(h: History, cfg: Config, v: View, f: Frame, w: View, rest: seq<Frame>, last: nat)
    requires ProcessWatch(cfg, v, f) == (w, true) && OneOn(v, w) && w.revision <= last
    requires Resumes(h, cfg, w, rest, last)
    ensures Resumes(h, cfg, v, [f] + rest, last)
  {
    FeedOne(cfg, v, f, w, rest);
  }

  lemma ResumeBarrier(h: History, cfg: Config, v: View)
    requires Canonical(h) && Resuming(h, v)
    ensures Resumes(h, cfg, v, [Frame(Barrier, v.revision, h.cursor(v.revision))], v.revision)
  {
    var barrier := Frame(Barrier, v.revision, h.cursor(v.revision));
    BarrierKeeps(h, cfg, v, barrier, None);
    FeedOne(cfg, v, barrier, ProcessWatch(cfg, v, barrier).0, []);
    assert [barrier] + [] == [barrier];
  }

  lemma BeatAccepted(h: History, cfg: Config, v: View)
    requires Canonical(h) && Resuming(h, v)
    ensures ProcessWatch(cfg, v, Frame(Heartbeat, v.revision, h.cursor(v.revision))) == (v, true)
  {
  }

  lemma ResumesAfterBeat(h: History, cfg: Config, v: View, rest: seq<Frame>, last: nat)
    requires Canonical(h) && Resuming(h, v) && Resumes(h, cfg, v, rest, last)
    ensures Resumes(h, cfg, v, [Frame(Heartbeat, v.revision, h.cursor(v.revision))] + rest, last)
  {
    BeatAccepted(h, cfg, v);
    FeedOne(cfg, v, Frame(Heartbeat, v.revision, h.cursor(v.revision)), v, rest);
  }

  /** The frames of a resume: every missed revision up to `last`, then the barrier. */
  function HonestResume(h: History, from: nat, items: seq<Option<Event>>, last: nat): seq<Frame> {
    Replay(h, from, items) + [Frame(Barrier, last, h.cursor(last))]
  }

  lemma ResumeFirst(h: History, from: nat, items: seq<Option<Event>>, last: nat)
    requires items != []
    ensures HonestResume(h, from, items, last)
         == match items[0]
            case None => [Frame(Heartbeat, from, h.cursor(from))] + HonestResume(h, from, items[1..], last)
            case Some(e) => [Frame(e, from + 1, h.cursor(from + 1))] + HonestResume(h, from + 1, items[1..], last)
  {
  }

  lemma {:induction false} LastIsAhead(from: nat, items: seq<Option<Event>>)
    ensures from <= LastOf(from, items)
    decreases |items|
  {
    if items != [] { LastIsAhead(if items[0].None? then from else from + 1, items[1..]); }
  }

  /**
   Nor does any check reject an honest resume: replaying the revisions the client missed,
   whatever they changed and with heartbeats anywhere between, and then the barrier, is accepted
   whole and makes the client Ready at the last of them, or leaves it catching up exactly when
   the fence is still ahead.
   */
  lemma {:induction false} HonestResumeIsAccepted(h: History, cfg: Config, v: View, items: seq<Option<Event>>, last: nat)
    requires Canonical(h) && Resuming(h, v) && HonestReplay(h, cfg, v.revision, items)
    requires last == LastOf(v.revision, items)
    ensures Resumes(h, cfg, v, HonestResume(h, v.revision, items, last), last)
    decreases |items|
  {
    if items == [] {
      ResumeBarrier(h, cfg, v);
      var barrier := Frame(Barrier, last, h.cursor(last));
      assert Replay(h, v.revision, items) + [barrier] == [barrier];
    } else {
      ResumeFirst(h, v.revision, items, last);
      match items[0] {
        case None =>
          HonestResumeIsAccepted(h, cfg, v, items[1..], last);
          ResumesAfterBeat(h, cfg, v, HonestResume(h, v.revision, items[1..], last), last);
        case Some(e) =>
          var f := Frame(e, v.revision + 1, h.cursor(v.revision + 1));
          var w := MutationAccepted(h, cfg, v, f);
          HonestResumeIsAccepted(h, cfg, w, items[1..], last);
          LastIsAhead(w.revision, items[1..]);
          ResumesEarlier(h, cfg, v, f, w, HonestResume(h, w.revision, items[1..], last), last);
      }
    }
  }

  // ------------------------------------------------------------- reconnecting

  /** A client whose stream was retired, as it is before it opens the next one. */
  ghost predicate Retired(h: History, v: View) {
    && Readiness(v) && Coherent(h, v) && v.snapshot.None?
    && (v.state == Startup || v.state == Connecting || v.state == Disconnected)
  }

  /** Opening the next stream lets an honest server bring the client back, by snapshot or by resume. */
  lemma ReconnectRecovers(h: History, cfg: Config, v: View, hosts: seq<string>, revision: nat,
                          items: seq<Option<Event>>)
    requires Canonical(h) && Retired(h, v)
    ensures && 0 < revision && v.revision <= revision && NoDuplicates(hosts) && |hosts| <= cfg.baseHostMax
            && (forall d :: d in hosts ==> cfg.normalize(d) == Some(d))
            ==> var (w, ok) := Feed(cfg, Reopen(v), HonestSnapshot(hosts, revision, h.cursor(revision)));
                ok && w.revision == revision && (w.state == Ready <==> v.required <= revision)
    ensures 0 < v.revision && HonestReplay(h, cfg, v.revision, items) ==>
      var last := LastOf(v.revision, items);
      Resumes(h, cfg, Reopen(v), HonestResume(h, v.revision, items, last), last)
  {
    ReopenKeeps(h, v);
    var u := Reopen(v);
    assert u.state == Synchronizing && u.revision == v.revision && u.required == v.required;
    if && 0 < revision && v.revision <= revision && NoDuplicates(hosts) && |hosts| <= cfg.baseHostMax
       && (forall d :: d in hosts ==> cfg.normalize(d) == Some(d))
    {
      HonestSnapshotIsAccepted(h, cfg, u, hosts, revision);
    }
    if 0 < v.revision && HonestReplay(h, cfg, v.revision, items) {
      HonestResumeIsAccepted(h, cfg, u, items, LastOf(v.revision, items));
    }
  }
}
