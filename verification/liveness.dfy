/** What the client does grant: which frames, replies and loads go through, and what they touch. */
module Liveness {
  import opened Common
  import opened Contract
  import opened Protocol
  import opened Coherence
  import opened System
  import opened Runs

  // ------------------------------------------------------------------- frames

  ghost predicate Running(v: View) {
    v.state == Ready || v.state == Synchronizing
  }

  /** A heartbeat is accepted exactly when it repeats the accepted pair, and then changes nothing. */
  lemma HeartbeatsExactly(h: History, cfg: Config, v: View, f: Frame)
    requires Coherent(h, v) && Running(v) && v.snapshot.None? && 0 < v.revision && f.event.Heartbeat?
    requires Canonical(h)
    ensures ProcessWatch(cfg, v, f).1 <==> f.revision == v.revision && f.cursor == h.cursor(v.revision)
    ensures ProcessWatch(cfg, v, f).1 ==> ProcessWatch(cfg, v, f).0 == v
  {
  }

  /**
   The rules of the stream, for any server: revisions are contiguous, a cursor belongs to one
   revision, a barrier or heartbeat repeats a pair, a snapshot holds base hosts only and never
   goes back.  A frame that breaks one is refused, and a refusal stops the client.
   */
  ghost predicate Obeys(v: View, f: Frame, w: View) {
    match f.event
    case NoEvent => false
    case SnapshotBegin => v.snapshot.None? && f.cursor == "" && 0 < f.revision && v.revision <= f.revision
    case Heartbeat => v.snapshot.None? && f.revision == v.revision && f.cursor == v.cursor != ""
    case Barrier =>
      && 0 < f.revision && f.cursor != "" && w.revision == f.revision && w.cursor == f.cursor
      && (v.snapshot.None? ==> f.revision == v.revision && f.cursor == v.cursor)
      && (v.snapshot.Some? ==> f.revision == v.snapshot.value.revision)
    case _ =>
      if v.snapshot.Some? then
        f.event.BaseHostDelta? && !f.event.remove && f.cursor == "" && 0 < f.revision <= v.snapshot.value.revision
      else
        && 0 < v.revision && f.revision == v.revision + 1 == w.revision && f.cursor == w.cursor
        && f.cursor != "" && f.cursor != v.cursor
  }

  /** A refused frame stops the client and leaves what it had accepted, the staged snapshot included. */
  ghost predicate Refused(v: View, w: View) {
    && w.state == Disconnected && w.barrierRequired
    && w.revision == v.revision && w.cursor == v.cursor && w.snapshot == v.snapshot && w.baseHosts == v.baseHosts
  }

  lemma RefusedByFail(v: View)
    requires Running(v)
    ensures Refused(v, Fail(v))
  {
  }

  lemma ControlObeys(cfg: Config, v: View, f: Frame)
    requires Running(v) && !IsDelta(f.event)
    ensures ProcessWatch(cfg, v, f).1 ==> Obeys(v, f, ProcessWatch(cfg, v, f).0)
  {
  }

  lemma DeltaObeys(cfg: Config, v: View, f: Frame)
    requires Running(v) && IsDelta(f.event)
    ensures ProcessWatch(cfg, v, f).1 ==> Obeys(v, f, ProcessWatch(cfg, v, f).0)
  {
  }

  lemma RefusalsStop(cfg: Config, v: View, f: Frame)
    requires Running(v) && !f.event.NoEvent? && !ProcessWatch(cfg, v, f).1
    ensures Refused(v, ProcessWatch(cfg, v, f).0)
  {
    RefusedByFail(v);
  }

  lemma AcceptedFramesObey(cfg: Config, v: View, f: Frame)
    requires Running(v)
    ensures var (w, ok) := ProcessWatch(cfg, v, f);
      if ok then Obeys(v, f, w) else f.event.NoEvent? || Refused(v, w)
  {
    if IsDelta(f.event) { DeltaObeys(cfg, v, f); } else { ControlObeys(cfg, v, f); }
    if !f.event.NoEvent? && !ProcessWatch(cfg, v, f).1 { RefusalsStop(cfg, v, f); }
  }

  /** A same-revision snapshot must end in the same cursor, a newer one in another. */
  lemma SnapshotCursors(cfg: Config, v: View, begin: Frame, u: View, barrier: Frame)
    requires Running(v) && begin.event.SnapshotBegin? && ProcessWatch(cfg, v, begin) == (u, true)
    requires barrier.event.Barrier? && ProcessWatch(cfg, u, barrier).1
    ensures v.cursor != "" ==> (begin.revision == v.revision <==> barrier.cursor == v.cursor)
  {
  }

  // ------------------------------------------------------------------- deltas

  /**
   An accepted mutation touches no cached key but the one it names.  That key is never filled:
   an update drops it, and a removal leaves an answer of absence for the given time if it was held.
   */
  ghost predicate Touches(v: View, w: View, k: Key, named: bool, remove: bool, ttl: Duration, revision: nat) {
    if !named then Held(w, k) == Held(v, k)
    else if Held(v, k).None? || !remove then Held(w, k).None?
    else ttl.Nanos? && Held(w, k) == Some(Entry(None, revision, ttl.n))
  }

  lemma CatchUpCaches(v: View)
    ensures CatchUp(v).credentials == v.credentials && CatchUp(v).vbuckets == v.vbuckets
  {
  }

  lemma MutationIs(cfg: Config, v: View, f: Frame, u: View, ok: bool)
    requires OnMutation(cfg, v, f).1 && ApplyEntity(cfg, v, f) == (u, ok)
    ensures ok && OnMutation(cfg, v, f).0 == CatchUp(u.(revision := f.revision, cursor := f.cursor))
  {
  }

  lemma MutationCaches(cfg: Config, v: View, f: Frame, u: View, ok: bool)
    requires OnMutation(cfg, v, f).1 && ApplyEntity(cfg, v, f) == (u, ok)
    ensures ok && OnMutation(cfg, v, f).0.credentials == u.credentials && OnMutation(cfg, v, f).0.vbuckets == u.vbuckets
  {
    MutationIs(cfg, v, f, u, ok);
    CatchUpCaches(u.(revision := f.revision, cursor := f.cursor));
  }

  lemma CredentialsTouched(cfg: Config, v: View, f: Frame, k: Key)
    requires f.event.CredentialsDelta? && ApplyEntity(cfg, v, f).1
    ensures Touches(v, ApplyEntity(cfg, v, f).0, k, k == CredentialKey(f.event.accessKey),
                    f.event.remove, f.event.negativeTtl, f.revision)
  {
  }

  lemma VBucketTouched(cfg: Config, v: View, f: Frame, k: Key)
    requires f.event.VBucketDelta? && ApplyEntity(cfg, v, f).1
    requires Plain(k) && Plain(VBucketKey(f.event.accessKey, f.event.bucket))
    ensures Touches(v, ApplyEntity(cfg, v, f).0, k, k == VBucketKey(f.event.accessKey, f.event.bucket),
                    f.event.remove, f.event.negativeTtl, f.revision)
  {
    if k.VBucketKey? && VBucketSlot(k.accessKey, k.bucket) == VBucketSlot(f.event.accessKey, f.event.bucket) {
      SlotInjective(k.accessKey, k.bucket, f.event.accessKey, f.event.bucket);
    }
  }

  lemma DeltasTouchOnlyTheirKey(cfg: Config, v: View, f: Frame, k: Key)
    requires Running(v) && v.snapshot.None? && IsDelta(f.event) && ProcessWatch(cfg, v, f).1
    requires Plain(k) && (f.event.VBucketDelta? ==> Plain(VBucketKey(f.event.accessKey, f.event.bucket)))
    ensures var w := ProcessWatch(cfg, v, f).0;
      match f.event
      case CredentialsDelta(a, remove, ttl) => Touches(v, w, k, k == CredentialKey(a), remove, ttl, f.revision)
      case VBucketDelta(a, b, remove, ttl) => Touches(v, w, k, k == VBucketKey(a, b), remove, ttl, f.revision)
      case _ => Held(w, k) == Held(v, k)
  {
    assert ProcessWatch(cfg, v, f) == OnMutation(cfg, v, f);
    MutationCaches(cfg, v, f, ApplyEntity(cfg, v, f).0, ApplyEntity(cfg, v, f).1);
    match f.event {
      case CredentialsDelta(_, _, _) => CredentialsTouched(cfg, v, f, k);
      case VBucketDelta(_, _, _, _) => VBucketTouched(cfg, v, f, k);
      case _ =>
    }
  }

  // ----------------------------------------------------------------- replies

  /** The two shapes of a lookup reply. */
  ghost predicate WellShaped(r: Reply) {
    && 0 < r.revision
    && if r.found then r.payload.Some? && r.ttl.Nanos? && r.ttl.n > 0 && r.negativeTtl == Absent
       else !r.positiveFields && r.ttl == Absent && r.negativeTtl.Nanos? && r.negativeTtl.n > 0
  }

  /** Exactly the well-shaped replies give an entry: what was found, at the reply's revision, for its time. */
  lemma RepliesExactly(r: Reply)
    ensures ResponseEntry(r).Some? <==> WellShaped(r)
    ensures WellShaped(r) ==>
      ResponseEntry(r).value == if r.found then Entry(r.payload, r.revision, r.ttl.n) else Entry(None, r.revision, r.negativeTtl.n)
  {
  }

  /** A reply from before the caller's view, or a create that did not move on, makes the client start over. */
  lemma StaleRepliesResync(v: View, revision: nat, expected: nat, reply: Option<nat>)
    requires v.state != Shutdown
    ensures revision < expected ==>
      var w := CheckUnary(v, revision, expected).0; w.state == Disconnected && w.barrierRequired
    ensures var (w, outcome) := FinishCreate(v, expected, reply);
      && (outcome == Created <==> reply.Some? && reply.value > expected)
      && (outcome != Created ==> w.state == Disconnected && w.barrierRequired)
  {
  }

  /** A reply ahead of the watch keeps the client from being Ready until the watch has caught up. */
  lemma AheadIsAwaited(v: View, revision: nat, expected: nat)
    requires v.state == Ready && expected <= v.revision < revision
    ensures CheckUnary(v, revision, expected).0.state == Synchronizing
    ensures FinishCreate(v, expected, Some(revision)).0.state == Synchronizing
    ensures CheckUnary(v, revision, expected).0.required >= revision
    ensures FinishCreate(v, expected, Some(revision)).0.required >= revision
  {
  }

  // -------------------------------------------------------------------- loads

  /**
   A fresh answer is given: committed while its stamp is current, a true candidate makes the load
   return the truth at the accepted revision, and the cache holds it unless it already held one.
   */
  lemma FreshAnswerIsGiven(h: History, v: View, k: Key, candidate: Entry, first: Option<Entry>, second: Option<Entry>)
    requires Coherent(h, v) && v.state == Ready && Plain(k)
    requires candidate.revision == v.revision && candidate.answer == Truth(h, v.revision, k)
    requires Seen(v, k, first) && Seen(v, k, second)
    ensures var (w, r) := Commit(v, k, v.revision, v.epoch, candidate, first, second);
      && r.Value? && r.entry.answer == Truth(h, v.revision, k) && r.entry.revision == v.revision
      && (second.None? ==> Held(w, k) == Some(candidate) && r.entry == candidate)
      && forall j :: Plain(j) && j != k ==> Held(w, j) == Held(v, j)
  {
    if first.Some? { assert Right(h, v.revision, k, first.value); }
    if second.Some? { assert Right(h, v.revision, k, second.value); }
    var w := Commit(v, k, v.revision, v.epoch, candidate, first, second).0;
    forall j | Plain(j) && j != k ensures Held(w, j) == Held(v, j) {
      if j.VBucketKey? && k.VBucketKey? && VBucketSlot(j.accessKey, j.bucket) == VBucketSlot(k.accessKey, k.bucket) {
        SlotInjective(j.accessKey, j.bucket, k.accessKey, k.bucket);
      }
    }
  }

  /**
   Exactly when a commit answers: the load's stamp is current, or the cache has a newer answer at the
   accepted revision.  Either way the answer is the truth there, and a load that is not answered races.
   */
  lemma CommitAnswersExactly(h: History, v: View, k: Key, captured: nat, candidate: Entry,
                             first: Option<Entry>, second: Option<Entry>)
    requires Coherent(h, v) && v.state == Ready && Plain(k) && captured <= v.revision
    requires candidate.revision == captured && candidate.answer == Truth(h, captured, k)
    requires Seen(v, k, first) && Seen(v, k, second)
    ensures var r := Commit(v, k, captured, v.epoch, candidate, first, second).1;
      && (r.Value? <==> captured == v.revision || (first.Some? && first.value.revision == v.revision))
      && (r.Value? ==> r.entry.answer == Truth(h, v.revision, k) && r.entry.revision == v.revision)
      && (!r.Value? ==> r == Race)
  {
    if first.Some? { assert Right(h, v.revision, k, first.value); }
    if second.Some? { assert Right(h, v.revision, k, second.value); }
  }

  ghost predicate SameLoad(a: Load, b: Load) {
    a.key == b.key && a.revision == b.revision && a.epoch == b.epoch
  }

  /** What one step may do to a load: a parsed one waits for its commit, a returned one stays. */
  ghost predicate LoadMoves(s: Sys, s': Sys, n: nat)
    requires n in s.loads
  {
    && n in s'.loads && SameLoad(s.loads[n], s'.loads[n])
    && (s.loads[n].phase.Parsed? ==> s'.loads[n].phase == s.loads[n].phase || s'.loads[n].phase.Returned?)
    && (s.loads[n].phase.Returned? ==> s'.loads[n].phase == s.loads[n].phase)
  }

  lemma ClientLeavesLoads(h: History, cfg: Config, s: Sys, s': Sys, step: Step)
    requires ClientNext(h, cfg, s, s', step)
    ensures s'.loads == s.loads
  {
  }

  lemma ReplyMovesLoads(h: History, s: Sys, s': Sys, step: Step, n: nat)
    requires ReplyNext(h, s, s', step) && n in s.loads
    ensures LoadMoves(s, s', n)
  {
  }

  lemma CallerMovesLoads(s: Sys, s': Sys, step: Step, n: nat)
    requires CallerNext(s, s', step) && n in s.loads
    ensures LoadMoves(s, s', n)
  {
  }

  lemma LoadStep(h: History, cfg: Config, s: Sys, s': Sys, step: Step, n: nat)
    requires Next(h, cfg, s, s', step) && n in s.loads
    ensures LoadMoves(s, s', n)
  {
    if IsClientStep(step) {
      ClientLeavesLoads(h, cfg, s, s', step);
    } else if IsReply(step) {
      ReplyMovesLoads(h, s, s', step, n);
    } else {
      CallerMovesLoads(s, s', step, n);
    }
  }

  lemma {:induction false} LoadKept(h: History, cfg: Config, r: Run, i: nat, j: nat, n: nat)
    requires IsRun(h, cfg, r) && i <= j < |r.states| && n in r.states[i].loads
    ensures LoadMoves(r.states[i], r.states[j], n)
    decreases j
  {
    if i < j {
      LoadKept(h, cfg, r, i, j - 1, n);
      assert Steps(h, cfg, r, j - 1);
      LoadStep(h, cfg, r.states[j - 1], r.states[j], r.steps[j - 1], n);
    }
  }

  /** One load of a run: when its reply came, when it committed, who received it and who checked. */
  datatype Fetch = Fetch(load: nat, replied: nat, reply: Reply, committed: nat, caller: nat, received: nat, checked: nat)

  /** The fetch was answered in shape at the revision it asked for, and the caller checks what it received. */
  ghost predicate Fetches(r: Run, q: Fetch)
    requires |r.states| == |r.steps| + 1
  {
    && q.replied < q.committed < q.received < q.checked < |r.steps|
    && r.steps[q.replied] == LoadReply(q.load, q.reply) && q.load in r.states[q.replied].loads
    && WellShaped(q.reply) && q.reply.revision == r.states[q.replied].loads[q.load].revision
    && r.steps[q.committed].CommitLoad? && r.steps[q.committed].load == q.load
    && r.steps[q.received] == Receive(q.caller) && q.caller in r.states[q.received].lookups
    && r.states[q.received].lookups[q.caller].Waiting? && r.states[q.received].lookups[q.caller].load == q.load
    && r.states[q.received].lookups[q.caller].epoch == r.states[q.replied].loads[q.load].epoch
    && r.steps[q.checked] == CheckLoaded(q.caller) && q.caller in r.states[q.checked].lookups
    && q.caller in r.states[q.received + 1].lookups
    && r.states[q.checked].lookups[q.caller] == r.states[q.received + 1].lookups[q.caller]
  }

  /** The load is the one that asked `l`, and holds the truth at its revision. */
  ghost predicate Brought(h: History, loads: map<nat, Load>, n: nat, l: Load) {
    && n in loads && SameLoad(l, loads[n])
    && match loads[n].phase
       case Requested => false
       case Parsed(e) => e.answer == Truth(h, l.revision, l.key) && e.revision == l.revision
       case Returned(r) => r.Value? && r.entry.answer == Truth(h, l.revision, l.key) && r.entry.revision == l.revision
  }

  lemma ReplyBrings(h: History, s: Sys, s': Sys, n: nat, reply: Reply)
    requires LoadReplied(h, s, s', n, reply) && WellShaped(reply) && reply.revision == s.loads[n].revision
    ensures Brought(h, s'.loads, n, s.loads[n]) && s'.loads[n].phase.Parsed?
  {
    RepliesExactly(reply);
  }

  lemma CommitBrings(h: History, s: Sys, s': Sys, n: nat, first: Option<Entry>, second: Option<Entry>, l: Load)
    requires Inv(h, s) && Committed(s, s', n, first, second) && Brought(h, s.loads, n, l)
    requires StillCurrent(s.client, l.revision, l.epoch)
    ensures Brought(h, s'.loads, n, l) && s'.loads[n].phase.Returned?
  {
    assert LoadOk(h, s.client, s.loads[n]);
    FreshAnswerIsGiven(h, s.client, l.key, s.loads[n].phase.candidate, first, second);
  }

  lemma BroughtStays(h: History, s: Sys, s': Sys, n: nat, l: Load)
    requires Brought(h, s.loads, n, l) && LoadMoves(s, s', n) && s'.loads[n].phase == s.loads[n].phase
    ensures Brought(h, s'.loads, n, l)
  {
  }

  lemma ReplyAt(h: History, cfg: Config, r: Run, q: Fetch)
    requires IsRun(h, cfg, r) && Fetches(r, q)
    ensures Brought(h, r.states[q.replied + 1].loads, q.load, r.states[q.replied].loads[q.load])
    ensures r.states[q.replied + 1].loads[q.load].phase.Parsed?
  {
    assert Steps(h, cfg, r, q.replied);
    ReplyBrings(h, r.states[q.replied], r.states[q.replied + 1], q.load, q.reply);
  }

  lemma CommittedAt(h: History, cfg: Config, r: Run, q: Fetch)
    requires IsRun(h, cfg, r) && Fetches(r, q)
    ensures var step := r.steps[q.committed];
      Committed(r.states[q.committed], r.states[q.committed + 1], q.load, step.first, step.second)
  {
    assert Steps(h, cfg, r, q.committed);
  }

  /** The commit returns the truth, when the load's stamp is current at that moment. */
  lemma CommitAt(h: History, cfg: Config, r: Run, q: Fetch, l: Load)
    requires IsRun(h, cfg, r) && Fetches(r, q) && l == r.states[q.replied].loads[q.load]
    requires StillCurrent(r.states[q.committed].client, l.revision, l.epoch)
    ensures Brought(h, r.states[q.committed + 1].loads, q.load, l)
    ensures r.states[q.committed + 1].loads[q.load].phase.Returned?
  {
    ReplyAt(h, cfg, r, q);
    LoadKept(h, cfg, r, q.replied + 1, q.committed, q.load);
    CommittedAt(h, cfg, r, q);
    BroughtStays(h, r.states[q.replied + 1], r.states[q.committed], q.load, l);
    Reachable(h, cfg, r, q.committed);
    CommitBrings(h, r.states[q.committed], r.states[q.committed + 1], q.load,
                 r.steps[q.committed].first, r.steps[q.committed].second, l);
  }

  lemma ReceiveBrings(h: History, s: Sys, s': Sys, id: nat, l: Load)
    requires Inv(h, s) && CallerNext(s, s', Receive(id)) && Brought(h, s.loads, s.lookups[id].load, l)
    ensures id in s'.lookups && s'.lookups[id].Received? && s'.lookups[id].key == l.key
    ensures s'.lookups[id].epoch == s.lookups[id].epoch
    ensures var r := s'.lookups[id].result;
      r.Value? && r.entry.answer == Truth(h, l.revision, l.key) && r.entry.revision == l.revision
  {
    assert LookupOk(h, s.client, s.loads, s.lookups[id]);
  }

  lemma ReceiveAt(h: History, cfg: Config, r: Run, q: Fetch)
    requires IsRun(h, cfg, r) && Fetches(r, q)
    ensures CallerNext(r.states[q.received], r.states[q.received + 1], Receive(q.caller))
    ensures CallerNext(r.states[q.checked], r.states[q.checked + 1], CheckLoaded(q.caller))
  {
    assert Steps(h, cfg, r, q.received);
    assert Steps(h, cfg, r, q.checked);
  }

  /**
   Main result: a lookup whose load got a well-shaped reply at its revision, while its stamp stayed
   current from the reply to the check, is answered with the truth at that revision.
   */
  lemma CurrentLookupsAreAnswered(h: History, cfg: Config, r: Run, q: Fetch, l: Load)
    requires IsRun(h, cfg, r) && Fetches(r, q) && l == r.states[q.replied].loads[q.load]
    requires StillCurrent(r.states[q.replied].client, l.revision, l.epoch)
    requires StillCurrent(r.states[q.checked].client, l.revision, l.epoch)
    ensures Answers(r, q.checked, q.caller, l.key, Truth(h, l.revision, l.key))
  {
    NoAba(h, cfg, r, q.replied, q.committed, q.checked, l.revision, l.epoch);
    CommitAt(h, cfg, r, q, l);
    LoadKept(h, cfg, r, q.committed + 1, q.received, q.load);
    BroughtStays(h, r.states[q.committed + 1], r.states[q.received], q.load, l);
    Reachable(h, cfg, r, q.received);
    ReceiveAt(h, cfg, r, q);
    ReceiveBrings(h, r.states[q.received], r.states[q.received + 1], q.caller, l);
  }

  /** A lookup that read the cache and finds its stamp still current is answered with what it read. */
  lemma CurrentHitsAreAnswered(h: History, cfg: Config, r: Run, i: nat, id: nat)
    requires IsRun(h, cfg, r) && i < |r.steps| && r.steps[i] == CheckHit(id)
    requires id in r.states[i].lookups && r.states[i].lookups[id].Hit?
    requires var l := r.states[i].lookups[id]; StillCurrent(r.states[i].client, l.revision, l.epoch)
    ensures var l := r.states[i].lookups[id]; Answers(r, i, id, l.key, Truth(h, l.revision, l.key))
  {
    Reachable(h, cfg, r, i);
    assert Steps(h, cfg, r, i);
    assert LookupOk(h, r.states[i].client, r.states[i].loads, r.states[i].lookups[id]);
  }
}
