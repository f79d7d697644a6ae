/**
 The client among its callers: the watch goroutine, coalesced loads, lookups with their
 captured view, creates and lists, interleaved step by step.  A step is one section
 under the synchronization lock, one cache read, or one action of the load group.
 */
module System {
  import opened Common
  import opened Contract
  import opened Protocol
  import opened Coherence

  datatype Phase =
    | Requested
    | Parsed(candidate: Entry)
    | Returned(result: LoadResult)

  datatype Load = Load(key: Key, revision: nat, epoch: nat, phase: Phase)

  datatype Lookup =
    | Starting(key: Key, retry: bool)
    | Captured(key: Key, retry: bool, revision: nat, epoch: nat)
    | Hit(key: Key, retry: bool, revision: nat, epoch: nat, entry: Entry)
    | Missed(key: Key, retry: bool, revision: nat, epoch: nat)
    | Waiting(key: Key, retry: bool, revision: nat, epoch: nat, load: nat)
    | Received(key: Key, retry: bool, revision: nat, epoch: nat, result: LoadResult)
    | Stale(key: Key)           // saw the view change, and may retry once
    | Answered(key: Key, answer: Option<Record>)
    | Failed(key: Key)

  datatype Sys = Sys(
    client: View,
    streaming: bool,            // a watch stream is open
    sent: Option<Sent>,         // what that stream has sent of a snapshot
    loads: map<nat, Load>,      // every load ever started
    calls: map<Key, nat>,       // the joinable load of a key
    lookups: map<nat, Lookup>,
    unary: map<nat, nat>,       // creates and lists in flight, by captured revision
    fence: nat)                 // highest revision revealed to this client before shutdown

  datatype Step =
    | Watch(frame: Frame)
    | Retire(to: State)
    | Open
    | Evict
    | Begin(id: nat, key: Key)
    | Capture(id: nat)
    | ReadCache(id: nat, seen: Option<Entry>)
    | CheckHit(id: nat)
    | Join(id: nat)
    | Lead(id: nat, load: nat)
    | GiveUp(id: nat)
    | LoadReply(load: nat, reply: Reply)
    | LoadError(load: nat)
    | CommitLoad(load: nat, first: Option<Entry>, second: Option<Entry>)
    | Publish(load: nat)
    | Receive(id: nat)
    | CheckLoaded(id: nat)
    | Retry(id: nat)
    | BeginUnary(id: nat)
    | CreateReply(id: nat, create: Option<nat>)
    | ListReply(id: nat, revision: nat)

  ghost predicate Init(s: Sys) {
    s == Sys(START, false, None, map[], map[], map[], map[], 0)
  }

  /** Only the client view changes, to `v` or to `v` with some entries dropped. */
  ghost predicate Moves(s: Sys, s': Sys, v: View) {
    Shrinks(s'.client, v) && s' == s.(client := s'.client)
  }

  ghost predicate Reveals(s: Sys, s': Sys, revision: nat) {
    s'.fence == if s.client.state == Shutdown then s.fence else Max(s.fence, revision)
  }

  /** Where a lookup goes after a view change it noticed: a second attempt never retries. */
  function Raced(l: Lookup): Lookup
    requires l.Hit? || l.Received?
  {
    if l.retry then Stale(l.key) else Failed(l.key)
  }

  function Checked(v: View, l: Lookup): Lookup
    requires l.Hit? || l.Received?
  {
    match l
    case Hit(k, _, revision, epoch, e) =>
      if StillCurrent(v, revision, epoch) then Answered(k, e.answer) else Raced(l)
    case Received(k, _, _, epoch, Value(e)) =>
      if StillCurrent(v, e.revision, epoch) then Answered(k, e.answer) else Raced(l)
    case Received(k, _, _, _, Race) => Raced(l)
    case Received(k, _, _, _, Failure) => Failed(k)
  }

  ghost predicate SetLookup(s: Sys, s': Sys, id: nat, l: Lookup) {
    s' == s.(lookups := s.lookups[id := l])
  }

  ghost predicate IsClientStep(step: Step) {
    step.Watch? || step.Retire? || step.Open? || step.Evict?
  }

  ghost predicate IsReply(step: Step) {
    step.LoadReply? || step.CommitLoad? || step.CreateReply? || step.ListReply?
  }

  /** The watch stream, disconnects, reconnects and cache eviction. */
  ghost predicate ClientNext(h: History, cfg: Config, s: Sys, s': Sys, step: Step) {
    match step
    case Watch(f) =>
      && s.streaming && Owes(h, cfg.normalize, s.sent, f)
      && Shrinks(s'.client, ProcessWatch(cfg, s.client, f).0)
      && s' == s.(client := s'.client, sent := NextSent(cfg.normalize, s.sent, f))
    case Retire(to) =>
      && (to == Connecting || to == Disconnected || to == Shutdown)
      && s' == s.(client := Unsynchronize(s.client, to), streaming := false)
    case Open =>
      !s.streaming && s' == s.(client := Reopen(s.client), streaming := true, sent := None)
    case Evict => Moves(s, s', s.client)
    case _ => false
  }

  ghost predicate LoadReplied(h: History, s: Sys, s': Sys, n: nat, reply: Reply) {
    && n in s.loads && s.loads[n].phase.Requested? && Truthful(h, s.loads[n].key, reply)
    && Reveals(s, s', reply.revision)
    && var (v, ok) := CheckUnary(s.client, reply.revision, s.loads[n].revision);
       var phase := if !ok then Returned(Race)
                    else if ResponseEntry(reply).None? then Returned(Failure)
                    else Parsed(ResponseEntry(reply).value);
       s' == s.(client := v, loads := s.loads[n := s.loads[n].(phase := phase)], fence := s'.fence)
  }

  ghost predicate Committed(s: Sys, s': Sys, n: nat, first: Option<Entry>, second: Option<Entry>) {
    && n in s.loads && s.loads[n].phase.Parsed?
    && Seen(s.client, s.loads[n].key, first) && Seen(s.client, s.loads[n].key, second)
    && var l := s.loads[n];
       var (v, r) := Commit(s.client, l.key, l.revision, l.epoch, l.phase.candidate, first, second);
       && Shrinks(s'.client, v)
       && s' == s.(client := s'.client, loads := s.loads[n := l.(phase := Returned(r))])
  }

  ghost predicate CreateReplied(s: Sys, s': Sys, id: nat, reply: Option<nat>) {
    && id in s.unary
    && var (v, outcome) := FinishCreate(s.client, s.unary[id], reply);
       && (if outcome == Created then Reveals(s, s', reply.value) else s'.fence == s.fence)
       && s' == s.(client := v, unary := s.unary - {id}, fence := s'.fence)
  }

  ghost predicate ListReplied(s: Sys, s': Sys, id: nat, revision: nat) {
    && id in s.unary && Reveals(s, s', revision)
    && s' == s.(client := CheckUnary(s.client, revision, s.unary[id]).0, unary := s.unary - {id},
                fence := s'.fence)
  }

  /** Replies of the control plane that reach the client's state. */
  ghost predicate ReplyNext(h: History, s: Sys, s': Sys, step: Step) {
    match step
    case LoadReply(n, reply) => LoadReplied(h, s, s', n, reply)
    case CommitLoad(n, first, second) => Committed(s, s', n, first, second)
    case CreateReply(id, reply) => CreateReplied(s, s', id, reply)
    case ListReply(id, revision) => ListReplied(s, s', id, revision)
    case _ => false
  }

  /** A lookup's own steps and the load group. */
  ghost predicate CallerNext(s: Sys, s': Sys, step: Step) {
    match step
    case Begin(id, k) => Plain(k) && id !in s.lookups && SetLookup(s, s', id, Starting(k, true))
    case Capture(id) =>
      && id in s.lookups && s.lookups[id].Starting?
      && var l := s.lookups[id];
         SetLookup(s, s', id, if s.client.state == Ready
                              then Captured(l.key, l.retry, s.client.revision, s.client.epoch)
                              else Failed(l.key))
    case ReadCache(id, seen) =>
      && id in s.lookups && s.lookups[id].Captured? && Seen(s.client, s.lookups[id].key, seen)
      && var l := s.lookups[id];
         SetLookup(s, s', id, if seen.Some? && seen.value.revision <= l.revision
                              then Hit(l.key, l.retry, l.revision, l.epoch, seen.value)
                              else Missed(l.key, l.retry, l.revision, l.epoch))
    case CheckHit(id) =>
      id in s.lookups && s.lookups[id].Hit? && SetLookup(s, s', id, Checked(s.client, s.lookups[id]))
    case Join(id) =>
      && id in s.lookups && s.lookups[id].Missed? && s.lookups[id].key in s.calls
      && var l := s.lookups[id];
         SetLookup(s, s', id, Waiting(l.key, l.retry, l.revision, l.epoch, s.calls[l.key]))
    case Lead(id, n) =>
      && id in s.lookups && s.lookups[id].Missed? && s.lookups[id].key !in s.calls && n !in s.loads
      && var l := s.lookups[id];
         s' == s.(loads := s.loads[n := Load(l.key, l.revision, l.epoch, Requested)],
                  calls := s.calls[l.key := n],
                  lookups := s.lookups[id := Waiting(l.key, l.retry, l.revision, l.epoch, n)])
    case GiveUp(id) =>
      id in s.lookups && SetLookup(s, s', id, Failed(s.lookups[id].key))
    case LoadError(n) =>
      && n in s.loads && s.loads[n].phase.Requested?
      && s' == s.(loads := s.loads[n := s.loads[n].(phase := Returned(Failure))])
    case Publish(n) =>
      && n in s.loads && s.loads[n].phase.Returned?
      && s' == s.(calls := if s.loads[n].key in s.calls && s.calls[s.loads[n].key] == n
                           then s.calls - {s.loads[n].key} else s.calls)
    case Receive(id) =>
      && id in s.lookups && s.lookups[id].Waiting? && s.lookups[id].load in s.loads
      && s.loads[s.lookups[id].load].phase.Returned?
      && var l := s.lookups[id];
         SetLookup(s, s', id, Received(l.key, l.retry, l.revision, l.epoch, s.loads[l.load].phase.result))
    case CheckLoaded(id) =>
      id in s.lookups && s.lookups[id].Received? && SetLookup(s, s', id, Checked(s.client, s.lookups[id]))
    case Retry(id) =>
      && id in s.lookups && s.lookups[id].Stale?
      && var k := s.lookups[id].key;
         SetLookup(s, s', id, if s.client.state == Ready then Starting(k, false) else Failed(k))
    case BeginUnary(id) =>
      s.client.state == Ready && s' == s.(unary := s.unary[id := s.client.revision])
    case _ => false
  }

  ghost predicate Next(h: History, cfg: Config, s: Sys, s': Sys, step: Step) {
    if IsClientStep(step) then ClientNext(h, cfg, s, s', step)
    else if IsReply(step) then ReplyNext(h, s, s', step)
    else CallerNext(s, s', step)
  }

  // ------------------------------------------------------------ the invariant

  ghost predicate LoadOk(h: History, v: View, l: Load) {
    && Plain(l.key) && l.revision <= v.revision
    && match l.phase
       case Requested => true
       case Parsed(e) => e.revision == l.revision && e.answer == Truth(h, e.revision, l.key)
       case Returned(r) => ResultOk(h, l.key, r)
  }

  ghost predicate ResultOk(h: History, k: Key, r: LoadResult) {
    r.Value? ==> r.entry.answer == Truth(h, r.entry.revision, k)
  }

  ghost predicate LookupOk(h: History, v: View, loads: map<nat, Load>, l: Lookup) {
    && Plain(l.key)
    && match l
       case Captured(_, _, revision, _) => revision <= v.revision
       case Missed(_, _, revision, _) => revision <= v.revision
       case Hit(k, _, revision, _, e) =>
         revision <= v.revision && (revision == v.revision ==> e.answer == Truth(h, revision, k))
       case Waiting(k, _, revision, _, n) => n in loads && loads[n].key == k
       case Received(k, _, _, _, r) => ResultOk(h, k, r)
       case _ => true
  }

  ghost predicate Inv(h: History, s: Sys) {
    && Readiness(s.client) && Coherent(h, s.client) && Staged(s.client, s.sent)
    && (!s.streaming ==> s.client.snapshot.None? && s.client.state != Ready && s.client.state != Synchronizing)
    && s.fence <= Max(s.client.revision, s.client.required)
    && (forall n :: n in s.loads ==> LoadOk(h, s.client, s.loads[n]))
    && (forall k :: k in s.calls ==> s.calls[k] in s.loads && s.loads[s.calls[k]].key == k)
    && (forall id :: id in s.lookups ==> LookupOk(h, s.client, s.loads, s.lookups[id]))
    && (forall id :: id in s.unary ==> s.unary[id] <= s.client.revision)
  }

  lemma InitInv(h: History, s: Sys)
    requires Canonical(h) && Init(s)
    ensures Inv(h, s)
  {
  }

  /** Callers' own state keeps its meaning as the client advances. */
  lemma CallersKeep(h: History, s: Sys, v: View)
    requires Inv(h, s) && Advances(s.client, v)
    ensures forall n :: n in s.loads ==> LoadOk(h, v, s.loads[n])
    ensures forall id :: id in s.lookups ==> LookupOk(h, v, s.loads, s.lookups[id])
    ensures forall id :: id in s.unary ==> s.unary[id] <= v.revision
    ensures s.fence <= Max(v.revision, v.required)
  {
    forall id | id in s.lookups ensures LookupOk(h, v, s.loads, s.lookups[id]) {
      assert LookupOk(h, s.client, s.loads, s.lookups[id]);
    }
    forall n | n in s.loads ensures LoadOk(h, v, s.loads[n]) {
      assert LoadOk(h, s.client, s.loads[n]);
    }
  }

  lemma ClientStepKeeps(h: History, cfg: Config, s: Sys, s': Sys, step: Step)
    requires Canonical(h) && Inv(h, s) && ClientNext(h, cfg, s, s', step)
    ensures Inv(h, s') && Advances(s.client, s'.client)
    ensures s.client.barrierRequired && !s'.client.barrierRequired ==>
              step.Watch? && step.frame.event.Barrier? && ProcessWatch(cfg, s.client, step.frame).1
  {
    match step {
      case Watch(f) =>
        var v := ProcessWatch(cfg, s.client, f).0;
        FrameKeeps(h, cfg, s.client, f, s.sent);
        ShrinksKeeps(h, s'.client, v, s'.sent);
        AdvancesTrans(s.client, v, s'.client);
      case Retire(to) => UnsynchronizeKeeps(h, s.client, to, s.sent);
      case Open => ReopenKeeps(h, s.client);
      case Evict => ShrinksKeeps(h, s'.client, s.client, s.sent);
    }
    CallersKeep(h, s, s'.client);
  }

  /** What a reply may do to the client: forward, never settling a barrier nor making it ready. */
  ghost predicate Replied(h: History, s: Sys, s': Sys) {
    && Readiness(s'.client) && Coherent(h, s'.client) && Staged(s'.client, s'.sent)
    && Advances(s.client, s'.client)
    && s'.fence <= Max(s'.client.revision, s'.client.required)
    && (s.client.barrierRequired ==> s'.client.barrierRequired)
    && (s'.client.snapshot.Some? ==> s.client.snapshot.Some?)
    && (s'.client.state == Ready || s'.client.state == Synchronizing ==>
          s.client.state == Ready || s.client.state == Synchronizing)
  }

  lemma LoadReplyKeeps(h: History, s: Sys, s': Sys, n: nat, reply: Reply)
    requires Canonical(h) && Inv(h, s) && LoadReplied(h, s, s', n, reply)
    ensures Replied(h, s, s') && LoadOk(h, s'.client, s'.loads[n])
  {
    assert LoadOk(h, s.client, s.loads[n]);
    CheckUnaryKeeps(h, s.client, reply.revision, s.loads[n].revision, s.sent);
  }

  lemma CommitStepKeeps(h: History, s: Sys, s': Sys, n: nat, first: Option<Entry>, second: Option<Entry>)
    requires Canonical(h) && Inv(h, s) && Committed(s, s', n, first, second)
    ensures Replied(h, s, s') && LoadOk(h, s'.client, s'.loads[n])
  {
    var l := s.loads[n];
    assert LoadOk(h, s.client, l);
    CommitKeeps(h, s.client, l.key, l.revision, l.epoch, l.phase.candidate, first, second, s.sent);
    var v := Commit(s.client, l.key, l.revision, l.epoch, l.phase.candidate, first, second).0;
    ShrinksKeeps(h, s'.client, v, s.sent);
    AdvancesTrans(s.client, v, s'.client);
  }

  lemma CreateReplyKeeps(h: History, s: Sys, s': Sys, id: nat, reply: Option<nat>)
    requires Canonical(h) && Inv(h, s) && CreateReplied(s, s', id, reply)
    ensures Replied(h, s, s')
  {
    FinishCreateKeeps(h, s.client, s.unary[id], reply, s.sent);
  }

  lemma ListReplyKeeps(h: History, s: Sys, s': Sys, id: nat, revision: nat)
    requires Canonical(h) && Inv(h, s) && ListReplied(s, s', id, revision)
    ensures Replied(h, s, s')
  {
    CheckUnaryKeeps(h, s.client, revision, s.unary[id], s.sent);
  }

  /** Replacing a load by one of the same key keeps what lookups know. */
  lemma LoadReplaced(h: History, s: Sys, s': Sys, n: nat)
    requires Inv(h, s) && Replied(h, s, s') && n in s.loads && n in s'.loads
    requires s'.loads == s.loads[n := s'.loads[n]] && s'.loads[n].key == s.loads[n].key
    requires s' == s.(client := s'.client, loads := s'.loads, fence := s'.fence)
    requires LoadOk(h, s'.client, s'.loads[n])
    ensures Inv(h, s')
  {
    CallersKeep(h, s, s'.client);
    forall id | id in s'.lookups ensures LookupOk(h, s'.client, s'.loads, s'.lookups[id]) {
      assert LookupOk(h, s'.client, s.loads, s.lookups[id]);
    }
  }

  lemma UnaryDone(h: History, s: Sys, s': Sys, id: nat)
    requires Inv(h, s) && Replied(h, s, s')
    requires s' == s.(client := s'.client, unary := s.unary - {id}, fence := s'.fence)
    ensures Inv(h, s')
  {
  }

  lemma ReplyStepKeeps(h: History, s: Sys, s': Sys, step: Step)
    requires Canonical(h) && Inv(h, s) && ReplyNext(h, s, s', step)
    ensures Inv(h, s') && Replied(h, s, s')
  {
    match step {
      case LoadReply(n, reply) =>
        LoadReplyKeeps(h, s, s', n, reply);
        LoadReplaced(h, s, s', n);
      case CommitLoad(n, first, second) =>
        CommitStepKeeps(h, s, s', n, first, second);
        LoadReplaced(h, s, s', n);
      case CreateReply(id, reply) =>
        CreateReplyKeeps(h, s, s', id, reply);
        UnaryDone(h, s, s', id);
      case ListReply(id, revision) =>
        ListReplyKeeps(h, s, s', id, revision);
        UnaryDone(h, s, s', id);
    }
  }

  ghost predicate IsLookupStep(step: Step) {
    || step.Capture? || step.ReadCache? || step.CheckHit? || step.Join?
    || step.GiveUp? || step.Receive? || step.CheckLoaded? || step.Retry?
  }

  lemma ReadCacheOk(h: History, s: Sys, s': Sys, id: nat, seen: Option<Entry>)
    requires Inv(h, s) && CallerNext(s, s', ReadCache(id, seen))
    ensures LookupOk(h, s.client, s.loads, s'.lookups[id])
  {
    var l := s.lookups[id];
    assert LookupOk(h, s.client, s.loads, l);
    if seen.Some? {
      assert Right(h, s.client.revision, l.key, seen.value);
    }
  }

  /** What a lookup knows after one of its own steps. */
  lemma LookupStepOk(h: History, s: Sys, s': Sys, step: Step)
    requires Inv(h, s) && CallerNext(s, s', step) && IsLookupStep(step)
    ensures s' == s.(lookups := s.lookups[step.id := s'.lookups[step.id]])
    ensures LookupOk(h, s.client, s.loads, s'.lookups[step.id])
  {
    var l := s.lookups[step.id];
    if step.ReadCache? {
      ReadCacheOk(h, s, s', step.id, step.seen);
    } else {
      assert LookupOk(h, s.client, s.loads, l);
      if step.Receive? { assert LoadOk(h, s.client, s.loads[l.load]); }
    }
  }

  lemma LoadsGrow(h: History, s: Sys, loads: map<nat, Load>, id: nat)
    requires Inv(h, s)
    requires forall n :: n in s.loads ==> n in loads && loads[n].key == s.loads[n].key
    requires id in s.lookups
    ensures LookupOk(h, s.client, loads, s.lookups[id])
  {
    assert LookupOk(h, s.client, s.loads, s.lookups[id]);
  }

  lemma LeadLookups(h: History, s: Sys, s': Sys, id: nat, n: nat)
    requires Inv(h, s) && CallerNext(s, s', Lead(id, n))
    ensures forall j :: j in s'.lookups ==> LookupOk(h, s'.client, s'.loads, s'.lookups[j])
  {
    forall j | j in s'.lookups ensures LookupOk(h, s'.client, s'.loads, s'.lookups[j]) {
      LoadsGrow(h, s, s'.loads, j);
    }
  }

  lemma LeadLoads(h: History, s: Sys, s': Sys, id: nat, n: nat)
    requires Inv(h, s) && CallerNext(s, s', Lead(id, n))
    ensures forall m :: m in s'.loads ==> LoadOk(h, s'.client, s'.loads[m])
    ensures forall k :: k in s'.calls ==> s'.calls[k] in s'.loads && s'.loads[s'.calls[k]].key == k
  {
    assert LookupOk(h, s.client, s.loads, s.lookups[id]);
  }

  lemma LeadKeeps(h: History, s: Sys, s': Sys, id: nat, n: nat)
    requires Inv(h, s) && CallerNext(s, s', Lead(id, n))
    ensures Inv(h, s')
  {
    LeadLookups(h, s, s', id, n);
    LeadLoads(h, s, s', id, n);
  }

  lemma LoadErrorKeeps(h: History, s: Sys, s': Sys, n: nat)
    requires Inv(h, s) && CallerNext(s, s', LoadError(n))
    ensures Inv(h, s')
  {
    assert LoadOk(h, s.client, s.loads[n]);
    forall j | j in s.lookups ensures LookupOk(h, s.client, s'.loads, s.lookups[j]) {
      LoadsGrow(h, s, s'.loads, j);
    }
  }

  lemma CallerStepKeeps(h: History, s: Sys, s': Sys, step: Step)
    requires Inv(h, s) && CallerNext(s, s', step)
    ensures Inv(h, s')
  {
    if IsLookupStep(step) {
      LookupStepOk(h, s, s', step);
    } else if step.Lead? {
      LeadKeeps(h, s, s', step.id, step.load);
    } else if step.LoadError? {
      LoadErrorKeeps(h, s, s', step.load);
    }
  }

  // ------------------------------------------------ what each kind of step leaves alone

  lemma CallerFrame(s: Sys, s': Sys, step: Step)
    requires CallerNext(s, s', step)
    ensures s'.client == s.client && s'.fence == s.fence
    ensures forall id :: id in s.lookups ==> id in s'.lookups && s'.lookups[id].key == s.lookups[id].key
    ensures forall id :: id in s'.lookups && id !in s.lookups ==> step == Begin(id, s'.lookups[id].key)
  {
  }

  ghost predicate LeavesCallers(s: Sys, s': Sys) {
    s'.lookups == s.lookups && s.fence <= s'.fence && s'.client.baseHosts == s.client.baseHosts
  }

  lemma LoadReplyFrame(h: History, s: Sys, s': Sys, n: nat, reply: Reply)
    requires LoadReplied(h, s, s', n, reply)
    ensures LeavesCallers(s, s')
  {
  }

  lemma CommitFrame(s: Sys, s': Sys, n: nat, first: Option<Entry>, second: Option<Entry>)
    requires Committed(s, s', n, first, second)
    ensures LeavesCallers(s, s')
  {
  }

  lemma UnaryFrame(s: Sys, s': Sys, id: nat, create: Option<nat>, revision: nat)
    requires CreateReplied(s, s', id, create) || ListReplied(s, s', id, revision)
    ensures LeavesCallers(s, s')
  {
  }

  lemma ReplyFrame(h: History, s: Sys, s': Sys, step: Step)
    requires ReplyNext(h, s, s', step)
    ensures LeavesCallers(s, s')
  {
    match step {
      case LoadReply(n, reply) => LoadReplyFrame(h, s, s', n, reply);
      case CommitLoad(n, first, second) => CommitFrame(s, s', n, first, second);
      case CreateReply(id, create) => UnaryFrame(s, s', id, create, 0);
      case ListReply(id, revision) => UnaryFrame(s, s', id, None, revision);
    }
  }

  lemma ClientFrame(h: History, cfg: Config, s: Sys, s': Sys, step: Step)
    requires ClientNext(h, cfg, s, s', step)
    ensures s'.lookups == s.lookups && s'.fence == s.fence
  {
  }

  /** Every step of every interleaving keeps the invariant and moves the client forward. */
  lemma NextKeeps(h: History, cfg: Config, s: Sys, s': Sys, step: Step)
    requires Canonical(h) && Inv(h, s) && Next(h, cfg, s, s', step)
    ensures Inv(h, s') && Advances(s.client, s'.client)
    ensures s.client.barrierRequired && !s'.client.barrierRequired ==>
              step.Watch? && step.frame.event.Barrier? && ProcessWatch(cfg, s.client, step.frame).1
  {
    if IsClientStep(step) {
      ClientStepKeeps(h, cfg, s, s', step);
    } else if IsReply(step) {
      ReplyStepKeeps(h, s, s', step);
    } else {
      CallerStepKeeps(h, s, s', step);
      CallerFrame(s, s', step);
    }
  }
}
