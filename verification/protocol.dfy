/**
 The revisioned client of controlplane/watch.go and lookup.go as a function on values:
 one function per section that runs under the synchronization lock.  The two caches
 appear only by what they hold; recency and expiry may drop entries at any time.
 */
module Protocol {
  import opened Common
  import opened Contract

  datatype State = Startup | Connecting | Synchronizing | Ready | Disconnected | Shutdown

  datatype Snapshot = Snapshot(revision: nat, expectedCursor: string, previousCursor: string,
                               baseHosts: map<string, nat>)

  datatype View = View(
    state: State, revision: nat, cursor: string, epoch: nat, snapshot: Option<Snapshot>,
    required: nat, barrierRequired: bool, baseHosts: map<string, nat>,
    credentials: map<string, Entry>, vbuckets: map<string, Entry>)

  /** Fixed for the life of a client: the domain normalizer and the registry bound. */
  datatype Config = Config(normalize: string -> Option<string>, baseHostMax: nat)

  const START := View(Startup, 0, "", 0, None, 0, true, map[], map[], map[])

  function VBucketSlot(accessKey: string, bucket: string): string {
    accessKey + "/" + bucket
  }

  function Held(v: View, k: Key): Option<Entry> {
    match k
    case CredentialKey(a) => Get(v.credentials, a)
    case VBucketKey(a, b) => Get(v.vbuckets, VBucketSlot(a, b))
  }

  function Store(v: View, k: Key, e: Entry): View {
    match k
    case CredentialKey(a) => v.(credentials := v.credentials[a := e])
    case VBucketKey(a, b) => v.(vbuckets := v.vbuckets[VBucketSlot(a, b) := e])
  }

  // ------------------------------------------------------------- state changes

  function Transition(v: View, s: State): View {
    if v.state == Shutdown || v.state == s then v
    else v.(state := s, epoch := if v.state == Ready then v.epoch + 1 else v.epoch)
  }

  function RequestResync(v: View): View {
    if v.state == Shutdown then v
    else Transition(v.(barrierRequired := true), Disconnected)
  }

  /** Retires the current stream, whatever it had staged. */
  function Unsynchronize(v: View, s: State): View {
    Transition(v, s).(snapshot := None, barrierRequired := true)
  }

  /** The reconnect prologue: a new stream is about to be opened. */
  function Reopen(v: View): View {
    Transition(v, Synchronizing)
  }

  /** A protocol error: fail closed, keeping revision, cursor and caches. */
  function Fail(v: View): View {
    Transition(v.(barrierRequired := true), Disconnected)
  }

  // --------------------------------------------------------------- watch frames

  function OnSnapshotBegin(v: View, f: Frame): Option<View> {
    if v.snapshot.Some? || f.revision == 0 || f.cursor != "" || f.revision < v.revision then None
    else
      var s := Snapshot(f.revision, if f.revision == v.revision then v.cursor else "", v.cursor, map[]);
      Some(Transition(v, Synchronizing).(barrierRequired := true, credentials := map[], vbuckets := map[],
                                         snapshot := Some(s)))
  }

  function OnSnapshotBarrier(v: View, f: Frame): Option<View>
    requires v.snapshot.Some?
  {
    var s := v.snapshot.value;
    if || f.revision != s.revision
       || (s.expectedCursor != "" && f.cursor != s.expectedCursor)
       || (s.revision > v.revision && s.previousCursor != "" && f.cursor == s.previousCursor)
    then None
    else Some(Settle(v.(baseHosts := s.baseHosts, snapshot := None,
                        revision := f.revision, cursor := f.cursor, barrierRequired := false)))
  }

  /** After a barrier: Ready once the catch-up target is met. */
  function Settle(v: View): View {
    if v.revision >= v.required then Transition(v.(required := 0), Ready)
    else Transition(v, Synchronizing)
  }

  function OnBarrier(v: View, f: Frame): Option<View> {
    if f.revision == 0 || f.cursor == "" then None
    else if v.snapshot.Some? then OnSnapshotBarrier(v, f)
    else if f.revision != v.revision || f.cursor != v.cursor then None
    else Some(Settle(v.(barrierRequired := false)))
  }

  function OnHeartbeat(v: View, f: Frame): Option<View> {
    if v.snapshot.Some? || f.revision != v.revision || f.cursor == "" || f.cursor != v.cursor
    then None else Some(v)
  }

  function OnSnapshotEntry(cfg: Config, v: View, f: Frame): Option<View>
    requires v.snapshot.Some?
  {
    var s := v.snapshot.value;
    if f.revision == 0 || f.revision > s.revision || f.cursor != "" || !f.event.BaseHostDelta? then None
    else match cfg.normalize(f.event.host)
      case None => None
      case Some(d) =>
        if f.event.remove || d in s.baseHosts || |s.baseHosts| >= cfg.baseHostMax then None
        else Some(v.(snapshot := Some(s.(baseHosts := s.baseHosts[d := f.revision]))))
  }

  /** A removal must carry a positive negative-TTL, an update none. */
  predicate DeltaOk(remove: bool, negativeTtl: Duration) {
    if remove then CacheTtl(negativeTtl).Some? else negativeTtl == Absent
  }

  /** A removal leaves a tombstone on a hot key only; an update drops the key. */
  function AfterDelta(held: map<string, Entry>, slot: string, remove: bool, negativeTtl: Duration, revision: nat)
    : map<string, Entry>
  {
    if DeltaOk(remove, negativeTtl) && remove then
      if slot in held then held[slot := Entry(None, revision, CacheTtl(negativeTtl).value)] else held
    else if DeltaOk(remove, negativeTtl) || remove then held - {slot}
    else held
  }

  function ApplyBaseHost(cfg: Config, v: View, host: string, remove: bool, revision: nat): (View, bool) {
    match cfg.normalize(host)
    case None => (v, false)
    case Some(d) =>
      if remove then (v.(baseHosts := v.baseHosts - {d}), true)
      else if d !in v.baseHosts && |v.baseHosts| >= cfg.baseHostMax then (v, false)
      else (v.(baseHosts := v.baseHosts[d := revision]), true)
  }

  function ApplyEntity(cfg: Config, v: View, f: Frame): (View, bool) {
    match f.event
    case CredentialsDelta(a, remove, ttl) =>
      if a == "" then (v, false)
      else (v.(credentials := AfterDelta(v.credentials, a, remove, ttl, f.revision)), DeltaOk(remove, ttl))
    case VBucketDelta(a, b, remove, ttl) =>
      if a == "" || b == "" then (v, false)
      else (v.(vbuckets := AfterDelta(v.vbuckets, VBucketSlot(a, b), remove, ttl, f.revision)),
            DeltaOk(remove, ttl))
    case BaseHostDelta(host, remove) => ApplyBaseHost(cfg, v, host, remove, f.revision)
    case _ => (v, false)
  }

  function OnMutation(cfg: Config, v: View, f: Frame): (View, bool) {
    if v.revision == 0 || v.cursor == "" then (Fail(v), false)
    else if f.revision != v.revision + 1 || f.cursor == "" || f.cursor == v.cursor then (Fail(v), false)
    else
      var (applied, ok) := ApplyEntity(cfg, v, f);
      if !ok then (Fail(applied), false)
      else (CatchUp(applied.(revision := f.revision, cursor := f.cursor)), true)
  }

  /** After a live mutation: meeting the target ends catch-up unless a barrier is owed. */
  function CatchUp(v: View): View {
    if v.required == 0 || v.revision < v.required then v
    else if v.barrierRequired then v.(required := 0)
    else Transition(v.(required := 0), Ready)
  }

  function OrFail(v: View, next: Option<View>): (View, bool) {
    if next.Some? then (next.value, true) else (Fail(v), false)
  }

  function ProcessWatch(cfg: Config, v: View, f: Frame): (View, bool) {
    if f.event.NoEvent? then (v, false)
    else if v.state != Ready && v.state != Synchronizing then (Fail(v), false)
    else match f.event
      case SnapshotBegin => OrFail(v, OnSnapshotBegin(v, f))
      case Barrier => OrFail(v, OnBarrier(v, f))
      case Heartbeat => OrFail(v, OnHeartbeat(v, f))
      case _ => if v.snapshot.Some? then OrFail(v, OnSnapshotEntry(cfg, v, f)) else OnMutation(cfg, v, f)
  }

  // -------------------------------------------------------------- unary replies

  /** A unary reply's revision against the revision the caller had captured. */
  function CheckUnary(v: View, revision: nat, expected: nat): (View, bool) {
    if revision == expected then (v, true)
    else if v.state == Shutdown then (v, false)
    else if revision < expected then (RequestResync(v), false)
    else (Await(v, revision, v.state == Ready), false)
  }

  /** Records a revision the watch has not delivered yet as the catch-up target. */
  function Await(v: View, revision: nat, leave: bool): View {
    if revision <= v.revision then v
    else
      var w := v.(required := Max(v.required, revision));
      if leave then Transition(w, Synchronizing) else w
  }

  datatype CreateOutcome = Created | CreateRace

  /** The tail of a create whose reply carried `reply` (no reply body is None). */
  function FinishCreate(v: View, captured: nat, reply: Option<nat>): (View, CreateOutcome) {
    if reply.None? || reply.value <= captured then (RequestResync(v), CreateRace)
    else if v.state == Shutdown then (v, Created)
    else (Await(v, reply.value, v.state == Ready || v.state == Synchronizing), Created)
  }

  datatype LoadResult = Value(entry: Entry) | Race | Failure

  /** What a cache read may return: the held entry, or nothing once it has expired. */
  predicate Seen(v: View, k: Key, seen: Option<Entry>) {
    seen.None? || seen == Held(v, k)
  }

  datatype Verdict = Verdict(result: LoadResult, resync: bool, store: bool)

  /**
   Arbitration between a loaded candidate and the cache at the `current` revision;
   `first` and `second` are the two cache reads.
   */
  function Arbitration(current: nat, captured: nat, candidate: Entry,
                       first: Option<Entry>, second: Option<Entry>): Verdict
  {
    if first.Some? && first.value.revision > candidate.revision && first.value.revision == current
    then Verdict(Value(first.value), false, false)
    else if candidate.revision > current then Verdict(Race, true, false)
    else if current != captured || candidate.revision != current then Verdict(Race, false, false)
    else if second.Some? && second.value.revision >= candidate.revision
    then Verdict(Value(second.value), false, false)
    else Verdict(Value(candidate), false, true)
  }

  /** The loader's commit section. */
  function Commit(v: View, k: Key, revision: nat, epoch: nat, candidate: Entry,
                  first: Option<Entry>, second: Option<Entry>): (View, LoadResult)
  {
    if v.state != Ready || v.epoch != epoch then (v, Race)
    else
      var d := Arbitration(v.revision, revision, candidate, first, second);
      (if d.resync then RequestResync(v) else if d.store then Store(v, k, candidate) else v, d.result)
  }

  predicate StillCurrent(v: View, revision: nat, epoch: nat) {
    v.state == Ready && v.revision == revision && v.epoch == epoch
  }

  /** Equal up to cache entries that recency or expiry dropped. */
  ghost predicate Shrinks(small: View, big: View) {
    && small.(credentials := big.credentials, vbuckets := big.vbuckets) == big
    && SubMap(small.credentials, big.credentials)
    && SubMap(small.vbuckets, big.vbuckets)
  }

  lemma FailShrinks(small: View, big: View)
    requires Shrinks(small, big)
    ensures Shrinks(Fail(small), Fail(big))
  {
  }

  lemma ResyncShrinks(small: View, big: View)
    requires Shrinks(small, big)
    ensures Shrinks(RequestResync(small), RequestResync(big))
  {
  }

  lemma CatchUpShrinks(small: View, big: View, f: Frame)
    requires Shrinks(small, big)
    ensures Shrinks(CatchUp(small.(revision := f.revision, cursor := f.cursor)),
                    CatchUp(big.(revision := f.revision, cursor := f.cursor)))
  {
  }
}
