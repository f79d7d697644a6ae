/**
 The control plane as api/v1/controlplane.proto promises it: one authoritative world
 and one cursor per revision, unary replies evaluated at their own revision, watch
 frames that name what changed, and snapshots that carry the whole base-host set.
 */
module Contract {
  import opened Common

  /** The parsed payload of a found record: secret and policy, or a bucket mapping. */
  type Record = string

  datatype Key =
    | CredentialKey(accessKey: string)
    | VBucketKey(accessKey: string, bucket: string)

  datatype World = World(records: map<Key, Record>, hosts: set<string>)

  datatype History = History(world: nat -> World, cursor: nat -> string)

  /** Revision zero is the empty world; a cursor names exactly one revision. */
  ghost predicate Canonical(h: History) {
    && h.world(0) == World(map[], {})
    && (forall r: nat :: h.cursor(r) != "")
    && (forall r: nat, q: nat :: h.cursor(r) == h.cursor(q) ==> r == q)
  }

  ghost function Truth(h: History, r: nat, k: Key): Option<Record> {
    Get(h.world(r).records, k)
  }

  // ------------------------------------------------------------- wire messages

  datatype Duration = Absent | Invalid | Nanos(n: int)

  datatype Event =
    | SnapshotBegin
    | Barrier
    | Heartbeat
    | CredentialsDelta(accessKey: string, remove: bool, negativeTtl: Duration)
    | VBucketDelta(accessKey: string, bucket: string, remove: bool, negativeTtl: Duration)
    | BaseHostDelta(host: string, remove: bool)
    | NoEvent

  datatype Frame = Frame(event: Event, revision: nat, cursor: string)

  /** A lookup reply.  `payload` is what the positive fields parse to, if they parse. */
  datatype Reply = Reply(revision: nat, found: bool, payload: Option<Record>, positiveFields: bool,
                         ttl: Duration, negativeTtl: Duration)

  datatype Entry = Entry(answer: Option<Record>, revision: nat, ttl: int)

  function CacheTtl(d: Duration): Option<int> {
    if d.Nanos? && d.n > 0 then Some(d.n) else None
  }

  /** The cache entry a reply stands for; a reply of neither valid shape has none. */
  function ResponseEntry(r: Reply): (e: Option<Entry>)
    ensures e.Some? ==> e.value.revision == r.revision > 0 && e.value.ttl > 0
    ensures e.Some? ==> (e.value.answer.Some? <==> r.found)
  {
    if r.revision == 0 then None
    else if !r.found then
      if r.positiveFields || r.ttl != Absent then None
      else match CacheTtl(r.negativeTtl)
        case None => None
        case Some(ttl) => Some(Entry(None, r.revision, ttl))
    else if r.negativeTtl != Absent || r.payload.None? then None
    else match CacheTtl(r.ttl)
      case None => None
      case Some(ttl) => Some(Entry(r.payload, r.revision, ttl))
  }

  // ---------------------------------------------------------------- obligations

  ghost predicate SameExcept(a: map<Key, Record>, b: map<Key, Record>, named: Key) {
    forall k :: k != named ==> Get(a, k) == Get(b, k)
  }

  /** A key the proxy may look up: names that reach a lookup contain no slash. */
  predicate Plain(k: Key) {
    k.VBucketKey? ==> '/' !in k.accessKey && '/' !in k.bucket
  }

  /** A unary reply tells the truth at the revision it carries. */
  ghost predicate Truthful(h: History, k: Key, r: Reply) {
    ResponseEntry(r).Some? ==> ResponseEntry(r).value.answer == Truth(h, r.revision, k)
  }

  /** A live mutation at revision r names the one thing that changed since r - 1. */
  ghost predicate Describes(h: History, normalize: string -> Option<string>, f: Frame)
    requires f.revision > 0
  {
    var before, after := h.world(f.revision - 1), h.world(f.revision);
    match f.event
    case CredentialsDelta(a, remove, _) =>
      && after.hosts == before.hosts
      && SameExcept(before.records, after.records, CredentialKey(a))
      && (remove ==> CredentialKey(a) !in after.records)
    case VBucketDelta(a, b, remove, _) =>
      && after.hosts == before.hosts
      && SameExcept(before.records, after.records, VBucketKey(a, b))
      && (remove ==> VBucketKey(a, b) !in after.records)
    case BaseHostDelta(host, remove) =>
      && after.records == before.records
      && (normalize(host).Some? ==>
            after.hosts == if remove then before.hosts - {normalize(host).value}
                           else before.hosts + {normalize(host).value})
    case _ => true
  }

  /** What one stream has sent of a snapshot whose barrier is still to come. */
  datatype Sent = Sent(revision: nat, hosts: set<string>)

  /** What the server owes when it sends `f` after `sent` on one stream. */
  ghost predicate Owes(h: History, normalize: string -> Option<string>, sent: Option<Sent>, f: Frame) {
    && (f.cursor != "" ==> f.cursor == h.cursor(f.revision))
    && match f.event
       case SnapshotBegin => true
       case Barrier =>
         sent.Some? && f.revision == sent.value.revision
         ==> sent.value.hosts == h.world(f.revision).hosts
       case Heartbeat => true
       case NoEvent => true
       case _ => sent.None? && f.revision > 0 ==> Describes(h, normalize, f)
  }

  ghost function NextSent(normalize: string -> Option<string>, sent: Option<Sent>, f: Frame): Option<Sent> {
    match f.event
    case SnapshotBegin => Some(Sent(f.revision, {}))
    case Barrier => None
    case BaseHostDelta(host, _) =>
      if sent.Some? && normalize(host).Some?
      then Some(sent.value.(hosts := sent.value.hosts + {normalize(host).value}))
      else sent
    case _ => sent
  }
}
