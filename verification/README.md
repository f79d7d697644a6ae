# vbuckets, verified

vbuckets is an S3 proxy. Tenants see virtual buckets; a control plane tells the proxy, by a
revisioned watch and unary lookups, which credentials, base hosts and bucket mappings exist; and
every request is authenticated, planned, authorized, rewritten into the tenant's part of a real
bucket, signed, and its response rewritten back. This project models three connected parts of it
and proves what they are for.

**The control-plane client.** `contract.dfy` states what the control plane owes; `protocol.dfy` has
each lock-held section as a function of the client's view; `client.dfy` and `cache.dfy` are the
mutable objects, proved to compute those functions up to entries that recency or expiry drops;
`coherence.dfy` proves that each section keeps the caches and the registry equal to the truth;
`system.dfy` puts the client among any number of concurrent lookups, loads, creates and
disconnects; `runs.dfy` proves the results over whole runs and `liveness.dfy` what the client does
grant: which frames, replies and loads go through; `loadgroup.dfy` has single flight and
miss admission; `hosts.dfy` the base-host lookup. A section is one atomic step. Cache reads inside
a section only take the cache's own lock, but they touch nothing else the section reads, so they
commute with the rest of it.

**The virtual namespace.** `xml.dfy` is the response rewriter as a machine over XML tokens beside a
recursive transform of whole documents; `xmlproof.dfy` proves that the one refines the other;
`xmlrewriter.dfy` is the loop itself. `namespace.dfy` has the schemas and field transforms,
`presentation.dfy` what a client is shown by them, told by the meaning of each element,
`listing.dfy` the outbound query, `token.dfy` the opaque tokens over a concrete base64url,
`keys.dfy` keys, prefixes and tenants.

**Planning, signing and authorization.** `operations.dfy` and `planner.dfy` are the request
grammar, `sigv4.dfy` and `sigv4proof.dfy` the signer and verifier with `query.dfy` and
`percent.dfy` beneath, `tamper.dfy` what a signature covers, `forwarding.dfy` what is judged and
what is sent, `policy.dfy` the policy evaluator and its glob compiler, `authority.dfy` what a plan
is judged on, told from the request, and what a policy can therefore let through.

`dafny verify dfyconfig.toml` checks everything. SHA-256, HMAC, AES-GCM, float and time parsing, domain
normalization and the clock are parameters; where a proof needs a law of theirs it is a named
predicate (`Lawful`). A string is the sequence of its bytes, except in `policy.dfy`, where it is
the sequence of its runes.

Where the code differs from what is said of it:

- The protocol description says that a snapshot's start retires the base-host registry
  (`api/v1/controlplane.proto:158-161`); the code keeps the old registry until the barrier, and so
  does the model.
- `signRequest` signs every header present and then replaces Authorization, so for a request that
  already had one there are a digest and a MAC under which it does not verify (`RoundTripExactly`);
  the proxy deletes the header first (`http_server/s3_proxy.go:276`).
- The vbucket cache key joins two names with a slash, and a pair owns its key exactly when neither
  name holds one (`SlotOwnedExactly`); the access-key grammar and bucket validation admit no others,
  and coherence is stated for those.
- The associated data of tokens separates its fields with NUL and tells them apart exactly when none
  of them holds one (`TagOwnedExactly`), which is all that normalization lets through.

## Model

| member | source | states |
|---|---|---|
| `Runs.CacheCoherence` | controlplane/watch.go:301-506 | In every reachable state of every interleaving, each cached credential or vbucket answer is the control plane's record at the accepted revision, the base-host registry is exactly its base-host set at that revision, and a staged snapshot means empty caches and not Ready. |
| `Runs.LookupsAreLinearizable` | controlplane/lookup.go:95-189 | An answer, positive or negative, cached, loaded or joined from another caller's load, on the first attempt or after a retry, is the control plane's record at the revision the client was Ready at, at an instant between the call's begin and its return. |
| `Runs.CandidateNeverAhead` | controlplane/lookup.go:156-159 | At every commit of every run the loaded candidate is not ahead of the accepted revision, so the resync branch is never taken. |
| `Runs.NoAba` | controlplane/lookup.go:36-52 | If a stamp is current at two instants of a run, it is current at every instant between them. |
| `Runs.RequestSeesOneRevision` | http_server/s3_middleware.go:104-206 | Every dispatched request, with or without a mapping lookup, used credentials, base hosts and mapping of the one revision of its stamp, and the client was Ready at it from the stamp to the dispatch. |
| `Runs.ReadinessOverRuns` | controlplane/watch.go:18-59 | Ready means no staged snapshot, no owed barrier, no catch-up target and an accepted revision with a cursor; revisions never decrease, leaving Ready raises the epoch for good, and Shutdown is final. |
| `Runs.ReadyOnlyAfterBarrier` | controlplane/watch.go:116-168 | From any startup, connecting or disconnected state, a later Ready state has an accepted barrier in between, whatever frames were buffered. |
| `Runs.CatchUpFence` | controlplane/lookup.go:54-72 | Once a create or a unary reply reveals a revision to a running client, no later Ready state is behind it. |
| `Runs.RegistryChangesOnlyOnCommit` | controlplane/watch.go:349-361 | The registry changes only by an accepted snapshot barrier, which installs exactly what was staged, or an accepted live base-host event; an abandoned snapshot leaves no trace. |
| `Runs.HonestSnapshotIsAccepted` | controlplane/watch.go:317-405 | A full snapshot at a revision not behind the client, listing each normalized base host once within the bound, is accepted whole, installs exactly those hosts, and makes the client Ready exactly when no catch-up target is ahead. |
| `Runs.HonestBarrier` | controlplane/watch.go:335-361 | Its barrier is accepted, installs what was staged, and makes the client Ready exactly when no catch-up target is ahead. |
| `Runs.HonestResumeIsAccepted` | controlplane/watch.go:335-431 | Replaying every revision the client missed, whatever each changed and with heartbeats anywhere between, and then the barrier, is accepted whole, keeps coherence, and makes the client Ready exactly when no catch-up target is ahead. |
| `Runs.Progress` | controlplane/watch.go:18-39 | Between any two states of a run the client only advances: revision, epoch and fence never decrease, and a Ready client whose epoch is unchanged is still Ready. |
| `Runs.BarrierBetween` | controlplane/watch.go:335-373 | An owed barrier is settled only by an accepted barrier frame in between. |
| `Runs.BegunBefore` | controlplane/lookup.go:90-101 | Every lookup in a run was begun earlier under the key it still has. |
| `System.NextKeeps` | controlplane/watch.go:301-431 | Every step of every interleaving keeps the invariant, advances the client, and only an accepted barrier settles an owed one. |
| `System.InitInv` | controlplane/client.go:157-208 | The initial client with no callers meets the invariant. |
| `System.ClientStepKeeps` | controlplane/watch.go:116-168 | Watch frames, disconnects, reconnects and evictions keep the invariant. |
| `System.ReplyStepKeeps` | controlplane/lookup.go:136-167 | Unary replies, commits, create and list replies keep the invariant, and never settle a barrier nor bring a disconnected client back. |
| `System.LoadReplyKeeps` | controlplane/lookup.go:136-144 | A lookup reply keeps coherence and what the load then holds is the truth at the revision it asked for. |
| `System.CommitStepKeeps` | controlplane/lookup.go:148-167 | Committing a load keeps coherence, and its shared result is true at its revision. |
| `System.CreateReplyKeeps` | controlplane/lookup.go:407-428 | A create reply keeps coherence and puts its revision behind the fence. |
| `System.ListReplyKeeps` | controlplane/lookup.go:430-473 | A list reply keeps coherence and puts its revision behind the fence. |
| `System.CallerStepKeeps` | controlplane/lookup.go:95-189 | A lookup's own steps and the load group keep the invariant. |
| `System.LookupStepOk` | controlplane/lookup.go:103-121 | After each of its own steps a lookup still knows only what is true at its captured revision. |
| `Coherence.FrameKeeps` | controlplane/watch.go:301-431 | Processing any frame the contract allows keeps the client coherent with the control plane and moves it forward. |
| `Coherence.MutationKeeps` | controlplane/watch.go:406-431 | An accepted live mutation keeps every remaining cache entry and the registry equal to the truth at the next revision; a refused one leaves the client unready and coherent. |
| `Coherence.AppliedCredentials` | controlplane/watch.go:442-464 | A credential delta leaves only entries that are right after the mutation it names. |
| `Coherence.AppliedVBucket` | controlplane/watch.go:479-502 | A vbucket delta leaves only entries that are right after the mutation it names. |
| `Coherence.AppliedBaseHost` | controlplane/watch.go:465-478 | A base-host delta turns the registry into the next revision's base-host set. |
| `Coherence.SnapshotBeginKeeps` | controlplane/watch.go:318-334 | Starting a snapshot keeps the readiness invariant and coherence, advances the client and owes a barrier. |
| `Coherence.SnapshotEntryKeeps` | controlplane/watch.go:381-404 | Staging an entry keeps the readiness invariant, coherence and the installed registry, and tracks what the server has sent. |
| `Coherence.BarrierKeeps` | controlplane/watch.go:335-373 | An accepted barrier that the contract allows keeps the readiness invariant and coherence: an installed snapshot is the truth at its revision. |
| `Coherence.UnsynchronizeKeeps` | controlplane/watch.go:53-62 | Marking the client unsynchronized keeps coherence, caches and registry, drops the staged snapshot and owes a barrier. |
| `Coherence.ReopenKeeps` | controlplane/watch.go:116-168 | Opening a stream keeps coherence and the owed barrier. |
| `Coherence.CheckUnaryKeeps` | controlplane/lookup.go:54-72 | The revision check of a unary reply keeps coherence and raises the catch-up target to any revision ahead of the watch. |
| `Coherence.FinishCreateKeeps` | controlplane/lookup.go:393-428 | The end of a create keeps coherence and raises the catch-up target to the created revision. |
| `Coherence.CommitKeeps` | controlplane/lookup.go:148-167 | The commit section keeps coherence, never asks for a resync, and returns only answers that are true at their revision. |
| `Coherence.ResyncKeeps` | controlplane/watch.go:41-51 | Requesting a resync keeps coherence and owes a barrier. |
| `Coherence.SlotInjective` | controlplane/cache.go:133-135 | For slash-free names, two (access key, bucket) pairs share a cache key exactly when they are equal. |
| `Coherence.SlotOwnedExactly` | controlplane/cache.go:133-135 | A pair owns its cache key among all pairs exactly when neither name holds a slash. |
| `Client.Client.constructor` | controlplane/client.go:157-208 | A new client is the initial view with two empty caches. |
| `Client.Client.TransitionLocked` | controlplane/watch.go:18-39 | State change: Shutdown is sticky and leaving Ready raises the epoch. |
| `Client.Client.RequestResyncLocked` | controlplane/watch.go:41-51 | Owes a barrier and disconnects, unless shut down. |
| `Client.Client.MarkUnsynchronized` | controlplane/watch.go:53-62 | Leaves the state, drops the staged snapshot and owes a barrier. |
| `Client.Client.OpenWatch` | controlplane/watch.go:116-168 | Enters Synchronizing and asks to resume from the accepted pair. |
| `Client.Client.ProcessWatch` | controlplane/watch.go:301-431 | Refuses or applies one frame exactly as the specification function does, up to cache entries dropped by recency or expiry; on refusal the client owes a barrier and is Disconnected. |
| `Client.Client.SnapshotBeginLocked` | controlplane/watch.go:318-334 | Starts a staged snapshot, or fails without touching the caches. |
| `Client.Client.BarrierLocked` | controlplane/watch.go:335-373 | Accepts a resume or snapshot barrier for the exact pair, or fails. |
| `Client.Client.SnapshotBarrierLocked` | controlplane/watch.go:339-361 | Installs the staged registry at the barrier's revision and cursor, or fails. |
| `Client.Client.SettleLocked` | controlplane/watch.go:353-372 | Clears a met catch-up target and becomes Ready only without one. |
| `Client.Client.HeartbeatLocked` | controlplane/watch.go:374-378 | Accepts only the accepted pair outside a snapshot. |
| `Client.Client.SnapshotEntryLocked` | controlplane/watch.go:381-404 | Stages one new base host, or fails. |
| `Client.Client.MutationLocked` | controlplane/watch.go:406-431 | Applies the next revision's mutation and advances the accepted pair, or fails. |
| `Client.Client.CatchUpLocked` | controlplane/watch.go:424-429 | Clears a met target, and becomes Ready only when no barrier is owed. |
| `Client.Client.ApplyEntityLocked` | controlplane/watch.go:440-506 | Applies one delta to its cache or the registry. |
| `Client.Client.ApplyBaseHostLocked` | controlplane/watch.go:465-478 | Inserts or removes a normalized host within the bound. |
| `Client.Client.CheckUnaryRevision` | controlplane/lookup.go:54-72 | Accepts the expected revision; an older reply resyncs, a newer one raises the target. |
| `Client.Client.FinishCreate` | controlplane/lookup.go:407-428 | Refuses a create reply that is not ahead of the captured revision; otherwise raises the target. |
| `Client.Client.CommitLoad` | controlplane/lookup.go:148-167 | Returns and stores what arbitration between candidate and cache decides. |
| `Client.Client.LookupSnapshot` | controlplane/lookup.go:23-34 | The stamp returned is the one stamp that is current at that moment, and none is returned when none is current. |
| `Client.Client.ValidateResolution` | controlplane/lookup.go:47-52 | Accepts a stamp exactly when the client is Ready at that revision and epoch. |
| `Client.Arbitrate` | controlplane/lookup.go:151-167 | Two cache reads and at most one store decide as the pure arbitration does. |
| `Client.ApplyDeltaTo` | controlplane/watch.go:442-464 | A hot key gets a tombstone or is dropped, a cold key is never filled, a bad lifetime evicts and fails. |
| `Cache.HistorySound` | controlplane/cache.go:38-113 | After any sequence of operations the map and the recency list hold the same duplicate-free keys and never exceed the maximum. |
| `Cache.LostOnlyWhenOlder` | controlplane/cache.go:54-97 | A key neither expired nor invalidated is lost only after at least the maximum number of distinct other keys were set or hit since its last touch. |
| `Cache.EvictedIsOldest` | controlplane/cache.go:83-96 | When a set makes another key disappear, that key had at least the maximum number of distinct keys, counting the new one, in front of it. |
| `Cache.FrontWasTouched` | controlplane/cache.go:54-97 | Every key ahead of another in the recency list was touched after it. |
| `Cache.GetShrinks` | controlplane/cache.go:54-70 | A read drops at most an expired entry and returns what is held. |
| `Cache.SetAdds` | controlplane/cache.go:72-97 | A set with a positive lifetime adds at most its own entry. |
| `Cache.SetSound` | controlplane/cache.go:72-97 | A set keeps the structure sound and within the bound. |
| `Cache.LocalCache.constructor` | controlplane/cache.go:47-52 | An empty cache with the given bound, at least one. |
| `Cache.LocalCache.GetIfPresent` | controlplane/cache.go:54-70 | Moves a live entry to the front and returns it; drops an expired one. |
| `Cache.LocalCache.Set` | controlplane/cache.go:72-97 | Stores at the front and evicts the back when over the bound; a non-positive lifetime does nothing. |
| `Cache.LocalCache.Invalidate` | controlplane/cache.go:99-106 | Removes the key from map and list. |
| `Cache.LocalCache.InvalidateAll` | controlplane/cache.go:108-113 | Empties the cache. |
| `LoadGroup.SingleFlight` | controlplane/cache.go:152-199 | In every interleaving of joins, cancellations and completions at most one load per key runs, and the occupied slots are exactly the running loads, within the limit. |
| `LoadGroup.NoStaleResult` | controlplane/cache.go:152-199 | A call that starts after a completion was published never receives that result. |
| `LoadGroup.NextKeeps` | controlplane/cache.go:152-199 | Every step keeps joinable calls and open calls the same, with slots counting the running loads. |
| `LoadGroup.StaysClosed` | controlplane/cache.go:178-188 | A call that left the map never becomes joinable again. |
| `LoadGroup.Flights.Enter` | controlplane/cache.go:152-182 | Joins the key's call, or leads a new one when admitted, keeping the invariant. |
| `LoadGroup.Flights.Finish` | controlplane/lookup.go:129 | A returned load frees its slot. |
| `LoadGroup.Flights.Complete` | controlplane/cache.go:178-188 | Publishing removes the call from the map. |
| `Admission.WindowBound` | controlplane/cache.go:201-233 | With a clock that never goes back, the admissions in any window are at most burst plus rate times window. |
| `Admission.GrantsBounded` | controlplane/cache.go:214-231 | The admissions until an instant are at most the tokens held plus what the time earns. |
| `Admission.AcquireKeeps` | controlplane/cache.go:214-231 | One attempt keeps the bucket usable and pays a token for each admission. |
| `Admission.MissAdmission.TryAcquire` | controlplane/cache.go:214-231 | Takes a token, then a slot; a token taken without a free slot is spent. |
| `Admission.MissAdmission.Free` | controlplane/cache.go:233 | Releases one slot. |
| `Hosts.LookupBaseHost` | controlplane/lookup.go:222-262 | The answer is the longest registered label suffix of a valid host, and a miss means there is none. |
| `Hosts.ResolveBucket` | http_server/vbucket.go:190-218 | Virtual-hosted style splits the host into bucket and base host, path style splits the path at its first slash. |
| `Namespace.ResponsesAreRewritten` | http_server/s3_response.go:295-469 | For every profile and document: the rewriter accepts exactly the valid documents, then having emitted the schema-filtered, transformed, identity-replaced document; otherwise it emitted a prefix of it; that document holds no text beyond transformed fields, white space and plain scalars of the schema; and the owner-tracking error is not reached. |
| `XmlProof.RefinesTreeTransform` | http_server/s3_response.go:295-469 | The token machine refines the recursive tree transform: acceptance exactly on valid documents, exact output on acceptance, a prefix on failure. |
| `XmlProof.MachineFollows` | http_server/s3_response.go:311-451 | From every steady state and for every forest and continuation, the machine emits the ideal tokens and moves to the predicted state, or stops within them. |
| `XmlProof.IdealIsVirtual` | http_server/s3_response.go:353-441 | The ideal document holds only schema elements, kept attributes, transformed text in ruled fields, the virtual identity in identity containers, and elsewhere only white space or the text of plain scalars of the schema. |
| `XmlProof.OwnerStateNeverBad` | http_server/s3_response.go:418-421 | On every token stream, well formed or not, the owner-tracking error branch is unreachable. |
| `XmlProof.CutDocument` | http_server/s3_response.go:311-318 | However early the stream is cut, the client saw a prefix of the ideal document. |
| `XmlProof.CutStream` | http_server/s3_response.go:311-318 | On any token stream the output for a prefix is a prefix of the output for the whole. |
| `XmlProof.ContainerElement` | http_server/s3_response.go:413-431 | A plain container passes its start, its rewritten content and its end, and an object entry without a requested owner stops it. |
| `XmlProof.FieldElement` | http_server/s3_response.go:377-411 | A ruled field emits its transformed text, or stops after its start tag. |
| `XmlProof.IdentityElement` | http_server/s3_response.go:355-376 | An identity container's content is replaced whole. |
| `XmlProof.UnknownElement` | http_server/s3_response.go:335-343 | An element outside the schema is skipped with all it holds. |
| `XmlRewriter.RewriteNamespaceXml` | http_server/s3_response.go:295-469 | The one-pass loop with its mutable stack, flags and seen fields emits the machine's output and succeeds exactly when the machine accepts. |
| `XmlRewriter.OpenElement` | http_server/s3_response.go:320-411 | Handling one start tag equals the machine's step, including every refusal. |
| `XmlRewriter.CloseElement` | http_server/s3_response.go:413-431 | Handling one end tag equals the machine's step, including the owner check. |
| `XmlRewriter.CheckComplete` | http_server/s3_response.go:454-468 | The flags kept along the way decide completeness as the whole list of fields does. |
| `XmlRewriter.ReadElementText` | http_server/s3_response.go:485-510 | Accumulates the text of an element with no child elements, within the size limit. |
| `XmlRewriter.FilterAttributes` | http_server/s3_response.go:861-872 | Keeps exactly the attributes that are kept one by one, in order. |
| `Namespace.ProfilesAreSane` | http_server/s3_response.go:556-616 | Every profile's schema knows its root and puts no rule on the object entry itself. |
| `Schema.ParentsAreContainers` | http_server/s3_response.go:471-483 | The parent of every schema path is classified as a container. |
| `Namespace.MarkerReturns` | http_server/s3_response.go:800-839 | A non-empty next marker, read by the client and sent back, reaches the origin as the origin issued it, plain or url-encoded. |
| `Namespace.KeyReturns` | http_server/s3_response.go:800-839 | A virtualized key, read by the client and put under the root again, is the key the origin named. |
| `Namespace.ContinuationReturns` | http_server/s3_response.go:637-641 | A next continuation token sent back reaches the origin as the value it issued. |
| `Namespace.UploadMarkerReturns` | http_server/s3_response.go:655-659 | A next upload marker sent back reaches the origin as the value it issued. |
| `Namespace.FaithfulKeyEcho` | http_server/s3_response.go:713-743 | A key echo is accepted exactly when it repeats what the origin was asked for, and then shows the client its own value, plain or url-encoded. |
| `Namespace.FaithfulContinuationEcho` | http_server/s3_response.go:642-654 | A continuation echo is accepted exactly when it repeats what was sent, and shows the client's own token. |
| `Namespace.FaithfulUploadEcho` | http_server/s3_response.go:660-675 | An upload echo is accepted exactly when it repeats what was sent, and shows the client's own token. |
| `Listing.TokenReturns` | http_server/s3_list_rewrite.go:30-47 | Any continuation, upload-marker, upload or version token, issued for an origin value and sent back, is accepted and reaches the origin as that value. |
| `Listing.OutboundKeyField` | http_server/s3_list_rewrite.go:10-29 | Prefix and marker parameters reach the origin under the tenant's root, an absent marker stays absent. |
| `Listing.OutboundToken` | http_server/s3_list_rewrite.go:30-47 | Each token parameter reaches the origin as the value its token stands for. |
| `Listing.DecodesExactly` | http_server/s3_list_rewrite.go:30-47 | The rewrite fails exactly when some token parameter is not one of the proxy's tokens. |
| `Listing.DecodedFields` | http_server/s3_list_rewrite.go:30-47 | Token decoding changes only token parameters. |
| `Listing.RewriteOutboundQuery` | http_server/s3_list_rewrite.go:8-48 | The loop over parameters computes the outbound query. |
| `Token.DecodeUndoesEncode` | http_server/s3_token.go:16-62 | Decoding undoes encoding for every non-empty value. |
| `Token.EncodeUndoesDecode` | http_server/s3_token.go:31-62 | A token that decodes to a non-empty value is exactly the encoding of that value. |
| `Token.TokensAreUnique` | http_server/s3_token.go:31-62 | Two tokens decode alike exactly when they are the same string. |
| `Token.TaggedInjective` | http_server/s3_token.go:113-121 | With NUL-free purpose, endpoint and bucket, the tagged text determines purpose, endpoint, bucket and prefix, both for the associated data and for the subkeys. |
| `Token.NulCollides` | http_server/s3_token.go:113-121 | A NUL in the purpose, endpoint, bucket or prefix gives the tagged text a second reading as another mapping's. |
| `Token.TagOwnedExactly` | http_server/s3_token.go:113-121 | The tagged text tells purpose, endpoint, bucket and prefix apart among all mappings exactly when none of them holds a NUL. |
| `Token.KindsAreSeparate` | http_server/s3_token.go:31-35 | A token of one kind is never accepted as another kind. |
| `Token.CacheIsTransparent` | http_server/s3_token.go:73-84 | A cached cipher is used only when building one afresh gives the same cipher. |
| `Base64.DecodeUndoesEncode` | http_server/s3_token.go:28 | Unpadded base64url decoding undoes encoding on every byte string. |
| `Base64.CanonicalExactly` | http_server/s3_token.go:37-43 | A decodable text re-encodes to itself exactly when it has no line breaks, which is what the re-encoding check refuses. |
| `Tenancy.IsolatedExactly` | http_server/vbucket.go:133-141 | Two normalized prefixes reach a common real key with accepted virtual keys exactly when one root is a prefix of the other. |
| `Tenancy.ListsAreIsolated` | http_server/s3_proxy.go:222-239 | A listing under one root matches no key of a tenant with a non-overlapping root. |
| `Tenancy.OutboundStaysUnderRoot` | http_server/s3_proxy.go:342-360 | Dot-segment removal (section 5.2.4 of RFC 3986) is the identity on every outbound object path, so it stays under the tenant's root. |
| `Keys.RootedKeyIsValid` | http_server/s3_proxy.go:222-233 | A tenant's root before a valid key is a valid key. |
| `Keys.NormalizePrefix` | http_server/vbucket.go:133-141 | A prefix is accepted exactly when, without outer slashes, it is empty or made of safe segments. |
| `Keys.RootOf` | http_server/s3_proxy.go:222-225 | The root of a normalized prefix is the prefix and exactly one slash. |
| `Keys.ValidateVirtualObjectKey` | http_server/s3_operation.go:346-364 | A key is accepted exactly when it is UTF-8 without control characters or backslashes and without dot segments. |
| `SigV4Proof.SignedRequestVerifies` | http_server/s3_auth.go:42-126 | A signed request with canonical headers, no session token, trailer or earlier Authorization header, and a valid key and region, parses to its access key and verifies under the same secret within the skew. |
| `SigV4Proof.RoundTripExactly` | http_server/s3_auth.go:357-387 | The round trip holds for every digest and MAC exactly when the request carried no Authorization header before it was signed. |
| `SigV4Proof.CanonicalChanges` | http_server/s3_auth.go:365-374 | If it did, the verifier rebuilds a different canonical request, because the signed header has been replaced. |
| `SigV4Proof.ParseUndoesPrint` | http_server/s3_auth.go:42-101 | Parsing the printed Authorization value gives back exactly the fields printed. |
| `SigV4Proof.SignedNamesValid` | http_server/s3_auth.go:103-126 | The signer's header list always passes the verifier's validation. |
| `SigV4Proof.SignedNamesAre` | http_server/s3_auth.go:365-374 | The signed list is strictly ascending and is exactly the host and the headers present. |
| `SigV4Proof.SameCanonical` | http_server/s3_auth.go:133-181 | Adding the Authorization header leaves the canonical request unchanged when it was absent. |
| `SigV4Proof.SameHeader` | http_server/s3_auth.go:155-161 | Header names canonicalize alike exactly when they agree up to letter case. |
| `SigV4.SignRequest` | http_server/s3_auth.go:357-387 | Sets the date, payload and Authorization headers to the specified signature over every header present. |
| `SigV4.BuildCanonicalRequest` | http_server/s3_auth.go:133-181 | The builder writes exactly the canonical request. |
| `SigV4.ValidateSignedHeaders` | http_server/s3_auth.go:103-126 | Accepts exactly lower-case, strictly ascending lists with the host and the date. |
| `SigV4.HeadersToSign` | http_server/s3_auth.go:365-374 | Collects and sorts the names to sign whatever order the header map is walked in. |
| `Headers.CanonicalHeaderValue` | http_server/s3_auth.go:183-189 | The replace-until-stable loop is the one-pass collapse of space runs after trimming, and leaves no double space. |
| `Headers.CollapseReplaced` | http_server/s3_auth.go:183-189 | Replacing pairs of spaces once does not change what collapsing gives. |
| `Query.CanonicalFaithful` | http_server/s3_auth.go:191-211 | Two queries have equal canonical strings exactly when they hold the same pairs equally often. |
| `Query.CanonicalQueryString` | http_server/s3_auth.go:191-211 | The sorting loops produce that string whatever order the map is walked in. |
| `Query.JoinedInjective` | http_server/s3_auth.go:200-210 | The joined text determines the list of pairs. |
| `Query.CanonicalPairsSorted` | http_server/s3_auth.go:193-207 | The pairs come out sorted by key, then by value. |
| `Sorting.SortedUnique` | http_server/s3_auth.go:193-203 | There is one sorted arrangement of a multiset, so the sort's result does not depend on its input order. |
| `Percent.UnescapeUndoesEncode` | http_server/s3_auth.go:213-224 | Path unescaping undoes the encoder on every byte string. |
| `Percent.EncodedAlphabet` | http_server/s3_auth.go:213-224 | The encoder emits only unreserved characters and percent signs, never = or &. |
| `Percent.AwsUriEncode` | http_server/s3_auth.go:213-224 | The byte loop computes the encoding. |
| `Operations.GuardsAreExclusive` | http_server/s3_operation.go:184-343 | For every verb, scope, copy-header presence and query map at most one operation guard holds. |
| `Operations.GuardFixesMarks` | http_server/s3_operation.go:184-343 | A query that matches an operation holds exactly that operation's distinguishing parameters. |
| `Operations.QueryMatches` | http_server/s3_operation.go:432-461 | The loops decide exactly: required parameters with their values, nothing beyond required, optional and x-id, one value each, x-id naming the operation. |
| `Planner.PlanS3Operation` | http_server/s3_operation.go:131-344 | A request is planned exactly when it is well formed and fits an operation whose header names it respects, then as that operation, for its own bucket, key, query and headers. |
| `Planner.OrderNeverMatters` | http_server/s3_operation.go:184-343 | When one branch applies no other does, so any order of the branches selects the same operation. |
| `Planner.ChecksNameTheRequest` | http_server/s3_operation.go:864-878 | Every plan has a first check on its own resource, every other check names the same resource or the copy source in the same bucket, and ACL and tagging headers add theirs. |
| `Planner.ObjectArnInjective` | http_server/iam.go:184-190 | An object resource names one bucket and one key. |
| `Planner.ForwardedKeyIsPlanned` | http_server/s3_proxy.go:313-330 | An accepted plan forwards its own key under the tenant's root, and no key for bucket operations. |
| `Planner.JudgedIsSent` | http_server/s3_proxy.go:362-406 | For every plan of a request with canonical header names, a policy that looked at the outgoing request, before or after signing, would see the same header conditions it judged, the rewritten copy source excepted. |
| `Planner.SentHeadersAreTaken` | http_server/s3_operation.go:524-582 | Every header a plan sends on is one its operation takes. |
| `Forwarding.ValidateHeadersForOperation` | http_server/s3_operation.go:515-582 | Accepts exactly requests whose Connection nominates no end-to-end header and whose every header the operation takes. |
| `Forwarding.BuildHeaderConditions` | http_server/iam.go:126-133 | The header conditions of a policy context are exactly the non-empty values of the headers a policy can test. |
| `Planner.CanonicalHeaderClone` | http_server/s3_operation.go:821-828 | The header snapshot of a request with canonical names is its headers. |
| `Forwarding.RemovalDropsNothingSafe` | http_server/s3_operation.go:515-524 | When Connection nominates no forwardable header, hop-by-hop removal (section 7.6.1 of RFC 9110) drops no header that may be sent on. |
| `Forwarding.CopyOutboundRequestHeaders` | http_server/s3_proxy.go:362-373 | Copies exactly the safe headers that are not hop-by-hop, with all their values. |
| `Forwarding.HopByHopHeaderSet` | http_server/s3_proxy.go:392-406 | The fixed names and every name nominated by Connection. |
| `Forwarding.AllHeaderValues` | http_server/s3_operation.go:830-838 | With canonical names, collecting values by case-insensitive name is a lookup. |
| `Policy.Authorize` | iam/policy.go:184-204 | The loop with its early return decides: explicit deny if some Deny applies, else allowed if some Allow applies, else implicit deny. |
| `Policy.OrderIsIrrelevant` | iam/policy.go:184-285 | Reordering or repeating statements, their patterns, conditions or values changes no decision. |
| `Policy.DenyOnlyRemoves` | iam/policy.go:184-204 | Adding a Deny statement gives an explicit deny where it applies and changes nothing elsewhere. |
| `Policy.AuthorizeAll` | http_server/iam.go:88-99 | A plan is authorized exactly when each of its checks is allowed. |
| `Policy.StatementMatches` | iam/policy.go:206-219 | A statement applies exactly when action and resource match in their modes and every condition holds. |
| `Policy.MatchesByMode` | iam/policy.go:221-233 | Some pattern matches, negated in the negative mode. |
| `Policy.ConditionMatches` | iam/policy.go:235-267 | A condition holds as its quantified meaning says, with missing keys satisfying only negative operators and Null asking about presence. |
| `Policy.ValueMatchesAny` | iam/policy.go:269-285 | Some expected value matches the actual one. |
| `Policy.ExpectedAlwaysParses` | iam/policy.go:614-639 | Every expected operand of an accepted condition parses. |
| `Policy.ConditionsCompare` | iam/policy.go:287-330 | So numeric, date and Boolean conditions compare exactly the actual values that parse. |
| `Policy.NullMeaning` | iam/policy.go:238-249 | An accepted Null condition asks for absence exactly when it lists "true". |
| `Policy.ValidateConditionOperands` | iam/policy.go:614-639 | Accepts exactly operators that fit the key type with operands that parse. |
| `Wildcard.RegexDenotesGlob` | iam/policy.go:516-567 | The emitted regular expression matches a string exactly when the string splits into pieces as the glob says, with * and ? ranging over non-newline characters and all else literal. |
| `Wildcard.EmittedReadsBack` | iam/policy.go:554-567 | The emitted text reads back as one atom for each pattern character. |
| `Wildcard.LiteralMatchesItself` | iam/policy.go:554-567 | A pattern without wildcards matches itself alone. |
| `Wildcard.WildcardToRegex` | iam/policy.go:554-567 | The builder loop emits that text. |
| `Liveness.CurrentLookupsAreAnswered` | controlplane/lookup.go:123-189 | A lookup whose load got a well-shaped reply at its revision, while its stamp stayed current from the reply to the check, is answered with the control plane's record at that revision. |
| `Liveness.CurrentHitsAreAnswered` | controlplane/lookup.go:103-114 | A lookup that read the cache and finds its stamp still current is answered with the record at that revision. |
| `Liveness.FreshAnswerIsGiven` | controlplane/lookup.go:148-167 | A true candidate committed while its stamp is current makes the load return the truth, and the cache then holds it unless it already held an answer; no other key is touched. |
| `Liveness.CommitAnswersExactly` | controlplane/lookup.go:148-167 | A commit answers exactly when the captured revision is still the accepted one or the cache holds an answer at it, always with the truth there, and otherwise reports a race. |
| `Liveness.RepliesExactly` | controlplane/lookup.go:191-220 | Exactly the replies of one of the two shapes, found with a lifetime or absent with a negative lifetime, give an entry, with what was found, the revision and the lifetime of the reply. |
| `Liveness.StaleRepliesResync` | controlplane/lookup.go:54-72 | A reply from before the captured view makes the client start over; a create succeeds exactly when its revision is ahead of the captured one, and otherwise makes the client start over. |
| `Liveness.AheadIsAwaited` | controlplane/lookup.go:54-72 | A reply or create ahead of the watch keeps a Ready client from being Ready until the watch has caught up. |
| `Liveness.HeartbeatsExactly` | controlplane/watch.go:374-378 | A heartbeat is accepted exactly when it repeats the accepted revision and the cursor of that revision, and then changes nothing. |
| `Liveness.AcceptedFramesObey` | controlplane/watch.go:301-431 | Whatever the server sends: an accepted frame obeys the rules of the stream (contiguous revisions, fresh cursors, repeated pairs, base hosts only in snapshots, no going back), and a refused one disconnects the client and leaves the accepted pair and registry as they were. |
| `Liveness.SnapshotCursors` | controlplane/watch.go:339-347 | A snapshot at the accepted revision must end in the same cursor, and one at a newer revision in another. |
| `Liveness.DeltasTouchOnlyTheirKey` | controlplane/watch.go:440-506 | An accepted mutation touches no cached key but the one it names, never fills it, drops it on an update, and on a removal leaves an absence for the given time only if the key was held. |
| `Runs.ReconnectRecovers` | controlplane/watch.go:116-168 | After any disconnect, opening the next stream lets an honest snapshot or an honest resume bring the client back to Ready. |
| `Cache.HeldIsLatest` | controlplane/cache.go:54-113 | After any history, what a key holds is what the last operation to decide on it stored, with its own deadline. |
| `Cache.ServedIsLive` | controlplane/cache.go:54-70 | Nothing is served later than its lifetime after it was stored, nor after it was invalidated or overwritten. |
| `Cache.SetThenGet` | controlplane/cache.go:54-97 | A stored value is served until its lifetime has passed and not after. |
| `LoadGroup.EnterServes` | controlplane/cache.go:152-182 | A caller waits for an open call of its own key, is refused exactly when it would have to lead and is not admitted, and joining spends no admission. |
| `Admission.IdleAdmits` | controlplane/cache.go:214-231 | A bucket with a free slot that was idle long enough to earn a token admits. |
| `Admission.BurstAdmits` | controlplane/cache.go:214-231 | At one instant as many tries in a row are admitted as there are whole tokens and free slots. |
| `Presentation.ClientsSeeTheirOwnNamespace` | http_server/s3_response.go:295-469 | On every document, without naming a rule: the client sees a document, or on a refusal a prefix of one, in which every bucket, key, token, location and owner is its own form of what the origin wrote in that element, other text comes as it was, and only namespace declarations remain of the attributes. |
| `Presentation.FieldsAreHonest` | http_server/s3_response.go:623-711 | Whatever rule stands at a path with a namespace meaning, what is shown there is the virtual bucket, a key that under the root is the origin's and that the client may ask for, its own request key, parameter or token, or a token that decodes to what the origin sent. |
| `Presentation.HonestFieldsAreShown` | http_server/s3_response.go:623-711 | The converse: a text that has such a form at its path is never refused. |
| `Presentation.MeaningsAreRuled` | http_server/s3_response.go:556-621 | No schema path with a namespace meaning goes without a transform. |
| `Presentation.IdentitiesAreOwners` | http_server/s3_response.go:556-616 | Exactly the owner and initiator elements are replaced by the virtual identity. |
| `Presentation.DelimitersAreFaithful` | http_server/s3_response.go:745-767 | A delimiter is accepted exactly when it repeats the request's, and is shown as it came. |
| `Presentation.EncodingsAreFaithful` | http_server/s3_response.go:745-767 | The same for the encoding type. |
| `Presentation.PagesAreFaithful` | http_server/s3_response.go:769-798 | A page parameter is accepted exactly when it is the number asked for, or its default if none was. |
| `Presentation.TruncationIsBoolean` | http_server/s3_response.go:697-702 | A truncation mark is shown as true or false, or refused. |
| `Presentation.AcceptedResponsesAreComplete` | http_server/s3_response.go:454-458 | An accepted upload, part, completion or copy response showed every element the client cannot do without. |
| `Presentation.TruncatedPagesContinue` | http_server/s3_response.go:454-468 | No accepted page that says it is truncated has an empty next token or lacks its next part marker. |
| `Listing.ListingsStayUnderRoot` | http_server/s3_list_rewrite.go:10-29 | Whatever the client asks for, the origin lists under the tenant's root and from a key under it, with the client's own prefix and marker behind the root. |
| `Listing.OtherParametersPass` | http_server/s3_list_rewrite.go:8-48 | Parameters that name no key and hold no token reach the origin as the client sent them. |
| `Listing.EchoedIsAskable` | http_server/s3_operation.go:184-343 | Whatever a listing may echo, its request may ask for. |
| `Token.TokensAreBoundExactly` | http_server/s3_token.go:16-62 | A token opens under a mapping, for all sealing and MAC functions, exactly when it was made under the same endpoint, bucket, prefix and routing key. |
| `Token.NonceBindsExactly` | http_server/s3_token.go:16-30 | Two tokens share a nonce under every MAC exactly when they have the same kind and value. |
| `Tamper.SignatureCoversExactly` | http_server/s3_auth.go:248-315 | The signature made for one request fits another under every digest and MAC exactly when both agree in verb, path, query pairs, payload hash and every signed header (no part holds a line break, as HTTP delivers them). |
| `Tamper.AlteredIsRefused` | http_server/s3_auth.go:248-315 | A request altered in any of these is refused under some digest and MAC, at every time and by every secret. |
| `Tamper.CanonicalLines` | http_server/s3_auth.go:133-181 | Split at line breaks, the canonical request is the verb, the path, the canonical query, one line for each signed header with its name and values, an empty line, the names and the payload hash. |
| `Tamper.CanonicalCoversExactly` | http_server/s3_auth.go:133-181 | Two canonical requests are equal exactly when they sign the same headers and agree in all that is signed. |
| `Tamper.SignedHeadersAgree` | http_server/s3_auth.go:148-172 | Agreeing on a signed header means the same host, or the same values, up to outer and repeated spaces. |
| `Tamper.StringToSignLines` | http_server/s3_auth.go:226-232 | The string to sign is the algorithm, the time, the scope and the digest, line by line. |
| `Tamper.SigningKeyBinds` | http_server/s3_auth.go:234-242 | With a collision-free MAC the signing key determines the secret, date, region and service. |
| `Tamper.VerifiesExactlyWithin` | http_server/s3_auth.go:290-299 | A signed request verifies exactly within the allowed skew before and after the moment it was signed. |
| `Tamper.AddedAmzHeaderIsRefused` | http_server/s3_auth.go:329-351 | A request with an x-amz header that was not there when it was signed is refused, whatever the functions. |
| `SigV4Proof.PrintUndoesParse` | http_server/s3_auth.go:42-101 | The parser accepts only the printed form of what it returns, with a valid access key, date, header list and signature and the scope of its date and region. |
| `SigV4.VerifySignatureAtTime` | http_server/s3_auth.go:248-315 | Accepts exactly the requests that pass the header checks, the time checks and the signature comparison. |
| `SigV4.RequireSignedAmzHeaders` | http_server/s3_auth.go:329-351 | Accepts exactly when every x-amz header, the payload hash excepted, is among the signed ones. |
| `Authority.PlansAskForTheRequest` | http_server/s3_operation.go:184-343 | Every plan asks first for the permission its method, address and subresource need, on exactly what the request addresses. |
| `Authority.ActionsFollowVerbs` | http_server/s3_operation.go:184-343 | A plan's first action is a Get or List action exactly for GET and HEAD, a Delete or Abort action exactly for DELETE, and a version action exactly when the query holds versionId. |
| `Authority.HeadersAreAskedFor` | http_server/s3_operation.go:864-878 | Whenever a planned request carries an access control list, tags or a copy source, the plan asks for the permission to set or to read it. |
| `Authority.ReadOnlyPoliciesOnlyRead` | http_server/iam.go:88-99 | A policy that allows only Get and List actions authorizes no plan with any other verb than GET and HEAD. |
| `Authority.GetAndListPatternsAreReadOnly` | iam/policy.go:221-233 | Every policy whose Allow statements name only patterns under s3:get and s3:list is such a policy. |
| `Authority.PlansHoldValidKeys` | http_server/s3_operation.go:346-414 | A plan holds valid keys only, in its address and in its query, and page sizes and part numbers within their bounds. |
| `Forwarding.CarriedHeadersAreSent` | http_server/s3_proxy.go:362-390 | On an admitted request every x-amz, read and body header the operation carries goes out as it came, the copy source and the signer's own headers excepted. |
| `Policy.NumericOrder` | iam/policy.go:298-312 | A numeric condition on one value holds exactly when both numbers parse and stand in the operator's order. |
| `Policy.DateOrder` | iam/policy.go:313-327 | The same for dates. |
| `Policy.NegativeIsComplement` | iam/policy.go:235-267 | A negative operator is the complement of its positive one, on present and missing keys alike, and a positive operator fails on a missing key. |
| `Policy.ValuesAreAlternatives` | iam/policy.go:250-267 | A positive condition on a key with two values holds when it would hold on either alone. |
| `Policy.ConditionsNarrow` | iam/policy.go:206-219 | A condition narrows a statement by exactly what it asks. |
| `Policy.LiteralPolicy` | iam/policy.go:184-233 | A policy of one Allow for a literal action and resource lets through exactly that action, in any letter case, on that resource, and nothing once the same Deny is added. |
| `Keys.PrintableHasNoControl` | http_server/s3_operation.go:346-364 | An accepted key holds no control byte, and every text of visible ASCII passes the character check. |

## Left out

- gRPC, TLS, dialing, timers, backoff and goroutine scheduling: their effects are the steps a run may take at any time (frame, disconnect, reconnect, error, timeout).
- 64-bit wrap-around of revisions and epochs: both are natural numbers.
- The contents of a ListVBuckets answer: only its revision check is modelled.
- The cloning of cached records, and records' inner fields: a record is an opaque value.
- Metrics, logging, status, health and environment loading.
- Public-suffix, IP and endpoint URL checks: normalization of base domains and addresses is a parameter.
- XML lexing and encoding, JSON, URL parsing and header wire parsing: documents are token streams, queries and headers are maps.
- Encoder and writer errors while rewriting a response: the model's output is always written.
- Copy-source string parsing: the planner receives the parsed source, whose key passes the key validator in the same bucket.
- Planner.PlanS3Operation: checks of single header values (canned ACLs, encryption modes, checksums, directives, singletons) and of the body enter as one Boolean for each operation, because they relate nothing to other parts; header names and Connection are modelled.
- Namespace.MarkerReturns: an empty virtual marker (the origin marker is exactly the tenant's root) is not sent back, as the code never sends an empty marker.
- Response header allowlists, error-code tables, body streaming and multipart completion bodies.
- Letter-case mapping outside ASCII: header names, hosts and actions are lowered in ASCII only.
- Float rounding in the token bucket and in numeric conditions: both use exact reals.
- Cryptographic strength: the laws used say only that opening undoes sealing and that sealing is deterministic; what a signature, nonce or token binds is stated as what some lawful functions tell apart.
- JSON parsing of policies and policy size limits: a policy is its compiled statements.
