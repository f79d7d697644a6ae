/** Which request headers are judged and which are sent: http_server/s3_proxy.go and http_server/iam.go. */
module Forwarding {
  import opened Common
  import opened Text
  import opened Query
  import opened Headers
  import opened Operations
  import opened SigV4
  import opened SigV4Proof

  // ----------------------------------------------------------- header classes

  predicate Amz(name: string) {
    "x-amz-" <= Lower(name)
  }

  predicate ReadsObject(op: Kind) {
    op == GetObject || op == GetObjectVersion || op == HeadObject || op == HeadObjectVersion
  }

  predicate ReadHeader(name: string) {
    name in {"Range", "If-Match", "If-Modified-Since", "If-None-Match", "If-Unmodified-Since", "If-Range"}
  }

  predicate SendsBody(op: Kind) {
    || op == CreateBucket || op == PutObject || op == PutObjectAcl || op == PutObjectTagging || op == CopyObject
    || op == CreateMultipartUpload || op == UploadPart || op == CompleteMultipartUpload
  }

  predicate BodyHeader(name: string) {
    name in {"Cache-Control", "Content-Disposition", "Content-Encoding", "Content-Language", "Content-Md5", "Content-Type",
             "Expect", "Expires"}
  }

  /** Headers that may be sent on to the origin. */
  predicate Safe(name: string, op: Kind) {
    || Amz(name) || name == "Accept" || name == "User-Agent"
    || (name == "Accept-Encoding" && ReadsObject(op))
    || (ReadsObject(op) && ReadHeader(name)) || (SendsBody(op) && BodyHeader(name))
  }

  // ---------------------------------------------------------- hop-by-hop names

  const HOP_BY_HOP: set<string> :=
    {"Connection", "Keep-Alive", "Proxy-Authenticate", "Proxy-Authorization", "Te", "Trailer", "Transfer-Encoding", "Upgrade"}

  function NominatedIn(connection: string): set<string> {
    set t | t in Split(connection, ",") && TrimSpace(t) != "" :: CanonicalKey(TrimSpace(t))
  }

  function Nominated(connections: seq<string>): set<string> {
    if connections == [] then {} else NominatedIn(connections[0]) + Nominated(connections[1..])
  }

  function HopByHop(headers: Values): set<string> {
    HOP_BY_HOP + Nominated(ValuesOf(headers, "Connection"))
  }

  lemma {:induction false} NominatedAppend(a: seq<string>, b: seq<string>)
    ensures Nominated(a + b) == Nominated(a) + Nominated(b)
  {
    if a == [] {
      assert a + b == b;
    } else {
      assert (a + b)[1..] == a[1..] + b;
      NominatedAppend(a[1..], b);
    }
  }

  method NominatedNames(connection: string) returns (names: set<string>)
    ensures names == NominatedIn(connection)
  {
    names := {};
    var tokens := Split(connection, ",");
    for i := 0 to |tokens|
      invariant names == set t | t in tokens[..i] && TrimSpace(t) != "" :: CanonicalKey(TrimSpace(t))
    {
      assert tokens[..i + 1] == tokens[..i] + [tokens[i]];
      var name := TrimSpace(tokens[i]);
      if name != "" { names := names + {CanonicalKey(name)}; }
    }
    assert tokens[..|tokens|] == tokens;
  }

  method NominatedAll(connections: seq<string>) returns (names: set<string>)
    ensures names == Nominated(connections)
  {
    names := {};
    for i := 0 to |connections|
      invariant names == Nominated(connections[..i])
    {
      assert connections[..i + 1] == connections[..i] + [connections[i]];
      NominatedAppend(connections[..i], [connections[i]]);
      assert Nominated([connections[i]]) == NominatedIn(connections[i]);
      var more := NominatedNames(connections[i]);
      names := names + more;
    }
    assert connections[..|connections|] == connections;
  }

  method HopByHopHeaderSet(headers: Values) returns (names: set<string>)
    ensures names == HopByHop(headers)
  {
    var nominated := NominatedAll(ValuesOf(headers, "Connection"));
    names := HOP_BY_HOP + nominated;
  }

  // ------------------------------------------------------------- admission

  /** Names Connection may not nominate. */
  predicate EndToEnd(name: string, op: Kind) {
    Safe(name, op) || name == "Authorization" || name == "Host" || name == "Content-Length"
  }

  ghost predicate NominatesNone(connections: seq<string>, bad: string -> bool) {
    forall v, t :: v in connections && t in Split(v, ",") ==> !bad(CanonicalKey(TrimSpace(t)))
  }

  /** Connection must nominate no header that is sent on. */
  ghost predicate ConnectionAdmits(headers: Values, op: Kind) {
    NominatesNone(ValuesOf(headers, "Connection"), name => EndToEnd(name, op))
  }

  predicate GrantHeader(lower: string) {
    lower in {"x-amz-grant-full-control", "x-amz-grant-read", "x-amz-grant-read-acp", "x-amz-grant-write",
              "x-amz-grant-write-acp"}
  }

  predicate EncryptionHeader(lower: string) {
    lower in {"x-amz-server-side-encryption", "x-amz-server-side-encryption-customer-algorithm",
              "x-amz-server-side-encryption-customer-key", "x-amz-server-side-encryption-customer-key-md5"}
  }

  predicate ChecksumValueHeader(lower: string) {
    lower in {"x-amz-checksum-crc32", "x-amz-checksum-crc32c", "x-amz-checksum-crc64nvme", "x-amz-checksum-sha1",
              "x-amz-checksum-sha256"}
  }

  predicate ChecksumAllowed(op: Kind, lower: string) {
    || (lower == "x-amz-sdk-checksum-algorithm" && (op == PutObject || op == UploadPart))
    || (lower == "x-amz-checksum-algorithm" && op == CreateMultipartUpload)
    || (lower == "x-amz-checksum-type" && (op == CreateMultipartUpload || op == CompleteMultipartUpload))
    || (ChecksumValueHeader(lower) && (op == PutObject || op == UploadPart || op == CompleteMultipartUpload))
  }

  predicate TakesPutHeaders(op: Kind) {
    op == PutObject || op == CopyObject || op == CreateMultipartUpload
  }

  /** The x-amz headers an operation takes. */
  predicate AmzAllowed(op: Kind, lower: string) {
    || lower == "x-amz-content-sha256" || lower == "x-amz-date"
    || (op == CopyObject && lower in {"x-amz-copy-source", "x-amz-tagging-directive", "x-amz-metadata-directive"})
    || ((lower == "x-amz-acl" || GrantHeader(lower)) && (TakesPutHeaders(op) || op == PutObjectAcl))
    || ((lower == "x-amz-tagging" || "x-amz-meta-" <= lower || lower == "x-amz-storage-class" || EncryptionHeader(lower))
        && TakesPutHeaders(op))
    || ChecksumAllowed(op, lower)
  }

  predicate PassingHeader(name: string) {
    name in {"Authorization", "Accept", "Accept-Encoding", "User-Agent", "Content-Length", "Connection", "Keep-Alive", "Te",
             "Trailer", "Transfer-Encoding", "Upgrade", "Amz-Sdk-Invocation-Id", "Amz-Sdk-Request", "Traceparent",
             "Tracestate"}
  }

  predicate RefusedHeader(name: string) {
    || name in {"Cookie", "Cookie2", "Forwarded", "Origin", "Proxy-Authorization", "Proxy-Connection",
                "X-Http-Method-Override", "X-Method-Override", "X-Original-Url", "X-Rewrite-Url"}
    || "x-forwarded-" <= Lower(name)
  }

  predicate GenericAllowed(op: Kind, name: string) {
    || PassingHeader(name)
    || (!RefusedHeader(name) && ((ReadsObject(op) && ReadHeader(name)) || (SendsBody(op) && BodyHeader(name))))
  }

  predicate HeaderAllowed(op: Kind, name: string) {
    if Amz(name) then AmzAllowed(op, Lower(name)) else Amz(CanonicalKey(name)) || GenericAllowed(op, CanonicalKey(name))
  }

  /** What an operation demands of the request's headers by name. */
  ghost predicate HeadersAdmitted(headers: Values, op: Kind) {
    ConnectionAdmits(headers, op) && forall h :: h in headers ==> HeaderAllowed(op, h)
  }

  method CheckNominations(connections: seq<string>, bad: string -> bool) returns (ok: bool)
    ensures ok <==> NominatesNone(connections, bad)
  {
    for i := 0 to |connections|
      invariant NominatesNone(connections[..i], bad)
    {
      var tokens := Split(connections[i], ",");
      for j := 0 to |tokens|
        invariant forall t :: t in tokens[..j] ==> !bad(CanonicalKey(TrimSpace(t)))
      {
        if bad(CanonicalKey(TrimSpace(tokens[j]))) {
          assert connections[i] in connections && tokens[j] in Split(connections[i], ",");
          return false;
        }
      }
      assert tokens[..|tokens|] == tokens;
      assert connections[..i + 1] == connections[..i] + [connections[i]];
    }
    assert connections[..|connections|] == connections;
    return true;
  }

  method CheckNames(headers: Values, allowed: string -> bool) returns (ok: bool)
    ensures ok <==> forall h :: h in headers ==> allowed(h)
  {
    var pending := headers.Keys;
    while pending != {}
      invariant pending <= headers.Keys && forall h :: h in headers && h !in pending ==> allowed(h)
      decreases |pending|
    {
      var h :| h in pending;
      if !allowed(h) { return false; }
      pending := pending - {h};
    }
    return true;
  }

  method ValidateHeadersForOperation(headers: Values, op: Kind) returns (ok: bool)
    ensures ok <==> HeadersAdmitted(headers, op)
  {
    ok := CheckNominations(ValuesOf(headers, "Connection"), name => EndToEnd(name, op));
    if ok {
      ok := CheckNames(headers, h => HeaderAllowed(op, h));
    }
  }

  // ------------------------------------------------------------------- the copy

  function Forwarded(headers: Values, op: Kind): Values {
    map h | h in headers && h !in HopByHop(headers) && Safe(h, op) && headers[h] != [] :: headers[h]
  }

  /** Adding values one by one under one name. */
  method AddAll(before: Values, name: string, values: seq<string>) returns (dst: Values)
    requires name !in before
    ensures dst == if values == [] then before else before[name := values]
  {
    dst := before;
    for i := 0 to |values|
      invariant dst == if i == 0 then before else before[name := values[..i]]
    {
      assert values[..i + 1] == values[..i] + [values[i]];
      dst := dst[name := (if name in dst then dst[name] else []) + [values[i]]];
    }
    assert values[..|values|] == values;
  }

  method CopyWhere(src: Values, keep: string -> bool) returns (dst: Values)
    requires CanonicalHeaders(src)
    ensures dst == map h | h in src && keep(h) && src[h] != [] :: src[h]
  {
    dst := map[];
    var pending := src.Keys;
    while pending != {}
      invariant pending <= src.Keys
      invariant dst == map h | h in src && h !in pending && keep(h) && src[h] != [] :: src[h]
      decreases |pending|
    {
      var h :| h in pending;
      if keep(CanonicalKey(h)) {
        dst := AddAll(dst, CanonicalKey(h), src[h]);
      }
      pending := pending - {h};
    }
  }

  /** Names are canonical already, so each header is copied under its own name, value by value. */
  method CopyOutboundRequestHeaders(src: Values, op: Kind) returns (dst: Values)
    requires CanonicalHeaders(src)
    ensures dst == Forwarded(src, op)
  {
    var hops := HopByHopHeaderSet(src);
    dst := CopyWhere(src, h => h !in hops && Safe(h, op));
  }

  lemma FixedHopsAreNotSafe(name: string, op: Kind)
    requires name in HOP_BY_HOP
    ensures !Safe(name, op)
  {
    HopLetter(name);
    NotAmz(name);
  }

  lemma HopLetter(name: string)
    requires name in HOP_BY_HOP
    ensures name != "" && LowerChar(name[0]) != 'x'
    ensures name !in {"Accept", "User-Agent", "Accept-Encoding"} && !ReadHeader(name) && !BodyHeader(name)
  {
  }

  lemma NotAmz(name: string)
    requires name != "" && LowerChar(name[0]) != 'x'
    ensures !Amz(name)
  {
    assert Lower(name)[0] == LowerChar(name[0]);
  }

  lemma {:induction false} NominatedIsToken(connections: seq<string>, name: string)
    requires name in Nominated(connections)
    ensures exists v, t :: v in connections && t in Split(v, ",") && name == CanonicalKey(TrimSpace(t))
  {
    assert connections[0] in connections;
    if name in NominatedIn(connections[0]) {
      var t :| t in Split(connections[0], ",") && name == CanonicalKey(TrimSpace(t));
    } else {
      NominatedIsToken(connections[1..], name);
    }
  }

  lemma NominatedNotBad(connections: seq<string>, bad: string -> bool, name: string)
    requires NominatesNone(connections, bad) && name in Nominated(connections)
    ensures !bad(name)
  {
    NominatedIsToken(connections, name);
  }

  /** On an admitted request, hop-by-hop removal drops no header that may be sent on. */
  lemma RemovalDropsNothingSafe(headers: Values, op: Kind, name: string)
    requires ConnectionAdmits(headers, op) && Safe(name, op)
    ensures name !in HopByHop(headers)
  {
    if name in HOP_BY_HOP {
      FixedHopsAreNotSafe(name, op);
    } else if name in Nominated(ValuesOf(headers, "Connection")) {
      NominatedNotBad(ValuesOf(headers, "Connection"), n => EndToEnd(n, op), name);
    }
  }

  /** The headers that carry meaning from the client to the origin. */
  predicate Carried(name: string, op: Kind) {
    Amz(name) || (ReadsObject(op) && ReadHeader(name)) || (SendsBody(op) && BodyHeader(name))
  }

  /** On an admitted request every such header goes out as it came, the copy source and the signer's own excepted. */
  lemma CarriedHeadersAreSent(headers: Values, op: Kind, copySource: Option<string>, name: string)
    requires ConnectionAdmits(headers, op) && Carried(name, op) && name in headers && headers[name] != []
    requires name !in Cleared() && name != CanonicalKey("x-amz-copy-source")
    ensures name in Outgoing(headers, op, copySource) && Outgoing(headers, op, copySource)[name] == headers[name]
  {
    RemovalDropsNothingSafe(headers, op, name);
  }

  // ------------------------------------------------------ judged and sent

  /** The headers whose values policies can test. */
  const JUDGED: set<string> :=
    {"x-amz-acl", "x-amz-copy-source", "x-amz-grant-full-control", "x-amz-grant-read", "x-amz-grant-read-acp",
     "x-amz-grant-write", "x-amz-grant-write-acp", "x-amz-metadata-directive", "x-amz-server-side-encryption",
     "x-amz-storage-class", "x-amz-tagging", "x-amz-tagging-directive"}

  predicate Judged(name: string) {
    name in JUDGED
  }

  /** The header conditions of a policy context, by header name. */
  function HeaderConditions(headers: Values): Values {
    map n | n in JUDGED && ValuesOf(headers, n) != [] :: ValuesOf(headers, n)
  }

  /** The values the policy context holds: every header equal to the name up to letter case. */
  method AllHeaderValues(headers: Values, name: string) returns (values: seq<string>)
    requires CanonicalHeaders(headers) && Token(name)
    ensures values == ValuesOf(headers, name)
  {
    values := [];
    var pending := headers.Keys;
    while pending != {}
      invariant pending <= headers.Keys
      invariant values == if CanonicalKey(name) in headers && CanonicalKey(name) !in pending then headers[CanonicalKey(name)] else []
      decreases |pending|
    {
      var h :| h in pending;
      SameHeader(h, name);
      if Lower(h) == Lower(name) { values := values + headers[h]; }
      pending := pending - {h};
    }
  }

  method BuildHeaderConditions(headers: Values) returns (conditions: Values)
    requires CanonicalHeaders(headers)
    ensures conditions == HeaderConditions(headers)
  {
    forall n | n in JUDGED ensures Token(n) { JudgedIsToken(n); }
    conditions := Collect(headers, JUDGED);
  }

  method Collect(headers: Values, names: set<string>) returns (conditions: Values)
    requires CanonicalHeaders(headers) && forall n :: n in names ==> Token(n)
    ensures conditions == map n | n in names && ValuesOf(headers, n) != [] :: ValuesOf(headers, n)
  {
    conditions := map[];
    var pending := names;
    while pending != {}
      invariant pending <= names
      invariant conditions == map n | n in names && n !in pending && ValuesOf(headers, n) != [] :: ValuesOf(headers, n)
      decreases |pending|
    {
      var n :| n in pending;
      var values := AllHeaderValues(headers, n);
      if |values| > 0 { conditions := conditions[n := values]; }
      pending := pending - {n};
    }
  }

  /** The copy source is rewritten under its name and the names the signer sets are cleared. */
  ghost function Prepared(copied: Values, copySource: Option<string>, source: string, cleared: set<string>): Values {
    (match copySource case None => copied case Some(s) => copied[source := [s]]) - cleared
  }

  ghost function Cleared(): set<string> {
    {AuthKey(), CanonicalKey("X-Amz-Date"), CanonicalKey("x-amz-content-sha256")}
  }

  /** What goes out: the forwarded headers, prepared for signing. */
  ghost function Outgoing(headers: Values, op: Kind, copySource: Option<string>): Values {
    Prepared(Forwarded(headers, op), copySource, CanonicalKey("x-amz-copy-source"), Cleared())
  }

  lemma PreparedValues(copied: Values, copySource: Option<string>, source: string, cleared: set<string>, name: string)
    requires CanonicalKey(name) !in cleared && CanonicalKey(name) != source
    ensures ValuesOf(Prepared(copied, copySource, source, cleared), name) == ValuesOf(copied, name)
  {
  }

  predicate Letters(name: string) {
    "x-amz-" <= name && |name| > 6 && name[6] in {'a', 'g', 'm', 's', 't'}
  }

  lemma JudgedLetters(name: string)
    requires Judged(name) && name != "x-amz-copy-source"
    ensures Letters(name)
  {
  }

  predicate Simple(name: string) {
    name != "" && forall i :: 0 <= i < |name| ==> name[i] == '-' || 'a' <= name[i] <= 'z'
  }

  lemma GrantsAreSimple(name: string)
    requires name in {"x-amz-grant-full-control", "x-amz-grant-read", "x-amz-grant-read-acp", "x-amz-grant-write",
                      "x-amz-grant-write-acp"}
    ensures Simple(name)
  {
  }

  lemma DirectivesAreSimple(name: string)
    requires name in {"x-amz-metadata-directive", "x-amz-server-side-encryption", "x-amz-tagging-directive"}
    ensures Simple(name)
  {
  }

  lemma JudgedIsSimple(name: string)
    requires Judged(name)
    ensures Simple(name)
  {
    if name in {"x-amz-acl", "x-amz-copy-source", "x-amz-storage-class", "x-amz-tagging"} {
    } else if name in {"x-amz-metadata-directive", "x-amz-server-side-encryption", "x-amz-tagging-directive"} {
      DirectivesAreSimple(name);
    } else {
      GrantsAreSimple(name);
    }
  }

  lemma JudgedIsToken(name: string)
    requires Judged(name)
    ensures Token(name)
  {
    JudgedIsSimple(name);
    SimpleIsToken(name);
  }

  lemma SimpleIsToken(name: string)
    requires Simple(name)
    ensures Token(name)
  {
  }

  lemma NotTheSource(name: string)
    requires Token(name) && Letters(name)
    ensures CanonicalKey(name) != CanonicalKey("x-amz-copy-source")
  {
    DifferentLetter(name, "x-amz-copy-source", 6);
  }

  lemma JudgedIsUntouched(name: string)
    requires Judged(name) && name != "x-amz-copy-source"
    ensures Untouched(name) && CanonicalKey(name) != CanonicalKey("x-amz-copy-source") && Token(name) && "x-amz-" <= name
  {
    JudgedLetters(name);
    JudgedIsToken(name);
    assert name[0] == "x-amz-"[0];
    ElsewhereUntouched(name);
    NotTheSource(name);
  }

  lemma AmzIsSafe(name: string, op: Kind)
    requires Token(name) && "x-amz-" <= name
    ensures Safe(CanonicalKey(name), op)
  {
  }

  lemma ForwardedValues(headers: Values, op: Kind, name: string)
    requires ConnectionAdmits(headers, op) && Safe(CanonicalKey(name), op)
    ensures ValuesOf(Forwarded(headers, op), name) == ValuesOf(headers, name)
  {
    RemovalDropsNothingSafe(headers, op, CanonicalKey(name));
  }

  lemma NotCleared(name: string)
    requires Untouched(name)
    ensures CanonicalKey(name) !in Cleared()
  {
  }

  lemma SentWhole(headers: Values, op: Kind, copySource: Option<string>, name: string)
    requires ConnectionAdmits(headers, op) && Safe(CanonicalKey(name), op)
    requires CanonicalKey(name) !in Cleared() && CanonicalKey(name) != CanonicalKey("x-amz-copy-source")
    ensures ValuesOf(Outgoing(headers, op, copySource), name) == ValuesOf(headers, name)
  {
    ForwardedValues(headers, op, name);
    PreparedValues(Forwarded(headers, op), copySource, CanonicalKey("x-amz-copy-source"), Cleared(), name);
  }

  /** On an admitted request every header a policy can test, except the rewritten copy source, goes out whole. */
  lemma AdmittedIsSent(headers: Values, op: Kind, copySource: Option<string>, name: string)
    requires ConnectionAdmits(headers, op) && Judged(name) && name != "x-amz-copy-source"
    ensures ValuesOf(Outgoing(headers, op, copySource), name) == ValuesOf(headers, name)
  {
    JudgedIsUntouched(name);
    AmzIsSafe(name, op);
    NotCleared(name);
    SentWhole(headers, op, copySource, name);
  }

  /** Signing changes none of them either. */
  lemma AdmittedIsSigned(headers: Values, op: Kind, copySource: Option<string>, name: string,
                       e: Env, r: Request, access: string, secret: string, region: string, t: int)
    requires ConnectionAdmits(headers, op) && Judged(name) && name != "x-amz-copy-source"
    requires r.headers == Outgoing(headers, op, copySource)
    ensures ValuesOf(Signed(e, r, access, secret, region, t).headers, name) == ValuesOf(headers, name)
  {
    AdmittedIsSent(headers, op, copySource, name);
    JudgedIsUntouched(name);
    UntouchedValues(e, r, AuthorizationFor(e, r, access, secret, region, t), t, name);
  }
}
