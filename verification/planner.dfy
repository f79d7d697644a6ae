/** Planning: one decoded meaning per accepted request (http_server/s3_operation.go). */
module Planner {
  import opened Common
  import opened Text
  import opened Query
  import opened Operations
  import opened Keys
  import opened Headers
  import opened SigV4
  import opened Forwarding

  datatype Source = Source(key: string, version: string)

  datatype Check = Check(action: string, resource: string)

  /** `headers` is the snapshot that is judged and forwarded. */
  datatype Plan = Plan(
    kind: Kind, bucket: string, key: string, query: Values, checks: seq<Check>, source: Option<Source>, headers: Values)

  /** A request as the planner sees it; the copy source is already parsed. */
  datatype Incoming = Incoming(
    verb: Verb, path: string, bucket: string, key: string, query: Option<Values>, source: Option<Source>, headers: Values)

  /** Some value under the name, whatever its letter case. */
  predicate Has(headers: Values, lower: string) {
    exists h :: h in headers && Lower(h) == lower && headers[h] != []
  }

  predicate Copies(r: Incoming) {
    Has(r.headers, "x-amz-copy-source")
  }

  predicate SetsAcl(r: Incoming) {
    Has(r.headers, "x-amz-acl") || exists h :: h in r.headers && GrantHeader(Lower(h))
  }

  predicate SetsTags(r: Incoming) {
    Has(r.headers, "x-amz-tagging")
  }

  function BucketArn(bucket: string): string {
    "arn:aws:s3:::" + bucket
  }

  function ObjectArn(bucket: string, key: string): string {
    "arn:aws:s3:::" + bucket + "/" + key
  }

  // ------------------------------------------------------------- query values

  predicate KeyField(q: Values, name: string) {
    name in q && q[name] != [] && q[name][0] != "" ==> ValidKey(q[name][0])
  }

  predicate IntegerField(q: Values, name: string, low: int, high: int) {
    name in q ==> |q[name]| == 1 && Atoi(q[name][0]).Some? && low <= Atoi(q[name][0]).value <= high
  }

  predicate ValidQuery(q: Values) {
    && ("encoding-type" in q && q["encoding-type"] != [] ==> q["encoding-type"][0] == "url")
    && ("fetch-owner" in q && q["fetch-owner"] != [] ==> q["fetch-owner"][0] in {"true", "false"})
    && KeyField(q, "prefix") && KeyField(q, "marker") && KeyField(q, "start-after") && KeyField(q, "key-marker")
    && IntegerField(q, "max-keys", 0, 1000) && IntegerField(q, "max-uploads", 1, 1000)
    && IntegerField(q, "max-parts", 0, 1000) && IntegerField(q, "part-number-marker", 0, 10000)
    && IntegerField(q, "partNumber", 1, 10000)
  }

  // ------------------------------------------------------------------ checks

  function PutChecks(resource: string, acl: bool, tagging: bool): seq<Check> {
    (if acl then [Check("s3:PutObjectAcl", resource)] else [])
    + (if tagging then [Check("s3:PutObjectTagging", resource)] else [])
  }

  function SourceAction(s: Source): string {
    if s.version != "" then "s3:GetObjectVersion" else "s3:GetObject"
  }

  function ActionFor(op: Kind): string {
    match op
    case ListBuckets => "s3:ListAllMyBuckets"
    case CreateBucket => "s3:CreateBucket"
    case HeadBucket | ListObjects | ListObjectsV2 => "s3:ListBucket"
    case ListMultipartUploads => "s3:ListBucketMultipartUploads"
    case GetObject | HeadObject => "s3:GetObject"
    case GetObjectVersion | HeadObjectVersion => "s3:GetObjectVersion"
    case PutObjectAcl => "s3:PutObjectAcl"
    case PutObjectTagging => "s3:PutObjectTagging"
    case DeleteObject => "s3:DeleteObject"
    case DeleteObjectVersion => "s3:DeleteObjectVersion"
    case ListParts => "s3:ListMultipartUploadParts"
    case AbortMultipartUpload => "s3:AbortMultipartUpload"
    case PutObject | CopyObject | CreateMultipartUpload | UploadPart | CompleteMultipartUpload => "s3:PutObject"
  }

  function ResourceFor(op: Kind, bucket: string, key: string): string {
    match ScopeFor(op)
    case Service => "*"
    case Bucket => BucketArn(bucket)
    case Object => ObjectArn(bucket, key)
  }

  function ChecksFor(op: Kind, r: Incoming): seq<Check> {
    var resource := ResourceFor(op, r.bucket, r.key);
    [Check(ActionFor(op), resource)]
    + (if op == CopyObject && r.source.Some? then
         [Check(SourceAction(r.source.value), ObjectArn(r.bucket, r.source.value.key))] else [])
    + (if op in {CopyObject, PutObject, CreateMultipartUpload} then PutChecks(resource, SetsAcl(r), SetsTags(r)) else [])
  }

  // ---------------------------------------------------------------- selection

  predicate Chosen(op: Kind, r: Incoming, q: Values) {
    Guard(op, r.verb, ScopeOf(r.bucket, r.key), Copies(r), q)
  }

  /** One branch of the chain. */
  method Try(op: Kind, r: Incoming, q: Values) returns (ok: bool)
    ensures ok <==> Chosen(op, r, q)
  {
    var matches := MatchesOperation(op, q);
    ok := matches && r.verb == VerbFor(op) && ScopeOf(r.bucket, r.key) == ScopeFor(op) && CopyGuard(op, Copies(r));
  }

  /** The first branch that applies, in the order the branches are written. */
  method FirstOf(ops: seq<Kind>, r: Incoming, q: Values) returns (kind: Option<Kind>)
    ensures kind.Some? ==> kind.value in ops && Chosen(kind.value, r, q)
    ensures kind.None? ==> forall op :: op in ops ==> !Chosen(op, r, q)
  {
    for i := 0 to |ops|
      invariant forall k :: 0 <= k < i ==> !Chosen(ops[k], r, q)
    {
      var ok := Try(ops[i], r, q);
      if ok { return Some(ops[i]); }
    }
    return None;
  }

  const BRANCHES: seq<Kind> := [
    ListBuckets, CreateBucket, HeadBucket, ListMultipartUploads, ListObjectsV2, ListObjects,
    ListParts, GetObjectVersion, GetObject, HeadObjectVersion, HeadObject,
    CopyObject, PutObjectTagging, PutObjectAcl, UploadPart, PutObject,
    AbortMultipartUpload, DeleteObjectVersion, DeleteObject, CreateMultipartUpload, CompleteMultipartUpload]

  lemma BranchesComplete(op: Kind)
    ensures op in BRANCHES
  {
  }

  /** Any other order of the branches selects the same operation. */
  lemma OrderNeverMatters(r: Incoming, q: Values, op: Kind, other: Kind)
    requires Chosen(op, r, q)
    ensures Chosen(other, r, q) <==> other == op
  {
    if Chosen(other, r, q) { GuardsAreExclusive(op, other, r.verb, ScopeOf(r.bucket, r.key), Copies(r), q); }
  }

  // ------------------------------------------------------------------ planning

  predicate TrailingSlash(path: string) {
    path != "" && path[|path| - 1] == '/' && path != "/"
  }

  predicate WellFormed(r: Incoming) {
    && (r.key != "" ==> ValidKey(r.key))
    && (r.key == "" && r.bucket != "" ==> !TrailingSlash(r.path))
    && r.query.Some? && forall k :: k in r.query.value ==> |r.query.value[k]| == 1
  }

  /** `valuesFit` stands for the checks of header values and body that relate nothing to other parts. */
  ghost predicate Fits(op: Kind, r: Incoming, valuesFit: Kind -> bool) {
    && r.query.Some? && Chosen(op, r, r.query.value)
    && (op == CopyObject ==> r.source.Some?)
    && HeadersAdmitted(r.headers, op) && valuesFit(op) && ValidQuery(r.query.value)
  }

  /** `plan` is the decoded meaning of `r`. */
  ghost predicate PlanFor(r: Incoming, valuesFit: Kind -> bool, plan: Plan) {
    && WellFormed(r) && Fits(plan.kind, r, valuesFit)
    && plan == Plan(plan.kind, r.bucket, r.key, r.query.value, ChecksFor(plan.kind, r),
                    if plan.kind == CopyObject then r.source else None, plan.headers)
    && (CanonicalHeaders(r.headers) ==> plan.headers == r.headers)
  }

  /** The header snapshot: values merged under canonical names. */
  method CanonicalHeaderClone(headers: Values) returns (clone: Values)
    ensures CanonicalHeaders(headers) ==> clone == headers
  {
    clone := map[];
    var pending := headers.Keys;
    while pending != {}
      invariant pending <= headers.Keys
      invariant CanonicalHeaders(headers) ==> clone == map h | h in headers && h !in pending :: headers[h]
      decreases |pending|
    {
      var h :| h in pending;
      var name := CanonicalKey(h);
      assert CanonicalHeaders(headers) ==> name == h && name !in clone;
      assert [] + headers[h] == headers[h];
      clone := clone[name := (if name in clone then clone[name] else []) + headers[h]];
      pending := pending - {h};
    }
  }

  method SingleValued(q: Values) returns (ok: bool)
    ensures ok <==> forall k :: k in q ==> |q[k]| == 1
  {
    var pending := q.Keys;
    while pending != {}
      invariant pending <= q.Keys && forall k :: k in q && k !in pending ==> |q[k]| == 1
      decreases |pending|
    {
      var k :| k in pending;
      if |q[k]| != 1 { return false; }
      pending := pending - {k};
    }
    return true;
  }

  /** A request is planned exactly when it is well formed and fits an operation, and then as that one. */
  method PlanS3Operation(r: Incoming, valuesFit: Kind -> bool) returns (plan: Option<Plan>)
    ensures plan.Some? <==> WellFormed(r) && exists op :: Fits(op, r, valuesFit)
    ensures plan.Some? ==> PlanFor(r, valuesFit, plan.value)
  {
    var kind := SelectKind(r);
    if kind.None? { return None; }
    var op, q := kind.value, r.query.value;
    if op == CopyObject && r.source.None? { return None; }
    var admitted := ValidateHeadersForOperation(r.headers, op);
    if !admitted || !valuesFit(op) || !ValidQuery(q) { return None; }
    assert Fits(op, r, valuesFit);
    var headers := CanonicalHeaderClone(r.headers);
    return Some(Plan(op, r.bucket, r.key, q, ChecksFor(op, r), if op == CopyObject then r.source else None, headers));
  }

  /** The request's shape and the branch chain, before headers and values are looked at. */
  method SelectKind(r: Incoming) returns (kind: Option<Kind>)
    ensures kind.Some? ==> WellFormed(r) && forall op :: Chosen(op, r, r.query.value) <==> op == kind.value
    ensures kind.None? && WellFormed(r) ==> forall op :: !Chosen(op, r, r.query.value)
  {
    if r.key != "" {
      var valid := ValidateVirtualObjectKey(r.key);
      if !valid { return None; }
    } else if r.bucket != "" && TrailingSlash(r.path) {
      return None;
    }
    if r.query.None? { return None; }
    var q := r.query.value;
    var single := SingleValued(q);
    if !single { return None; }
    kind := FirstOf(BRANCHES, r, q);
    if kind.None? {
      forall op ensures !Chosen(op, r, q) { BranchesComplete(op); }
    } else {
      forall op ensures Chosen(op, r, q) <==> op == kind.value { OrderNeverMatters(r, q, kind.value, op); }
    }
  }

  // ------------------------------------------------ what the checks talk about

  /** Every plan is judged at least once, and only on what is forwarded. */
  lemma ChecksNameTheRequest(op: Kind, r: Incoming, c: Check)
    requires op == CopyObject ==> r.source.Some?
    ensures ChecksFor(op, r) != [] && ChecksFor(op, r)[0] == Check(ActionFor(op), ResourceFor(op, r.bucket, r.key))
    ensures c in ChecksFor(op, r) ==>
      || c.resource == ResourceFor(op, r.bucket, r.key)
      || (op == CopyObject && c.resource == ObjectArn(r.bucket, r.source.value.key))
    ensures op == CopyObject ==>
      Check(SourceAction(r.source.value), ObjectArn(r.bucket, r.source.value.key)) in ChecksFor(op, r)
    ensures op in {CopyObject, PutObject, CreateMultipartUpload} && SetsAcl(r) ==>
      Check("s3:PutObjectAcl", ResourceFor(op, r.bucket, r.key)) in ChecksFor(op, r)
    ensures op in {CopyObject, PutObject, CreateMultipartUpload} && SetsTags(r) ==>
      Check("s3:PutObjectTagging", ResourceFor(op, r.bucket, r.key)) in ChecksFor(op, r)
  {
  }

  /** An object resource names one bucket and one key. */
  lemma ObjectArnInjective(b: string, k: string, c: string, l: string)
    requires '/' !in b && '/' !in c && ObjectArn(b, k) == ObjectArn(c, l)
    ensures b == c && k == l
  {
    var head := "arn:aws:s3:::";
    assert ObjectArn(b, k)[|head|..] == b + "/" + k && ObjectArn(c, l)[|head|..] == c + "/" + l;
    IndexOf(b, "/", k);
    IndexOf(c, "/", l);
    assert (b + "/" + k)[..|b|] == b && (b + "/" + k)[|b| + 1..] == k;
    assert (c + "/" + l)[..|c|] == c && (c + "/" + l)[|c| + 1..] == l;
  }

  // -------------------------------------------------------- request transforms

  datatype Transform = BucketRoot | ListQuery | ObjectPath

  function TransformFor(op: Kind): Transform {
    match op
    case ListBuckets | CreateBucket | HeadBucket => BucketRoot
    case ListObjects | ListObjectsV2 | ListMultipartUploads => ListQuery
    case _ => ObjectPath
  }

  /** The key put in the outbound path. */
  function ForwardedKey(plan: Plan, root: string): string {
    if TransformFor(plan.kind) == ObjectPath then root + plan.key else plan.key
  }

  /** An accepted plan forwards its own key under the tenant's root, and no key at all for bucket operations. */
  lemma ForwardedKeyIsPlanned(r: Incoming, plan: Plan, root: string)
    requires Chosen(plan.kind, r, plan.query) && plan.key == r.key && plan.bucket == r.bucket
    ensures ForwardedKey(plan, root) == if ScopeFor(plan.kind) == Object then root + r.key else ""
    ensures ScopeFor(plan.kind) == Object <==> r.key != ""
  {
  }

  // ------------------------------------------------------- judged and sent

  ghost predicate SameJudged(judged: Values, sent: Values) {
    HeaderConditions(judged) - {"x-amz-copy-source"} == HeaderConditions(sent) - {"x-amz-copy-source"}
  }

  lemma SameJudgedBy(judged: Values, sent: Values)
    requires forall n :: Judged(n) && n != "x-amz-copy-source" ==> ValuesOf(sent, n) == ValuesOf(judged, n)
    ensures SameJudged(judged, sent)
  {
    var a, b := HeaderConditions(judged) - {"x-amz-copy-source"}, HeaderConditions(sent) - {"x-amz-copy-source"};
    assert forall n :: n in a <==> n in b;
    assert forall n :: n in a ==> a[n] == b[n];
  }

  /**
   What IAM judged is what is sent: for every plan of a request with canonical header names,
   a policy that looked at the outgoing request, before or after it is signed, would see the
   same header conditions it judged, the rewritten copy source excepted.
   */
  lemma JudgedIsSent(r: Incoming, valuesFit: Kind -> bool, plan: Plan, copySource: Option<string>,
                     e: Env, out: Request, access: string, secret: string, region: string, t: int)
    requires PlanFor(r, valuesFit, plan) && CanonicalHeaders(r.headers)
    requires out.headers == Outgoing(plan.headers, plan.kind, copySource)
    ensures SameJudged(plan.headers, out.headers)
    ensures SameJudged(plan.headers, Signed(e, out, access, secret, region, t).headers)
  {
    var signed := Signed(e, out, access, secret, region, t);
    forall n | Judged(n) && n != "x-amz-copy-source"
      ensures ValuesOf(out.headers, n) == ValuesOf(plan.headers, n) == ValuesOf(signed.headers, n)
    {
      AdmittedIsSent(plan.headers, plan.kind, copySource, n);
      AdmittedIsSigned(plan.headers, plan.kind, copySource, n, e, out, access, secret, region, t);
    }
    SameJudgedBy(plan.headers, out.headers);
    SameJudgedBy(plan.headers, signed.headers);
  }

  /** Every x-amz header of a plan is one its operation takes, so none goes out that was not meant. */
  lemma SentHeadersAreTaken(r: Incoming, valuesFit: Kind -> bool, plan: Plan, name: string)
    requires PlanFor(r, valuesFit, plan) && CanonicalHeaders(r.headers)
    requires name in Forwarded(plan.headers, plan.kind)
    ensures if Amz(name) then AmzAllowed(plan.kind, Lower(name)) else GenericAllowed(plan.kind, name)
  {
    assert HeaderAllowed(plan.kind, name);
  }
}
