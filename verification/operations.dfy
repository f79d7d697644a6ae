/** The request grammar of http_server/s3_operation.go: which operation a request is. */
module Operations {
  import opened Common
  import opened Query

  datatype Kind =
    | ListBuckets | CreateBucket | HeadBucket | ListObjects | ListObjectsV2 | ListMultipartUploads
    | GetObject | HeadObject | GetObjectVersion | HeadObjectVersion
    | PutObject | PutObjectAcl | PutObjectTagging | CopyObject
    | DeleteObject | DeleteObjectVersion
    | CreateMultipartUpload | UploadPart | ListParts | CompleteMultipartUpload | AbortMultipartUpload

  datatype Verb = GET | HEAD | PUT | DELETE | POST | OTHER

  datatype Scope = Service | Bucket | Object

  function ScopeOf(bucket: string, key: string): Scope {
    if bucket == "" && key == "" then Service else if key == "" then Bucket else Object
  }

  // ------------------------------------------------------------ query matching

  /** What a required parameter must hold. */
  datatype Want = NonEmpty | Is(value: string)

  predicate Meets(value: string, want: Want) {
    match want
    case NonEmpty => value != ""
    case Is(v) => value == v
  }

  /** Exactly the required parameters, any of the optional ones, and an x-id naming the operation. */
  predicate Matches(q: Values, xId: string, required: map<string, Want>, optional: set<string>) {
    && (forall k :: k in required ==> k in q && |q[k]| == 1 && Meets(q[k][0], required[k]))
    && (forall k :: k in q ==> (k in required || k in optional || k == "x-id") && |q[k]| == 1)
    && ("x-id" in q ==> q["x-id"] == [xId])
  }

  method RequiredMatch(q: Values, required: map<string, Want>) returns (ok: bool)
    ensures ok <==> forall k :: k in required ==> k in q && |q[k]| == 1 && Meets(q[k][0], required[k])
  {
    var pending := required.Keys;
    while pending != {}
      invariant pending <= required.Keys
      invariant forall k :: k in required && k !in pending ==> k in q && |q[k]| == 1 && Meets(q[k][0], required[k])
      decreases |pending|
    {
      var k :| k in pending;
      if k !in q || |q[k]| != 1 { return false; }
      if required[k].NonEmpty? {
        if q[k][0] == "" { return false; }
      } else if q[k][0] != required[k].value {
        return false;
      }
      pending := pending - {k};
    }
    return true;
  }

  method AllowedMatch(q: Values, xId: string, allowed: set<string>) returns (ok: bool)
    ensures ok <==> (forall k :: k in q ==> k in allowed && |q[k]| == 1) && ("x-id" in q ==> q["x-id"] == [xId])
  {
    var pending := q.Keys;
    while pending != {}
      invariant pending <= q.Keys
      invariant forall k :: k in q && k !in pending ==> k in allowed && |q[k]| == 1
      invariant "x-id" in q && "x-id" !in pending ==> q["x-id"] == [xId]
      decreases |pending|
    {
      var k :| k in pending;
      if k !in allowed || |q[k]| != 1 { return false; }
      if k == "x-id" && q[k][0] != xId { return false; }
      pending := pending - {k};
    }
    return true;
  }

  method QueryMatches(q: Values, xId: string, required: map<string, Want>, optional: set<string>) returns (ok: bool)
    ensures ok <==> Matches(q, xId, required, optional)
  {
    ok := RequiredMatch(q, required);
    if ok {
      ok := AllowedMatch(q, xId, required.Keys + optional + {"x-id"});
    }
  }

  // ------------------------------------------------------------------- grammar

  const FLAG := Is("")

  function VerbFor(op: Kind): Verb {
    match op
    case CreateBucket | PutObject | PutObjectAcl | PutObjectTagging | CopyObject | UploadPart => PUT
    case HeadBucket | HeadObject | HeadObjectVersion => HEAD
    case DeleteObject | DeleteObjectVersion | AbortMultipartUpload => DELETE
    case CreateMultipartUpload | CompleteMultipartUpload => POST
    case _ => GET
  }

  function ScopeFor(op: Kind): Scope {
    match op
    case ListBuckets => Service
    case CreateBucket | HeadBucket | ListObjects | ListObjectsV2 | ListMultipartUploads => Bucket
    case _ => Object
  }

  function XId(op: Kind): string {
    match op
    case ListBuckets => "ListBuckets"
    case CreateBucket => "CreateBucket"
    case HeadBucket => "HeadBucket"
    case ListObjects => "ListObjects"
    case ListObjectsV2 => "ListObjectsV2"
    case ListMultipartUploads => "ListMultipartUploads"
    case GetObject | GetObjectVersion => "GetObject"
    case HeadObject | HeadObjectVersion => "HeadObject"
    case PutObject => "PutObject"
    case PutObjectAcl => "PutObjectAcl"
    case PutObjectTagging => "PutObjectTagging"
    case CopyObject => "CopyObject"
    case DeleteObject | DeleteObjectVersion => "DeleteObject"
    case CreateMultipartUpload => "CreateMultipartUpload"
    case UploadPart => "UploadPart"
    case ListParts => "ListParts"
    case CompleteMultipartUpload => "CompleteMultipartUpload"
    case AbortMultipartUpload => "AbortMultipartUpload"
  }

  function Required(op: Kind): map<string, Want> {
    match op
    case ListMultipartUploads | CreateMultipartUpload => map["uploads" := FLAG]
    case ListObjectsV2 => map["list-type" := Is("2")]
    case ListParts | AbortMultipartUpload | CompleteMultipartUpload => map["uploadId" := NonEmpty]
    case GetObjectVersion | HeadObjectVersion | DeleteObjectVersion => map["versionId" := NonEmpty]
    case PutObjectTagging => map["tagging" := FLAG]
    case PutObjectAcl => map["acl" := FLAG]
    case UploadPart => map["partNumber" := NonEmpty, "uploadId" := NonEmpty]
    case _ => map[]
  }

  function Optional(op: Kind): set<string> {
    match op
    case ListMultipartUploads => {"delimiter", "encoding-type", "key-marker", "max-uploads", "prefix", "upload-id-marker"}
    case ListObjectsV2 =>
      {"prefix", "delimiter", "continuation-token", "fetch-owner", "max-keys", "encoding-type", "start-after"}
    case ListObjects => {"prefix", "delimiter", "marker", "max-keys", "encoding-type"}
    case ListParts => {"max-parts", "part-number-marker"}
    case GetObject | GetObjectVersion =>
      {"response-cache-control", "response-content-disposition", "response-content-encoding",
       "response-content-language", "response-content-type", "response-expires", "partNumber"}
    case HeadObject | HeadObjectVersion => {"partNumber"}
    case _ => {}
  }

  predicate QueryGuard(op: Kind, q: Values) {
    Matches(q, XId(op), Required(op), Optional(op))
  }

  method MatchesOperation(op: Kind, q: Values) returns (ok: bool)
    ensures ok <==> QueryGuard(op, q)
  {
    ok := QueryMatches(q, XId(op), Required(op), Optional(op));
  }

  /** A PUT that carries a copy source can only be CopyObject. */
  predicate CopyGuard(op: Kind, copy: bool) {
    VerbFor(op) == PUT ==> (copy <==> op == CopyObject)
  }

  predicate Guard(op: Kind, verb: Verb, scope: Scope, copy: bool, q: Values) {
    verb == VerbFor(op) && scope == ScopeFor(op) && CopyGuard(op, copy) && QueryGuard(op, q)
  }

  // ---------------------------------------------------------------- exclusivity

  /** The parameters that tell operations of one verb and scope apart. */
  datatype Marks = Marks(uploads: bool, listType: bool, uploadId: bool, versionId: bool, tagging: bool, acl: bool)

  function MarksIn(q: Values): Marks {
    Marks("uploads" in q, "list-type" in q, "uploadId" in q, "versionId" in q, "tagging" in q, "acl" in q)
  }

  function MarksFor(op: Kind): Marks {
    var r := Required(op);
    Marks("uploads" in r, "list-type" in r, "uploadId" in r, "versionId" in r, "tagging" in r, "acl" in r)
  }

  predicate Optionless(op: Kind, name: string) {
    name !in Optional(op) && name != "x-id"
  }

  lemma MarkIsRequired(op: Kind, q: Values, name: string)
    requires QueryGuard(op, q) && Optionless(op, name)
    ensures name in q <==> name in Required(op)
  {
  }

  lemma MarksNotOptional(op: Kind)
    ensures Optionless(op, "uploads") && Optionless(op, "list-type") && Optionless(op, "uploadId")
    ensures Optionless(op, "versionId") && Optionless(op, "tagging") && Optionless(op, "acl")
  {
  }

  lemma GuardFixesMarks(op: Kind, q: Values)
    requires QueryGuard(op, q)
    ensures MarksIn(q) == MarksFor(op)
  {
    MarksNotOptional(op);
    MarkIsRequired(op, q, "uploads");
    MarkIsRequired(op, q, "list-type");
    MarkIsRequired(op, q, "uploadId");
    MarkIsRequired(op, q, "versionId");
    MarkIsRequired(op, q, "tagging");
    MarkIsRequired(op, q, "acl");
  }

  function MarkTable(op: Kind): Marks {
    match op
    case ListMultipartUploads | CreateMultipartUpload => Marks(true, false, false, false, false, false)
    case ListObjectsV2 => Marks(false, true, false, false, false, false)
    case ListParts | AbortMultipartUpload | CompleteMultipartUpload | UploadPart =>
      Marks(false, false, true, false, false, false)
    case GetObjectVersion | HeadObjectVersion | DeleteObjectVersion => Marks(false, false, false, true, false, false)
    case PutObjectTagging => Marks(false, false, false, false, true, false)
    case PutObjectAcl => Marks(false, false, false, false, false, true)
    case _ => Marks(false, false, false, false, false, false)
  }

  lemma MarksTabled(op: Kind)
    ensures MarksFor(op) == MarkTable(op)
  {
  }

  lemma TableDistinguishes(a: Kind, b: Kind, copy: bool)
    requires VerbFor(a) == VerbFor(b) && ScopeFor(a) == ScopeFor(b) && MarkTable(a) == MarkTable(b)
    requires CopyGuard(a, copy) && CopyGuard(b, copy)
    ensures a == b
  {
  }

  /** At most one guard holds, for every verb, scope, copy header and query. */
  lemma GuardsAreExclusive(a: Kind, b: Kind, verb: Verb, scope: Scope, copy: bool, q: Values)
    requires Guard(a, verb, scope, copy, q) && Guard(b, verb, scope, copy, q)
    ensures a == b
  {
    GuardFixesMarks(a, q);
    GuardFixesMarks(b, q);
    MarksTabled(a);
    MarksTabled(b);
    TableDistinguishes(a, b, copy);
  }
}
