/** The response schemas and field transforms of http_server/s3_response.go. */
module Schema {
  import opened Common
  import opened Xml

  datatype Profile = Objects | Uploads | Create | Parts | Complete | Copy

  function RootName(p: Profile): string {
    match p
    case Objects => "ListBucketResult"
    case Uploads => "ListMultipartUploadsResult"
    case Create => "InitiateMultipartUploadResult"
    case Parts => "ListPartsResult"
    case Complete => "CompleteMultipartUploadResult"
    case Copy => "CopyObjectResult"
  }

  /** Paths below the root that carry no namespace meaning. */
  function PlainPaths(p: Profile): set<Path> {
    match p
    case Objects =>
      {["KeyCount"], ["Contents"], ["Contents", "LastModified"], ["Contents", "ETag"], ["Contents", "ChecksumAlgorithm"],
       ["Contents", "ChecksumType"], ["Contents", "Size"], ["Contents", "StorageClass"], ["CommonPrefixes"]}
    case Uploads =>
      {["Upload"], ["Upload", "StorageClass"], ["Upload", "Initiated"], ["Upload", "ChecksumAlgorithm"],
       ["Upload", "ChecksumType"], ["CommonPrefixes"]}
    case Create => {["ChecksumAlgorithm"], ["ChecksumType"]}
    case Parts =>
      {["StorageClass"], ["ChecksumAlgorithm"], ["ChecksumType"], ["Part"], ["Part", "PartNumber"], ["Part", "LastModified"],
       ["Part", "ETag"], ["Part", "Size"], ["Part", "ChecksumCRC32"], ["Part", "ChecksumCRC32C"],
       ["Part", "ChecksumCRC64NVME"], ["Part", "ChecksumSHA1"], ["Part", "ChecksumSHA256"]}
    case Complete =>
      {["ChecksumCRC32"], ["ChecksumCRC32C"], ["ChecksumCRC64NVME"], ["ChecksumSHA1"], ["ChecksumSHA256"], ["ChecksumType"]}
    case Copy => {["ChecksumCRC32"], ["ChecksumCRC32C"], ["ChecksumCRC64NVME"], ["ChecksumSHA1"], ["ChecksumSHA256"]}
  }

  function Shown(t: Transform): Rule {
    Field(t, false)
  }

  function Needed(t: Transform): Rule {
    Field(t, true)
  }

  /** Ruled paths below the root. */
  function Rules(p: Profile): map<Path, Rule> {
    match p
    case Objects => map[
      ["Name"] := Shown(VirtualBucket), ["Prefix"] := Shown(VirtualKeyEcho), ["StartAfter"] := Shown(VirtualKeyEcho),
      ["Marker"] := Shown(VirtualKeyEcho), ["NextMarker"] := Shown(VirtualKey),
      ["CommonPrefixes", "Prefix"] := Shown(VirtualKey), ["Contents", "Key"] := Shown(VirtualKey),
      ["Delimiter"] := Shown(PlainQueryEcho), ["EncodingType"] := Shown(PlainQueryEcho),
      ["MaxKeys"] := Shown(NumericQueryEcho), ["IsTruncated"] := Shown(Boolean),
      ["ContinuationToken"] := Shown(EchoContinuationToken), ["NextContinuationToken"] := Shown(NewContinuationToken),
      ["Contents", "Owner"] := Identity]
    case Uploads => map[
      ["Bucket"] := Shown(VirtualBucket), ["Prefix"] := Shown(VirtualKeyEcho), ["KeyMarker"] := Shown(VirtualKeyEcho),
      ["NextKeyMarker"] := Shown(VirtualKey), ["CommonPrefixes", "Prefix"] := Shown(VirtualKey),
      ["Upload", "Key"] := Shown(VirtualKey), ["Delimiter"] := Shown(PlainQueryEcho),
      ["EncodingType"] := Shown(PlainQueryEcho), ["MaxUploads"] := Shown(NumericQueryEcho),
      ["IsTruncated"] := Shown(Boolean), ["UploadIdMarker"] := Shown(EchoUploadToken),
      ["NextUploadIdMarker"] := Shown(NewUploadToken), ["Upload", "UploadId"] := Shown(NewUploadToken),
      ["Upload", "Owner"] := Identity, ["Upload", "Initiator"] := Identity]
    case Create => map[
      ["Bucket"] := Needed(VirtualBucket), ["Key"] := Needed(VirtualKey), ["UploadId"] := Needed(NewUploadToken)]
    case Parts => map[
      ["Bucket"] := Needed(VirtualBucket), ["Key"] := Needed(VirtualKey), ["UploadId"] := Needed(EchoUploadToken),
      ["PartNumberMarker"] := Needed(NumericQueryEcho), ["NextPartNumberMarker"] := Shown(NonNegativeInteger),
      ["MaxParts"] := Needed(NumericQueryEcho), ["IsTruncated"] := Needed(Boolean), ["Owner"] := Identity,
      ["Initiator"] := Identity]
    case Complete => map[
      ["Location"] := Needed(VirtualLocation), ["Bucket"] := Needed(VirtualBucket), ["Key"] := Needed(VirtualKey),
      ["ETag"] := Needed(RequiredNonempty)]
    case Copy => map[["ETag"] := Needed(RequiredNonempty), ["LastModified"] := Needed(RequiredNonempty)]
  }

  predicate Below(p: Profile, path: Path) {
    |path| > 1 && path[0] == RootName(p)
  }

  predicate Known(p: Profile, path: Path) {
    path == [RootName(p)] || (Below(p, path) && (path[1..] in PlainPaths(p) || path[1..] in Rules(p)))
  }

  function RuleAt(p: Profile, path: Path): Option<Rule> {
    if Below(p, path) && path[1..] in Rules(p) then Some(Rules(p)[path[1..]]) else None
  }

  /** Some schema path lies below this one, or it is an identity container. */
  predicate ContainerPath(p: Profile, path: Path) {
    || (path != [] && path[0] == RootName(p)
        && exists q :: q in PlainPaths(p) + Rules(p).Keys && path[1..] < q)
    || RuleAt(p, path) == Some(Identity)
  }

  function RequiredPaths(p: Profile): set<Path> {
    set t | t in Rules(p) && Rules(p)[t].Field? && Rules(p)[t].required :: [RootName(p)] + t
  }

  /** Every known path has a known parent, and that parent is a container. */
  lemma ParentsAreContainers(p: Profile, path: Path)
    requires Known(p, path) && |path| > 1
    ensures ContainerPath(p, path[..|path| - 1])
  {
    var q, parent := path[1..], path[..|path| - 1];
    assert parent[1..] == q[..|q| - 1];
    assert q in PlainPaths(p) + Rules(p).Keys;
  }
}

/** One list, upload or copy exchange: how response fields are shown to the client. */
module Namespace {
  import opened Common
  import opened Text
  import opened Percent
  import opened Query
  import opened Keys
  import opened Operations
  import opened Listing
  import opened Xml
  import opened Schema
  import opened XmlProof
  import Token

  datatype Exchange = Exchange(
    profile: Profile, x: Token.Crypto, config: Token.Config, bucket: string, key: string, query: Values, root: string,
    location: string, sensitive: string -> bool)

  const LIMIT: nat := 0x100000

  function UrlEncoded(e: Exchange): bool {
    Value(e.query, "encoding-type") == "url"
  }

  /** The text the origin meant, undoing url encoding when it was asked for. */
  function Decoded(e: Exchange, text: string): Option<string> {
    if UrlEncoded(e) then PathUnescape(text) else Some(text)
  }

  /** How the client sees a value of its own. */
  function Presented(e: Exchange, value: string): string {
    if UrlEncoded(e) then UriEncode(value) else value
  }

  function StripRoot(e: Exchange, text: string): string {
    if !UrlEncoded(e) then TrimPrefix(text, e.root)
    else
      match PathUnescape(text)
      case None => TrimPrefix(text, UriEncode(e.root))
      case Some(d) => UriEncode(TrimPrefix(d, e.root))
  }

  predicate ObjectKeyPath(path: Path) {
    path == ["ListBucketResult", "Contents", "Key"] || path == ["ListMultipartUploadsResult", "Upload", "Key"]
  }

  predicate AddressablePath(path: Path) {
    || ObjectKeyPath(path)
    || path == ["ListBucketResult", "NextMarker"] || path == ["ListBucketResult", "CommonPrefixes", "Prefix"]
    || path == ["ListMultipartUploadsResult", "NextKeyMarker"]
    || path == ["ListMultipartUploadsResult", "CommonPrefixes", "Prefix"]
  }

  predicate Lists(p: Profile) {
    p == Objects || p == Uploads
  }

  function VirtualizeKey(e: Exchange, path: Path, text: string): Option<string> {
    match Decoded(e, text)
    case None => None
    case Some(d) =>
      if Lists(e.profile) && d == "" then Some("")
      else if Lists(e.profile) && !(e.root <= d) then None
      else if e.profile in {Create, Parts, Complete} && d != e.root + e.key then None
      else
        var v := TrimPrefix(d, e.root);
        if AddressablePath(path) && ((ObjectKeyPath(path) && v == "") || (v != "" && !ValidKey(v))) then None
        else Some(StripRoot(e, text))
  }

  /** The request parameter that a key echo repeats. */
  function KeyEchoName(path: Path): Option<string> {
    if path == ["ListBucketResult", "Prefix"] || path == ["ListMultipartUploadsResult", "Prefix"] then Some("prefix")
    else if path == ["ListBucketResult", "Marker"] then Some("marker")
    else if path == ["ListBucketResult", "StartAfter"] then Some("start-after")
    else if path == ["ListMultipartUploadsResult", "KeyMarker"] then Some("key-marker")
    else None
  }

  predicate KeyEchoMatches(e: Exchange, path: Path, text: string) {
    KeyEchoName(path).Some? && Decoded(e, text) == Some(Expected(e.query, e.root, KeyEchoName(path).value))
  }

  predicate PlainEchoMatches(e: Exchange, path: Path, text: string) {
    if path == ["ListBucketResult", "Delimiter"] || path == ["ListMultipartUploadsResult", "Delimiter"] then
      Decoded(e, text) == Some(Value(e.query, "delimiter"))
    else if path == ["ListBucketResult", "EncodingType"] || path == ["ListMultipartUploadsResult", "EncodingType"] then
      text == Value(e.query, "encoding-type")
    else false
  }

  /** The parameter and default that a numeric echo repeats. */
  function NumericEcho(path: Path): Option<(string, int)> {
    if path == ["ListBucketResult", "MaxKeys"] then Some(("max-keys", 1000))
    else if path == ["ListMultipartUploadsResult", "MaxUploads"] then Some(("max-uploads", 1000))
    else if path == ["ListPartsResult", "PartNumberMarker"] then Some(("part-number-marker", 0))
    else if path == ["ListPartsResult", "MaxParts"] then Some(("max-parts", 1000))
    else None
  }

  predicate NumericEchoMatches(e: Exchange, path: Path, text: string) {
    NumericEcho(path).Some? &&
    var (name, missing), actual := NumericEcho(path).value, Atoi(TrimSpace(text));
    && actual.Some? && actual.value >= 0
    && actual == if name in e.query then Atoi(Value(e.query, name)) else Some(missing)
  }

  function EchoToken(e: Exchange, kind: string, virtual: string, mayBeEmpty: bool, text: string): Option<string> {
    if virtual == "" then if text == "" && mayBeEmpty then Some("") else None
    else if Token.Decode(e.x, e.config, kind, virtual) == Some(text) then Some(virtual) else None
  }

  /** The upload parameter of the request. */
  function UploadToken(q: Values): string {
    if Value(q, "upload-id-marker") != "" then Value(q, "upload-id-marker") else Value(q, "uploadId")
  }

  function EchoUpload(e: Exchange, path: Path, text: string): Option<string> {
    EchoToken(e, "upload", UploadToken(e.query), path == UPLOAD_MARKER, text)
  }

  function ApplyTransform(e: Exchange, transform: Transform, path: Path, text: string): Option<string> {
    match transform
    case VirtualBucket => if TrimSpace(text) == e.config.bucket then Some(e.bucket) else None
    case VirtualKey => VirtualizeKey(e, path, text)
    case VirtualLocation => if Blank(text) then None else Some(e.location)
    case NewContinuationToken =>
      if text == "" && path == NEXT_CONTINUATION then Some("") else Token.Encode(e.x, e.config, "continuation", text)
    case EchoContinuationToken =>
      EchoToken(e, "continuation", Value(e.query, "continuation-token"), path == ["ListBucketResult", "ContinuationToken"], text)
    case NewUploadToken =>
      if text == "" && path == NEXT_UPLOAD then Some("") else Token.Encode(e.x, e.config, "upload", text)
    case EchoUploadToken =>
      EchoUpload(e, path, text)
    case VirtualKeyEcho => if KeyEchoMatches(e, path, text) then VirtualizeKey(e, path, text) else None
    case PlainQueryEcho => if PlainEchoMatches(e, path, text) then Some(text) else None
    case NumericQueryEcho => if NumericEchoMatches(e, path, text) then Some(text) else None
    case NonNegativeInteger =>
      var n := Atoi(TrimSpace(text));
      if n.Some? && n.value >= 0 then Some(text) else None
    case Boolean => if TrimSpace(text) in {"true", "false"} then Some(TrimSpace(text)) else None
    case RequiredNonempty => if Blank(text) then None else Some(text)
  }

  /** The rewriter's context for one exchange. */
  function ContextFor(e: Exchange): Context {
    Context(
      RootName(e.profile),
      path => Known(e.profile, path), path => ContainerPath(e.profile, path), path => RuleAt(e.profile, path),
      RequiredPaths(e.profile),
      (a: Attr) => !e.sensitive(a.value) && a.name.local == "xmlns" && a.value == S3_NAMESPACE,
      (t, path, text) => ApplyTransform(e, t, path, text),
      e.bucket, Value(e.query, "fetch-owner") == "true", LIMIT)
  }

  /** Every profile's schema meets the assumptions of the refinement. */
  lemma ProfilesAreSane(e: Exchange)
    ensures Sane(ContextFor(e))
  {
  }

  /** On every profile and document: accepted exactly if valid, then the ideal document, else a prefix of it. */
  lemma ResponsesAreRewritten(e: Exchange, f: Forest)
    ensures var c := ContextFor(e);
      var o, shown := Run(c, START, Tokens(f)), Tokens(Ideal(c, [], f));
      && (Accepts(c, o.end) <==> ValidDocument(c, f))
      && (Accepts(c, o.end) ==> o.out == shown)
      && o.out <= shown && Virtual(c, [], Ideal(c, [], f)) && o.end != BadOwnerState
  {
    ProfilesAreSane(e);
    RefinesTreeTransform(ContextFor(e), f);
    IdealIsVirtual(ContextFor(e), [], f);
    OwnerStateNeverBad(ContextFor(e), START, Tokens(f));
  }

  // -------------------------------------------------------------- pagination

  lemma {:induction false} UnescapedOctets(s: string)
    requires Octets(s) && PathUnescape(s).Some?
    ensures Octets(PathUnescape(s).value)
    decreases |s|
  {
    if s != "" {
      if s[0] != '%' { UnescapedOctets(s[1..]); } else { UnescapedOctets(s[3..]); }
    }
  }

  /** What the client reads out of a shown value: it undoes the url encoding it asked for. */
  function ClientReads(e: Exchange, shown: string): Option<string> {
    if UrlEncoded(e) then PathUnescape(shown) else Some(shown)
  }

  /** A virtualized key, read by the client and put under the root again, is the key the origin named. */
  lemma KeyReturns(e: Exchange, path: Path, text: string)
    requires Octets(text) && Lists(e.profile) && VirtualizeKey(e, path, text).Some?
    ensures var shown := VirtualizeKey(e, path, text).value;
      && ClientReads(e, shown).Some?
      && (ClientReads(e, shown).value != "" ==> Decoded(e, text) == Some(e.root + ClientReads(e, shown).value))
  {
    var d := Decoded(e, text).value;
    if d != "" {
      var v := TrimPrefix(d, e.root);
      assert d == e.root + v;
      if UrlEncoded(e) {
        UnescapedOctets(text);
        UnescapeUndoesEncode(v);
      }
    }
  }

  predicate ListsWith(op: Kind, p: Profile) {
    (p == Objects && (op == ListObjects || op == ListObjectsV2)) || (p == Uploads && op == ListMultipartUploads)
  }

  /** A non-empty next marker sent back in the marker parameter reaches the origin as the origin issued it. */
  lemma MarkerReturns(e: Exchange, path: Path, text: string, op: Kind, next: Values)
    requires Octets(text) && ListsWith(op, e.profile) && MarkerField(op).Some?
    requires VirtualizeKey(e, path, text).Some?
    requires QueryGuard(op, next)
    requires Some(Value(next, MarkerField(op).value)) == ClientReads(e, VirtualizeKey(e, path, text).value)
    requires Value(next, MarkerField(op).value) != "" && Outbound(op, next, e.root, true, e.x, e.config).Some?
    ensures Decoded(e, text) == Some(Value(Outbound(op, next, e.root, true, e.x, e.config).value, MarkerField(op).value))
  {
    KeyReturns(e, path, text);
    OutboundKeyField(op, next, e.root, e.x, e.config, MarkerField(op).value);
  }

  // -------------------------------------------------------------------- echoes

  lemma KeyEchoIsField(path: Path)
    requires KeyEchoName(path).Some?
    ensures EchoField(KeyEchoName(path).value)
  {
  }

  lemma EchoApplied(e: Exchange, path: Path, text: string, name: string)
    requires Lists(e.profile) && KeyEchoName(path) == Some(name)
    ensures ApplyTransform(e, VirtualKeyEcho, path, text)
         == if Decoded(e, text) == Some(Expected(e.query, e.root, name)) then Some(Presented(e, Value(e.query, name))) else None
  {
  }

  lemma EchoedName(e: Exchange, op: Kind, name: string)
    requires ListsWith(op, e.profile) && QueryGuard(op, e.query) && EchoField(name)
    requires Outbound(op, e.query, e.root, true, e.x, e.config).Some?
    ensures Value(Outbound(op, e.query, e.root, true, e.x, e.config).value, name) == Expected(e.query, e.root, name)
  {
    OutboundKeyField(op, e.query, e.root, e.x, e.config, name);
  }

  /**
   A key echo is accepted exactly when it repeats what the origin was asked for, and then
   shows the client its own value.
   */
  lemma FaithfulKeyEcho(e: Exchange, op: Kind, path: Path, text: string)
    requires ListsWith(op, e.profile) && QueryGuard(op, e.query) && KeyEchoName(path).Some?
    requires Outbound(op, e.query, e.root, true, e.x, e.config).Some?
    ensures var name, o := KeyEchoName(path).value, Outbound(op, e.query, e.root, true, e.x, e.config).value;
      ApplyTransform(e, VirtualKeyEcho, path, text)
      == if Decoded(e, text) == Some(Value(o, name)) then Some(Presented(e, Value(e.query, name))) else None
  {
    var name := KeyEchoName(path).value;
    KeyEchoIsField(path);
    EchoedName(e, op, name);
    EchoApplied(e, path, text, name);
  }

  /** A continuation token echo is accepted exactly when it repeats what was sent, and shows the client's token. */
  lemma FaithfulContinuationEcho(e: Exchange, op: Kind, text: string)
    requires Outbound(op, e.query, e.root, true, e.x, e.config).Some?
    ensures var o := Outbound(op, e.query, e.root, true, e.x, e.config).value;
      ApplyTransform(e, EchoContinuationToken, ["ListBucketResult", "ContinuationToken"], text)
      == if text == Value(o, "continuation-token") then Some(Value(e.query, "continuation-token")) else None
  {
    OutboundToken(op, e.query, e.root, true, e.x, e.config, 0);
  }

  ghost predicate TokenFor(e: Exchange, kind: string, virtual: string, sent: string) {
    if virtual == "" then sent == "" else Token.Decode(e.x, e.config, kind, virtual) == Some(sent)
  }

  lemma TokenEcho(e: Exchange, kind: string, virtual: string, sent: string, mayBeEmpty: bool, text: string)
    requires TokenFor(e, kind, virtual, sent) && (virtual == "" ==> mayBeEmpty)
    ensures EchoToken(e, kind, virtual, mayBeEmpty, text) == if text == sent then Some(virtual) else None
  {
  }

  lemma UploadsStandFor(e: Exchange, op: Kind, listing: bool)
    requires Outbound(op, e.query, e.root, listing, e.x, e.config).Some?
    ensures var o := Outbound(op, e.query, e.root, listing, e.x, e.config).value;
      && TokenFor(e, "upload", Value(e.query, "upload-id-marker"), Value(o, "upload-id-marker"))
      && TokenFor(e, "upload", Value(e.query, "uploadId"), Value(o, "uploadId"))
  {
    OutboundToken(op, e.query, e.root, listing, e.x, e.config, 1);
    OutboundToken(op, e.query, e.root, listing, e.x, e.config, 2);
  }

  /** The upload identifier that was sent, in the parameter the request used. */
  function SentUpload(q: Values, o: Values): string {
    if Value(q, "upload-id-marker") != "" then Value(o, "upload-id-marker") else Value(o, "uploadId")
  }

  lemma SentStandsFor(e: Exchange, op: Kind, listing: bool)
    requires Outbound(op, e.query, e.root, listing, e.x, e.config).Some?
    ensures TokenFor(e, "upload", UploadToken(e.query),
                     SentUpload(e.query, Outbound(op, e.query, e.root, listing, e.x, e.config).value))
  {
    UploadsStandFor(e, op, listing);
  }

  lemma UploadApplied(e: Exchange, path: Path, text: string)
    ensures ApplyTransform(e, EchoUploadToken, path, text) == EchoUpload(e, path, text)
  {
  }

  lemma UploadEchoed(e: Exchange, path: Path, text: string, sent: string)
    requires TokenFor(e, "upload", UploadToken(e.query), sent) && (UploadToken(e.query) != "" || path == UPLOAD_MARKER)
    ensures EchoUpload(e, path, text) == if text == sent then Some(UploadToken(e.query)) else None
  {
    TokenEcho(e, "upload", UploadToken(e.query), sent, path == UPLOAD_MARKER, text);
  }

  /** The same for upload identifiers. */
  lemma FaithfulUploadEcho(e: Exchange, op: Kind, listing: bool, path: Path, text: string)
    requires UploadToken(e.query) != "" || path == UPLOAD_MARKER
    requires Outbound(op, e.query, e.root, listing, e.x, e.config).Some?
    ensures var sent := SentUpload(e.query, Outbound(op, e.query, e.root, listing, e.x, e.config).value);
      ApplyTransform(e, EchoUploadToken, path, text) == if text == sent then Some(UploadToken(e.query)) else None
  {
    SentStandsFor(e, op, listing);
    UploadApplied(e, path, text);
    UploadEchoed(e, path, text, SentUpload(e.query, Outbound(op, e.query, e.root, listing, e.x, e.config).value));
  }

  /** A freshly issued continuation token, sent back, reaches the origin as the origin issued it. */
  lemma ContinuationReturns(e: Exchange, text: string, op: Kind, next: Values)
    requires Token.Lawful(e.x) && text != "" && Token.CipherFor(e.x, e.config).Some?
    requires Some(Value(next, "continuation-token")) == ApplyTransform(e, NewContinuationToken, NEXT_CONTINUATION, text)
    requires forall j :: 0 < j < |TOKENS| ==> Value(next, TOKENS[j].name) == ""
    ensures Outbound(op, next, e.root, true, e.x, e.config).Some?
    ensures Value(Outbound(op, next, e.root, true, e.x, e.config).value, "continuation-token") == text
  {
    TokenReturns(op, next, e.root, true, e.x, e.config, 0, text);
  }

  /** The same for a next upload marker. */
  lemma UploadMarkerReturns(e: Exchange, text: string, op: Kind, next: Values)
    requires Token.Lawful(e.x) && text != "" && Token.CipherFor(e.x, e.config).Some?
    requires Some(Value(next, "upload-id-marker")) == ApplyTransform(e, NewUploadToken, NEXT_UPLOAD, text)
    requires forall j :: 0 <= j < |TOKENS| && j != 1 ==> Value(next, TOKENS[j].name) == ""
    ensures Outbound(op, next, e.root, true, e.x, e.config).Some?
    ensures Value(Outbound(op, next, e.root, true, e.x, e.config).value, "upload-id-marker") == text
  {
    TokenReturns(op, next, e.root, true, e.x, e.config, 1, text);
  }
}
