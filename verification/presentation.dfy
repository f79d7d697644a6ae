/**
 What a client is shown, field by field and then on whole responses: every bucket, key, token and
 identity of the output is the client's own form of what the origin wrote at that place.
 */
module Presentation {
  import opened Common
  import opened Text
  import opened Percent
  import opened Query
  import opened Keys
  import opened Listing
  import opened Xml
  import opened Schema
  import opened XmlProof
  import opened Namespace
  import Token

  /** What the text of an S3 response element stands for, by the S3 API and not by the rewriter's tables. */
  datatype Meaning =
    | BucketName
    | ListedKey(named: bool)
    | RequestKey
    | KeyEcho(name: string)
    | Issued(kind: string, optional: bool)
    | ContinuationEcho
    | UploadEcho(optional: bool)
    | Place

  predicate BucketPath(path: Path) {
    || path == ["ListBucketResult", "Name"] || path == ["ListMultipartUploadsResult", "Bucket"]
    || path == ["InitiateMultipartUploadResult", "Bucket"] || path == ["ListPartsResult", "Bucket"]
    || path == ["CompleteMultipartUploadResult", "Bucket"]
  }

  predicate RequestKeyPath(path: Path) {
    || path == ["InitiateMultipartUploadResult", "Key"] || path == ["ListPartsResult", "Key"]
    || path == ["CompleteMultipartUploadResult", "Key"]
  }

  predicate IssuedUpload(path: Path) {
    || path == NEXT_UPLOAD || path == ["ListMultipartUploadsResult", "Upload", "UploadId"]
    || path == ["InitiateMultipartUploadResult", "UploadId"]
  }

  predicate UploadEchoPath(path: Path) {
    path == UPLOAD_MARKER || path == ["ListPartsResult", "UploadId"]
  }

  predicate OwnerPath(path: Path) {
    || path == OWNER || path == ["ListMultipartUploadsResult", "Upload", "Owner"]
    || path == ["ListMultipartUploadsResult", "Upload", "Initiator"]
    || path == ["ListPartsResult", "Owner"] || path == ["ListPartsResult", "Initiator"]
  }

  function MeaningOf(path: Path): Option<Meaning> {
    if BucketPath(path) then Some(BucketName)
    else if AddressablePath(path) then Some(ListedKey(ObjectKeyPath(path)))
    else if RequestKeyPath(path) then Some(RequestKey)
    else if KeyEchoName(path).Some? then Some(KeyEcho(KeyEchoName(path).value))
    else if path == NEXT_CONTINUATION then Some(Issued("continuation", true))
    else if IssuedUpload(path) then Some(Issued("upload", path == NEXT_UPLOAD))
    else if path == ["ListBucketResult", "ContinuationToken"] then Some(ContinuationEcho)
    else if UploadEchoPath(path) then Some(UploadEcho(path == UPLOAD_MARKER))
    else if path == ["CompleteMultipartUploadResult", "Location"] then Some(Place)
    else None
  }

  /** A listed key, read by the client, is one it could ask for, and under the root the one the origin named. */
  ghost predicate KeyShown(e: Exchange, named: bool, raw: string, shown: string) {
    && ClientReads(e, shown).Some?
    && var v := ClientReads(e, shown).value;
       if v == "" then Decoded(e, raw) == Some("") || (!named && Decoded(e, raw) == Some(e.root))
       else ValidKey(v) && Decoded(e, raw) == Some(e.root + v)
  }

  /** What the client is shown where the origin wrote `raw`. */
  ghost predicate Honest(e: Exchange, m: Meaning, raw: string, shown: string) {
    match m
    case BucketName => shown == e.bucket && TrimSpace(raw) == e.config.bucket
    case ListedKey(named) => KeyShown(e, named, raw, shown)
    case RequestKey => shown == Presented(e, e.key) && Decoded(e, raw) == Some(e.root + e.key)
    case KeyEcho(name) =>
      && shown == Presented(e, Value(e.query, name))
      && Decoded(e, raw) == Some(if name != "prefix" && Value(e.query, name) == "" then "" else e.root + Value(e.query, name))
    case Issued(kind, optional) =>
      if raw == "" then optional && shown == "" else Token.Decode(e.x, e.config, kind, shown) == Some(raw)
    case ContinuationEcho =>
      shown == Value(e.query, "continuation-token") && TokenFor(e, "continuation", shown, raw)
    case UploadEcho(optional) =>
      shown == UploadToken(e.query) && TokenFor(e, "upload", shown, raw) && (shown == "" ==> optional)
    case Place => shown == e.location && !Blank(raw)
  }

  // ---------------------------------------------------------- field by field

  ghost predicate Ruled(p: Profile, path: Path) {
    RuleAt(p, path).Some? && RuleAt(p, path).value.Field?
  }

  ghost predicate Carries(p: Profile, path: Path, t: Transform) {
    Ruled(p, path) && RuleAt(p, path).value.transform == t
  }

  lemma RootDecides(p: Profile, path: Path)
    requires Known(p, path)
    ensures path != [] && path[0] == RootName(p)
  {
  }

  lemma RootNamesDiffer(p: Profile, q: Profile)
    requires RootName(p) == RootName(q)
    ensures p == q
  {
  }

  lemma BucketRules(p: Profile, path: Path)
    requires path == [RootName(p), "Bucket"] && p != Copy && p != Objects
    ensures Carries(p, path, VirtualBucket)
  {
  }

  lemma NameRule(path: Path)
    requires path == [RootName(Objects), "Name"]
    ensures Carries(Objects, path, VirtualBucket)
  {
  }

  lemma BucketsAreRuled(p: Profile, path: Path)
    requires Known(p, path) && BucketPath(path)
    ensures Carries(p, path, VirtualBucket)
  {
    RootDecides(p, path);
    if p == Objects { NameRule(path); } else { BucketRules(p, path); }
  }

  lemma ObjectsKeysAreRuled(path: Path)
    requires Known(Objects, path) && AddressablePath(path)
    ensures Carries(Objects, path, VirtualKey)
  {
  }

  lemma ObjectsEchoesAreRuled(path: Path)
    requires Known(Objects, path) && KeyEchoName(path).Some?
    ensures Carries(Objects, path, VirtualKeyEcho)
  {
  }

  lemma UploadsKeysAreRuled(path: Path)
    requires Known(Uploads, path) && AddressablePath(path)
    ensures Carries(Uploads, path, VirtualKey)
  {
  }

  lemma UploadsEchoesAreRuled(path: Path)
    requires Known(Uploads, path) && KeyEchoName(path).Some?
    ensures Carries(Uploads, path, VirtualKeyEcho)
  {
  }

  lemma ListRoots(path: Path)
    requires AddressablePath(path) || KeyEchoName(path).Some?
    ensures path[0] == RootName(Objects) || path[0] == RootName(Uploads)
  {
  }

  lemma ListKeysAreRuled(p: Profile, path: Path)
    requires Known(p, path) && (AddressablePath(path) || KeyEchoName(path).Some?)
    ensures Lists(p)
    ensures AddressablePath(path) ==> Carries(p, path, VirtualKey)
    ensures KeyEchoName(path).Some? ==> Carries(p, path, VirtualKeyEcho)
  {
    RootDecides(p, path);
    ListRoots(path);
    if path[0] == RootName(Objects) {
      RootNamesDiffer(p, Objects);
      if AddressablePath(path) { ObjectsKeysAreRuled(path); }
      if KeyEchoName(path).Some? { ObjectsEchoesAreRuled(path); }
    } else {
      RootNamesDiffer(p, Uploads);
      if AddressablePath(path) { UploadsKeysAreRuled(path); }
      if KeyEchoName(path).Some? { UploadsEchoesAreRuled(path); }
    }
  }

  lemma RequestKeysAreRuled(p: Profile, path: Path)
    requires Known(p, path) && RequestKeyPath(path)
    ensures Carries(p, path, VirtualKey) && p in {Create, Parts, Schema.Complete}
  {
  }

  lemma ContinuationIsRuled(p: Profile)
    requires Known(p, NEXT_CONTINUATION)
    ensures Carries(p, NEXT_CONTINUATION, NewContinuationToken)
  {
  }

  lemma UploadTokensAreRuled(p: Profile, path: Path)
    requires Known(p, path) && IssuedUpload(path)
    ensures Carries(p, path, NewUploadToken)
  {
  }

  lemma ContinuationEchoIsRuled(p: Profile, path: Path)
    requires Known(p, path) && path == ["ListBucketResult", "ContinuationToken"]
    ensures Carries(p, path, EchoContinuationToken)
  {
  }

  lemma UploadEchoesAreRuled(p: Profile, path: Path)
    requires Known(p, path) && UploadEchoPath(path)
    ensures Carries(p, path, EchoUploadToken)
  {
  }

  lemma LocationIsRuled(p: Profile, path: Path)
    requires Known(p, path)
    ensures path == ["CompleteMultipartUploadResult", "Location"] ==> Carries(p, path, VirtualLocation)
  {
  }

  /** Owners and initiators, and nothing else, are identities. */
  lemma IdentitiesAreOwners(p: Profile, path: Path)
    requires Known(p, path)
    ensures RuleAt(p, path) == Some(Identity) <==> OwnerPath(path)
  {
  }

  // ------------------------------------------------------- what a rule shows

  lemma TrimmedKey(e: Exchange, path: Path, raw: string)
    requires Lists(e.profile) && AddressablePath(path) && VirtualizeKey(e, path, raw).Some?
    ensures Decoded(e, raw).Some?
    ensures var d := Decoded(e, raw).value;
      if d == "" then VirtualizeKey(e, path, raw) == Some("")
      else
        && e.root <= d && VirtualizeKey(e, path, raw) == Some(Presented(e, d[|e.root|..]))
        && (if d[|e.root|..] == "" then !ObjectKeyPath(path) else ValidKey(d[|e.root|..]))
  {
  }

  lemma Readable(e: Exchange, v: string)
    requires UrlEncoded(e) ==> Octets(v)
    ensures ClientReads(e, Presented(e, v)) == Some(v)
  {
    if UrlEncoded(e) { UnescapeUndoesEncode(v); }
  }

  lemma ListedKeyIsShown(e: Exchange, path: Path, raw: string)
    requires Octets(raw) && Lists(e.profile) && AddressablePath(path) && VirtualizeKey(e, path, raw).Some?
    ensures KeyShown(e, ObjectKeyPath(path), raw, VirtualizeKey(e, path, raw).value)
  {
    TrimmedKey(e, path, raw);
    var d := Decoded(e, raw).value;
    if d != "" {
      var v := d[|e.root|..];
      assert d == e.root + v;
      if v == "" { assert d == e.root; }
      if UrlEncoded(e) { UnescapedOctets(raw); }
      Readable(e, v);
    }
  }

  lemma RequestKeyIsShown(e: Exchange, path: Path, raw: string)
    requires e.profile in {Create, Parts, Schema.Complete} && VirtualizeKey(e, path, raw).Some?
    ensures Honest(e, RequestKey, raw, VirtualizeKey(e, path, raw).value)
  {
    TrimPrefixUndoes(e.root, e.key);
  }

  lemma EchoIsShown(e: Exchange, path: Path, raw: string, name: string, shown: string)
    requires Lists(e.profile) && KeyEchoName(path) == Some(name)
    requires ApplyTransform(e, VirtualKeyEcho, path, raw) == Some(shown)
    ensures Honest(e, KeyEcho(name), raw, shown)
  {
    EchoApplied(e, path, raw, name);
  }

  lemma IssuedIsShown(e: Exchange, kind: string, raw: string, shown: string)
    requires Token.Lawful(e.x) && Token.Encode(e.x, e.config, kind, raw) == Some(shown)
    ensures raw != "" && Token.Decode(e.x, e.config, kind, shown) == Some(raw)
  {
    Token.DecodeUndoesEncode(e.x, e.config, kind, raw);
  }

  /** What the rewriter shows at `path` where the origin wrote `raw`, whatever rule stands there. */
  function ShownAt(e: Exchange, path: Path, raw: string): Option<string> {
    match RuleAt(e.profile, path)
    case Some(Field(t, _)) => ContextFor(e).apply(t, path, raw)
    case _ => None
  }

  lemma ShownBy(e: Exchange, path: Path, raw: string, t: Transform)
    requires Carries(e.profile, path, t)
    ensures ShownAt(e, path, raw) == ApplyTransform(e, t, path, raw)
  {
  }

  lemma BucketsAreHonest(e: Exchange, path: Path, raw: string, shown: string)
    requires Known(e.profile, path) && BucketPath(path) && ShownAt(e, path, raw) == Some(shown)
    ensures Honest(e, BucketName, raw, shown)
  {
    BucketsAreRuled(e.profile, path);
    ShownBy(e, path, raw, VirtualBucket);
  }

  lemma ListedKeysAreHonest(e: Exchange, path: Path, raw: string, shown: string)
    requires Known(e.profile, path) && AddressablePath(path) && ShownAt(e, path, raw) == Some(shown) && Octets(raw)
    ensures Honest(e, ListedKey(ObjectKeyPath(path)), raw, shown)
  {
    ListKeysAreRuled(e.profile, path);
    ShownBy(e, path, raw, VirtualKey);
    ListedKeyIsShown(e, path, raw);
  }

  lemma RequestKeysAreHonest(e: Exchange, path: Path, raw: string, shown: string)
    requires Known(e.profile, path) && RequestKeyPath(path) && ShownAt(e, path, raw) == Some(shown)
    ensures Honest(e, RequestKey, raw, shown)
  {
    RequestKeysAreRuled(e.profile, path);
    ShownBy(e, path, raw, VirtualKey);
    RequestKeyIsShown(e, path, raw);
  }

  lemma KeyEchoesAreHonest(e: Exchange, path: Path, raw: string, shown: string)
    requires Known(e.profile, path) && KeyEchoName(path).Some? && ShownAt(e, path, raw) == Some(shown)
    ensures Honest(e, KeyEcho(KeyEchoName(path).value), raw, shown)
  {
    ListKeysAreRuled(e.profile, path);
    ShownBy(e, path, raw, VirtualKeyEcho);
    EchoIsShown(e, path, raw, KeyEchoName(path).value, shown);
  }

  lemma ContinuationsAreHonest(e: Exchange, raw: string, shown: string)
    requires Known(e.profile, NEXT_CONTINUATION) && ShownAt(e, NEXT_CONTINUATION, raw) == Some(shown)
    requires Token.Lawful(e.x)
    ensures Honest(e, Issued("continuation", true), raw, shown)
  {
    ContinuationIsRuled(e.profile);
    ShownBy(e, NEXT_CONTINUATION, raw, NewContinuationToken);
    if raw != "" { IssuedIsShown(e, "continuation", raw, shown); }
  }

  lemma UploadsAreHonest(e: Exchange, path: Path, raw: string, shown: string)
    requires Known(e.profile, path) && IssuedUpload(path) && ShownAt(e, path, raw) == Some(shown) && Token.Lawful(e.x)
    ensures Honest(e, Issued("upload", path == NEXT_UPLOAD), raw, shown)
  {
    UploadTokensAreRuled(e.profile, path);
    ShownBy(e, path, raw, NewUploadToken);
    if raw != "" || path != NEXT_UPLOAD { IssuedIsShown(e, "upload", raw, shown); }
  }

  lemma ContinuationEchoesAreHonest(e: Exchange, path: Path, raw: string, shown: string)
    requires path == ["ListBucketResult", "ContinuationToken"]
    requires Known(e.profile, path) && ShownAt(e, path, raw) == Some(shown)
    ensures Honest(e, ContinuationEcho, raw, shown)
  {
    ContinuationEchoIsRuled(e.profile, path);
    ShownBy(e, path, raw, EchoContinuationToken);
  }

  lemma UploadEchoesAreHonest(e: Exchange, path: Path, raw: string, shown: string)
    requires Known(e.profile, path) && UploadEchoPath(path) && ShownAt(e, path, raw) == Some(shown)
    ensures Honest(e, UploadEcho(path == UPLOAD_MARKER), raw, shown)
  {
    UploadEchoesAreRuled(e.profile, path);
    ShownBy(e, path, raw, EchoUploadToken);
  }

  lemma PlacesAreHonest(e: Exchange, path: Path, raw: string, shown: string)
    requires path == ["CompleteMultipartUploadResult", "Location"]
    requires Known(e.profile, path) && ShownAt(e, path, raw) == Some(shown)
    ensures Honest(e, Place, raw, shown)
  {
    LocationIsRuled(e.profile, path);
    ShownBy(e, path, raw, VirtualLocation);
  }

  /** Field by field: whatever rule stands at a path with a meaning, what it shows is honest. */
  lemma FieldsAreHonest(e: Exchange, path: Path, raw: string, shown: string)
    requires Token.Lawful(e.x) && Octets(raw) && Known(e.profile, path)
    requires MeaningOf(path).Some? && ShownAt(e, path, raw) == Some(shown)
    ensures Honest(e, MeaningOf(path).value, raw, shown)
  {
    if BucketPath(path) {
      BucketsAreHonest(e, path, raw, shown);
    } else if AddressablePath(path) {
      ListedKeysAreHonest(e, path, raw, shown);
    } else if RequestKeyPath(path) {
      RequestKeysAreHonest(e, path, raw, shown);
    } else if KeyEchoName(path).Some? {
      KeyEchoesAreHonest(e, path, raw, shown);
    } else if path == NEXT_CONTINUATION {
      ContinuationsAreHonest(e, raw, shown);
    } else if IssuedUpload(path) {
      UploadsAreHonest(e, path, raw, shown);
    } else if path == ["ListBucketResult", "ContinuationToken"] {
      ContinuationEchoesAreHonest(e, path, raw, shown);
    } else if UploadEchoPath(path) {
      UploadEchoesAreHonest(e, path, raw, shown);
    } else {
      PlacesAreHonest(e, path, raw, shown);
    }
  }

  // ------------------------------------------------ what an origin may write

  lemma HonestKeysAreShown(e: Exchange, path: Path, raw: string, shown: string)
    requires Lists(e.profile) && AddressablePath(path) && KeyShown(e, ObjectKeyPath(path), raw, shown)
    ensures VirtualizeKey(e, path, raw).Some?
  {
    var v := ClientReads(e, shown).value;
    TrimPrefixUndoes(e.root, v);
    if Decoded(e, raw) == Some(e.root) { TrimPrefixUndoes(e.root, ""); }
  }

  lemma HonestRequestKeysAreShown(e: Exchange, path: Path, raw: string)
    requires e.profile in {Create, Parts, Schema.Complete} && RequestKeyPath(path)
    requires Decoded(e, raw) == Some(e.root + e.key)
    ensures VirtualizeKey(e, path, raw).Some?
  {
    RequestKeysAreNotListed(path);
  }

  lemma RequestKeysAreNotListed(path: Path)
    requires RequestKeyPath(path)
    ensures !AddressablePath(path)
  {
  }

  lemma HonestTokensAreShown(e: Exchange, kind: string, raw: string, shown: string)
    requires Token.Lawful(e.x) && raw != "" && Token.Decode(e.x, e.config, kind, shown) == Some(raw)
    ensures Token.Encode(e.x, e.config, kind, raw).Some?
  {
    Token.EncodeUndoesDecode(e.x, e.config, kind, shown);
  }

  lemma HonestListedKey(e: Exchange, path: Path, raw: string, shown: string)
    requires Known(e.profile, path) && AddressablePath(path) && Honest(e, ListedKey(ObjectKeyPath(path)), raw, shown)
    ensures ShownAt(e, path, raw).Some?
  {
    ListKeysAreRuled(e.profile, path);
    HonestKeysAreShown(e, path, raw, shown);
    ShownBy(e, path, raw, VirtualKey);
  }

  lemma HonestRequestKey(e: Exchange, path: Path, raw: string, shown: string)
    requires Known(e.profile, path) && RequestKeyPath(path) && Honest(e, RequestKey, raw, shown)
    ensures ShownAt(e, path, raw).Some?
  {
    RequestKeysAreRuled(e.profile, path);
    HonestRequestKeysAreShown(e, path, raw);
    ShownBy(e, path, raw, VirtualKey);
  }

  lemma HonestContinuation(e: Exchange, raw: string, shown: string)
    requires Token.Lawful(e.x) && Known(e.profile, NEXT_CONTINUATION)
    requires Honest(e, Issued("continuation", true), raw, shown)
    ensures ShownAt(e, NEXT_CONTINUATION, raw).Some?
  {
    ContinuationIsRuled(e.profile);
    ShownBy(e, NEXT_CONTINUATION, raw, NewContinuationToken);
    if raw != "" { HonestTokensAreShown(e, "continuation", raw, shown); }
  }

  lemma UploadIsIssued(e: Exchange, path: Path, raw: string)
    requires Known(e.profile, path) && IssuedUpload(path)
    requires Token.Encode(e.x, e.config, "upload", raw).Some? || (raw == "" && path == NEXT_UPLOAD)
    ensures ShownAt(e, path, raw).Some?
  {
    UploadTokensAreRuled(e.profile, path);
    ShownBy(e, path, raw, NewUploadToken);
  }

  lemma HonestUpload(e: Exchange, path: Path, raw: string, shown: string)
    requires Token.Lawful(e.x) && Known(e.profile, path) && IssuedUpload(path)
    requires Honest(e, Issued("upload", path == NEXT_UPLOAD), raw, shown)
    ensures ShownAt(e, path, raw).Some?
  {
    if raw != "" { HonestTokensAreShown(e, "upload", raw, shown); }
    UploadIsIssued(e, path, raw);
  }

  lemma HonestContinuationEcho(e: Exchange, path: Path, raw: string, shown: string)
    requires Known(e.profile, path) && path == ["ListBucketResult", "ContinuationToken"]
    requires Honest(e, ContinuationEcho, raw, shown)
    ensures ShownAt(e, path, raw).Some?
  {
    ContinuationEchoIsRuled(e.profile, path);
    ShownBy(e, path, raw, EchoContinuationToken);
  }

  lemma HonestUploadEcho(e: Exchange, path: Path, raw: string, shown: string)
    requires Known(e.profile, path) && UploadEchoPath(path)
    requires Honest(e, UploadEcho(path == UPLOAD_MARKER), raw, shown)
    ensures ShownAt(e, path, raw).Some?
  {
    UploadEchoesAreRuled(e.profile, path);
    ShownBy(e, path, raw, EchoUploadToken);
    UploadApplied(e, path, raw);
    UploadEchoed(e, path, raw, raw);
  }

  lemma HonestBucket(e: Exchange, path: Path, raw: string, shown: string)
    requires Known(e.profile, path) && BucketPath(path) && Honest(e, BucketName, raw, shown)
    ensures ShownAt(e, path, raw).Some?
  {
    BucketsAreRuled(e.profile, path);
    ShownBy(e, path, raw, VirtualBucket);
  }

  lemma HonestPlace(e: Exchange, path: Path, raw: string, shown: string)
    requires Known(e.profile, path) && path == ["CompleteMultipartUploadResult", "Location"]
    requires Honest(e, Place, raw, shown)
    ensures ShownAt(e, path, raw).Some?
  {
    LocationIsRuled(e.profile, path);
    ShownBy(e, path, raw, VirtualLocation);
  }

  lemma HonestKeyEcho(e: Exchange, path: Path, raw: string, shown: string)
    requires Known(e.profile, path) && KeyEchoName(path).Some?
    requires Honest(e, KeyEcho(KeyEchoName(path).value), raw, shown)
    ensures ShownAt(e, path, raw).Some?
  {
    ListKeysAreRuled(e.profile, path);
    ShownBy(e, path, raw, VirtualKeyEcho);
    EchoApplied(e, path, raw, KeyEchoName(path).value);
  }

  /** The other direction: a text that has an honest form at its path is never refused. */
  lemma HonestFieldsAreShown(e: Exchange, path: Path, raw: string, shown: string)
    requires Token.Lawful(e.x) && Known(e.profile, path)
    requires MeaningOf(path).Some? && Honest(e, MeaningOf(path).value, raw, shown)
    ensures ShownAt(e, path, raw).Some?
  {
    if BucketPath(path) {
      HonestBucket(e, path, raw, shown);
    } else if AddressablePath(path) {
      HonestListedKey(e, path, raw, shown);
    } else if RequestKeyPath(path) {
      HonestRequestKey(e, path, raw, shown);
    } else if KeyEchoName(path).Some? {
      HonestKeyEcho(e, path, raw, shown);
    } else if path == NEXT_CONTINUATION {
      HonestContinuation(e, raw, shown);
    } else if IssuedUpload(path) {
      HonestUpload(e, path, raw, shown);
    } else if path == ["ListBucketResult", "ContinuationToken"] {
      HonestContinuationEcho(e, path, raw, shown);
    } else if UploadEchoPath(path) {
      HonestUploadEcho(e, path, raw, shown);
    } else {
      HonestPlace(e, path, raw, shown);
    }
  }

  /** And no path with a meaning goes unruled. */
  lemma MeaningsAreRuled(e: Exchange, path: Path)
    requires Known(e.profile, path) && MeaningOf(path).Some?
    ensures Ruled(e.profile, path)
  {
    if BucketPath(path) {
      BucketsAreRuled(e.profile, path);
    } else if AddressablePath(path) || KeyEchoName(path).Some? {
      ListKeysAreRuled(e.profile, path);
    } else if RequestKeyPath(path) {
      RequestKeysAreRuled(e.profile, path);
    } else {
      if path == NEXT_CONTINUATION { ContinuationIsRuled(e.profile); }
      if IssuedUpload(path) { UploadTokensAreRuled(e.profile, path); }
      if path == ["ListBucketResult", "ContinuationToken"] { ContinuationEchoIsRuled(e.profile, path); }
      if UploadEchoPath(path) { UploadEchoesAreRuled(e.profile, path); }
      LocationIsRuled(e.profile, path);
    }
  }

  // --------------------------------------------------------- whole responses

  ghost predicate OctetForest(f: Forest) {
    match f
    case Nil => true
    case Chars(text, rest) => Octets(text) && OctetForest(rest)
    case Misc(rest) => OctetForest(rest)
    case Elem(_, _, inside, rest) => OctetForest(inside) && OctetForest(rest)
  }

  lemma {:induction false} PlainTextOctets(f: Forest)
    requires OctetForest(f)
    ensures Octets(PlainText(f))
  {
    match f
    case Nil =>
    case Chars(_, rest) => PlainTextOctets(rest);
    case Misc(rest) => PlainTextOctets(rest);
    case Elem(_, _, _, rest) => PlainTextOctets(rest);
  }

  /** A scalar without a namespace meaning is shown as it came, or trimmed. */
  ghost predicate Scalar(inside: Forest, out: Forest) {
    out == Chars(PlainText(inside), Nil) || out == Chars(TrimSpace(PlainText(inside)), Nil)
  }

  /** Elements that hold other elements and no text of their own. */
  predicate Structural(path: Path) {
    || |path| < 2 || path == CONTENTS || path == ["ListBucketResult", "CommonPrefixes"]
    || path == ["ListMultipartUploadsResult", "Upload"] || path == ["ListMultipartUploadsResult", "CommonPrefixes"]
    || path == ["ListPartsResult", "Part"]
  }

  /** The content of one element, by what the element means. */
  ghost predicate ShowsInside(e: Exchange, m: Option<Meaning>, owner: bool, path: Path, inside: Forest, out: Forest)
    decreases inside, 1
  {
    if m.Some? then out == Nil || exists t :: out == Chars(t, Nil) && Honest(e, m.value, PlainText(inside), t)
    else if owner then out == IdentityForest(e.bucket)
    else out == Nil || Scalar(inside, out) || Shows(e, path, inside, out)
  }

  /** The only attributes shown declare the S3 namespace. */
  ghost predicate NamespaceOnly(attrs: seq<Attr>) {
    forall a :: a in attrs ==> a.name.local == "xmlns" && a.value == S3_NAMESPACE
  }

  lemma FilteredNamespaceOnly(e: Exchange, attrs: seq<Attr>)
    ensures NamespaceOnly(Filter(ContextFor(e), attrs))
  {
    FilterKeeps(ContextFor(e), attrs);
    assert forall a: Attr :: ContextFor(e).keep(a) ==> a.name.local == "xmlns" && a.value == S3_NAMESPACE;
  }

  ghost predicate ShowsElement(e: Exchange, path: Path, inside: Forest, out: Forest)
    decreases inside, 2
  {
    ShowsInside(e, MeaningOf(path), OwnerPath(path), path, inside, out)
  }

  /**
   `out` is what an honest gateway may show of `f`: elements and texts of `f` in their order, some left
   out, where each text with a namespace meaning stands for what the origin wrote in that element.
   */
  ghost predicate Shows(e: Exchange, stack: Path, f: Forest, out: Forest)
    decreases f, 0
  {
    match f
    case Nil => out == Nil
    case Misc(rest) => Shows(e, stack, rest, out)
    case Chars(text, rest) =>
      || Shows(e, stack, rest, out)
      || (out.Chars? && out.text == text && (Structural(stack) ==> Blank(text)) && Shows(e, stack, rest, out.rest))
    case Elem(name, _, inside, rest) =>
      || Shows(e, stack, rest, out)
      || (out.Elem? && out.name == name && NamespaceOnly(out.attrs) && ShowsElement(e, stack + [name.local], inside, out.inside)
          && Shows(e, stack, rest, out.rest))
  }

  predicate AsItCame(t: Transform) {
    t in {PlainQueryEcho, NumericQueryEcho, NonNegativeInteger, Boolean, RequiredNonempty}
  }

  lemma OtherObjectsFields(path: Path, t: Transform)
    requires Carries(Objects, path, t) && MeaningOf(path).None?
    ensures AsItCame(t)
  {
  }

  lemma OtherUploadsFields(path: Path, t: Transform)
    requires Carries(Uploads, path, t) && MeaningOf(path).None?
    ensures AsItCame(t)
  {
  }

  lemma OtherSmallFields(p: Profile, path: Path, t: Transform)
    requires Carries(p, path, t) && MeaningOf(path).None? && !Lists(p)
    ensures AsItCame(t)
  {
  }

  lemma OtherFieldsAsTheyCame(p: Profile, path: Path, t: Transform)
    requires Carries(p, path, t) && MeaningOf(path).None?
    ensures AsItCame(t)
  {
    match p
    case Objects => OtherObjectsFields(path, t);
    case Uploads => OtherUploadsFields(path, t);
    case _ => OtherSmallFields(p, path, t);
  }

  lemma AppliedAsItCame(e: Exchange, path: Path, raw: string, t: Transform, shown: string)
    requires AsItCame(t) && ApplyTransform(e, t, path, raw) == Some(shown)
    ensures shown == raw || shown == TrimSpace(raw)
  {
  }

  lemma RootIsContainer(p: Profile)
    ensures ContainerPath(p, [RootName(p)])
  {
    var q := if p == Copy then ["ETag"] else if p == Objects then ["Name"] else ["Bucket"];
    assert q in PlainPaths(p) + Rules(p).Keys;
    assert [RootName(p)][1..] < q;
  }

  lemma ParentIsContainer(p: Profile, x: string, y: string)
    requires [x, y] in PlainPaths(p) || [x, y] in Rules(p)
    ensures ContainerPath(p, [RootName(p), x])
  {
    assert [RootName(p), x][1..] == [x];
    assert [x, y] in PlainPaths(p) + Rules(p).Keys;
    assert [x] < [x, y];
  }

  lemma StructureIsContainer(p: Profile, path: Path)
    requires Structural(path) && Known(p, path)
    ensures ContainerPath(p, path)
  {
    RootDecides(p, path);
    if |path| == 1 {
      RootIsContainer(p);
      assert path == [RootName(p)];
    } else if path[0] == RootName(Objects) {
      RootNamesDiffer(p, Objects);
      ParentIsContainer(Objects, "Contents", "Key");
      ParentIsContainer(Objects, "CommonPrefixes", "Prefix");
    } else if path[0] == RootName(Uploads) {
      RootNamesDiffer(p, Uploads);
      ParentIsContainer(Uploads, "Upload", "Key");
      ParentIsContainer(Uploads, "CommonPrefixes", "Prefix");
    } else {
      RootNamesDiffer(p, Parts);
      ParentIsContainer(Parts, "Part", "ETag");
    }
  }

  lemma TextIsBlank(e: Exchange, stack: Path, text: string)
    requires Allowed(ContextFor(e), stack, text) && Structural(stack)
    ensures Blank(text)
  {
    if Known(e.profile, stack) { StructureIsContainer(e.profile, stack); }
  }

  /** One ruled field, with or without a meaning. */
  lemma FieldShows(e: Exchange, path: Path, inside: Forest, shown: string)
    requires Token.Lawful(e.x) && OctetForest(inside) && Known(e.profile, path) && Ruled(e.profile, path)
    requires ShownAt(e, path, PlainText(inside)) == Some(shown)
    ensures ShowsElement(e, path, inside, Chars(shown, Nil))
  {
    var raw, t := PlainText(inside), RuleAt(e.profile, path).value.transform;
    PlainTextOctets(inside);
    if MeaningOf(path).Some? {
      FieldsAreHonest(e, path, raw, shown);
    } else {
      IdentitiesAreOwners(e.profile, path);
      OtherFieldsAsTheyCame(e.profile, path, t);
      ShownBy(e, path, raw, t);
      AppliedAsItCame(e, path, raw, t, shown);
    }
  }

  lemma {:induction false} IdealShows(e: Exchange, stack: Path, f: Forest)
    requires Token.Lawful(e.x) && OctetForest(f)
    ensures Shows(e, stack, f, Ideal(ContextFor(e), stack, f))
    decreases f
  {
    match f
    case Nil =>
    case Misc(rest) => IdealShows(e, stack, rest);
    case Chars(text, rest) =>
      IdealShows(e, stack, rest);
      if Allowed(ContextFor(e), stack, text) && Structural(stack) { TextIsBlank(e, stack, text); }
    case Elem(name, attrs, inside, rest) =>
      IdealShows(e, stack, rest);
      var path := stack + [name.local];
      if Known(e.profile, path) {
        IdealElement(e, stack, f);
        FilteredNamespaceOnly(e, attrs);
        IdealShows(e, path, inside);
        if Ruled(e.profile, path) {
          RuledShows(e, path, inside);
        } else {
          UnruledHasNoMeaning(e, path);
          UnruledShows(e, RuleAt(e.profile, path), path, inside);
        }
      }
  }

  /** The content the rewriter means to show of one element. */
  ghost function InsideOf(e: Exchange, rule: Option<Rule>, path: Path, inside: Forest): Forest {
    match rule
    case Some(Identity) => IdentityForest(e.bucket)
    case Some(Field(t, _)) =>
      (match FieldValue(ContextFor(e), t, path, inside)
       case None => Nil
       case Some(shown) => Chars(shown, Nil))
    case None => Ideal(ContextFor(e), path, inside)
  }

  ghost function InsideAt(e: Exchange, path: Path, inside: Forest): Forest {
    InsideOf(e, RuleAt(e.profile, path), path, inside)
  }

  lemma IdealElement(e: Exchange, stack: Path, f: Forest)
    requires f.Elem? && Known(e.profile, stack + [f.name.local])
    ensures Ideal(ContextFor(e), stack, f)
         == Elem(f.name, Filter(ContextFor(e), f.attrs), InsideAt(e, stack + [f.name.local], f.inside),
                 Ideal(ContextFor(e), stack, f.rest))
  {
  }

  lemma RuledShows(e: Exchange, path: Path, inside: Forest)
    requires Token.Lawful(e.x) && OctetForest(inside) && Known(e.profile, path) && Ruled(e.profile, path)
    ensures ShowsElement(e, path, inside, InsideAt(e, path, inside))
  {
    var shown := ShownAt(e, path, PlainText(inside));
    IdentitiesAreOwners(e.profile, path);
    if shown.Some? { FieldShows(e, path, inside, shown.value); }
  }

  ghost predicate Unruled(rule: Option<Rule>, path: Path) {
    MeaningOf(path).None? && (rule.None? || rule == Some(Identity)) && (rule.Some? <==> OwnerPath(path))
  }

  lemma UnruledHasNoMeaning(e: Exchange, path: Path)
    requires Known(e.profile, path) && !Ruled(e.profile, path)
    ensures Unruled(RuleAt(e.profile, path), path)
  {
    if MeaningOf(path).Some? { MeaningsAreRuled(e, path); }
    IdentitiesAreOwners(e.profile, path);
  }

  lemma UnruledShows(e: Exchange, rule: Option<Rule>, path: Path, inside: Forest)
    requires Unruled(rule, path) && Shows(e, path, inside, Ideal(ContextFor(e), path, inside))
    ensures ShowsElement(e, path, inside, InsideOf(e, rule, path, inside))
  {
  }

  /**
   Main result, on every document and without naming a rule: the client sees a document, or on a
   refusal a prefix of one, in which every bucket, key, token, location and owner is its own form
   of what the origin wrote in that element.
   */
  lemma ClientsSeeTheirOwnNamespace(e: Exchange, f: Forest)
    requires Token.Lawful(e.x) && OctetForest(f)
    ensures var o := Run(ContextFor(e), START, Tokens(f));
      exists shown :: && Shows(e, [], f, shown) && o.out <= Tokens(shown)
                      && (Accepts(ContextFor(e), o.end) ==> o.out == Tokens(shown))
  {
    IdealShows(e, [], f);
    ResponsesAreRewritten(e, f);
  }

  // ------------------------------------------------- nothing needed is missing

  /** The elements a client cannot do without. */
  predicate Indispensable(p: Profile, name: string) {
    match p
    case Create => name in {"Bucket", "Key", "UploadId"}
    case Parts => name in {"Bucket", "Key", "UploadId", "IsTruncated"}
    case Complete => name in {"Location", "Bucket", "Key", "ETag"}
    case Copy => name in {"ETag", "LastModified"}
    case _ => false
  }

  lemma IndispensableIsRequired(p: Profile, name: string)
    requires Indispensable(p, name)
    ensures [RootName(p), name] in RequiredPaths(p)
  {
    assert [name] in Rules(p) && Rules(p)[[name]].Field? && Rules(p)[[name]].required;
    assert [RootName(p)] + [name] == [RootName(p), name];
  }

  /** An accepted response showed every element the client cannot do without. */
  lemma AcceptedResponsesAreComplete(e: Exchange, ts: seq<Xml.Token>, name: string)
    requires Indispensable(e.profile, name)
    requires var end := Run(ContextFor(e), START, ts).end; Accepts(ContextFor(e), end)
    ensures var end := Run(ContextFor(e), START, ts).end;
      LastText(end.state.fields, [RootName(e.profile), name]).Some?
  {
    IndispensableIsRequired(e.profile, name);
  }

  /** No accepted page that says it is truncated leaves the client without the way on. */
  lemma TruncatedPagesContinue(e: Exchange, ts: seq<Xml.Token>)
    requires var end := Run(ContextFor(e), START, ts).end; Accepts(ContextFor(e), end)
    ensures var fields := Run(ContextFor(e), START, ts).end.state.fields;
      && (LastText(fields, OBJECTS_TRUNCATED) == Some("true") ==> LastText(fields, NEXT_CONTINUATION) != Some(""))
      && (LastText(fields, UPLOADS_TRUNCATED) == Some("true") ==> LastText(fields, NEXT_UPLOAD) != Some(""))
      && (e.profile == Parts && LastText(fields, PARTS_TRUNCATED) == Some("true") ==> LastText(fields, NEXT_PART).Some?)
  {
    TrueIsTrimmed();
  }

  lemma TrueIsTrimmed()
    ensures TrimSpace("true") == "true"
  {
  }

  // ---------------------------------------------------------- plain echoes

  predicate DelimiterPath(path: Path) {
    path == ["ListBucketResult", "Delimiter"] || path == ["ListMultipartUploadsResult", "Delimiter"]
  }

  predicate EncodingPath(path: Path) {
    path == ["ListBucketResult", "EncodingType"] || path == ["ListMultipartUploadsResult", "EncodingType"]
  }

  /** The page parameter an element repeats, and its value when the request left it out. */
  predicate PagePath(path: Path, name: string, missing: int) {
    || (path == ["ListBucketResult", "MaxKeys"] && name == "max-keys" && missing == 1000)
    || (path == ["ListMultipartUploadsResult", "MaxUploads"] && name == "max-uploads" && missing == 1000)
    || (path == ["ListPartsResult", "MaxParts"] && name == "max-parts" && missing == 1000)
    || (path == ["ListPartsResult", "PartNumberMarker"] && name == "part-number-marker" && missing == 0)
  }

  lemma DelimitersAreRuled(p: Profile, path: Path)
    requires Known(p, path) && DelimiterPath(path)
    ensures Carries(p, path, PlainQueryEcho)
  {
  }

  lemma EncodingsAreRuled(p: Profile, path: Path)
    requires Known(p, path) && EncodingPath(path)
    ensures Carries(p, path, PlainQueryEcho)
  {
  }

  lemma PagesAreRuled(p: Profile, path: Path, name: string, missing: int)
    requires Known(p, path) && PagePath(path, name, missing)
    ensures Carries(p, path, NumericQueryEcho)
  {
  }

  lemma PagesAreNumbers(path: Path, name: string, missing: int)
    requires PagePath(path, name, missing)
    ensures NumericEcho(path) == Some((name, missing))
  {
  }

  ghost predicate PageShown(e: Exchange, name: string, missing: int, raw: string) {
    exists n: nat :: Atoi(TrimSpace(raw)) == Some(n)
                  && (if name in e.query then Atoi(Value(e.query, name)) == Some(n) else n == missing)
  }

  lemma PageMatches(e: Exchange, path: Path, name: string, missing: int, raw: string)
    requires NumericEcho(path) == Some((name, missing))
    ensures NumericEchoMatches(e, path, raw) <==> PageShown(e, name, missing, raw)
  {
    var actual := Atoi(TrimSpace(raw));
    if actual.Some? && actual.value >= 0 { var n: nat := actual.value; }
  }

  lemma PageApplied(e: Exchange, path: Path, raw: string)
    ensures ApplyTransform(e, NumericQueryEcho, path, raw) == if NumericEchoMatches(e, path, raw) then Some(raw) else None
  {
  }

  /** A delimiter is accepted exactly when it repeats the request's, and shown as it came. */
  lemma DelimitersAreFaithful(e: Exchange, path: Path, raw: string)
    requires Known(e.profile, path) && DelimiterPath(path)
    ensures ShownAt(e, path, raw) == if Decoded(e, raw) == Some(Value(e.query, "delimiter")) then Some(raw) else None
  {
    DelimitersAreRuled(e.profile, path);
    ShownBy(e, path, raw, PlainQueryEcho);
  }

  /** The same for the encoding type. */
  lemma EncodingsAreFaithful(e: Exchange, path: Path, raw: string)
    requires Known(e.profile, path) && EncodingPath(path)
    ensures ShownAt(e, path, raw) == if raw == Value(e.query, "encoding-type") then Some(raw) else None
  {
    EncodingsAreRuled(e.profile, path);
    ShownBy(e, path, raw, PlainQueryEcho);
  }

  /** A page parameter is accepted exactly when it is the number asked for, or its default if none was. */
  lemma PagesAreFaithful(e: Exchange, path: Path, name: string, missing: int, raw: string)
    requires Known(e.profile, path) && PagePath(path, name, missing)
    ensures ShownAt(e, path, raw) == if PageShown(e, name, missing, raw) then Some(raw) else None
  {
    PagesAreRuled(e.profile, path, name, missing);
    ShownBy(e, path, raw, NumericQueryEcho);
    PageApplied(e, path, raw);
    PagesAreNumbers(path, name, missing);
    PageMatches(e, path, name, missing, raw);
  }

  predicate TruncatedPath(path: Path) {
    path == OBJECTS_TRUNCATED || path == UPLOADS_TRUNCATED || path == PARTS_TRUNCATED
  }

  lemma TruncatedIsRuled(p: Profile, path: Path)
    requires Known(p, path) && TruncatedPath(path)
    ensures Carries(p, path, Boolean)
  {
  }

  /** A truncation mark is shown as one of the two words, or refused. */
  lemma TruncationIsBoolean(e: Exchange, path: Path, raw: string)
    requires Known(e.profile, path) && TruncatedPath(path)
    ensures ShownAt(e, path, raw)
         == if TrimSpace(raw) == "true" then Some("true") else if TrimSpace(raw) == "false" then Some("false") else None
  {
    TruncatedIsRuled(e.profile, path);
    ShownBy(e, path, raw, Boolean);
  }
}
