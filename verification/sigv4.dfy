/** HTTP header names and values as Go's net/http keeps them. */
module Headers {
  import opened Common
  import opened Text
  import opened Query

  predicate TokenChar(c: char) {
    'A' <= c <= 'Z' || 'a' <= c <= 'z' || '0' <= c <= '9' || c in "!#$%&'*+-.^_`|~"
  }

  predicate Token(s: string) {
    s != "" && forall c :: c in s ==> TokenChar(c)
  }

  /** Upper case at the front and after each hyphen, lower case elsewhere. */
  function Capitalized(s: string): string {
    seq(|s|, i requires 0 <= i < |s| => if i == 0 || s[i - 1] == '-' then UpperChar(s[i]) else LowerChar(s[i]))
  }

  /** http.CanonicalHeaderKey. */
  function CanonicalKey(name: string): string {
    if Token(name) then Capitalized(name) else name
  }

  function ValuesOf(headers: Values, name: string): seq<string> {
    if CanonicalKey(name) in headers then headers[CanonicalKey(name)] else []
  }

  function First(headers: Values, name: string): string {
    var v := ValuesOf(headers, name);
    if v == [] then "" else v[0]
  }

  function Set(headers: Values, name: string, value: string): Values {
    headers[CanonicalKey(name) := [value]]
  }

  /** Header maps built through http.Header: canonical token names only. */
  predicate CanonicalHeaders(headers: Values) {
    forall k :: k in headers ==> Token(k) && CanonicalKey(k) == k
  }

  lemma CapitalizedLower(s: string)
    ensures Capitalized(Lower(s)) == Capitalized(s)
  {
  }

  /** Lower-casing a canonical name loses nothing: looking the lower name up finds it again. */
  lemma LowerIsFound(k: string)
    requires Token(k)
    ensures Token(Lower(k)) && CanonicalKey(Lower(k)) == CanonicalKey(k)
  {
    CapitalizedLower(k);
    assert forall c :: c in Lower(k) ==> TokenChar(c);
  }

  // -------------------------------------------------- canonical header values

  /** Runs of spaces become one space. */
  function Collapse(s: string): string {
    if |s| < 2 then s
    else if s[0] == ' ' && s[1] == ' ' then Collapse(s[1..])
    else [s[0]] + Collapse(s[1..])
  }

  /** One strings.ReplaceAll of two spaces by one. */
  function ReplacePairs(s: string): string {
    if |s| < 2 then s
    else if s[0] == ' ' && s[1] == ' ' then " " + ReplacePairs(s[2..])
    else [s[0]] + ReplacePairs(s[1..])
  }

  predicate HasPair(s: string) {
    |s| >= 2 && ((s[0] == ' ' && s[1] == ' ') || HasPair(s[1..]))
  }

  lemma {:induction false} CollapseFixed(s: string)
    requires !HasPair(s)
    ensures Collapse(s) == s
  {
    if |s| >= 2 { CollapseFixed(s[1..]); }
  }

  lemma {:induction false} ReplaceShortens(s: string)
    ensures |ReplacePairs(s)| <= |s| && (HasPair(s) ==> |ReplacePairs(s)| < |s|)
    decreases |s|
  {
    if |s| >= 2 {
      if s[0] == ' ' && s[1] == ' ' { ReplaceShortens(s[2..]); } else { ReplaceShortens(s[1..]); }
    }
  }

  /** What a leading character turns into, given what follows it. */
  function Before(c: char, rest: string): string {
    if c == ' ' && rest != "" && rest[0] == ' ' then rest else [c] + rest
  }

  lemma CollapseCons(c: char, s: string)
    ensures Collapse([c] + s) == Before(c, Collapse(s))
  {
  }

  lemma {:induction false} CollapseHead(s: string)
    ensures s != "" ==> Collapse(s) != "" && Collapse(s)[0] == s[0]
  {
    if |s| >= 2 && s[0] == ' ' && s[1] == ' ' { CollapseHead(s[1..]); }
  }

  lemma {:induction false} CollapseReplaced(s: string)
    ensures Collapse(ReplacePairs(s)) == Collapse(s)
    decreases |s|
  {
    if |s| < 2 {
    } else if s[0] == ' ' && s[1] == ' ' {
      CollapseReplaced(s[2..]);
      assert s == [' '] + ([' '] + s[2..]) && s[1..] == [' '] + s[2..];
      CollapseCons(' ', ReplacePairs(s[2..]));
      CollapseCons(' ', s[2..]);
    } else {
      CollapseReplaced(s[1..]);
      assert s == [s[0]] + s[1..];
      CollapseCons(s[0], ReplacePairs(s[1..]));
      CollapseCons(s[0], s[1..]);
    }
  }

  /** The replace-until-stable loop is the one-pass collapse. */
  method CanonicalHeaderValue(value: string) returns (v: string)
    ensures v == Collapse(TrimSpace(value)) && !HasPair(v)
  {
    v := TrimSpace(value);
    while HasPair(v)
      invariant Collapse(v) == Collapse(TrimSpace(value))
      decreases |v|
    {
      ReplaceShortens(v);
      CollapseReplaced(v);
      v := ReplacePairs(v);
    }
    CollapseFixed(v);
  }
}

/** The SigV4 signer and verifier of http_server/s3_auth.go. */
module SigV4 {
  import opened Common
  import opened Text
  import opened Sorting
  import opened Query
  import opened Headers

  datatype Request = Request(
    verb: string, path: string, query: Values, headers: Values, host: string, contentLength: int, trailers: bool)

  /** The library functions, by the laws used: SHA-256 and HMAC, hex printing, UTC times in whole seconds. */
  datatype Env = Env(
    digest: string -> string, mac: (string, string) -> string, hex: string -> string,
    datetime: int -> string, date: int -> string, parseTime: string -> Option<int>, parsesDate: string -> bool)

  predicate LowerHex(c: char) {
    '0' <= c <= '9' || 'a' <= c <= 'f'
  }

  predicate Signature(s: string) {
    |s| == 64 && forall c :: c in s ==> LowerHex(c)
  }

  predicate Digits(s: string) {
    s != "" && forall c :: c in s ==> '0' <= c <= '9'
  }

  ghost predicate Lawful(e: Env) {
    && (forall k, d :: Signature(e.hex(e.mac(k, d))))
    && (forall t :: e.parseTime(e.datetime(t)) == Some(t) && e.datetime(t) != "")
    && (forall t :: Digits(e.date(t)) && e.parsesDate(e.date(t)))
  }

  const UNSIGNED := "UNSIGNED-PAYLOAD"
  const ALGORITHM := "AWS4-HMAC-SHA256"

  // ------------------------------------------------------- canonical request

  function Decimal(n: nat): string {
    var last := ['0' + (n % 10) as char];
    if n < 10 then last else Decimal(n / 10) + last
  }

  function SignedValues(r: Request, name: string): seq<string> {
    if name == "host" then [r.host]
    else if name == "content-length" && ValuesOf(r.headers, name) == [] && r.contentLength > 0 then
      [Decimal(r.contentLength)]
    else ValuesOf(r.headers, name)
  }

  function CanonicalValues(values: seq<string>): seq<string> {
    seq(|values|, i requires 0 <= i < |values| => Collapse(TrimSpace(values[i])))
  }

  function HeaderLine(r: Request, name: string): string {
    name + ":" + Join(CanonicalValues(SignedValues(r, name)), ",") + "\n"
  }

  function HeaderLines(r: Request, signed: seq<string>): string {
    if signed == [] then "" else HeaderLine(r, signed[0]) + HeaderLines(r, signed[1..])
  }

  function SignedPath(r: Request): string {
    if r.path == "" then "/" else r.path
  }

  function Layout(verb: string, path: string, query: string, lines: string, names: string, payload: string): string {
    verb + "\n" + path + "\n" + query + "\n" + lines + "\n" + names + "\n" + payload
  }

  ghost function CanonicalRequest(r: Request, signed: seq<string>): string {
    Layout(r.verb, SignedPath(r), CanonicalQuery(r.query), HeaderLines(r, signed), Join(signed, ";"),
           First(r.headers, "x-amz-content-sha256"))
  }

  method WriteHeader(r: Request, name: string) returns (line: string)
    ensures line == HeaderLine(r, name)
  {
    var values := SignedValues(r, name);
    var parts: seq<string> := [];
    for i := 0 to |values|
      invariant parts == CanonicalValues(values[..i])
    {
      var v := CanonicalHeaderValue(values[i]);
      parts := parts + [v];
    }
    assert values[..|values|] == values;
    line := name + ":" + Join(parts, ",") + "\n";
  }

  method WriteHeaders(r: Request, signed: seq<string>) returns (lines: string)
    ensures lines == HeaderLines(r, signed)
  {
    lines := "";
    ghost var all := HeaderLines(r, signed);
    assert signed[0..] == signed;
    for i := 0 to |signed|
      invariant lines + HeaderLines(r, signed[i..]) == all
    {
      var line := WriteHeader(r, signed[i]);
      assert signed[i..][1..] == signed[i + 1..];
      assert lines + (line + HeaderLines(r, signed[i + 1..])) == (lines + line) + HeaderLines(r, signed[i + 1..]);
      lines := lines + line;
    }
  }

  method BuildCanonicalRequest(r: Request, signed: seq<string>) returns (b: string)
    ensures b == CanonicalRequest(r, signed)
  {
    var query := CanonicalQueryString(r.query);
    var lines := WriteHeaders(r, signed);
    b := Layout(r.verb, SignedPath(r), query, lines, Join(signed, ";"), First(r.headers, "x-amz-content-sha256"));
  }

  // ----------------------------------------------------------------- signing

  function SigningKey(e: Env, secret: string, date: string, region: string, service: string): string {
    e.mac(e.mac(e.mac(e.mac("AWS4" + secret, date), region), service), "aws4_request")
  }

  function StringToSign(e: Env, datetime: string, scope: string, canonical: string): string {
    ALGORITHM + "\n" + datetime + "\n" + scope + "\n" + e.digest(canonical)
  }

  function SignatureOf(e: Env, datetime: string, scope: string, canonical: string, key: string): string {
    e.hex(e.mac(key, StringToSign(e, datetime, scope, canonical)))
  }

  function Scope(date: string, region: string): string {
    date + "/" + region + "/s3/aws4_request"
  }

  function LowerNames(keys: seq<string>): seq<string> {
    if keys == [] then []
    else (if Lower(keys[0]) == "host" then [] else [Lower(keys[0])]) + LowerNames(keys[1..])
  }

  /** Every header present on the request, and the host. */
  ghost function SignedNames(headers: Values): seq<string> {
    Sort(["host"] + LowerNames(Enumerate(headers.Keys)))
  }

  function Authorization(access: string, scope: string, signed: seq<string>, signature: string): string {
    ALGORITHM + " " + Fields(access + "/" + scope, Join(signed, ";"), signature)
  }

  function Fields(credential: string, names: string, signature: string): string {
    "Credential=" + credential + ", SignedHeaders=" + names + ", Signature=" + signature
  }

  function Stamped(e: Env, r: Request, t: int): Request {
    r.(headers := Set(Set(r.headers, "X-Amz-Date", e.datetime(t)), "x-amz-content-sha256", UNSIGNED))
  }

  ghost function AuthorizationFor(e: Env, r: Request, access: string, secret: string, region: string, t: int): string {
    var s, scope := Stamped(e, r, t), Scope(e.date(t), region);
    var signed := SignedNames(s.headers);
    Authorization(access, scope, signed,
      SignatureOf(e, e.datetime(t), scope, CanonicalRequest(s, signed), SigningKey(e, secret, e.date(t), region, "s3")))
  }

  /** The signed request. */
  ghost function Signed(e: Env, r: Request, access: string, secret: string, region: string, t: int): Request {
    var s := Stamped(e, r, t);
    s.(headers := Set(s.headers, "Authorization", AuthorizationFor(e, r, access, secret, region, t)))
  }

  lemma {:induction false} LowerNamesAppend(a: seq<string>, b: seq<string>)
    ensures LowerNames(a + b) == LowerNames(a) + LowerNames(b)
  {
    if a == [] {
      assert a + b == b;
    } else {
      assert (a + b)[1..] == a[1..] + b;
      LowerNamesAppend(a[1..], b);
    }
  }

  lemma LowerNamesMove(p: seq<string>, x: string, q: seq<string>)
    ensures multiset(LowerNames(p + [x] + q)) == multiset(LowerNames([x])) + multiset(LowerNames(p + q))
  {
    LowerNamesAppend(p + [x], q);
    LowerNamesAppend(p, [x]);
    LowerNamesAppend(p, q);
  }

  lemma LowerNamesTail(a: seq<string>)
    requires a != []
    ensures multiset(LowerNames(a)) == multiset(LowerNames([a[0]])) + multiset(LowerNames(a[1..]))
  {
  }

  lemma WithoutOne(b: seq<string>, j: nat)
    requires j < |b|
    ensures b == b[..j] + [b[j]] + b[j + 1..]
    ensures multiset(b[..j] + b[j + 1..]) == multiset(b) - multiset{b[j]}
  {
  }

  lemma {:induction false} LowerNamesOrder(a: seq<string>, b: seq<string>)
    requires multiset(a) == multiset(b)
    ensures multiset(LowerNames(a)) == multiset(LowerNames(b))
    decreases |a|
  {
    if a == [] {
      assert |multiset(b)| == 0;
    } else {
      assert a[0] in multiset(b);
      var j :| 0 <= j < |b| && b[j] == a[0];
      WithoutOne(b, j);
      TailMultiset(a);
      LowerNamesOrder(a[1..], b[..j] + b[j + 1..]);
      LowerNamesMove(b[..j], b[j], b[j + 1..]);
      LowerNamesTail(a);
    }
  }

  method LowerKeys(headers: Values) returns (names: seq<string>)
    ensures multiset(names) == multiset(LowerNames(Enumerate(headers.Keys)))
  {
    names := [];
    var pending := headers.Keys;
    ghost var keys: seq<string> := [];
    while pending != {}
      invariant pending <= headers.Keys && multiset(keys) == multiset(headers.Keys - pending)
      invariant names == LowerNames(keys)
      decreases |pending|
    {
      var h :| h in pending;
      LowerNamesAppend(keys, [h]);
      assert headers.Keys - (pending - {h}) == (headers.Keys - pending) + {h};
      keys, pending := keys + [h], pending - {h};
      if Lower(h) != "host" { names := names + [Lower(h)]; }
    }
    assert headers.Keys - {} == headers.Keys;
    LowerNamesOrder(keys, Enumerate(headers.Keys));
  }

  method HeadersToSign(headers: Values) returns (signed: seq<string>)
    ensures signed == SignedNames(headers)
  {
    var names := LowerKeys(headers);
    SortIgnoresOrder(["host"] + names, ["host"] + LowerNames(Enumerate(headers.Keys)));
    signed := Sort(["host"] + names);
  }

  method SignRequest(e: Env, r: Request, access: string, secret: string, region: string, t: int) returns (s: Request)
    ensures s == Signed(e, r, access, secret, region, t)
  {
    var datetime, date := e.datetime(t), e.date(t);
    s := r.(headers := Set(r.headers, "X-Amz-Date", datetime));
    s := s.(headers := Set(s.headers, "x-amz-content-sha256", UNSIGNED));
    var signed := HeadersToSign(s.headers);
    var scope := Scope(date, region);
    var canonical := BuildCanonicalRequest(s, signed);
    var signature := SignatureOf(e, datetime, scope, canonical, SigningKey(e, secret, date, region, "s3"));
    s := s.(headers := Set(s.headers, "Authorization", Authorization(access, scope, signed, signature)));
  }

  // ----------------------------------------------------------------- parsing

  datatype AuthInfo = AuthInfo(
    access: string, date: string, region: string, service: string, signed: seq<string>, signature: string, scope: string)

  predicate AccessKey(s: string) {
    && 1 <= |s| <= 128
    && forall c :: c in s ==> 'A' <= c <= 'Z' || 'a' <= c <= 'z' || '0' <= c <= '9' || c == '.' || c == '_' || c == '-'
  }

  predicate Region(s: string) {
    1 <= |s| <= 64 && forall c :: c in s ==> 'A' <= c <= 'Z' || 'a' <= c <= 'z' || '0' <= c <= '9' || c == '-'
  }

  predicate Ascending(names: seq<string>) {
    forall i :: 0 < i < |names| ==> Less(names[i - 1], names[i])
  }

  predicate AllLower(names: seq<string>) {
    forall i :: 0 <= i < |names| ==> names[i] != "" && names[i] == Lower(names[i])
  }

  /** Lower-case, strictly ascending, with the host and the date. */
  predicate ValidSigned(names: seq<string>) {
    && AllLower(names) && Ascending(names)
    && "host" in names && "x-amz-date" in names
  }

  method ValidateSignedHeaders(names: seq<string>) returns (ok: bool)
    ensures ok <==> ValidSigned(names)
  {
    if |names| == 0 { return false; }
    var hasHost, hasDate := false, false;
    for i := 0 to |names|
      invariant forall k :: 0 <= k < i ==> names[k] != "" && names[k] == Lower(names[k])
      invariant forall k :: 0 < k < i ==> Less(names[k - 1], names[k])
      invariant hasHost <==> "host" in names[..i]
      invariant hasDate <==> "x-amz-date" in names[..i]
    {
      if names[i] == "" || names[i] != Lower(names[i]) { return false; }
      if i > 0 && !Less(names[i - 1], names[i]) { return false; }
      hasHost := hasHost || names[i] == "host";
      hasDate := hasDate || names[i] == "x-amz-date";
    }
    assert names[..|names|] == names;
    return hasHost && hasDate;
  }

  /** The value of `part` when it is `key`, an equals sign and a value. */
  function Field(part: string, key: string): Option<string> {
    var i := Index(part, "=");
    if i < |part| && part[..i] == key then Some(part[i + 1..]) else None
  }

  function ParseCredential(e: Env, v: string): Option<AuthInfo> {
    var p := SplitN(v, "/", 5);
    if |p| != 5 || p[0] == "" || p[1] == "" || p[2] == "" || p[3] != "s3" || p[4] != "aws4_request" then None
    else if !e.parsesDate(p[1]) || !AccessKey(p[0]) then None
    else Some(AuthInfo(p[0], p[1], p[2], p[3], [], "", Join(p[1..], "/")))
  }

  function ParseFields(e: Env, credential: string, names: string, signature: string): Option<AuthInfo> {
    match ParseCredential(e, credential)
    case None => None
    case Some(info) =>
      if !ValidSigned(Split(names, ";")) || !Signature(signature) then None
      else Some(info.(signed := Split(names, ";"), signature := signature))
  }

  function ParseParts(e: Env, parts: seq<string>): Option<AuthInfo> {
    if |parts| != 3 then None
    else
      match (Field(parts[0], "Credential"), Field(parts[1], "SignedHeaders"), Field(parts[2], "Signature"))
      case (Some(credential), Some(names), Some(signature)) => ParseFields(e, credential, names, signature)
      case _ => None
  }

  function ParseAuthorization(e: Env, header: string): Option<AuthInfo> {
    if !(ALGORITHM + " " <= header) then None
    else ParseParts(e, Split(TrimPrefix(header, ALGORITHM + " "), ", "))
  }

  // ------------------------------------------------------------- verification

  predicate AmzHeaderSigned(h: string, signed: seq<string>) {
    "x-amz-" <= Lower(h) && Lower(h) != "x-amz-content-sha256" ==>
      exists i :: 0 <= i < |signed| && Lower(signed[i]) == Lower(h)
  }

  predicate AmzHeadersSigned(headers: Values, signed: seq<string>) {
    forall h :: h in headers ==> AmzHeaderSigned(h, signed)
  }

  function Distance(a: int, b: int): nat {
    if a < b then b - a else a - b
  }

  /** What the verifier demands of the headers before it looks at the time and the signature. */
  ghost predicate Admissible(r: Request, info: AuthInfo) {
    && ValidSigned(info.signed) && info.service == "s3"
    && ValuesOf(r.headers, "x-amz-security-token") == []
    && ValuesOf(r.headers, "x-amz-trailer") == [] && !r.trailers
    && |ValuesOf(r.headers, "x-amz-content-sha256")| == 1 && |ValuesOf(r.headers, "x-amz-date")| == 1
    && First(r.headers, "x-amz-content-sha256") == UNSIGNED
    && AmzHeadersSigned(r.headers, info.signed)
  }

  /** The request's time fits its scope and the clock. */
  ghost predicate Timely(e: Env, datetime: string, info: AuthInfo, now: int, maxSkew: int) {
    && datetime != ""
    && var time := e.parseTime(datetime);
    && time.Some? && info.date == e.date(time.value)
    && info.scope == Scope(info.date, info.region)
    && (maxSkew > 0 ==> Distance(now, time.value) <= maxSkew)
  }

  ghost predicate Verifies(e: Env, r: Request, info: AuthInfo, secret: string, now: int, maxSkew: int) {
    Admissible(r, info) && Timely(e, First(r.headers, "X-Amz-Date"), info, now, maxSkew) && SignatureMatches(e, r, info, secret)
  }

  /** Every x-amz header of the request is among the signed ones, the payload hash excepted. */
  method RequireSignedAmzHeaders(headers: Values, signed: seq<string>) returns (ok: bool)
    ensures ok <==> AmzHeadersSigned(headers, signed)
  {
    var lower := set i | 0 <= i < |signed| :: Lower(signed[i]);
    var pending := headers.Keys;
    while pending != {}
      invariant pending <= headers.Keys
      invariant forall h :: h in headers.Keys - pending ==> AmzHeaderSigned(h, signed)
      decreases |pending|
    {
      var h :| h in pending;
      if "x-amz-" <= Lower(h) && Lower(h) != "x-amz-content-sha256" && Lower(h) !in lower {
        assert !AmzHeaderSigned(h, signed);
        return false;
      }
      pending := pending - {h};
    }
    return true;
  }

  method CheckHeaders(r: Request, info: AuthInfo) returns (ok: bool)
    ensures ok <==> Admissible(r, info)
  {
    var names := ValidateSignedHeaders(info.signed);
    if !names || info.service != "s3" { return false; }
    if ValuesOf(r.headers, "x-amz-security-token") != [] { return false; }
    if ValuesOf(r.headers, "x-amz-trailer") != [] || r.trailers { return false; }
    if |ValuesOf(r.headers, "x-amz-content-sha256")| != 1 || |ValuesOf(r.headers, "x-amz-date")| != 1 { return false; }
    if First(r.headers, "x-amz-content-sha256") != UNSIGNED { return false; }
    ok := RequireSignedAmzHeaders(r.headers, info.signed);
  }

  method CheckTime(e: Env, datetime: string, info: AuthInfo, now: int, maxSkew: int) returns (ok: bool)
    ensures ok <==> Timely(e, datetime, info, now, maxSkew)
  {
    if datetime == "" || e.parseTime(datetime).None? { return false; }
    var time := e.parseTime(datetime).value;
    if info.date != e.date(time) || info.scope != Scope(info.date, info.region) { return false; }
    if maxSkew > 0 {
      var skew := now - time;
      if skew < 0 { skew := -skew; }
      if skew > maxSkew { return false; }
    }
    return true;
  }

  method VerifySignatureAtTime(e: Env, r: Request, info: AuthInfo, secret: string, now: int, maxSkew: int)
    returns (ok: bool)
    ensures ok <==> Verifies(e, r, info, secret, now, maxSkew)
  {
    ok := CheckHeaders(r, info);
    if !ok { return; }
    var datetime := First(r.headers, "X-Amz-Date");
    ok := CheckTime(e, datetime, info, now, maxSkew);
    if !ok { return; }
    var canonical := BuildCanonicalRequest(r, info.signed);
    var key := SigningKey(e, secret, info.date, info.region, info.service);
    ok := SignatureOf(e, datetime, info.scope, canonical, key) == info.signature;
  }

  ghost predicate SignatureMatches(e: Env, r: Request, info: AuthInfo, secret: string) {
    SignatureOf(e, First(r.headers, "X-Amz-Date"), info.scope, CanonicalRequest(r, info.signed),
                SigningKey(e, secret, info.date, info.region, info.service)) == info.signature
  }
}
