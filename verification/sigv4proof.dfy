/** Signing, parsing and verification undo each other. */
module SigV4Proof {
  import opened Common
  import opened Text
  import opened Sorting
  import opened Query
  import opened Headers
  import opened SigV4

  // ------------------------------------------------------------- header names

  lemma LowerCapitalized(s: string)
    ensures Lower(Capitalized(s)) == Lower(s)
  {
  }

  /** Header names are the same header exactly when they agree up to letter case. */
  lemma SameHeader(a: string, b: string)
    requires Token(a) && Token(b)
    ensures CanonicalKey(a) == CanonicalKey(b) <==> Lower(a) == Lower(b)
    ensures Lower(CanonicalKey(a)) == Lower(a)
  {
    LowerCapitalized(a);
    LowerCapitalized(b);
    CapitalizedLower(a);
    CapitalizedLower(b);
  }

  lemma LowerTwice(s: string)
    ensures Lower(Lower(s)) == Lower(s)
  {
  }

  // -------------------------------------------------------- the signed names

  lemma {:induction false} LowerNamesOf(keys: seq<string>, x: string)
    ensures x in LowerNames(keys) <==> exists k :: k in keys && Lower(k) == x && x != "host"
  {
    if keys != [] {
      LowerNamesOf(keys[1..], x);
      assert forall k :: k in keys <==> k == keys[0] || k in keys[1..];
    }
  }

  lemma {:induction false} CountOnce(s: seq<string>, x: string)
    requires NoDuplicates(s)
    ensures multiset(s)[x] <= 1
  {
    if s != [] {
      CountOnce(s[1..], x);
      assert s == [s[0]] + s[1..];
    }
  }

  lemma {:induction false} LowerNamesDistinct(keys: seq<string>)
    requires NoDuplicates(keys) && forall k :: k in keys ==> Token(k) && CanonicalKey(k) == k
    ensures NoDuplicates(LowerNames(keys))
  {
    if keys != [] {
      LowerNamesDistinct(keys[1..]);
      LowerNamesOf(keys[1..], Lower(keys[0]));
      forall k | k in keys[1..] ensures Lower(k) != Lower(keys[0]) {
        assert k in keys && keys[0] in keys;
        SameHeader(k, keys[0]);
      }
    }
  }

  lemma {:induction false} EnumerateDistinct(s: set<string>)
    ensures NoDuplicates(Enumerate(s)) && forall x :: x in Enumerate(s) <==> x in s
  {
    var r := Enumerate(s);
    forall i, j | 0 <= i < j < |r| ensures r[i] != r[j] { OccursTwice(r, i, j); }
    forall x ensures x in r <==> x in s { assert x in r <==> x in multiset(r); }
  }

  lemma LoweredKeys(headers: Values, x: string)
    ensures x in LowerNames(Enumerate(headers.Keys)) <==> x != "host" && Present(headers, x)
  {
    EnumerateDistinct(headers.Keys);
    LowerNamesOf(Enumerate(headers.Keys), x);
  }

  lemma Headed(first: string, rest: seq<string>)
    requires NoDuplicates(rest) && first !in rest
    ensures NoDuplicates([first] + rest)
  {
  }

  lemma UnsortedNames(headers: Values)
    requires CanonicalHeaders(headers)
    ensures var names := ["host"] + LowerNames(Enumerate(headers.Keys));
      && NoDuplicates(names)
      && forall x :: x in names <==> x == "host" || Present(headers, x)
  {
    var keys := Enumerate(headers.Keys);
    EnumerateDistinct(headers.Keys);
    LowerNamesDistinct(keys);
    forall x ensures x in LowerNames(keys) <==> x != "host" && Present(headers, x) { LoweredKeys(headers, x); }
    Headed("host", LowerNames(keys));
  }

  lemma SortDistinct(before: seq<string>)
    requires NoDuplicates(before)
    ensures var names := Sort(before);
      && Ascending(names)
      && forall x :: x in names <==> x in before
  {
    var names := Sort(before);
    SortSorts(before);
    forall x ensures x in names <==> x in before {
      assert x in names <==> x in multiset(names);
      assert x in before <==> x in multiset(before);
    }
    forall i | 0 < i < |names| ensures Less(names[i - 1], names[i]) {
      assert BYTES(names[i - 1], names[i]);
      CountOnce(before, names[i]);
      OccursTwice(names, i - 1, i);
    }
  }

  ghost predicate Present(headers: Values, name: string) {
    exists k :: k in headers && Lower(k) == name
  }

  /** The signer's list: strictly ascending, and exactly the host and the names present. */
  lemma SignedNamesAre(headers: Values)
    requires CanonicalHeaders(headers)
    ensures var names := SignedNames(headers);
      && Ascending(names)
      && forall x :: x in names <==> x == "host" || Present(headers, x)
  {
    UnsortedNames(headers);
    SortDistinct(["host"] + LowerNames(Enumerate(headers.Keys)));
  }

  lemma PresentIsToken(headers: Values, n: string)
    requires CanonicalHeaders(headers) && Present(headers, n)
    ensures Token(n) && n == Lower(n) && CanonicalKey(n) in headers
  {
    var k :| k in headers && Lower(k) == n;
    LowerIsFound(k);
    LowerTwice(k);
  }

  lemma DatePresent(headers: Values)
    requires CanonicalKey("X-Amz-Date") in headers
    ensures Present(headers, "x-amz-date")
  {
  }

  lemma HostIsLower()
    ensures Token("host") && "host" == Lower("host")
  {
  }

  lemma NamesLower(headers: Values, names: seq<string>)
    requires CanonicalHeaders(headers)
    requires forall x :: x in names ==> x == "host" || Present(headers, x)
    ensures AllLower(names) && forall n :: n in names ==> Token(n)
  {
    HostIsLower();
    forall n | n in names ensures Token(n) && n == Lower(n) {
      if n != "host" { PresentIsToken(headers, n); }
    }
    forall i | 0 <= i < |names| ensures names[i] != "" && names[i] == Lower(names[i]) {
      assert names[i] in names;
    }
  }

  lemma SignedNamesValid(headers: Values)
    requires CanonicalHeaders(headers) && CanonicalKey("X-Amz-Date") in headers
    ensures ValidSigned(SignedNames(headers)) && forall n :: n in SignedNames(headers) ==> Token(n)
  {
    SignedNamesAre(headers);
    NamesLower(headers, SignedNames(headers));
    DatePresent(headers);
  }

  // ----------------------------------------------------- parsing undoes printing

  lemma FieldOf(key: string, v: string)
    requires '=' !in key
    ensures Field(key + "=" + v, key) == Some(v)
  {
    IndexOf(key, "=", v);
    var s := key + "=" + v;
    assert s[..|key|] == key && s[|key| + 1..] == v;
  }

  function CredentialParts(access: string, date: string, region: string): seq<string> {
    [access, date, region, "s3", "aws4_request"]
  }

  lemma CredentialJoin(access: string, date: string, region: string)
    ensures Join(CredentialParts(access, date, region), "/") == access + "/" + Scope(date, region)
    ensures Join(CredentialParts(access, date, region)[1..], "/") == Scope(date, region)
  {
    var p := CredentialParts(access, date, region);
    JoinFirst(p, "/");
    JoinFirst(p[1..], "/");
    assert p[1..][1..] == p[2..];
    JoinFirst(p[2..], "/");
    assert p[2..][1..] == p[3..];
    JoinFirst(p[3..], "/");
    assert p[3..][1..] == ["aws4_request"];
    assert Join(p[3..], "/") == "s3/aws4_request";
    assert Join(p[2..], "/") == region + "/s3/aws4_request";
  }

  lemma CredentialParses(e: Env, access: string, date: string, region: string)
    requires AccessKey(access) && Digits(date) && e.parsesDate(date) && Region(region)
    ensures ParseCredential(e, access + "/" + Scope(date, region))
         == Some(AuthInfo(access, date, region, "s3", [], "", Scope(date, region)))
  {
    var p := CredentialParts(access, date, region);
    CredentialJoin(access, date, region);
    assert Clean(p, "/") by {
      forall x | x in p ensures '/' !in x { }
    }
    SplitNUndoesJoin(p, "/");
  }

  function HeaderParts(credential: string, names: string, signature: string): seq<string> {
    ["Credential" + "=" + credential, "SignedHeaders" + "=" + names, "Signature" + "=" + signature]
  }

  lemma HeaderJoin(credential: string, names: string, signature: string)
    ensures Join(HeaderParts(credential, names, signature), ", ") == Fields(credential, names, signature)
  {
    var p := HeaderParts(credential, names, signature);
    JoinFirst(p, ", ");
    JoinFirst(p[1..], ", ");
    assert p[1..][1..] == [p[2]];
  }

  lemma AuthorizationText(access: string, scope: string, signed: seq<string>, signature: string)
    ensures Authorization(access, scope, signed, signature)
         == (ALGORITHM + " ") + Join(HeaderParts(access + "/" + scope, Join(signed, ";"), signature), ", ")
  {
    HeaderJoin(access + "/" + scope, Join(signed, ";"), signature);
  }

  ghost predicate Plain(s: string) {
    ',' !in s
  }

  lemma PartsClean(credential: string, names: string, signature: string)
    requires Plain(credential) && Plain(names) && Plain(signature)
    ensures Clean(HeaderParts(credential, names, signature), ", ")
  {
  }

  lemma NamesPlain(signed: seq<string>)
    requires forall n :: n in signed ==> Token(n)
    ensures Plain(Join(signed, ";")) && Clean(signed, ";")
  {
    forall n | n in signed ensures ',' !in n && ';' !in n {
      assert !TokenChar(',') && !TokenChar(';');
    }
    JoinChars(signed, ";", ',');
  }

  lemma CredentialPlain(access: string, date: string, region: string)
    requires AccessKey(access) && Digits(date) && Region(region)
    ensures Plain(access + "/" + Scope(date, region))
  {
  }

  lemma PartsParse(e: Env, credential: string, names: string, signature: string)
    ensures ParseParts(e, HeaderParts(credential, names, signature)) == ParseFields(e, credential, names, signature)
  {
    FieldOf("Credential", credential);
    FieldOf("SignedHeaders", names);
    FieldOf("Signature", signature);
  }

  lemma HeaderParses(e: Env, access: string, scope: string, signed: seq<string>, signature: string)
    requires Plain(access + "/" + scope) && Plain(Join(signed, ";")) && Plain(signature)
    ensures ParseAuthorization(e, Authorization(access, scope, signed, signature))
         == ParseFields(e, access + "/" + scope, Join(signed, ";"), signature)
  {
    var credential, names := access + "/" + scope, Join(signed, ";");
    var parts := HeaderParts(credential, names, signature);
    AuthorizationText(access, scope, signed, signature);
    TrimPrefixUndoes(ALGORITHM + " ", Join(parts, ", "));
    PartsClean(credential, names, signature);
    SplitUndoesJoin(parts, ", ");
    PartsParse(e, credential, names, signature);
  }

  /** Parsing the printed header gives back exactly what was printed. */
  lemma ParseUndoesPrint(e: Env, access: string, date: string, region: string, signed: seq<string>, signature: string)
    requires AccessKey(access) && Digits(date) && e.parsesDate(date) && Region(region) && Signature(signature)
    requires ValidSigned(signed) && forall n :: n in signed ==> Token(n)
    ensures ParseAuthorization(e, Authorization(access, Scope(date, region), signed, signature))
         == Some(AuthInfo(access, date, region, "s3", signed, signature, Scope(date, region)))
  {
    CredentialPlain(access, date, region);
    NamesPlain(signed);
    assert Plain(signature);
    HeaderParses(e, access, Scope(date, region), signed, signature);
    SplitUndoesJoin(signed, ";");
    CredentialParses(e, access, date, region);
  }

  // ------------------------------------------------------ what signing changes

  // ----------------------------------------------------- printing undoes parsing

  lemma FieldIs(part: string, key: string, v: string)
    requires Field(part, key) == Some(v)
    ensures part == key + "=" + v
  {
    AroundSeparator(part, "=");
  }

  lemma CredentialIs(e: Env, v: string, info: AuthInfo)
    requires ParseCredential(e, v) == Some(info)
    ensures v == info.access + "/" + info.scope && info.scope == Scope(info.date, info.region) && info.service == "s3"
    ensures AccessKey(info.access) && e.parsesDate(info.date)
  {
    var p := SplitN(v, "/", 5);
    JoinUndoesSplitN(v, "/", 5);
    assert p == CredentialParts(info.access, info.date, info.region);
    CredentialJoin(info.access, info.date, info.region);
  }

  lemma FieldsAre(e: Env, credential: string, names: string, signature: string, info: AuthInfo)
    requires ParseFields(e, credential, names, signature) == Some(info)
    ensures credential == info.access + "/" + info.scope && info.scope == Scope(info.date, info.region)
    ensures names == Join(info.signed, ";") && signature == info.signature && info.service == "s3"
    ensures AccessKey(info.access) && e.parsesDate(info.date) && ValidSigned(info.signed) && Signature(info.signature)
  {
    CredentialIs(e, credential, ParseCredential(e, credential).value);
    JoinUndoesSplit(names, ";");
  }

  lemma PartsAre(parts: seq<string>, credential: string, names: string, signature: string)
    requires |parts| == 3 && Field(parts[0], "Credential") == Some(credential)
    requires Field(parts[1], "SignedHeaders") == Some(names) && Field(parts[2], "Signature") == Some(signature)
    ensures parts == HeaderParts(credential, names, signature)
  {
    FieldIs(parts[0], "Credential", credential);
    FieldIs(parts[1], "SignedHeaders", names);
    FieldIs(parts[2], "Signature", signature);
  }

  /** The parser accepts only the printed form of what it returns, with every field valid. */
  lemma PrintUndoesParse(e: Env, header: string, info: AuthInfo)
    requires ParseAuthorization(e, header) == Some(info)
    ensures header == Authorization(info.access, info.scope, info.signed, info.signature)
    ensures info.scope == Scope(info.date, info.region) && info.service == "s3"
    ensures AccessKey(info.access) && e.parsesDate(info.date) && ValidSigned(info.signed) && Signature(info.signature)
  {
    var rest := TrimPrefix(header, ALGORITHM + " ");
    assert header == (ALGORITHM + " ") + rest;
    var parts := Split(rest, ", ");
    JoinUndoesSplit(rest, ", ");
    var credential, names, signature :=
      Field(parts[0], "Credential").value, Field(parts[1], "SignedHeaders").value, Field(parts[2], "Signature").value;
    PartsAre(parts, credential, names, signature);
    FieldsAre(e, credential, names, signature, info);
    AuthorizationText(info.access, info.scope, info.signed, info.signature);
  }

  ghost function AuthKey(): string {
    CanonicalKey("Authorization")
  }

  lemma DateNames()
    ensures CanonicalKey("X-Amz-Date") == CanonicalKey("x-amz-date")
  {
    assert Lower("X-Amz-Date") == "x-amz-date";
    assert Lower("x-amz-date") == "x-amz-date";
    SameHeader("X-Amz-Date", "x-amz-date");
  }

  lemma KeysDiffer()
    ensures CanonicalKey("X-Amz-Date") != CanonicalKey("x-amz-content-sha256")
    ensures CanonicalKey("X-Amz-Date") != AuthKey() && CanonicalKey("x-amz-content-sha256") != AuthKey()
  {
  }

  ghost predicate Fixed(key: string) {
    Token(key) && CanonicalKey(key) == key
  }

  lemma KeysFixed()
    ensures Fixed(CanonicalKey("X-Amz-Date")) && Fixed(CanonicalKey("x-amz-content-sha256")) && Fixed(AuthKey())
  {
    KeyToken("X-Amz-Date");
    KeyToken("x-amz-content-sha256");
    KeyToken("Authorization");
  }

  lemma CapitalizedChars(s: string)
    requires Token(s)
    ensures Token(Capitalized(s))
  {
    forall i | 0 <= i < |s| ensures TokenChar(Capitalized(s)[i]) { assert s[i] in s; }
  }

  lemma KeyToken(s: string)
    requires Token(s)
    ensures Token(CanonicalKey(s)) && CanonicalKey(CanonicalKey(s)) == CanonicalKey(s)
  {
    CapitalizedChars(s);
    SameHeader(s, s);
    SameHeader(CanonicalKey(s), s);
    LowerTwice(s);
  }

  lemma SetKeeps(headers: Values, name: string, value: string)
    requires CanonicalHeaders(headers) && Fixed(CanonicalKey(name))
    ensures CanonicalHeaders(Set(headers, name, value))
  {
  }

  lemma StampedHeaders(e: Env, r: Request, t: int)
    requires CanonicalHeaders(r.headers)
    ensures CanonicalHeaders(Stamped(e, r, t).headers) && CanonicalKey("X-Amz-Date") in Stamped(e, r, t).headers
    ensures AuthKey() in Stamped(e, r, t).headers <==> AuthKey() in r.headers
  {
    KeysDiffer();
    KeysFixed();
    var dated := Set(r.headers, "X-Amz-Date", e.datetime(t));
    SetKeeps(r.headers, "X-Amz-Date", e.datetime(t));
    SetKeeps(dated, "x-amz-content-sha256", UNSIGNED);
  }

  lemma SameValues(r: Request, value: string, name: string)
    requires CanonicalKey(name) != AuthKey()
    ensures ValuesOf(Set(r.headers, "Authorization", value), name) == ValuesOf(r.headers, name)
  {
  }

  /** The Authorization header adds nothing to the lines of the other headers. */
  lemma {:induction false} SameLines(r: Request, value: string, signed: seq<string>)
    requires forall n :: n in signed ==> n == "host" || CanonicalKey(n) != AuthKey()
    ensures HeaderLines(r.(headers := Set(r.headers, "Authorization", value)), signed) == HeaderLines(r, signed)
  {
    if signed != [] {
      SameLines(r, value, signed[1..]);
      assert signed[0] in signed;
      if signed[0] != "host" { SameValues(r, value, signed[0]); }
    }
  }

  lemma NoneIsAuthorization(headers: Values)
    requires CanonicalHeaders(headers) && AuthKey() !in headers
    ensures forall n :: n in SignedNames(headers) ==> n == "host" || CanonicalKey(n) != AuthKey()
  {
    SignedNamesAre(headers);
    forall n | n in SignedNames(headers) && n != "host" ensures CanonicalKey(n) != AuthKey() {
      PresentIsToken(headers, n);
    }
  }

  lemma SameCanonical(e: Env, r: Request, value: string, t: int)
    requires CanonicalHeaders(r.headers) && AuthKey() !in r.headers
    ensures var s := Stamped(e, r, t);
      CanonicalRequest(s.(headers := Set(s.headers, "Authorization", value)), SignedNames(s.headers))
      == CanonicalRequest(s, SignedNames(s.headers))
  {
    var s := Stamped(e, r, t);
    StampedHeaders(e, r, t);
    NoneIsAuthorization(s.headers);
    SameLines(s, value, SignedNames(s.headers));
    KeysDiffer();
    SameValues(s, value, "x-amz-content-sha256");
  }

  lemma AmzSignedBy(headers: Values, names: seq<string>, key: string, value: string)
    requires !("x-amz-" <= Lower(key)) && forall h :: h in headers ==> Lower(h) in names
    ensures AmzHeadersSigned(headers[key := [value]], names)
  {
  }

  lemma AuthorizationIsNotAmz()
    ensures !("x-amz-" <= Lower(AuthKey()))
  {
    SameHeader("Authorization", "Authorization");
    assert Lower("Authorization")[0] == 'a';
  }

  lemma AmzSigned(headers: Values, value: string)
    requires CanonicalHeaders(headers)
    ensures AmzHeadersSigned(Set(headers, "Authorization", value), SignedNames(headers))
  {
    SignedNamesAre(headers);
    assert forall h :: h in headers ==> Present(headers, Lower(h));
    AuthorizationIsNotAmz();
    AmzSignedBy(headers, SignedNames(headers), AuthKey(), value);
  }

  // --------------------------------------------------------------- round trip

  /** What the signer demands of its caller for the result to verify. */
  ghost predicate Signable(e: Env, r: Request, access: string, region: string) {
    && Lawful(e) && CanonicalHeaders(r.headers) && AccessKey(access) && Region(region)
    && ValuesOf(r.headers, "x-amz-security-token") == [] && ValuesOf(r.headers, "x-amz-trailer") == []
    && !r.trailers
  }

  ghost function InfoFor(e: Env, r: Request, access: string, secret: string, region: string, t: int): AuthInfo {
    var s, scope := Stamped(e, r, t), Scope(e.date(t), region);
    var signed := SignedNames(s.headers);
    AuthInfo(access, e.date(t), region, "s3", signed,
      SignatureOf(e, e.datetime(t), scope, CanonicalRequest(s, signed), SigningKey(e, secret, e.date(t), region, "s3")),
      scope)
  }

  lemma SignedParses(e: Env, r: Request, access: string, secret: string, region: string, t: int)
    requires Signable(e, r, access, region)
    ensures var s := Signed(e, r, access, secret, region, t);
      && |ValuesOf(s.headers, "Authorization")| == 1
      && ParseAuthorization(e, First(s.headers, "Authorization")) == Some(InfoFor(e, r, access, secret, region, t))
      && ValidSigned(InfoFor(e, r, access, secret, region, t).signed)
  {
    var info := InfoFor(e, r, access, secret, region, t);
    StampedHeaders(e, r, t);
    SignedNamesValid(Stamped(e, r, t).headers);
    ParseUndoesPrint(e, access, info.date, region, info.signed, info.signature);
  }

  ghost predicate Untouched(name: string) {
    && CanonicalKey(name) != CanonicalKey("X-Amz-Date")
    && CanonicalKey(name) != CanonicalKey("x-amz-content-sha256")
    && CanonicalKey(name) != AuthKey()
  }

  lemma DifferentLetter(a: string, b: string, i: nat)
    requires Token(a) && Token(b) && i < |a| && i < |b| && LowerChar(a[i]) != LowerChar(b[i])
    ensures CanonicalKey(a) != CanonicalKey(b)
  {
  }

  /** An x-amz name whose next letter is neither that of the date nor that of the digest. */
  predicate Elsewhere(name: string) {
    Token(name) && |name| > 6 && name[0] == 'x' && 'a' <= name[6] <= 'z' && name[6] != 'c' && name[6] != 'd'
  }

  lemma NotTheDate(name: string)
    requires Elsewhere(name)
    ensures CanonicalKey(name) != CanonicalKey("X-Amz-Date")
  {
    DifferentLetter(name, "X-Amz-Date", 6);
  }

  lemma NotSignedByName(name: string)
    requires Elsewhere(name)
    ensures CanonicalKey(name) != CanonicalKey("x-amz-content-sha256") && CanonicalKey(name) != AuthKey()
  {
    DifferentLetter(name, "x-amz-content-sha256", 6);
    DifferentLetter(name, "Authorization", 0);
  }

  lemma ElsewhereUntouched(name: string)
    requires Elsewhere(name)
    ensures Untouched(name)
  {
    NotTheDate(name);
    NotSignedByName(name);
  }

  lemma SessionUntouched()
    ensures Untouched("x-amz-security-token")
  {
    ElsewhereUntouched("x-amz-security-token");
  }

  lemma TrailerUntouched()
    ensures Untouched("x-amz-trailer")
  {
    ElsewhereUntouched("x-amz-trailer");
  }

  lemma UntouchedValues(e: Env, r: Request, value: string, t: int, name: string)
    requires Untouched(name)
    ensures ValuesOf(Set(Stamped(e, r, t).headers, "Authorization", value), name) == ValuesOf(r.headers, name)
  {
  }

  lemma StampsKept(e: Env, r: Request, value: string, t: int)
    ensures var h := Set(Stamped(e, r, t).headers, "Authorization", value);
      && ValuesOf(h, "x-amz-date") == [e.datetime(t)] && First(h, "X-Amz-Date") == e.datetime(t)
      && ValuesOf(h, "x-amz-content-sha256") == [UNSIGNED]
  {
    KeysDiffer();
    DateNames();
  }

  /** Everything the verifier checks before the signature itself. */
  lemma ChecksPass(e: Env, r: Request, access: string, secret: string, region: string, t: int)
    requires Signable(e, r, access, region)
    ensures var h := Signed(e, r, access, secret, region, t).headers;
      && ValuesOf(h, "x-amz-security-token") == [] && ValuesOf(h, "x-amz-trailer") == []
      && AmzHeadersSigned(h, InfoFor(e, r, access, secret, region, t).signed)
  {
    var value := AuthorizationFor(e, r, access, secret, region, t);
    SessionUntouched();
    TrailerUntouched();
    UntouchedValues(e, r, value, t, "x-amz-security-token");
    UntouchedValues(e, r, value, t, "x-amz-trailer");
    StampedHeaders(e, r, t);
    AmzSigned(Stamped(e, r, t).headers, value);
  }

  /** A signed request, sent with no earlier Authorization header, parses and verifies within the skew. */
  lemma SignedRequestVerifies(e: Env, r: Request, access: string, secret: string, region: string, t: int,
                              now: int, maxSkew: int)
    requires Signable(e, r, access, region) && AuthKey() !in r.headers
    requires maxSkew > 0 ==> Distance(now, t) <= maxSkew
    ensures var s := Signed(e, r, access, secret, region, t);
      var info := ParseAuthorization(e, First(s.headers, "Authorization"));
      info.Some? && info.value.access == access && Verifies(e, s, info.value, secret, now, maxSkew)
  {
    SignedParses(e, r, access, secret, region, t);
    ChecksPass(e, r, access, secret, region, t);
    StampsKept(e, r, AuthorizationFor(e, r, access, secret, region, t), t);
    SameCanonical(e, r, AuthorizationFor(e, r, access, secret, region, t), t);
  }

  // ------------------------------------- an earlier Authorization header breaks it

  lemma {:induction false} CollapseLast(s: string)
    requires s != ""
    ensures Collapse(s) != "" && Collapse(s)[|Collapse(s)| - 1] == s[|s| - 1]
  {
    if |s| >= 2 { CollapseLast(s[1..]); }
  }

  predicate Visible(c: char) {
    !AsciiSpace(c) && c < '\U{80}'
  }

  lemma NotWide(s: string)
    requires s != "" && (Visible(s[0]) || Visible(s[|s| - 1]))
    ensures !WideSpace(s)
  {
  }

  lemma TrimKeeps(s: string)
    requires s != "" && Visible(s[0]) && Visible(s[|s| - 1])
    ensures TrimSpace(s) == s
  {
    if |s| >= 2 {
      NotWide(s[..2]);
      NotWide(s[|s| - 2..]);
    }
    if |s| >= 3 {
      NotWide(s[..3]);
      NotWide(s[|s| - 3..]);
    }
    assert TrimLeft(s) == s;
    assert TrimRight(s) == s;
  }

  lemma Assoc(a: string, b: string, c: string)
    ensures (a + b) + c == a + (b + c)
  {
  }

  lemma {:induction false} LinesAround(r: Request, a: seq<string>, b: seq<string>)
    ensures HeaderLines(r, a + b) == HeaderLines(r, a) + HeaderLines(r, b)
  {
    if a == [] {
      assert a + b == b;
    } else {
      assert (a + b)[0] == a[0] && (a + b)[1..] == a[1..] + b;
      LinesAround(r, a[1..], b);
      Assoc(HeaderLine(r, a[0]), HeaderLines(r, a[1..]), HeaderLines(r, b));
    }
  }

  lemma Cancel(a: string, x: string, y: string, b: string)
    requires a + x + b == a + y + b
    ensures x == y
  {
    assert |x| == |y|;
    assert (a + x + b)[|a|..|a| + |x|] == x;
    assert (a + y + b)[|a|..|a| + |y|] == y;
  }

  lemma LayoutInjective(verb: string, path: string, query: string, a: string, b: string, names: string, payload: string)
    requires Layout(verb, path, query, a, names, payload) == Layout(verb, path, query, b, names, payload)
    ensures a == b
  {
    var head, tail := verb + "\n" + path + "\n" + query + "\n", "\n" + names + "\n" + payload;
    assert Layout(verb, path, query, a, names, payload) == head + a + tail;
    assert Layout(verb, path, query, b, names, payload) == head + b + tail;
    Cancel(head, a, b, tail);
  }

  lemma LineInjective(name: string, x: string, y: string)
    requires name + ":" + x + "\n" == name + ":" + y + "\n"
    ensures x == y
  {
    Cancel(name + ":", x, y, "\n");
  }

  ghost function OldValue(r: Request): string {
    Join(CanonicalValues(ValuesOf(r.headers, "authorization")), ",")
  }

  lemma AuthorizationLower()
    ensures Token("authorization") && CanonicalKey("authorization") == AuthKey() && Lower(AuthKey()) == "authorization"
  {
    assert Lower("Authorization") == "authorization";
    assert Lower("authorization") == "authorization";
    SameHeader("Authorization", "authorization");
  }

  /** Replacing a signed Authorization value by a different one changes that header's line. */
  lemma LineChanges(r: Request, value: string)
    requires Collapse(TrimSpace(value)) != OldValue(r)
    ensures HeaderLine(r.(headers := Set(r.headers, "Authorization", value)), "authorization")
         != HeaderLine(r, "authorization")
  {
    AuthorizationLower();
    var after := r.(headers := Set(r.headers, "Authorization", value));
    assert SignedValues(after, "authorization") == [value];
    assert CanonicalValues([value]) == [Collapse(TrimSpace(value))];
    if HeaderLine(after, "authorization") == HeaderLine(r, "authorization") {
      LineInjective("authorization", Collapse(TrimSpace(value)), OldValue(r));
    }
  }

  lemma OthersDiffer(names: seq<string>, i: nat)
    requires Ascending(names) && i < |names| && names[i] == "authorization" && AllLower(names)
    requires forall n :: n in names ==> Token(n)
    ensures forall n :: n in names[..i] + names[i + 1..] ==> CanonicalKey(n) != AuthKey()
  {
    AuthorizationLower();
    forall n | n in names[..i] + names[i + 1..] ensures CanonicalKey(n) != AuthKey() {
      var j :| 0 <= j < |names| && j != i && names[j] == n;
      AscendingDistinct(names, if j < i then j else i, if j < i then i else j);
      SameHeader(n, "authorization");
    }
  }

  lemma {:induction false} AscendingDistinct(names: seq<string>, i: nat, j: nat)
    requires Ascending(names) && i < j < |names|
    ensures Less(names[i], names[j]) && names[i] != names[j]
    decreases j
  {
    if i + 1 < j {
      AscendingDistinct(names, i, j - 1);
      LessTransitive(names[i], names[j - 1], names[j]);
    }
    LessTrichotomy(names[i], names[j]);
  }

  lemma LinesSplit(r: Request, names: seq<string>, i: nat)
    requires i < |names|
    ensures HeaderLines(r, names)
         == HeaderLines(r, names[..i]) + HeaderLine(r, names[i]) + HeaderLines(r, names[i + 1..])
  {
    var q := [names[i]] + names[i + 1..];
    assert names == names[..i] + q;
    assert q[1..] == names[i + 1..];
    LinesAround(r, names[..i], q);
  }

  lemma LinesChange(r: Request, value: string, names: seq<string>)
    requires Collapse(TrimSpace(value)) != OldValue(r)
    requires Ascending(names) && AllLower(names) && "authorization" in names && forall n :: n in names ==> Token(n)
    ensures HeaderLines(r.(headers := Set(r.headers, "Authorization", value)), names) != HeaderLines(r, names)
  {
    var after := r.(headers := Set(r.headers, "Authorization", value));
    var i :| 0 <= i < |names| && names[i] == "authorization";
    OthersDiffer(names, i);
    SameLines(r, value, names[..i]);
    SameLines(r, value, names[i + 1..]);
    LinesSplit(r, names, i);
    LinesSplit(after, names, i);
    LineChanges(r, value);
    if HeaderLines(after, names) == HeaderLines(r, names) {
      Cancel(HeaderLines(r, names[..i]), HeaderLine(after, names[i]), HeaderLine(r, names[i]),
             HeaderLines(r, names[i + 1..]));
    }
  }

  /** If the request already had an Authorization header, the verifier reads a different canonical request. */
  lemma CanonicalChanges(e: Env, r: Request, value: string, t: int)
    requires CanonicalHeaders(r.headers) && AuthKey() in r.headers
    requires Collapse(TrimSpace(value)) != OldValue(Stamped(e, r, t))
    ensures var s := Stamped(e, r, t);
      CanonicalRequest(s.(headers := Set(s.headers, "Authorization", value)), SignedNames(s.headers))
      != CanonicalRequest(s, SignedNames(s.headers))
  {
    var s := Stamped(e, r, t);
    var names, after := SignedNames(s.headers), s.(headers := Set(s.headers, "Authorization", value));
    StampedHeaders(e, r, t);
    SignedNamesAre(s.headers);
    SignedNamesValid(s.headers);
    AuthorizationLower();
    assert Present(s.headers, "authorization");
    LinesChange(s, value, names);
    KeysDiffer();
    SameValues(s, value, "x-amz-content-sha256");
    if CanonicalRequest(after, names) == CanonicalRequest(s, names) {
      LayoutInjective(s.verb, SignedPath(s), CanonicalQuery(s.query), HeaderLines(after, names), HeaderLines(s, names),
                      Join(names, ";"), First(s.headers, "x-amz-content-sha256"));
    }
  }

  function Repeat(c: char): string {
    seq(64, i => c)
  }

  /** The same clock, with a digest and a MAC that tell one canonical request from all others. */
  ghost function Separating(e: Env, canonical: string, data: string, c: char): Env {
    e.(digest := s => if s == canonical then "1" else "2",
       mac := (k, d) => if d == data then Repeat(c) else Repeat('0'),
       hex := s => s)
  }

  lemma SeparatingLawful(e: Env, canonical: string, data: string, c: char)
    requires Lawful(e) && LowerHex(c)
    ensures Lawful(Separating(e, canonical, data, c))
  {
  }

  lemma StringsDiffer(datetime: string, scope: string)
    ensures ALGORITHM + "\n" + datetime + "\n" + scope + "\n" + "1" != ALGORITHM + "\n" + datetime + "\n" + scope + "\n" + "2"
  {
    var head := ALGORITHM + "\n" + datetime + "\n" + scope + "\n";
    assert (head + "1")[|head|] == '1' && (head + "2")[|head|] == '2';
  }

  ghost predicate EndsWith(s: string, c: char) {
    s != "" && s[|s| - 1] == c
  }

  lemma CollapseEnds(v: string, c: char)
    requires EndsWith(v, c) && Visible(v[0]) && Visible(c)
    ensures EndsWith(Collapse(TrimSpace(v)), c)
  {
    TrimKeeps(v);
    CollapseLast(v);
  }

  lemma PrintedEnds(access: string, scope: string, signed: seq<string>, c: char)
    requires LowerHex(c)
    ensures EndsWith(Collapse(TrimSpace(Authorization(access, scope, signed, Repeat(c)))), c)
  {
    var v := Authorization(access, scope, signed, Repeat(c));
    assert v[0] == 'A';
    assert v[|v| - 1] == Repeat(c)[63];
    CollapseEnds(v, c);
  }

  ghost function Letter(shown: string): char {
    if shown != "" && shown[|shown| - 1] == 'a' then 'b' else 'a'
  }

  ghost function Data(e: Env, region: string, t: int): string {
    ALGORITHM + "\n" + e.datetime(t) + "\n" + Scope(e.date(t), region) + "\n" + "1"
  }

  ghost function Witness(e: Env, r: Request, region: string, t: int): Env {
    var s := Stamped(e, r, t);
    Separating(e, CanonicalRequest(s, SignedNames(s.headers)), Data(e, region, t), Letter(OldValue(s)))
  }

  lemma WitnessSignature(e: Env, r: Request, region: string, t: int, canonical: string, key: string)
    ensures var f, s := Witness(e, r, region, t), Stamped(e, r, t);
      SignatureOf(f, e.datetime(t), Scope(e.date(t), region), canonical, key)
      == if canonical == CanonicalRequest(s, SignedNames(s.headers)) then Repeat(Letter(OldValue(s))) else Repeat('0')
  {
    StringsDiffer(e.datetime(t), Scope(e.date(t), region));
  }

  lemma WitnessSigns(e: Env, r: Request, access: string, secret: string, region: string, t: int)
    ensures var f, s := Witness(e, r, region, t), Stamped(e, r, t);
      && Stamped(f, r, t) == s
      && InfoFor(f, r, access, secret, region, t).signature == Repeat(Letter(OldValue(s)))
      && AuthorizationFor(f, r, access, secret, region, t) == PrintedValue(e, r, access, region, t)
  {
  }

  lemma RepeatsDiffer(c: char)
    requires c != '0'
    ensures Repeat(c) != Repeat('0')
  {
    assert Repeat(c)[0] != Repeat('0')[0];
  }

  ghost function PrintedValue(e: Env, r: Request, access: string, region: string, t: int): string {
    var s := Stamped(e, r, t);
    Authorization(access, Scope(e.date(t), region), SignedNames(s.headers), Repeat(Letter(OldValue(s))))
  }

  lemma EndsDiffer(shown: string, earlier: string)
    requires EndsWith(shown, Letter(earlier))
    ensures shown != earlier
  {
  }

  lemma PrintedIsNew(access: string, scope: string, signed: seq<string>, earlier: string)
    ensures Collapse(TrimSpace(Authorization(access, scope, signed, Repeat(Letter(earlier))))) != earlier
  {
    PrintedEnds(access, scope, signed, Letter(earlier));
    EndsDiffer(Collapse(TrimSpace(Authorization(access, scope, signed, Repeat(Letter(earlier))))), earlier);
  }

  lemma SignatureBreaks(e: Env, r: Request, access: string, secret: string, region: string, t: int)
    requires CanonicalHeaders(r.headers) && AuthKey() in r.headers
    ensures var f, s, value := Witness(e, r, region, t), Stamped(e, r, t), PrintedValue(e, r, access, region, t);
      SignatureOf(f, e.datetime(t), Scope(e.date(t), region),
                  CanonicalRequest(s.(headers := Set(s.headers, "Authorization", value)), SignedNames(s.headers)),
                  SigningKey(f, secret, e.date(t), region, "s3")) == Repeat('0')
  {
    var f, s, value := Witness(e, r, region, t), Stamped(e, r, t), PrintedValue(e, r, access, region, t);
    PrintedIsNew(access, Scope(e.date(t), region), SignedNames(s.headers), OldValue(s));
    CanonicalChanges(e, r, value, t);
    WitnessSignature(e, r, region, t,
                     CanonicalRequest(s.(headers := Set(s.headers, "Authorization", value)), SignedNames(s.headers)),
                     SigningKey(f, secret, e.date(t), region, "s3"));
  }

  /** The verifier recomputes a different signature under the witness functions. */
  lemma WitnessRejects(e: Env, r: Request, access: string, secret: string, region: string, t: int)
    requires Signable(e, r, access, region) && AuthKey() in r.headers
    ensures var f := Witness(e, r, region, t);
      !SignatureMatches(f, Signed(f, r, access, secret, region, t), InfoFor(f, r, access, secret, region, t), secret)
  {
    var f := Witness(e, r, region, t);
    var value := AuthorizationFor(f, r, access, secret, region, t);
    WitnessSigns(e, r, access, secret, region, t);
    SignatureBreaks(e, r, access, secret, region, t);
    StampsKept(f, r, value, t);
    RepeatsDiffer(Letter(OldValue(Stamped(e, r, t))));
  }

  lemma MismatchRejects(f: Env, r: Request, info: AuthInfo, secret: string, now: int, maxSkew: int)
    requires !SignatureMatches(f, r, info, secret)
    ensures !Verifies(f, r, info, secret, now, maxSkew)
  {
  }

  ghost predicate SameClock(e: Env, f: Env) {
    f.datetime == e.datetime && f.date == e.date && f.parseTime == e.parseTime && f.parsesDate == e.parsesDate
  }

  /** The signed request is accepted at the moment of signing. */
  ghost predicate Accepted(f: Env, r: Request, access: string, secret: string, region: string, t: int) {
    Verifies(f, Signed(f, r, access, secret, region, t), InfoFor(f, r, access, secret, region, t), secret, t, 1)
  }

  /**
   The round trip holds for every digest and MAC exactly when the request carries no
   Authorization header before it is signed.
   */
  lemma RoundTripExactly(e: Env, r: Request, access: string, secret: string, region: string, t: int)
    requires Signable(e, r, access, region)
    ensures AuthKey() !in r.headers
        <==> forall f: Env :: Lawful(f) && SameClock(e, f) ==> Accepted(f, r, access, secret, region, t)
  {
    if AuthKey() in r.headers {
      var f, s := Witness(e, r, region, t), Stamped(e, r, t);
      SeparatingLawful(e, CanonicalRequest(s, SignedNames(s.headers)), Data(e, region, t), Letter(OldValue(s)));
      WitnessRejects(e, r, access, secret, region, t);
      MismatchRejects(f, Signed(f, r, access, secret, region, t), InfoFor(f, r, access, secret, region, t), secret, t, 1);
      assert Lawful(f) && SameClock(e, f) && !Accepted(f, r, access, secret, region, t);
    } else {
      forall f: Env | Lawful(f) ensures Accepted(f, r, access, secret, region, t) {
        SignedRequestVerifies(f, r, access, secret, region, t, t, 1);
        SignedParses(f, r, access, secret, region, t);
      }
    }
  }
}
