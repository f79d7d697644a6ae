/** What a signature covers: a request altered in anything that was signed does not verify. */
module Tamper {
  import opened Common
  import opened Text
  import opened Percent
  import opened Sorting
  import opened Query
  import opened Headers
  import opened SigV4
  import opened SigV4Proof

  // ---------------------------------------------- the lines of a canonical request

  /** The values of one signed header as the verifier reads them. */
  function HeaderText(r: Request, name: string): string {
    Join(CanonicalValues(SignedValues(r, name)), ",")
  }

  function HeaderTexts(r: Request, signed: seq<string>): seq<string> {
    seq(|signed|, i requires 0 <= i < |signed| => signed[i] + ":" + HeaderText(r, signed[i]))
  }

  function Payload(r: Request): string {
    First(r.headers, "x-amz-content-sha256")
  }

  /** No line break inside any of the parts, as HTTP guarantees of a request it delivers. */
  ghost predicate Flat(r: Request, signed: seq<string>) {
    && '\n' !in r.verb && '\n' !in r.path && ByteValues(r.query) && '\n' !in Payload(r)
    && (forall n :: n in signed ==> '\n' !in n && ';' !in n && '\n' !in HeaderText(r, n))
  }

  ghost function LinesOf(r: Request, signed: seq<string>): seq<string> {
    [r.verb, SignedPath(r), CanonicalQuery(r.query)] + (HeaderTexts(r, signed) + ["", Join(signed, ";"), Payload(r)])
  }

  lemma ClosingLines(names: string, payload: string)
    ensures Join(["", names, payload], "\n") == "\n" + names + "\n" + payload
  {
    var parts := ["", names, payload];
    JoinFirst(parts, "\n");
    JoinFirst(parts[1..], "\n");
    assert parts[1..][1..] == [payload];
  }

  lemma OneMoreLine(first: string, rest: seq<string>)
    requires rest != []
    ensures Join([first] + rest, "\n") == first + "\n" + Join(rest, "\n")
  {
    assert ([first] + rest)[1..] == rest;
  }

  lemma TextsCons(r: Request, signed: seq<string>, rest: seq<string>)
    requires signed != []
    ensures HeaderTexts(r, signed) + rest
         == [signed[0] + ":" + HeaderText(r, signed[0])] + (HeaderTexts(r, signed[1..]) + rest)
  {
  }

  lemma {:induction false} HeaderLinesJoin(r: Request, signed: seq<string>, rest: seq<string>)
    requires rest != []
    ensures Join(HeaderTexts(r, signed) + rest, "\n") == HeaderLines(r, signed) + Join(rest, "\n")
  {
    if signed == [] {
      assert HeaderTexts(r, signed) + rest == rest;
    } else {
      HeaderLinesJoin(r, signed[1..], rest);
      TextsCons(r, signed, rest);
      OneMoreLine(signed[0] + ":" + HeaderText(r, signed[0]), HeaderTexts(r, signed[1..]) + rest);
      Assoc(HeaderLine(r, signed[0]), HeaderLines(r, signed[1..]), Join(rest, "\n"));
    }
  }

  lemma OpeningLines(verb: string, path: string, query: string, rest: seq<string>)
    requires rest != []
    ensures Join([verb, path, query] + rest, "\n") == verb + "\n" + (path + "\n" + (query + "\n" + Join(rest, "\n")))
  {
    assert [verb, path, query] + rest == [verb] + ([path] + ([query] + rest));
    OneMoreLine(verb, [path] + ([query] + rest));
    OneMoreLine(path, [query] + rest);
    OneMoreLine(query, rest);
  }

  lemma LayoutNests(verb: string, path: string, query: string, lines: string, names: string, payload: string)
    ensures Layout(verb, path, query, lines, names, payload)
         == verb + "\n" + (path + "\n" + (query + "\n" + (lines + ("\n" + names + "\n" + payload))))
  {
  }

  lemma CanonicalIsJoined(r: Request, signed: seq<string>)
    ensures CanonicalRequest(r, signed) == Join(LinesOf(r, signed), "\n")
  {
    var closing := ["", Join(signed, ";"), Payload(r)];
    ClosingLines(Join(signed, ";"), Payload(r));
    HeaderLinesJoin(r, signed, closing);
    OpeningLines(r.verb, SignedPath(r), CanonicalQuery(r.query), HeaderTexts(r, signed) + closing);
    LayoutNests(r.verb, SignedPath(r), CanonicalQuery(r.query), HeaderLines(r, signed), Join(signed, ";"), Payload(r));
  }

  lemma PairIsFlat(p: Pair)
    ensures '\n' !in EncodePair(p)
  {
    EncodedAlphabet(p.0);
    EncodedAlphabet(p.1);
    assert '\n' !in UriEncode(p.0) && '\n' !in UriEncode(p.1);
  }

  lemma PairsAreFlat(ps: seq<Pair>)
    ensures '\n' !in Join(Encoded(ps), "&")
  {
    forall s | s in Encoded(ps) ensures '\n' !in s {
      var i :| 0 <= i < |ps| && s == EncodePair(ps[i]);
      PairIsFlat(ps[i]);
    }
    JoinChars(Encoded(ps), "&", '\n');
  }

  lemma QueryIsFlat(q: Values)
    ensures '\n' !in CanonicalQuery(q)
  {
    PairsAreFlat(CanonicalPairs(q));
  }

  lemma NamesAreFlat(signed: seq<string>)
    requires forall n :: n in signed ==> '\n' !in n
    ensures '\n' !in Join(signed, ";")
  {
    JoinChars(signed, ";", '\n');
  }

  lemma LinesAreFlat(r: Request, signed: seq<string>)
    requires Flat(r, signed)
    ensures Clean(LinesOf(r, signed), "\n")
  {
    QueryIsFlat(r.query);
    NamesAreFlat(signed);
    forall s | s in HeaderTexts(r, signed) ensures '\n' !in s {
      var i :| 0 <= i < |signed| && s == HeaderTexts(r, signed)[i];
      assert signed[i] in signed;
    }
  }

  /**
   The canonical request, line by line: the verb, the path, the canonical query, one line for each
   signed header with its name and values, an empty line, the names and the payload hash.
   */
  lemma CanonicalLines(r: Request, signed: seq<string>)
    requires Flat(r, signed)
    ensures Split(CanonicalRequest(r, signed), "\n") == LinesOf(r, signed)
  {
    CanonicalIsJoined(r, signed);
    LinesAreFlat(r, signed);
    SplitUndoesJoin(LinesOf(r, signed), "\n");
  }

  // ------------------------------------------------------- what is covered

  /** Two requests agree in everything a signature over these headers covers. */
  ghost predicate SameSigned(a: Request, b: Request, signed: seq<string>) {
    && a.verb == b.verb && SignedPath(a) == SignedPath(b) && SamePairs(a.query, b.query) && Payload(a) == Payload(b)
    && (forall n :: n in signed ==> HeaderText(a, n) == HeaderText(b, n))
  }

  lemma TextsAgree(a: Request, b: Request, signed: seq<string>, i: nat)
    requires i < |signed| && HeaderTexts(a, signed)[i] == HeaderTexts(b, signed)[i]
    ensures HeaderText(a, signed[i]) == HeaderText(b, signed[i])
  {
    Cancel(signed[i] + ":", HeaderText(a, signed[i]), HeaderText(b, signed[i]), "");
    assert HeaderTexts(a, signed)[i] == signed[i] + ":" + HeaderText(a, signed[i]) + "";
    assert HeaderTexts(b, signed)[i] == signed[i] + ":" + HeaderText(b, signed[i]) + "";
  }

  lemma ThreeParts(a: seq<string>, x: seq<string>, c: seq<string>, b: seq<string>, y: seq<string>, d: seq<string>)
    requires a + (x + c) == b + (y + d) && |a| == |b| && |c| == |d|
    ensures a == b && x == y && c == d
  {
    assert (a + (x + c))[..|a|] == a && (b + (y + d))[..|b|] == b;
    assert (a + (x + c))[|a|..] == x + c && (b + (y + d))[|b|..] == y + d;
    assert (x + c)[..|x|] == x && (y + d)[..|y|] == y;
    assert (x + c)[|x|..] == c && (y + d)[|y|..] == d;
  }

  lemma NamesAgree(m: seq<string>, n: seq<string>)
    requires m != [] && n != [] && (forall x :: x in m ==> ';' !in x) && (forall x :: x in n ==> ';' !in x)
    requires Join(m, ";") == Join(n, ";")
    ensures m == n
  {
    SplitUndoesJoin(m, ";");
    SplitUndoesJoin(n, ";");
  }

  lemma EqualLinesAgree(a: Request, b: Request, m: seq<string>, n: seq<string>)
    requires Flat(a, m) && Flat(b, n) && m != [] && n != [] && LinesOf(a, m) == LinesOf(b, n)
    ensures m == n && SameSigned(a, b, m)
  {
    ThreeParts([a.verb, SignedPath(a), CanonicalQuery(a.query)], HeaderTexts(a, m), ["", Join(m, ";"), Payload(a)],
               [b.verb, SignedPath(b), CanonicalQuery(b.query)], HeaderTexts(b, n), ["", Join(n, ";"), Payload(b)]);
    NamesAgree(m, n);
    CanonicalFaithful(a.query, b.query);
    forall x | x in m ensures HeaderText(a, x) == HeaderText(b, x) {
      var i :| 0 <= i < |m| && m[i] == x;
      TextsAgree(a, b, m, i);
    }
  }

  lemma SignedAlikeLinesEqual(a: Request, b: Request, m: seq<string>)
    requires Flat(a, m) && Flat(b, m) && SameSigned(a, b, m)
    ensures LinesOf(a, m) == LinesOf(b, m)
  {
    CanonicalFaithful(a.query, b.query);
    assert HeaderTexts(a, m) == HeaderTexts(b, m);
  }

  /** Two canonical requests are equal exactly when they sign the same headers and agree in all that is signed. */
  lemma CanonicalCoversExactly(a: Request, b: Request, m: seq<string>, n: seq<string>)
    requires Flat(a, m) && Flat(b, n) && m != [] && n != []
    ensures CanonicalRequest(a, m) == CanonicalRequest(b, n) <==> m == n && SameSigned(a, b, m)
  {
    CanonicalLines(a, m);
    CanonicalLines(b, n);
    if CanonicalRequest(a, m) == CanonicalRequest(b, n) {
      EqualLinesAgree(a, b, m, n);
    } else if m == n && SameSigned(a, b, m) {
      CanonicalIsJoined(a, m);
      CanonicalIsJoined(b, n);
      SignedAlikeLinesEqual(a, b, m);
    }
  }

  /** What agreeing on a signed header means: the host as sent, and any other header value by value. */
  lemma SignedHeadersAgree(a: Request, b: Request, signed: seq<string>, n: string)
    requires SameSigned(a, b, signed) && n in signed
    ensures n == "host" ==> Collapse(TrimSpace(a.host)) == Collapse(TrimSpace(b.host))
    ensures n != "host" && ValuesOf(a.headers, n) != [] && ValuesOf(b.headers, n) != [] ==>
      Join(CanonicalValues(ValuesOf(a.headers, n)), ",") == Join(CanonicalValues(ValuesOf(b.headers, n)), ",")
  {
    assert HeaderText(a, n) == HeaderText(b, n);
    if n == "host" {
      assert CanonicalValues([a.host]) == [Collapse(TrimSpace(a.host))];
      assert CanonicalValues([b.host]) == [Collapse(TrimSpace(b.host))];
    }
  }

  // ------------------------------------------------------------- the verifier

  lemma LastsDiffer(x: string, y: string)
    ensures x + "1" != y + "2"
  {
    assert (x + "1")[|x + "1"| - 1] == '1' && (y + "2")[|y + "2"| - 1] == '2';
  }

  /** Under the witness functions any other canonical request has another signature, whatever the date, scope and key. */
  lemma WitnessDenies(e: Env, r: Request, region: string, t: int, datetime: string, scope: string,
                      canonical: string, key: string)
    requires var s := Stamped(e, r, t); canonical != CanonicalRequest(s, SignedNames(s.headers))
    ensures SignatureOf(Witness(e, r, region, t), datetime, scope, canonical, key) == Repeat('0')
  {
    LastsDiffer(ALGORITHM + "\n" + e.datetime(t) + "\n" + Scope(e.date(t), region) + "\n",
                ALGORITHM + "\n" + datetime + "\n" + scope + "\n");
  }

  lemma AlteredMismatches(e: Env, r: Request, access: string, secret: string, region: string, t: int,
                          x: Request, other: string)
    requires Lawful(e)
    requires var s := Stamped(e, r, t); CanonicalRequest(x, SignedNames(s.headers)) != CanonicalRequest(s, SignedNames(s.headers))
    ensures var f := Witness(e, r, region, t);
      Lawful(f) && SameClock(e, f) && !SignatureMatches(f, x, InfoFor(f, r, access, secret, region, t), other)
  {
    var f, s := Witness(e, r, region, t), Stamped(e, r, t);
    SeparatingLawful(e, CanonicalRequest(s, SignedNames(s.headers)), Data(e, region, t), Letter(OldValue(s)));
    WitnessSigns(e, r, access, secret, region, t);
    var info := InfoFor(f, r, access, secret, region, t);
    WitnessDenies(e, r, region, t, First(x.headers, "X-Amz-Date"), info.scope, CanonicalRequest(x, SignedNames(s.headers)),
                  SigningKey(f, other, info.date, info.region, info.service));
    RepeatsDiffer(Letter(OldValue(s)));
  }

  lemma UnalteredMatches(f: Env, r: Request, access: string, secret: string, region: string, t: int, x: Request)
    requires First(x.headers, "X-Amz-Date") == f.datetime(t)
    requires var s := Stamped(f, r, t); CanonicalRequest(x, SignedNames(s.headers)) == CanonicalRequest(s, SignedNames(s.headers))
    ensures SignatureMatches(f, x, InfoFor(f, r, access, secret, region, t), secret)
  {
  }

  /**
   Main result: the signature made for `r` fits a request `x` under every digest and MAC exactly when
   `x` agrees with `r` in verb, path, query pairs, payload and every signed header.
   */
  lemma SignatureCoversExactly(e: Env, r: Request, access: string, secret: string, region: string, t: int, x: Request)
    requires Lawful(e) && CanonicalHeaders(r.headers) && First(x.headers, "X-Amz-Date") == e.datetime(t)
    requires var s := Stamped(e, r, t); Flat(s, SignedNames(s.headers)) && Flat(x, SignedNames(s.headers))
    ensures SameSigned(x, Stamped(e, r, t), SignedNames(Stamped(e, r, t).headers))
        <==> forall f: Env :: Lawful(f) && SameClock(e, f) ==>
               SignatureMatches(f, x, InfoFor(f, r, access, secret, region, t), secret)
  {
    var s := Stamped(e, r, t);
    var names := SignedNames(s.headers);
    StampedHeaders(e, r, t);
    SignedNamesValid(s.headers);
    CanonicalCoversExactly(x, s, names, names);
    if SameSigned(x, s, names) {
      forall f: Env | Lawful(f) && SameClock(e, f)
        ensures SignatureMatches(f, x, InfoFor(f, r, access, secret, region, t), secret)
      {
        assert Stamped(f, r, t) == s;
        UnalteredMatches(f, r, access, secret, region, t, x);
      }
    } else {
      AlteredMismatches(e, r, access, secret, region, t, x, secret);
    }
  }

  /** An altered request is refused under some lawful digest and MAC, at every time and by every secret. */
  lemma AlteredIsRefused(e: Env, r: Request, access: string, secret: string, region: string, t: int,
                         x: Request, other: string, now: int, maxSkew: int)
    requires Lawful(e) && CanonicalHeaders(r.headers)
    requires var s := Stamped(e, r, t); Flat(s, SignedNames(s.headers)) && Flat(x, SignedNames(s.headers))
    requires !SameSigned(x, Stamped(e, r, t), SignedNames(Stamped(e, r, t).headers))
    ensures exists f: Env :: Lawful(f) && SameClock(e, f)
                          && !Verifies(f, x, InfoFor(f, r, access, secret, region, t), other, now, maxSkew)
  {
    var s := Stamped(e, r, t);
    var names := SignedNames(s.headers);
    StampedHeaders(e, r, t);
    SignedNamesValid(s.headers);
    CanonicalCoversExactly(x, s, names, names);
    AlteredMismatches(e, r, access, secret, region, t, x, other);
    var f := Witness(e, r, region, t);
    MismatchRejects(f, x, InfoFor(f, r, access, secret, region, t), other, now, maxSkew);
  }

  // --------------------------------------------------- the date, scope and key

  /** The string to sign, line by line. */
  lemma StringToSignLines(e: Env, datetime: string, scope: string, canonical: string)
    requires '\n' !in datetime && '\n' !in scope && '\n' !in e.digest(canonical)
    ensures Split(StringToSign(e, datetime, scope, canonical), "\n") == [ALGORITHM, datetime, scope, e.digest(canonical)]
  {
    var parts := [ALGORITHM, datetime, scope, e.digest(canonical)];
    JoinFirst(parts, "\n");
    JoinFirst(parts[1..], "\n");
    JoinFirst(parts[1..][1..], "\n");
    assert Join(parts, "\n") == StringToSign(e, datetime, scope, canonical);
    SplitUndoesJoin(parts, "\n");
  }

  /** A MAC without collisions. */
  ghost predicate Injective(mac: (string, string) -> string) {
    forall k, d, k', d' :: mac(k, d) == mac(k', d') ==> k == k' && d == d'
  }

  /** The signing key binds the secret, the date, the region and the service. */
  lemma SigningKeyBinds(e: Env, a: string, date: string, region: string, service: string,
                        b: string, date': string, region': string, service': string)
    requires Injective(e.mac)
    ensures SigningKey(e, a, date, region, service) == SigningKey(e, b, date', region', service')
        <==> a == b && date == date' && region == region' && service == service'
  {
    if SigningKey(e, a, date, region, service) == SigningKey(e, b, date', region', service') {
      Cancel("AWS4", a, b, "");
      assert "AWS4" + a + "" == "AWS4" + a && "AWS4" + b + "" == "AWS4" + b;
    }
  }

  // --------------------------------------------------- what is always refused

  /** The signed request is accepted at `now`. */
  ghost predicate AcceptedAt(e: Env, r: Request, access: string, secret: string, region: string, t: int,
                             now: int, maxSkew: int)
  {
    Verifies(e, Signed(e, r, access, secret, region, t), InfoFor(e, r, access, secret, region, t), secret, now, maxSkew)
  }

  lemma WithinIsAccepted(e: Env, r: Request, access: string, secret: string, region: string, t: int,
                         now: int, maxSkew: int)
    requires Signable(e, r, access, region) && AuthKey() !in r.headers && (maxSkew > 0 ==> Distance(now, t) <= maxSkew)
    ensures AcceptedAt(e, r, access, secret, region, t, now, maxSkew)
  {
    SignedParses(e, r, access, secret, region, t);
    SignedRequestVerifies(e, r, access, secret, region, t, now, maxSkew);
  }

  lemma OutsideIsRefused(e: Env, x: Request, info: AuthInfo, secret: string, t: int, now: int, maxSkew: int)
    requires Lawful(e) && First(x.headers, "X-Amz-Date") == e.datetime(t) && 0 < maxSkew < Distance(now, t)
    ensures !Verifies(e, x, info, secret, now, maxSkew)
  {
  }

  /** A signed request verifies exactly within the allowed skew around the moment it was signed. */
  lemma VerifiesExactlyWithin(e: Env, r: Request, access: string, secret: string, region: string, t: int,
                              now: int, maxSkew: int)
    requires Signable(e, r, access, region) && AuthKey() !in r.headers
    ensures AcceptedAt(e, r, access, secret, region, t, now, maxSkew)
        <==> maxSkew <= 0 || t - maxSkew <= now <= t + maxSkew
  {
    if maxSkew <= 0 || t - maxSkew <= now <= t + maxSkew {
      WithinIsAccepted(e, r, access, secret, region, t, now, maxSkew);
    } else {
      StampsKept(e, r, AuthorizationFor(e, r, access, secret, region, t), t);
      OutsideIsRefused(e, Signed(e, r, access, secret, region, t), InfoFor(e, r, access, secret, region, t), secret,
                       t, now, maxSkew);
    }
  }

  lemma UnsignedName(headers: Values, h: string)
    requires CanonicalHeaders(headers) && Token(h) && CanonicalKey(h) == h && h !in headers && Lower(h) != "host"
    ensures forall i :: 0 <= i < |SignedNames(headers)| ==> SignedNames(headers)[i] != Lower(h)
  {
    SignedNamesAre(headers);
    LowerIsFound(h);
    if Present(headers, Lower(h)) { PresentIsToken(headers, Lower(h)); }
    assert Lower(h) !in SignedNames(headers);
  }

  lemma NotThePayload(h: string)
    requires Token(h) && CanonicalKey(h) == h && Lower(h) == "x-amz-content-sha256"
    ensures h == CanonicalKey("x-amz-content-sha256")
  {
    LowerIsFound(h);
  }

  /** A request with an x-amz header that was not there when it was signed is refused, whatever the functions. */
  lemma AddedAmzHeaderIsRefused(e: Env, r: Request, access: string, secret: string, region: string, t: int,
                                h: string, values: seq<string>, other: string, now: int, maxSkew: int)
    requires CanonicalHeaders(r.headers) && Token(h) && CanonicalKey(h) == h && "x-amz-" <= Lower(h)
    requires h !in Signed(e, r, access, secret, region, t).headers
    ensures var s := Signed(e, r, access, secret, region, t);
      !Verifies(e, s.(headers := s.headers[h := values]), InfoFor(e, r, access, secret, region, t), other, now, maxSkew)
  {
    var s, info := Signed(e, r, access, secret, region, t), InfoFor(e, r, access, secret, region, t);
    var stamped := Stamped(e, r, t).headers;
    StampedHeaders(e, r, t);
    assert Lower(h)[0] == 'x';
    UnsignedName(stamped, h);
    SignedNamesValid(stamped);
    if Lower(h) == "x-amz-content-sha256" { NotThePayload(h); }
    assert h in s.headers[h := values];
    assert !AmzHeadersSigned(s.headers[h := values], info.signed);
  }
}
