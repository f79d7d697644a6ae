/** Unpadded base64url: section 5 of RFC 4648, decoded strictly as section 3.5 allows. */
module Base64 {
  import opened Common
  import opened Text

  type Byte = n: nat | n < 256

  type Digit = n: nat | n < 64

  // ----------------------------------------------------- bytes and six-bit digits

  function First(a: nat): nat { a / 4 }

  function Second(a: nat, b: nat): nat { a % 4 * 16 + b / 16 }

  function Third(b: nat, c: nat): nat { b % 16 * 4 + c / 64 }

  function Fourth(c: nat): nat { c % 64 }

  function High(p: nat, q: nat): nat { p * 4 + q / 16 }

  function Middle(q: nat, r: nat): nat { q % 16 * 16 + r / 4 }

  function Low(r: nat, t: nat): nat { r % 4 * 64 + t }

  /** Three bytes are four digits; a shorter end is padded with zero bits. */
  function Digits(bs: seq<Byte>): seq<Digit> {
    if bs == [] then []
    else if |bs| == 1 then [First(bs[0]), Second(bs[0], 0)]
    else if |bs| == 2 then [First(bs[0]), Second(bs[0], bs[1]), Third(bs[1], 0)]
    else [First(bs[0]), Second(bs[0], bs[1]), Third(bs[1], bs[2]), Fourth(bs[2])] + Digits(bs[3..])
  }

  /** Four digits are three bytes; at the end, unused bits must be zero. */
  function Bytes(ds: seq<Digit>): Option<seq<Byte>>
    decreases |ds|
  {
    if ds == [] then Some([])
    else if |ds| == 1 then None
    else if |ds| == 2 then if ds[1] % 16 == 0 then Some([High(ds[0], ds[1])]) else None
    else if |ds| == 3 then if ds[2] % 4 == 0 then Some([High(ds[0], ds[1]), Middle(ds[1], ds[2])]) else None
    else
      match Bytes(ds[4..])
      case None => None
      case Some(rest) => Some([High(ds[0], ds[1]), Middle(ds[1], ds[2]), Low(ds[2], ds[3])] + rest)
  }

  lemma DigitsGiveBytes(a: Byte, b: Byte, c: Byte)
    ensures High(First(a), Second(a, b)) == a
    ensures Middle(Second(a, b), Third(b, c)) == b
    ensures Low(Third(b, c), Fourth(c)) == c
  {
  }

  lemma BytesGiveDigits(p: Digit, q: Digit, r: Digit, t: Digit)
    ensures First(High(p, q)) == p && Second(High(p, q), Middle(q, r)) == q
    ensures Third(Middle(q, r), Low(r, t)) == r && Fourth(Low(r, t)) == t
  {
  }

  lemma PadsAreZero(a: Byte)
    ensures Second(a, 0) % 16 == 0 && Third(a, 0) % 4 == 0
  {
  }

  lemma ZeroPads(p: Digit, q: Digit)
    ensures q % 16 == 0 ==> Second(High(p, q), 0) == q
    ensures q % 4 == 0 ==> Third(Middle(p, q), 0) == q
  {
  }

  lemma DigitsGiveByte(a: Byte, b: Byte)
    ensures High(First(a), Second(a, b)) == a
  {
  }

  lemma ByteGivesDigit(p: Digit, q: Digit)
    ensures First(High(p, q)) == p
  {
  }

  lemma OneByte(bs: seq<Byte>)
    requires |bs| == 1
    ensures Bytes(Digits(bs)) == Some(bs)
  {
    PadsAreZero(bs[0]);
    DigitsGiveByte(bs[0], 0);
    assert Digits(bs) == [First(bs[0]), Second(bs[0], 0)];
    assert bs == [bs[0]];
  }

  lemma TwoBytes(bs: seq<Byte>)
    requires |bs| == 2
    ensures Bytes(Digits(bs)) == Some(bs)
  {
    PadsAreZero(bs[1]);
    DigitsGiveBytes(bs[0], bs[1], 0);
    assert Digits(bs) == [First(bs[0]), Second(bs[0], bs[1]), Third(bs[1], 0)];
    assert bs == [bs[0], bs[1]];
  }

  lemma TwoDigits(ds: seq<Digit>)
    requires |ds| == 2 && Bytes(ds).Some?
    ensures Digits(Bytes(ds).value) == ds
  {
    ZeroPads(ds[0], ds[1]);
    ByteGivesDigit(ds[0], ds[1]);
    assert ds == [ds[0], ds[1]];
  }

  lemma ThreeDigits(ds: seq<Digit>)
    requires |ds| == 3 && Bytes(ds).Some?
    ensures Digits(Bytes(ds).value) == ds
  {
    ZeroPads(ds[1], ds[2]);
    BytesGiveDigits(ds[0], ds[1], ds[2], 0);
    assert ds == [ds[0], ds[1], ds[2]];
  }

  lemma {:induction false} BytesUndoDigits(bs: seq<Byte>)
    ensures Bytes(Digits(bs)) == Some(bs)
    decreases |bs|
  {
    if |bs| == 1 {
      OneByte(bs);
    } else if |bs| == 2 {
      TwoBytes(bs);
    } else if |bs| > 2 {
      var ds := Digits(bs);
      BytesUndoDigits(bs[3..]);
      DigitsGiveBytes(bs[0], bs[1], bs[2]);
      assert ds[4..] == Digits(bs[3..]);
      assert bs == [bs[0], bs[1], bs[2]] + bs[3..];
    }
  }

  lemma {:induction false} DigitsUndoBytes(ds: seq<Digit>)
    requires Bytes(ds).Some?
    ensures Digits(Bytes(ds).value) == ds
    decreases |ds|
  {
    if |ds| == 2 {
      TwoDigits(ds);
    } else if |ds| == 3 {
      ThreeDigits(ds);
    } else if |ds| > 3 {
      var bs := Bytes(ds).value;
      DigitsUndoBytes(ds[4..]);
      BytesGiveDigits(ds[0], ds[1], ds[2], ds[3]);
      assert bs[3..] == Bytes(ds[4..]).value;
      assert ds == [ds[0], ds[1], ds[2], ds[3]] + ds[4..];
    }
  }

  // ------------------------------------------------------------------ the alphabet

  function Letter(n: Digit): char {
    if n < 26 then 'A' + n as char
    else if n < 52 then 'a' + (n - 26) as char
    else if n < 62 then '0' + (n - 52) as char
    else if n == 62 then '-' else '_'
  }

  function Value(c: char): Option<Digit> {
    if 'A' <= c <= 'Z' then Some((c - 'A') as nat)
    else if 'a' <= c <= 'z' then Some((c - 'a') as nat + 26)
    else if '0' <= c <= '9' then Some((c - '0') as nat + 52)
    else if c == '-' then Some(62)
    else if c == '_' then Some(63) else None
  }

  function Letters(ds: seq<Digit>): string {
    seq(|ds|, i requires 0 <= i < |ds| => Letter(ds[i]))
  }

  predicate AllLetters(s: string) {
    forall i :: 0 <= i < |s| ==> Value(s[i]).Some?
  }

  function Values(s: string): seq<Digit>
    requires AllLetters(s)
  {
    seq(|s|, i requires 0 <= i < |s| => Value(s[i]).value)
  }

  lemma ValuesUndoLetters(ds: seq<Digit>)
    ensures AllLetters(Letters(ds)) && Values(Letters(ds)) == ds
  {
  }

  lemma LettersUndoValues(s: string)
    requires AllLetters(s)
    ensures Letters(Values(s)) == s
  {
  }

  // ----------------------------------------------------------------- byte strings

  function Codes(d: string): seq<Byte> {
    seq(|d|, i requires 0 <= i < |d| => if d[i] as int < 256 then d[i] as nat else 0)
  }

  function Chars(bs: seq<Byte>): (d: string)
    ensures Octets(d)
  {
    seq(|bs|, i requires 0 <= i < |bs| => bs[i] as char)
  }

  lemma CodesAreChars(d: string, bs: seq<Byte>)
    ensures Codes(Chars(bs)) == bs
    ensures Octets(d) ==> Chars(Codes(d)) == d
  {
  }

  // --------------------------------------------------------------------- the codec

  function Encode(d: string): string {
    Letters(Digits(Codes(d)))
  }

  /** Go's decoder passes over line breaks. */
  function Unbroken(s: string): string {
    if s == "" then "" else (if s[0] == '\r' || s[0] == '\n' then "" else [s[0]]) + Unbroken(s[1..])
  }

  function Decode(s: string): Option<string> {
    if !AllLetters(Unbroken(s)) then None
    else
      match Bytes(Values(Unbroken(s)))
      case None => None
      case Some(bs) => Some(Chars(bs))
  }

  lemma {:induction false} UnbrokenExactly(s: string)
    ensures |Unbroken(s)| <= |s|
    ensures Unbroken(s) == s <==> '\r' !in s && '\n' !in s
    ensures '\r' !in Unbroken(s) && '\n' !in Unbroken(s)
  {
    if s != "" {
      UnbrokenExactly(s[1..]);
      assert s == [s[0]] + s[1..];
    }
  }

  lemma LettersUnbroken(s: string)
    requires AllLetters(s)
    ensures Unbroken(s) == s
  {
  }

  /** Decoding undoes encoding on every byte string. */
  lemma DecodeUndoesEncode(d: string)
    requires Octets(d)
    ensures Decode(Encode(d)) == Some(d)
  {
    var ds := Digits(Codes(d));
    ValuesUndoLetters(ds);
    LettersUnbroken(Letters(ds));
    BytesUndoDigits(Codes(d));
    CodesAreChars(d, []);
  }

  /** A decodable string is the encoding of its value exactly when it has no line breaks. */
  lemma CanonicalExactly(s: string)
    requires Decode(s).Some?
    ensures Encode(Decode(s).value) == s <==> '\r' !in s && '\n' !in s
  {
    var t := Unbroken(s);
    UnbrokenExactly(s);
    DigitsUndoBytes(Values(t));
    LettersUndoValues(t);
    CodesAreChars("", Bytes(Values(t)).value);
  }
}

/** The opaque continuation, upload and version tokens of http_server/s3_token.go. */
module Token {
  import opened Common
  import opened Text
  import Base64

  const VERSION := "vb1"
  const NUL := "\0"

  /** HMAC-SHA-256 and AES-GCM, by the laws used. */
  datatype Crypto = Crypto(
    mac: (string, string) -> string,
    seal: (string, string, string, string) -> string,
    unseal: (string, string, string, string) -> Option<string>,
    nonceSize: nat)

  ghost predicate Lawful(x: Crypto) {
    && (forall k, d :: |x.mac(k, d)| >= x.nonceSize && Octets(x.mac(k, d)))
    && (forall k, n, p, a :: x.unseal(k, n, x.seal(k, n, p, a), a) == Some(p) && Octets(x.seal(k, n, p, a)))
    && (forall k, n, c, a :: x.unseal(k, n, c, a).Some? ==> x.seal(k, n, x.unseal(k, n, c, a).value, a) == c)
  }

  datatype Cipher = Cipher(key: string, nonceKey: string, bucket: string, prefix: string, endpoint: string,
                           routingKey: string)

  datatype Config = Config(endpoint: string, bucket: string, prefix: string, routingKey: string, cached: Option<Cipher>)

  function Tagged(head: string, kind: string, c: Config): string {
    head + NUL + kind + NUL + c.endpoint + NUL + c.bucket + NUL + c.prefix
  }

  function Aad(c: Config, kind: string): string {
    Tagged(VERSION, kind, c)
  }

  function Subkey(x: Crypto, c: Config, purpose: string): string {
    x.mac(c.routingKey, Tagged("vbuckets-routing-token-v1", purpose, c))
  }

  function NewCipher(x: Crypto, c: Config): Option<Cipher> {
    if |c.routingKey| != 32 then None
    else Some(Cipher(Subkey(x, c, "encryption"), Subkey(x, c, "synthetic-nonce"), c.bucket, c.prefix, c.endpoint,
                     c.routingKey))
  }

  predicate Matches(k: Cipher, c: Config) {
    && |c.routingKey| == |k.routingKey| && k.bucket == c.bucket && k.prefix == c.prefix && k.endpoint == c.endpoint
    && k.routingKey == c.routingKey
  }

  function CipherFor(x: Crypto, c: Config): Option<Cipher> {
    if c.cached.Some? && Matches(c.cached.value, c) then c.cached else NewCipher(x, c)
  }

  /** A cached cipher was built by NewCipher for some mapping, perhaps not this one. */
  ghost predicate Cached(x: Crypto, c: Config) {
    c.cached.Some? ==> exists other: Config :: NewCipher(x, other) == c.cached
  }

  function Nonce(x: Crypto, k: Cipher, kind: string, value: string): string {
    var tag := x.mac(k.nonceKey, VERSION + NUL + kind + NUL + value);
    if |tag| < x.nonceSize then tag else tag[..x.nonceSize]
  }

  function Head(kind: string): string {
    VERSION + "." + kind + "."
  }

  function Encode(x: Crypto, c: Config, kind: string, value: string): Option<string> {
    if value == "" then None
    else
      match CipherFor(x, c)
      case None => None
      case Some(k) =>
        var nonce := Nonce(x, k, kind, value);
        Some(Head(kind) + Base64.Encode(nonce + x.seal(k.key, nonce, value, Aad(c, kind))))
  }

  function Open(x: Crypto, c: Config, k: Cipher, kind: string, data: string): Option<string> {
    if |data| < x.nonceSize then None
    else
      match x.unseal(k.key, data[..x.nonceSize], data[x.nonceSize..], Aad(c, kind))
      case None => None
      case Some(plain) => if Nonce(x, k, kind, plain) == data[..x.nonceSize] then Some(plain) else None
  }

  function Decode(x: Crypto, c: Config, kind: string, token: string): Option<string> {
    if !(Head(kind) <= token) then None
    else
      var text := TrimPrefix(token, Head(kind));
      match Base64.Decode(text)
      case None => None
      case Some(data) =>
        if Base64.Encode(data) != text then None
        else
          match CipherFor(x, c)
          case None => None
          case Some(k) => Open(x, c, k, kind, data)
  }

  // ------------------------------------------------------------ cached ciphers

  /** A cached cipher is used only when building one afresh would give the same. */
  lemma CacheIsTransparent(x: Crypto, c: Config)
    requires Cached(x, c)
    ensures CipherFor(x, c) == NewCipher(x, c)
  {
  }

  // --------------------------------------------------------------- round trips

  lemma OpenSealed(x: Crypto, c: Config, k: Cipher, kind: string, value: string)
    requires Lawful(x)
    ensures var nonce := Nonce(x, k, kind, value);
      var data := nonce + x.seal(k.key, nonce, value, Aad(c, kind));
      Octets(data) && Open(x, c, k, kind, data) == Some(value)
  {
  }

  /** Decoding undoes encoding for every non-empty value. */
  lemma DecodeUndoesEncode(x: Crypto, c: Config, kind: string, value: string)
    requires Lawful(x) && value != "" && CipherFor(x, c).Some?
    ensures Encode(x, c, kind, value).Some?
    ensures Decode(x, c, kind, Encode(x, c, kind, value).value) == Some(value)
  {
    var k := CipherFor(x, c).value;
    var nonce := Nonce(x, k, kind, value);
    var data := nonce + x.seal(k.key, nonce, value, Aad(c, kind));
    OpenSealed(x, c, k, kind, value);
    Base64.DecodeUndoesEncode(data);
    TrimPrefixUndoes(Head(kind), Base64.Encode(data));
  }

  lemma SealOpened(x: Crypto, c: Config, k: Cipher, kind: string, data: string)
    requires Lawful(x) && Open(x, c, k, kind, data).Some?
    ensures var value := Open(x, c, k, kind, data).value;
      var nonce := Nonce(x, k, kind, value);
      nonce + x.seal(k.key, nonce, value, Aad(c, kind)) == data
  {
  }

  /** A token that decodes to a non-empty value is exactly the encoding of that value. */
  lemma EncodeUndoesDecode(x: Crypto, c: Config, kind: string, token: string)
    requires Lawful(x) && Decode(x, c, kind, token).Some? && Decode(x, c, kind, token).value != ""
    ensures Encode(x, c, kind, Decode(x, c, kind, token).value) == Some(token)
  {
    var text := TrimPrefix(token, Head(kind));
    var data, k := Base64.Decode(text).value, CipherFor(x, c).value;
    SealOpened(x, c, k, kind, data);
    assert token == Head(kind) + text;
  }

  /** So each value has one token and each token one value. */
  lemma TokensAreUnique(x: Crypto, c: Config, kind: string, a: string, b: string)
    requires Lawful(x) && Decode(x, c, kind, a).Some? && Decode(x, c, kind, a).value != ""
    ensures Decode(x, c, kind, a) == Decode(x, c, kind, b) <==> a == b
  {
    EncodeUndoesDecode(x, c, kind, a);
    if Decode(x, c, kind, a) == Decode(x, c, kind, b) { EncodeUndoesDecode(x, c, kind, b); }
  }

  // ----------------------------------------------------- separation of purposes

  predicate NulFree(s: string) {
    '\0' !in s
  }

  lemma CutUnique(c: char, a: string, p: string, b: string, q: string)
    requires c !in a && c !in b && a + [c] + p == b + [c] + q
    ensures a == b && p == q
  {
    IndexOf(a, [c], p);
    IndexOf(b, [c], q);
    var s := a + [c] + p;
    assert s[..|a|] == a && s[|a| + 1..] == p;
    assert s[..|b|] == b && s[|b| + 1..] == q;
  }

  ghost predicate Separable(c: Config, kind: string) {
    NulFree(kind) && NulFree(c.endpoint) && NulFree(c.bucket)
  }

  lemma TaggedParts(head: string, kind: string, c: Config)
    ensures Tagged(head, kind, c) == head + ['\0'] + (kind + ['\0'] + (c.endpoint + ['\0'] + (c.bucket + ['\0'] + c.prefix)))
  {
  }

  /** The tagged text names the purpose, endpoint, bucket and prefix uniquely. */
  lemma TaggedInjective(head: string, k1: string, c1: Config, k2: string, c2: Config)
    requires Separable(c1, k1) && Separable(c2, k2) && NulFree(head)
    ensures Tagged(head, k1, c1) == Tagged(head, k2, c2)
        <==> k1 == k2 && c1.endpoint == c2.endpoint && c1.bucket == c2.bucket && c1.prefix == c2.prefix
  {
    TaggedParts(head, k1, c1);
    TaggedParts(head, k2, c2);
    if Tagged(head, k1, c1) == Tagged(head, k2, c2) {
      var b1, b2 := c1.bucket + ['\0'] + c1.prefix, c2.bucket + ['\0'] + c2.prefix;
      var e1, e2 := c1.endpoint + ['\0'] + b1, c2.endpoint + ['\0'] + b2;
      CutUnique('\0', head, k1 + ['\0'] + e1, head, k2 + ['\0'] + e2);
      CutUnique('\0', k1, e1, k2, e2);
      CutUnique('\0', c1.endpoint, b1, c2.endpoint, b2);
      CutUnique('\0', c1.bucket, c1.prefix, c2.bucket, c2.prefix);
    }
  }

  ghost predicate SameTag(k1: string, c1: Config, k2: string, c2: Config) {
    k1 == k2 && c1.endpoint == c2.endpoint && c1.bucket == c2.bucket && c1.prefix == c2.prefix
  }

  ghost predicate OwnsTag(head: string, kind: string, c: Config) {
    forall k, d :: Tagged(head, kind, c) == Tagged(head, k, d) ==> SameTag(kind, c, k, d)
  }

  ghost predicate AllNulFree(kind: string, c: Config) {
    Separable(c, kind) && NulFree(c.prefix)
  }

  /** How often NUL occurs. */
  ghost function Nuls(s: string): nat {
    multiset(s)['\0']
  }

  lemma NulsAround(a: string, b: string)
    ensures Nuls(a + ['\0'] + b) == Nuls(a) + 1 + Nuls(b)
    ensures NulFree(a) <==> Nuls(a) == 0
  {
    assert '\0' in a <==> '\0' in multiset(a);
  }

  lemma TaggedNuls(head: string, kind: string, c: Config)
    ensures Nuls(Tagged(head, kind, c)) == Nuls(head) + Nuls(kind) + Nuls(c.endpoint) + Nuls(c.bucket) + Nuls(c.prefix) + 4
  {
    TaggedParts(head, kind, c);
    var b := c.bucket + ['\0'] + c.prefix;
    var e := c.endpoint + ['\0'] + b;
    NulsAround(c.bucket, c.prefix);
    NulsAround(c.endpoint, b);
    NulsAround(kind, e);
    NulsAround(head, kind + ['\0'] + e);
  }

  /** A text with no NUL of its own has no other reading. */
  lemma NulFreeOwns(head: string, kind: string, c: Config, k: string, d: Config)
    requires NulFree(head) && AllNulFree(kind, c) && Tagged(head, kind, c) == Tagged(head, k, d)
    ensures SameTag(kind, c, k, d)
  {
    TaggedNuls(head, kind, c);
    TaggedNuls(head, k, d);
    NulsAround(kind, "");
    NulsAround(c.endpoint, "");
    NulsAround(c.bucket, "");
    NulsAround(c.prefix, "");
    NulsAround(k, "");
    NulsAround(d.endpoint, "");
    NulsAround(d.bucket, "");
    TaggedInjective(head, kind, c, k, d);
  }

  lemma CutAtNul(s: string) returns (a: string, b: string)
    requires !NulFree(s)
    ensures s == a + ['\0'] + b && a != s
  {
    var i :| 0 <= i < |s| && s[i] == '\0';
    a, b := s[..i], s[i + 1..];
  }

  lemma Recut(head: string, kind: string, c: Config, x: string, y: string)
    ensures kind == x + ['\0'] + y ==>
      Tagged(head, kind, c) == Tagged(head, x, c.(endpoint := y + ['\0'] + c.endpoint))
    ensures c.endpoint == x + ['\0'] + y ==>
      Tagged(head, kind, c) == Tagged(head, kind, c.(endpoint := x, bucket := y + ['\0'] + c.bucket))
    ensures c.bucket == x + ['\0'] + y ==>
      Tagged(head, kind, c) == Tagged(head, kind, c.(bucket := x, prefix := y + ['\0'] + c.prefix))
  {
    var b := c.bucket + ['\0'] + c.prefix;
    var e := c.endpoint + ['\0'] + b;
    TaggedParts(head, kind, c);
    if kind == x + ['\0'] + y {
      TaggedParts(head, x, c.(endpoint := y + ['\0'] + c.endpoint));
      Regrouped(x, '\0', y, e);
      Regrouped(y, '\0', c.endpoint, b);
    }
    if c.endpoint == x + ['\0'] + y {
      TaggedParts(head, kind, c.(endpoint := x, bucket := y + ['\0'] + c.bucket));
      Regrouped(x, '\0', y, b);
      Regrouped(y, '\0', c.bucket, c.prefix);
    }
    if c.bucket == x + ['\0'] + y {
      TaggedParts(head, kind, c.(bucket := x, prefix := y + ['\0'] + c.prefix));
      Regrouped(x, '\0', y, c.prefix);
    }
  }

  /** A NUL in any part gives the text a second reading, its parts cut elsewhere. */
  lemma NulCollides(head: string, kind: string, c: Config) returns (k: string, d: Config)
    requires !AllNulFree(kind, c)
    ensures Tagged(head, kind, c) == Tagged(head, k, d) && !SameTag(kind, c, k, d)
  {
    k, d := kind, c;
    if !NulFree(kind) {
      var x, y := CutAtNul(kind);
      k, d := x, c.(endpoint := y + ['\0'] + c.endpoint);
      Recut(head, kind, c, x, y);
    } else if !NulFree(c.endpoint) {
      var x, y := CutAtNul(c.endpoint);
      d := c.(endpoint := x, bucket := y + ['\0'] + c.bucket);
      Recut(head, kind, c, x, y);
    } else if !NulFree(c.bucket) {
      var x, y := CutAtNul(c.bucket);
      d := c.(bucket := x, prefix := y + ['\0'] + c.prefix);
      Recut(head, kind, c, x, y);
    } else {
      var x, y := CutAtNul(c.prefix);
      d := c.(bucket := c.bucket + ['\0'] + x, prefix := y);
      assert |d.bucket| > |c.bucket|;
      Recut(head, kind, d, c.bucket, x);
      assert d.(bucket := c.bucket, prefix := x + ['\0'] + y) == c;
    }
  }

  /** The tagged text tells its parts apart among all mappings exactly when no part holds a NUL. */
  lemma TagOwnedExactly(head: string, kind: string, c: Config)
    requires NulFree(head)
    ensures OwnsTag(head, kind, c) <==> AllNulFree(kind, c)
  {
    if AllNulFree(kind, c) {
      forall k, d | Tagged(head, kind, c) == Tagged(head, k, d) ensures SameTag(kind, c, k, d) {
        NulFreeOwns(head, kind, c, k, d);
      }
    } else {
      var k, d := NulCollides(head, kind, c);
    }
  }

  lemma HeadsDiffer(kind: string, p: string, other: string, q: string)
    requires '.' !in kind && '.' !in other && Head(kind) + p == Head(other) + q
    ensures kind == other
  {
    var a, b := kind + ['.'] + p, other + ['.'] + q;
    assert Head(kind) + p == VERSION + ['.'] + a;
    assert Head(other) + q == VERSION + ['.'] + b;
    assert '.' !in VERSION;
    CutUnique('.', VERSION, a, VERSION, b);
    CutUnique('.', kind, p, other, q);
  }

  /** A token of one kind is never accepted as another kind. */
  lemma KindsAreSeparate(x: Crypto, c: Config, kind: string, other: string, value: string)
    requires '.' !in kind && '.' !in other && kind != other && Encode(x, c, kind, value).Some?
    ensures Decode(x, c, other, Encode(x, c, kind, value).value).None?
  {
    var token := Encode(x, c, kind, value).value;
    if Head(other) <= token {
      HeadsDiffer(kind, token[|Head(kind)|..], other, token[|Head(other)|..]);
    }
  }

  // ------------------------------------------- what keys, nonces and seals bind

  function Filled(c: char, n: nat): string {
    seq(n, i => c)
  }

  lemma FilledDiffers(n: nat)
    ensures Filled('a', n + 1) != Filled('b', n + 1) && Filled('a', n + 1)[..n + 1] != Filled('b', n + 1)[..n + 1]
  {
    assert Filled('a', n + 1)[0] != Filled('b', n + 1)[0];
    assert Filled('a', n + 1)[..n + 1][0] != Filled('b', n + 1)[..n + 1][0];
  }

  /** The same sealing with a MAC that tells one text from all others. */
  ghost function MarkingText(x: Crypto, text: string): Crypto {
    x.(mac := (k, d) => if d == text then Filled('a', x.nonceSize + 1) else Filled('b', x.nonceSize + 1))
  }

  lemma MarkingTextLawful(x: Crypto, text: string)
    requires Lawful(x)
    ensures Lawful(MarkingText(x, text))
  {
  }

  function NonceText(kind: string, value: string): string {
    VERSION + NUL + kind + NUL + value
  }

  lemma NonceTextInjective(k1: string, v1: string, k2: string, v2: string)
    requires NulFree(k1) && NulFree(k2) && NonceText(k1, v1) == NonceText(k2, v2)
    ensures k1 == k2 && v1 == v2
  {
    assert NonceText(k1, v1) == VERSION + ['\0'] + (k1 + ['\0'] + v1);
    assert NonceText(k2, v2) == VERSION + ['\0'] + (k2 + ['\0'] + v2);
    CutUnique('\0', VERSION, k1 + ['\0'] + v1, VERSION, k2 + ['\0'] + v2);
    CutUnique('\0', k1, v1, k2, v2);
  }

  lemma MarkedNonce(x: Crypto, text: string, k: Cipher, kind: string, value: string)
    requires x.nonceSize > 0
    ensures Nonce(MarkingText(x, text), k, kind, value)
         == Filled(if NonceText(kind, value) == text then 'a' else 'b', x.nonceSize)
  {
    var tag := Filled(if NonceText(kind, value) == text then 'a' else 'b', x.nonceSize + 1);
    assert tag[..x.nonceSize] == Filled(if NonceText(kind, value) == text then 'a' else 'b', x.nonceSize);
  }

  /** A nonce is shared by two tokens under every MAC exactly when they have one kind and one value. */
  lemma NonceBindsExactly(x: Crypto, k: Cipher, k1: string, v1: string, k2: string, v2: string)
    requires Lawful(x) && x.nonceSize > 0 && NulFree(k1) && NulFree(k2)
    ensures k1 == k2 && v1 == v2 <==> forall y: Crypto :: Lawful(y) ==> Nonce(y, k, k1, v1) == Nonce(y, k, k2, v2)
  {
    if !(k1 == k2 && v1 == v2) {
      var y := MarkingText(x, NonceText(k1, v1));
      MarkingTextLawful(x, NonceText(k1, v1));
      if NonceText(k1, v1) == NonceText(k2, v2) { NonceTextInjective(k1, v1, k2, v2); }
      MarkedNonce(x, NonceText(k1, v1), k, k1, v1);
      MarkedNonce(x, NonceText(k1, v1), k, k2, v2);
      assert Filled('a', x.nonceSize)[0] != Filled('b', x.nonceSize)[0];
      assert Lawful(y) && Nonce(y, k, k1, v1) != Nonce(y, k, k2, v2);
    }
  }

  ghost function Flag(x: Crypto, aad: string, k: string, a: string): string {
    if k == Filled('a', x.nonceSize + 1) && a == aad then "1" else "2"
  }

  /** A MAC that tells one routing key from all others, and a seal that shows whether it was made for one purpose. */
  ghost function Binding(x: Crypto, routing: string, aad: string): Crypto {
    x.(mac := (k, d) => if k == routing then Filled('a', x.nonceSize + 1) else Filled('b', x.nonceSize + 1),
       seal := (k, n, p, a) => Flag(x, aad, k, a) + x.seal(k, n, p, a),
       unseal := (k, n, c, a) =>
         if c != "" && [c[0]] == Flag(x, aad, k, a) then x.unseal(k, n, c[1..], a) else None)
  }

  lemma Unflagged(x: Crypto, aad: string, k: string, n: string, p: string, a: string)
    requires Lawful(x)
    ensures var c := Flag(x, aad, k, a) + x.seal(k, n, p, a);
      c != "" && [c[0]] == Flag(x, aad, k, a) && c[1..] == x.seal(k, n, p, a) && Octets(c)
  {
  }

  lemma BindingOpens(x: Crypto, routing: string, aad: string)
    requires Lawful(x)
    ensures var y := Binding(x, routing, aad);
      forall k, n, p, a :: y.unseal(k, n, y.seal(k, n, p, a), a) == Some(p) && Octets(y.seal(k, n, p, a))
  {
    var y := Binding(x, routing, aad);
    forall k, n, p, a ensures y.unseal(k, n, y.seal(k, n, p, a), a) == Some(p) && Octets(y.seal(k, n, p, a)) {
      Unflagged(x, aad, k, n, p, a);
    }
  }

  lemma BindingReseals(x: Crypto, routing: string, aad: string)
    requires Lawful(x)
    ensures var y := Binding(x, routing, aad);
      forall k, n, c, a :: y.unseal(k, n, c, a).Some? ==> y.seal(k, n, y.unseal(k, n, c, a).value, a) == c
  {
    var y := Binding(x, routing, aad);
    forall k, n, c, a | y.unseal(k, n, c, a).Some? ensures y.seal(k, n, y.unseal(k, n, c, a).value, a) == c {
      assert [c[0]] + c[1..] == c;
    }
  }

  lemma BindingLawful(x: Crypto, routing: string, aad: string)
    requires Lawful(x)
    ensures Lawful(Binding(x, routing, aad))
  {
    BindingOpens(x, routing, aad);
    BindingReseals(x, routing, aad);
  }

  /** What a mapping makes of another mapping's token: it tries to open what was sealed. */
  lemma ForeignToken(x: Crypto, c1: Config, c2: Config, k1: Cipher, k2: Cipher, kind: string, value: string)
    requires Lawful(x) && value != "" && CipherFor(x, c1) == Some(k1) && CipherFor(x, c2) == Some(k2)
    ensures Encode(x, c1, kind, value).Some?
    ensures var nonce := Nonce(x, k1, kind, value);
      Decode(x, c2, kind, Encode(x, c1, kind, value).value)
      == Open(x, c2, k2, kind, nonce + x.seal(k1.key, nonce, value, Aad(c1, kind)))
  {
    var nonce := Nonce(x, k1, kind, value);
    var data := nonce + x.seal(k1.key, nonce, value, Aad(c1, kind));
    Base64.DecodeUndoesEncode(data);
    TrimPrefixUndoes(Head(kind), Base64.Encode(data));
  }

  lemma FlaggedIsRefused(x: Crypto, y: Crypto, aad: string, routing: string, c: Config, k: Cipher, kind: string,
                         nonce: string, sealed: string)
    requires y == Binding(x, routing, aad) && |nonce| == x.nonceSize
    requires Flag(x, aad, k.key, Aad(c, kind)) == "2" && sealed != "" && sealed[0] == '1'
    ensures Open(y, c, k, kind, nonce + sealed).None?
  {
    assert (nonce + sealed)[..x.nonceSize] == nonce && (nonce + sealed)[x.nonceSize..] == sealed;
  }

  predicate Usable(c: Config) {
    c.cached.None? && |c.routingKey| == 32
  }

  lemma ForeignIsRefused(x: Crypto, c1: Config, c2: Config, kind: string, value: string)
    requires Lawful(x) && value != "" && Usable(c1) && Usable(c2) && Separable(c1, kind) && Separable(c2, kind) && c1 != c2
    ensures var y := Binding(x, c1.routingKey, Aad(c1, kind));
      Encode(y, c1, kind, value).Some? && Decode(y, c2, kind, Encode(y, c1, kind, value).value).None?
  {
    var aad := Aad(c1, kind);
    var y := Binding(x, c1.routingKey, aad);
    BindingLawful(x, c1.routingKey, aad);
    var k1, k2 := NewCipher(y, c1).value, NewCipher(y, c2).value;
    var nonce := Nonce(y, k1, kind, value);
    FilledDiffers(x.nonceSize);
    TaggedInjective(VERSION, kind, c1, kind, c2);
    ForeignToken(y, c1, c2, k1, k2, kind, value);
    assert y.seal(k1.key, nonce, value, aad)[0] == '1';
    FlaggedIsRefused(x, y, aad, c1.routingKey, c2, k2, kind, nonce, y.seal(k1.key, nonce, value, aad));
  }

  /** A token opens under a mapping, whatever the functions, exactly when it was made under the same mapping and key. */
  lemma TokensAreBoundExactly(x: Crypto, c1: Config, c2: Config, kind: string, value: string)
    requires Lawful(x) && value != "" && Usable(c1) && Usable(c2) && Separable(c1, kind) && Separable(c2, kind)
    ensures c1 == c2 <==> forall y: Crypto :: Lawful(y) && Encode(y, c1, kind, value).Some? ==>
                            Decode(y, c2, kind, Encode(y, c1, kind, value).value) == Some(value)
  {
    if c1 == c2 {
      forall y: Crypto | Lawful(y) ensures Decode(y, c2, kind, Encode(y, c1, kind, value).value) == Some(value) {
        DecodeUndoesEncode(y, c1, kind, value);
      }
    } else {
      BindingLawful(x, c1.routingKey, Aad(c1, kind));
      ForeignIsRefused(x, c1, c2, kind, value);
    }
  }
}
