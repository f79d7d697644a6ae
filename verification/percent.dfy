/** Percent-encoding: the AWS URI encoder of http_server/s3_auth.go and Go's path unescaping. */
module Percent {
  import opened Common
  import opened Text

  predicate Unreserved(c: char) {
    'A' <= c <= 'Z' || 'a' <= c <= 'z' || '0' <= c <= '9' || c == '-' || c == '_' || c == '.' || c == '~'
  }

  function HexDigit(n: nat): char
    requires n < 16
  {
    if n < 10 then '0' + n as char else 'A' + (n - 10) as char
  }

  function Unhex(c: char): Option<nat> {
    if '0' <= c <= '9' then Some((c - '0') as nat)
    else if 'A' <= c <= 'F' then Some((c - 'A') as nat + 10)
    else if 'a' <= c <= 'f' then Some((c - 'a') as nat + 10)
    else None
  }

  function EncodeByte(c: char): string {
    if Unreserved(c) then [c] else ['%', HexDigit(c as int / 16 % 16), HexDigit(c as int % 16)]
  }

  function UriEncode(s: string): string {
    if s == "" then "" else EncodeByte(s[0]) + UriEncode(s[1..])
  }

  function PathUnescape(s: string): Option<string>
    decreases |s|
  {
    if s == "" then Some("")
    else if s[0] != '%' then
      match PathUnescape(s[1..])
      case None => None
      case Some(t) => Some([s[0]] + t)
    else if |s| < 3 || Unhex(s[1]).None? || Unhex(s[2]).None? then None
    else
      match PathUnescape(s[3..])
      case None => None
      case Some(t) => Some([(16 * Unhex(s[1]).value + Unhex(s[2]).value) as char] + t)
  }

  lemma EncodedByte(c: char, rest: string)
    requires c as int < 256
    ensures PathUnescape(EncodeByte(c) + rest)
         == match PathUnescape(rest) case None => None case Some(t) => Some([c] + t)
  {
    var s := EncodeByte(c) + rest;
    if Unreserved(c) {
      assert s[1..] == rest;
    } else {
      var hi, lo := c as int / 16 % 16, c as int % 16;
      assert s[0] == '%' && s[1] == HexDigit(hi) && s[2] == HexDigit(lo) && s[3..] == rest;
      assert Unhex(HexDigit(hi)) == Some(hi) && Unhex(HexDigit(lo)) == Some(lo);
    }
  }

  /** Unescaping undoes encoding on every byte string. */
  lemma {:induction false} UnescapeUndoesEncode(s: string)
    requires Octets(s)
    ensures PathUnescape(UriEncode(s)) == Some(s)
  {
    if s != "" {
      UnescapeUndoesEncode(s[1..]);
      EncodedByte(s[0], UriEncode(s[1..]));
      assert [s[0]] + s[1..] == s;
    }
  }

  lemma EncodeInjective(a: string, b: string)
    requires Octets(a) && Octets(b) && UriEncode(a) == UriEncode(b)
    ensures a == b
  {
    UnescapeUndoesEncode(a);
    UnescapeUndoesEncode(b);
  }

  /** The encoder emits only unreserved characters and percent signs. */
  lemma {:induction false} EncodedAlphabet(s: string)
    ensures forall c :: c in UriEncode(s) ==> Unreserved(c) || c == '%'
  {
    if s != "" {
      EncodedAlphabet(s[1..]);
      assert forall c :: c in EncodeByte(s[0]) ==> Unreserved(c) || c == '%';
    }
  }

  lemma {:induction false} EncodeAppend(a: string, b: string)
    ensures UriEncode(a + b) == UriEncode(a) + UriEncode(b)
  {
    if a == "" {
      assert a + b == b;
    } else {
      assert (a + b)[0] == a[0] && (a + b)[1..] == a[1..] + b;
      EncodeAppend(a[1..], b);
    }
  }

  /** The encoder as a loop over the bytes of its input. */
  method AwsUriEncode(s: string) returns (b: string)
    ensures b == UriEncode(s)
  {
    b := "";
    for i := 0 to |s|
      invariant b == UriEncode(s[..i])
    {
      EncodeAppend(s[..i], [s[i]]);
      assert s[..i + 1] == s[..i] + [s[i]];
      var c := s[i];
      if 'A' <= c <= 'Z' || 'a' <= c <= 'z' || '0' <= c <= '9' || c == '-' || c == '_' || c == '.' || c == '~' {
        b := b + [c];
      } else {
        b := b + ['%', HexDigit(c as int / 16 % 16), HexDigit(c as int % 16)];
      }
      assert UriEncode([s[i]]) == EncodeByte(s[i]);
    }
    assert s[..|s|] == s;
  }
}
