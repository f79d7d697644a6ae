/** What list requests send to the origin: http_server/s3_list_rewrite.go. */
module Listing {
  import opened Common
  import opened Text
  import opened Query
  import opened Operations
  import Token

  /** url.Values.Get. */
  function Value(q: Values, name: string): string {
    if name in q && q[name] != [] then q[name][0] else ""
  }

  datatype TokenField = TokenField(name: string, kind: string)

  const TOKENS: seq<TokenField> := [
    TokenField("continuation-token", "continuation"), TokenField("upload-id-marker", "upload"),
    TokenField("uploadId", "upload"), TokenField("versionId", "version")]

  function MarkerField(op: Kind): Option<string> {
    match op
    case ListObjects => Some("marker")
    case ListObjectsV2 => Some("start-after")
    case ListMultipartUploads => Some("key-marker")
    case _ => None
  }

  function Prefixed(q: Values, root: string, listing: bool): Values {
    if listing && root != "" then q["prefix" := [root + Value(q, "prefix")]] else q
  }

  function Marked(op: Kind, q: Values, root: string): Values {
    match MarkerField(op)
    case None => q
    case Some(f) => if Value(q, f) != "" && root != "" then q[f := [root + Value(q, f)]] else q
  }

  function DecodeTokens(x: Token.Crypto, c: Token.Config, fields: seq<TokenField>, q: Values): Option<Values>
    decreases fields
  {
    if fields == [] then Some(q)
    else
      var f := fields[0];
      if Value(q, f.name) == "" then DecodeTokens(x, c, fields[1..], q)
      else
        match Token.Decode(x, c, f.kind, Value(q, f.name))
        case None => None
        case Some(v) => DecodeTokens(x, c, fields[1..], q[f.name := [v]])
  }

  /** The query sent to the origin, or None when a token is not one of ours. */
  function Outbound(op: Kind, q: Values, root: string, listing: bool, x: Token.Crypto, c: Token.Config): Option<Values> {
    DecodeTokens(x, c, TOKENS, Marked(op, Prefixed(q, root, listing), root))
  }

  method RewriteOutboundQuery(op: Kind, query: Values, root: string, listing: bool, x: Token.Crypto, c: Token.Config)
    returns (r: Option<Values>)
    ensures r == Outbound(op, query, root, listing, x, c)
  {
    var q := query;
    if listing && root != "" {
      q := q["prefix" := [root + Value(q, "prefix")]];
    }
    var field := MarkerField(op);
    if field.Some? && Value(q, field.value) != "" && root != "" {
      q := q[field.value := [root + Value(q, field.value)]];
    }
    r := DecodeAll(x, c, TOKENS, q);
  }

  method DecodeAll(x: Token.Crypto, c: Token.Config, fields: seq<TokenField>, query: Values) returns (r: Option<Values>)
    ensures r == DecodeTokens(x, c, fields, query)
  {
    var q := query;
    assert fields[0..] == fields;
    for i := 0 to |fields|
      invariant DecodeTokens(x, c, fields[i..], q) == DecodeTokens(x, c, fields, query)
    {
      var f := fields[i];
      assert fields[i..][0] == f && fields[i..][1..] == fields[i + 1..];
      if Value(q, f.name) != "" {
        var v := Token.Decode(x, c, f.kind, Value(q, f.name));
        if v.None? { return None; }
        q := q[f.name := [v.value]];
      }
    }
    return Some(q);
  }

  // ------------------------------------------------------------- field by field

  ghost predicate Distinct(fields: seq<TokenField>) {
    forall i, j :: 0 <= i < j < |fields| ==> fields[i].name != fields[j].name
  }

  ghost predicate Names(fields: seq<TokenField>, name: string) {
    exists i :: 0 <= i < |fields| && fields[i].name == name
  }

  /** What decoding does to one token parameter. */
  ghost predicate StandsFor(x: Token.Crypto, c: Token.Config, f: TokenField, q: Values, o: Values) {
    if Value(q, f.name) == "" then Value(o, f.name) == ""
    else Token.Decode(x, c, f.kind, Value(q, f.name)) == Some(Value(o, f.name))
  }

  lemma NamesTail(fields: seq<TokenField>, n: string)
    requires fields != []
    ensures Names(fields, n) <==> fields[0].name == n || Names(fields[1..], n)
  {
  }

  function DecodeOne(x: Token.Crypto, c: Token.Config, f: TokenField, q: Values): Option<Values> {
    if Value(q, f.name) == "" then Some(q)
    else match Token.Decode(x, c, f.kind, Value(q, f.name))
      case None => None
      case Some(v) => Some(q[f.name := [v]])
  }

  lemma DecodedOne(x: Token.Crypto, c: Token.Config, f: TokenField, q: Values)
    requires DecodeOne(x, c, f, q).Some?
    ensures StandsFor(x, c, f, q, DecodeOne(x, c, f, q).value)
    ensures forall n :: n != f.name ==> Value(DecodeOne(x, c, f, q).value, n) == Value(q, n)
  {
  }

  /** Token decoding changes only the token parameters, each to what its token stands for. */
  lemma {:induction false} DecodedFields(x: Token.Crypto, c: Token.Config, fields: seq<TokenField>, q: Values)
    requires Distinct(fields) && DecodeTokens(x, c, fields, q).Some?
    ensures var o := DecodeTokens(x, c, fields, q).value;
      && (forall n :: !Names(fields, n) ==> Value(o, n) == Value(q, n))
      && forall i :: 0 <= i < |fields| ==> StandsFor(x, c, fields[i], q, o)
    decreases fields
  {
    if fields != [] {
      var f, rest, o := fields[0], fields[1..], DecodeTokens(x, c, fields, q).value;
      var next := DecodeOne(x, c, f, q).value;
      DecodedOne(x, c, f, q);
      DecodedFields(x, c, rest, next);
      forall n | !Names(fields, n) ensures Value(o, n) == Value(q, n) { NamesTail(fields, n); }
      assert !Names(rest, f.name);
      forall i | 0 < i < |fields| ensures StandsFor(x, c, fields[i], q, o) {
        assert StandsFor(x, c, rest[i - 1], next, o);
        assert fields[0].name != fields[i].name;
      }
    }
  }

  ghost predicate Decodable(x: Token.Crypto, c: Token.Config, fields: seq<TokenField>, q: Values) {
    forall i :: 0 <= i < |fields| && Value(q, fields[i].name) != "" ==>
      Token.Decode(x, c, fields[i].kind, Value(q, fields[i].name)).Some?
  }

  /** The rewrite fails exactly when some token parameter is not one of our tokens. */
  lemma {:induction false} DecodesExactly(x: Token.Crypto, c: Token.Config, fields: seq<TokenField>, q: Values)
    requires Distinct(fields)
    ensures DecodeTokens(x, c, fields, q).Some? <==> Decodable(x, c, fields, q)
    decreases fields
  {
    if fields != [] {
      var f, rest, next := fields[0], fields[1..], DecodeOne(x, c, fields[0], q);
      assert forall i :: 0 < i < |fields| ==> fields[i] == rest[i - 1] && fields[i].name != f.name;
      assert next.None? ==> !Decodable(x, c, fields, q);
      if next.Some? {
        DecodedOne(x, c, f, q);
        DecodesExactly(x, c, rest, next.value);
        TailDecodable(x, c, fields, q, next.value);
      }
    }
  }

  lemma TailDecodable(x: Token.Crypto, c: Token.Config, fields: seq<TokenField>, q: Values, next: Values)
    requires fields != [] && DecodeOne(x, c, fields[0], q).Some?
    requires forall i :: 0 < i < |fields| ==> Value(next, fields[i].name) == Value(q, fields[i].name)
    ensures Decodable(x, c, fields, q) <==> Decodable(x, c, fields[1..], next)
  {
  }

  lemma TokensDistinct()
    ensures Distinct(TOKENS)
  {
  }

  /** The key-bearing parameters are none of the token parameters. */
  lemma KeyFieldsAreNotTokens()
    ensures !Names(TOKENS, "prefix") && !Names(TOKENS, "marker") && !Names(TOKENS, "start-after")
    ensures !Names(TOKENS, "key-marker")
  {
  }

  predicate EchoField(name: string) {
    name == "prefix" || name == "marker" || name == "start-after" || name == "key-marker"
  }

  /** The only key-bearing parameters a list operation carries are its prefix and its own marker. */
  lemma KeyFieldsOf(op: Kind, q: Values, name: string)
    requires TransformsQuery(op) && QueryGuard(op, q) && EchoField(name) && Value(q, name) != ""
    ensures name == "prefix" || MarkerField(op) == Some(name)
  {
  }

  predicate TransformsQuery(op: Kind) {
    op == ListObjects || op == ListObjectsV2 || op == ListMultipartUploads
  }

  /** What the origin is asked for under a key-bearing parameter. */
  function Expected(q: Values, root: string, name: string): string {
    if name == "prefix" || Value(q, name) != "" then root + Value(q, name) else ""
  }

  lemma BeforeTokens(op: Kind, q: Values, root: string, name: string)
    requires EchoField(name)
    requires Value(q, name) != "" ==> name == "prefix" || MarkerField(op) == Some(name)
    ensures Value(Marked(op, Prefixed(q, root, true), root), name) == Expected(q, root, name)
  {
  }

  /** Every key-bearing parameter reaches the origin under the tenant's root. */
  lemma OutboundKeyField(op: Kind, q: Values, root: string, x: Token.Crypto, c: Token.Config, name: string)
    requires TransformsQuery(op) && QueryGuard(op, q) && EchoField(name)
    requires Outbound(op, q, root, true, x, c).Some?
    ensures Value(Outbound(op, q, root, true, x, c).value, name) == Expected(q, root, name)
  {
    if Value(q, name) != "" { KeyFieldsOf(op, q, name); }
    BeforeTokens(op, q, root, name);
    TokensDistinct();
    KeyFieldsAreNotTokens();
    DecodedFields(x, c, TOKENS, Marked(op, Prefixed(q, root, true), root));
  }

  lemma TokensUntouchedBefore(op: Kind, q: Values, root: string, listing: bool, name: string)
    requires Names(TOKENS, name)
    ensures Value(Marked(op, Prefixed(q, root, listing), root), name) == Value(q, name)
  {
  }

  /** A token parameter reaches the origin as the value the token stands for. */
  lemma OutboundToken(op: Kind, q: Values, root: string, listing: bool, x: Token.Crypto, c: Token.Config, i: nat)
    requires i < |TOKENS| && Outbound(op, q, root, listing, x, c).Some?
    ensures var name, o := TOKENS[i].name, Outbound(op, q, root, listing, x, c).value;
      if Value(q, name) == "" then Value(o, name) == ""
      else Token.Decode(x, c, TOKENS[i].kind, Value(q, name)) == Some(Value(o, name))
  {
    TokensDistinct();
    assert Names(TOKENS, TOKENS[i].name);
    TokensUntouchedBefore(op, q, root, listing, TOKENS[i].name);
    DecodedFields(x, c, TOKENS, Marked(op, Prefixed(q, root, listing), root));
  }

  /** A token issued for an origin value and sent back by the client reaches the origin as that value. */
  lemma TokenReturns(op: Kind, q: Values, root: string, listing: bool, x: Token.Crypto, c: Token.Config, i: nat,
                     issued: string)
    requires Token.Lawful(x) && i < |TOKENS| && issued != "" && Token.CipherFor(x, c).Some?
    requires Some(Value(q, TOKENS[i].name)) == Token.Encode(x, c, TOKENS[i].kind, issued)
    requires forall j :: 0 <= j < |TOKENS| && j != i ==> Value(q, TOKENS[j].name) == ""
    ensures Outbound(op, q, root, listing, x, c).Some?
    ensures Value(Outbound(op, q, root, listing, x, c).value, TOKENS[i].name) == issued
  {
    var before := Marked(op, Prefixed(q, root, listing), root);
    Token.DecodeUndoesEncode(x, c, TOKENS[i].kind, issued);
    TokensDistinct();
    forall j | 0 <= j < |TOKENS| ensures Value(before, TOKENS[j].name) == Value(q, TOKENS[j].name) {
      assert Names(TOKENS, TOKENS[j].name);
      TokensUntouchedBefore(op, q, root, listing, TOKENS[j].name);
    }
    DecodesExactly(x, c, TOKENS, before);
    NotEmpty(x, c, TOKENS[i].kind, issued);
    OutboundToken(op, q, root, listing, x, c, i);
  }

  lemma NotEmpty(x: Token.Crypto, c: Token.Config, kind: string, value: string)
    requires Token.Encode(x, c, kind, value).Some?
    ensures Token.Encode(x, c, kind, value).value != ""
  {
  }

  // ------------------------------------------------------- listings stay inside

  /** Whatever the client asks for, the origin is asked to list under the tenant's root and from a key under it. */
  lemma ListingsStayUnderRoot(op: Kind, q: Values, root: string, x: Token.Crypto, c: Token.Config)
    requires TransformsQuery(op) && QueryGuard(op, q) && Outbound(op, q, root, true, x, c).Some?
    ensures var o := Outbound(op, q, root, true, x, c).value;
      && root <= Value(o, "prefix") && Value(o, "prefix")[|root|..] == Value(q, "prefix")
      && (MarkerField(op).Some? && Value(o, MarkerField(op).value) != "" ==>
            root <= Value(o, MarkerField(op).value)
            && Value(o, MarkerField(op).value)[|root|..] == Value(q, MarkerField(op).value))
  {
    OutboundKeyField(op, q, root, x, c, "prefix");
    assert (root + Value(q, "prefix"))[|root|..] == Value(q, "prefix");
    if MarkerField(op).Some? {
      var name := MarkerField(op).value;
      OutboundKeyField(op, q, root, x, c, name);
      assert (root + Value(q, name))[|root|..] == Value(q, name);
    }
  }

  ghost predicate SameAt(a: Values, b: Values, name: string) {
    (name in a <==> name in b) && (name in a ==> a[name] == b[name])
  }

  lemma {:induction false} TokensLeaveOthers(x: Token.Crypto, c: Token.Config, fields: seq<TokenField>, q: Values, name: string)
    requires DecodeTokens(x, c, fields, q).Some? && !Names(fields, name)
    ensures SameAt(q, DecodeTokens(x, c, fields, q).value, name)
  {
    if fields != [] {
      var f := fields[0];
      assert f.name != name && !Names(fields[1..], name);
      if Value(q, f.name) == "" {
        TokensLeaveOthers(x, c, fields[1..], q, name);
      } else {
        TokensLeaveOthers(x, c, fields[1..], q[f.name := [Token.Decode(x, c, f.kind, Value(q, f.name)).value]], name);
      }
    }
  }

  /** Parameters that name no key and hold no token go to the origin as the client sent them. */
  lemma OtherParametersPass(op: Kind, q: Values, root: string, listing: bool, x: Token.Crypto, c: Token.Config, name: string)
    requires Outbound(op, q, root, listing, x, c).Some?
    requires name != "prefix" && MarkerField(op) != Some(name) && !Names(TOKENS, name)
    ensures SameAt(q, Outbound(op, q, root, listing, x, c).value, name)
  {
    TokensLeaveOthers(x, c, TOKENS, Marked(op, Prefixed(q, root, listing), root), name);
  }

  /** Whatever a listing may echo, its request may ask for. */
  lemma EchoedIsAskable(op: Kind, name: string)
    requires TransformsQuery(op)
    requires name in {"prefix", "delimiter", "encoding-type"} || MarkerField(op) == Some(name)
          || (op == ListObjectsV2 && name in {"continuation-token", "start-after", "max-keys", "fetch-owner"})
          || (op == ListObjects && name == "max-keys")
          || (op == ListMultipartUploads && name in {"upload-id-marker", "max-uploads"})
    ensures name in Optional(op)
  {
  }
}
