/** Virtual object keys and tenant prefixes: http_server/s3_operation.go and http_server/vbucket.go. */
module Keys {
  import opened Common
  import opened Text

  predicate In(c: char, lo: char, hi: char) {
    lo <= c <= hi
  }

  predicate Continues(c: char) {
    In(c, '\U{80}', '\U{BF}')
  }

  /** Bytes of the rune at the front of `s`, or zero when it is malformed or a control character. */
  function RuneWidth(s: string): (n: nat)
    ensures n <= |s|
  {
    if s == "" then 0
    else
      var a, b, c, d :=
        s[0], if |s| > 1 then s[1] else ' ', if |s| > 2 then s[2] else ' ', if |s| > 3 then s[3] else ' ';
      if In(a, ' ', '~') then 1
      else if a == '\U{C2}' then if In(b, '\U{A0}', '\U{BF}') then 2 else 0
      else if In(a, '\U{C3}', '\U{DF}') then if Continues(b) then 2 else 0
      else if In(a, '\U{E0}', '\U{EF}') then
        if Continues(b) && Continues(c) && (a == '\U{E0}' ==> b >= '\U{A0}') && (a == '\U{ED}' ==> b <= '\U{9F}') then 3
        else 0
      else if In(a, '\U{F0}', '\U{F4}') then
        if Continues(b) && Continues(c) && Continues(d) && (a == '\U{F0}' ==> b >= '\U{90}')
           && (a == '\U{F4}' ==> b <= '\U{8F}') then 4
        else 0
      else 0
  }

  /** Valid UTF-8 without control characters. */
  predicate Printable(s: string) {
    s == "" || (RuneWidth(s) > 0 && Printable(s[RuneWidth(s)..]))
  }

  lemma RuneAppend(a: string, b: string)
    requires RuneWidth(a) > 0
    ensures RuneWidth(a + b) == RuneWidth(a)
  {
  }

  lemma {:induction false} PrintableAppend(a: string, b: string)
    requires Printable(a) && Printable(b)
    ensures Printable(a + b)
    decreases |a|
  {
    if a == "" {
      assert a + b == b;
    } else {
      var n := RuneWidth(a);
      RuneAppend(a, b);
      assert (a + b)[n..] == a[n..] + b;
      PrintableAppend(a[n..], b);
    }
  }

  lemma RuneHasNoControl(s: string)
    requires RuneWidth(s) > 0
    ensures forall i :: 0 <= i < RuneWidth(s) ==> ' ' <= s[i] && s[i] != '\U{7F}'
  {
  }

  /** An accepted text holds no control byte, and every text of visible ASCII is accepted. */
  lemma {:induction false} PrintableHasNoControl(s: string)
    ensures Printable(s) ==> forall c :: c in s ==> ' ' <= c && c != '\U{7F}'
    ensures (forall c :: c in s ==> ' ' <= c <= '~') ==> Printable(s)
    decreases |s|
  {
    if s != "" && RuneWidth(s) > 0 {
      var n := RuneWidth(s);
      RuneHasNoControl(s);
      PrintableHasNoControl(s[n..]);
      assert s == s[..n] + s[n..];
      assert forall c :: c in s[n..] ==> c in s;
    } else if s != "" {
      assert s[0] in s;
    }
  }

  predicate Dots(segment: string) {
    segment == "." || segment == ".."
  }

  predicate DotFree(s: string) {
    forall p :: p in Split(s, "/") ==> !Dots(p)
  }

  predicate ValidKey(key: string) {
    Printable(key) && '\\' !in key && DotFree(key)
  }

  method ValidateVirtualObjectKey(key: string) returns (ok: bool)
    ensures ok <==> ValidKey(key)
  {
    if !Printable(key) || '\\' in key { return false; }
    var segments := Split(key, "/");
    for i := 0 to |segments|
      invariant forall k :: 0 <= k < i ==> !Dots(segments[k])
    {
      if segments[i] == "." || segments[i] == ".." {
        assert segments[i] in Split(key, "/");
        return false;
      }
    }
    return true;
  }

  // ------------------------------------------------------------------ prefixes

  function TrimLeftSlash(s: string): string {
    if s != "" && s[0] == '/' then TrimLeftSlash(s[1..]) else s
  }

  function TrimRightSlash(s: string): string {
    if s != "" && s[|s| - 1] == '/' then TrimRightSlash(s[..|s| - 1]) else s
  }

  predicate SafeSegment(s: string) {
    s != "" && !Dots(s) && '\\' !in s && Printable(s)
  }

  /** Empty, or slash-separated safe segments. */
  predicate Normalized(p: string) {
    p == "" || forall s :: s in Split(p, "/") ==> SafeSegment(s)
  }

  method NormalizePrefix(configured: string) returns (r: Option<string>)
    ensures var p := TrimRightSlash(TrimLeftSlash(configured)); r == if Normalized(p) then Some(p) else None
  {
    var p := TrimRightSlash(TrimLeftSlash(configured));
    if p != "" {
      var segments := Split(p, "/");
      for i := 0 to |segments|
        invariant forall k :: 0 <= k < i ==> SafeSegment(segments[k])
      {
        var s := segments[i];
        if s == "" || s == "." || s == ".." || '\\' in s || !Printable(s) {
          assert s in Split(p, "/");
          return None;
        }
      }
    }
    return Some(p);
  }

  /** What is put before every key of the tenant. */
  function Root(p: string): string {
    if p == "" then "" else TrimRight1(p) + "/"
  }

  /** strings.TrimSuffix of one slash. */
  function TrimRight1(p: string): string {
    if p != "" && p[|p| - 1] == '/' then p[..|p| - 1] else p
  }

  lemma LastSegment(p: string)
    requires p != "" && p[|p| - 1] == '/'
    ensures "" in Split(p, "/")
  {
    assert p == p[..|p| - 1] + ['/'] + "";
    SplitAppend(p[..|p| - 1], '/', "");
    assert Split("", "/") == [""];
    assert "" in Split(p[..|p| - 1], "/") + [""];
  }

  /** A normalized prefix ends in no slash, so its root is the prefix and one slash. */
  lemma RootOf(p: string)
    requires Normalized(p) && p != ""
    ensures Root(p) == p + "/"
  {
    if p[|p| - 1] == '/' { LastSegment(p); }
  }

  lemma {:induction false} SafeJoin(parts: seq<string>)
    requires parts != [] && forall s :: s in parts ==> SafeSegment(s) && '/' !in s
    ensures Printable(Join(parts, "/")) && '\\' !in Join(parts, "/")
    decreases |parts|
  {
    assert parts[0] in parts;
    if |parts| > 1 {
      JoinFirst(parts, "/");
      SafeJoin(parts[1..]);
      PrintableAppend(parts[0], "/");
      PrintableAppend(parts[0] + "/", Join(parts[1..], "/"));
    }
  }

  lemma PrefixIsPrintable(p: string)
    requires Normalized(p)
    ensures Printable(p) && '\\' !in p
  {
    if p != "" {
      SplitParts(p, '/');
      SafeJoin(Split(p, "/"));
      JoinUndoesSplit(p, "/");
    }
  }

  /** Putting a tenant's root before a valid key gives a valid key again. */
  lemma RootedKeyIsValid(p: string, key: string)
    requires Normalized(p) && ValidKey(key)
    ensures ValidKey(Root(p) + key)
  {
    if p == "" {
      assert Root(p) + key == key;
    } else {
      RootOf(p);
      PrefixIsPrintable(p);
      PrintableAppend(p, "/");
      PrintableAppend(p + "/", key);
      SplitAppend(p, '/', key);
      assert p + ['/'] + key == Root(p) + key;
    }
  }
}

/** Tenants that share one real bucket. */
module Tenancy {
  import opened Common
  import opened Text
  import opened Keys

  /** The real key of a virtual one. */
  function Real(p: string, key: string): string {
    Root(p) + key
  }

  predicate Overlap(p: string, q: string) {
    Root(p) <= Root(q) || Root(q) <= Root(p)
  }

  ghost predicate Collide(p: string, q: string) {
    exists k, l :: ValidKey(k) && ValidKey(l) && k != "" && l != "" && Real(p, k) == Real(q, l)
  }

  lemma PrefixesOfOne(a: string, b: string, s: string, t: string)
    requires a + s == b + t
    ensures a <= b || b <= a
  {
    if |a| <= |b| {
      assert b == (b + t)[..|b|] && a == (a + s)[..|a|];
      assert a == b[..|a|];
    } else {
      assert b == (b + t)[..|b|] && a == (a + s)[..|a|];
      assert b == a[..|b|];
    }
  }

  lemma LetterIsValid()
    ensures ValidKey("x")
  {
    assert Printable("x");
    IndexNone("x", "/");
    assert Split("x", "/") == ["x"];
  }

  lemma PrefixCut(p: string, q: string)
    requires p + "/" <= q + "/"
    ensures p == q || (|p| < |q| && q == p + "/" + q[|p| + 1..])
  {
    if |p| == |q| {
      assert p == (p + "/")[..|p|] && q == (q + "/")[..|q|];
    } else {
      assert p + "/" == (q + "/")[..|p| + 1] == q[..|p| + 1];
      assert q == q[..|p| + 1] + q[|p| + 1..];
    }
  }

  /** What follows one root inside another is itself a normalized prefix and a slash. */
  lemma Remainder(p: string, rest: string)
    requires Normalized(p + "/" + rest)
    ensures Normalized(rest) && rest != ""
  {
    var q := p + ['/'] + rest;
    assert p + "/" + rest == q;
    SplitAppend(p, '/', rest);
    if rest == "" { LastSegment(q); }
  }

  lemma InnerCollide(p: string, rest: string)
    requires p != "" && Normalized(p) && Normalized(p + "/" + rest)
    ensures Collide(p, p + "/" + rest)
  {
    var q := p + "/" + rest;
    LetterIsValid();
    Remainder(p, rest);
    RootedKeyIsValid(rest, "x");
    RootOf(p);
    RootOf(q);
    RootOf(rest);
    var k := Root(rest) + "x";
    assert Real(p, k) == p + "/" + (rest + "/" + "x");
    assert Real(q, "x") == p + "/" + rest + "/" + "x";
    assert Real(p, k) == Real(q, "x");
  }

  lemma NestedCollide(p: string, q: string)
    requires Normalized(p) && Normalized(q) && Root(p) <= Root(q)
    ensures Collide(p, q)
  {
    LetterIsValid();
    if p == q {
      assert Real(p, "x") == Real(q, "x");
    } else if p == "" {
      RootedKeyIsValid(q, "x");
      assert Real(p, Root(q) + "x") == Real(q, "x");
    } else {
      RootOf(p);
      if q != "" {
        RootOf(q);
        PrefixCut(p, q);
        InnerCollide(p, q[|p| + 1..]);
      }
    }
  }

  /**
   Tenants are isolated exactly when neither root is a prefix of the other: then no two
   accepted keys of theirs reach the same real key, and otherwise some two do.
   */
  lemma IsolatedExactly(p: string, q: string)
    requires Normalized(p) && Normalized(q)
    ensures Collide(p, q) <==> Overlap(p, q)
  {
    if Collide(p, q) {
      var k, l :| ValidKey(k) && ValidKey(l) && k != "" && l != "" && Real(p, k) == Real(q, l);
      PrefixesOfOne(Root(p), Root(q), k, l);
    }
    if Root(p) <= Root(q) {
      NestedCollide(p, q);
    } else if Root(q) <= Root(p) {
      NestedCollide(q, p);
      var k, l :| ValidKey(k) && ValidKey(l) && k != "" && l != "" && Real(q, k) == Real(p, l);
      assert Real(p, l) == Real(q, k);
    }
  }

  /** Listing under one root shows no key of a tenant with a non-overlapping root. */
  lemma ListsAreIsolated(p: string, q: string, listed: string, key: string)
    requires !Overlap(p, q)
    ensures !(Root(p) + listed <= Real(q, key))
  {
    var s := Real(q, key);
    if Root(p) + listed <= s {
      var rest := s[|Root(p) + listed|..];
      assert s == Root(p) + (listed + rest);
      PrefixesOfOne(Root(p), Root(q), listed + rest, key);
    }
  }

  // ------------------------------------------------------ dot-segment removal

  function DropLast(out: string): string {
    if out == "" then "" else if out[|out| - 1] == '/' then out[..|out| - 1] else DropLast(out[..|out| - 1])
  }

  /** Where the first segment of `s` ends: the next slash after the first character. */
  function SegmentEnd(s: string): (n: nat)
    requires s != ""
    ensures 0 < n <= |s|
  {
    1 + Index(s[1..], "/")
  }

  /** Section 5.2.4 of RFC 3986, with its input and output buffers. */
  function RemoveDots(s: string, out: string): string
    decreases |s|
  {
    if s == "" then out
    else if "../" <= s then RemoveDots(s[3..], out)
    else if "./" <= s then RemoveDots(s[2..], out)
    else if "/./" <= s then RemoveDots(s[2..], out)
    else if s == "/." then RemoveDots("/", out)
    else if "/../" <= s then RemoveDots(s[3..], DropLast(out))
    else if s == "/.." then RemoveDots("/", DropLast(out))
    else if Dots(s) then out
    else RemoveDots(s[SegmentEnd(s)..], out + s[..SegmentEnd(s)])
  }

  lemma FirstPart(t: string)
    requires DotFree(t)
    ensures !Dots(t[..Index(t, "/")])
    ensures Index(t, "/") < |t| ==> t[Index(t, "/")] == '/' && DotFree(t[Index(t, "/") + 1..])
  {
    var i := Index(t, "/");
    SplitStep(t, '/');
    if i == |t| {
      assert t[..i] == t;
    }
    assert Split(t, "/")[0] == t[..i];
  }

  /** The first segment of a dot-free rest of a path is none that the removal looks for. */
  lemma NothingToRemove(s: string)
    requires s != "" && s[0] == '/' && DotFree(s[1..])
    ensures !("../" <= s) && !("./" <= s) && !("/./" <= s) && s != "/." && !("/../" <= s) && s != "/.." && !Dots(s)
  {
    FirstPart(s[1..]);
    DotsAhead(s[1..]);
  }

  lemma FirstSegment(s: string)
    requires s != "" && s[0] == '/' && DotFree(s[1..])
    ensures var rest := s[SegmentEnd(s)..]; rest != "" ==> rest[0] == '/' && DotFree(rest[1..])
  {
    var t := s[1..];
    var i := Index(t, "/");
    FirstPart(t);
    assert s[SegmentEnd(s)..] == t[i..];
    if i < |t| {
      assert t[i..][1..] == t[i + 1..];
    }
  }

  lemma DotsAhead(t: string)
    ensures "./" <= t || "../" <= t || Dots(t) ==> Dots(t[..Index(t, "/")])
  {
    if "./" <= t {
      assert t == "." + "/" + t[2..];
      IndexOf(".", "/", t[2..]);
    } else if "../" <= t {
      assert t == ".." + "/" + t[3..];
      IndexOf("..", "/", t[3..]);
    } else if Dots(t) {
      IndexNone(t, "/");
      assert t[..|t|] == t;
    }
  }

  lemma SegmentMoves(s: string, out: string)
    requires s != "" && s[0] == '/' && DotFree(s[1..])
    ensures RemoveDots(s, out) == RemoveDots(s[SegmentEnd(s)..], out + s[..SegmentEnd(s)])
  {
    NothingToRemove(s);
  }

  lemma Rejoined(out: string, s: string, n: nat)
    requires n <= |s|
    ensures (out + s[..n]) + s[n..] == out + s
  {
  }

  lemma {:induction false} DotFreeIsFixed(s: string, out: string)
    requires s != "" ==> s[0] == '/' && DotFree(s[1..])
    ensures RemoveDots(s, out) == out + s
    decreases |s|
  {
    if s != "" {
      FirstSegment(s);
      SegmentMoves(s, out);
      var n := SegmentEnd(s);
      DotFreeIsFixed(s[n..], out + s[..n]);
      Rejoined(out, s, n);
    }
  }

  /** The path of an outbound request: the real bucket appears in path style only. */
  function OutboundPath(pathStyle: bool, bucket: string, key: string): string {
    if pathStyle then "/" + bucket + (if key == "" then "" else "/" + key) else "/" + key
  }

  predicate BucketChar(c: char, edge: bool) {
    'a' <= c <= 'z' || '0' <= c <= '9' || (!edge && (c == '.' || c == '-'))
  }

  predicate BadPair(a: char, b: char) {
    (a == '.' && (b == '.' || b == '-')) || (a == '-' && b == '.')
  }

  predicate ValidBucketName(b: string) {
    && 3 <= |b| <= 63 && BucketChar(b[0], true) && BucketChar(b[|b| - 1], true)
    && (forall i :: 0 <= i < |b| ==> BucketChar(b[i], false))
    && forall i :: 0 < i < |b| ==> !BadPair(b[i - 1], b[i])
  }

  lemma OutboundIsDotFree(pathStyle: bool, bucket: string, key: string)
    requires ValidBucketName(bucket) && DotFree(key)
    ensures var path := OutboundPath(pathStyle, bucket, key); path[0] == '/' && DotFree(path[1..])
  {
    var path := OutboundPath(pathStyle, bucket, key);
    assert '/' !in bucket && !Dots(bucket);
    IndexNone(bucket, "/");
    assert Split(bucket, "/") == [bucket];
    if pathStyle && key != "" {
      assert path[1..] == bucket + ['/'] + key;
      SplitAppend(bucket, '/', key);
    } else if pathStyle {
      assert path[1..] == bucket;
    } else {
      assert path[1..] == key;
    }
  }

  /**
   Dot-segment removal leaves every outbound object path alone, so the path an origin
   resolves still starts with the tenant's root.
   */
  lemma OutboundStaysUnderRoot(pathStyle: bool, bucket: string, p: string, key: string)
    requires ValidBucketName(bucket) && Normalized(p) && ValidKey(key)
    ensures var path := OutboundPath(pathStyle, bucket, Real(p, key));
      && RemoveDots(path, "") == path
      && (key != "" ==> OutboundPath(pathStyle, bucket, Root(p)) <= path)
  {
    RootedKeyIsValid(p, key);
    OutboundIsDotFree(pathStyle, bucket, Real(p, key));
    DotFreeIsFixed(OutboundPath(pathStyle, bucket, Real(p, key)), "");
  }
}
