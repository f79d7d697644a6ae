/** The rewriter as the program runs it: one pass over the tokens with mutable state. */
module XmlRewriter {
  import opened Common
  import opened Text
  import opened Xml
  import opened XmlProof

  /** What the end-of-document checks remember about the fields seen so far. */
  datatype Notes = Notes(
    seen: set<Path>, partsTruncated: Option<bool>, objectsTruncated: Option<bool>, uploadsTruncated: Option<bool>,
    emptyContinuation: bool, emptyUpload: bool)

  function Noted(n: Notes, path: Path, text: string): Notes {
    Notes(n.seen + {path},
          if path == PARTS_TRUNCATED then Some(ParsesTrue(text)) else n.partsTruncated,
          if path == OBJECTS_TRUNCATED then Some(ParsesTrue(text)) else n.objectsTruncated,
          if path == UPLOADS_TRUNCATED then Some(ParsesTrue(text)) else n.uploadsTruncated,
          if path == NEXT_CONTINUATION then text == "" else n.emptyContinuation,
          if path == NEXT_UPLOAD then text == "" else n.emptyUpload)
  }

  ghost predicate Describe(n: Notes, fields: seq<FieldText>) {
    && (forall p :: p in n.seen <==> LastText(fields, p).Some?)
    && n.partsTruncated == Truncated(fields, PARTS_TRUNCATED)
    && n.objectsTruncated == Truncated(fields, OBJECTS_TRUNCATED)
    && n.uploadsTruncated == Truncated(fields, UPLOADS_TRUNCATED)
    && n.emptyContinuation == (LastText(fields, NEXT_CONTINUATION) == Some(""))
    && n.emptyUpload == (LastText(fields, NEXT_UPLOAD) == Some(""))
  }

  lemma NotedDescribes(n: Notes, fields: seq<FieldText>, path: Path, text: string)
    requires Describe(n, fields)
    ensures Describe(Noted(n, path, text), fields + [FieldText(path, text)])
  {
  }

  /** The notes decide completeness as the whole list of fields does. */
  method CheckComplete(c: Context, n: Notes, ghost fields: seq<FieldText>) returns (ok: bool)
    requires Describe(n, fields)
    ensures ok <==> Complete(c, fields)
  {
    var pending := c.required;
    while pending != {}
      invariant pending <= c.required
      invariant forall p :: p in c.required && p !in pending ==> p in n.seen
      decreases |pending|
    {
      var p :| p in pending;
      if p !in n.seen { return false; }
      pending := pending - {p};
    }
    if c.root == "ListPartsResult" && n.partsTruncated == Some(true) && NEXT_PART !in n.seen { return false; }
    if NEXT_CONTINUATION in n.seen && n.emptyContinuation && n.objectsTruncated != Some(false) { return false; }
    if NEXT_UPLOAD in n.seen && n.emptyUpload && n.uploadsTruncated != Some(false) { return false; }
    return true;
  }

  method ReadElementText(ts: seq<Token>, name: Name, limit: nat) returns (r: Option<(string, seq<Token>)>)
    ensures r == ReadText(ts, name, limit, "")
  {
    var text, rest := "", ts;
    while rest != []
      invariant ReadText(ts, name, limit, "") == ReadText(rest, name, limit, text)
      decreases |rest|
    {
      match rest[0] {
        case CharData(t) =>
          if |text| + |t| > limit { return None; }
          text := text + t;
        case Other =>
        case End(n) => return if n == name then Some((text, rest[1..])) else None;
        case Start(_, _) => return None;
      }
      rest := rest[1..];
    }
    return None;
  }

  method SkipElement(ts: seq<Token>) returns (r: Option<seq<Token>>)
    ensures r == Skip(ts, 0)
  {
    var depth: nat, rest := 0, ts;
    while rest != []
      invariant Skip(ts, 0) == Skip(rest, depth)
      decreases |rest|
    {
      var token := rest[0];
      rest := rest[1..];
      if token.Start? {
        depth := depth + 1;
      } else if token.End? {
        if depth == 0 { return Some(rest); }
        depth := depth - 1;
      }
    }
    return None;
  }

  method FilterAttributes(c: Context, attrs: seq<Attr>) returns (kept: seq<Attr>)
    ensures kept == Filter(c, attrs)
  {
    kept := [];
    for i := 0 to |attrs|
      invariant kept + Filter(c, attrs[i..]) == Filter(c, attrs)
    {
      if c.keep(attrs[i]) { kept := kept + [attrs[i]]; }
    }
  }

  /** The mutable locals of the pass, apart from the output and the unread tokens. */
  datatype Locals = Locals(stack: Path, seenRoot: bool, owners: seq<bool>, notes: Notes)

  ghost function StateOf(m: Locals, fields: seq<FieldText>): State {
    State(m.stack, m.seenRoot, m.owners, fields)
  }

  ghost predicate Shown(c: Context, st: State, name: Name) {
    !Refused(c, st, name) && c.known(st.stack + [name.local])
  }

  ghost function Inside(st: State, name: Name): State {
    st.(seenRoot := true, owners := Track(st.owners, st.stack + [name.local]))
  }

  lemma IdentityStep(c: Context, st: State, name: Name, attrs: seq<Attr>, ts: seq<Token>)
    requires Shown(c, st, name) && c.rule(st.stack + [name.local]) == Some(Identity)
    ensures OnStart(c, st, name, attrs, ts)
         == var start := [Start(name, Filter(c, attrs))];
            match Skip(ts, 0)
            case None => Outcome(start, Failed)
            case Some(rest) => Emit(start + IdentityFields(c.bucket) + [End(name)], Run(c, Inside(st, name), rest))
  {
  }

  lemma FieldStep(c: Context, st: State, name: Name, attrs: seq<Attr>, ts: seq<Token>)
    requires Shown(c, st, name) && IsField(c, st.stack + [name.local])
    ensures OnStart(c, st, name, attrs, ts)
         == var path, start := st.stack + [name.local], [Start(name, Filter(c, attrs))];
            match ReadText(ts, name, c.limit, "")
            case None => Outcome(start, Failed)
            case Some((text, rest)) =>
              match c.apply(c.rule(path).value.transform, path, text)
              case None => Outcome(start, Failed)
              case Some(t) =>
                Emit(start + [CharData(t), End(name)],
                     Run(c, Inside(st, name).(fields := st.fields + [FieldText(path, t)]), rest))
  {
  }

  /** A field of the schema: its text is read whole, transformed and noted. */
  method ShowField(c: Context, ghost st: State, m: Locals, transform: Transform, name: Name, kept: seq<Attr>, ts: seq<Token>,
                   ghost attrs: seq<Attr>)
    returns (emitted: seq<Token>, ok: bool, m': Locals, rest: seq<Token>, ghost fields': seq<FieldText>)
    requires Shown(c, st, name) && IsField(c, st.stack + [name.local]) && kept == Filter(c, attrs)
    requires transform == c.rule(st.stack + [name.local]).value.transform
    requires StateOf(m, st.fields) == Inside(st, name) && Describe(m.notes, st.fields)
    ensures Describe(m'.notes, fields') && |rest| <= |ts|
    ensures OnStart(c, st, name, attrs, ts)
         == if ok then Emit(emitted, Run(c, StateOf(m', fields'), rest)) else Outcome(emitted, Failed)
  {
    FieldStep(c, st, name, attrs, ts);
    emitted, ok, m', rest, fields' := [Start(name, kept)], false, m, ts, st.fields;
    var path := m.stack + [name.local];
    var read := ReadElementText(ts, name, c.limit);
    if read.None? { return; }
    var text := c.apply(transform, path, read.value.0);
    if text.None? { return; }
    rest, ok := read.value.1, true;
    emitted := emitted + [CharData(text.value), End(name)];
    NotedDescribes(m.notes, st.fields, path, text.value);
    m', fields' := m.(notes := Noted(m.notes, path, text.value)), st.fields + [FieldText(path, text.value)];
  }

  /** An admitted element of the schema; `m` already has the root flag and the owner flags of `st` updated. */
  method ShowElement(c: Context, ghost st: State, m: Locals, name: Name, attrs: seq<Attr>, ts: seq<Token>)
    returns (emitted: seq<Token>, ok: bool, m': Locals, rest: seq<Token>, ghost fields': seq<FieldText>)
    requires Shown(c, st, name)
    requires StateOf(m, st.fields) == Inside(st, name) && Describe(m.notes, st.fields)
    ensures Describe(m'.notes, fields') && |rest| <= |ts|
    ensures OnStart(c, st, name, attrs, ts)
         == if ok then Emit(emitted, Run(c, StateOf(m', fields'), rest)) else Outcome(emitted, Failed)
  {
    var kept := FilterAttributes(c, attrs);
    emitted, ok, m', rest, fields' := [Start(name, kept)], false, m, ts, st.fields;
    var rule := c.rule(m.stack + [name.local]);
    if rule == Some(Identity) {
      IdentityStep(c, st, name, attrs, ts);
      var skipped := SkipElement(ts);
      if skipped.None? { return; }
      rest, ok := skipped.value, true;
      emitted := emitted + IdentityFields(c.bucket) + [End(name)];
    } else if rule.Some? {
      emitted, ok, m', rest, fields' := ShowField(c, st, m, rule.value.transform, name, kept, ts, attrs);
    } else {
      m', ok := m.(stack := m.stack + [name.local]), true;
    }
  }

  method OpenElement(c: Context, m: Locals, ghost fields: seq<FieldText>, name: Name, attrs: seq<Attr>, ts: seq<Token>)
    returns (emitted: seq<Token>, ok: bool, m': Locals, rest: seq<Token>, ghost fields': seq<FieldText>)
    requires Describe(m.notes, fields)
    ensures Describe(m'.notes, fields') && |rest| <= |ts|
    ensures OnStart(c, StateOf(m, fields), name, attrs, ts)
         == if ok then Emit(emitted, Run(c, StateOf(m', fields'), rest)) else Outcome(emitted, Failed)
  {
    emitted, ok, m', rest, fields' := [], false, m.(seenRoot := true), ts, fields;
    if m.seenRoot && m.stack == [] { return; }
    if name.space != "" && name.space != S3_NAMESPACE { return; }
    if !m.seenRoot && name.local != c.root { return; }
    var path := m.stack + [name.local];
    if !c.known(path) {
      if m.stack != [] && c.known(m.stack) && !c.container(m.stack) { return; }
      var skipped := SkipElement(ts);
      if skipped.None? { return; }
      rest, ok := skipped.value, true;
      EmitNone(Run(c, StateOf(m', fields), rest));
      return;
    }
    if path == CONTENTS {
      m' := m'.(owners := m.owners + [false]);
    } else if path == OWNER && |m.owners| > 0 {
      m' := m'.(owners := m.owners[|m.owners| - 1 := true]);
    }
    emitted, ok, m', rest, fields' := ShowElement(c, StateOf(m, fields), m', name, attrs, ts);
  }

  method CloseElement(c: Context, m: Locals, ghost fields: seq<FieldText>, name: Name, ghost ts: seq<Token>)
    returns (ok: bool, m': Locals)
    ensures m'.notes == m.notes
    ensures ok ==> Run(c, StateOf(m, fields), [End(name)] + ts) == Emit([End(name)], Run(c, StateOf(m', fields), ts))
    ensures var o := Run(c, StateOf(m, fields), [End(name)] + ts); !ok ==> o.out == [] && !o.end.Done?
  {
    ghost var all := [End(name)] + ts;
    assert all[0] == End(name) && all[1..] == ts;
    ok, m' := false, m;
    if m.stack == [] { return; }
    if m.stack == CONTENTS {
      if |m.owners| == 0 { return; }
      var ownerSeen := m.owners[|m.owners| - 1];
      m' := m'.(owners := m.owners[..|m.owners| - 1]);
      if c.fetchOwner && !ownerSeen { return; }
    }
    m', ok := m'.(stack := m.stack[..|m.stack| - 1]), true;
  }

  /**
   The rewriter: its output is the machine's, and it reports success exactly when the
   machine accepts.
   */
  method RewriteNamespaceXml(c: Context, ts: seq<Token>) returns (out: seq<Token>, ok: bool)
    ensures out == Run(c, START, ts).out
    ensures ok <==> Accepts(c, Run(c, START, ts).end)
  {
    out := [];
    var m, rest := Locals([], false, [], Notes({}, None, None, None, false, false)), ts;
    ghost var fields: seq<FieldText> := [];
    EmitNone(Run(c, START, ts));
    while rest != []
      invariant Run(c, START, ts) == Emit(out, Run(c, StateOf(m, fields), rest))
      invariant Describe(m.notes, fields)
      decreases |rest|
    {
      var token := rest[0];
      assert rest == [token] + rest[1..];
      rest := rest[1..];
      match token
      case Start(name, attrs) =>
        ghost var before := out;
        var emitted, fine, m', more, fields' := OpenElement(c, m, fields, name, attrs, rest);
        out := out + emitted;
        if !fine { ok := false; return; }
        m, rest, fields := m', more, fields';
        EmitEmit(before, emitted, Run(c, StateOf(m, fields), rest));
      case End(name) =>
        var fine, m' := CloseElement(c, m, fields, name, rest);
        if !fine { ok := false; return; }
        m := m';
        EmitEmit(out, [End(name)], Run(c, StateOf(m, fields), rest));
        out := out + [End(name)];
      case CharData(text) =>
        if !Blank(text) && (!c.known(m.stack) || c.container(m.stack)) { ok := false; return; }
        EmitEmit(out, [CharData(text)], Run(c, StateOf(m, fields), rest));
        out := out + [CharData(text)];
      case Other =>
    }
    if !m.seenRoot || m.stack != [] { ok := false; return; }
    ok := CheckComplete(c, m.notes, fields);
  }
}
