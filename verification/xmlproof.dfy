/** The token machine computes the ideal document, or stops on a prefix of it. */
module XmlProof {
  import opened Common
  import opened Text
  import opened Xml

  // ------------------------------------------------------ skipping and reading

  lemma FiveParts(x: Token, a: seq<Token>, y: Token, b: seq<Token>, c: seq<Token>)
    ensures ([x] + a + [y] + b) + c == [x] + (a + ([y] + (b + c)))
  {
  }

  lemma AfterFirst(x: Token, a: seq<Token>)
    ensures ([x] + a)[0] == x && ([x] + a)[1..] == a
  {
  }

  /** The tokens of an element and what follows it, cut at its start and end tags. */
  lemma ElementTokens(f: Forest, rest: seq<Token>)
    requires f.Elem?
    ensures var ts, tail := Tokens(f) + rest, [End(f.name)] + (Tokens(f.rest) + rest);
      && ts != [] && ts[0] == Start(f.name, f.attrs)
      && ts[1..] == Tokens(f.inside) + tail && tail[1..] == Tokens(f.rest) + rest
  {
    var start, after := Start(f.name, f.attrs), Tokens(f.rest) + rest;
    FiveParts(start, Tokens(f.inside), End(f.name), Tokens(f.rest), rest);
    AfterFirst(start, Tokens(f.inside) + ([End(f.name)] + after));
    AfterFirst(End(f.name), after);
  }

  lemma SkipElementOver(f: Forest, rest: seq<Token>, depth: nat)
    requires f.Elem?
    requires var tail := [End(f.name)] + (Tokens(f.rest) + rest);
      Skip(Tokens(f.inside) + tail, depth + 1) == Skip(tail, depth + 1)
    ensures Skip(Tokens(f) + rest, depth) == Skip(Tokens(f.rest) + rest, depth)
  {
    ElementTokens(f, rest);
  }

  lemma {:induction false} SkipOver(f: Forest, rest: seq<Token>, depth: nat)
    ensures Skip(Tokens(f) + rest, depth) == Skip(rest, depth)
  {
    match f
    case Nil => assert Tokens(f) + rest == rest;
    case Elem(name, attrs, inside, more) =>
      SkipOver(inside, [End(name)] + (Tokens(more) + rest), depth + 1);
      SkipElementOver(f, rest, depth);
      SkipOver(more, rest, depth);
    case Chars(_, more) =>
      assert (Tokens(f) + rest)[1..] == Tokens(more) + rest;
      SkipOver(more, rest, depth);
    case Misc(more) =>
      assert (Tokens(f) + rest)[1..] == Tokens(more) + rest;
      SkipOver(more, rest, depth);
  }

  lemma SkipElement(inside: Forest, name: Name, rest: seq<Token>)
    ensures Skip(Tokens(inside) + ([End(name)] + rest), 0) == Some(rest)
  {
    SkipOver(inside, [End(name)] + rest, 0);
    assert ([End(name)] + rest)[1..] == rest;
  }

  lemma {:induction false} ReadOver(f: Forest, name: Name, limit: nat, text: string, rest: seq<Token>)
    requires |text| <= limit
    ensures ReadText(Tokens(f) + ([End(name)] + rest), name, limit, text)
         == if HasElem(f) || |text + PlainText(f)| > limit then None else Some((text + PlainText(f), rest))
    decreases f
  {
    var ts := Tokens(f) + ([End(name)] + rest);
    match f
    case Nil =>
      assert ts == [End(name)] + rest && ts[1..] == rest;
      assert text + PlainText(f) == text;
    case Elem(_, _, _, _) =>
    case Chars(t, more) =>
      assert ts[1..] == Tokens(more) + ([End(name)] + rest);
      assert text + PlainText(f) == (text + t) + PlainText(more);
      if |text| + |t| <= limit {
        ReadOver(more, name, limit, text + t, rest);
      }
    case Misc(more) =>
      assert ts[1..] == Tokens(more) + ([End(name)] + rest);
      ReadOver(more, name, limit, text, rest);
  }

  // -------------------------------------------------------------- refinement

  /** The state after a valid forest below `st.stack`. */
  function Passed(c: Context, st: State, f: Forest): State {
    State(st.stack, st.seenRoot || HasElem(f),
          if st.stack == CONTENTS && st.owners != [] && c.known(OWNER) && HasChild(f, st.stack, OWNER)
          then st.owners[|st.owners| - 1 := true] else st.owners,
          st.fields + Fields(c, st.stack, f))
  }

  /** What is known of a state between two siblings. */
  ghost predicate Steady(c: Context, st: State) {
    && (st.stack != [] ==> st.seenRoot)
    && (st.stack == CONTENTS ==> st.owners != [])
    && Sane(c)
  }

  /** True of every response profile: its root is known and object entries carry no rule. */
  ghost predicate Sane(c: Context) {
    c.known([c.root]) && c.rule(CONTENTS).None?
  }

  /** The machine does what the forest says: pass it, emitting its ideal, or stop inside it. */
  ghost predicate Follows(c: Context, st: State, f: Forest, rest: seq<Token>) {
    var o, shown := Run(c, st, Tokens(f) + rest), Tokens(Ideal(c, st.stack, f));
    if Valid(c, st.stack, st.seenRoot, f)
    then o == Emit(shown, Run(c, Passed(c, st, f), rest))
    else o.end == Failed && o.out <= shown
  }

  lemma EmitNone(o: Outcome)
    ensures Emit([], o) == o
  {
  }

  lemma EmitEmit(a: seq<Token>, b: seq<Token>, o: Outcome)
    ensures Emit(a, Emit(b, o)) == Emit(a + b, o)
  {
  }

  /** An element whose first step emits `head`, moves to `next` and continues with the siblings. */
  lemma ThenSiblings(c: Context, st: State, f: Forest, rest: seq<Token>, head: seq<Token>, next: State)
    requires f.Elem? && next.stack == st.stack
    requires Run(c, st, Tokens(f) + rest) == Emit(head, Run(c, next, Tokens(f.rest) + rest))
    requires Tokens(Ideal(c, st.stack, f)) == head + Tokens(Ideal(c, st.stack, f.rest))
    requires Valid(c, st.stack, st.seenRoot, f) == Valid(c, st.stack, next.seenRoot, f.rest)
    requires Passed(c, next, f.rest) == Passed(c, st, f)
    requires Follows(c, next, f.rest, rest)
    ensures Follows(c, st, f, rest)
  {
  }

  ghost function Entered(c: Context, st: State, f: Forest): State
    requires f.Elem?
  {
    st.(seenRoot := true, owners := Track(st.owners, st.stack + [f.name.local]))
  }

  lemma RefusedElement(c: Context, st: State, f: Forest, rest: seq<Token>)
    requires Steady(c, st) && f.Elem? && Refused(c, st, f.name)
    ensures Follows(c, st, f, rest)
  {
  }

  lemma UnknownRun(c: Context, st: State, f: Forest, rest: seq<Token>)
    requires f.Elem? && !Refused(c, st, f.name) && !c.known(st.stack + [f.name.local])
    ensures Run(c, st, Tokens(f) + rest) == Run(c, st.(seenRoot := true), Tokens(f.rest) + rest)
  {
    ElementTokens(f, rest);
    SkipElement(f.inside, f.name, Tokens(f.rest) + rest);
  }

  lemma UnknownPass(c: Context, st: State, f: Forest)
    requires Steady(c, st) && f.Elem? && !c.known(st.stack + [f.name.local])
    ensures Passed(c, st.(seenRoot := true), f.rest) == Passed(c, st, f)
  {
    assert [] + Fields(c, st.stack, f.rest) == Fields(c, st.stack, f);
  }

  lemma UnknownElement(c: Context, st: State, f: Forest, rest: seq<Token>)
    requires Steady(c, st) && f.Elem? && !Refused(c, st, f.name) && !c.known(st.stack + [f.name.local])
    requires Follows(c, st.(seenRoot := true), f.rest, rest)
    ensures Follows(c, st, f, rest)
  {
    var next := st.(seenRoot := true);
    UnknownRun(c, st, f, rest);
    UnknownPass(c, st, f);
    EmitNone(Run(c, next, Tokens(f.rest) + rest));
    ThenSiblings(c, st, f, rest, [], next);
  }

  lemma OwnerPath(stack: Path, x: string)
    ensures stack + [x] == OWNER <==> stack == CONTENTS && x == "Owner"
  {
    if stack + [x] == OWNER {
      assert stack == (stack + [x])[..2];
      assert x == (stack + [x])[2];
    }
  }

  /** Owner tracking across a ruled element and its siblings. */
  lemma OwnersPass(c: Context, st: State, f: Forest, next: State)
    requires f.Elem? && c.known(st.stack + [f.name.local]) && st.stack + [f.name.local] != CONTENTS
    requires next == Entered(c, st, f).(fields := next.fields)
    requires next.fields + Fields(c, st.stack, f.rest) == st.fields + Fields(c, st.stack, f)
    ensures Passed(c, next, f.rest) == Passed(c, st, f)
  {
    OwnerPath(st.stack, f.name.local);
  }

  lemma IdentityTokens(bucket: string)
    ensures Tokens(IdentityForest(bucket)) == IdentityFields(bucket)
  {
    var id, display := Name("", "ID"), Name("", "DisplayName");
    assert Tokens(Chars(bucket, Nil)) == [CharData(bucket)];
    var second := Elem(display, [], Chars(bucket, Nil), Nil);
    assert Tokens(second) == [Start(display, []), CharData(bucket), End(display)];
    assert Tokens(IdentityForest(bucket))
        == [Start(id, [])] + [CharData(bucket)] + [End(id)] + Tokens(second);
  }

  lemma IdentityElement(c: Context, st: State, f: Forest, rest: seq<Token>)
    requires Steady(c, st) && f.Elem? && !Refused(c, st, f.name) && c.known(st.stack + [f.name.local])
    requires c.rule(st.stack + [f.name.local]) == Some(Identity)
    requires Follows(c, Entered(c, st, f), f.rest, rest)
    ensures Follows(c, st, f, rest)
  {
    ElementTokens(f, rest);
    SkipElement(f.inside, f.name, Tokens(f.rest) + rest);
    var head := [Start(f.name, Filter(c, f.attrs))] + IdentityFields(c.bucket) + [End(f.name)];
    IdentityTokens(c.bucket);
    assert Tokens(Ideal(c, st.stack, f)) == head + Tokens(Ideal(c, st.stack, f.rest));
    assert [] + Fields(c, st.stack, f.rest) == Fields(c, st.stack, f);
    OwnersPass(c, st, f, Entered(c, st, f));
    ThenSiblings(c, st, f, rest, head, Entered(c, st, f));
  }

  ghost predicate IsField(c: Context, path: Path) {
    c.rule(path).Some? && c.rule(path).value.Field?
  }

  ghost function ValueOf(c: Context, st: State, f: Forest): Option<string>
    requires f.Elem? && IsField(c, st.stack + [f.name.local])
  {
    var path := st.stack + [f.name.local];
    FieldValue(c, c.rule(path).value.transform, path, f.inside)
  }

  ghost function AfterField(c: Context, st: State, f: Forest, t: string): State
    requires f.Elem?
  {
    Entered(c, st, f).(fields := st.fields + [FieldText(st.stack + [f.name.local], t)])
  }

  lemma FieldRun(c: Context, st: State, f: Forest, rest: seq<Token>)
    requires f.Elem? && !Refused(c, st, f.name) && c.known(st.stack + [f.name.local])
    requires IsField(c, st.stack + [f.name.local])
    ensures var start := [Start(f.name, Filter(c, f.attrs))];
      Run(c, st, Tokens(f) + rest)
      == match ValueOf(c, st, f)
         case None => Outcome(start, Failed)
         case Some(t) =>
           Emit(start + [CharData(t), End(f.name)], Run(c, AfterField(c, st, f, t), Tokens(f.rest) + rest))
  {
    ElementTokens(f, rest);
    ReadOver(f.inside, f.name, c.limit, "", Tokens(f.rest) + rest);
    assert "" + PlainText(f.inside) == PlainText(f.inside);
  }

  lemma FieldIdeal(c: Context, st: State, f: Forest)
    requires f.Elem? && c.known(st.stack + [f.name.local]) && IsField(c, st.stack + [f.name.local])
    ensures [Start(f.name, Filter(c, f.attrs))] <= Tokens(Ideal(c, st.stack, f))
    ensures ValueOf(c, st, f).Some? ==>
      Tokens(Ideal(c, st.stack, f))
      == [Start(f.name, Filter(c, f.attrs))] + [CharData(ValueOf(c, st, f).value), End(f.name)]
         + Tokens(Ideal(c, st.stack, f.rest))
  {
    if ValueOf(c, st, f).Some? {
      var t := ValueOf(c, st, f).value;
      assert Tokens(Chars(t, Nil)) == [CharData(t)];
    }
  }

  lemma FieldPass(c: Context, st: State, f: Forest, t: string)
    requires Steady(c, st) && f.Elem? && c.known(st.stack + [f.name.local]) && IsField(c, st.stack + [f.name.local])
    requires ValueOf(c, st, f) == Some(t)
    ensures Passed(c, AfterField(c, st, f, t), f.rest) == Passed(c, st, f)
  {
    var next := AfterField(c, st, f, t);
    assert next.fields + Fields(c, st.stack, f.rest) == st.fields + Fields(c, st.stack, f);
    OwnersPass(c, st, f, next);
  }

  lemma FieldElement(c: Context, st: State, f: Forest, rest: seq<Token>)
    requires Steady(c, st) && f.Elem? && !Refused(c, st, f.name) && c.known(st.stack + [f.name.local])
    requires IsField(c, st.stack + [f.name.local])
    requires ValueOf(c, st, f).Some? ==> Follows(c, AfterField(c, st, f, ValueOf(c, st, f).value), f.rest, rest)
    ensures Follows(c, st, f, rest)
  {
    FieldRun(c, st, f, rest);
    FieldIdeal(c, st, f);
    match ValueOf(c, st, f) {
      case None => assert !Valid(c, st.stack, st.seenRoot, f);
      case Some(t) =>
        FieldPass(c, st, f, t);
        ThenSiblings(c, st, f, rest, [Start(f.name, Filter(c, f.attrs))] + [CharData(t), End(f.name)],
                     AfterField(c, st, f, t));
    }
  }

  ghost predicate IsContainer(c: Context, st: State, f: Forest) {
    && f.Elem? && !Refused(c, st, f.name)
    && c.known(st.stack + [f.name.local]) && c.rule(st.stack + [f.name.local]).None?
  }

  ghost function Inner(c: Context, st: State, f: Forest): State
    requires f.Elem?
  {
    Entered(c, st, f).(stack := st.stack + [f.name.local])
  }

  ghost predicate OwnerMissing(c: Context, path: Path, inside: Forest) {
    path == CONTENTS && c.fetchOwner && !(c.known(OWNER) && HasChild(inside, path, OWNER))
  }

  ghost function Outer(c: Context, st: State, f: Forest): State
    requires f.Elem?
  {
    var path := st.stack + [f.name.local];
    State(st.stack, true, if path == CONTENTS then st.owners else Track(st.owners, path),
          st.fields + Fields(c, path, f.inside))
  }

  /** Closing a valid element: the missing-owner check, then back to the parent. */
  lemma CloseRun(c: Context, st: State, f: Forest, tail: seq<Token>)
    requires Steady(c, st) && IsContainer(c, st, f)
    ensures var path := st.stack + [f.name.local];
      Run(c, Passed(c, Inner(c, st, f), f.inside), [End(f.name)] + tail)
      == if OwnerMissing(c, path, f.inside) then Outcome([], Failed)
         else Emit([End(f.name)], Run(c, Outer(c, st, f), tail))
  {
  }

  lemma OuterPass(c: Context, st: State, f: Forest)
    requires Steady(c, st) && IsContainer(c, st, f)
    ensures Passed(c, Outer(c, st, f), f.rest) == Passed(c, st, f)
  {
    OwnerPath(st.stack, f.name.local);
    var path := st.stack + [f.name.local];
    assert (st.fields + Fields(c, path, f.inside)) + Fields(c, st.stack, f.rest)
        == st.fields + Fields(c, st.stack, f);
    if path == CONTENTS {
      assert st.stack == path[..1];
      assert |st.stack| == 1;
    }
  }

  ghost function Head(c: Context, st: State, f: Forest): seq<Token>
    requires f.Elem?
  {
    [Start(f.name, Filter(c, f.attrs))] + Tokens(Ideal(c, st.stack + [f.name.local], f.inside)) + [End(f.name)]
  }

  lemma ContainerOpens(c: Context, st: State, f: Forest, rest: seq<Token>)
    requires IsContainer(c, st, f)
    ensures Run(c, st, Tokens(f) + rest)
         == Emit([Start(f.name, Filter(c, f.attrs))],
                 Run(c, Inner(c, st, f), Tokens(f.inside) + ([End(f.name)] + (Tokens(f.rest) + rest))))
    ensures Tokens(Ideal(c, st.stack, f)) == Head(c, st, f) + Tokens(Ideal(c, st.stack, f.rest))
  {
    ElementTokens(f, rest);
  }

  /** A container that stops inside, or at its end tag, has emitted a part of its ideal form. */
  lemma ContainerStops(c: Context, st: State, f: Forest, rest: seq<Token>, o: Outcome)
    requires IsContainer(c, st, f) && !Valid(c, st.stack, st.seenRoot, f)
    requires Run(c, st, Tokens(f) + rest) == Emit([Start(f.name, Filter(c, f.attrs))], o)
    requires Tokens(Ideal(c, st.stack, f)) == Head(c, st, f) + Tokens(Ideal(c, st.stack, f.rest))
    requires o.end == Failed && o.out <= Tokens(Ideal(c, st.stack + [f.name.local], f.inside))
    ensures Follows(c, st, f, rest)
  {
    assert [Start(f.name, Filter(c, f.attrs))] + o.out <= Head(c, st, f);
  }

  lemma ContainerElement(c: Context, st: State, f: Forest, rest: seq<Token>)
    requires Steady(c, st) && IsContainer(c, st, f)
    requires Follows(c, Inner(c, st, f), f.inside, [End(f.name)] + (Tokens(f.rest) + rest))
    requires Follows(c, Outer(c, st, f), f.rest, rest)
    ensures Follows(c, st, f, rest)
  {
    var path, tail := st.stack + [f.name.local], Tokens(f.rest) + rest;
    var start, inner := [Start(f.name, Filter(c, f.attrs))], Tokens(Ideal(c, path, f.inside));
    var o := Run(c, Inner(c, st, f), Tokens(f.inside) + ([End(f.name)] + tail));
    ContainerOpens(c, st, f, rest);
    if !Valid(c, path, true, f.inside) {
      ContainerStops(c, st, f, rest, o);
    } else {
      CloseRun(c, st, f, tail);
      if OwnerMissing(c, path, f.inside) {
        assert inner + [] == inner;
        ContainerStops(c, st, f, rest, o);
      } else {
        EmitEmit(inner, [End(f.name)], Run(c, Outer(c, st, f), tail));
        EmitEmit(start, inner + [End(f.name)], Run(c, Outer(c, st, f), tail));
        assert start + (inner + [End(f.name)]) == Head(c, st, f);
        OuterPass(c, st, f);
        ThenSiblings(c, st, f, rest, Head(c, st, f), Outer(c, st, f));
      }
    }
  }

  lemma TextNode(c: Context, st: State, f: Forest, rest: seq<Token>)
    requires Steady(c, st) && f.Chars? && Follows(c, st, f.rest, rest)
    ensures Follows(c, st, f, rest)
  {
    var ts := Tokens(f) + rest;
    assert ts[0] == CharData(f.text) && ts[1..] == Tokens(f.rest) + rest;
    if Valid(c, st.stack, st.seenRoot, f) {
      EmitEmit([CharData(f.text)], Tokens(Ideal(c, st.stack, f.rest)), Run(c, Passed(c, st, f), rest));
    }
  }

  /** Main induction: the machine follows every forest, from every steady state. */
  lemma {:induction false} MachineFollows(c: Context, st: State, f: Forest, rest: seq<Token>)
    requires Steady(c, st)
    ensures Follows(c, st, f, rest)
    decreases f
  {
    match f
    case Nil =>
      assert Tokens(f) + rest == rest;
      assert st.fields + Fields(c, st.stack, f) == st.fields;
      EmitNone(Run(c, st, rest));
    case Chars(_, more) =>
      MachineFollows(c, st, more, rest);
      TextNode(c, st, f, rest);
    case Misc(more) =>
      MachineFollows(c, st, more, rest);
      assert (Tokens(f) + rest)[1..] == Tokens(more) + rest;
    case Elem(name, attrs, inside, more) =>
      var path := st.stack + [name.local];
      if Refused(c, st, name) {
        RefusedElement(c, st, f, rest);
      } else if !c.known(path) {
        MachineFollows(c, st.(seenRoot := true), more, rest);
        UnknownElement(c, st, f, rest);
      } else if c.rule(path) == Some(Identity) {
        MachineFollows(c, Entered(c, st, f), more, rest);
        IdentityElement(c, st, f, rest);
      } else if IsField(c, path) {
        if ValueOf(c, st, f).Some? {
          MachineFollows(c, AfterField(c, st, f, ValueOf(c, st, f).value), more, rest);
        }
        FieldElement(c, st, f, rest);
      } else {
        MachineFollows(c, Inner(c, st, f), inside, [End(name)] + (Tokens(more) + rest));
        MachineFollows(c, Outer(c, st, f), more, rest);
        ContainerElement(c, st, f, rest);
      }
  }

  /**
   Main result: on the token stream of any document the machine accepts exactly the valid
   ones, then having emitted the ideal document; otherwise what it emitted is a prefix of
   the ideal document.
   */
  lemma RefinesTreeTransform(c: Context, f: Forest)
    requires Sane(c)
    ensures var o, shown := Run(c, START, Tokens(f)), Tokens(Ideal(c, [], f));
      && (Accepts(c, o.end) <==> ValidDocument(c, f))
      && (Accepts(c, o.end) ==> o.out == shown)
      && o.out <= shown
  {
    MachineFollows(c, START, f, []);
    assert Tokens(f) + [] == Tokens(f);
    assert [] + Fields(c, [], f) == Fields(c, [], f);
    var o := Run(c, START, Tokens(f));
    if Valid(c, [], false, f) {
      assert o == Emit(Tokens(Ideal(c, [], f)), Outcome([], Done(Passed(c, START, f))));
      assert Tokens(Ideal(c, [], f)) + [] == Tokens(Ideal(c, [], f));
    }
  }

  // ------------------------------------------------------ interrupted streams

  lemma {:induction false} SkipMore(a: seq<Token>, b: seq<Token>, depth: nat)
    requires Skip(a, depth).Some?
    ensures Skip(a + b, depth) == Some(Skip(a, depth).value + b)
    decreases |a|
  {
    assert (a + b)[1..] == a[1..] + b;
    match a[0]
    case Start(_, _) => SkipMore(a[1..], b, depth + 1);
    case End(_) => if depth > 0 { SkipMore(a[1..], b, depth - 1); }
    case _ => SkipMore(a[1..], b, depth);
  }

  lemma {:induction false} ReadMore(a: seq<Token>, b: seq<Token>, name: Name, limit: nat, text: string)
    requires ReadText(a, name, limit, text).Some?
    ensures var (t, rest) := ReadText(a, name, limit, text).value;
            ReadText(a + b, name, limit, text) == Some((t, rest + b))
    decreases |a|
  {
    assert (a + b)[1..] == a[1..] + b;
    match a[0]
    case CharData(t) => ReadMore(a[1..], b, name, limit, text + t);
    case Other => ReadMore(a[1..], b, name, limit, text);
    case End(_) =>
  }

  /** The machine's output on a cut stream is a prefix of its output on the whole stream. */
  lemma {:induction false} CutStream(c: Context, st: State, a: seq<Token>, b: seq<Token>)
    ensures Run(c, st, a).out <= Run(c, st, a + b).out
    decreases |a|
  {
    if a != [] {
      assert (a + b)[0] == a[0] && (a + b)[1..] == a[1..] + b;
      match a[0] {
        case Start(name, attrs) => CutStart(c, st, name, attrs, a[1..], b);
        case End(name) =>
          if st.stack != [] && !(st.stack == CONTENTS && st.owners == []) {
            CutStream(c, Closed(st), a[1..], b);
          }
        case CharData(_) => CutStream(c, st, a[1..], b);
        case Other => CutStream(c, st, a[1..], b);
      }
    }
  }

  lemma CutStart(c: Context, st: State, name: Name, attrs: seq<Attr>, a: seq<Token>, b: seq<Token>)
    ensures OnStart(c, st, name, attrs, a).out <= OnStart(c, st, name, attrs, a + b).out
    decreases |a| + 1, 0
  {
    var path := st.stack + [name.local];
    if !Refused(c, st, name) {
      var entered := st.(seenRoot := true, owners := Track(st.owners, path));
      if !c.known(path) {
        if Skip(a, 0).Some? {
          SkipMore(a, b, 0);
          CutStream(c, st.(seenRoot := true), Skip(a, 0).value, b);
        }
      } else if c.rule(path) == Some(Identity) {
        if Skip(a, 0).Some? {
          SkipMore(a, b, 0);
          CutStream(c, entered, Skip(a, 0).value, b);
        }
      } else if IsField(c, path) {
        if ReadText(a, name, c.limit, "").Some? {
          ReadMore(a, b, name, c.limit, "");
          var (text, rest) := ReadText(a, name, c.limit, "").value;
          var t := c.apply(c.rule(path).value.transform, path, text);
          if t.Some? {
            CutStream(c, entered.(fields := st.fields + [FieldText(path, t.value)]), rest, b);
          }
        }
      } else {
        CutStream(c, entered.(stack := path), a, b);
      }
    }
  }

  /** However early a document's stream is cut, the client saw only a prefix of the ideal document. */
  lemma CutDocument(c: Context, f: Forest, n: nat)
    requires Sane(c) && n <= |Tokens(f)|
    ensures Run(c, START, Tokens(f)[..n]).out <= Tokens(Ideal(c, [], f))
  {
    CutStream(c, START, Tokens(f)[..n], Tokens(f)[n..]);
    assert Tokens(f)[..n] + Tokens(f)[n..] == Tokens(f);
    RefinesTreeTransform(c, f);
  }

  // --------------------------------------------------------- what can be shown

  /**
   Only known elements and kept attributes, only transformed text under ruled fields, only the
   virtual identity in identity containers, and elsewhere only text the schema allows there.
   */
  ghost predicate Virtual(c: Context, stack: Path, out: Forest)
    decreases out
  {
    match out
    case Nil => true
    case Chars(text, rest) => Allowed(c, stack, text) && Virtual(c, stack, rest)
    case Misc(_) => false
    case Elem(name, attrs, inside, rest) =>
      var path := stack + [name.local];
      && c.known(path)
      && (forall a :: a in attrs ==> c.keep(a))
      && (match c.rule(path)
          case Some(Identity) => inside == IdentityForest(c.bucket)
          case Some(Field(transform, _)) =>
            inside == Nil
            || exists raw, shown :: c.apply(transform, path, raw) == Some(shown) && inside == Chars(shown, Nil)
          case None => Virtual(c, path, inside))
      && Virtual(c, stack, rest)
  }

  lemma {:induction false} FilterKeeps(c: Context, attrs: seq<Attr>)
    ensures forall a :: a in Filter(c, attrs) ==> c.keep(a)
  {
    if attrs != [] {
      FilterKeeps(c, attrs[1..]);
    }
  }

  /** The ideal document shows no untransformed namespace text. */
  lemma {:induction false} IdealIsVirtual(c: Context, stack: Path, f: Forest)
    ensures Virtual(c, stack, Ideal(c, stack, f))
    decreases f
  {
    match f
    case Nil =>
    case Chars(_, rest) => IdealIsVirtual(c, stack, rest);
    case Misc(rest) => IdealIsVirtual(c, stack, rest);
    case Elem(name, attrs, inside, rest) =>
      var path := stack + [name.local];
      IdealIsVirtual(c, stack, rest);
      IdealIsVirtual(c, path, inside);
      FilterKeeps(c, attrs);
      if IsField(c, path) {
        var v := FieldValue(c, c.rule(path).value.transform, path, inside);
        if v.Some? {
          assert c.apply(c.rule(path).value.transform, path, PlainText(inside)) == Some(v.value);
        }
      }
  }

  // ---------------------------------------------------- owner tracking is sound

  /** Inside an object entry, and only there, one owner flag is tracked. */
  ghost predicate Tracked(st: State) {
    |st.owners| == if CONTENTS <= st.stack then 1 else 0
  }

  lemma TrackedInside(stack: Path, x: string)
    ensures CONTENTS <= stack + [x] <==> CONTENTS <= stack || stack + [x] == CONTENTS
    ensures stack + [x] == CONTENTS ==> !(CONTENTS <= stack)
  {
  }

  lemma TrackedClosed(st: State)
    requires Tracked(st) && st.stack != [] && (st.stack == CONTENTS ==> st.owners != [])
    ensures Tracked(Closed(st))
  {
  }

  lemma TrackedContents(st: State)
    requires Tracked(st) && st.stack == CONTENTS
    ensures st.owners != []
  {
  }

  /** The owner-tracking error is unreachable, on every token stream. */
  lemma {:induction false} OwnerStateNeverBad(c: Context, st: State, ts: seq<Token>)
    requires Sane(c) && Tracked(st)
    ensures Run(c, st, ts).end != BadOwnerState
    decreases |ts|
  {
    if ts != [] {
      match ts[0] {
        case Start(name, attrs) => OwnerStateAtStart(c, st, name, attrs, ts[1..]);
        case End(name) =>
          if st.stack == CONTENTS { TrackedContents(st); }
          if st.stack != [] {
            TrackedClosed(st);
            OwnerStateNeverBad(c, Closed(st), ts[1..]);
          }
        case CharData(_) => OwnerStateNeverBad(c, st, ts[1..]);
        case Other => OwnerStateNeverBad(c, st, ts[1..]);
      }
    }
  }

  lemma OwnerStateAtStart(c: Context, st: State, name: Name, attrs: seq<Attr>, ts: seq<Token>)
    requires Sane(c) && Tracked(st)
    ensures OnStart(c, st, name, attrs, ts).end != BadOwnerState
    decreases |ts| + 1, 0
  {
    var path := st.stack + [name.local];
    TrackedInside(st.stack, name.local);
    if !Refused(c, st, name) {
      var entered := st.(seenRoot := true, owners := Track(st.owners, path));
      if !c.known(path) {
        if Skip(ts, 0).Some? { OwnerStateNeverBad(c, st.(seenRoot := true), Skip(ts, 0).value); }
      } else if c.rule(path) == Some(Identity) {
        if Skip(ts, 0).Some? { OwnerStateNeverBad(c, entered, Skip(ts, 0).value); }
      } else if IsField(c, path) {
        if ReadText(ts, name, c.limit, "").Some? {
          var (text, rest) := ReadText(ts, name, c.limit, "").value;
          var t := c.apply(c.rule(path).value.transform, path, text);
          if t.Some? {
            OwnerStateNeverBad(c, entered.(fields := st.fields + [FieldText(path, t.value)]), rest);
          }
        }
      } else {
        OwnerStateNeverBad(c, entered.(stack := path), ts);
      }
    }
  }
}
