/** Glob patterns compiled to regular expressions, as iam/policy.go does.  A string is a sequence of runes here. */
module Wildcard {
  import opened Common

  // ------------------------------------------------------------ the compiler

  predicate Meta(c: char) {
    c in "\\.+*?()|[]{}^$"
  }

  /** regexp.QuoteMeta of one rune. */
  function Quoted(c: char): string {
    if Meta(c) then ['\\', c] else [c]
  }

  function Emit(c: char): string {
    if c == '*' then ".*" else if c == '?' then "." else Quoted(c)
  }

  function ToRegex(pattern: string): string {
    if pattern == "" then "" else Emit(pattern[0]) + ToRegex(pattern[1..])
  }

  lemma {:induction false} ToRegexAppend(a: string, b: string)
    ensures ToRegex(a + b) == ToRegex(a) + ToRegex(b)
  {
    if a == "" {
      assert a + b == b;
    } else {
      assert (a + b)[1..] == a[1..] + b;
      ToRegexAppend(a[1..], b);
    }
  }

  method WildcardToRegex(pattern: string) returns (b: string)
    ensures b == ToRegex(pattern)
  {
    b := "";
    for i := 0 to |pattern|
      invariant b == ToRegex(pattern[..i])
    {
      assert pattern[..i + 1] == pattern[..i] + [pattern[i]];
      ToRegexAppend(pattern[..i], [pattern[i]]);
      assert ToRegex([pattern[i]]) == Emit(pattern[i]);
      match pattern[i] {
        case '*' => b := b + ".*";
        case '?' => b := b + ".";
        case c => b := b + Quoted(c);
      }
    }
    assert pattern[..|pattern|] == pattern;
  }

  // ------------------------------- the regular expressions the compiler emits

  datatype Class = Just(c: char) | NotNewline

  datatype Atom = Once(class_: Class) | Many(class_: Class)

  predicate Accepts(k: Class, c: char) {
    match k
    case Just(d) => c == d
    case NotNewline => c != '\n'
  }

  /** One class at the front of a regular expression, and what follows it. */
  function ReadClass(re: string): Option<(Class, string)> {
    if re == "" then None
    else if re[0] == '\\' then if |re| > 1 && Meta(re[1]) then Some((Just(re[1]), re[2..])) else None
    else if re[0] == '.' then Some((NotNewline, re[1..]))
    else if Meta(re[0]) then None
    else Some((Just(re[0]), re[1..]))
  }

  /** Reads a sequence of classes, each possibly starred; anything else is not in the fragment. */
  function Read(re: string): Option<seq<Atom>>
    decreases |re|
  {
    if re == "" then Some([])
    else
      match ReadClass(re)
      case None => None
      case Some((k, rest)) =>
        var starred := rest != "" && rest[0] == '*';
        match Read(if starred then rest[1..] else rest)
        case None => None
        case Some(atoms) => Some([if starred then Many(k) else Once(k)] + atoms)
  }

  /** Whole-string matching of a read expression, as between ^ and $. */
  predicate Match(atoms: seq<Atom>, s: string)
    decreases |atoms|, |s|
  {
    if atoms == [] then s == ""
    else match atoms[0]
      case Once(k) => s != "" && Accepts(k, s[0]) && Match(atoms[1..], s[1..])
      case Many(k) => Match(atoms[1..], s) || (s != "" && Accepts(k, s[0]) && Match(atoms, s[1..]))
  }

  predicate RegexMatches(re: string, s: string) {
    Read(re).Some? && Match(Read(re).value, s)
  }

  // ------------------------------------------------------------ what a glob is

  ghost predicate Piece(c: char, s: string) {
    if c == '*' then '\n' !in s
    else if c == '?' then |s| == 1 && s[0] != '\n'
    else s == [c]
  }

  function Concat(parts: seq<string>): string {
    if parts == [] then "" else parts[0] + Concat(parts[1..])
  }

  ghost predicate Fits(pattern: string, parts: seq<string>, s: string) {
    && |parts| == |pattern| && Concat(parts) == s
    && forall i :: 0 <= i < |pattern| ==> Piece(pattern[i], parts[i])
  }

  /** A glob matches when the string splits into one piece for each pattern character. */
  ghost predicate Glob(pattern: string, s: string) {
    exists parts :: Fits(pattern, parts, s)
  }

  // ---------------------------------------------------------- they are the same

  function AtomFor(c: char): Atom {
    if c == '*' then Many(NotNewline) else if c == '?' then Once(NotNewline) else Once(Just(c))
  }

  function Atoms(pattern: string): seq<Atom> {
    if pattern == "" then [] else [AtomFor(pattern[0])] + Atoms(pattern[1..])
  }

  lemma NoStar(pattern: string)
    ensures ToRegex(pattern) != "" ==> ToRegex(pattern)[0] != '*'
  {
  }

  /** The emitted text reads back as exactly one atom for each pattern character. */
  lemma {:induction false} EmittedReadsBack(pattern: string)
    ensures Read(ToRegex(pattern)) == Some(Atoms(pattern))
  {
    if pattern != "" {
      var c, rest := pattern[0], ToRegex(pattern[1..]);
      EmittedReadsBack(pattern[1..]);
      NoStar(pattern[1..]);
      var re := Emit(c) + rest;
      if c == '*' {
        assert re[0] == '.' && re[1..] == "*" + rest && re[1..][1..] == rest;
      } else if Meta(c) && c != '?' {
        assert re[0] == '\\' && re[1] == c && re[2..] == rest;
      } else {
        assert re[1..] == rest;
      }
    }
  }

  lemma FitsCons(pattern: string, parts: seq<string>, s: string)
    requires pattern != "" && parts != []
    ensures Fits(pattern, parts, parts[0] + s) <==> Piece(pattern[0], parts[0]) && Fits(pattern[1..], parts[1..], s)
  {
    if Piece(pattern[0], parts[0]) && Fits(pattern[1..], parts[1..], s) {
      forall i | 0 <= i < |pattern| ensures Piece(pattern[i], parts[i]) {
        if i > 0 { assert Piece(pattern[1..][i - 1], parts[1..][i - 1]); }
      }
    }
    if Fits(pattern, parts, parts[0] + s) {
      assert (parts[0] + Concat(parts[1..]))[|parts[0]|..] == Concat(parts[1..]);
      assert (parts[0] + s)[|parts[0]|..] == s;
      forall i | 0 <= i < |pattern| - 1 ensures Piece(pattern[1..][i], parts[1..][i]) {
        assert Piece(pattern[i + 1], parts[i + 1]);
      }
    }
  }

  lemma GlobCons(pattern: string, piece: string, s: string)
    requires pattern != "" && Piece(pattern[0], piece) && Glob(pattern[1..], s)
    ensures Glob(pattern, piece + s)
  {
    var parts :| Fits(pattern[1..], parts, s);
    var all := [piece] + parts;
    assert all[1..] == parts;
    FitsCons(pattern, all, s);
    assert Fits(pattern, all, piece + s);
  }

  lemma GlobUncons(pattern: string, s: string) returns (piece: string, rest: string)
    requires pattern != "" && Glob(pattern, s)
    ensures s == piece + rest && Piece(pattern[0], piece) && Glob(pattern[1..], rest)
  {
    var parts :| Fits(pattern, parts, s);
    piece, rest := parts[0], Concat(parts[1..]);
    FitsCons(pattern, parts, rest);
    assert Fits(pattern[1..], parts[1..], rest);
  }

  lemma {:induction false} MatchIsGlob(pattern: string, s: string)
    requires Match(Atoms(pattern), s)
    ensures Glob(pattern, s)
    decreases |pattern|, |s|
  {
    if pattern == "" {
      assert Fits(pattern, [], s);
    } else {
      var c := pattern[0];
      assert Atoms(pattern)[1..] == Atoms(pattern[1..]);
      if c != '*' {
        MatchIsGlob(pattern[1..], s[1..]);
        GlobCons(pattern, [s[0]], s[1..]);
        assert [s[0]] + s[1..] == s;
      } else if Match(Atoms(pattern[1..]), s) {
        MatchIsGlob(pattern[1..], s);
        GlobCons(pattern, "", s);
        assert "" + s == s;
      } else {
        MatchIsGlob(pattern, s[1..]);
        var piece, rest := GlobUncons(pattern, s[1..]);
        GlobCons(pattern, [s[0]] + piece, rest);
        assert ([s[0]] + piece) + rest == s;
      }
    }
  }

  lemma {:induction false} StarAbsorbs(atoms: seq<Atom>, piece: string, s: string)
    requires atoms != [] && atoms[0] == Many(NotNewline) && '\n' !in piece && Match(atoms[1..], s)
    ensures Match(atoms, piece + s)
    decreases |piece|
  {
    if piece == "" {
      assert piece + s == s;
    } else {
      assert (piece + s)[0] == piece[0] && (piece + s)[1..] == piece[1..] + s;
      StarAbsorbs(atoms, piece[1..], s);
    }
  }

  lemma {:induction false} GlobIsMatch(pattern: string, s: string)
    requires Glob(pattern, s)
    ensures Match(Atoms(pattern), s)
    decreases |pattern|
  {
    if pattern == "" {
      var parts :| Fits(pattern, parts, s);
    } else {
      var piece, rest := GlobUncons(pattern, s);
      GlobIsMatch(pattern[1..], rest);
      assert Atoms(pattern)[1..] == Atoms(pattern[1..]);
      if pattern[0] == '*' {
        StarAbsorbs(Atoms(pattern), piece, rest);
      } else {
        assert s[0] == piece[0] && s[1..] == rest;
      }
    }
  }

  /** The emitted regular expression denotes the glob, for every pattern and string. */
  lemma RegexDenotesGlob(pattern: string, s: string)
    ensures RegexMatches(ToRegex(pattern), s) <==> Glob(pattern, s)
  {
    EmittedReadsBack(pattern);
    if Match(Atoms(pattern), s) { MatchIsGlob(pattern, s); }
    if Glob(pattern, s) { GlobIsMatch(pattern, s); }
  }

  /** A pattern without wildcards matches itself alone. */
  lemma {:induction false} LiteralMatchesItself(pattern: string, s: string)
    requires '*' !in pattern && '?' !in pattern
    ensures Glob(pattern, s) <==> s == pattern
    decreases |pattern|
  {
    if pattern == "" {
      assert Fits("", [], "");
      if Glob(pattern, s) { var parts :| Fits(pattern, parts, s); }
    } else {
      if Glob(pattern, s) {
        var piece, rest := GlobUncons(pattern, s);
        LiteralMatchesItself(pattern[1..], rest);
        assert s == [pattern[0]] + pattern[1..];
      }
      if s == pattern {
        LiteralMatchesItself(pattern[1..], pattern[1..]);
        GlobCons(pattern, [pattern[0]], pattern[1..]);
        assert [pattern[0]] + pattern[1..] == pattern;
      }
    }
  }
}

/** Policy evaluation: iam/policy.go. */
module Policy {
  import opened Common
  import opened Text
  import opened Wildcard

  type Attributes = map<string, seq<string>>

  datatype Request = Request(action: string, resource: string, context: Attributes)

  datatype Effect = Allow | Deny

  datatype Family =
    | StringEquals | StringLike | Bool | Null
    | NumericEquals | NumericLess | NumericLessEquals | NumericGreater | NumericGreaterEquals
    | DateEquals | DateLess | DateLessEquals | DateGreater | DateGreaterEquals

  /** The key is canonical already; negative operators carry the flag. */
  datatype Condition = Condition(family: Family, negative: bool, key: string, values: seq<string>)

  datatype Statement = Statement(
    effect: Effect, notAction: bool, actions: seq<string>, notResource: bool, resources: seq<string>,
    conditions: seq<Condition>)

  /** Float and time parsing are library functions; a time is its instant. */
  datatype Parsers = Parsers(number: string -> Option<real>, time: string -> Option<int>)

  datatype Decision = Allowed | ExplicitDeny | ImplicitDeny

  // ------------------------------------------------------------------ meaning

  predicate PatternMatches(pattern: string, value: string) {
    RegexMatches(ToRegex(pattern), value)
  }

  ghost predicate AnyPattern(patterns: seq<string>, value: string) {
    exists p :: p in patterns && PatternMatches(p, value)
  }

  function ParseBool(s: string): Option<bool> {
    if s in {"1", "t", "true"} then Some(true) else if s in {"0", "f", "false"} then Some(false) else None
  }

  predicate Numeric(f: Family) {
    f in {NumericEquals, NumericLess, NumericLessEquals, NumericGreater, NumericGreaterEquals}
  }

  predicate Dated(f: Family) {
    f in {DateEquals, DateLess, DateLessEquals, DateGreater, DateGreaterEquals}
  }

  predicate Compares(f: Family, a: real, b: real) {
    match f
    case NumericEquals | DateEquals => a == b
    case NumericLess | DateLess => a < b
    case NumericLessEquals | DateLessEquals => a <= b
    case NumericGreater | DateGreater => a > b
    case NumericGreaterEquals | DateGreaterEquals => a >= b
    case _ => false
  }

  predicate ValueMatches(p: Parsers, f: Family, actual: string, expected: string) {
    if f == StringEquals then actual == expected
    else if f == StringLike then PatternMatches(expected, actual)
    else if f == Bool then
      ParseBool(Lower(actual)).Some? && ParseBool(Lower(expected)) == ParseBool(Lower(actual))
    else if Numeric(f) then
      && p.number(actual).Some? && p.number(expected).Some?
      && Compares(f, p.number(actual).value, p.number(expected).value)
    else if Dated(f) then
      && p.time(actual).Some? && p.time(expected).Some?
      && Compares(f, p.time(actual).value as real, p.time(expected).value as real)
    else false
  }

  ghost predicate Holds(p: Parsers, c: Condition, context: Attributes) {
    var missing := c.key !in context || context[c.key] == [];
    if c.family == Null then missing <==> exists v :: v in c.values && ParseBool(Lower(v)) == Some(true)
    else if missing then c.negative
    else
      var some := exists a, v :: a in context[c.key] && v in c.values && ValueMatches(p, c.family, a, v);
      if c.negative then !some else some
  }

  ghost predicate Applies(p: Parsers, s: Statement, r: Request) {
    && AnyPattern(s.actions, Lower(r.action)) != s.notAction
    && AnyPattern(s.resources, r.resource) != s.notResource
    && forall c :: c in s.conditions ==> Holds(p, c, r.context)
  }

  ghost predicate SomeApplies(p: Parsers, policy: seq<Statement>, effect: Effect, r: Request) {
    exists s :: s in policy && s.effect == effect && Applies(p, s, r)
  }

  /** An explicit deny wins; otherwise an allow is needed. */
  ghost function Decide(p: Parsers, policy: seq<Statement>, r: Request): Decision {
    if SomeApplies(p, policy, Deny, r) then ExplicitDeny
    else if SomeApplies(p, policy, Allow, r) then Allowed
    else ImplicitDeny
  }

  // --------------------------------------------------------- as the code does

  method MatchesByMode(negative: bool, patterns: seq<string>, value: string) returns (ok: bool)
    ensures ok <==> AnyPattern(patterns, value) != negative
  {
    var matched := false;
    for i := 0 to |patterns|
      invariant !matched && forall k :: 0 <= k < i ==> !PatternMatches(patterns[k], value)
    {
      if PatternMatches(patterns[i], value) {
        matched := true;
        break;
      }
    }
    ok := if negative then !matched else matched;
  }

  method WantsNull(values: seq<string>) returns (want: bool)
    ensures want <==> exists v :: v in values && ParseBool(Lower(v)) == Some(true)
  {
    for i := 0 to |values|
      invariant forall k :: 0 <= k < i ==> ParseBool(Lower(values[k])) != Some(true)
    {
      if ParseBool(Lower(values[i])) == Some(true) { return true; }
    }
    return false;
  }

  method ValueMatchesAny(p: Parsers, f: Family, actual: string, values: seq<string>) returns (ok: bool)
    ensures ok <==> exists v :: v in values && ValueMatches(p, f, actual, v)
  {
    for i := 0 to |values|
      invariant forall k :: 0 <= k < i ==> !ValueMatches(p, f, actual, values[k])
    {
      if ValueMatches(p, f, actual, values[i]) { return true; }
    }
    return false;
  }

  method AnyValue(p: Parsers, c: Condition, actuals: seq<string>) returns (some: bool)
    ensures some <==> exists a, v :: a in actuals && v in c.values && ValueMatches(p, c.family, a, v)
  {
    some := false;
    for i := 0 to |actuals|
      invariant !some && forall k, v :: 0 <= k < i && v in c.values ==> !ValueMatches(p, c.family, actuals[k], v)
    {
      some := ValueMatchesAny(p, c.family, actuals[i], c.values);
      if some { break; }
    }
  }

  method ConditionMatches(p: Parsers, c: Condition, context: Attributes) returns (ok: bool)
    ensures ok <==> Holds(p, c, context)
  {
    var missing := c.key !in context || context[c.key] == [];
    if c.family == Null {
      var want := WantsNull(c.values);
      return missing == want;
    }
    if missing { return c.negative; }
    var some := AnyValue(p, c, context[c.key]);
    ok := if c.negative then !some else some;
  }

  method StatementMatches(p: Parsers, s: Statement, r: Request) returns (ok: bool)
    ensures ok <==> Applies(p, s, r)
  {
    ok := MatchesByMode(s.notAction, s.actions, Lower(r.action));
    if !ok { return; }
    ok := MatchesByMode(s.notResource, s.resources, r.resource);
    if !ok { return; }
    for i := 0 to |s.conditions|
      invariant ok && forall k :: 0 <= k < i ==> Holds(p, s.conditions[k], r.context)
    {
      ok := ConditionMatches(p, s.conditions[i], r.context);
      if !ok { return; }
    }
  }

  /** The evaluation stops at the first matching deny, and still decides by the whole policy. */
  method Authorize(p: Parsers, policy: seq<Statement>, r: Request) returns (d: Decision)
    ensures d == Decide(p, policy, r)
  {
    var allowed := false;
    for i := 0 to |policy|
      invariant forall k :: 0 <= k < i && policy[k].effect == Deny ==> !Applies(p, policy[k], r)
      invariant allowed <==> exists k :: 0 <= k < i && policy[k].effect == Allow && Applies(p, policy[k], r)
    {
      var matches := StatementMatches(p, policy[i], r);
      if matches {
        if policy[i].effect == Deny { return ExplicitDeny; }
        allowed := true;
      }
    }
    return if allowed then Allowed else ImplicitDeny;
  }

  /** A plan is authorized exactly when every one of its checks is allowed. */
  method AuthorizeAll(p: Parsers, policy: seq<Statement>, checks: seq<Request>) returns (ok: bool)
    ensures ok <==> forall r :: r in checks ==> Decide(p, policy, r) == Allowed
  {
    for i := 0 to |checks|
      invariant forall k :: 0 <= k < i ==> Decide(p, policy, checks[k]) == Allowed
    {
      var d := Authorize(p, policy, checks[i]);
      if d != Allowed {
        assert checks[i] in checks;
        return false;
      }
    }
    return true;
  }

  // ---------------------------------------------------------- order is nothing

  ghost predicate SameElements(a: seq<string>, b: seq<string>) {
    forall x :: x in a <==> x in b
  }

  ghost predicate SameCondition(a: Condition, b: Condition) {
    a.family == b.family && a.negative == b.negative && a.key == b.key && SameElements(a.values, b.values)
  }

  ghost predicate CoveredBy(a: seq<Condition>, b: seq<Condition>) {
    forall c :: c in a ==> exists d :: d in b && SameCondition(c, d)
  }

  ghost predicate SameStatement(a: Statement, b: Statement) {
    && a.effect == b.effect && a.notAction == b.notAction && a.notResource == b.notResource
    && SameElements(a.actions, b.actions) && SameElements(a.resources, b.resources)
    && CoveredBy(a.conditions, b.conditions) && CoveredBy(b.conditions, a.conditions)
  }

  ghost predicate Within(a: seq<Statement>, b: seq<Statement>) {
    forall s :: s in a ==> exists t :: t in b && SameStatement(s, t)
  }

  lemma SameHolds(p: Parsers, a: Condition, b: Condition, context: Attributes)
    requires SameCondition(a, b)
    ensures Holds(p, a, context) <==> Holds(p, b, context)
  {
  }

  lemma CoveredHold(p: Parsers, a: seq<Condition>, b: seq<Condition>, context: Attributes)
    requires CoveredBy(b, a) && forall c :: c in a ==> Holds(p, c, context)
    ensures forall c :: c in b ==> Holds(p, c, context)
  {
    forall c | c in b ensures Holds(p, c, context) {
      var d :| d in a && SameCondition(c, d);
      SameHolds(p, c, d, context);
    }
  }

  lemma SamePatterns(a: seq<string>, b: seq<string>, value: string)
    requires SameElements(a, b)
    ensures AnyPattern(a, value) <==> AnyPattern(b, value)
  {
  }

  lemma SameApplies(p: Parsers, a: Statement, b: Statement, r: Request)
    requires SameStatement(a, b) && Applies(p, a, r)
    ensures Applies(p, b, r)
  {
    SamePatterns(a.actions, b.actions, Lower(r.action));
    SamePatterns(a.resources, b.resources, r.resource);
    CoveredHold(p, a.conditions, b.conditions, r.context);
  }

  lemma WithinApplies(p: Parsers, a: seq<Statement>, b: seq<Statement>, effect: Effect, r: Request)
    requires Within(a, b) && SomeApplies(p, a, effect, r)
    ensures SomeApplies(p, b, effect, r)
  {
    var s :| s in a && s.effect == effect && Applies(p, s, r);
    var t :| t in b && SameStatement(s, t);
    SameApplies(p, s, t, r);
  }

  lemma SameEffect(p: Parsers, a: seq<Statement>, b: seq<Statement>, effect: Effect, r: Request)
    requires Within(a, b) && Within(b, a)
    ensures SomeApplies(p, a, effect, r) <==> SomeApplies(p, b, effect, r)
  {
    if SomeApplies(p, a, effect, r) { WithinApplies(p, a, b, effect, r); }
    if SomeApplies(p, b, effect, r) { WithinApplies(p, b, a, effect, r); }
  }

  /**
   Reordering or repeating statements, their conditions, patterns or values changes no decision.
   */
  lemma OrderIsIrrelevant(p: Parsers, a: seq<Statement>, b: seq<Statement>, r: Request)
    requires Within(a, b) && Within(b, a)
    ensures Decide(p, a, r) == Decide(p, b, r)
  {
    SameEffect(p, a, b, Deny, r);
    SameEffect(p, a, b, Allow, r);
  }

  /** Adding statements never turns an explicit deny into anything else, and a deny only removes access. */
  lemma DenyOnlyRemoves(p: Parsers, policy: seq<Statement>, s: Statement, r: Request)
    requires s.effect == Deny
    ensures Decide(p, policy + [s], r) == if Applies(p, s, r) then ExplicitDeny else Decide(p, policy, r)
  {
  }

  // --------------------------------------------------------- expected operands

  datatype ValueType = AnyType | StringType | BoolType | NumericType | DateType

  predicate OperatorFits(f: Family, t: ValueType) {
    match t
    case AnyType => false
    case StringType => f == StringEquals || f == StringLike
    case BoolType => f == Bool
    case NumericType => Numeric(f)
    case DateType => Dated(f)
  }

  predicate OperandParses(p: Parsers, f: Family, v: string) {
    if f == Bool || f == Null then v == "true" || v == "false"
    else if Numeric(f) then p.number(v).Some?
    else if Dated(f) then p.time(v).Some?
    else true
  }

  predicate ValidOperands(p: Parsers, f: Family, t: ValueType, values: seq<string>) {
    && (f == Null || t == AnyType || OperatorFits(f, t))
    && forall v :: v in values ==> OperandParses(p, f, v)
  }

  method ValidateConditionOperands(p: Parsers, f: Family, t: ValueType, values: seq<string>) returns (ok: bool)
    ensures ok <==> ValidOperands(p, f, t, values)
  {
    if f != Null && t != AnyType && !OperatorFits(f, t) { return false; }
    for i := 0 to |values|
      invariant forall k :: 0 <= k < i ==> OperandParses(p, f, values[k])
    {
      if !OperandParses(p, f, values[i]) { return false; }
    }
    return true;
  }

  lemma LowerBooleans()
    ensures Lower("true") == "true" && Lower("false") == "false"
  {
  }

  /** The expected side of an accepted condition always parses, so only the actual value can fail to. */
  lemma ExpectedAlwaysParses(p: Parsers, c: Condition, t: ValueType, v: string)
    requires ValidOperands(p, c.family, t, c.values) && v in c.values
    ensures c.family == Bool || c.family == Null ==> ParseBool(Lower(v)) == Some(v == "true")
    ensures Numeric(c.family) ==> p.number(v).Some?
    ensures Dated(c.family) ==> p.time(v).Some?
  {
    LowerBooleans();
  }

  /** So a numeric or date condition compares exactly the actual values that parse. */
  lemma ConditionsCompare(p: Parsers, c: Condition, t: ValueType, actual: string, v: string)
    requires ValidOperands(p, c.family, t, c.values) && v in c.values
    ensures Numeric(c.family) ==>
      (ValueMatches(p, c.family, actual, v)
       <==> p.number(actual).Some? && Compares(c.family, p.number(actual).value, p.number(v).value))
    ensures Dated(c.family) ==>
      (ValueMatches(p, c.family, actual, v)
       <==> p.time(actual).Some? && Compares(c.family, p.time(actual).value as real, p.time(v).value as real))
    ensures c.family == Bool ==>
      (ValueMatches(p, c.family, actual, v) <==> ParseBool(Lower(actual)) == Some(v == "true"))
  {
    ExpectedAlwaysParses(p, c, t, v);
  }

  /** An accepted Null condition asks for absence exactly when it lists "true". */
  lemma NullMeaning(p: Parsers, c: Condition, t: ValueType, context: Attributes)
    requires c.family == Null && ValidOperands(p, Null, t, c.values)
    ensures Holds(p, c, context) <==> ((c.key !in context || context[c.key] == []) <==> "true" in c.values)
  {
    forall v | v in c.values ensures ParseBool(Lower(v)) == Some(true) <==> v == "true" {
      ExpectedAlwaysParses(p, c, t, v);
    }
    if "true" in c.values { assert ParseBool(Lower("true")) == Some(true); }
  }

  // --------------------------------------------------------- operators as wholes

  /** What each numeric or date operator asks of the actual value against the expected one. */
  ghost predicate Asks(f: Family, actual: real, expected: real) {
    && (f == NumericEquals || f == DateEquals ==> actual == expected)
    && (f == NumericLess || f == DateLess ==> actual < expected)
    && (f == NumericLessEquals || f == DateLessEquals ==> !(expected < actual))
    && (f == NumericGreater || f == DateGreater ==> expected < actual)
    && (f == NumericGreaterEquals || f == DateGreaterEquals ==> !(actual < expected))
  }

  /** A numeric condition on one value holds exactly when the numbers stand in the operator's order. */
  lemma NumericOrder(p: Parsers, c: Condition, context: Attributes, actual: string, expected: string)
    requires Numeric(c.family) && !c.negative && c.values == [expected] && c.key in context && context[c.key] == [actual]
    ensures Holds(p, c, context)
        <==> p.number(actual).Some? && p.number(expected).Some? && Asks(c.family, p.number(actual).value, p.number(expected).value)
  {
    assert actual in context[c.key] && expected in c.values;
  }

  /** The same for dates. */
  lemma DateOrder(p: Parsers, c: Condition, context: Attributes, actual: string, expected: string)
    requires Dated(c.family) && !c.negative && c.values == [expected] && c.key in context && context[c.key] == [actual]
    ensures Holds(p, c, context)
        <==> p.time(actual).Some? && p.time(expected).Some?
             && Asks(c.family, p.time(actual).value as real, p.time(expected).value as real)
  {
    assert actual in context[c.key] && expected in c.values;
  }

  /** A negative operator is the complement of its positive one, on present and missing keys alike. */
  lemma NegativeIsComplement(p: Parsers, c: Condition, context: Attributes)
    requires c.family != Null
    ensures Holds(p, c.(negative := true), context) <==> !Holds(p, c.(negative := false), context)
    ensures c.key !in context ==> !Holds(p, c.(negative := false), context)
  {
  }

  /** A condition on a key with several values holds when any of them would alone. */
  lemma ValuesAreAlternatives(p: Parsers, c: Condition, context: Attributes, a: string, b: string)
    requires c.family != Null && !c.negative && c.key in context && context[c.key] == [a, b]
    ensures Holds(p, c, context)
        <==> Holds(p, c, context[c.key := [a]]) || Holds(p, c, context[c.key := [b]])
  {
    assert a in context[c.key] && b in context[c.key];
    assert a in [a] && b in [b];
  }

  /** A condition only narrows a statement, and by exactly what it asks. */
  lemma ConditionsNarrow(p: Parsers, s: Statement, c: Condition, r: Request)
    ensures Applies(p, s.(conditions := s.conditions + [c]), r) <==> Applies(p, s, r) && Holds(p, c, r.context)
  {
    assert forall d :: d in s.conditions + [c] <==> d in s.conditions || d == c;
  }

  lemma OnePattern(pattern: string, value: string)
    requires '*' !in pattern && '?' !in pattern
    ensures AnyPattern([pattern], value) <==> value == pattern
  {
    RegexDenotesGlob(pattern, value);
    LiteralMatchesItself(pattern, value);
    assert pattern in [pattern];
  }

  /** A statement that names one action and one resource applies to that action, in any case, on that resource alone. */
  lemma LiteralStatement(p: Parsers, effect: Effect, action: string, resource: string, r: Request)
    requires '*' !in action && '?' !in action && '*' !in resource && '?' !in resource
    ensures Applies(p, Statement(effect, false, [action], false, [resource], []), r)
        <==> Lower(r.action) == action && r.resource == resource
    ensures Applies(p, Statement(effect, true, [action], false, [resource], []), r)
        <==> Lower(r.action) != action && r.resource == resource
    ensures Applies(p, Statement(effect, false, [action], true, [resource], []), r)
        <==> Lower(r.action) == action && r.resource != resource
  {
    OnePattern(action, Lower(r.action));
    OnePattern(resource, r.resource);
  }

  /** A policy of one such Allow statement lets through exactly that request, and adding the Deny nothing. */
  lemma LiteralPolicy(p: Parsers, action: string, resource: string, r: Request)
    requires '*' !in action && '?' !in action && '*' !in resource && '?' !in resource
    ensures var allow := Statement(Allow, false, [action], false, [resource], []);
      && (Decide(p, [allow], r) == Allowed <==> Lower(r.action) == action && r.resource == resource)
      && Decide(p, [allow, allow.(effect := Deny)], r) != Allowed
  {
    var allow := Statement(Allow, false, [action], false, [resource], []);
    LiteralStatement(p, Allow, action, resource, r);
    LiteralStatement(p, Deny, action, resource, r);
    assert allow in [allow] && allow.(effect := Deny) in [allow, allow.(effect := Deny)];
  }
}
