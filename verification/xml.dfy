/**
 The streaming response rewriter of http_server/s3_response.go.  `Run` is the token
 machine; `Ideal` and `Valid` say on whole documents what it must emit and accept.
 A path is the list of element names from the root (XML names contain no slash).
 */
module Xml {
  import opened Common
  import opened Text

  const S3_NAMESPACE := "http://s3.amazonaws.com/doc/2006-03-01/"

  datatype Name = Name(space: string, local: string)

  datatype Attr = Attr(name: Name, value: string)

  /** A run of sibling nodes; comments, directives and processing instructions are Misc. */
  datatype Forest =
    | Nil
    | Elem(name: Name, attrs: seq<Attr>, inside: Forest, rest: Forest)
    | Chars(text: string, rest: Forest)
    | Misc(rest: Forest)

  datatype Token = Start(name: Name, attrs: seq<Attr>) | End(name: Name) | CharData(text: string) | Other

  function Tokens(f: Forest): seq<Token> {
    match f
    case Nil => []
    case Elem(name, attrs, inside, rest) => [Start(name, attrs)] + Tokens(inside) + [End(name)] + Tokens(rest)
    case Chars(text, rest) => [CharData(text)] + Tokens(rest)
    case Misc(rest) => [Other] + Tokens(rest)
  }

  type Path = seq<string>

  datatype Transform =
    | VirtualBucket | VirtualKey | VirtualLocation | NewContinuationToken | EchoContinuationToken
    | NewUploadToken | EchoUploadToken | VirtualKeyEcho | PlainQueryEcho | NumericQueryEcho
    | NonNegativeInteger | Boolean | RequiredNonempty

  /** A ruled field is either a transformed scalar or an identity container. */
  datatype Rule = Field(transform: Transform, required: bool) | Identity

  /** One response profile in one request: its schema and its field transform. */
  datatype Context = Context(
    root: string,
    known: Path -> bool, container: Path -> bool, rule: Path -> Option<Rule>, required: set<Path>,
    keep: Attr -> bool,
    apply: (Transform, Path, string) -> Option<string>,
    bucket: string, fetchOwner: bool, limit: nat)

  const CONTENTS: Path := ["ListBucketResult", "Contents"]
  const OWNER: Path := ["ListBucketResult", "Contents", "Owner"]
  const PARTS_TRUNCATED: Path := ["ListPartsResult", "IsTruncated"]
  const NEXT_PART: Path := ["ListPartsResult", "NextPartNumberMarker"]
  const OBJECTS_TRUNCATED: Path := ["ListBucketResult", "IsTruncated"]
  const NEXT_CONTINUATION: Path := ["ListBucketResult", "NextContinuationToken"]
  const UPLOADS_TRUNCATED: Path := ["ListMultipartUploadsResult", "IsTruncated"]
  const UPLOAD_MARKER: Path := ["ListMultipartUploadsResult", "UploadIdMarker"]
  const NEXT_UPLOAD: Path := ["ListMultipartUploadsResult", "NextUploadIdMarker"]

  datatype FieldText = FieldText(path: Path, text: string)

  function Filter(c: Context, attrs: seq<Attr>): seq<Attr> {
    if attrs == [] then []
    else (if c.keep(attrs[0]) then [attrs[0]] else []) + Filter(c, attrs[1..])
  }

  function IdentityFields(bucket: string): seq<Token> {
    var id, display := Name("", "ID"), Name("", "DisplayName");
    [Start(id, []), CharData(bucket), End(id), Start(display, []), CharData(bucket), End(display)]
  }

  // ------------------------------------------------------------- the machine

  datatype State = State(stack: Path, seenRoot: bool, owners: seq<bool>, fields: seq<FieldText>)

  const START := State([], false, [], [])

  datatype Result = Done(state: State) | Failed | BadOwnerState

  datatype Outcome = Outcome(out: seq<Token>, end: Result)

  function Emit(out: seq<Token>, o: Outcome): Outcome {
    Outcome(out + o.out, o.end)
  }

  /** Consumes to the end tag that matches an already consumed start tag. */
  function Skip(ts: seq<Token>, depth: nat): (rest: Option<seq<Token>>)
    ensures rest.Some? ==> |rest.value| < |ts|
  {
    if ts == [] then None
    else match ts[0]
      case Start(_, _) => Skip(ts[1..], depth + 1)
      case End(_) => if depth == 0 then Some(ts[1..]) else Skip(ts[1..], depth - 1)
      case _ => Skip(ts[1..], depth)
  }

  /** Accumulates the text of an element that may hold nothing else. */
  function ReadText(ts: seq<Token>, name: Name, limit: nat, text: string): (r: Option<(string, seq<Token>)>)
    ensures r.Some? ==> |r.value.1| < |ts|
  {
    if ts == [] then None
    else match ts[0]
      case CharData(t) => if |text| + |t| > limit then None else ReadText(ts[1..], name, limit, text + t)
      case Other => ReadText(ts[1..], name, limit, text)
      case End(n) => if n == name then Some((text, ts[1..])) else None
      case Start(_, _) => None
  }

  /** A start tag the machine refuses before looking at its content. */
  predicate Refused(c: Context, st: State, name: Name) {
    || (st.seenRoot && st.stack == [])
    || (name.space != "" && name.space != S3_NAMESPACE)
    || (!st.seenRoot && name.local != c.root)
    || (!c.known(st.stack + [name.local]) && st.stack != [] && c.known(st.stack) && !c.container(st.stack))
  }

  /** Text that may be passed on untransformed: white space, or the text of a plain scalar of the schema. */
  predicate Allowed(c: Context, stack: Path, text: string) {
    Blank(text) || (c.known(stack) && !c.container(stack))
  }

  /** Owner tracking when an element opens. */
  function Track(owners: seq<bool>, path: Path): seq<bool> {
    if path == CONTENTS then owners + [false]
    else if path == OWNER && owners != [] then owners[|owners| - 1 := true]
    else owners
  }

  function Run(c: Context, st: State, ts: seq<Token>): Outcome
    decreases |ts|
  {
    if ts == [] then Outcome([], Done(st))
    else match ts[0]
      case Start(name, attrs) => OnStart(c, st, name, attrs, ts[1..])
      case End(name) =>
        if st.stack == [] then Outcome([], Failed)
        else if st.stack == CONTENTS && st.owners == [] then Outcome([], BadOwnerState)
        else if st.stack == CONTENTS && c.fetchOwner && !st.owners[|st.owners| - 1] then Outcome([], Failed)
        else Emit([End(name)], Run(c, Closed(st), ts[1..]))
      case CharData(text) =>
        if !Allowed(c, st.stack, text) then Outcome([], Failed)
        else Emit([CharData(text)], Run(c, st, ts[1..]))
      case Other => Run(c, st, ts[1..])
  }

  function Closed(st: State): State
    requires st.stack != [] && (st.stack == CONTENTS ==> st.owners != [])
  {
    st.(stack := st.stack[..|st.stack| - 1],
        owners := if st.stack == CONTENTS then st.owners[..|st.owners| - 1] else st.owners)
  }

  function OnStart(c: Context, st: State, name: Name, attrs: seq<Attr>, ts: seq<Token>): Outcome
    decreases |ts| + 1, 0
  {
    var path := st.stack + [name.local];
    var entered := st.(seenRoot := true, owners := Track(st.owners, path));
    if Refused(c, st, name) then Outcome([], Failed)
    else if !c.known(path) then
      match Skip(ts, 0)
      case None => Outcome([], Failed)
      case Some(rest) => Run(c, st.(seenRoot := true), rest)
    else
      var start := [Start(name, Filter(c, attrs))];
      match c.rule(path)
      case Some(Identity) =>
        (match Skip(ts, 0)
         case None => Outcome(start, Failed)
         case Some(rest) => Emit(start + IdentityFields(c.bucket) + [End(name)], Run(c, entered, rest)))
      case Some(Field(transform, _)) =>
        (match ReadText(ts, name, c.limit, "")
         case None => Outcome(start, Failed)
         case Some((text, rest)) =>
           (match c.apply(transform, path, text)
            case None => Outcome(start, Failed)
            case Some(t) =>
              Emit(start + [CharData(t), End(name)],
                   Run(c, entered.(fields := st.fields + [FieldText(path, t)]), rest))))
      case None => Emit(start, Run(c, entered.(stack := path), ts))
  }

  // -------------------------------------------------- end-of-document checks

  function LastText(fields: seq<FieldText>, path: Path): Option<string> {
    if fields == [] then None
    else if fields[|fields| - 1].path == path then Some(fields[|fields| - 1].text)
    else LastText(fields[..|fields| - 1], path)
  }

  predicate ParsesTrue(text: string) {
    TrimSpace(text) in {"1", "t", "T", "true", "TRUE", "True"}
  }

  function Truncated(fields: seq<FieldText>, path: Path): Option<bool> {
    match LastText(fields, path)
    case None => None
    case Some(t) => Some(ParsesTrue(t))
  }

  predicate Complete(c: Context, fields: seq<FieldText>) {
    && (forall p | p in c.required :: LastText(fields, p).Some?)
    && !(c.root == "ListPartsResult" && Truncated(fields, PARTS_TRUNCATED) == Some(true)
         && LastText(fields, NEXT_PART).None?)
    && !(LastText(fields, NEXT_CONTINUATION) == Some("") && Truncated(fields, OBJECTS_TRUNCATED) != Some(false))
    && !(LastText(fields, NEXT_UPLOAD) == Some("") && Truncated(fields, UPLOADS_TRUNCATED) != Some(false))
  }

  predicate Accepts(c: Context, end: Result) {
    end.Done? && end.state.seenRoot && end.state.stack == [] && Complete(c, end.state.fields)
  }

  // --------------------------------------------------- documents as wholes

  /** The text of an element with no child elements. */
  function PlainText(f: Forest): string {
    match f
    case Nil => ""
    case Elem(_, _, _, rest) => PlainText(rest)
    case Chars(text, rest) => text + PlainText(rest)
    case Misc(rest) => PlainText(rest)
  }

  predicate HasElem(f: Forest) {
    match f
    case Nil => false
    case Elem(_, _, _, _) => true
    case Chars(_, rest) => HasElem(rest)
    case Misc(rest) => HasElem(rest)
  }

  /** Some node of this level is an element at `path`. */
  predicate HasChild(f: Forest, parent: Path, path: Path) {
    match f
    case Nil => false
    case Elem(name, _, _, rest) => parent + [name.local] == path || HasChild(rest, parent, path)
    case Chars(_, rest) => HasChild(rest, parent, path)
    case Misc(rest) => HasChild(rest, parent, path)
  }

  function FieldValue(c: Context, transform: Transform, path: Path, inside: Forest): Option<string> {
    if HasElem(inside) || |PlainText(inside)| > c.limit then None
    else c.apply(transform, path, PlainText(inside))
  }

  function IdentityForest(bucket: string): Forest {
    Elem(Name("", "ID"), [], Chars(bucket, Nil), Elem(Name("", "DisplayName"), [], Chars(bucket, Nil), Nil))
  }

  /** The document the client should see: schema-filtered, text allowed or transformed, identities replaced. */
  function Ideal(c: Context, stack: Path, f: Forest): Forest
    decreases f
  {
    match f
    case Nil => Nil
    case Chars(text, rest) =>
      if Allowed(c, stack, text) then Chars(text, Ideal(c, stack, rest)) else Ideal(c, stack, rest)
    case Misc(rest) => Ideal(c, stack, rest)
    case Elem(name, attrs, inside, rest) =>
      var path := stack + [name.local];
      if !c.known(path) then Ideal(c, stack, rest)
      else
        var shown :=
          match c.rule(path)
          case Some(Identity) => IdentityForest(c.bucket)
          case Some(Field(transform, _)) =>
            (match FieldValue(c, transform, path, inside)
             case None => Nil
             case Some(t) => Chars(t, Nil))
          case None => Ideal(c, path, inside);
        Elem(name, Filter(c, attrs), shown, Ideal(c, stack, rest))
  }

  /** What the machine must accept below `stack`; `rooted` says a root was already seen. */
  predicate Valid(c: Context, stack: Path, rooted: bool, f: Forest)
    decreases f
  {
    match f
    case Nil => true
    case Chars(text, rest) =>
      Allowed(c, stack, text) && Valid(c, stack, rooted, rest)
    case Misc(rest) => Valid(c, stack, rooted, rest)
    case Elem(name, attrs, inside, rest) =>
      var path := stack + [name.local];
      && (stack == [] ==> !rooted && name.local == c.root)
      && (name.space == "" || name.space == S3_NAMESPACE)
      && (if !c.known(path) then stack == [] || !c.known(stack) || c.container(stack)
          else match c.rule(path)
            case Some(Identity) => true
            case Some(Field(transform, _)) => FieldValue(c, transform, path, inside).Some?
            case None =>
              && Valid(c, path, true, inside)
              && (path == CONTENTS && c.fetchOwner ==> c.known(OWNER) && HasChild(inside, path, OWNER)))
      && Valid(c, stack, true, rest)
  }

  /** The transformed fields in document order. */
  function Fields(c: Context, stack: Path, f: Forest): seq<FieldText>
    decreases f
  {
    match f
    case Nil => []
    case Chars(_, rest) => Fields(c, stack, rest)
    case Misc(rest) => Fields(c, stack, rest)
    case Elem(name, _, inside, rest) =>
      var path := stack + [name.local];
      var here :=
        if !c.known(path) then []
        else match c.rule(path)
          case Some(Identity) => []
          case Some(Field(transform, _)) =>
            (match FieldValue(c, transform, path, inside)
             case None => []
             case Some(t) => [FieldText(path, t)])
          case None => Fields(c, path, inside);
      here + Fields(c, stack, rest)
  }

  predicate ValidDocument(c: Context, f: Forest) {
    Valid(c, [], false, f) && HasElem(f) && Complete(c, Fields(c, [], f))
  }
}
