/** What a plan is judged on, told from the request alone, and what a policy can therefore let through. */
module Authority {
  import opened Common
  import opened Text
  import opened Query
  import opened Operations
  import opened Headers
  import opened Keys
  import opened Forwarding
  import opened Planner
  import Wildcard
  import Policy

  // ------------------------------------------------------- the permission asked

  predicate Reads(verb: Verb) {
    verb == GET || verb == HEAD
  }

  /** The permission a request needs, by its method, its address and its subresource. */
  function Permission(verb: Verb, bucket: string, key: string, q: Values): string {
    if bucket == "" && key == "" then "s3:ListAllMyBuckets"
    else if key == "" then
      if verb == PUT then "s3:CreateBucket"
      else if "uploads" in q then "s3:ListBucketMultipartUploads"
      else "s3:ListBucket"
    else if Reads(verb) then
      if "uploadId" in q then "s3:ListMultipartUploadParts"
      else if "versionId" in q then "s3:GetObjectVersion"
      else "s3:GetObject"
    else if verb == DELETE then
      if "uploadId" in q then "s3:AbortMultipartUpload"
      else if "versionId" in q then "s3:DeleteObjectVersion"
      else "s3:DeleteObject"
    else if "acl" in q then "s3:PutObjectAcl"
    else if "tagging" in q then "s3:PutObjectTagging"
    else "s3:PutObject"
  }

  function Addressed(bucket: string, key: string): string {
    if bucket == "" && key == "" then "*" else if key == "" then BucketArn(bucket) else ObjectArn(bucket, key)
  }

  lemma PermissionByKind(op: Kind, verb: Verb, bucket: string, key: string, q: Values)
    requires verb == VerbFor(op) && ScopeOf(bucket, key) == ScopeFor(op) && MarksIn(q) == MarkTable(op)
    ensures ActionFor(op) == Permission(verb, bucket, key, q)
    ensures ResourceFor(op, bucket, key) == Addressed(bucket, key)
  {
  }

  /** Every plan asks first for the permission its request needs, on what the request addresses. */
  lemma PlansAskForTheRequest(r: Incoming, valuesFit: Kind -> bool, plan: Plan)
    requires PlanFor(r, valuesFit, plan)
    ensures plan.checks != []
    ensures plan.checks[0] == Check(Permission(r.verb, r.bucket, r.key, r.query.value), Addressed(r.bucket, r.key))
  {
    GuardFixesMarks(plan.kind, r.query.value);
    MarksTabled(plan.kind);
    PermissionByKind(plan.kind, r.verb, r.bucket, r.key, r.query.value);
  }

  predicate ReadAction(action: string) {
    action in {"s3:ListAllMyBuckets", "s3:ListBucket", "s3:ListBucketMultipartUploads", "s3:GetObject",
               "s3:GetObjectVersion", "s3:ListMultipartUploadParts"}
  }

  predicate RemoveAction(action: string) {
    action in {"s3:DeleteObject", "s3:DeleteObjectVersion", "s3:AbortMultipartUpload"}
  }

  predicate VersionAction(action: string) {
    action in {"s3:GetObjectVersion", "s3:DeleteObjectVersion"}
  }

  lemma ReadsByKind(op: Kind)
    ensures Reads(VerbFor(op)) <==> ReadAction(ActionFor(op))
  {
  }

  lemma RemovesByKind(op: Kind)
    ensures VerbFor(op) == DELETE <==> RemoveAction(ActionFor(op))
  {
  }

  lemma VersionsByKind(op: Kind)
    ensures MarkTable(op).versionId <==> VersionAction(ActionFor(op))
  {
  }

  /** Reads ask for read permissions, deletes for delete permissions, and versions for version permissions. */
  lemma ActionsFollowVerbs(r: Incoming, valuesFit: Kind -> bool, plan: Plan)
    requires PlanFor(r, valuesFit, plan)
    ensures plan.checks != []
    ensures var action := plan.checks[0].action;
      && (Reads(r.verb) <==> ReadAction(action))
      && (r.verb == DELETE <==> RemoveAction(action))
      && ("versionId" in r.query.value <==> VersionAction(action))
  {
    GuardFixesMarks(plan.kind, r.query.value);
    MarksTabled(plan.kind);
    ReadsByKind(plan.kind);
    RemovesByKind(plan.kind);
    VersionsByKind(plan.kind);
  }

  // ------------------------------------------------------ what a plan can hold

  /** A planned request holds valid keys only, in its address and in its query, and pages of bounded size. */
  lemma PlansHoldValidKeys(r: Incoming, valuesFit: Kind -> bool, plan: Plan, name: string)
    requires PlanFor(r, valuesFit, plan) && name in plan.query
    ensures plan.key == "" || ValidKey(plan.key)
    ensures |plan.query[name]| == 1
    ensures name in {"prefix", "marker", "start-after", "key-marker"} ==>
      plan.query[name][0] == "" || ValidKey(plan.query[name][0])
    ensures name in {"max-keys", "max-uploads", "max-parts"} ==>
      Atoi(plan.query[name][0]).Some? && 0 <= Atoi(plan.query[name][0]).value <= 1000
    ensures name == "partNumber" ==> Atoi(plan.query[name][0]).Some? && 1 <= Atoi(plan.query[name][0]).value <= 10000
  {
  }

  // ------------------------------------------- headers that need a permission

  lemma AclHeadersAreTaken(op: Kind, lower: string)
    requires AmzAllowed(op, lower) && (lower == "x-amz-acl" || GrantHeader(lower))
    ensures TakesPutHeaders(op) || op == PutObjectAcl
  {
  }

  lemma TagHeadersAreTaken(op: Kind)
    requires AmzAllowed(op, "x-amz-tagging")
    ensures TakesPutHeaders(op)
  {
  }

  lemma AclNamesAreAmz(h: string)
    requires Lower(h) == "x-amz-acl" || GrantHeader(Lower(h)) || Lower(h) == "x-amz-tagging"
    ensures Amz(h)
  {
  }

  lemma AclIsAskedFor(op: Kind, r: Incoming, h: string)
    requires h in r.headers && HeadersAdmitted(r.headers, op) && (Lower(h) == "x-amz-acl" || GrantHeader(Lower(h)))
    ensures TakesPutHeaders(op) || op == PutObjectAcl
  {
    assert HeaderAllowed(op, h);
    AclNamesAreAmz(h);
    AclHeadersAreTaken(op, Lower(h));
  }

  lemma TagsAreAskedFor(op: Kind, r: Incoming, h: string)
    requires h in r.headers && HeadersAdmitted(r.headers, op) && Lower(h) == "x-amz-tagging"
    ensures TakesPutHeaders(op)
  {
    assert HeaderAllowed(op, h);
    AclNamesAreAmz(h);
    TagHeadersAreTaken(op);
  }

  lemma AclHeader(r: Incoming) returns (h: string)
    requires SetsAcl(r)
    ensures h in r.headers && (Lower(h) == "x-amz-acl" || GrantHeader(Lower(h)))
  {
    h :| h in r.headers && (Lower(h) == "x-amz-acl" || GrantHeader(Lower(h)));
  }

  lemma AclAmongChecks(op: Kind, r: Incoming)
    requires SetsAcl(r) && (TakesPutHeaders(op) || op == PutObjectAcl) && (op == CopyObject ==> r.source.Some?)
    ensures Check("s3:PutObjectAcl", ResourceFor(op, r.bucket, r.key)) in ChecksFor(op, r)
  {
    ChecksNameTheRequest(op, r, ChecksFor(op, r)[0]);
  }

  lemma AclChecked(op: Kind, r: Incoming)
    requires SetsAcl(r) && HeadersAdmitted(r.headers, op) && (op == CopyObject ==> r.source.Some?)
    ensures Check("s3:PutObjectAcl", ResourceFor(op, r.bucket, r.key)) in ChecksFor(op, r)
  {
    var h := AclHeader(r);
    AclIsAskedFor(op, r, h);
    AclAmongChecks(op, r);
  }

  lemma TagsChecked(op: Kind, r: Incoming)
    requires SetsTags(r) && HeadersAdmitted(r.headers, op) && (op == CopyObject ==> r.source.Some?)
    ensures Check("s3:PutObjectTagging", ResourceFor(op, r.bucket, r.key)) in ChecksFor(op, r)
  {
    var h :| h in r.headers && Lower(h) == "x-amz-tagging";
    TagsAreAskedFor(op, r, h);
    ChecksNameTheRequest(op, r, ChecksFor(op, r)[0]);
  }

  ghost predicate AsksForSource(r: Incoming, checks: seq<Check>) {
    && r.source.Some?
    && Check(if r.source.value.version == "" then "s3:GetObject" else "s3:GetObjectVersion",
             ObjectArn(r.bucket, r.source.value.key)) in checks
  }

  lemma SourceChecked(op: Kind, r: Incoming)
    requires VerbFor(op) == PUT && CopyGuard(op, Copies(r)) && Copies(r) && (op == CopyObject ==> r.source.Some?)
    ensures AsksForSource(r, ChecksFor(op, r))
  {
    ChecksNameTheRequest(op, r, ChecksFor(op, r)[0]);
  }

  lemma AddressedByKind(op: Kind, bucket: string, key: string)
    requires ScopeOf(bucket, key) == ScopeFor(op)
    ensures ResourceFor(op, bucket, key) == Addressed(bucket, key)
  {
  }

  /**
   No access control list, tag set or copy source goes out without a check of its own: whenever a
   planned request carries one, the plan asks for the permission to set it or to read it.
   */
  lemma HeadersAreAskedFor(r: Incoming, valuesFit: Kind -> bool, plan: Plan)
    requires PlanFor(r, valuesFit, plan)
    ensures SetsAcl(r) ==> Check("s3:PutObjectAcl", Addressed(r.bucket, r.key)) in plan.checks
    ensures SetsTags(r) ==> Check("s3:PutObjectTagging", Addressed(r.bucket, r.key)) in plan.checks
    ensures r.verb == PUT && Copies(r) ==> AsksForSource(r, plan.checks)
  {
    AddressedByKind(plan.kind, r.bucket, r.key);
    if SetsAcl(r) { AclChecked(plan.kind, r); }
    if SetsTags(r) { TagsChecked(plan.kind, r); }
    if r.verb == PUT && Copies(r) { SourceChecked(plan.kind, r); }
  }

  // ------------------------------------------------------- read-only policies

  /** What the policy is asked for one check of a plan. */
  function Asked(c: Check, context: Policy.Attributes): Policy.Request {
    Policy.Request(c.action, c.resource, context)
  }

  /** What the policy is asked for a whole plan. */
  function AskedFor(plan: Plan, context: Policy.Attributes): seq<Policy.Request> {
    seq(|plan.checks|, i requires 0 <= i < |plan.checks| => Asked(plan.checks[i], context))
  }

  /** AuthorizeAll lets the plan through. */
  ghost predicate Authorized(p: Policy.Parsers, policy: seq<Policy.Statement>, plan: Plan, context: Policy.Attributes) {
    forall r :: r in AskedFor(plan, context) ==> Policy.Decide(p, policy, r) == Policy.Allowed
  }

  predicate ReadName(lower: string) {
    "s3:get" <= lower || "s3:list" <= lower
  }

  /** Whatever an Allow statement of the policy names is a Get or a List action. */
  ghost predicate ReadOnly(policy: seq<Policy.Statement>) {
    forall s, a :: s in policy && s.effect == Policy.Allow && Policy.AnyPattern(s.actions, a) != s.notAction ==> ReadName(a)
  }

  lemma FourthLetter(action: string, c: char)
    requires |action| > 3 && LowerChar(action[3]) == c && c != 'g' && c != 'l'
    ensures !ReadName(Lower(action))
  {
    assert Lower(action)[3] == c;
  }

  lemma OnlyReadsReadLike(op: Kind)
    ensures Reads(VerbFor(op)) || !ReadName(Lower(ActionFor(op)))
  {
    var action := ActionFor(op);
    if LowerChar(action[3]) != 'g' && LowerChar(action[3]) != 'l' { FourthLetter(action, LowerChar(action[3])); }
  }

  lemma AllowedIsRead(p: Policy.Parsers, policy: seq<Policy.Statement>, r: Policy.Request)
    requires ReadOnly(policy) && Policy.Decide(p, policy, r) == Policy.Allowed
    ensures ReadName(Lower(r.action))
  {
    var s :| s in policy && s.effect == Policy.Allow && Policy.Applies(p, s, r);
  }

  /** A policy that allows only Get and List actions authorizes no plan that writes or deletes. */
  lemma ReadOnlyPoliciesOnlyRead(r: Incoming, valuesFit: Kind -> bool, plan: Plan,
                                 p: Policy.Parsers, policy: seq<Policy.Statement>, context: Policy.Attributes)
    requires PlanFor(r, valuesFit, plan) && ReadOnly(policy) && Authorized(p, policy, plan, context)
    ensures Reads(r.verb)
  {
    OnlyReadsReadLike(plan.kind);
    var first := AskedFor(plan, context)[0];
    assert first in AskedFor(plan, context);
    AllowedIsRead(p, policy, first);
  }

  // ---------------------------------------- a syntactic read-only condition

  ghost predicate Literal(text: string) {
    '*' !in text && '?' !in text
  }

  /** A glob that begins with literal text matches only strings that begin with it. */
  lemma {:induction false} GlobKeepsPrefix(head: string, pattern: string, s: string)
    requires Literal(head) && head <= pattern && Wildcard.Glob(pattern, s)
    ensures head <= s
    decreases |head|
  {
    if head != "" {
      var piece, rest := Wildcard.GlobUncons(pattern, s);
      assert pattern[0] == head[0] && head[0] in head;
      GlobKeepsPrefix(head[1..], pattern[1..], rest);
      assert head == [head[0]] + head[1..] && s == [head[0]] + rest;
    }
  }

  lemma MatchesOfReadPatterns(pattern: string, a: string)
    requires ReadName(pattern) && Policy.PatternMatches(pattern, a)
    ensures ReadName(a)
  {
    Wildcard.RegexDenotesGlob(pattern, a);
    if "s3:get" <= pattern { GlobKeepsPrefix("s3:get", pattern, a); } else { GlobKeepsPrefix("s3:list", pattern, a); }
  }

  /** The condition is met by every policy whose Allow statements name patterns under s3:get and s3:list. */
  lemma GetAndListPatternsAreReadOnly(policy: seq<Policy.Statement>)
    requires forall s :: s in policy && s.effect == Policy.Allow ==>
      !s.notAction && forall pattern :: pattern in s.actions ==> ReadName(pattern)
    ensures ReadOnly(policy)
  {
    forall s, a | s in policy && s.effect == Policy.Allow && Policy.AnyPattern(s.actions, a) != s.notAction
      ensures ReadName(a)
    {
      var pattern :| pattern in s.actions && Policy.PatternMatches(pattern, a);
      MatchesOfReadPatterns(pattern, a);
    }
  }
}
