/** Base-host lookup and bucket resolution: controlplane/lookup.go and http_server/vbucket.go. */
module Hosts {
  import opened Common
  import opened Text

  datatype Answer = Unsynchronized | Invalid | Missing | Found(base: string)

  function Canonical(hostname: string): string {
    var h := TrimSpace(hostname);
    Lower(if h != "" && h[|h| - 1] == '.' then h[..|h| - 1] else h)
  }

  predicate LabelChar(c: char) {
    'a' <= c <= 'z' || '0' <= c <= '9' || c == '-'
  }

  predicate ValidLabel(l: string) {
    0 < |l| <= 63 && l[0] != '-' && l[|l| - 1] != '-' && forall c :: c in l ==> LabelChar(c)
  }

  predicate ValidHost(h: string) {
    0 < |h| <= 253 && forall l :: l in Split(h, ".") ==> ValidLabel(l)
  }

  /** `base` is the whole host or follows one of its dots. */
  ghost predicate LabelSuffix(base: string, host: string) {
    base == host || exists front :: host == front + "." + base
  }

  lemma SuffixOfLabels(host: string, i: nat)
    requires i < |Split(host, ".")|
    ensures LabelSuffix(Join(Split(host, ".")[i..], "."), host)
  {
    var labels := Split(host, ".");
    JoinUndoesSplit(host, ".");
    if i == 0 {
      assert labels[0..] == labels;
    } else {
      assert labels == labels[..i] + labels[i..];
      JoinAppend(labels[..i], labels[i..], ".");
    }
  }

  lemma LabelsOfSuffix(base: string, host: string) returns (i: nat)
    requires LabelSuffix(base, host)
    ensures i < |Split(host, ".")| && Join(Split(host, ".")[i..], ".") == base
  {
    var labels := Split(host, ".");
    JoinUndoesSplit(base, ".");
    if base == host {
      i := 0;
      assert labels[0..] == labels;
    } else {
      var front :| host == front + "." + base;
      SplitAppend(front, '.', base);
      assert front + ['.'] + base == host;
      i := |Split(front, ".")|;
      assert labels[i..] == Split(base, ".");
    }
  }

  lemma LongerBefore(labels: seq<string>, i: nat, j: nat)
    requires i < j < |labels|
    ensures |Join(labels[i..], ".")| > |Join(labels[j..], ".")|
  {
    assert labels[i..] == labels[i..j] + labels[j..];
    JoinAppend(labels[i..j], labels[j..], ".");
  }

  method ValidateHost(h: string) returns (ok: bool)
    ensures ok <==> ValidHost(h)
  {
    if |h| == 0 || |h| > 253 { return false; }
    var labels := Split(h, ".");
    for i := 0 to |labels|
      invariant forall k :: 0 <= k < i ==> ValidLabel(labels[k])
    {
      if !ValidLabel(labels[i]) { return false; }
    }
    return true;
  }

  /** The longest registered label suffix of a valid host, and a miss only when there is none. */
  method LookupBaseHost(ready: bool, hostname: string, isAddress: string -> bool, registry: set<string>)
    returns (a: Answer)
    ensures var host := Canonical(hostname);
      match a
      case Unsynchronized => !ready
      case Invalid => ready && !isAddress(host) && !ValidHost(host)
      case Missing => ready && (isAddress(host) || forall b :: LabelSuffix(b, host) ==> b !in registry)
      case Found(base) =>
        && ready && !isAddress(host) && ValidHost(host) && base in registry && LabelSuffix(base, host)
        && forall b :: LabelSuffix(b, host) && b in registry ==> |b| <= |base|
  {
    if !ready { return Unsynchronized; }
    var host := Canonical(hostname);
    if isAddress(host) { return Missing; }
    var valid := ValidateHost(host);
    if !valid { return Invalid; }
    var labels := Split(host, ".");
    for i := 0 to |labels|
      invariant forall k :: 0 <= k < i ==> Join(labels[k..], ".") !in registry
    {
      var candidate := Join(labels[i..], ".");
      if candidate in registry {
        SuffixOfLabels(host, i);
        forall b | LabelSuffix(b, host) && b in registry ensures |b| <= |candidate| {
          var k := LabelsOfSuffix(b, host);
          if k > i { LongerBefore(labels, i, k); }
        }
        return Found(candidate);
      }
    }
    forall b | LabelSuffix(b, host) ensures b !in registry { var k := LabelsOfSuffix(b, host); }
    return Missing;
  }

  lemma FrontOf(host: string, base: string)
    requires LabelSuffix(base, host) && base != host
    ensures |base| < |host| && host[..|host| - |base| - 1] + "." + base == host
  {
  }

  /** Path style: the first segment is the bucket, what follows its slash is the key. */
  method ResolvePath(rest: string) returns (bucket: string, key: string)
    ensures '/' !in bucket
    ensures if '/' in rest then rest == bucket + "/" + key else rest == bucket && key == ""
  {
    var parts := SplitN(rest, "/", 2);
    SplitStep(rest, '/');
    bucket, key := parts[0], if |parts| > 1 then parts[1] else "";
  }

  /** Virtual-hosted style takes the bucket from the host, path style from the first path segment. */
  method ResolveBucket(host: string, path: string, base: Option<string>) returns (bucket: string, key: string, virtual: bool)
    requires base.Some? ==> LabelSuffix(base.value, host)
    ensures virtual <==> base.Some? && base.value != host
    ensures virtual ==> bucket + "." + base.value == host && key == TrimPrefix(path, "/")
    ensures var rest := TrimPrefix(path, "/");
      !virtual ==> '/' !in bucket && if '/' in rest then rest == bucket + "/" + key else rest == bucket && key == ""
  {
    virtual := base.Some? && base.value != host;
    if virtual {
      FrontOf(host, base.value);
      bucket, key := host[..|host| - |base.value| - 1], TrimPrefix(path, "/");
    } else {
      bucket, key := ResolvePath(TrimPrefix(path, "/"));
    }
  }
}
