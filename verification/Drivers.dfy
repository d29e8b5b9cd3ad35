/** What the Sidecar accepts from a driver when it connects, and how it reads the driver's error codes. */
module Drivers {
  import opened Objects
  import opened Rpc
  import opened Errors

  // Error codes

  /** The recovery behaviour of the error scheme in the COSI gRPC specification. */
  predicate Retryable(c: Code) {
    match c
    case InvalidArgument => false
    case AlreadyExists => false
    case Unimplemented => false
    case _ => true
  }

  function RpcError(c: Code): (e: Error)
    ensures IsNonRetryable(e) <==> c in {InvalidArgument, AlreadyExists, Unimplemented}
  {
    if Retryable(c) then Plain else NonRetryable(Plain)
  }

  // Names

  predicate IsLower(c: char) { 'a' <= c <= 'z' }
  predicate IsDigit(c: char) { '0' <= c <= '9' }
  predicate IsUpper(c: char) { 'A' <= c <= 'Z' }
  predicate IsAlnum(c: char) { IsLower(c) || IsDigit(c) || IsUpper(c) }

  /** A label of section 2.3.1 of RFC 1035, in lower case. */
  predicate IsLabel(s: string) {
    && s != [] && IsLower(s[0]) && (IsLower(s[|s| - 1]) || IsDigit(s[|s| - 1]))
    && forall i :: 0 <= i < |s| ==> IsLower(s[i]) || IsDigit(s[i]) || s[i] == '-'
  }

  /** A subdomain of section 2.3.1 of RFC 1035: a label, or a subdomain, a dot and a label. */
  predicate IsSubdomain(s: string) {
    IsLabel(s) || exists i :: 0 <= i < |s| && s[i] == '.' && IsSubdomain(s[..i]) && IsLabel(s[i + 1..])
  }

  /** The parts of `s` between dots; the empty string has one empty part. */
  function Split(s: string): (parts: seq<string>)
    ensures parts != []
  {
    if s == [] then [[]]
    else
      var parts := Split(s[..|s| - 1]);
      if s[|s| - 1] == '.' then parts + [[]]
      else parts[..|parts| - 1] + [parts[|parts| - 1] + [s[|s| - 1]]]
  }

  function Join(parts: seq<string>): string
    requires parts != []
  {
    if |parts| == 1 then parts[0] else Join(parts[..|parts| - 1]) + "." + parts[|parts| - 1]
  }

  /** Splitting undoes joining parts that contain no dot. */
  lemma {:induction false} SplitJoins(s: string)
    ensures Join(Split(s)) == s && forall i :: 0 <= i < |Split(s)| ==> '.' !in Split(s)[i]
  {
    if s != [] {
      var init, parts := s[..|s| - 1], Split(s[..|s| - 1]);
      SplitJoins(init);
      if s[|s| - 1] == '.' {
        assert Split(s)[..|parts|] == parts;
      } else {
        assert Split(s)[..|parts| - 1] == parts[..|parts| - 1];
      }
      assert s == init + [s[|s| - 1]];
    }
  }

  predicate AllLabels(parts: seq<string>) { forall i :: 0 <= i < |parts| ==> IsLabel(parts[i]) }

  lemma {:induction false} LabelsJoin(parts: seq<string>)
    requires parts != [] && AllLabels(parts)
    ensures IsSubdomain(Join(parts))
  {
    if |parts| > 1 {
      var init, last := parts[..|parts| - 1], parts[|parts| - 1];
      LabelsJoin(init);
      var s, i := Join(parts), |Join(init)|;
      assert s[..i] == Join(init) && s[i] == '.' && s[i + 1..] == last;
    }
  }

  /** Without a dot at its end, a string adds to the last part only. */
  lemma {:induction false} SplitAppend(s: string, part: string)
    requires '.' !in part
    ensures Split(s + "." + part) == Split(s) + [part]
    decreases |part|
  {
    var whole := s + "." + part;
    if part == [] {
      assert whole[..|whole| - 1] == s;
    } else {
      var init := part[..|part| - 1];
      SplitAppend(s, init);
      assert whole[..|whole| - 1] == s + "." + init;
      assert part == init + [part[|part| - 1]];
    }
  }

  lemma {:induction false} SplitSingle(part: string)
    requires '.' !in part
    ensures Split(part) == [part]
  {
    if part != [] {
      SplitSingle(part[..|part| - 1]);
      assert part == part[..|part| - 1] + [part[|part| - 1]];
    }
  }

  lemma LabelHasNoDot(s: string)
    requires IsLabel(s)
    ensures '.' !in s
  {
  }

  lemma SubdomainCases(s: string) returns (init: string, last: string)
    requires IsSubdomain(s) && !IsLabel(s)
    ensures s == init + "." + last && |init| < |s| && IsSubdomain(init) && IsLabel(last)
  {
    var i :| 0 <= i < |s| && s[i] == '.' && IsSubdomain(s[..i]) && IsLabel(s[i + 1..]);
    init, last := s[..i], s[i + 1..];
  }

  lemma {:induction false} SubdomainSplits(s: string)
    requires IsSubdomain(s)
    ensures AllLabels(Split(s))
    decreases |s|
  {
    hide IsSubdomain, Split;
    if IsLabel(s) {
      LabelHasNoDot(s);
      SplitSingle(s);
    } else {
      var init, last := SubdomainCases(s);
      SubdomainSplits(init);
      LabelHasNoDot(last);
      SplitAppend(init, last);
    }
  }

  /** The label test of the API machinery also limits the length. */
  predicate IsDns1035Label(s: string) { |s| <= 63 && IsLabel(s) }

  lemma {:induction false} PartsAreShorter(s: string, i: nat)
    requires i < |Split(s)|
    ensures |Split(s)[i]| <= |s|
  {
    if s != [] {
      var parts := Split(s[..|s| - 1]);
      PartsAreShorter(s[..|s| - 1], if i < |parts| then i else |parts| - 1);
    }
  }

  /** Accepts exactly the lower-case domain names of RFC 1035 of at most 63 characters. */
  method ValidateDriverName(n: string) returns (err: Option<Error>)
    ensures err.None? <==> |n| <= 63 && IsSubdomain(n)
  {
    var errs: seq<Error> := [];
    if |n| > 63 { errs := errs + [Plain]; }
    var labels := Split(n);
    for i := 0 to |labels|
      invariant errs == [] <==> |n| <= 63 && forall j :: 0 <= j < i ==> IsDns1035Label(labels[j])
    {
      if !IsDns1035Label(labels[i]) { errs := errs + [Plain]; }
    }
    err := if errs != [] then Some(Plain) else None;
    forall j | 0 <= j < |labels| ensures |labels[j]| <= |n| { PartsAreShorter(n, j); }
    if err.None? {
      SplitJoins(n);
      LabelsJoin(labels);
    }
    if IsSubdomain(n) { SubdomainSplits(n); }
  }

  /** The pattern and the length limits that Bucket and BucketAccess objects put on driver names. */
  predicate MatchesDriverPattern(s: string) {
    && 1 <= |s| <= 63 && IsAlnum(s[0]) && IsAlnum(s[|s| - 1])
    && forall i :: 0 <= i < |s| ==> IsAlnum(s[i]) || s[i] == '-' || s[i] == '.'
  }

  lemma {:induction false} SubdomainMatches(s: string)
    requires IsSubdomain(s)
    ensures s != [] && IsAlnum(s[0]) && IsAlnum(s[|s| - 1])
    ensures forall i :: 0 <= i < |s| ==> IsAlnum(s[i]) || s[i] == '-' || s[i] == '.'
    decreases |s|
  {
    hide IsSubdomain;
    if !IsLabel(s) {
      var init, last := SubdomainCases(s);
      SubdomainMatches(init);
    }
  }

  /** So every accepted driver can be named by the objects that are meant for it. */
  lemma AcceptedIsAddressable(n: string)
    requires |n| <= 63 && IsSubdomain(n)
    ensures MatchesDriverPattern(n)
  {
    SubdomainMatches(n);
  }

  // Protocols

  /** Accepts exactly non-empty lists of known protocols without repetition. */
  method ParseProtocols(list: seq<RpcProtocol>) returns (out: seq<RpcProtocol>, err: Option<Error>)
    ensures err.None? <==>
        list != [] && UnknownProtocol !in list && (forall i, j :: 0 <= i < j < |list| ==> list[i] != list[j])
    ensures err.None? ==> out == list
    ensures err.Some? ==> out == []
  {
    out := [];
    if |list| == 0 { return [], Some(Plain); }
    var seen: set<RpcProtocol> := {};
    for i := 0 to |list|
      invariant out == list[..i] && seen == set j | 0 <= j < i :: list[j]
      invariant UnknownProtocol !in list[..i] && forall j, k :: 0 <= j < k < i ==> list[j] != list[k]
    {
      if list[i] == UnknownProtocol { return [], Some(Plain); }
      if list[i] in seen { return [], Some(Plain); }
      out := out + [list[i]];
      seen := seen + {list[i]};
    }
    err := None;
  }
}
