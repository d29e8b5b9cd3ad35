/** The checks that the Controller makes on what it read for a BucketAccess. */
module ControllerChecks {
  import opened Objects
  import opened Errors
  import opened Rules

  /** A claim that does not exist is None. */
  type Claims = map<string, Option<Object>>

  datatype Found = Found(name: string, obj: Object)

  /** A claim without a bound Bucket has None. */
  type Buckets = map<string, Option<Found>>

  ghost predicate AllClaims(claims: Claims) {
    forall name :: name in claims && claims[name].Some? ==> claims[name].value.body.Claim?
  }

  ghost predicate AllBuckets(buckets: Buckets) {
    forall name :: name in buckets && buckets[name].Some? ==> buckets[name].value.obj.body.Bucket?
  }

  // References

  /** How often the list names the claim. */
  function Mentions(claims: seq<ClaimAccess>, name: string): nat {
    if claims == [] then 0
    else Mentions(claims[..|claims| - 1], name) + (if claims[|claims| - 1].claimName == name then 1 else 0)
  }

  lemma {:induction false} MentionsNone(claims: seq<ClaimAccess>, name: string)
    ensures Mentions(claims, name) == 0 <==> !NamesClaim(claims, name)
  {
    if claims != [] {
      var init := claims[..|claims| - 1];
      MentionsNone(init, name);
      if NamesClaim(init, name) {
        var i :| 0 <= i < |init| && init[i].claimName == name;
        assert claims[i].claimName == name;
      }
      assert forall i :: 0 <= i < |init| ==> init[i] == claims[i];
    }
  }

  lemma UniqueAppend(claims: seq<ClaimAccess>, i: nat)
    requires i < |claims|
    ensures UniqueClaims(claims[..i + 1]) <==>
        UniqueClaims(claims[..i]) && !NamesClaim(claims[..i], claims[i].claimName)
  {
    var shorter, longer := claims[..i], claims[..i + 1];
    assert longer[i] == claims[i];
    assert forall j :: 0 <= j < i ==> shorter[j] == longer[j];
  }

  /** Fails exactly on a repeated claim; the counts go into the message. */
  method ValidateUnique(claims: seq<ClaimAccess>) returns (counts: map<string, nat>, err: Option<Error>)
    ensures err.None? <==> UniqueClaims(claims)
    ensures err.Some? ==> IsNonRetryable(err.value)
    ensures forall name :: name in counts <==> NamesClaim(claims, name)
    ensures forall name :: name in counts ==> counts[name] == Mentions(claims, name)
  {
    counts := map[];
    var repeated := false;
    for i := 0 to |claims|
      invariant forall name :: name in counts <==> Mentions(claims[..i], name) > 0
      invariant forall name :: name in counts ==> counts[name] == Mentions(claims[..i], name)
      invariant !repeated <==> UniqueClaims(claims[..i])
    {
      var name := claims[i].claimName;
      assert claims[..i + 1][..i] == claims[..i];
      UniqueAppend(claims, i);
      MentionsNone(claims[..i], name);
      if name !in counts {
        counts := counts[name := 1];
      } else {
        counts := counts[name := counts[name] + 1];
        repeated := true;
      }
    }
    assert claims[..|claims|] == claims;
    forall name ensures Mentions(claims, name) == 0 <==> !NamesClaim(claims, name) { MentionsNone(claims, name); }
    err := if repeated then Some(NonRetryable(Plain)) else None;
  }

  /** Another access in the list names the claim. */
  ghost predicate NamedElsewhere(items: map<Ref, Object>, name: string, ignore: string) {
    exists k :: k in items && k.name != ignore && items[k].body.Access? && NamesClaim(items[k].body.aspec.claims, name)
  }

  method HasReferences(name: string, items: map<Ref, Object>, ignore: string) returns (found: bool)
    requires forall k :: k in items ==> items[k].body.Access?
    ensures found <==> NamedElsewhere(items, name, ignore)
  {
    var todo := items.Keys;
    while todo != {}
      invariant todo <= items.Keys
      invariant forall k ::
          k in items && k !in todo && k.name != ignore ==> !NamesClaim(items[k].body.aspec.claims, name)
      decreases |todo|
    {
      var k :| k in todo;
      todo := todo - {k};
      if k.name != ignore {
        var claims := items[k].body.aspec.claims;
        for i := 0 to |claims|
          invariant forall j :: 0 <= j < i ==> claims[j].claimName != name
        {
          if claims[i].claimName == name {
            assert NamesClaim(claims, name);
            return true;
          }
        }
      }
    }
    return false;
  }

  // Class

  method ValidateAgainstClass(cls: AccessClassSpec, spec: AccessSpec) returns (err: Option<Error>)
    ensures err.None? <==> Allowed(cls, spec)
  {
    var errs: seq<Error> := [];
    if cls.auth == ServiceAccount && spec.serviceAccount == "" { errs := errs + [Plain]; }
    if !cls.multiBucket && |spec.claims| > 1 { errs := errs + [Plain]; }
    for i := 0 to |spec.claims|
      invariant errs == [] <==>
                && (cls.auth == ServiceAccount ==> spec.serviceAccount != "") && (cls.multiBucket || |spec.claims| <= 1)
                && forall j :: 0 <= j < i ==> spec.claims[j].mode !in cls.disallowedModes
    {
      if spec.claims[i].mode in cls.disallowedModes { errs := errs + [Plain]; }
    }
    err := if errs != [] then Some(Wrapped(Joined(errs))) else None;
  }

  // Claims

  /** Claims without a protocol list do not block. */
  ghost predicate Blocks(c: Object, p: Protocol)
    requires c.body.Claim?
  {
    c.meta.deleting || (c.body.cstatus.protocols != [] && p !in c.body.cstatus.protocols)
  }

  method CannotAccess(claims: Claims, p: Protocol) returns (blockers: seq<string>)
    requires AllClaims(claims)
    ensures blockers == [] <==> forall name :: name in claims && claims[name].Some? ==> !Blocks(claims[name].value, p)
  {
    blockers := [];
    var todo := claims.Keys;
    while todo != {}
      invariant todo <= claims.Keys
      invariant blockers == [] <==>
                forall name :: name in claims && name !in todo && claims[name].Some? ==> !Blocks(claims[name].value, p)
      decreases |todo|
    {
      var name :| name in todo;
      ghost var before := todo;
      todo := todo - {name};
      if claims[name].Some? {
        var c := claims[name].value;
        if c.meta.deleting { blockers := blockers + [name]; }
        if |c.body.cstatus.protocols| > 0 && p !in c.body.cstatus.protocols { blockers := blockers + [name]; }
      }
    }
  }

  datatype Wait = NoClaim | Unbound | MissingEntry | NoBucket | NoId | NotReady

  /** What one claim still lacks, in the order of the checks. */
  function WaitsFor(claim: Option<Object>, buckets: Buckets, name: string): Option<Wait>
    requires claim.Some? ==> claim.value.body.Claim?
    requires name in buckets && buckets[name].Some? ==> buckets[name].value.obj.body.Bucket?
  {
    if claim.None? then Some(NoClaim)
    else if claim.value.body.cstatus.bound == "" then Some(Unbound)
    else if name !in buckets then Some(MissingEntry)
    else if buckets[name].None? then Some(NoBucket)
    else if buckets[name].value.obj.body.bstatus.id == "" then Some(NoId)
    else if claim.value.body.cstatus.ready != Some(true) then Some(NotReady)
    else None
  }

  /** One entry per claim, with a Bucket exactly for the bound claims. */
  ghost predicate Fetched(claims: Claims, buckets: Buckets) {
    && AllClaims(claims) && AllBuckets(buckets) && buckets.Keys == claims.Keys
    && forall name :: name in claims ==>
         (buckets[name].Some? <==> claims[name].Some? && claims[name].value.body.cstatus.bound != "")
  }

  /** With a Bucket fetched for every bound claim, the two internal errors do not occur. */
  method WaitingOn(claims: Claims, buckets: Buckets) returns (waits: seq<Wait>)
    requires AllClaims(claims) && AllBuckets(buckets)
    ensures waits == [] <==> forall name :: name in claims ==> WaitsFor(claims[name], buckets, name).None?
    ensures Fetched(claims, buckets) ==> MissingEntry !in waits && NoBucket !in waits
  {
    waits := [];
    var todo := claims.Keys;
    while todo != {}
      invariant todo <= claims.Keys
      invariant waits == [] <==> forall name ::
          name in claims && name !in todo ==> WaitsFor(claims[name], buckets, name).None?
      invariant Fetched(claims, buckets) ==> MissingEntry !in waits && NoBucket !in waits
      decreases |todo|
    {
      var name :| name in todo;
      todo := todo - {name};
      var wait := WaitsFor(claims[name], buckets, name);
      if wait.Some? { waits := waits + [wait.value]; }
    }
  }

  // Accessed Buckets

  predicate HasBucket(buckets: Buckets, name: string) { name in buckets && buckets[name].Some? }

  /** Follows the order of the claims. */
  method CompileAccessed(claims: seq<ClaimAccess>, buckets: Buckets)
    returns (accessed: seq<AccessedBucket>, err: Option<Error>)
    requires AllBuckets(buckets)
    ensures err.None? <==> forall i :: 0 <= i < |claims| ==>
              HasBucket(buckets, claims[i].claimName) && buckets[claims[i].claimName].value.obj.body.bstatus.id != ""
    ensures err.None? ==> |accessed| == |claims|
    ensures err.None? ==> forall i :: 0 <= i < |claims| ==>
              accessed[i] == AccessedBucket(buckets[claims[i].claimName].value.name,
                                            buckets[claims[i].claimName].value.obj.body.bstatus.id, claims[i].claimName)
  {
    accessed := [];
    var missing: seq<string> := [];
    for i := 0 to |claims|
      invariant |accessed| == i
      invariant forall j :: 0 <= j < i ==> HasBucket(buckets, claims[j].claimName)
      invariant missing == [] <==> forall j ::
          0 <= j < i ==> buckets[claims[j].claimName].value.obj.body.bstatus.id != ""
      invariant forall j :: 0 <= j < i && buckets[claims[j].claimName].value.obj.body.bstatus.id != "" ==>
                  accessed[j] == AccessedBucket(buckets[claims[j].claimName].value.name,
                                                buckets[claims[j].claimName].value.obj.body.bstatus.id,
                                                claims[j].claimName)
    {
      var name := claims[i].claimName;
      if !HasBucket(buckets, name) { return [], Some(Plain); }
      var found := buckets[name].value;
      if found.obj.body.bstatus.id == "" {
        missing := missing + [name];
        accessed := accessed + [AccessedBucket("", "", "")];
      } else {
        accessed := accessed + [AccessedBucket(found.name, found.obj.body.bstatus.id, name)];
      }
    }
    if missing != [] { return [], Some(Plain); }
    err := None;
  }

  /** Once nothing is waited for, the list can always be compiled. */
  lemma NothingMissing(claims: Claims, buckets: Buckets, list: seq<ClaimAccess>)
    requires AllClaims(claims) && AllBuckets(buckets)
    requires forall i :: 0 <= i < |list| ==> list[i].claimName in claims
    requires forall name :: name in claims ==> WaitsFor(claims[name], buckets, name).None?
    ensures forall i :: 0 <= i < |list| ==>
              HasBucket(buckets, list[i].claimName) && buckets[list[i].claimName].value.obj.body.bstatus.id != ""
  {
    forall i | 0 <= i < |list|
      ensures HasBucket(buckets, list[i].claimName) && buckets[list[i].claimName].value.obj.body.bstatus.id != ""
    {
      assert WaitsFor(claims[list[i].claimName], buckets, list[i].claimName).None?;
    }
  }
}
