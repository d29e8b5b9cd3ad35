/** Why what the Controller read justifies initialising a BucketAccess. */
module ControllerEvidence {
  import opened Objects
  import opened Runs
  import opened Rules
  import opened Invariants
  import opened Bindings
  import opened ControllerRely
  import opened ControllerChecks
  import opened ControllerMarks

  // Classes

  predicate GoodClass(o: Object) {
    o.body.AccessClass? ==> o.body.classSpec.driverName != "" && o.body.classSpec.auth != NoAuth
  }

  lemma ClassStep(r: Run, actor: Actor, ref: Ref, n: Object)
    requires ref.kind == AccessClassKind && Enabled(r, Change(actor, ref, Some(n)))
    requires ref in r.world.objs ==> GoodClass(r.world.objs[ref])
    ensures GoodClass(n)
  {
  }

  lemma {:induction false} SeenClassGood(r: Run, ref: Ref, o: Object)
    requires IsRun(r) && ref.kind == AccessClassKind && Seen(r, ref, o)
    ensures GoodClass(o)
  {
    hide Permitted, Enabled;
    if r.More? && !Seen(r.prev, ref, o) {
      var e := r.event;
      assert e.Change? && e.ref == ref;
      if ref in r.prev.world.objs { SeenClassGood(r.prev, ref, r.prev.world.objs[ref]); }
      ClassStep(r.prev, e.actor, ref, e.now.value);
    } else if r.More? {
      SeenClassGood(r.prev, ref, o);
    }
  }

  lemma {:induction false} SeenAllows(r: Run, spec: AccessSpec, o: Object, s: AccessStatus)
    requires Seen(r, Ref(AccessClassKind, "", spec.className), o) && o.body.AccessClass?
    requires Allowed(o.body.classSpec, spec)
    requires s.driverName == o.body.classSpec.driverName && s.auth == o.body.classSpec.auth
    requires s.params == o.body.classSpec.params
    ensures EverAllowed(r, spec, s)
  {
    var ref := Ref(AccessClassKind, "", spec.className);
    if !(ref in r.world.objs && r.world.objs[ref] == o) { SeenAllows(r.prev, spec, o, s); }
  }

  // Claims and Buckets

  lemma {:induction false} SeenClaimGood(r: Run, ref: Ref, o: Object)
    requires IsRun(r) && ref.kind == ClaimKind && Seen(r, ref, o) && o.body.Claim?
    ensures GoodClaim(r, o) && o.meta.uid != ""
  {
    hide Permitted, Enabled;
    if ref in r.world.objs && r.world.objs[ref] == o {
      ClaimsHold(r, ref);
      BasicHolds(r);
    } else {
      SeenClaimGood(r.prev, ref, o);
    }
  }

  lemma {:induction false} SeenOffers(r: Run, ref: Ref, o: Object, p: Protocol)
    requires Seen(r, ref, o) && o.body.Claim? && !o.meta.deleting
    requires o.body.cstatus.ready == Some(true) && p in o.body.cstatus.protocols
    ensures EverOffered(r, ref, p, o.body.cstatus.bound)
  {
    if !(ref in r.world.objs && r.world.objs[ref] == o) { SeenOffers(r.prev, ref, o, p); }
  }

  lemma {:induction false} SeenHasId(r: Run, bucket: string, o: Object)
    requires Seen(r, BucketRef(bucket), o) && o.body.Bucket?
    ensures EverHadId(r, bucket, o.body.bstatus.id)
  {
    if !(BucketRef(bucket) in r.world.objs && r.world.objs[BucketRef(bucket)] == o) { SeenHasId(r.prev, bucket, o); }
  }

  /** A marked claim, ready for the protocol, and the Bucket it is bound to make an entry of the list. */
  lemma EntryEvidence(r: Run, key: Ref, p: Protocol, name: string, o: Object, b: Object)
    requires IsRun(r) && Known(r, key, name, o) && MarkIs(r.world, ClaimRefOf(key, name), o.meta.uid, true)
    requires !Blocks(o, p) && o.body.cstatus.ready == Some(true) && o.body.cstatus.bound != ""
    requires Seen(r, BucketRef(o.body.cstatus.bound), b) && b.body.Bucket?
    ensures EverOffered(r, ClaimRefOf(key, name), p, o.body.cstatus.bound)
    ensures EverHadId(r, o.body.cstatus.bound, b.body.bstatus.id)
    ensures MarkKept(r, key, AccessedBucket(o.body.cstatus.bound, b.body.bstatus.id, name))
  {
    hide Permitted, Enabled, IsRun, Seen;
    var ref, bucket := ClaimRefOf(key, name), o.body.cstatus.bound;
    SeenClaimGood(r, ref, o);
    SeenOffers(r, ref, o, p);
    SeenHasId(r, bucket, b);
    if ref in r.world.objs && EverBound(r, bucket, r.world.objs[ref].meta.uid) {
      BasicHolds(r);
      BindingUnique(r, bucket, o.meta.uid, r.world.objs[ref].meta.uid);
    }
  }

  ghost predicate SeenBuckets(r: Run, claims: Claims, buckets: Buckets) {
    forall name :: name in buckets && buckets[name].Some? ==>
      && name in claims && claims[name].Some? && claims[name].value.body.Claim?
      && buckets[name].value.name == claims[name].value.body.cstatus.bound
      && Seen(r, BucketRef(buckets[name].value.name), buckets[name].value.obj) && buckets[name].value.obj.body.Bucket?
  }

  /** All checks on the claims and their Buckets passed. */
  ghost predicate Passed(claims: Claims, buckets: Buckets, p: Protocol) {
    && AllClaims(claims) && AllBuckets(buckets)
    && (forall name :: name in claims && claims[name].Some? ==> !Blocks(claims[name].value, p))
    && (forall name :: name in claims ==> WaitsFor(claims[name], buckets, name).None?)
  }

  ghost predicate Compiled(list: seq<ClaimAccess>, buckets: Buckets, accessed: seq<AccessedBucket>) {
    && |accessed| == |list|
    && forall i :: 0 <= i < |list| ==>
         && HasBucket(buckets, list[i].claimName) && buckets[list[i].claimName].value.obj.body.Bucket?
         && buckets[list[i].claimName].value.obj.body.bstatus.id != ""
         && accessed[i] == AccessedBucket(buckets[list[i].claimName].value.name,
                                          buckets[list[i].claimName].value.obj.body.bstatus.id, list[i].claimName)
  }

  /** Everything that the Controller gathered for one access. */
  ghost predicate Gathered(r: Run, key: Ref, spec: AccessSpec, claims: Claims, buckets: Buckets,
                           accessed: seq<AccessedBucket>) {
    && (forall name :: name in claims <==> NamesClaim(spec.claims, name))
    && KnownAll(r, key, claims) && MarkedBut(r.world, key, claims, {}) && SeenBuckets(r, claims, buckets)
    && Passed(claims, buckets, spec.protocol) && Compiled(spec.claims, buckets, accessed)
  }

  function Initialised(a: Object, accessed: seq<AccessedBucket>, cls: AccessClassSpec): Object
    requires a.body.Access?
  {
    WithAccessStatus(a, a.body.astatus.(
      ready := OrFalse(a.body.astatus.ready), accessed := accessed, driverName := cls.driverName,
      auth := cls.auth, params := cls.params, failed := false))
  }

  lemma GatheredEntry(r: Run, key: Ref, spec: AccessSpec, claims: Claims, buckets: Buckets,
                      accessed: seq<AccessedBucket>, i: nat)
    requires IsRun(r) && Gathered(r, key, spec, claims, buckets, accessed) && i < |spec.claims|
    ensures accessed[i].claimName == spec.claims[i].claimName && accessed[i].bucketId != ""
    ensures EverOffered(r, ClaimRefOf(key, spec.claims[i].claimName), spec.protocol, accessed[i].bucketName)
    ensures EverHadId(r, accessed[i].bucketName, accessed[i].bucketId) && MarkKept(r, key, accessed[i])
  {
    hide Permitted, Enabled, IsRun, Seen, EverOffered, EverHadId, MarkKept, Known, MarkIs, Blocks;
    var name := spec.claims[i].claimName;
    assert NamesClaim(spec.claims, name);
    assert WaitsFor(claims[name], buckets, name).None?;
    EntryEvidence(r, key, spec.protocol, name, claims[name].value, buckets[name].value.obj);
  }

  lemma GatheredInitialises(r: Run, key: Ref, a: Object, claims: Claims, buckets: Buckets,
                            accessed: seq<AccessedBucket>, cls: AccessClassSpec)
    requires IsRun(r) && a.body.Access? && !a.meta.deleting && IsProtected(a) && a.body.astatus.driverName == ""
    requires EverAllowed(r, a.body.aspec, Initialised(a, accessed, cls).body.astatus)
    requires UniqueClaims(a.body.aspec.claims) && a.body.aspec.claims != [] && cls.driverName != ""
    requires cls.auth != NoAuth
    requires Gathered(r, key, a.body.aspec, claims, buckets, accessed)
    ensures Initialises(r, key, a, Initialised(a, accessed, cls).body.astatus)
  {
    hide Permitted, Enabled, IsRun, EverOffered, EverHadId, EverAllowed, MarkKept, UniqueClaims, Passed, SeenBuckets,
         KnownAll, MarkedBut, Compiled;
    CompiledLength(a.body.aspec.claims, buckets, accessed);
    forall i | 0 <= i < |a.body.aspec.claims|
      ensures accessed[i].claimName == a.body.aspec.claims[i].claimName && accessed[i].bucketId != ""
      ensures EverOffered(r, ClaimRefOf(key, a.body.aspec.claims[i].claimName), a.body.aspec.protocol,
                          accessed[i].bucketName)
      ensures EverHadId(r, accessed[i].bucketName, accessed[i].bucketId) && MarkKept(r, key, accessed[i])
    {
      GatheredEntry(r, key, a.body.aspec, claims, buckets, accessed, i);
    }
  }

  lemma CompiledLength(list: seq<ClaimAccess>, buckets: Buckets, accessed: seq<AccessedBucket>)
    requires Compiled(list, buckets, accessed)
    ensures |accessed| == |list|
  {
  }
}
