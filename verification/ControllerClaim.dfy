/** The Controller's BucketClaim reconciler: provisioning and binding. */
module ControllerClaim {
  import opened Objects
  import opened Errors
  import opened Runs
  import opened Rules
  import opened Invariants
  import opened Bindings
  import opened Clusters
  import opened Rely
  import opened ClaimRely

  // Decisions

  /** The recorded name must be the determined one. */
  function DetermineBucketName(c: Object): (name: Option<string>)
    requires c.body.Claim?
    ensures name.Some? <==> Once(c.body.cstatus.bound, "", BucketNameFor(c))
    ensures name.Some? ==> name.value == BucketNameFor(c) != ""
  {
    var name := if c.body.cspec.existingBucket != "" then c.body.cspec.existingBucket else "bc-" + c.meta.uid;
    if c.body.cstatus.bound != "" && c.body.cstatus.bound != name then None else Some(name)
  }

  datatype Binding = BoundHere | Unbound | Mismatch

  /** A Bucket is bound to a claim when its reference is the claim in full, unbound when only the UID is missing. */
  method BindingOf(b: Object, key: Ref, c: Object) returns (binding: Binding)
    requires b.body.Bucket?
    ensures c.meta.uid != "" ==>
        (binding.BoundHere? <==> b.body.bspec.claimRef == ClaimRef(key.ns, key.name, c.meta.uid))
    ensures binding.Unbound? <==> b.body.bspec.claimRef == ClaimRef(key.ns, key.name, "")
  {
    var cr, errs := b.body.bspec.claimRef, [];
    if cr.ns != key.ns { errs := errs + [Plain]; }
    if cr.name != key.name { errs := errs + [Plain]; }
    if cr.uid == "" {
      return if |errs| > 0 then Mismatch else Unbound;
    }
    if cr.uid != c.meta.uid { errs := errs + [Plain]; }
    return if |errs| > 0 then Mismatch else BoundHere;
  }

  // Protection

  lemma SafeProtect(r: Run, key: Ref, c: Object)
    requires IsRun(r) && key.kind == ClaimKind && Seen(r, key, c) && c.body.Claim? && !c.meta.deleting
    requires UpdateApplies(r.world, key, WithFinalizer(c))
    ensures key in r.world.objs && r.world.objs[key] == c && Updated(c, WithFinalizer(c)) == Some(WithFinalizer(c))
    ensures Enabled(r, Change(ClaimController(key), key, Some(WithFinalizer(c))))
  {
    hide IsRun, Seen;
    SeenIsCurrent(r, key, c);
  }

  lemma ProtectApplies(w: World, key: Ref, a: Object)
    requires key.kind == ClaimKind && Current(w, key, a) && a.body.Claim? && !a.meta.deleting
    ensures UpdateApplies(w, key, WithFinalizer(a))
  {
  }

  method ProtectClaim(c: Cluster, key: Ref, a: Object) returns (acc: Object, err: Option<Error>)
    requires c.Valid() && key.kind == ClaimKind && key in c.run.world.objs && c.run.world.objs[key] == a
    requires a.body.Claim? && !a.meta.deleting
    modifies c
    ensures c.Valid() && Prefix(old(c.run), c.run)
    ensures err.None? ==> Live(c.run, key, acc) && Seen(c.run, key, acc) && !acc.meta.deleting && IsProtected(acc)
    ensures acc.body == a.body && acc.meta.uid == a.meta.uid
    ensures err.Some? ==> Recordable(c.run, key, acc)
    ensures old(c.Calm()) ==> err.None? && c.Calm() && Current(c.run.world, key, acc)
    ensures old(c.Calm()) ==> SameBut(old(c.run).world, c.run.world, {key})
  {
    hide Permitted, Enabled, Conforms, UpdateApplies, Updated, IsRun, OnlyOthers;
    ProtectApplies(c.run.world, key, a);
    if IsProtected(a) { return a, None; }
    var me := ClaimController(key);
    ghost var r0 := c.run;
    c.Yield(me);
    ghost var r1 := c.run;
    OthersPrefix(me, r0, r1);
    SeenStays(me, r0, r1, key, a);
    if UpdateApplies(c.run.world, key, WithFinalizer(a)) { SafeProtect(r1, key, a); }
    var updated := c.Update(me, key, WithFinalizer(a));
    match updated
    case Ok(o) => acc, err := o, None;
    case Err(_) =>
      SeenLater(r1, c.run, key, a);
      ReadRecordable(c.run, key, a);
      acc, err := WithFinalizer(a), Some(Wrapped(Plain));
  }

  // The Bucket

  /** The Bucket under `name`, as it was read, belongs to the claim and asks for what a dynamic claim asks for. */
  ghost predicate OwnBucket(r: Run, a: Object, name: string, b: Object) {
    && Seen(r, BucketRef(name), b) && b.body.Bucket? && EverBound(r, name, a.meta.uid)
    && (a.body.Claim? && a.body.cspec.existingBucket == "" ==> b.body.bspec.protocols == a.body.cspec.protocols)
  }

  lemma MayCreate(r: Run, key: Ref, a: Object, cls: BucketClassSpec, uid: Uid)
    requires Live(r, key, a) && a.body.cspec.existingBucket == "" && a.body.cstatus.bound == ""
    requires EverBucketClass(r, a.body.cspec.className, cls)
    requires BucketRef(BucketNameFor(a)) !in r.world.objs && uid != "" && uid !in r.world.uids
    ensures
      var bucket := WithUid(IntermediateBucket("", key, a, cls), uid);
      Enabled(r, Change(ClaimController(key), BucketRef(BucketNameFor(a)), Some(bucket)))
  {
    hide EverBucketClass;
    assert WithUid(IntermediateBucket("", key, a, cls), uid) == IntermediateBucket(uid, key, a, cls);
  }

  lemma {:induction false} BucketClassLater(p: Run, r: Run, name: string, cls: BucketClassSpec)
    requires Prefix(p, r) && EverBucketClass(p, name, cls)
    ensures EverBucketClass(r, name, cls)
  {
    if p != r { BucketClassLater(p, r.prev, name, cls); }
  }

  datatype Acquired = Acquired(bucket: Object) | NotAcquired(error: Error)

  /** Only live, unbound claims create, and the claim is not touched on the way. */
  method CreateBucket(c: Cluster, key: Ref, a: Object, cls: BucketClassSpec) returns (res: Acquired)
    requires c.Valid() && Live(c.run, key, a) && a.body.cspec.existingBucket == "" && a.body.cstatus.bound == ""
    requires EverBucketClass(c.run, a.body.cspec.className, cls)
    modifies c
    ensures c.Valid() && Prefix(old(c.run), c.run)
    ensures res.Acquired? ==> OwnBucket(c.run, a, BucketNameFor(a), res.bucket)
    ensures res.Acquired? ==> res.bucket.body == IntermediateBucket("", key, a, cls).body
    ensures old(c.Calm()) ==> c.Calm() && SameBut(old(c.run).world, c.run.world, {BucketRef(BucketNameFor(a))})
    ensures old(c.Calm()) && BucketRef(BucketNameFor(a)) !in old(c.run).world.objs ==> res.Acquired?
  {
    hide Permitted, Enabled, Conforms, IsRun, OnlyOthers, Live, EverBucketClass;
    LiveIsClaim(c.run, key, a);
    var me, ref := ClaimController(key), BucketRef(BucketNameFor(a));
    ghost var r0 := c.run;
    c.Yield(me);
    ghost var r1 := c.run;
    OthersPrefix(me, r0, r1);
    StaysLive(r0, r1, key, a);
    BucketClassLater(r0, r1, a.body.cspec.className, cls);
    if ref !in c.run.world.objs {
      forall uid | uid != "" && uid !in c.run.world.uids
        ensures Enabled(c.run, Change(me, ref, Some(WithUid(IntermediateBucket("", key, a, cls), uid))))
      {
        MayCreate(c.run, key, a, cls, uid);
      }
    }
    var created := c.Create(me, ref, IntermediateBucket("", key, a, cls));
    res := if created.Ok? then Acquired(created.obj) else NotAcquired(Plain);
  }

  /** The claim's class is stored, so that its Bucket can be created. */
  predicate ClassStored(w: World, a: Object) {
    a.body.Claim? && a.body.cspec.className != "" && Ref(BucketClassKind, "", a.body.cspec.className) in w.objs
  }

  /** The Bucket is made from the claim and from the content of its class that was read. */
  method CreateIntermediate(c: Cluster, key: Ref, a: Object) returns (res: Acquired, ghost cls: BucketClassSpec)
    requires c.Valid() && Live(c.run, key, a) && a.body.cspec.existingBucket == "" && a.body.cstatus.bound == ""
    modifies c
    ensures c.Valid() && Prefix(old(c.run), c.run)
    ensures res.Acquired? ==> OwnBucket(c.run, a, BucketNameFor(a), res.bucket)
    ensures res.Acquired? ==> EverBucketClass(c.run, a.body.cspec.className, cls)
    ensures res.Acquired? ==> res.bucket.body == IntermediateBucket("", key, a, cls).body
    ensures old(c.Calm()) ==> c.Calm() && SameBut(old(c.run).world, c.run.world, {BucketRef(BucketNameFor(a))})
    ensures (old(c.Calm()) && ClassStored(old(c.run).world, a)
             && BucketRef(BucketNameFor(a)) !in old(c.run).world.objs) ==>
              res.Acquired?
  {
    hide Permitted, Enabled, IsRun, OnlyOthers, OwnBucket, Prefix, Live;
    ghost var r0 := c.run;
    cls := BucketClassSpec("", Delete, map[]);
    PrefixNext(r0, r0);
    LiveIsClaim(r0, key, a);
    var className := a.body.cspec.className;
    if className == "" { return NotAcquired(NonRetryable(Plain)), cls; }
    var got := c.Get(ClaimController(key), Ref(BucketClassKind, "", className));
    ghost var r1 := c.run;
    OthersPrefix(ClaimController(key), r0, r1);
    if got.Err? { return NotAcquired(Plain), cls; }
    BasicHolds(r1);
    StaysLive(r0, r1, key, a);
    cls := got.obj.body.bucketClassSpec;
    assert BucketClassNow(r1.world, className, cls);
    res := CreateBucket(c, key, a, got.obj.body.bucketClassSpec);
    BucketClassLater(r1, c.run, className, cls);
    PrefixTransitive(r0, r1, c.run);
  }

  lemma LiveIsClaim(r: Run, key: Ref, a: Object)
    requires Live(r, key, a)
    ensures a.body.Claim? && key.kind == ClaimKind && key in r.world.objs && r.world.objs[key].meta.uid == a.meta.uid
    ensures r.world.objs[key].body == a.body
  {
  }

  function Bind(b: Object, key: Ref, uid: Uid): Object
    requires b.body.Bucket?
  {
    b.(body := b.body.(bspec := b.body.bspec.(claimRef := ClaimRef(key.ns, key.name, uid))))
  }

  lemma SafeBind(r: Run, key: Ref, a: Object, b: Object)
    requires IsRun(r) && Live(r, key, a) && a.body.cspec.existingBucket != ""
    requires Seen(r, BucketRef(BucketNameFor(a)), b) && b.body.Bucket?
    requires b.body.bspec.claimRef == ClaimRef(key.ns, key.name, "")
    requires UpdateApplies(r.world, BucketRef(BucketNameFor(a)), Bind(b, key, a.meta.uid))
    ensures BucketRef(BucketNameFor(a)) in r.world.objs && r.world.objs[BucketRef(BucketNameFor(a))] == b
    ensures Updated(b, Bind(b, key, a.meta.uid)) == Some(Bind(b, key, a.meta.uid))
    ensures Enabled(r, Change(ClaimController(key), BucketRef(BucketNameFor(a)), Some(Bind(b, key, a.meta.uid))))
  {
    hide IsRun, Seen;
    BasicHolds(r);
    SeenIsCurrent(r, BucketRef(BucketNameFor(a)), b);
  }

  lemma {:induction false} SeenBound(r: Run, name: string, b: Object)
    requires Seen(r, BucketRef(name), b) && b.body.Bucket?
    ensures EverBound(r, name, b.body.bspec.claimRef.uid) && EverReported(r, name, b.body.bstatus.protocols)
    ensures b.body.bspec.policy != Delete ==> EverRetained(r, name)
  {
    if !(BucketRef(name) in r.world.objs && r.world.objs[BucketRef(name)] == b) { SeenBound(r.prev, name, b); }
  }

  lemma BindApplies(r: Run, key: Ref, a: Object, b: Object)
    requires IsRun(r) && a.body.Claim? && Current(r.world, BucketRef(BucketNameFor(a)), b) && b.body.Bucket?
    requires b.body.bspec.claimRef == ClaimRef(key.ns, key.name, "")
    ensures UpdateApplies(r.world, BucketRef(BucketNameFor(a)), Bind(b, key, a.meta.uid))
  {
    hide Permitted, Enabled, IsRun;
    BasicHolds(r);
  }

  method CompleteReference(c: Cluster, key: Ref, a: Object, b: Object) returns (res: Acquired)
    requires c.Valid() && Live(c.run, key, a) && a.body.cspec.existingBucket != ""
    requires Seen(c.run, BucketRef(BucketNameFor(a)), b) && b.body.Bucket?
    requires b.body.bspec.claimRef == ClaimRef(key.ns, key.name, "")
    modifies c
    ensures c.Valid() && Prefix(old(c.run), c.run)
    ensures res.Acquired? ==> OwnBucket(c.run, a, BucketNameFor(a), res.bucket)
    ensures res.Acquired? ==> res.bucket.body.bstatus == b.body.bstatus
    ensures old(c.Calm()) ==> c.Calm() && SameBut(old(c.run).world, c.run.world, {BucketRef(BucketNameFor(a))})
    ensures old(c.Calm()) && Current(old(c.run).world, BucketRef(BucketNameFor(a)), b) ==> res.Acquired?
  {
    hide Permitted, Enabled, Conforms, UpdateApplies, Updated, IsRun, OnlyOthers, Live;
    LiveIsClaim(c.run, key, a);
    if Current(c.run.world, BucketRef(BucketNameFor(a)), b) { BindApplies(c.run, key, a, b); }
    var me, ref := ClaimController(key), BucketRef(BucketNameFor(a));
    ghost var r0 := c.run;
    c.Yield(me);
    ghost var r1 := c.run;
    OthersPrefix(me, r0, r1);
    StaysLive(r0, r1, key, a);
    SeenStays(me, r0, r1, ref, b);
    if UpdateApplies(c.run.world, ref, Bind(b, key, a.meta.uid)) { SafeBind(r1, key, a, b); }
    var updated := c.Update(me, ref, Bind(b, key, a.meta.uid));
    res := if updated.Ok? then Acquired(updated.obj) else NotAcquired(Wrapped(Plain));
  }

  /** COSI never rebinds: only a reference without a UID is completed. */
  method EnsureStaticBound(c: Cluster, key: Ref, a: Object, b: Object) returns (res: Acquired)
    requires c.Valid() && Live(c.run, key, a) && a.body.cspec.existingBucket != ""
    requires Seen(c.run, BucketRef(BucketNameFor(a)), b) && b.body.Bucket?
    requires b.body.bspec.claimRef.ns == key.ns && b.body.bspec.claimRef.name == key.name
    modifies c
    ensures c.Valid() && Prefix(old(c.run), c.run)
    ensures res.Acquired? ==> OwnBucket(c.run, a, BucketNameFor(a), res.bucket)
    ensures res.Acquired? ==> res.bucket.body.bstatus == b.body.bstatus
    ensures b.body.bspec.claimRef.uid !in {"", a.meta.uid} ==> res == NotAcquired(NonRetryable(Plain))
    ensures b.body.bspec.claimRef.uid !in {"", a.meta.uid} ==> c.run == old(c.run)
    ensures old(c.Calm()) ==> c.Calm() && SameBut(old(c.run).world, c.run.world, {BucketRef(BucketNameFor(a))})
    ensures (old(c.Calm()) && Current(old(c.run).world, BucketRef(BucketNameFor(a)), b)
             && b.body.bspec.claimRef.uid == "") ==>
              res.Acquired?
  {
    hide Permitted, Enabled, IsRun, OnlyOthers, Live, Seen, Prefix;
    LiveIsClaim(c.run, key, a);
    PrefixNext(c.run, c.run);
    var uid := b.body.bspec.claimRef.uid;
    if uid == a.meta.uid {
      SeenBound(c.run, BucketNameFor(a), b);
      return Acquired(b);
    }
    if uid != "" { return NotAcquired(NonRetryable(Plain)); }
    res := CompleteReference(c, key, a, b);
  }

  lemma {:induction false} SeenBucketGood(r: Run, name: string, b: Object)
    requires IsRun(r) && Seen(r, BucketRef(name), b) && b.body.Bucket?
    ensures GoodBucket(name, b)
  {
    hide Permitted, Enabled;
    if BucketRef(name) in r.world.objs && r.world.objs[BucketRef(name)] == b {
      BucketsHold(r, name);
    } else {
      SeenBucketGood(r.prev, name, b);
    }
  }

  /** A Bucket found under the name of a live claim, bound to it, is its own. */
  lemma FoundOwn(r: Run, key: Ref, a: Object, b: Object)
    requires IsRun(r) && Live(r, key, a) && Current(r.world, BucketRef(BucketNameFor(a)), b)
    requires b.body.Bucket? && b.body.bspec.claimRef.uid == a.meta.uid
    ensures OwnBucket(r, a, BucketNameFor(a), b)
  {
    hide Permitted, Enabled, IsRun, EverBucketClass;
    MadeHolds(r, key);
    SeenBound(r, BucketNameFor(a), b);
  }

  /** A dynamic Bucket is bound to its claim when it is created, so the malformed case does not occur. */
  lemma DynamicIsBound(r: Run, key: Ref, a: Object, b: Object)
    requires IsRun(r) && Live(r, key, a) && a.body.cspec.existingBucket == ""
    requires Current(r.world, BucketRef(BucketNameFor(a)), b) && b.body.Bucket?
    ensures b.body.bspec.claimRef == FullRef(key, a)
  {
    hide Permitted, Enabled, IsRun, EverBucketClass;
    MadeHolds(r, key);
  }

  /** The Bucket of a claim that recorded its name is not waiting for a UID. */
  lemma RecordedIsBound(r: Run, key: Ref, a: Object, b: Object)
    requires IsRun(r) && Live(r, key, a) && a.body.cstatus.bound != "" && a.meta.uid != ""
    requires Current(r.world, BucketRef(BucketNameFor(a)), b) && b.body.Bucket?
    ensures b.body.bspec.claimRef.uid == a.meta.uid
  {
    hide Permitted, Enabled, IsRun;
    ClaimsHold(r, key);
    BoundStays(r, BucketNameFor(a), a.meta.uid);
  }

  /** The stored Bucket is the claim's, or a static one that only lacks its UID. */
  predicate Bindable(key: Ref, a: Object, b: Object) {
    && a.body.Claim? && b.body.Bucket?
    && (|| b.body.bspec.claimRef == FullRef(key, a)
        || (a.body.cspec.existingBucket != "" && b.body.bspec.claimRef == ClaimRef(key.ns, key.name, "")))
  }

  method BindFound(c: Cluster, key: Ref, a: Object, b: Object) returns (res: Acquired)
    requires c.Valid() && Live(c.run, key, a) && a.meta.uid != "" && b.body.Bucket?
    requires Current(c.run.world, BucketRef(BucketNameFor(a)), b)
    modifies c
    ensures c.Valid() && Prefix(old(c.run), c.run)
    ensures res.Acquired? ==> OwnBucket(c.run, a, BucketNameFor(a), res.bucket)
    ensures res.Acquired? ==> res.bucket.body.bstatus == b.body.bstatus
    ensures a.body.cstatus.bound != "" ==> c.run == old(c.run)
    ensures old(c.Calm()) ==> c.Calm() && SameBut(old(c.run).world, c.run.world, {BucketRef(BucketNameFor(a))})
    ensures old(c.Calm()) && Bindable(key, a, b) ==> res.Acquired?
  {
    hide Permitted, Enabled, IsRun, OnlyOthers, Live, Prefix, OwnBucket;
    LiveIsClaim(c.run, key, a);
    PrefixNext(c.run, c.run);
    if a.body.cstatus.bound != "" { RecordedIsBound(c.run, key, a, b); }
    var binding := BindingOf(b, key, a);
    match binding
    case Mismatch => res := NotAcquired(NonRetryable(Plain));
    case BoundHere =>
      FoundOwn(c.run, key, a, b);
      res := Acquired(b);
    case Unbound =>
      SeenNow(c.run, BucketRef(BucketNameFor(a)));
      if a.body.cspec.existingBucket != "" {
        res := EnsureStaticBound(c, key, a, b);
      } else {
        DynamicIsBound(c.run, key, a, b);
        assert false;
      }
  }

  /** The claim's Bucket can be found, bound or created. */
  ghost predicate Acquirable(w: World, key: Ref, a: Object)
    requires a.body.Claim?
  {
    var ref := BucketRef(BucketNameFor(a));
    if ref in w.objs then a.body.cspec.existingBucket != "" ==> Bindable(key, a, w.objs[ref])
    else a.body.cspec.existingBucket == "" && a.body.cstatus.bound == "" && ClassStored(w, a)
  }

  /** Finds, binds or creates the claim's Bucket. A claim that recorded its Bucket writes nothing. */
  method AcquireBucket(c: Cluster, key: Ref, a: Object) returns (res: Acquired)
    requires c.Valid() && Live(c.run, key, a) && a.meta.uid != ""
    modifies c
    ensures c.Valid() && Prefix(old(c.run), c.run)
    ensures res.Acquired? ==> OwnBucket(c.run, a, BucketNameFor(a), res.bucket)
    ensures a.body.cstatus.bound != "" ==> OnlyOthers(ClaimController(key), old(c.run), c.run)
    ensures old(c.Calm()) ==> c.Calm() && SameBut(old(c.run).world, c.run.world, {BucketRef(BucketNameFor(a))})
    ensures old(c.Calm()) && Acquirable(old(c.run).world, key, a) ==> res.Acquired?
    ensures res.Acquired? && old(c.Calm()) && BucketRef(BucketNameFor(a)) in old(c.run).world.objs ==>
              && old(c.run).world.objs[BucketRef(BucketNameFor(a))].body.Bucket?
              && res.bucket.body.bstatus == old(c.run).world.objs[BucketRef(BucketNameFor(a))].body.bstatus
  {
    hide Permitted, Enabled, IsRun, OnlyOthers, Live, Prefix, OwnBucket, SameBut;
    ghost var r0 := c.run;
    LiveIsClaim(r0, key, a);
    SameButSelf(r0.world, BucketRef(BucketNameFor(a)));
    var got := c.Get(ClaimController(key), BucketRef(BucketNameFor(a)));
    ghost var r1 := c.run;
    OthersPrefix(ClaimController(key), r0, r1);
    StaysLive(r0, r1, key, a);
    if got.Err? && got.code != MissingError { return NotAcquired(Plain); }
    if got.Err? {
      if a.body.cstatus.bound != "" { return NotAcquired(NonRetryable(Plain)); }
      if a.body.cspec.existingBucket != "" { return NotAcquired(Plain); }
      ghost var cls;
      res, cls := CreateIntermediate(c, key, a);
    } else {
      BasicHolds(r1);
      if a.body.cspec.existingBucket == "" { DynamicIsBound(r1, key, a, got.obj); }
      res := BindFound(c, key, a, got.obj);
    }
    PrefixTransitive(r0, r1, c.run);
  }

  lemma SameButSelf(w: World, ref: Ref)
    ensures SameBut(w, w, {ref})
  {
  }
}
