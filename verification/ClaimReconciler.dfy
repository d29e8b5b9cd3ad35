/** The Controller's BucketClaim reconciler: status, deletion, and the whole reconcile. */
module ClaimReconciler {
  import opened Objects
  import opened Errors
  import opened Runs
  import opened Rules
  import opened Invariants
  import opened Bindings
  import opened Clusters
  import opened Rely
  import opened ClaimRely
  import opened ControllerClaim

  // Status

  function BoundStatus(a: Object): Object
    requires a.body.Claim?
  {
    WithClaimStatus(a, a.body.cstatus.(ready := OrFalse(a.body.cstatus.ready), bound := BucketNameFor(a)))
  }

  function ReadyStatus(a: Object, b: Object): Object
    requires a.body.Claim? && b.body.Bucket?
  {
    var s := b.body.bstatus;
    WithClaimStatus(a, a.body.cstatus.(ready := s.ready, protocols := s.protocols, failed := false))
  }

  /** The claim as it was read, live and protected, with its Bucket as that was read. */
  ghost predicate Provisioned(r: Run, key: Ref, a: Object, b: Object) {
    && key.kind == ClaimKind && Seen(r, key, a) && a.body.Claim? && !a.meta.deleting && IsProtected(a)
    && OwnBucket(r, a, BucketNameFor(a), b)
  }

  lemma BoundRecordable(r: Run, key: Ref, a: Object, b: Object)
    requires IsRun(r) && Provisioned(r, key, a, b)
    ensures Recordable(r, key, BoundStatus(a))
  {
    hide Permitted, Enabled, IsRun, Seen;
    VersionsGrow(r, key, a);
  }

  /** A Bucket with an ID is ready with protocols, so the claim can be ready. */
  lemma ReadyRecordable(r: Run, key: Ref, a: Object, b: Object)
    requires IsRun(r) && Provisioned(r, key, a, b) && a.body.cstatus.bound == BucketNameFor(a) != ""
    requires b.body.bstatus.id != ""
    ensures b.body.bstatus.ready == Some(true) && b.body.bstatus.protocols != []
    ensures Recordable(r, key, ReadyStatus(a, b))
  {
    hide Permitted, Enabled, IsRun, Seen;
    VersionsGrow(r, key, a);
    SeenBucketGood(r, BucketNameFor(a), b);
    SeenBound(r, BucketNameFor(a), b);
  }

  lemma {:induction false} OwnBucketLater(p: Run, r: Run, a: Object, name: string, b: Object)
    requires Prefix(p, r) && OwnBucket(p, a, name, b)
    ensures OwnBucket(r, a, name, b)
  {
    if p != r { OwnBucketLater(p, r.prev, a, name, b); }
  }

  lemma WrittenBound(r: Run, key: Ref, a: Object, b: Object)
    requires IsRun(r) && r.More? && Provisioned(r.prev, key, a, b) && StatusApplies(r.prev.world, key, BoundStatus(a))
    requires r.event == Change(ClaimController(key), key, StatusUpdated(r.prev.world.objs[key], BoundStatus(a)))
    requires key in r.world.objs
    ensures Provisioned(r, key, r.world.objs[key], b) && r.world.objs[key].body.cstatus.bound == BucketNameFor(a)
    ensures r.world.objs[key].meta.uid == a.meta.uid && BucketNameFor(r.world.objs[key]) == BucketNameFor(a)
  {
    hide Permitted, Enabled;
    SeenIsCurrent(r.prev, key, a);
    OwnBucketLater(r.prev, r, a, BucketNameFor(a), b);
  }

  lemma {:induction false} ProvisionedLater(p: Run, r: Run, key: Ref, a: Object, b: Object)
    requires Prefix(p, r) && Provisioned(p, key, a, b)
    ensures Provisioned(r, key, a, b)
  {
    hide OwnBucket, Seen;
    SeenLater(p, r, key, a);
    OwnBucketLater(p, r, a, BucketNameFor(a), b);
  }

  lemma BoundApplies(r: Run, key: Ref, a: Object)
    requires IsRun(r) && key.kind == ClaimKind && a.body.Claim? && Current(r.world, key, a)
    requires a.body.cstatus.bound == ""
    ensures StatusApplies(r.world, key, BoundStatus(a))
  {
    hide Permitted, Enabled, IsRun;
    BasicHolds(r);
  }

  lemma ReadyApplies(r: Run, key: Ref, a: Object, b: Object)
    requires IsRun(r) && key.kind == ClaimKind && a.body.Claim? && Current(r.world, key, a)
    requires b.body.Bucket? && b.body.bstatus.protocols != []
    ensures StatusApplies(r.world, key, ReadyStatus(a, b))
  {
    hide Permitted, Enabled, IsRun;
    BasicHolds(r);
  }

  method BindClaim(c: Cluster, key: Ref, a: Object, ghost b: Object) returns (acc: Object, err: Option<Error>)
    requires c.Valid() && Provisioned(c.run, key, a, b)
    modifies c
    ensures c.Valid() && Prefix(old(c.run), c.run) && Recordable(c.run, key, acc)
    ensures err.None? ==> Provisioned(c.run, key, acc, b) && acc.body.cstatus.bound == BucketNameFor(acc)
    ensures err.None? ==> acc.meta.uid == a.meta.uid && BucketNameFor(acc) == BucketNameFor(a)
    ensures err.None? ==> Current(c.run.world, key, acc)
    ensures old(c.Calm()) ==> c.Calm()
    ensures old(c.Calm()) && Current(old(c.run).world, key, a) && a.body.cstatus.bound == "" ==> err.None?
  {
    hide Permitted, Enabled, IsRun, OnlyOthers, Seen, Prefix, Recordable, StatusApplies, StatusUpdated, OwnBucket;
    ghost var r0 := c.run;
    if Current(r0.world, key, a) && a.body.cstatus.bound == "" { BoundApplies(r0, key, a); }
    BoundRecordable(r0, key, a, b);
    var written := WriteStatus(c, key, BoundStatus(a));
    if written.Err? { return BoundStatus(a), Some(Wrapped(Plain)); }
    OthersPrefix(ClaimController(key), r0, c.run.prev);
    ProvisionedLater(r0, c.run.prev, key, a, b);
    WrittenBound(c.run, key, a, b);
    acc, err := written.obj, None;
    ReadRecordable(c.run, key, acc);
  }

  /** The claim is ready through its own Bucket, with the protocols that the Bucket reported. */
  ghost predicate ClaimReady(r: Run, key: Ref, uid: Uid) {
    && key in r.world.objs && r.world.objs[key].body.Claim? && r.world.objs[key].meta.uid == uid
    && var s := r.world.objs[key].body.cstatus;
       && s.ready == Some(true) && !s.failed && s.protocols != [] && s.bound == BucketNameFor(r.world.objs[key])
       && EverBound(r, s.bound, uid) && EverReported(r, s.bound, s.protocols)
  }

  lemma WrittenReady(r: Run, key: Ref, a: Object, b: Object)
    requires IsRun(r) && r.More? && Provisioned(r.prev, key, a, b)
    requires StatusApplies(r.prev.world, key, ReadyStatus(a, b))
    requires a.body.cstatus.bound == BucketNameFor(a) != "" && b.body.bstatus.id != ""
    requires r.event == Change(ClaimController(key), key, StatusUpdated(r.prev.world.objs[key], ReadyStatus(a, b)))
    ensures ClaimReady(r, key, a.meta.uid)
  {
    hide Permitted, Enabled;
    SeenIsCurrent(r.prev, key, a);
    ReadyRecordable(r.prev, key, a, b);
    SeenBound(r.prev, BucketNameFor(a), b);
  }

  method FinishProvisioning(c: Cluster, key: Ref, a: Object, b: Object) returns (acc: Object, err: Option<Error>)
    requires c.Valid() && Provisioned(c.run, key, a, b) && a.body.cstatus.bound == BucketNameFor(a) != ""
    modifies c
    ensures c.Valid() && Prefix(old(c.run), c.run) && Recordable(c.run, key, acc)
    ensures err.None? ==> ClaimReady(c.run, key, a.meta.uid)
    ensures old(c.Calm()) ==> c.Calm()
    ensures old(c.Calm()) && Current(old(c.run).world, key, a) ==> Records(c.run.world, key, a)
    ensures old(c.Calm()) && Current(old(c.run).world, key, a) && b.body.Bucket? && b.body.bstatus.id != "" ==>
        err.None?
  {
    hide Permitted, Enabled, IsRun, OnlyOthers, Seen, Prefix, Recordable, StatusApplies, StatusUpdated, OwnBucket,
         ClaimReady;
    ghost var r0 := c.run;
    acc := a;
    PrefixNext(r0, r0);
    ReadRecordable(r0, key, a);
    OwnIsBucket(r0, a, BucketNameFor(a), b);
    if b.body.bstatus.id == "" { return a, Some(Plain); }
    ReadyRecordable(r0, key, a, b);
    if Current(r0.world, key, a) { ReadyApplies(r0, key, a, b); }
    if b.body.bstatus.ready == Some(true) && |b.body.bstatus.protocols| == 0 { assert false; }
    acc := ReadyStatus(a, b);
    ghost var calm := c.Calm();
    var written := WriteStatus(c, key, acc);
    if calm && Current(r0.world, key, a) && written.Ok? { StillRecords(r0.world, key, acc, a); }
    if written.Err? {
      err := Some(Plain);
      return;
    }
    OthersPrefix(ClaimController(key), r0, c.run.prev);
    ProvisionedLater(r0, c.run.prev, key, a, b);
    WrittenReady(c.run, key, a, b);
    err := None;
  }

  lemma OwnIsBucket(r: Run, a: Object, name: string, b: Object)
    requires OwnBucket(r, a, name, b)
    ensures b.body.Bucket?
  {
  }

  /** The stored claim records its Bucket. */
  ghost predicate Records(w: World, key: Ref, a: Object)
    requires a.body.Claim?
  {
    && key in w.objs && w.objs[key].body.Claim? && w.objs[key].meta.uid == a.meta.uid
    && w.objs[key].body.cstatus.bound == BucketNameFor(a)
  }

  /**
   * Undisturbed, from any reachable state in which the claim's Bucket can be found, bound or created, a live claim
   * ends up recording it, and ends up ready if the Bucket is provisioned.
   */
  method Provision(c: Cluster, key: Ref, a: Object) returns (acc: Object, err: Option<Error>)
    requires c.Valid() && key.kind == ClaimKind && Current(c.run.world, key, a)
    requires a.body.Claim? && !a.meta.deleting && a.meta.uid != "" && DetermineBucketName(a).Some?
    modifies c
    ensures c.Valid() && Prefix(old(c.run), c.run) && (err.Some? ==> Recordable(c.run, key, acc))
    ensures err.None? ==> ClaimReady(c.run, key, a.meta.uid)
    ensures old(c.Calm()) ==> c.Calm()
    ensures old(c.Calm()) && Acquirable(old(c.run).world, key, a) ==> Records(c.run.world, key, a)
    ensures
      var w := old(c.run).world;
      old(c.Calm()) && Acquirable(w, key, a) && ProvisionedNow(w, BucketNameFor(a)) ==> err.None?
  {
    hide Permitted, Enabled, IsRun, OnlyOthers, Seen, Prefix, Recordable, OwnBucket, ClaimReady, Live;
    ghost var r0, calm := c.run, c.Calm();
    acc, err := ProtectClaim(c, key, a);
    if err.Some? { return; }
    ghost var r1 := c.run;
    var res := AcquireBucket(c, key, acc);
    ghost var r2 := c.run;
    PrefixTransitive(r0, r1, r2);
    SeenLater(r1, r2, key, acc);
    ReadRecordable(r2, key, acc);
    if res.NotAcquired? { return acc, Some(res.error); }
    OwnIsBucket(r2, acc, BucketNameFor(acc), res.bucket);
    if acc.body.cstatus.bound == "" {
      acc, err := BindClaim(c, key, acc, res.bucket);
      PrefixTransitive(r0, r2, c.run);
      if err.Some? { return; }
    }
    ghost var r3 := c.run;
    acc, err := FinishProvisioning(c, key, acc, res.bucket);
    PrefixTransitive(r0, r3, c.run);
  }

  predicate ProvisionedNow(w: World, bucket: string) {
    BucketRef(bucket) in w.objs && w.objs[BucketRef(bucket)].body.Bucket?
      && w.objs[BucketRef(bucket)].body.bstatus.id != ""
  }

  // Deletion

  function NotReady(a: Object): Object
    requires a.body.Claim?
  {
    WithClaimStatus(a, a.body.cstatus.(ready := Some(false), failed := false))
  }

  function RefOf(key: Ref, a: Object): ClaimRef { ClaimRef(key.ns, key.name, a.meta.uid) }

  /** The deleting claim as it was read. */
  ghost predicate Leaving(r: Run, key: Ref, a: Object) {
    && key.kind == ClaimKind && Seen(r, key, a) && a.body.Claim? && a.meta.deleting && a.meta.uid != ""
    && Ended(r.world, key, a.meta.uid)
  }

  lemma LeavingLater(p: Run, r: Run, key: Ref, a: Object)
    requires IsRun(r) && Prefix(p, r) && Leaving(p, key, a)
    ensures Leaving(r, key, a)
  {
    hide Permitted, Enabled, IsRun, Seen, Prefix, Ended;
    SeenLater(p, r, key, a);
    StaysEnded(p, r, key, a.meta.uid);
  }

  /** The claim's Bucket is absent or another's, or was kept on purpose. */
  ghost predicate MayGo(r: Run, key: Ref, a: Object)
    requires a.body.Claim?
  {
    !BoundToNow(r.world, BucketNameFor(a), RefOf(key, a)) || EverRetained(r, BucketNameFor(a))
  }

  lemma {:induction false} RetainedLater(p: Run, r: Run, bucket: string)
    requires Prefix(p, r) && EverRetained(p, bucket)
    ensures EverRetained(r, bucket)
  {
    if p != r { RetainedLater(p, r.prev, bucket); }
  }

  lemma {:induction false} AnnotatedStays(p: Run, r: Run, bucket: string)
    requires Prefix(p, r) && EverAnnotated(p, bucket)
    ensures EverAnnotated(r, bucket)
  {
    if p != r { AnnotatedStays(p, r.prev, bucket); }
  }

  lemma SafeRelease(p: Run, r: Run, key: Ref, a: Object)
    requires IsRun(r) && OnlyOthers(ClaimController(key), p, r) && Leaving(p, key, a) && MayGo(p, key, a)
    requires UpdateApplies(r.world, key, WithoutFinalizer(a))
    ensures key in r.world.objs && r.world.objs[key] == a
    ensures Updated(a, WithoutFinalizer(a)) == Settled(WithoutFinalizer(a))
    ensures Enabled(r, Change(ClaimController(key), key, Settled(WithoutFinalizer(a))))
  {
    hide IsRun, Seen, OnlyOthers, Prefix;
    OthersPrefix(ClaimController(key), p, r);
    LeavingLater(p, r, key, a);
    SeenIsCurrent(r, key, a);
    if EverRetained(p, BucketNameFor(a)) {
      RetainedLater(p, r, BucketNameFor(a));
    } else {
      if Lost(p.world, key, a.meta.uid) { GoneStaysGone(p, r, key, a.meta.uid); }
      StaysUnbound(p, r, key, BucketNameFor(a), a.meta.uid);
    }
  }

  method RemoveClaimFinalizer(c: Cluster, key: Ref, a: Object) returns (err: Option<Error>)
    requires c.Valid() && Leaving(c.run, key, a) && MayGo(c.run, key, a)
    modifies c
    ensures c.Valid() && Prefix(old(c.run), c.run) && Leaving(c.run, key, a) && err != Some(WAITING)
    ensures err.None? ==> key !in c.run.world.objs || !IsProtected(c.run.world.objs[key])
  {
    hide Permitted, Enabled, Conforms, UpdateApplies, Updated, IsRun, OnlyOthers, Seen, Leaving, MayGo, Prefix;
    var me := ClaimController(key);
    ghost var r0 := c.run;
    c.Yield(me);
    ghost var r1 := c.run;
    OthersPrefix(me, r0, r1);
    if UpdateApplies(c.run.world, key, WithoutFinalizer(a)) { SafeRelease(r0, r1, key, a); }
    var updated := c.Update(me, key, WithoutFinalizer(a));
    PrefixNext(r1, c.run);
    PrefixTransitive(r0, r1, c.run);
    LeavingLater(r0, c.run, key, a);
    err := if updated.Err? then Some(Wrapped(Plain)) else None;
  }

  lemma SafeAnnounce(r: Run, key: Ref, a: Object, b: Object)
    requires IsRun(r) && Leaving(r, key, a) && Seen(r, BucketRef(BucketNameFor(a)), b) && b.body.Bucket?
    requires b.body.bspec.claimRef == RefOf(key, a)
    requires UpdateApplies(r.world, BucketRef(BucketNameFor(a)), Annotated(b, ClaimBeingDeleted))
    ensures BucketRef(BucketNameFor(a)) in r.world.objs && r.world.objs[BucketRef(BucketNameFor(a))] == b
    ensures Updated(b, Annotated(b, ClaimBeingDeleted)) == Some(Annotated(b, ClaimBeingDeleted))
    ensures Enabled(r, Change(ClaimController(key), BucketRef(BucketNameFor(a)), Some(Annotated(b, ClaimBeingDeleted))))
  {
    hide IsRun, Seen;
    BasicHolds(r);
    SeenIsCurrent(r, BucketRef(BucketNameFor(a)), b);
  }

  /** Announces on the Bucket that its claim is being deleted. */
  method Announce(c: Cluster, key: Ref, a: Object, b: Object) returns (err: Option<Error>)
    requires c.Valid() && Leaving(c.run, key, a) && Seen(c.run, BucketRef(BucketNameFor(a)), b) && b.body.Bucket?
    requires b.body.bspec.claimRef == RefOf(key, a)
    modifies c
    ensures c.Valid() && Prefix(old(c.run), c.run) && Leaving(c.run, key, a) && err != Some(WAITING)
    ensures err.None? ==> Announced(c.run.world, BucketNameFor(a), RefOf(key, a))
    ensures err.None? ==> EverAnnotated(c.run, BucketNameFor(a))
  {
    hide Permitted, Enabled, Conforms, UpdateApplies, Updated, IsRun, OnlyOthers, Seen, Ended, Prefix;
    var me, ref := ClaimController(key), BucketRef(BucketNameFor(a));
    ghost var r0 := c.run;
    c.Yield(me);
    ghost var r1 := c.run;
    OthersPrefix(me, r0, r1);
    LeavingLater(r0, r1, key, a);
    SeenStays(me, r0, r1, ref, b);
    if UpdateApplies(c.run.world, ref, Annotated(b, ClaimBeingDeleted)) { SafeAnnounce(r1, key, a, b); }
    var updated := c.Update(me, ref, Annotated(b, ClaimBeingDeleted));
    PrefixNext(r1, c.run);
    PrefixTransitive(r0, r1, c.run);
    LeavingLater(r1, c.run, key, a);
    err := if updated.Err? then Some(Wrapped(Plain)) else None;
  }

  lemma SafeDelete(r: Run, key: Ref, a: Object)
    requires IsRun(r) && Leaving(r, key, a) && Announced(r.world, BucketNameFor(a), RefOf(key, a))
    requires BucketRef(BucketNameFor(a)) in r.world.objs
    ensures
      var ref := BucketRef(BucketNameFor(a));
      Enabled(r, Change(ClaimController(key), ref, DeleteRequested(r.world.objs[ref])))
  {
    hide IsRun, Seen;
    BasicHolds(r);
  }

  /** Delete has no precondition, but under an announced name it meets only the claim's own Bucket. */
  method DeleteBucket(c: Cluster, key: Ref, a: Object) returns (err: Option<Error>)
    requires c.Valid() && Leaving(c.run, key, a)
    requires Announced(c.run.world, BucketNameFor(a), RefOf(key, a)) && EverAnnotated(c.run, BucketNameFor(a))
    modifies c
    ensures c.Valid() && Prefix(old(c.run), c.run) && Leaving(c.run, key, a) && err != Some(WAITING)
    ensures
      var ref := BucketRef(BucketNameFor(a));
      err.None? ==> ref !in c.run.world.objs || c.run.world.objs[ref].meta.deleting
  {
    hide Permitted, Enabled, Conforms, IsRun, OnlyOthers, Leaving, Prefix, Announced, EverAnnotated;
    LeavingIsClaim(c.run, key, a);
    var me, ref := ClaimController(key), BucketRef(BucketNameFor(a));
    ghost var r0 := c.run;
    c.Yield(me);
    ghost var r1 := c.run;
    OthersPrefix(me, r0, r1);
    LeavingLater(r0, r1, key, a);
    StaysAnnounced(r0, r1, key, BucketNameFor(a), RefOf(key, a));
    if ref in c.run.world.objs { SafeDelete(r1, key, a); }
    var deleted := c.Delete(me, ref);
    PrefixNext(r1, c.run);
    PrefixTransitive(r0, r1, c.run);
    LeavingLater(r1, c.run, key, a);
    err := if deleted.Err? then Some(Wrapped(Plain)) else None;
  }

  lemma LeavingIsClaim(r: Run, key: Ref, a: Object)
    requires Leaving(r, key, a)
    ensures a.body.Claim? && a.meta.uid != "" && key.kind == ClaimKind && Seen(r, key, a)
  {
  }

  /** The error that asks for another reconcile once the Bucket is gone. */
  const WAITING := Plain

  /** The Bucket is the claim's own: keep it or delete it as its policy says. Success means that the claim may go. */
  method EndBucket(c: Cluster, key: Ref, a: Object, b: Object) returns (err: Option<Error>)
    requires c.Valid() && Leaving(c.run, key, a) && b.body.Bucket? && b.body.bspec.claimRef == RefOf(key, a)
    requires BucketRef(BucketNameFor(a)) in c.run.world.objs && c.run.world.objs[BucketRef(BucketNameFor(a))] == b
    modifies c
    ensures c.Valid() && Prefix(old(c.run), c.run) && Leaving(c.run, key, a)
    ensures err.None? ==> b.body.bspec.policy == Retain && EverAnnotated(c.run, BucketNameFor(a))
    ensures err == Some(WAITING) ==> b.body.bspec.policy == Delete
    ensures
      var ref := BucketRef(BucketNameFor(a));
      err == Some(WAITING) ==> ref !in c.run.world.objs || c.run.world.objs[ref].meta.deleting
    ensures err.None? ==> key !in c.run.world.objs || !IsProtected(c.run.world.objs[key])
  {
    hide Permitted, Enabled, IsRun, OnlyOthers, Leaving, Prefix, Announced, EverAnnotated, EverRetained, BoundToNow,
         Seen;
    ghost var r0 := c.run;
    PrefixNext(r0, r0);
    LeavingIsClaim(r0, key, a);
    SeenNow(r0, BucketRef(BucketNameFor(a)));
    match b.body.bspec.policy
    case Retain =>
      err := Announce(c, key, a, b);
      if err.Some? { return; }
      ghost var r1 := c.run;
      SeenBound(r0, BucketNameFor(a), b);
      RetainedLater(r0, r1, BucketNameFor(a));
      err := RemoveClaimFinalizer(c, key, a);
      PrefixTransitive(r0, r1, c.run);
      AnnotatedStays(r1, c.run, BucketNameFor(a));
    case Delete =>
      if b.meta.deleting { return Some(WAITING); }
      err := Announce(c, key, a, b);
      if err.Some? { return; }
      ghost var r1 := c.run;
      err := DeleteBucket(c, key, a);
      PrefixTransitive(r0, r1, c.run);
      if err.None? { err := Some(WAITING); }
    case OtherPolicy(_) =>
      err := Some(NonRetryable(Plain));
  }

  method ReleaseBucket(c: Cluster, key: Ref, a: Object) returns (err: Option<Error>)
    requires c.Valid() && Leaving(c.run, key, a)
    modifies c
    ensures c.Valid() && Prefix(old(c.run), c.run) && Leaving(c.run, key, a)
    ensures err.None? ==> key !in c.run.world.objs || !IsProtected(c.run.world.objs[key])
  {
    hide Permitted, Enabled, IsRun, OnlyOthers, Leaving, Prefix, EverRetained, Seen;
    ghost var r0 := c.run;
    LeavingIsClaim(r0, key, a);
    var got := c.Get(ClaimController(key), BucketRef(BucketNameFor(a)));
    ghost var r1 := c.run;
    OthersPrefix(ClaimController(key), r0, r1);
    LeavingLater(r0, r1, key, a);
    if got.Err? && got.code != MissingError { return Some(Plain); }
    if got.Err? {
      err := RemoveClaimFinalizer(c, key, a);
      PrefixTransitive(r0, r1, c.run);
      return;
    }
    var b := got.obj;
    BasicHolds(r1);
    var binding := BindingOf(b, key, a);
    match binding {
      case Mismatch =>
        if a.body.cspec.existingBucket == "" { return Some(NonRetryable(Wrapped(Plain))); }
        err := RemoveClaimFinalizer(c, key, a);
      case Unbound => err := RemoveClaimFinalizer(c, key, a);
      case BoundHere => err := EndBucket(c, key, a, b);
    }
    PrefixTransitive(r0, r1, c.run);
  }

  lemma NotReadyRecordable(r: Run, key: Ref, a: Object)
    requires IsRun(r) && key.kind == ClaimKind && key in r.world.objs && r.world.objs[key] == a && a.body.Claim?
    requires a.meta.deleting
    ensures Recordable(r, key, NotReady(a))
  {
    hide Permitted, Enabled, IsRun;
    BasicHolds(r);
  }

  lemma WrittenLeaving(r: Run, key: Ref, a: Object)
    requires IsRun(r) && r.More? && key.kind == ClaimKind && Seen(r.prev, key, a) && a.body.Claim? && a.meta.deleting
    requires a.meta.uid != ""
    requires StatusApplies(r.prev.world, key, NotReady(a)) && key in r.world.objs
    requires r.event == Change(ClaimController(key), key, StatusUpdated(r.prev.world.objs[key], NotReady(a)))
    ensures Leaving(r, key, r.world.objs[key]) && r.world.objs[key].meta.uid == a.meta.uid
    ensures !r.world.objs[key].body.cstatus.failed && r.world.objs[key].body.cstatus.ready == Some(false)
  {
    hide Permitted, Enabled;
    SeenIsCurrent(r.prev, key, a);
    EndedNow(r, key);
  }

  method ReconcileDelete(c: Cluster, key: Ref, a: Object) returns (acc: Object, err: Option<Error>)
    requires c.Valid() && key.kind == ClaimKind && key in c.run.world.objs && c.run.world.objs[key] == a
    requires a.body.Claim? && a.meta.deleting && a.meta.uid != ""
    modifies c
    ensures c.Valid() && Prefix(old(c.run), c.run) && Recordable(c.run, key, acc)
    ensures err.None? ==> key !in c.run.world.objs || !IsProtected(c.run.world.objs[key])
    ensures err.None? ==> acc.body.Claim? && !acc.body.cstatus.failed && acc.body.cstatus.ready == Some(false)
  {
    hide Permitted, Enabled, IsRun, OnlyOthers, Leaving, Prefix, Seen, Recordable, StatusApplies, StatusUpdated;
    ghost var r0 := c.run;
    acc := NotReady(a);
    NotReadyRecordable(r0, key, a);
    SeenNow(r0, key);
    var written := WriteStatus(c, key, acc);
    if written.Err? { return acc, Some(Wrapped(Plain)); }
    ghost var r1 := c.run;
    SeenStays(ClaimController(key), r0, r1.prev, key, a);
    WrittenLeaving(r1, key, a);
    acc := written.obj;
    err := ReleaseBucket(c, key, acc);
    PrefixTransitive(r0, r1, c.run);
    LeavingIsClaim(c.run, key, acc);
    ReadRecordable(c.run, key, acc);
  }

  // The reconciler

  /** It is terminal exactly if the error is tagged and the record was stored. */
  method RecordFailure(c: Cluster, key: Ref, acc: Object, err: Error) returns (out: Outcome, ghost stored: bool)
    requires c.Valid() && key.kind == ClaimKind && Recordable(c.run, key, acc)
    modifies c
    ensures c.Valid() && Prefix(old(c.run), c.run)
    ensures out == if stored && IsNonRetryable(err) then Terminal else Retry
    ensures stored ==> key in c.run.world.objs && c.run.world.objs[key].body.Claim?
    ensures stored ==> c.run.world.objs[key].body.cstatus == Failed(acc).body.cstatus
    ensures forall a: Object ::
        old(c.Calm()) && a.body.Claim? && BucketNameFor(a) != "" && Records(old(c.run).world, key, a) ==>
              Records(c.run.world, key, a)
  {
    hide Permitted, Enabled, IsRun, Prefix, OnlyOthers, ClaimSetsStatus, StatusApplies, StatusUpdated;
    FailedRecordable(c.run, key, acc);
    ghost var w0, calm := c.run.world, c.Calm();
    var written := WriteStatus(c, key, Failed(acc));
    if written.Err? { return Retry, false; }
    forall a: Object | calm && a.body.Claim? && BucketNameFor(a) != "" && Records(w0, key, a)
        ensures Records(c.run.world, key, a) {
      StillRecords(w0, key, Failed(acc), a);
    }
    return if IsNonRetryable(err) then Terminal else Retry, true;
  }

  /** The server does not let a recorded name change. */
  lemma StillRecords(w: World, key: Ref, acc: Object, a: Object)
    requires a.body.Claim? && Records(w, key, a) && BucketNameFor(a) != "" && StatusApplies(w, key, acc)
    ensures Records(After(w, Change(ClaimController(key), key, StatusUpdated(w.objs[key], acc))), key, a)
  {
  }

  /** The recorded name is never another one than the determined one. */
  lemma NameIsDetermined(r: Run, key: Ref)
    requires IsRun(r) && key.kind == ClaimKind && key in r.world.objs && r.world.objs[key].body.Claim?
    ensures DetermineBucketName(r.world.objs[key]) == Some(BucketNameFor(r.world.objs[key]))
    ensures r.world.objs[key].meta.uid != ""
  {
    hide Permitted, Enabled, IsRun;
    ClaimsHold(r, key);
    BasicHolds(r);
  }

  /**
   * Whatever others do meanwhile, a reconcile only takes steps that the protocol allows. When it reports
   * success for a claim, the claim is ready, or its protection is gone. Undisturbed it makes a live claim record
   * its Bucket, and makes it ready if the Bucket is provisioned, from any reachable state that allows it.
   */
  method Reconcile(c: Cluster, key: Ref) returns (out: Outcome, ghost seen: Option<Uid>)
    requires c.Valid() && key.kind == ClaimKind
    modifies c
    ensures c.Valid() && Prefix(old(c.run), c.run)
    ensures out == Done && seen.Some? ==>
              ClaimReady(c.run, key, seen.value) || key !in c.run.world.objs || !IsProtected(c.run.world.objs[key])
    ensures out != Retry && seen.None? ==> OnlyOthers(ClaimController(key), old(c.run), c.run)
    ensures out != Retry && seen.None? ==> key !in c.run.world.objs
    ensures
      old(c.Calm()) && key in old(c.run).world.objs && old(c.run).world.objs[key].body.Claim? ==>
        var w, a := old(c.run).world, old(c.run).world.objs[key];
        !a.meta.deleting && Acquirable(w, key, a) ==>
          && Records(c.run.world, key, a)
          && (ProvisionedNow(w, BucketNameFor(a)) ==> out == Done && ClaimReady(c.run, key, a.meta.uid))
  {
    hide Permitted, Enabled, IsRun, OnlyOthers, Recordable, ClaimReady, Prefix, Acquirable, Records;
    ghost var r0 := c.run;
    seen := None;
    var me := ClaimController(key);
    var got := c.Get(me, key);
    ghost var r1 := c.run;
    OthersPrefix(me, r0, r1);
    if got == Err(MissingError) { return Done, None; }
    if got.Err? { return Retry, None; }
    BasicHolds(r1);
    var a := got.obj;
    seen := Some(a.meta.uid);
    NameIsDetermined(r1, key);
    var name := DetermineBucketName(a);
    if name.None? { assert false; }
    var acc, err;
    if a.meta.deleting {
      acc, err := ReconcileDelete(c, key, a);
    } else {
      acc, err := Provision(c, key, a);
    }
    PrefixTransitive(r0, r1, c.run);
    if err.Some? {
      ghost var r2 := c.run;
      ghost var stored;
      out, stored := RecordFailure(c, key, acc, err.value);
      PrefixTransitive(r0, r2, c.run);
      return;
    }
    if a.meta.deleting && acc.body.cstatus.failed { assert false; }
    return Done, seen;
  }
}
