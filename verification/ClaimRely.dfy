/** What the Controller may rely on while it reconciles one BucketClaim. */
module ClaimRely {
  import opened Objects
  import opened Runs
  import opened Rules
  import opened Invariants
  import opened Bindings
  import opened Releases
  import opened Clusters
  import opened Rely

  /** The protected claim under `key` still says what `c` says, and `c` was read while the claim was live. */
  ghost predicate Live(r: Run, key: Ref, c: Object) {
    && key.kind == ClaimKind && key in r.world.objs && c.body.Claim? && r.world.objs[key].body == c.body
    && r.world.objs[key].meta.uid == c.meta.uid && IsProtected(r.world.objs[key]) && LiveWhenRead(r, key, c.meta.uid)
  }

  lemma ProtectedClaimStays(r: Run, actor: Actor, key: Ref, now: Option<Object>)
    requires key.kind == ClaimKind && key in r.world.objs && r.world.objs[key].body.Claim?
    requires IsProtected(r.world.objs[key])
    requires Enabled(r, Change(actor, key, now)) && actor != ClaimController(key)
    ensures now.Some?
  {
  }

  lemma LiveStep(r: Run, key: Ref, c: Object)
    requires IsRun(r) && r.More? && r.event.actor != ClaimController(key) && Live(r.prev, key, c)
    ensures Live(r, key, c)
  {
    hide Permitted;
    var e := r.event;
    if e.Change? && e.ref == key {
      ProtectedClaimStays(r.prev, e.actor, key, e.now);
      OthersKeepClaim(r.prev, e.actor, key, e.now.value);
    }
  }

  lemma {:induction false} StaysLive(p: Run, r: Run, key: Ref, c: Object)
    requires IsRun(r) && OnlyOthers(ClaimController(key), p, r) && Live(p, key, c)
    ensures Live(r, key, c)
  {
    hide Permitted, Enabled, Live;
    if p != r {
      StaysLive(p, r.prev, key, c);
      LiveStep(r, key, c);
    }
  }

  // The end of a claim

  lemma EndedStep(w: World, e: Event, key: Ref, uid: Uid)
    requires Ended(w, key, uid) && (e.Change? ==> Conforms(w, e.ref, e.now))
    ensures Ended(After(w, e), key, uid)
  {
  }

  lemma {:induction false} StaysEnded(p: Run, r: Run, key: Ref, uid: Uid)
    requires IsRun(r) && Prefix(p, r) && Ended(p.world, key, uid)
    ensures Ended(r.world, key, uid)
  {
    hide Permitted, Ended;
    if p != r {
      StaysEnded(p, r.prev, key, uid);
      EndedStep(r.prev.world, r.event, key, uid);
    }
  }

  lemma EndedNow(r: Run, key: Ref)
    requires IsRun(r) && key in r.world.objs && r.world.objs[key].meta.deleting
    ensures Ended(r.world, key, r.world.objs[key].meta.uid)
  {
    hide Permitted, Enabled, IsRun;
    BasicHolds(r);
  }

  /** Nobody else gives a Bucket to a claim that has ended. */
  lemma OthersBindNothing(r: Run, actor: Actor, key: Ref, bucket: string, n: Object, uid: Uid)
    requires BucketEffect(r, actor, bucket, n) && actor != ClaimController(key)
    requires key in r.world.objs && r.world.objs[key].meta.uid == uid && Ended(r.world, key, uid) && uid != ""
    requires !BoundToNow(r.world, bucket, ClaimRef(key.ns, key.name, uid))
    ensures n.body.bspec.claimRef != ClaimRef(key.ns, key.name, uid)
  {
  }

  /** While the deleting claim is there, its Bucket stays absent or another's. */
  lemma {:induction false} StaysUnbound(p: Run, r: Run, key: Ref, bucket: string, uid: Uid)
    requires IsRun(r) && OnlyOthers(ClaimController(key), p, r) && Ended(p.world, key, uid) && uid != ""
    requires key in p.world.objs && p.world.objs[key].meta.uid == uid && key in r.world.objs
    requires r.world.objs[key].meta.uid == uid
    requires !BoundToNow(p.world, bucket, ClaimRef(key.ns, key.name, uid))
    ensures !BoundToNow(r.world, bucket, ClaimRef(key.ns, key.name, uid))
  {
    hide Permitted, Ended;
    if p != r {
      OthersPrefix(ClaimController(key), p, r.prev);
      StaysEnded(p, r.prev, key, uid);
      KnownUid(r.prev.world, key, uid);
      assert key in r.prev.world.objs && r.prev.world.objs[key].meta.uid == uid;
      StaysUnbound(p, r.prev, key, bucket, uid);
      var e := r.event;
      if e.Change? && e.ref == BucketRef(bucket) && e.now.Some? {
        BucketCauses(r.prev, e.actor, bucket, e.now.value);
        OthersBindNothing(r.prev, e.actor, key, bucket, e.now.value, uid);
      }
    }
  }

  lemma KnownUid(w: World, key: Ref, uid: Uid)
    requires Ended(w, key, uid)
    ensures uid in w.uids
  {
  }

  // The announced Bucket

  /** Whatever is stored under the name is the announced Bucket of the claim. */
  ghost predicate Announced(w: World, bucket: string, cr: ClaimRef) {
    BucketRef(bucket) in w.objs ==>
      && w.objs[BucketRef(bucket)].body.Bucket? && w.objs[BucketRef(bucket)].body.bspec.claimRef == cr
      && ClaimBeingDeleted in w.objs[BucketRef(bucket)].meta.annotations
  }

  lemma {:induction false} StaysAnnounced(p: Run, r: Run, key: Ref, bucket: string, cr: ClaimRef)
    requires IsRun(r) && OnlyOthers(ClaimController(key), p, r) && cr.uid != ""
    requires Announced(p.world, bucket, cr) && EverAnnotated(p, bucket)
    ensures Announced(r.world, bucket, cr) && EverAnnotated(r, bucket)
  {
    hide Permitted;
    if p != r {
      StaysAnnounced(p, r.prev, key, bucket, cr);
      if BucketRef(bucket) in r.world.objs { AnnotatedForGood(r, bucket); }
      var e := r.event;
      if e.Change? && e.ref == BucketRef(bucket) && e.now.Some? {
        BucketCauses(r.prev, e.actor, bucket, e.now.value);
        if BucketRef(bucket) !in r.prev.world.objs { AnnouncedNotRecreated(r.prev, e.actor, bucket, e.now.value); }
      }
    }
  }

  // Status

  ghost predicate Recordable(r: Run, key: Ref, acc: Object) {
    && acc.body.Claim? && acc.meta.rv <= r.world.rv
    && (key in r.world.objs && r.world.objs[key].meta.rv == acc.meta.rv ==>
         r.world.objs[key].body.Claim? && ClaimSetsStatus(r, r.world.objs[key], acc.body.cstatus))
  }

  lemma RecordableStep(r: Run, key: Ref, acc: Object)
    requires IsRun(r) && r.More? && Recordable(r.prev, key, acc)
    ensures Recordable(r, key, acc)
  {
    hide Permitted, Enabled;
  }

  lemma {:induction false} StillRecordable(p: Run, r: Run, key: Ref, acc: Object)
    requires IsRun(r) && Prefix(p, r) && Recordable(p, key, acc)
    ensures Recordable(r, key, acc)
  {
    hide Permitted, Enabled, Recordable;
    if p != r {
      StillRecordable(p, r.prev, key, acc);
      RecordableStep(r, key, acc);
    }
  }

  lemma ReadRecordable(r: Run, key: Ref, c: Object)
    requires IsRun(r) && Seen(r, key, c) && c.body.Claim?
    ensures Recordable(r, key, c)
  {
    hide Permitted, Enabled, IsRun, Seen;
    VersionsGrow(r, key, c);
  }

  lemma SafeStatus(r: Run, key: Ref, acc: Object)
    requires IsRun(r) && Recordable(r, key, acc) && StatusApplies(r.world, key, acc) && key.kind == ClaimKind
    ensures Enabled(r, Change(ClaimController(key), key, StatusUpdated(r.world.objs[key], acc)))
  {
    hide IsRun, ClaimSetsStatus;
    BasicHolds(r);
    assert StatusUpdated(r.world.objs[key], acc) == Some(WithClaimStatus(r.world.objs[key], acc.body.cstatus));
  }

  method WriteStatus(c: Cluster, key: Ref, acc: Object) returns (r: Reply)
    requires c.Valid() && Recordable(c.run, key, acc) && key.kind == ClaimKind
    modifies c
    ensures c.Valid() && Prefix(old(c.run), c.run) && Recordable(c.run, key, acc)
    ensures r.Ok? ==> c.run.More? && StatusApplies(c.run.prev.world, key, acc)
    ensures r.Ok? ==> OnlyOthers(ClaimController(key), old(c.run), c.run.prev)
    ensures r.Ok? ==> c.run.event == Change(ClaimController(key), key, StatusUpdated(c.run.prev.world.objs[key], acc))
    ensures r.Ok? ==> key in c.run.world.objs && r.obj == c.run.world.objs[key]
    ensures r.Ok? ==> r.obj.body.Claim? && r.obj.body.cstatus == acc.body.cstatus
    ensures old(c.Calm()) ==> c.Calm() && SameBut(old(c.run).world, c.run.world, {key})
    ensures old(c.Calm()) && StatusApplies(old(c.run).world, key, acc) ==> r.Ok?
    ensures old(c.Calm()) && r.Err? ==> c.run == old(c.run)
    ensures old(c.Calm()) && r.Ok? ==>
              && StatusApplies(old(c.run).world, key, acc)
              && c.run ==
                Extend(old(c.run), Change(ClaimController(key), key, StatusUpdated(old(c.run).world.objs[key], acc)))
  {
    hide Permitted, Enabled, Conforms, StatusApplies, StatusUpdated, IsRun, ClaimSetsStatus, Prefix, OnlyOthers;
    var me := ClaimController(key);
    ghost var r0 := c.run;
    c.Yield(me);
    ghost var r1 := c.run;
    OthersPrefix(me, r0, r1);
    StillRecordable(r0, r1, key, acc);
    if StatusApplies(c.run.world, key, acc) { SafeStatus(c.run, key, acc); }
    r := c.StatusUpdate(me, key, acc);
    PrefixNext(r1, c.run);
    PrefixTransitive(r0, r1, c.run);
    StillRecordable(r1, c.run, key, acc);
    if r.Ok? { StatusStored(r1.world, key, acc); }
  }

  lemma StatusStored(w: World, key: Ref, acc: Object)
    requires StatusApplies(w, key, acc) && acc.body.Claim?
    ensures StatusUpdated(w.objs[key], acc).Some? && StatusUpdated(w.objs[key], acc).value.body.Claim?
    ensures StatusUpdated(w.objs[key], acc).value.body.cstatus == acc.body.cstatus
  {
  }

  function Failed(acc: Object): Object
    requires acc.body.Claim?
  {
    WithClaimStatus(acc, acc.body.cstatus.(ready := OrFalse(acc.body.cstatus.ready), failed := true))
  }

  lemma FailedRecordable(r: Run, key: Ref, acc: Object)
    requires Recordable(r, key, acc)
    ensures Recordable(r, key, Failed(acc))
  {
  }
}
