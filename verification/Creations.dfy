/** How often a Bucket is created. */
module Creations {
  import opened Objects
  import opened Runs
  import opened Rules
  import opened Invariants
  import opened Bindings
  import opened Releases

  predicate CreatesBucket(w: World, e: Event, bucket: string) {
    e.Change? && e.ref == BucketRef(bucket) && e.now.Some? && BucketRef(bucket) !in w.objs
  }

  /** The number of times that a Bucket of this name was created. */
  function Count(r: Run, bucket: string): nat {
    match r
    case Start(_) => 0
    case More(prev, e, _) => Count(prev, bucket) + if CreatesBucket(prev.world, e, bucket) then 1 else 0
  }

  /** A user removed the Bucket or requested its deletion. */
  predicate DeletedByUser(w: World, e: Event, bucket: string) {
    && e.Change? && e.actor == User && e.ref == BucketRef(bucket) && e.ref in w.objs && !w.objs[e.ref].meta.deleting
    && (e.now.None? || e.now.value.meta.deleting)
  }

  predicate EverDeletedByUser(r: Run, bucket: string) {
    r.More? && (DeletedByUser(r.prev.world, r.event, bucket) || EverDeletedByUser(r.prev, bucket))
  }

  /** A Bucket that existed is there, or was announced as going. */
  ghost predicate Accounted(r: Run, bucket: string) {
    EverExisted(r, BucketRef(bucket)) ==>
      (BucketRef(bucket) in r.world.objs && !r.world.objs[BucketRef(bucket)].meta.deleting) || EverAnnotated(r, bucket)
  }

  lemma RemovalSource(r: Run, e: Event, bucket: string)
    requires Enabled(r, e) && e.Change? && e.ref == BucketRef(bucket) && e.ref in r.world.objs
    requires !r.world.objs[e.ref].meta.deleting
    requires !DeletedByUser(r.world, e, bucket) && Basic(r.world)
    ensures (e.now.Some? && !e.now.value.meta.deleting) || AnnotatedNow(r.world, bucket)
  {
  }

  lemma {:induction false} AccountedHolds(r: Run, bucket: string)
    requires IsRun(r) && !EverDeletedByUser(r, bucket)
    ensures Accounted(r, bucket)
  {
    hide Permitted;
    if r.More? {
      AccountedHolds(r.prev, bucket);
      BasicHolds(r.prev);
      var e := r.event;
      if e.Change? && e.ref == BucketRef(bucket) && e.ref in r.prev.world.objs
          && !r.prev.world.objs[e.ref].meta.deleting {
        RemovalSource(r.prev, e, bucket);
        assert AnnotatedNow(r.prev.world, bucket) ==> EverAnnotated(r.prev, bucket);
      }
    }
  }

  lemma {:induction false} CountedExisted(r: Run, bucket: string)
    requires IsRun(r) && Count(r, bucket) > 0
    ensures EverExisted(r, BucketRef(bucket))
  {
    hide Permitted, Enabled;
    if !CreatesBucket(r.prev.world, r.event, bucket) { CountedExisted(r.prev, bucket); }
  }

  /** Unless a user deletes it, a Bucket of a given name is created at most once. */
  lemma {:induction false} CreatedOnce(r: Run, bucket: string)
    requires IsRun(r) && !EverDeletedByUser(r, bucket)
    ensures Count(r, bucket) <= 1
  {
    hide Permitted, Enabled;
    if r.More? {
      CreatedOnce(r.prev, bucket);
      if CreatesBucket(r.prev.world, r.event, bucket) && Count(r.prev, bucket) > 0 {
        CountedExisted(r.prev, bucket);
        AccountedHolds(r.prev, bucket);
        BucketCauses(r.prev, r.event.actor, bucket, r.event.now.value);
        AnnouncedNotRecreated(r.prev, r.event.actor, bucket, r.event.now.value);
      }
    }
  }

  // Bound claims

  lemma {:induction false} BindingPersists(p: Run, r: Run, key: Ref, k: Ref)
    requires IsRun(r) && Prefix(p, r) && key in p.world.objs && p.world.objs[key].body.Claim?
    requires p.world.objs[key].body.cstatus.bound != ""
    requires k in r.world.objs && r.world.objs[k].meta.uid == p.world.objs[key].meta.uid
    ensures k == key && r.world.objs[k].body.Claim?
    ensures r.world.objs[k].body.cstatus.bound == p.world.objs[key].body.cstatus.bound
    ensures p.world.objs[key].meta.uid in r.world.uids
  {
    hide Permitted;
    if p == r {
      BasicHolds(r);
    } else {
      UidStays(p, r.prev, key);
      BindingPersists(p, r.prev, key, k);
    }
  }

  lemma {:induction false} UidStays(p: Run, r: Run, key: Ref)
    requires IsRun(r) && Prefix(p, r) && key in p.world.objs
    ensures p.world.objs[key].meta.uid in r.world.uids
  {
    hide Permitted, Enabled;
    if p == r { BasicHolds(r); } else { UidStays(p, r.prev, key); }
  }

  /** Once a claim is bound, its dynamic Bucket is never created again, whatever happens to either. */
  lemma NoneOnceBound(p: Run, r: Run, key: Ref)
    requires IsRun(r) && r.More? && Prefix(p, r.prev) && key in p.world.objs && p.world.objs[key].body.Claim?
    requires p.world.objs[key].body.cstatus.bound != ""
    ensures !CreatesBucket(r.prev.world, r.event, DynamicName(p.world.objs[key].meta.uid))
  {
    hide Permitted, Enabled;
    var uid, e := p.world.objs[key].meta.uid, r.event;
    if CreatesBucket(r.prev.world, e, DynamicName(uid)) {
      BucketCauses(r.prev, e.actor, DynamicName(uid), e.now.value);
      DynamicNameIsDynamic(uid);
      DynamicNameInjective(uid, r.prev.world.objs[e.actor.key].meta.uid);
      BindingPersists(p, r.prev, key, e.actor.key);
    }
  }
}
