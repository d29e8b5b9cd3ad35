/** Deletion of claims and Buckets: what is announced stays announced, and what is bound is not abandoned. */
module Releases {
  import opened Objects
  import opened Runs
  import opened Rules
  import opened Invariants
  import opened Bindings

  /** The claim-being-deleted annotation only ever comes from the deleting claim that the Bucket is bound to. */
  lemma AnnotationSource(r: Run, actor: Actor, bucket: string, n: Object)
    requires Enabled(r, Change(actor, BucketRef(bucket), Some(n))) && ClaimBeingDeleted in n.meta.annotations
    requires BucketRef(bucket) in r.world.objs ==>
        ClaimBeingDeleted !in r.world.objs[BucketRef(bucket)].meta.annotations
    ensures actor.ClaimController? && actor.key.kind == ClaimKind && BucketRef(bucket) in r.world.objs
    ensures r.world.objs[BucketRef(bucket)].body.Bucket?
    ensures Ended(r.world, actor.key, r.world.objs[BucketRef(bucket)].body.bspec.claimRef.uid)
  {
    assert ClaimBeingDeleted in n.meta.annotations * COSI_ANNOTATIONS;
  }

  lemma AnnotationKept(r: Run, actor: Actor, bucket: string, n: Object)
    requires Enabled(r, Change(actor, BucketRef(bucket), Some(n))) && AnnotatedNow(r.world, bucket)
    ensures ClaimBeingDeleted in n.meta.annotations
  {
    if actor == User {
      var o := r.world.objs[BucketRef(bucket)];
      assert ClaimBeingDeleted in o.meta.annotations * COSI_ANNOTATIONS;
      assert ClaimBeingDeleted in n.meta.annotations * COSI_ANNOTATIONS;
    }
  }

  lemma {:induction false} AnnotatedExisted(r: Run, bucket: string)
    requires EverAnnotated(r, bucket)
    ensures EverExisted(r, BucketRef(bucket))
  {
    if !AnnotatedNow(r.world, bucket) { AnnotatedExisted(r.prev, bucket); }
  }

  /** Once a claim's dynamic Bucket is announced, no reconcile holds a reading in which the claim was live. */
  lemma {:induction false} AnnouncedNotLive(r: Run, key: Ref, uid: Uid)
    requires IsRun(r) && uid in r.world.uids && EverAnnotated(r, DynamicName(uid))
    ensures !LiveWhenRead(r, key, uid)
  {
    hide Permitted, Enabled;
    if LiveWhenRead(r, key, uid) {
      var name, e := DynamicName(uid), r.event;
      BasicHolds(r);
      if EverAnnotated(r.prev, name) {
        AnnotatedUidKnown(r.prev, name);
        DynamicNameIsDynamic(uid);
        AnnouncedNotLive(r.prev, key, uid);
        LiveBefore(r, key, uid);
      } else {
        AnnotationSource(r.prev, e.actor, name, e.now.value);
        var u := r.prev.world.objs[BucketRef(name)].body.bspec.claimRef.uid;
        BucketsHold(r.prev, name);
        DynamicNameIsDynamic(uid);
        DynamicNameInjective(u, uid);
        LiveBefore(r, key, uid);
      }
    }
  }

  /** A live reading now was a live reading one event ago, unless the claim is new. */
  lemma LiveBefore(r: Run, key: Ref, uid: Uid)
    requires IsRun(r) && r.More? && LiveWhenRead(r, key, uid) && uid in r.prev.world.uids
    ensures LiveWhenRead(r.prev, key, uid)
  {
    hide Permitted;
    BasicHolds(r.prev);
  }

  lemma {:induction false} AnnotatedUidKnown(r: Run, bucket: string)
    requires IsRun(r) && EverAnnotated(r, bucket) && IsDynamicName(bucket)
    ensures bucket[3..] in r.world.uids
  {
    hide Permitted, Enabled;
    if AnnotatedNow(r.world, bucket) {
      BucketsHold(r, bucket);
      BasicHolds(r);
    } else {
      AnnotatedUidKnown(r.prev, bucket);
    }
  }

  /** No event creates a Bucket under a name that was announced. */
  lemma AnnouncedNotRecreated(r: Run, actor: Actor, bucket: string, n: Object)
    requires IsRun(r) && EverAnnotated(r, bucket) && BucketRef(bucket) !in r.world.objs
    ensures !BucketEffect(r, actor, bucket, n)
  {
    hide Permitted, Enabled;
    if BucketEffect(r, actor, bucket, n) {
      AnnotatedExisted(r, bucket);
      var key := actor.key;
      BasicHolds(r);
      AnnouncedNotLive(r, key, r.world.objs[key].meta.uid);
    }
  }

  /** After the announcement, every Bucket of that name that is ever stored carries it. */
  lemma {:induction false} AnnotatedForGood(r: Run, bucket: string)
    requires IsRun(r) && EverAnnotated(r, bucket) && BucketRef(bucket) in r.world.objs
    ensures AnnotatedNow(r.world, bucket)
  {
    hide Permitted, Enabled;
    if !AnnotatedNow(r.world, bucket) {
      var e := r.event;
      if BucketRef(bucket) in r.prev.world.objs {
        AnnotatedForGood(r.prev, bucket);
        if e.Change? && e.ref == BucketRef(bucket) { AnnotationKept(r.prev, e.actor, bucket, e.now.value); }
      } else {
        BucketCauses(r.prev, e.actor, bucket, e.now.value);
        AnnouncedNotRecreated(r.prev, e.actor, bucket, e.now.value);
      }
    }
  }

  // Claims

  /** What lets a claim go: its reconciler found it releasable, or it was unprotected already. */
  lemma VanishingClaim(r: Run, actor: Actor, key: Ref)
    requires key.kind == ClaimKind && Enabled(r, Change(actor, key, None)) && r.world.objs[key].body.Claim?
    ensures Releasable(r, key, r.world.objs[key]) || !IsProtected(r.world.objs[key])
  {
  }

  /**
   * A claim disappears only when its Bucket is gone or does not name it, or when the Bucket's deletion policy was
   * other than Delete at some time. This holds from the moment the Bucket is bound, before the claim records it. The
   * one exception is a static Bucket on which a user preset the claim's UID, until the claim records it.
   */
  lemma BoundClaimIsReleased(r: Run, key: Ref)
    requires IsRun(r) && r.More? && key.kind == ClaimKind && key in r.prev.world.objs
    requires r.prev.world.objs[key].body.Claim?
    requires NotPreset(r.prev, r.prev.world.objs[key]) && key !in r.world.objs
    ensures
      var c := r.prev.world.objs[key];
      !BoundToNow(r.world, BucketNameFor(c), FullRef(key, c)) || EverRetained(r, BucketNameFor(c))
  {
    hide Permitted, Enabled;
    VanishingClaim(r.prev, r.event.actor, key);
    GuardedHolds(r.prev, key);
  }

  lemma {:induction false} BoundLater(p: Run, r: Run, bucket: string, uid: Uid)
    requires Prefix(p, r) && EverBound(p, bucket, uid)
    ensures EverBound(r, bucket, uid)
  {
    if p != r { BoundLater(p, r.prev, bucket, uid); }
  }

  lemma {:induction false} PrefixIsRun(p: Run, r: Run)
    requires IsRun(r) && Prefix(p, r)
    ensures IsRun(p)
  {
    hide Permitted, Enabled;
    if p != r { PrefixIsRun(p, r.prev); }
  }

  lemma BoundClaimOwns(p: Run, r: Run, key: Ref)
    requires IsRun(r) && Prefix(p, r) && key.kind == ClaimKind && key in p.world.objs && p.world.objs[key].body.Claim?
    requires p.world.objs[key].body.cstatus.bound != ""
    ensures EverBound(r, p.world.objs[key].body.cstatus.bound, p.world.objs[key].meta.uid)
    ensures p.world.objs[key].meta.uid != ""
  {
    hide Permitted, Enabled, IsRun;
    PrefixIsRun(p, r);
    ClaimsHold(p, key);
    BasicHolds(p);
    BoundLater(p, r, p.world.objs[key].body.cstatus.bound, p.world.objs[key].meta.uid);
  }

  /** Claims that name the same bound Bucket, at any two moments of a run, are one claim. */
  lemma OneClaimPerBucket(p: Run, q: Run, r: Run, key: Ref, other: Ref)
    requires IsRun(r) && Prefix(p, r) && Prefix(q, r) && key.kind == ClaimKind && other.kind == ClaimKind
    requires key in p.world.objs && p.world.objs[key].body.Claim? && other in q.world.objs
    requires q.world.objs[other].body.Claim?
    requires p.world.objs[key].body.cstatus.bound == q.world.objs[other].body.cstatus.bound != ""
    ensures p.world.objs[key].meta.uid == q.world.objs[other].meta.uid
  {
    hide Permitted, Enabled, IsRun;
    BoundClaimOwns(p, r, key);
    BoundClaimOwns(q, r, other);
    BindingUnique(r, p.world.objs[key].body.cstatus.bound, p.world.objs[key].meta.uid, q.world.objs[other].meta.uid);
  }

  /** A stored Bucket's claim UID only ever goes from empty to that of the claim which the Bucket names. */
  lemma BindingSource(r: Run, actor: Actor, bucket: string, n: Object)
    requires Enabled(r, Change(actor, BucketRef(bucket), Some(n))) && BucketRef(bucket) in r.world.objs
    requires n.body.Bucket?
    requires r.world.objs[BucketRef(bucket)].body.Bucket?
    requires n.body.bspec.claimRef != r.world.objs[BucketRef(bucket)].body.bspec.claimRef
    ensures
      var cr := n.body.bspec.claimRef;
      && r.world.objs[BucketRef(bucket)].body.bspec.claimRef == cr.(uid := "")
      && actor == ClaimController(Ref(ClaimKind, cr.ns, cr.name))
      && ClaimAt(r.world, Ref(ClaimKind, cr.ns, cr.name), cr.uid)
  {
    BucketCauses(r, actor, bucket, n);
  }

  /** The Controller deletes a Bucket only after the claim's deletion was announced on it. */
  lemma DeletionIsAnnounced(r: Run, key: Ref, bucket: string, now: Option<Object>)
    requires Enabled(r, Change(ClaimController(key), BucketRef(bucket), now)) && BucketRef(bucket) in r.world.objs
    requires !r.world.objs[BucketRef(bucket)].meta.deleting && (now.None? || now.value.meta.deleting)
    ensures AnnotatedNow(r.world, bucket)
    ensures Ended(r.world, key, r.world.objs[BucketRef(bucket)].body.bspec.claimRef.uid)
  {
  }
}
