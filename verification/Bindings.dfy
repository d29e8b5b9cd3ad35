/** Invariants of claims and Buckets: binding, readiness, marks and release. */
module Bindings {
  import opened Objects
  import opened Runs
  import opened Rules
  import opened Invariants

  predicate Covers(have: seq<Protocol>, want: seq<Protocol>) { forall p :: p in want ==> p in have }

  /** A Bucket has an ID exactly when it is ready, and then supports what its spec asks for. */
  predicate GoodBucket(name: string, b: Object)
    requires b.body.Bucket?
  {
    var spec, s := b.body.bspec, b.body.bstatus;
    && (s.id != "" <==> s.ready == Some(true))
    && (s.id != "" ==> s.protocols != [] && Covers(s.protocols, spec.protocols))
    && (IsDynamicName(name) ==> name == DynamicName(spec.claimRef.uid) && spec.claimRef.uid != "")
  }

  ghost predicate BucketOk(w: World, name: string) {
    var ref := BucketRef(name);
    ref in w.objs && w.objs[ref].body.Bucket? ==>
      && GoodBucket(name, w.objs[ref])
      && (IsDynamicName(name) ==> w.objs[ref].body.bspec.claimRef.uid in w.uids)
  }

  lemma BucketStep(r: Run, actor: Actor, name: string, n: Object)
    requires Enabled(r, Change(actor, BucketRef(name), Some(n))) && BucketOk(r.world, name) && Basic(r.world)
    ensures n.body.Bucket? && GoodBucket(name, n)
    ensures IsDynamicName(name) ==> n.body.bspec.claimRef.uid in r.world.uids
  {
    var ref, w := BucketRef(name), r.world;
    match actor
    case User =>
    case ClaimController(k) =>
      if ref !in w.objs { assert DynamicName(w.objs[k].meta.uid)[..3] == "bc-"; }
    case BucketSidecar(_, _) =>
    case _ =>
  }

  lemma {:induction false} BucketsHold(r: Run, name: string)
    requires IsRun(r)
    ensures BucketOk(r.world, name)
  {
    hide Permitted;
    if r.More? {
      BucketsHold(r.prev, name);
      BasicHolds(r.prev);
      if r.event.Change? && r.event.ref == BucketRef(name) && r.event.now.Some? {
        BucketStep(r.prev, r.event.actor, name, r.event.now.value);
      }
    }
  }

  // What any event can do to a Bucket's binding

  ghost predicate ClaimAt(w: World, key: Ref, uid: Uid) {
    key.kind == ClaimKind && key in w.objs && w.objs[key].body.Claim? && w.objs[key].meta.uid == uid
  }

  /** The claim under `key` gives the Bucket its UID: by creating it, or by binding a static one. */
  ghost predicate BoundByClaim(r: Run, key: Ref, bucket: string, n: Object)
    requires n.body.Bucket?
  {
    && ClaimAt(r.world, key, n.body.bspec.claimRef.uid)
    && LiveWhenRead(r, key, n.body.bspec.claimRef.uid)
    && var c := r.world.objs[key];
       && bucket == BucketNameFor(c) && IsProtected(c)
       && n.body.bspec.claimRef.ns == key.ns && n.body.bspec.claimRef.name == key.name
       && (BucketRef(bucket) !in r.world.objs ==>
            c.body.cspec.existingBucket == "" && c.body.cstatus.bound == "" && IsIntermediateBucket(r, key, c, n))
       && (BucketRef(bucket) in r.world.objs ==>
            && c.body.cspec.existingBucket != ""
            && var b := r.world.objs[BucketRef(bucket)];
               b.body.Bucket? && b.body.bspec.claimRef.uid == "" && n.body.bspec.protocols == b.body.bspec.protocols)
  }

  ghost predicate BucketEffect(r: Run, actor: Actor, bucket: string, n: Object) {
    var ref, w := BucketRef(bucket), r.world;
    && n.body.Bucket?
    && (|| (&& ref in w.objs && w.objs[ref].body.Bucket?
            && n.body.bspec == w.objs[ref].body.bspec.(policy := n.body.bspec.policy)
            && (n.body.bspec.policy != w.objs[ref].body.bspec.policy ==> actor == User))
        || (actor == User && ref !in w.objs && UserCreatesBucket(r, ref, n))
        || (actor.ClaimController? && BoundByClaim(r, actor.key, bucket, n)))
  }

  lemma BucketCauses(r: Run, actor: Actor, bucket: string, n: Object)
    requires Enabled(r, Change(actor, BucketRef(bucket), Some(n)))
    ensures BucketEffect(r, actor, bucket, n)
  {
    match actor
    case ClaimController(k) =>
      if !ClaimEndsBucket(r.world, k, BucketRef(bucket), Some(n)) {
        ClaimBucketCauses(r, k, r.world.objs[k], bucket, n);
      }
    case _ =>
  }

  lemma ClaimBucketCauses(r: Run, key: Ref, c: Object, bucket: string, n: Object)
    requires c.body.Claim? && ClaimAt(r.world, key, c.meta.uid) && c == r.world.objs[key]
    requires Conforms(r.world, BucketRef(bucket), Some(n)) && ClaimBindsBucket(r, key, c, BucketRef(bucket), Some(n))
    ensures BucketEffect(r, ClaimController(key), bucket, n)
  {
  }

  // Binding

  lemma {:induction false} BoundExisted(r: Run, bucket: string, uid: Uid)
    requires EverBound(r, bucket, uid)
    ensures EverExisted(r, BucketRef(bucket))
  {
    if !BoundNow(r.world, bucket, uid) { BoundExisted(r.prev, bucket, uid); }
  }

  lemma {:induction false} DynamicBound(r: Run, bucket: string, uid: Uid)
    requires IsRun(r) && EverBound(r, bucket, uid) && IsDynamicName(bucket)
    ensures bucket == DynamicName(uid)
  {
    hide Permitted;
    if BoundNow(r.world, bucket, uid) {
      BucketsHold(r, bucket);
    } else {
      DynamicBound(r.prev, bucket, uid);
    }
  }

  /** A Bucket that reappears under a name is bound as the name was bound before. */
  lemma RecreatedBound(r: Run, actor: Actor, bucket: string, uid: Uid, n: Object)
    requires IsRun(r) && EverBound(r, bucket, uid) && BucketRef(bucket) !in r.world.objs
    requires BucketEffect(r, actor, bucket, n)
    ensures n.body.bspec.claimRef.uid == uid
  {
    hide Permitted;
    BoundExisted(r, bucket, uid);
    if actor.ClaimController? {
      var u := r.world.objs[actor.key].meta.uid;
      assert bucket == DynamicName(u) && DynamicName(u)[..3] == "bc-";
      DynamicBound(r, bucket, uid);
      DynamicNameInjective(u, uid);
    }
  }

  lemma KeptBound(w: World, bucket: string, uid: Uid, n: Object)
    requires BoundNow(w, bucket, uid) && uid != ""
    requires Conforms(w, BucketRef(bucket), Some(n))
    ensures n.body.Bucket? && n.body.bspec.claimRef.uid == uid
  {
  }

  /** A binding, once made, is never changed. */
  lemma {:induction false} BoundStays(r: Run, bucket: string, uid: Uid)
    requires IsRun(r) && EverBound(r, bucket, uid) && uid != "" && BucketRef(bucket) in r.world.objs
    ensures BoundNow(r.world, bucket, uid)
  {
    hide Permitted;
    if !BoundNow(r.world, bucket, uid) {
      var ref, e := BucketRef(bucket), r.event;
      if ref in r.prev.world.objs {
        BoundStays(r.prev, bucket, uid);
        if e.Change? && e.ref == ref { KeptBound(r.prev.world, bucket, uid, e.now.value); }
      } else {
        BucketCauses(r.prev, e.actor, bucket, e.now.value);
        RecreatedBound(r.prev, e.actor, bucket, uid, e.now.value);
      }
    }
  }

  /** So a Bucket name belongs to at most one claim, for good. */
  lemma {:induction false} BindingUnique(r: Run, bucket: string, u: Uid, v: Uid)
    requires IsRun(r) && EverBound(r, bucket, u) && EverBound(r, bucket, v) && u != "" && v != ""
    ensures u == v
  {
    hide Permitted;
    if BoundNow(r.world, bucket, u) {
      BoundStays(r, bucket, v);
    } else if BoundNow(r.world, bucket, v) {
      BoundStays(r, bucket, u);
    } else {
      BindingUnique(r.prev, bucket, u, v);
    }
  }

  // Claims

  /** A bound claim names its own Bucket; a ready one has protocols, all it asked for when dynamic. */
  ghost predicate GoodClaim(r: Run, c: Object)
    requires c.body.Claim?
  {
    var spec, s := c.body.cspec, c.body.cstatus;
    && (s.bound != "" ==> s.bound == BucketNameFor(c) && EverBound(r, s.bound, c.meta.uid))
    && (s.bound != "" ==> IsProtected(c) || c.meta.deleting)
    && (s.ready == Some(true) ==> s.bound != "" && s.protocols != [])
    && (s.ready == Some(true) && spec.existingBucket == "" ==> Covers(s.protocols, spec.protocols))
  }

  ghost predicate ClaimOk(r: Run, key: Ref) {
    key in r.world.objs && r.world.objs[key].body.Claim? ==> GoodClaim(r, r.world.objs[key])
  }

  lemma ClaimStep(r: Run, actor: Actor, key: Ref, n: Object)
    requires key.kind == ClaimKind && Enabled(r, Change(actor, key, Some(n))) && ClaimOk(r, key)
    ensures n.body.Claim? && GoodClaim(r, n)
  {
    match actor
    case User =>
    case ClaimController(k) => assert k == key;
    case AccessController(k) =>
    case _ =>
  }

  lemma {:induction false} ClaimsHold(r: Run, key: Ref)
    requires IsRun(r) && key.kind == ClaimKind
    ensures ClaimOk(r, key)
  {
    hide Permitted;
    if r.More? {
      ClaimsHold(r.prev, key);
      if r.event.Change? && r.event.ref == key && r.event.now.Some? {
        ClaimStep(r.prev, r.event.actor, key, r.event.now.value);
      }
    }
  }

  // Release

  /** Nobody but its own reconciler touches a claim's status or protection. */
  lemma OthersKeepClaim(r: Run, actor: Actor, key: Ref, n: Object)
    requires key.kind == ClaimKind && key in r.world.objs && r.world.objs[key].body.Claim?
    requires Enabled(r, Change(actor, key, Some(n))) && actor != ClaimController(key)
    ensures n.body == r.world.objs[key].body && (IsProtected(n) <==> IsProtected(r.world.objs[key]))
    ensures n.meta.uid == r.world.objs[key].meta.uid
  {
  }

  /** The claim's Bucket did not come with the claim's UID from a user, or the claim recorded it since. */
  ghost predicate NotPreset(r: Run, c: Object)
    requires c.body.Claim?
  {
    c.body.cstatus.bound != "" || c.body.cspec.existingBucket == "" || EverBound(r, BucketNameFor(c), "")
  }

  function FullRef(key: Ref, c: Object): ClaimRef { ClaimRef(key.ns, key.name, c.meta.uid) }

  /** A claim whose Bucket is bound to it is protected, unless the Bucket was to be retained. */
  ghost predicate Guarded(r: Run, key: Ref) {
    key in r.world.objs && r.world.objs[key].body.Claim? ==>
      var c := r.world.objs[key];
      NotPreset(r, c) && BoundToNow(r.world, BucketNameFor(c), FullRef(key, c)) ==>
        IsProtected(c) || EverRetained(r, BucketNameFor(c))
  }

  lemma GuardedClaimStep(r: Run, actor: Actor, key: Ref, n: Object)
    requires key.kind == ClaimKind && key in r.world.objs && r.world.objs[key].body.Claim?
    requires Enabled(r, Change(actor, key, Some(n))) && Guarded(r, key)
    ensures n.body.Claim? && BucketNameFor(n) == BucketNameFor(r.world.objs[key])
    ensures FullRef(key, n) == FullRef(key, r.world.objs[key])
    ensures NotPreset(r, n) && BoundToNow(r.world, BucketNameFor(n), FullRef(key, n)) ==>
              IsProtected(n) || EverRetained(r, BucketNameFor(n))
  {
    if actor != ClaimController(key) { OthersKeepClaim(r, actor, key, n); }
  }

  /** A Bucket that once was unbound got its UID from a claim. */
  lemma {:induction false} CompletedUid(r: Run, bucket: string, uid: Uid)
    requires IsRun(r) && EverBound(r, bucket, "") && BoundNow(r.world, bucket, uid) && uid != ""
    ensures uid in r.world.uids
  {
    hide Permitted;
    BasicHolds(r.prev);
    var e := r.event;
    if BoundNow(r.prev.world, bucket, uid) {
      CompletedUid(r.prev, bucket, uid);
    } else {
      BucketCauses(r.prev, e.actor, bucket, e.now.value);
      BoundExisted(r.prev, bucket, "");
    }
  }

  lemma GuardedFreshStep(r: Run, e: Event, key: Ref)
    requires IsRun(r) && e.Change? && e.ref == key && e.now.Some? && key !in r.world.objs && key.kind == ClaimKind
    requires Conforms(r.world, key, e.now) && e.now.value.body.Claim? && e.now.value.body.cstatus.bound == ""
    ensures !(NotPreset(r, e.now.value) && BoundToNow(r.world, BucketNameFor(e.now.value), FullRef(key, e.now.value)))
  {
    hide Permitted, Enabled, IsRun;
    var n := e.now.value;
    var name := BucketNameFor(n);
    if BoundToNow(r.world, name, FullRef(key, n)) {
      BucketsHold(r, name);
      if n.body.cspec.existingBucket == "" {
        DynamicNameIsDynamic(n.meta.uid);
        FreshClaimHasNoBucket(r.world, name, n.meta.uid);
      } else if EverBound(r, name, "") {
        CompletedUid(r, name, n.meta.uid);
      }
    }
  }

  /** No event newly binds a Bucket to an unprotected claim, except a user's preset. */
  lemma GuardedBucketStep(r: Run, actor: Actor, key: Ref, n: Object)
    requires IsRun(r) && key.kind == ClaimKind && key in r.world.objs && r.world.objs[key].body.Claim?
    requires NotPreset(r, r.world.objs[key]) && BucketEffect(r, actor, BucketNameFor(r.world.objs[key]), n)
    requires n.body.bspec.claimRef == FullRef(key, r.world.objs[key])
    ensures
      var c := r.world.objs[key];
      IsProtected(c) || BoundToNow(r.world, BucketNameFor(c), FullRef(key, c))
  {
    hide Permitted, Enabled, IsRun;
    var c := r.world.objs[key];
    BasicHolds(r);
    ClaimsHold(r, key);
    if actor == User && BucketRef(BucketNameFor(c)) !in r.world.objs {
      DynamicNameIsDynamic(c.meta.uid);
      if c.body.cstatus.bound != "" { BoundExisted(r, BucketNameFor(c), c.meta.uid); }
      if EverBound(r, BucketNameFor(c), "") { BoundExisted(r, BucketNameFor(c), ""); }
    }
  }

  lemma FreshClaimUnrecorded(r: Run, actor: Actor, key: Ref, n: Object)
    requires key.kind == ClaimKind && key !in r.world.objs && Enabled(r, Change(actor, key, Some(n)))
    ensures n.body.Claim? && n.body.cstatus.bound == ""
  {
  }

  lemma {:induction false} GuardedHolds(r: Run, key: Ref)
    requires IsRun(r) && key.kind == ClaimKind
    ensures Guarded(r, key)
  {
    hide Permitted;
    if r.More? {
      GuardedHolds(r.prev, key);
      BasicHolds(r);
      var w, e := r.prev.world, r.event;
      if e.Change? && e.ref == key && e.now.Some? {
        if key in w.objs {
          BasicHolds(r.prev);
          GuardedClaimStep(r.prev, e.actor, key, e.now.value);
        } else {
          FreshClaimUnrecorded(r.prev, e.actor, key, e.now.value);
          GuardedFreshStep(r.prev, e, key);
        }
      } else if e.Change? && key in w.objs && w.objs[key].body.Claim?
          && e.ref == BucketRef(BucketNameFor(w.objs[key])) {
        if e.now.Some? && e.now.value.body.Bucket? && e.now.value.body.bspec.claimRef == FullRef(key, w.objs[key]) {
          BucketCauses(r.prev, e.actor, BucketNameFor(w.objs[key]), e.now.value);
          if NotPreset(r.prev, w.objs[key]) { GuardedBucketStep(r.prev, e.actor, key, e.now.value); }
        }
      }
    }
  }

  // Dynamic Buckets are made from their claim and its class

  /** A user changed the deletion policy of a Bucket with this name. */
  predicate EverEdited(r: Run, bucket: string) {
    r.More? && (EditsPolicy(r.prev.world, r.event, bucket) || EverEdited(r.prev, bucket))
  }

  predicate EditsPolicy(w: World, e: Event, bucket: string) {
    && e.Change? && e.ref == BucketRef(bucket) && e.now.Some? && e.now.value.body.Bucket?
    && e.ref in w.objs && w.objs[e.ref].body.Bucket? && e.now.value.body.bspec.policy != w.objs[e.ref].body.bspec.policy
  }

  /** The Bucket's spec is that of the claim and of this content of its class, but for an edited policy. */
  ghost predicate MadeFromClass(r: Run, key: Ref, c: Object, b: Object, cls: BucketClassSpec)
    requires c.body.Claim? && b.body.Bucket?
  {
    && EverBucketClass(r, c.body.cspec.className, cls)
    && b.body.bspec ==
      BucketSpec(cls.driverName, b.body.bspec.policy, cls.params, c.body.cspec.protocols, FullRef(key, c), "")
    && (b.body.bspec.policy == cls.policy || EverEdited(r, DynamicName(c.meta.uid)))
  }

  ghost predicate MadeOk(r: Run, key: Ref) {
    key in r.world.objs && r.world.objs[key].body.Claim? ==>
      var c := r.world.objs[key];
      var b := BucketRef(DynamicName(c.meta.uid));
      b in r.world.objs && r.world.objs[b].body.Bucket? ==> exists cls :: MadeFromClass(r, key, c, r.world.objs[b], cls)
  }

  lemma DynamicNameIsDynamic(uid: Uid)
    ensures IsDynamicName(DynamicName(uid))
  {
    assert DynamicName(uid)[..3] == "bc-";
  }

  /** The Bucket after an event, as the claim's own. */
  lemma MadeBucketStep(r: Run, key: Ref, c: Object, n: Object) returns (cls: BucketClassSpec)
    requires IsRun(r) && r.More? && key.kind == ClaimKind && key in r.prev.world.objs && r.prev.world.objs[key] == c
    requires c.body.Claim?
    requires MadeOk(r.prev, key) && BucketEffect(r.prev, r.event.actor, DynamicName(c.meta.uid), n)
    requires r.event.Change? && r.event.ref == BucketRef(DynamicName(c.meta.uid)) && r.event.now == Some(n)
    ensures n.body.Bucket? && MadeFromClass(r, key, c, Stamped(n, r.prev.world.rv + 1), cls)
  {
    hide Permitted, Enabled;
    var uid, w := c.meta.uid, r.prev.world;
    var ref := BucketRef(DynamicName(uid));
    DynamicNameIsDynamic(uid);
    BucketsHold(r.prev, DynamicName(uid));
    BasicHolds(r.prev);
    if ref in w.objs && w.objs[ref].body.Bucket?
        && n.body.bspec == w.objs[ref].body.bspec.(policy := n.body.bspec.policy) {
      cls :| MadeFromClass(r.prev, key, c, w.objs[ref], cls);
    } else {
      DynamicNameInjective(uid, w.objs[r.event.actor.key].meta.uid);
      cls := BucketClassSpec(n.body.bspec.driverName, n.body.bspec.policy, n.body.bspec.params);
    }
  }

  lemma MadeFreshStep(r: Run, e: Event, key: Ref)
    requires IsRun(r) && e.Change? && e.ref == key && e.now.Some? && Conforms(r.world, key, e.now)
    requires key !in r.world.objs && key.kind == ClaimKind
    ensures MadeOk(Extend(r, e), key)
  {
    hide Permitted, Enabled, IsRun;
    var name := DynamicName(e.now.value.meta.uid);
    BucketsHold(r, name);
    DynamicNameIsDynamic(e.now.value.meta.uid);
    FreshClaimHasNoBucket(r.world, name, e.now.value.meta.uid);
  }

  lemma MadeCarries(r: Run, key: Ref, c: Object, b: Object, cls: BucketClassSpec, c': Object, b': Object)
    requires r.More? && c.body.Claim? && b.body.Bucket? && MadeFromClass(r.prev, key, c, b, cls)
    requires c'.body.Claim? && c'.meta.uid == c.meta.uid && c'.body.cspec == c.body.cspec && b'.body.Bucket?
    requires b'.body.bspec == b.body.bspec
    ensures MadeFromClass(r, key, c', b', cls)
  {
  }

  lemma ClaimSpecFixed(w: World, e: Event, key: Ref)
    requires key in w.objs && w.objs[key].body.Claim? && (e.Change? ==> Conforms(w, e.ref, e.now))
    requires key in After(w, e).objs
    ensures After(w, e).objs[key].body.Claim? && After(w, e).objs[key].body.cspec == w.objs[key].body.cspec
    ensures After(w, e).objs[key].meta.uid == w.objs[key].meta.uid
  {
  }

  lemma MadeKept(r: Run, key: Ref, c: Object, c': Object)
    requires r.More? && r.world == After(r.prev.world, r.event) && MadeOk(r.prev, key)
    requires key in r.prev.world.objs && r.prev.world.objs[key] == c && key in r.world.objs && r.world.objs[key] == c'
    requires c.body.Claim? && c'.body.Claim? && c'.body.cspec == c.body.cspec && c'.meta.uid == c.meta.uid
    requires r.event.Change? ==> r.event.ref != BucketRef(DynamicName(c.meta.uid))
    ensures MadeOk(r, key)
  {
    hide MadeFromClass;
    var w, b := r.prev.world, BucketRef(DynamicName(c.meta.uid));
    if b in w.objs && w.objs[b].body.Bucket? {
      var cls :| MadeFromClass(r.prev, key, c, w.objs[b], cls);
      MadeCarries(r, key, c, w.objs[b], cls, c', w.objs[b]);
    }
  }

  lemma MadeByEvent(r: Run, key: Ref, c: Object)
    requires IsRun(r) && r.More? && key.kind == ClaimKind && key in r.prev.world.objs && r.prev.world.objs[key] == c
    requires c.body.Claim?
    requires MadeOk(r.prev, key) && r.event.Change? && r.event.ref == BucketRef(DynamicName(c.meta.uid))
    ensures MadeOk(r, key)
  {
    hide Permitted, MadeFromClass;
    var e := r.event;
    if e.now.Some? {
      BucketCauses(r.prev, e.actor, DynamicName(c.meta.uid), e.now.value);
      var cls := MadeBucketStep(r, key, c, e.now.value);
      assert r.world.objs[e.ref] == Stamped(e.now.value, r.prev.world.rv + 1);
    }
  }

  lemma {:induction false} MadeHolds(r: Run, key: Ref)
    requires IsRun(r) && key.kind == ClaimKind
    ensures MadeOk(r, key)
  {
    hide Permitted, MadeFromClass, MadeOk;
    if r.More? {
      MadeHolds(r.prev, key);
      var w, e := r.prev.world, r.event;
      BasicHolds(r.prev);
      if key !in w.objs {
        if e.Change? && e.ref == key && e.now.Some? { MadeFreshStep(r.prev, e, key); }
      } else if e.Change? && e.ref == BucketRef(DynamicName(w.objs[key].meta.uid)) {
        MadeByEvent(r, key, w.objs[key]);
      } else if key in r.world.objs {
        ClaimSpecFixed(w, e, key);
        MadeKept(r, key, w.objs[key], r.world.objs[key]);
      }
    }
    if key !in r.world.objs { MadeVoid(r, key); }
  }

  lemma MadeVoid(r: Run, key: Ref)
    requires key !in r.world.objs
    ensures MadeOk(r, key)
  {
  }

  lemma FreshClaimHasNoBucket(w: World, name: string, uid: Uid)
    requires BucketOk(w, name) && name == DynamicName(uid) && IsDynamicName(name) && uid !in w.uids
    ensures BucketRef(name) in w.objs ==> !w.objs[BucketRef(name)].body.Bucket?
  {
    if BucketRef(name) in w.objs && w.objs[BucketRef(name)].body.Bucket? {
      DynamicNameInjective(uid, w.objs[BucketRef(name)].body.bspec.claimRef.uid);
    }
  }
}
