/** What initialisation established stays established: offers, bucket IDs, and has-references marks. */
module Marks {
  import opened Objects
  import opened Runs
  import opened Rules
  import opened Invariants
  import opened Bindings

  /**
   * The configuration came from the class, which allowed the access. Every claim offered the requested
   * protocol through the recorded Bucket, which had the recorded ID.
   */
  ghost predicate Backed(r: Run, key: Ref, a: Object)
    requires a.body.Access?
  {
    var spec, s := a.body.aspec, a.body.astatus;
    s.driverName != "" ==>
      && EverAllowed(r, spec, s) && |s.accessed| == |spec.claims|
      && (forall i :: 0 <= i < |spec.claims| ==>
           EverOffered(r, ClaimRefOf(key, spec.claims[i].claimName), spec.protocol, s.accessed[i].bucketName))
      && (forall i :: 0 <= i < |spec.claims| ==> EverHadId(r, s.accessed[i].bucketName, s.accessed[i].bucketId))
  }

  ghost predicate BackedOk(r: Run, key: Ref) {
    key in r.world.objs && r.world.objs[key].body.Access? ==> Backed(r, key, r.world.objs[key])
  }

  /** A write that initialises an access has the Controller's evidence behind it. */
  lemma InitialisedBy(r: Run, actor: Actor, key: Ref, n: Object)
    requires key.kind == AccessKind && Enabled(r, Change(actor, key, Some(n)))
    requires n.body.Access? && n.body.astatus.driverName != ""
    ensures key in r.world.objs && r.world.objs[key].body.Access? && n.meta.uid == r.world.objs[key].meta.uid
    ensures r.world.objs[key].body.astatus.driverName == "" ==>
              Initialises(r, key, r.world.objs[key], n.body.astatus) && n.body.aspec == r.world.objs[key].body.aspec
  {
    match actor
    case AccessController(k) => assert k == key;
    case _ =>
  }

  lemma {:induction false} AllowedFixed(r: Run, spec: AccessSpec, s: AccessStatus, t: AccessStatus)
    requires EverAllowed(r, spec, s) && s.driverName == t.driverName && s.auth == t.auth && s.params == t.params
    ensures EverAllowed(r, spec, t)
  {
    if !AllowedNow(r.world, spec, s) { AllowedFixed(r.prev, spec, s, t); }
  }

  lemma BackedCarries(p: Run, r: Run, key: Ref, a: Object)
    requires a.body.Access? && r.More? && r.prev == p && Backed(p, key, a)
    ensures Backed(r, key, a)
  {
  }

  lemma {:induction false} BackedHolds(r: Run, key: Ref)
    requires IsRun(r) && key.kind == AccessKind
    ensures BackedOk(r, key)
  {
    hide Permitted;
    if r.More? {
      BackedHolds(r.prev, key);
      BackedStep(r, key);
    }
  }

  lemma BackedStep(r: Run, key: Ref)
    requires IsRun(r) && r.More? && key.kind == AccessKind && BackedOk(r.prev, key)
    ensures BackedOk(r, key)
  {
    hide Permitted;
    var w, e := r.prev.world, r.event;
    if key in r.world.objs && r.world.objs[key].body.Access? && r.world.objs[key].body.astatus.driverName != "" {
      var a := r.world.objs[key];
      if e.Change? && e.ref == key {
        InitialisedBy(r.prev, e.actor, key, e.now.value);
        if w.objs[key].body.astatus.driverName != "" {
          ConfigurationFixed(r.prev, e, key);
          AllowedFixed(r.prev, a.body.aspec, w.objs[key].body.astatus, a.body.astatus);
        }
      }
      assert Backed(r.prev, key, a);
      BackedCarries(r.prev, r, key, a);
    }
  }

  /** An offer comes from a claim that the Bucket is bound to. */
  lemma {:induction false} OfferedBound(r: Run, claim: Ref, p: Protocol, bucket: string) returns (uid: Uid)
    requires IsRun(r) && claim.kind == ClaimKind && EverOffered(r, claim, p, bucket)
    ensures uid != "" && uid in r.world.uids && EverBound(r, bucket, uid)
  {
    hide Permitted;
    if OffersNow(r.world, claim, p, bucket) {
      ClaimsHold(r, claim);
      BasicHolds(r);
      uid := r.world.objs[claim].meta.uid;
    } else {
      uid := OfferedBound(r.prev, claim, p, bucket);
    }
  }

  // Marks

  ghost predicate MarksOk(r: Run, key: Ref) {
    key in r.world.objs && r.world.objs[key].body.Access? && !r.world.objs[key].meta.deleting ==>
      forall i :: 0 <= i < |r.world.objs[key].body.astatus.accessed| ==>
        MarkKept(r, key, r.world.objs[key].body.astatus.accessed[i])
  }

  /** No event takes the mark from a claim that an initialised, non-deleting access references. */
  lemma ClaimEventKeepsMark(r: Run, actor: Actor, key: Ref, claim: Ref, n: Object)
    requires claim.kind == ClaimKind && claim in r.world.objs && Enabled(r, Change(actor, claim, Some(n)))
    requires key in r.world.objs && r.world.objs[key].body.Access? && !r.world.objs[key].meta.deleting
    requires References(r.world, key, claim.ns, claim.name) && r.world.objs[key].body.astatus.driverName != ""
    requires Marked(r.world.objs[claim])
    ensures Marked(n)
  {
    match actor
    case User =>
      assert HasAccessReferences in n.meta.annotations * COSI_ANNOTATIONS <==> Marked(n);
      assert HasAccessReferences in r.world.objs[claim].meta.annotations * COSI_ANNOTATIONS;
    case _ =>
  }

  /** Whatever happens next, the claim behind `ab` is only ever bound to the Bucket it was bound to. */
  lemma BoundBefore(r: Run, ab: AccessedBucket, claim: Ref, p: Protocol, uid: Uid)
    requires IsRun(r) && r.More? && claim.kind == ClaimKind
    requires EverOffered(r.prev, claim, p, ab.bucketName) && EverBound(r, ab.bucketName, uid) && uid != ""
    ensures EverBound(r.prev, ab.bucketName, uid) && uid in r.prev.world.uids
  {
    hide Permitted;
    var u := OfferedBound(r.prev, claim, p, ab.bucketName);
    BindingUnique(r, ab.bucketName, u, uid);
  }

  lemma MarkStep(r: Run, key: Ref, i: nat)
    requires IsRun(r) && r.More? && key.kind == AccessKind && key in r.prev.world.objs
    requires r.prev.world.objs[key].body.Access?
    requires key in r.world.objs && SameConfiguration(r.prev.world.objs[key], r.world.objs[key])
    requires !r.world.objs[key].meta.deleting && r.world.objs[key].body.astatus.driverName != ""
    requires i < |r.world.objs[key].body.astatus.accessed|
    requires MarkKept(r.prev, key, r.world.objs[key].body.astatus.accessed[i])
    requires !r.prev.world.objs[key].meta.deleting
    ensures MarkKept(r, key, r.world.objs[key].body.astatus.accessed[i])
  {
    hide Permitted;
    var a, w := r.world.objs[key], r.prev.world;
    var ab := a.body.astatus.accessed[i];
    var claim := ClaimRefOf(key, ab.claimName);
    AccessHolds(r, key);
    if claim in r.world.objs && EverBound(r, ab.bucketName, r.world.objs[claim].meta.uid) {
      BackedHolds(r.prev, key);
      BasicHolds(r);
      assert a.body.aspec.claims[i].claimName == ab.claimName;
      BoundBefore(r, ab, claim, a.body.aspec.protocol, r.world.objs[claim].meta.uid);
      MarkFollows(r, key, ab, claim);
    }
  }

  lemma MarkFollows(r: Run, key: Ref, ab: AccessedBucket, claim: Ref)
    requires IsRun(r) && r.More? && claim == ClaimRefOf(key, ab.claimName) && claim in r.world.objs
    requires r.world.objs[claim].meta.uid in r.prev.world.uids
    requires EverBound(r.prev, ab.bucketName, r.world.objs[claim].meta.uid)
    requires MarkKept(r.prev, key, ab)
    requires key in r.prev.world.objs && r.prev.world.objs[key].body.Access? && !r.prev.world.objs[key].meta.deleting
    requires References(r.prev.world, key, claim.ns, claim.name) && r.prev.world.objs[key].body.astatus.driverName != ""
    ensures Marked(r.world.objs[claim])
  {
    hide Permitted;
    var e := r.event;
    if e.Change? && e.ref == claim {
      assert claim in r.prev.world.objs;
      ClaimEventKeepsMark(r.prev, e.actor, key, claim, e.now.value);
    }
  }

  lemma {:induction false} MarksHold(r: Run, key: Ref)
    requires IsRun(r) && key.kind == AccessKind
    ensures MarksOk(r, key)
  {
    hide Permitted;
    if r.More? && key in r.world.objs && r.world.objs[key].body.Access? && !r.world.objs[key].meta.deleting {
      MarksHold(r.prev, key);
      AccessHolds(r, key);
      var w, e, a := r.prev.world, r.event, r.world.objs[key];
      if a.body.astatus.driverName != "" {
        if e.Change? && e.ref == key {
          InitialisedBy(r.prev, e.actor, key, e.now.value);
        }
        if w.objs[key].body.astatus.driverName == "" {
          InitialMarks(r, key);
        } else {
          AllMarksStep(r, key);
        }
      }
    }
  }

  lemma AllMarksStep(r: Run, key: Ref)
    requires IsRun(r) && r.More? && key.kind == AccessKind && MarksOk(r.prev, key)
    requires key in r.prev.world.objs && r.prev.world.objs[key].body.Access?
    requires r.prev.world.objs[key].body.astatus.driverName != ""
    requires key in r.world.objs && r.world.objs[key].body.Access? && !r.world.objs[key].meta.deleting
    ensures MarksOk(r, key)
  {
    hide Permitted;
    ConfigurationFixed(r.prev, r.event, key);
    assert !r.prev.world.objs[key].meta.deleting;
    forall i | 0 <= i < |r.world.objs[key].body.astatus.accessed|
      ensures MarkKept(r, key, r.world.objs[key].body.astatus.accessed[i])
    {
      MarkStep(r, key, i);
    }
  }

  lemma InitialMarks(r: Run, key: Ref)
    requires r.More? && r.event.Change? && r.event.ref == key && key.kind == AccessKind
    requires r.world == After(r.prev.world, r.event)
    requires key in r.prev.world.objs && r.prev.world.objs[key].body.Access? && key in r.world.objs
    requires r.world.objs[key].body.Access?
    requires Initialises(r.prev, key, r.prev.world.objs[key], r.world.objs[key].body.astatus)
    ensures MarksOk(r, key)
  {
  }
}
