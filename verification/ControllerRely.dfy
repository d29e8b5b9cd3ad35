/** What the Controller may rely on while it reconciles one BucketAccess at a time. */
module ControllerRely {
  import opened Objects
  import opened Handoff
  import opened Runs
  import opened Rules
  import opened Invariants
  import opened Marks
  import opened Clusters
  import opened Rely

  // Marks

  /** The claim object with this UID, while it is stored, is marked exactly if `m`. */
  ghost predicate MarkIs(w: World, claim: Ref, uid: Uid, m: bool) {
    claim in w.objs && w.objs[claim].meta.uid == uid ==> (Marked(w.objs[claim]) <==> m)
  }

  lemma OthersKeepMark(r: Run, actor: Actor, claim: Ref, n: Object)
    requires claim.kind == ClaimKind && claim in r.world.objs && Enabled(r, Change(actor, claim, Some(n)))
    requires !actor.AccessController?
    ensures Marked(n) <==> Marked(r.world.objs[claim])
  {
    var o := r.world.objs[claim];
    assert HasAccessReferences in n.meta.annotations * COSI_ANNOTATIONS <==> Marked(n);
    assert HasAccessReferences in o.meta.annotations * COSI_ANNOTATIONS <==> Marked(o);
  }

  lemma {:induction false} MarkUntouched(key: Ref, p: Run, r: Run, claim: Ref, uid: Uid, m: bool)
    requires IsRun(r) && OnlyOthers(AccessController(key), p, r) && claim.kind == ClaimKind
    requires uid in p.world.uids && MarkIs(p.world, claim, uid, m)
    ensures uid in r.world.uids && MarkIs(r.world, claim, uid, m)
  {
    hide Permitted;
    if p != r {
      MarkUntouched(key, p, r.prev, claim, uid, m);
      var e := r.event;
      if e.Change? && e.ref == claim && e.now.Some? && claim in r.prev.world.objs {
        OthersKeepMark(r.prev, e.actor, claim, e.now.value);
      }
    }
  }

  // References

  lemma OthersInitialiseNothing(r: Run, actor: Actor, k: Ref, n: Object)
    requires Enabled(r, Change(actor, k, Some(n))) && n.body.Access? && !actor.AccessController?
    ensures n.body.astatus.driverName == "" || (k in r.world.objs && r.world.objs[k].body.Access?)
    ensures k in r.world.objs && r.world.objs[k].body.Access? ==>
              && n.body.aspec == r.world.objs[k].body.aspec
              && n.body.astatus.driverName == r.world.objs[k].body.astatus.driverName
              && (r.world.objs[k].meta.deleting ==> n.meta.deleting)
  {
  }

  lemma UnreferencedStep(r: Run, e: Event, key: Ref, ns: string, name: string)
    requires Enabled(r, e) && !e.actor.AccessController? && Basic(r.world) && Unreferenced(r.world, key, ns, name)
    ensures Unreferenced(After(r.world, e), key, ns, name)
  {
    hide Permitted, Enabled;
    var w' := After(r.world, e);
    forall k | k in w'.objs && References(w', k, ns, name)
      ensures w'.objs[k].body.astatus.driverName == "" || (k == key && w'.objs[k].meta.deleting)
    {
      if e.Change? && e.ref == k {
        OthersInitialiseNothing(r, e.actor, k, e.now.value);
        if k in r.world.objs && r.world.objs[k].body.Access? { assert References(r.world, k, ns, name); }
      } else {
        assert References(r.world, k, ns, name);
      }
    }
  }

  lemma {:induction false} StaysUnreferenced(key: Ref, p: Run, r: Run, ns: string, name: string)
    requires IsRun(r) && OnlyOthers(AccessController(key), p, r) && Unreferenced(p.world, key, ns, name)
    ensures Unreferenced(r.world, key, ns, name)
  {
    hide Permitted, Enabled, Unreferenced;
    if p != r {
      StaysUnreferenced(key, p, r.prev, ns, name);
      BasicHolds(r.prev);
      UnreferencedStep(r.prev, r.event, key, ns, name);
    }
  }

  // Status

  /** If the stored access is still the version that `acc` was made from, the status in `acc` may be written. */
  ghost predicate Recordable(r: Run, key: Ref, acc: Object) {
    && acc.body.Access? && acc.meta.rv <= r.world.rv
    && (key in r.world.objs && r.world.objs[key].meta.rv == acc.meta.rv ==>
         && r.world.objs[key].body.Access? && !ManagedBySidecar(r.world.objs[key])
         && ControllerSetsStatus(r, key, r.world.objs[key], acc.body.astatus))
  }

  lemma MarkKeptStep(r: Run, key: Ref, ab: AccessedBucket, p: Protocol)
    requires IsRun(r) && r.More? && !r.event.actor.AccessController? && MarkKept(r.prev, key, ab)
    requires EverOffered(r.prev, ClaimRefOf(key, ab.claimName), p, ab.bucketName)
    ensures MarkKept(r, key, ab)
  {
    hide Permitted;
    var claim := ClaimRefOf(key, ab.claimName);
    if claim in r.world.objs && EverBound(r, ab.bucketName, r.world.objs[claim].meta.uid) {
      BasicHolds(r);
      BoundBefore(r, ab, claim, p, r.world.objs[claim].meta.uid);
      var e := r.event;
      if e.Change? && e.ref == claim { OthersKeepMark(r.prev, e.actor, claim, e.now.value); }
    }
  }

  lemma InitialisesStep(r: Run, key: Ref, a: Object, s: AccessStatus)
    requires IsRun(r) && r.More? && !r.event.actor.AccessController? && a.body.Access? && Initialises(r.prev, key, a, s)
    ensures Initialises(r, key, a, s)
  {
    hide Permitted, Enabled, IsRun, MarkKept, EverBound;
    var spec := a.body.aspec;
    forall i | 0 <= i < |spec.claims|
      ensures MarkKept(r, key, s.accessed[i])
    {
      MarkKeptStep(r, key, s.accessed[i], spec.protocol);
    }
  }

  lemma RecordableStep(r: Run, key: Ref, acc: Object)
    requires IsRun(r) && r.More? && !r.event.actor.AccessController? && Recordable(r.prev, key, acc)
    ensures Recordable(r, key, acc)
  {
    hide Permitted, Enabled, Initialises;
    if key in r.world.objs && r.world.objs[key].meta.rv == acc.meta.rv {
      var a := r.prev.world.objs[key];
      if Initialises(r.prev, key, a, acc.body.astatus) { InitialisesStep(r, key, a, acc.body.astatus); }
    }
  }

  lemma {:induction false} StillRecordable(p: Run, r: Run, key: Ref, acc: Object)
    requires IsRun(r) && OnlyOthers(AccessController(key), p, r) && Recordable(p, key, acc)
    ensures Recordable(r, key, acc)
  {
    hide Permitted, Enabled, Recordable;
    if p != r {
      StillRecordable(p, r.prev, key, acc);
      RecordableStep(r, key, acc);
    }
  }

  /** The status that was read may be written back. */
  lemma ReadRecordable(r: Run, key: Ref, a: Object)
    requires IsRun(r) && Seen(r, key, a) && a.body.Access? && !ManagedBySidecar(a)
    ensures Recordable(r, key, a)
  {
    hide Permitted, Enabled, IsRun, Seen;
    VersionsGrow(r, key, a);
  }

  lemma SafeStatus(r: Run, key: Ref, acc: Object)
    requires IsRun(r) && Recordable(r, key, acc) && StatusApplies(r.world, key, acc) && key.kind == AccessKind
    ensures Enabled(r, Change(AccessController(key), key, StatusUpdated(r.world.objs[key], acc)))
  {
    hide IsRun, ControllerSetsStatus;
    BasicHolds(r);
    assert StatusUpdated(r.world.objs[key], acc) == Some(WithAccessStatus(r.world.objs[key], acc.body.astatus));
  }

  method WriteStatus(c: Cluster, key: Ref, acc: Object) returns (r: Reply)
    requires c.Valid() && Recordable(c.run, key, acc) && key.kind == AccessKind
    modifies c
    ensures c.Valid() && Prefix(old(c.run), c.run)
    ensures r.Err? ==> Recordable(c.run, key, acc)
    ensures r.Ok? ==> c.run.More? && StatusApplies(c.run.prev.world, key, acc)
    ensures r.Ok? ==> OnlyOthers(AccessController(key), old(c.run), c.run.prev)
    ensures r.Ok? ==> c.run.event == Change(AccessController(key), key, StatusUpdated(c.run.prev.world.objs[key], acc))
    ensures r.Ok? ==> key in c.run.world.objs && r.obj == c.run.world.objs[key]
    ensures r.Ok? ==> r.obj.body.Access? && r.obj.body.astatus == acc.body.astatus
  {
    hide Permitted, Enabled, Conforms, StatusApplies, StatusUpdated, IsRun, ControllerSetsStatus;
    var me := AccessController(key);
    ghost var r0 := c.run;
    c.Yield(me);
    ghost var r1 := c.run;
    StillRecordable(r0, r1, key, acc);
    OthersPrefix(me, r0, r1);
    if StatusApplies(c.run.world, key, acc) { SafeStatus(c.run, key, acc); }
    r := c.StatusUpdate(me, key, acc);
    if r.Ok? { StatusStored(r1.world, key, acc); }
  }

  lemma StatusStored(w: World, key: Ref, acc: Object)
    requires StatusApplies(w, key, acc) && acc.body.Access?
    ensures StatusUpdated(w.objs[key], acc).Some? && StatusUpdated(w.objs[key], acc).value.body.Access?
    ensures StatusUpdated(w.objs[key], acc).value.body.astatus == acc.body.astatus
  {
  }

  /** What Reconcile writes after an error: readiness is filled in, the error is recorded. */
  function Failed(acc: Object): Object
    requires acc.body.Access?
  {
    WithAccessStatus(acc, acc.body.astatus.(ready := OrFalse(acc.body.astatus.ready), failed := true))
  }

  lemma FailedInitialises(r: Run, key: Ref, a: Object, s: AccessStatus, s': AccessStatus)
    requires a.body.Access? && Initialises(r, key, a, s) && s' == s.(ready := s'.ready, failed := s'.failed)
    ensures Initialises(r, key, a, s')
  {
    hide MarkKept, EverOffered, EverHadId, EverAllowed;
    AllowedFixed(r, a.body.aspec, s, s');
  }

  lemma FailedRecordable(r: Run, key: Ref, acc: Object)
    requires Recordable(r, key, acc)
    ensures Recordable(r, key, Failed(acc))
  {
    hide Initialises;
    if key in r.world.objs && r.world.objs[key].meta.rv == acc.meta.rv {
      if Initialises(r, key, r.world.objs[key], acc.body.astatus) {
        FailedInitialises(r, key, r.world.objs[key], acc.body.astatus, Failed(acc).body.astatus);
      }
    }
  }
}
