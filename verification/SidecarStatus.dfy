/** How the Sidecar writes the status of a BucketAccess, including the record of a failed reconcile. */
module SidecarStatus {
  import opened Objects
  import opened Runs
  import opened Rules
  import opened Invariants
  import opened Clusters
  import opened Rely

  /** If the stored access is still the version that `acc` was made from, the status in `acc` may be written. */
  ghost predicate Recordable(w: World, driver: string, key: Ref, acc: Object) {
    && acc.body.Access? && acc.meta.rv <= w.rv
    && (key in w.objs && w.objs[key].meta.rv == acc.meta.rv ==>
         SidecarServes(w, driver, key) && SidecarSetsStatus(w, key, w.objs[key], acc.body.astatus))
  }

  lemma TogetherStep(r: Run, e: Event, driver: string, key: Ref, a: Object, accountId: string)
    requires Enabled(r, e) && Basic(r.world) && MayInterleave(AccessSidecar(driver, key), e.actor)
    requires Holds(r.world, driver, key, a) && GrantedTogether(r.world, key, a, accountId)
    ensures GrantedTogether(After(r.world, e), key, a, accountId)
  {
    hide Permitted, Enabled, FilledBy;
    var w' := After(r.world, e);
    var latest := LatestReply(r.world.calls, a.meta.uid).value;
    if e.Called? {
      OthersCallElsewhere(r, e.actor, e.call, driver, key, a);
      LatestUnaffected(r.world.calls, e.call, a.meta.uid);
    }
    forall i: nat | i < |a.body.aspec.claims| ensures ClaimFilledBy(w', key, a, i, latest) {
      assert ClaimFilledBy(r.world, key, a, i, latest);
      SecretUntouchedStep(r, e, driver, key, a, SecretRefOf(key, a.body.aspec.claims[i].secretName));
    }
  }

  lemma RecordableStep(r: Run, e: Event, driver: string, key: Ref, acc: Object)
    requires Enabled(r, e) && Basic(r.world) && MayInterleave(AccessSidecar(driver, key), e.actor)
    requires Recordable(r.world, driver, key, acc)
    ensures Recordable(After(r.world, e), driver, key, acc)
  {
    hide Permitted, Enabled, GrantedTogether, Granted;
    var w, w' := r.world, After(r.world, e);
    if key in w'.objs && w'.objs[key].meta.rv == acc.meta.rv {
      var a := w.objs[key];
      assert e.Change? ==> e.ref != key;
      if GrantedTogether(w, key, a, acc.body.astatus.accountId) {
        TogetherStep(r, e, driver, key, a, acc.body.astatus.accountId);
      }
      if e.Called? { MoreCallsGranted(w.calls, e.call, a.meta.uid, acc.body.astatus.accountId); }
    }
  }

  lemma {:induction false} StillRecordable(p: Run, r: Run, driver: string, key: Ref, acc: Object)
    requires IsRun(r) && OnlyOthers(AccessSidecar(driver, key), p, r) && Recordable(p.world, driver, key, acc)
    ensures Recordable(r.world, driver, key, acc)
  {
    hide Permitted, Enabled, Recordable;
    if p != r {
      StillRecordable(p, r.prev, driver, key, acc);
      BasicHolds(r.prev);
      RecordableStep(r.prev, r.event, driver, key, acc);
    }
  }

  /** What Reconcile writes after an error: readiness is filled in, the error is recorded. */
  function Failed(acc: Object): Object
    requires acc.body.Access?
  {
    WithAccessStatus(acc, acc.body.astatus.(ready := OrFalse(acc.body.astatus.ready), failed := true))
  }

  lemma FailedRecordable(w: World, driver: string, key: Ref, acc: Object)
    requires Recordable(w, driver, key, acc)
    ensures Recordable(w, driver, key, Failed(acc))
  {
  }

  lemma SafeStatus(r: Run, driver: string, key: Ref, acc: Object)
    requires IsRun(r) && Recordable(r.world, driver, key, acc) && StatusApplies(r.world, key, acc)
    ensures Enabled(r, Change(AccessSidecar(driver, key), key, StatusUpdated(r.world.objs[key], acc)))
  {
    hide IsRun;
    BasicHolds(r);
    assert StatusUpdated(r.world.objs[key], acc) == Some(WithAccessStatus(r.world.objs[key], acc.body.astatus));
  }

  method WriteStatus(c: Cluster, driver: string, key: Ref, acc: Object) returns (r: Reply)
    requires c.Valid() && Recordable(c.run.world, driver, key, acc)
    modifies c
    ensures c.Valid() && Prefix(old(c.run), c.run)
    ensures r.Err? ==> Recordable(c.run.world, driver, key, acc)
    ensures r.Ok? ==> c.run.More? && StatusApplies(c.run.prev.world, key, acc)
    ensures r.Ok? ==> Recordable(c.run.prev.world, driver, key, acc)
    ensures r.Ok? ==> OnlyOthers(AccessSidecar(driver, key), old(c.run), c.run.prev)
    ensures r.Ok? ==>
        c.run.event == Change(AccessSidecar(driver, key), key, StatusUpdated(c.run.prev.world.objs[key], acc))
    ensures r.Ok? ==> key in c.run.world.objs && r.obj == c.run.world.objs[key]
    ensures old(c.Calm()) ==> c.Calm() && (StatusApplies(old(c.run).world, key, acc) ==> r.Ok?)
  {
    hide Permitted, Enabled, Conforms, StatusApplies, StatusUpdated, IsRun, SidecarSetsStatus;
    var me := AccessSidecar(driver, key);
    ghost var r0 := c.run;
    c.Yield(me);
    ghost var r1 := c.run;
    StillRecordable(r0, r1, driver, key, acc);
    OthersPrefix(me, r0, r1);
    if StatusApplies(c.run.world, key, acc) { SafeStatus(c.run, driver, key, acc); }
    r := c.StatusUpdate(me, key, acc);
  }
}
