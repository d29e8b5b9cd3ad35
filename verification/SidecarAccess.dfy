/** The Sidecar's BucketAccess reconciler. */
module SidecarAccess {
  import opened Objects
  import opened Rpc
  import opened Errors
  import opened Handoff
  import opened Runs
  import opened Rules
  import opened Invariants
  import opened Clusters
  import opened Rely
  import opened Readiness
  import opened GrantPipeline
  import opened SidecarStatus
  import opened SidecarReserve
  import opened SidecarGrant
  import opened SidecarFill
  import opened SidecarRevoke

  /** The access is ready, and one reply named its account and filled its Secrets. */
  ghost predicate GrantComplete(w: World, key: Ref, uid: Uid, reply: GrantReply) {
    && key in w.objs && w.objs[key].body.Access? && w.objs[key].meta.uid == uid && !w.objs[key].meta.deleting
    && w.objs[key].body.astatus.ready == Some(true) && !w.objs[key].body.astatus.failed
    && w.objs[key].body.astatus.accountId == reply.accountId
    && LatestReply(w.calls, uid) == Some(reply) && AllFilledBy(w, key, w.objs[key], reply)
  }

  function Ready(a: Object, accountId: string): Object
    requires a.body.Access?
  {
    WithAccessStatus(a, a.body.astatus.(accountId := accountId, ready := Some(true), failed := false))
  }

  lemma ReadyRecordable(r: Run, driver: string, key: Ref, a: Object, reply: GrantReply)
    requires IsRun(r) && Holds(r.world, driver, key, a) && Seen(r, key, a) && !a.meta.deleting && reply.accountId != ""
    requires LatestReply(r.world.calls, a.meta.uid) == Some(reply)
    requires UniqueSecrets(a.body.aspec.claims) && FilledBut(r.world, key, a, {}, reply)
    ensures Recordable(r.world, driver, key, Ready(a, reply.accountId))
    ensures AllFilledBy(r.world, key, a, reply)
  {
    hide Permitted, Enabled, IsRun, Seen, FilledBy, LatestReply;
    VersionsGrow(r, key, a);
    AllFilled(r.world, key, a, reply);
    TogetherIsFilled(r.world, key, a, reply.accountId);
  }

  lemma AllFilled(w: World, key: Ref, a: Object, reply: GrantReply)
    requires a.body.Access? && UniqueSecrets(a.body.aspec.claims) && FilledBut(w, key, a, {}, reply)
    ensures AllFilledBy(w, key, a, reply)
  {
    hide FilledBy;
    forall i: nat | i < |a.body.aspec.claims| ensures ClaimFilledBy(w, key, a, i, reply) {
      assert Reserved(w, SecretOf(key, a, i), a.meta.uid);
    }
  }

  lemma FilledForBoth(w: World, w': World, key: Ref, a: Object, b: Object, reply: GrantReply)
    requires SameConfiguration(a, b) && AllFilledBy(w, key, a, reply) && key.kind == AccessKind
    requires forall s :: s != key && s in w.objs ==> s in w'.objs && w'.objs[s] == w.objs[s]
    ensures AllFilledBy(w', key, b, reply)
  {
    hide FilledFrom;
    forall i: nat | i < |b.body.aspec.claims| ensures ClaimFilledBy(w', key, b, i, reply) {
      assert ClaimFilledBy(w, key, a, i, reply);
      assert LastWithId(a.body.astatus, i) <==> LastWithId(b.body.astatus, i);
    }
  }

  lemma WrittenReady(r: Run, driver: string, key: Ref, a: Object, reply: GrantReply)
    requires IsRun(r) && r.More? && Seen(r.prev, key, a) && a.body.Access? && !a.meta.deleting && key.kind == AccessKind
    requires StatusApplies(r.prev.world, key, Ready(a, reply.accountId)) && AllFilledBy(r.prev.world, key, a, reply)
    requires LatestReply(r.prev.world.calls, a.meta.uid) == Some(reply)
    requires r.event ==
        Change(AccessSidecar(driver, key), key, StatusUpdated(r.prev.world.objs[key], Ready(a, reply.accountId)))
    ensures GrantComplete(r.world, key, a.meta.uid, reply)
  {
    hide Permitted, Enabled, Seen, AllFilledBy, LatestReply;
    SeenIsCurrent(r.prev, key, a);
    FilledForBoth(r.prev.world, r.world, key, a, r.world.objs[key], reply);
  }

  lemma {:induction false} FilledStays(p: Run, r: Run, driver: string, key: Ref, a: Object, reply: GrantReply)
    requires IsRun(r) && OnlyOthers(AccessSidecar(driver, key), p, r) && Holds(p.world, driver, key, a)
    requires AllFilledBy(p.world, key, a, reply)
    ensures AllFilledBy(r.world, key, a, reply)
  {
    hide Permitted, Enabled, IsRun, OnlyOthers, FilledBy;
    forall i: nat | i < |a.body.aspec.claims| ensures ClaimFilledBy(r.world, key, a, i, reply) {
      assert ClaimFilledBy(p.world, key, a, i, reply);
      SecretsUntouched(p, r, driver, key, a, SecretOf(key, a, i));
    }
  }

  /** The recorded account, if any, is the one that the reply names. */
  predicate AccountFits(a: Object, reply: GrantReply)
    requires a.body.Access?
  {
    Once(a.body.astatus.accountId, "", reply.accountId)
  }

  lemma ReadyApplies(r: Run, key: Ref, a: Object, reply: GrantReply)
    requires IsRun(r) && key.kind == AccessKind && a.body.Access? && Current(r.world, key, a) && AccountFits(a, reply)
    ensures StatusApplies(r.world, key, Ready(a, reply.accountId))
  {
    hide Permitted, Enabled, IsRun;
    BasicHolds(r);
  }

  /** The status is written last; if that fails, the ready status is still what Reconcile records. */
  method AnnounceReady(c: Cluster, driver: string, key: Ref, a: Object, ghost reply: GrantReply, accountId: string)
    returns (err: Option<Error>)
    requires c.Valid() && Holds(c.run.world, driver, key, a) && Seen(c.run, key, a) && !a.meta.deleting
    requires accountId == reply.accountId != "" && LatestReply(c.run.world.calls, a.meta.uid) == Some(reply)
    requires UniqueSecrets(a.body.aspec.claims) && FilledBut(c.run.world, key, a, {}, reply)
    modifies c
    ensures c.Valid() && Prefix(old(c.run), c.run)
    ensures err.None? ==> GrantComplete(c.run.world, key, a.meta.uid, reply)
    ensures err.Some? ==> Recordable(c.run.world, driver, key, Ready(a, accountId))
    ensures old(c.Calm()) && Current(old(c.run).world, key, a) && AccountFits(a, reply) ==> err.None?
  {
    hide Permitted, Enabled, Conforms, IsRun, Seen, Prefix, OnlyOthers, FilledBut, Recordable, StatusApplies,
         StatusUpdated, GrantComplete, AllFilledBy, LatestReply;
    ghost var r0, calm := c.run, c.Calm();
    ReadyRecordable(r0, driver, key, a, reply);
    if Current(r0.world, key, a) && AccountFits(a, reply) { ReadyApplies(r0, key, a, reply); }
    var written := WriteStatus(c, driver, key, Ready(a, accountId));
    if written.Err? { return Some(Wrapped(Plain)); }
    PrevIsRun(c.run);
    SeenStays(AccessSidecar(driver, key), r0, c.run.prev, key, a);
    FilledStays(r0, c.run.prev, driver, key, a, reply);
    LatestStays(r0, c.run.prev, driver, key, a);
    WrittenReady(c.run, driver, key, a, reply);
    err := None;
  }

  // No driver call without a check of the Buckets

  ghost predicate NoGrants(me: Actor, p: Run, r: Run) {
    p == r || (r.More? && !(r.event.Called? && r.event.actor == me && r.event.call.Grant?) && NoGrants(me, p, r.prev))
  }

  lemma {:induction false} OthersMakeNoGrants(me: Actor, p: Run, r: Run)
    requires OnlyOthers(me, p, r) && me.AccessSidecar?
    ensures NoGrants(me, p, r)
  {
    if p != r { OthersMakeNoGrants(me, p, r.prev); }
  }

  lemma InitialisedWhenServed(r: Run, driver: string, key: Ref)
    requires IsRun(r) && SidecarServes(r.world, driver, key) && driver != ""
    ensures
      var a := r.world.objs[key];
      && Aligned(a.body.aspec, a.body.astatus) && UniqueClaims(a.body.aspec.claims)
      && SidecarRequirements(a.body.astatus).Present?
      && (!a.meta.deleting ==> IsProtected(a))
  {
    hide Permitted, Enabled, IsRun;
    AccessHolds(r, key);
  }

  /** Undisturbed, with the driver answering `expected`, a reconcile of the access succeeds. */
  ghost predicate Completable(w: World, key: Ref, a: Object, expected: GrantReply)
    requires a.body.Access?
  {
    && (forall i :: 0 <= i < |a.body.astatus.accessed| ==> StoredReady(w, a.body.astatus.accessed[i]))
    && AllReservable(w, key, a) && Grantable(a, expected) && AccountFits(a, expected)
  }

  /** Everything after the Bucket checks. */
  method ReserveAndGrant(c: Cluster, driver: string, key: Ref, a: Object, ghost expected: GrantReply)
    returns (acc: Object, err: Option<Error>, ghost reply: GrantReply)
    requires c.Valid() && Holds(c.run.world, driver, key, a) && Seen(c.run, key, a) && !a.meta.deleting
    requires Aligned(a.body.aspec, a.body.astatus) && UniqueClaims(a.body.aspec.claims)
    modifies c
    ensures c.Valid() && Prefix(old(c.run), c.run)
    ensures err.None? ==> GrantComplete(c.run.world, key, a.meta.uid, reply)
    ensures err.Some? ==> Recordable(c.run.world, driver, key, acc)
    ensures old(c.Calm() && c.Answers(expected)) && Completable(old(c.run).world, key, a, expected) ==>
              err.None? && reply == expected
  {
    hide Permitted, Enabled, Conforms, IsRun, Seen, Prefix, OnlyOthers, FilledBut, Recordable, GrantComplete, Serving,
         AllHeld, HeldFor, Obtained, KeepsReserved, UniqueClaims, UniqueSecrets, ConfiguredFor, AllCurrent,
         LatestReply, Grantable, AccountFits, AllReservable;
    ghost var r0 := c.run;
    ghost var good := c.Calm() && c.Answers(expected) && Completable(r0.world, key, a, expected);
    acc, reply := a, expected;
    var secrets;
    secrets, err := ReserveAccessSecrets(c, driver, key, a);
    ghost var r1 := c.run;
    ServingHolds(r0, r1, driver, key, a, {});
    SeenLater(r0, r1, key, a);
    SeenRecordable(r1, driver, key, a);
    if err.Some? { return; }
    var cfg, d;
    cfg, d, err, reply := ObtainGrant(c, driver, key, a, expected);
    ghost var r2 := c.run;
    ServingHolds(r1, r2, driver, key, a, {});
    PrefixTransitive(r0, r1, r2);
    SeenLater(r0, r2, key, a);
    SeenRecordable(r2, driver, key, a);
    if err.Some? { return; }
    AllStayHeld(r1, r2, driver, key, a, secrets);
    ObtainedKeys(a, cfg, d, reply);
    if good { StillCurrent(r1.world, r2.world, key, secrets); }
    ReadyToFill(r2, key, a, cfg, secrets, reply, good);
    err := FillSecrets(c, driver, key, a, cfg, d, secrets, good, reply);
    ghost var r3 := c.run;
    PrefixTransitive(r0, r2, r3);
    SeenLater(r0, r3, key, a);
    SeenRecordable(r3, driver, key, a);
    if err.Some? { return; }
    acc := Ready(a, d.accountId);
    err := AnnounceReady(c, driver, key, a, reply, d.accountId);
    PrefixTransitive(r0, r3, c.run);
  }

  lemma StillCurrent(w: World, w': World, key: Ref, secrets: map<string, Object>)
    requires SameBut(w, w', {}) && AllCurrent(w, key, secrets)
    ensures AllCurrent(w', key, secrets)
  {
  }

  lemma ReadyToFill(r: Run, key: Ref, a: Object, cfg: map<string, BucketConfig>, secrets: map<string, Object>,
                    reply: GrantReply, asRead: bool)
    requires a.body.Access? && Aligned(a.body.aspec, a.body.astatus) && ConfiguredFor(a.body.aspec, a.body.astatus, cfg)
    requires AllHeld(r, key, a.meta.uid, secrets) && (asRead ==> AllCurrent(r.world, key, secrets))
    requires forall i :: 0 <= i < |a.body.aspec.claims| ==> a.body.aspec.claims[i].secretName in secrets
    ensures HeldFor(r, key, a.meta.uid, cfg, secrets, cfg.Keys, asRead) && FilledBut(r.world, key, a, cfg.Keys, reply)
  {
    hide ClaimFilledBy;
    forall id | id in cfg
      ensures cfg[id].secretName in secrets
    {
      var i := LastFor(a, cfg, id);
    }
    forall i: nat | i < |a.body.aspec.claims|
      ensures Reserved(r.world, SecretOf(key, a, i), a.meta.uid)
      ensures a.body.astatus.accessed[i].bucketId in cfg.Keys
    {
      assert SecretHeld(r, key, a.meta.uid, a.body.aspec.claims[i].secretName,
                        secrets[a.body.aspec.claims[i].secretName]);
      assert a.body.astatus.accessed[i].bucketId in AccessedIds(a.body.astatus);
    }
  }

  /**
   * If a Bucket of the access was ever announced as going, the reconcile fails without asking the driver.
   * Undisturbed it succeeds from any reachable state in which it can, whatever earlier reconciles left behind.
   */
  method ReconcileGrant(c: Cluster, driver: string, key: Ref, a: Object, ghost expected: GrantReply)
    returns (acc: Object, err: Option<Error>, ghost reply: GrantReply)
    requires c.Valid() && driver != "" && Holds(c.run.world, driver, key, a) && Current(c.run.world, key, a)
    requires !a.meta.deleting
    modifies c
    ensures c.Valid() && Prefix(old(c.run), c.run)
    ensures err.None? ==> GrantComplete(c.run.world, key, a.meta.uid, reply)
    ensures err.Some? ==> Recordable(c.run.world, driver, key, acc)
    ensures forall i ::
        0 <= i < |a.body.astatus.accessed| && EverAnnotated(old(c.run), a.body.astatus.accessed[i].bucketName) ==>
              err.Some? && NoGrants(AccessSidecar(driver, key), old(c.run), c.run)
    ensures old(c.Calm() && c.Answers(expected)) && Completable(old(c.run).world, key, a, expected) ==>
              err.None? && reply == expected
  {
    hide Permitted, Enabled, Conforms, IsRun, Seen, Prefix, OnlyOthers, Recordable, GrantComplete, Aligned,
         UniqueClaims, EverAnnotated, NoGrants, StoredReady, AllReservable, Grantable, AccountFits;
    ghost var r0 := c.run;
    acc, reply := a, expected;
    InitialisedWhenServed(r0, driver, key);
    var requirements := SidecarRequirements(a.body.astatus);
    if requirements.Degraded? { assert false; }
    if requirements.Absent? { assert false; }
    if !IsProtected(a) { assert false; }
    SeenNow(r0, key);
    err := ValidateAccessedBuckets(c, AccessSidecar(driver, key), a.body.astatus.accessed);
    ghost var r1 := c.run;
    OthersPrefix(AccessSidecar(driver, key), r0, r1);
    StillHolds(r0, r1, driver, key, a);
    SeenStays(AccessSidecar(driver, key), r0, r1, key, a);
    SeenRecordable(r1, driver, key, a);
    OthersMakeNoGrants(AccessSidecar(driver, key), r0, r1);
    if err.Some? { return; }
    acc, err, reply := ReserveAndGrant(c, driver, key, a, expected);
    PrefixTransitive(r0, r1, c.run);
  }

  // The reconciler

  /** An error is recorded in the status. It is terminal exactly if it is tagged and the record was stored. */
  method RecordFailure(c: Cluster, driver: string, key: Ref, acc: Object, err: Error)
    returns (out: Outcome, ghost stored: bool)
    requires c.Valid() && Recordable(c.run.world, driver, key, acc)
    modifies c
    ensures c.Valid() && Prefix(old(c.run), c.run)
    ensures out == if stored && IsNonRetryable(err) then Terminal else Retry
    ensures stored ==> key in c.run.world.objs && c.run.world.objs[key].body.Access?
    ensures stored ==> c.run.world.objs[key].body.astatus == Failed(acc).body.astatus
  {
    hide Permitted, Enabled, Conforms, Prefix, OnlyOthers, SidecarSetsStatus, StatusApplies, StatusUpdated;
    FailedRecordable(c.run.world, driver, key, acc);
    var written := WriteStatus(c, driver, key, Failed(acc));
    if written.Err? { return Retry, false; }
    FailureStored(c.run.prev.world, key, acc);
    return if IsNonRetryable(Wrapped(err)) then Terminal else Retry, true;
  }

  lemma FailureStored(w: World, key: Ref, acc: Object)
    requires acc.body.Access? && StatusApplies(w, key, Failed(acc))
    ensures StatusUpdated(w.objs[key], Failed(acc)).Some? && StatusUpdated(w.objs[key], Failed(acc)).value.body.Access?
    ensures StatusUpdated(w.objs[key], Failed(acc)).value.body.astatus == Failed(acc).body.astatus
  {
  }

  /**
   * Whatever others do meanwhile, a reconcile only takes steps that the protocol allows. When it reports
   * success for an access it served, the access is ready, or it is cleaned up and handed back. Undisturbed it
   * makes a live access ready from any reachable state in which that is possible.
   */
  method Reconcile(c: Cluster, driver: string, key: Ref, ghost expected: GrantReply)
    returns (out: Outcome, ghost served: Option<Uid>, ghost reply: GrantReply)
    requires c.Valid() && driver != "" && key.kind == AccessKind
    modifies c
    ensures c.Valid() && Prefix(old(c.run), c.run)
    ensures out == Done && served.Some? ==>
              GrantComplete(c.run.world, key, served.value, reply) || HandedBack(c.run.world, key, served.value)
    ensures out != Retry && served.None? ==> OnlyOthers(AccessSidecar(driver, key), old(c.run), c.run)
    ensures out != Retry && served.None? ==> !SidecarServes(c.run.world, driver, key)
    ensures
      old(c.Calm() && c.Answers(expected)) && SidecarServes(old(c.run).world, driver, key) ==>
        var a := old(c.run).world.objs[key];
        !a.meta.deleting && Completable(old(c.run).world, key, a, expected) ==>
          out == Done && GrantComplete(c.run.world, key, a.meta.uid, expected)
  {
    hide Permitted, Enabled, Conforms, IsRun, Prefix, OnlyOthers, Recordable, GrantComplete, HandedBack, NoGrants,
         EverAnnotated, Completable;
    ghost var r0 := c.run;
    served, reply := None, expected;
    var me := AccessSidecar(driver, key);
    var got := c.Get(me, key);
    ghost var r1 := c.run;
    OthersPrefix(me, r0, r1);
    if got == Err(MissingError) { return Done, None, expected; }
    if got.Err? { return Retry, None, expected; }
    BasicHolds(c.run);
    var a := got.obj;
    if !ManagedBySidecar(a) { return Done, None, expected; }
    if a.body.astatus.driverName != driver { return Done, None, expected; }
    served := Some(a.meta.uid);
    var acc, err;
    if a.meta.deleting {
      acc, err := ReconcileDelete(c, driver, key, a);
    } else {
      acc, err, reply := ReconcileGrant(c, driver, key, a, expected);
    }
    PrefixTransitive(r0, r1, c.run);
    if err.None? { return Done, served, reply; }
    ghost var r2 := c.run;
    ghost var stored;
    out, stored := RecordFailure(c, driver, key, acc, Wrapped(err.value));
    PrefixTransitive(r0, r2, c.run);
  }
}
