/** Interrupted reconciles that are run again end where an uninterrupted one ends. */
module Convergence {
  import opened Objects
  import opened Rpc
  import opened Runs
  import opened Rules
  import opened Invariants
  import opened Theorems
  import opened Clusters
  import opened Rely
  import opened Readiness
  import opened SidecarReserve
  import opened SidecarGrant
  import opened ControllerClaim
  import A = SidecarAccess
  import C = ClaimReconciler

  // Accesses

  lemma {:induction false} DeletingStays(p: Run, r: Run, key: Ref)
    requires IsRun(r) && Prefix(p, r) && key in p.world.objs && Present(r.world, key, p.world.objs[key].meta.uid)
    requires p.world.objs[key].meta.deleting
    ensures r.world.objs[key].meta.deleting
  {
    hide Permitted;
    if p != r {
      UidPersisted(p, r, key);
      DeletingStays(p, r.prev, key);
    }
  }

  /** After success nothing changes any more: no later reconcile, failed or not, alters what the access was granted. */
  lemma ReadyIsFixedPoint(p: Run, r: Run, key: Ref, reply: GrantReply)
    requires IsRun(r) && Prefix(p, r) && key.kind == AccessKind && key in p.world.objs && p.world.objs[key].body.Access?
    requires p.world.objs[key].body.astatus.ready == Some(true)
    requires Present(r.world, key, p.world.objs[key].meta.uid) && !r.world.objs[key].meta.deleting
    requires OneReply(r.world.calls, p.world.objs[key].meta.uid, reply)
    ensures SameResult(p.world, r.world, key, p.world.objs[key], r.world.objs[key])
  {
    hide Permitted, Enabled, IsRun, Prefix, SameResult;
    BasicHoldsAt(p, r);
    AccessHolds(p, key);
    if p.world.objs[key].meta.deleting { DeletingStays(p, r, key); }
    ReadyForGood(p, r, key);
    InitialisedForGood(p, r, key);
    CallsOnlyGrow(p, r);
    SameOutcome(p, r, key, reply);
  }

  /** What an interrupted run left of an access allows the Sidecar to finish it. */
  ghost predicate Resumable(w: World, driver: string, key: Ref, reply: GrantReply) {
    && SidecarServes(w, driver, key) && !w.objs[key].meta.deleting
    && (forall i ::
          0 <= i < |w.objs[key].body.astatus.accessed| ==> StoredReady(w, w.objs[key].body.astatus.accessed[i]))
    && AllReservable(w, key, w.objs[key]) && Grantable(w.objs[key], reply)
    && OneReply(w.calls, w.objs[key].meta.uid, reply)
  }

  lemma ResumableCompletes(r: Run, driver: string, key: Ref, reply: GrantReply)
    requires IsRun(r) && key.kind == AccessKind && Resumable(r.world, driver, key, reply)
    ensures A.Completable(r.world, key, r.world.objs[key], reply)
  {
    hide Permitted, Enabled, IsRun, AllReservable, Grantable, StoredReady;
    AccessHolds(r, key);
  }

  /**
   * From whatever reachable state an interrupted grant left behind, a rerun against a driver that answers alike ends
   * in the same status and the same Secrets as any uninterrupted run, `other`, of the same configured access.
   */
  method RerunAccess(c: Cluster, driver: string, key: Ref, ghost other: Run, ghost reply: GrantReply)
    requires c.Valid() && c.Calm() && c.Answers(reply) && driver != "" && key.kind == AccessKind
    requires Resumable(c.run.world, driver, key, reply)
    requires IsRun(other) && key in other.world.objs && SameConfiguration(c.run.world.objs[key], other.world.objs[key])
    requires !other.world.objs[key].meta.deleting && other.world.objs[key].body.astatus.ready == Some(true)
    requires OneReply(other.world.calls, other.world.objs[key].meta.uid, reply)
    modifies c
    ensures c.Valid() && key in c.run.world.objs
    ensures SameResult(c.run.world, other.world, key, c.run.world.objs[key], other.world.objs[key])
  {
    hide Permitted, Enabled, IsRun, SameResult, OneReply, AllFilledBy, A.Completable;
    ghost var r0 := c.run;
    ResumableCompletes(r0, driver, key, reply);
    var out;
    ghost var served, got;
    out, served, got := A.Reconcile(c, driver, key, reply);
    OneReplyFills(other, key, reply);
    InitialisedForGood(r0, c.run, key);
    SameIfReadyAlike(c.run, other, key, reply);
  }

  // Claims

  /**
   * From whatever reachable state an interrupted reconcile left behind, a rerun makes a live claim record its Bucket.
   * If the Bucket is provisioned, the claim ends as in any uninterrupted run, `other`, of the same claim.
   */
  method RerunClaim(c: Cluster, key: Ref, ghost other: Run, ghost protocols: seq<Protocol>, ghost cls: BucketClassSpec)
    requires c.Valid() && c.Calm() && key.kind == ClaimKind && key in c.run.world.objs
    requires c.run.world.objs[key].body.Claim?
    requires !c.run.world.objs[key].meta.deleting && Acquirable(c.run.world, key, c.run.world.objs[key])
    modifies c
    ensures c.Valid() && Prefix(old(c.run), c.run) && C.Records(c.run.world, key, old(c.run).world.objs[key])
    ensures C.ProvisionedNow(old(c.run).world, BucketNameFor(old(c.run).world.objs[key])) ==>
              C.ClaimReady(c.run, key, old(c.run).world.objs[key].meta.uid)
    ensures IsRun(other) && Comparable(c.run, other, key, protocols, cls) ==>
              && c.run.world.objs[key].body.cstatus ==
                 other.world.objs[key].body.cstatus.(failed := c.run.world.objs[key].body.cstatus.failed)
              && SameBucket(c.run, other, BucketRef(DynamicName(c.run.world.objs[key].meta.uid)))
  {
    hide Permitted, Enabled, IsRun, Prefix, C.Records, C.ClaimReady, Comparable, Acquirable, SameBucket;
    var out;
    ghost var seen;
    out, seen := C.Reconcile(c, key);
    if IsRun(other) && Comparable(c.run, other, key, protocols, cls) {
      SameClaimOutcome(c.run, other, key, protocols, cls);
    }
  }
}
