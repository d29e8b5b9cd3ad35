/** What holds over whole runs, however the actors' events interleave. */
module Theorems {
  import opened Objects
  import opened Rpc
  import opened Handoff
  import opened Runs
  import opened Rules
  import opened Invariants
  import opened Bindings

  // An access whose account was recorded is revoked and cleaned up before it goes.

  ghost predicate Present(w: World, key: Ref, uid: Uid) {
    key in w.objs && w.objs[key].meta.uid == uid
  }

  ghost predicate Carries(w: World, key: Ref, a: Object)
    requires a.body.Access?
  {
    && Present(w, key, a.meta.uid) && w.objs[key].body.Access?
    && w.objs[key].body.aspec == a.body.aspec && w.objs[key].body.astatus.accountId == a.body.astatus.accountId
  }

  ghost predicate Gone(w: World, uid: Uid) {
    uid in w.uids && forall k :: k in w.objs ==> w.objs[k].meta.uid != uid
  }

  ghost predicate CleanedUp(w: World, key: Ref, a: Object)
    requires a.body.Access?
  {
    && Revoked(w.calls, a.meta.uid, a.body.astatus.accountId)
    && SecretsGone(w, key, a.meta.uid, a.body.aspec.claims)
  }

  /** Only an access whose Sidecar finished can disappear once it was handed off. */
  lemma VanishingAccessFinished(r: Run, actor: Actor, key: Ref)
    requires key.kind == AccessKind && key in r.world.objs && r.world.objs[key].body.Access? && AccessOk(r.world, key)
    requires r.world.objs[key].body.astatus.driverName != "" && Enabled(r, Change(actor, key, None))
    ensures CleanupFinished in r.world.objs[key].meta.annotations
  {
  }

  lemma AliveStep(r: Run, key: Ref, a: Object)
    requires IsRun(r) && r.More? && key.kind == AccessKind && a.body.Access? && a.body.astatus.accountId != ""
    requires Carries(r.prev.world, key, a)
    ensures Carries(r.world, key, a) || (Gone(r.world, a.meta.uid) && CleanedUp(r.world, key, a))
  {
    hide Permitted;
    var w, e := r.prev.world, r.event;
    if e.Change? && e.ref == key && e.now.None? {
      AccessHolds(r.prev, key);
      CleanupHolds(r.prev, key);
      BasicHolds(r.prev);
      VanishingAccessFinished(r.prev, e.actor, key);
    }
  }

  lemma GoneStep(r: Run, key: Ref, a: Object)
    requires IsRun(r) && r.More? && a.body.Access?
    requires Gone(r.prev.world, a.meta.uid) && CleanedUp(r.prev.world, key, a)
    ensures Gone(r.world, a.meta.uid) && CleanedUp(r.world, key, a)
  {
    hide Permitted;
    var w, e := r.prev.world, r.event;
    if e.Called? {
      MoreCallsGranted(w.calls, e.call, a.meta.uid, a.body.astatus.accountId);
    } else if e.ref.kind == SecretKind {
      BasicHolds(r.prev);
      SecretCauses(r.prev, e.actor, e.ref, e.now);
      SecretChangeKeepsGone(w, e, key, a.meta.uid, a.body.aspec.claims);
    }
  }

  lemma {:induction false} Fate(p: Run, r: Run, key: Ref, a: Object)
    requires IsRun(r) && Prefix(p, r) && key.kind == AccessKind && a.body.Access? && a.body.astatus.accountId != ""
    requires Carries(p.world, key, a)
    ensures Carries(r.world, key, a) || (Gone(r.world, a.meta.uid) && CleanedUp(r.world, key, a))
  {
    hide Permitted;
    if p != r {
      Fate(p, r.prev, key, a);
      if Carries(r.prev.world, key, a) { AliveStep(r, key, a); } else { GoneStep(r, key, a); }
    }
  }

  /**
   * Once an account ID was recorded for an access, the access is gone only after a successful revoke
   * of that account and the deletion of every Secret of its spec that it controlled.
   */
  lemma RecordedAccountIsRevoked(p: Run, r: Run, key: Ref)
    requires IsRun(r) && Prefix(p, r) && key.kind == AccessKind && key in p.world.objs && p.world.objs[key].body.Access?
    requires p.world.objs[key].body.astatus.accountId != ""
    requires !Present(r.world, key, p.world.objs[key].meta.uid)
    ensures CleanedUp(r.world, key, p.world.objs[key])
  {
    hide Permitted;
    Fate(p, r, key, p.world.objs[key]);
  }

  // Calls

  /** Every revoke names the buckets and the configuration that every grant for the access named. */
  lemma RevokeMatchesGrants(r: Run, m: nat, n: nat)
    requires IsRun(r) && m < |r.world.calls| && n < |r.world.calls|
    requires r.world.calls[m].Grant? && r.world.calls[n].Revoke? && r.world.calls[m].access == r.world.calls[n].access
    ensures GrantIds(r.world.calls[m].grant) == RevokeIds(r.world.calls[n].revoke)
    ensures GrantConfig(r.world.calls[m].grant) == RevokeConfig(r.world.calls[n].revoke)
  {
    hide Permitted;
    TargetsHold(r);
    assert SameTarget(r.world.calls[m], r.world.calls[n]);
  }

  ghost predicate RecordedNow(w: World, uid: Uid, accountId: string) {
    exists k: Ref ::
      k in w.objs && w.objs[k].body.Access? && w.objs[k].meta.uid == uid
        && w.objs[k].body.astatus.accountId == accountId
  }

  /** The account ID was recorded in the status of the access with this UID. */
  ghost predicate EverRecorded(r: Run, uid: Uid, accountId: string) {
    RecordedNow(r.world, uid, accountId) || (r.More? && EverRecorded(r.prev, uid, accountId))
  }

  lemma RevokeNamesRecorded(r: Run, actor: Actor, call: Call)
    requires Enabled(r, Called(actor, call)) && call.Revoke?
    ensures RecordedNow(r.world, call.access, call.revoke.accountId)
  {
    var k := actor.key;
    assert k in r.world.objs && r.world.objs[k].body.Access? && r.world.objs[k].meta.uid == call.access;
  }

  lemma {:induction false} RevokedWasRecorded(r: Run, uid: Uid, accountId: string)
    requires IsRun(r) && Revoked(r.world.calls, uid, accountId)
    ensures EverRecorded(r, uid, accountId)
  {
    hide Permitted, Enabled, RecordedNow;
    var w := r.prev.world;
    if !Revoked(w.calls, uid, accountId) {
      var n :| 0 <= n < |r.world.calls| && r.world.calls[n].Revoke? && r.world.calls[n].access == uid &&
               r.world.calls[n].ok && r.world.calls[n].revoke.accountId == accountId;
      assert n == |w.calls|;
      RevokeNamesRecorded(r.prev, r.event.actor, r.event.call);
      assert EverRecorded(r.prev, uid, accountId);
    } else {
      RevokedWasRecorded(r.prev, uid, accountId);
    }
  }

  lemma {:induction false} WhenRecorded(r: Run, uid: Uid, accountId: string) returns (p: Run, key: Ref)
    requires IsRun(r) && EverRecorded(r, uid, accountId)
    ensures Prefix(p, r) && key in p.world.objs && p.world.objs[key].body.Access? && p.world.objs[key].meta.uid == uid
    ensures p.world.objs[key].body.astatus.accountId == accountId && key.kind == AccessKind
  {
    hide Permitted, Enabled;
    if RecordedNow(r.world, uid, accountId) {
      BasicHolds(r);
      p := r;
      key :| key in r.world.objs && r.world.objs[key].body.Access? && r.world.objs[key].meta.uid == uid &&
             r.world.objs[key].body.astatus.accountId == accountId;
    } else {
      p, key := WhenRecorded(r.prev, uid, accountId);
    }
  }

  /**
   * Of an access that is gone, exactly the recorded accounts were revoked. An account that a grant created
   * but that never reached the status is therefore left behind.
   */
  lemma RevokedIffRecorded(r: Run, uid: Uid, accountId: string)
    requires IsRun(r) && accountId != "" && forall k :: k in r.world.objs ==> r.world.objs[k].meta.uid != uid
    ensures Revoked(r.world.calls, uid, accountId) <==> EverRecorded(r, uid, accountId)
  {
    hide Permitted, Enabled, IsRun;
    if Revoked(r.world.calls, uid, accountId) { RevokedWasRecorded(r, uid, accountId); }
    if EverRecorded(r, uid, accountId) {
      var p, key := WhenRecorded(r, uid, accountId);
      RecordedAccountIsRevoked(p, r, key);
    }
  }

  lemma GrantNamesAccount(r: Run, actor: Actor, call: Call)
    requires Enabled(r, Called(actor, call)) && call.Grant?
    ensures call.grant.accountName == AccountName(call.access)
  {
  }

  /** Every grant for an access, in whatever reconcile, asks for the same account name. */
  lemma {:induction false} OneAccountName(r: Run, n: nat)
    requires IsRun(r) && n < |r.world.calls| && r.world.calls[n].Grant?
    ensures r.world.calls[n].grant.accountName == AccountName(r.world.calls[n].access)
  {
    hide Permitted, Enabled;
    if n < |r.prev.world.calls| {
      OneAccountName(r.prev, n);
    } else {
      GrantNamesAccount(r.prev, r.event.actor, r.event.call);
    }
  }

  // Configuration and management

  /** Initialisation happens once: its fields never change for as long as the object lives. */
  lemma {:induction false} InitialisedForGood(p: Run, r: Run, key: Ref)
    requires IsRun(r) && Prefix(p, r) && key.kind == AccessKind && key in p.world.objs && p.world.objs[key].body.Access?
    requires p.world.objs[key].body.astatus.driverName != "" && Present(r.world, key, p.world.objs[key].meta.uid)
    ensures SameConfiguration(p.world.objs[key], r.world.objs[key])
    ensures !SidecarRequirements(r.world.objs[key].body.astatus).Degraded?
  {
    hide Permitted;
    AccessHolds(r, key);
    if p != r {
      UidPersisted(p, r, key);
      InitialisedForGood(p, r.prev, key);
      ConfigurationFixed(r.prev, r.event, key);
    }
  }

  /** An object that is there at both ends of a stretch of a run is there throughout. */
  lemma {:induction false} UidPersisted(p: Run, r: Run, key: Ref)
    requires IsRun(r) && p != r && Prefix(p, r) && key in p.world.objs
    requires Present(r.world, key, p.world.objs[key].meta.uid)
    ensures Present(r.prev.world, key, p.world.objs[key].meta.uid)
  {
    hide Permitted;
    UidsGrow(p, r.prev);
    BasicHoldsAt(p, r.prev);
  }

  lemma {:induction false} UidsGrow(p: Run, r: Run)
    requires IsRun(r) && Prefix(p, r)
    ensures p.world.uids <= r.world.uids
  {
    hide Permitted;
    if p != r { UidsGrow(p, r.prev); }
  }

  lemma {:induction false} BasicHoldsAt(p: Run, r: Run)
    requires IsRun(r) && Prefix(p, r)
    ensures IsRun(p) && Basic(p.world)
  {
    hide Permitted;
    if p == r { BasicHolds(r); } else { BasicHoldsAt(p, r.prev); }
  }

  /** 0: the Controller initialises; 1: the Sidecar serves; 2: the Controller finishes deletion. */
  function Phase(a: Object): nat
    requires a.body.Access?
  {
    if a.body.astatus.driverName == "" then 0
    else if CleanupFinished in a.meta.annotations then 2
    else 1
  }

  lemma PhaseDecidesManager(r: Run, key: Ref)
    requires IsRun(r) && key.kind == AccessKind && key in r.world.objs && r.world.objs[key].body.Access?
    ensures ManagedBySidecar(r.world.objs[key]) <==> Phase(r.world.objs[key]) == 1
  {
    hide Permitted;
    AccessHolds(r, key);
  }

  lemma CleanupAnnotationStays(r: Run, actor: Actor, key: Ref, n: Object)
    requires key.kind == AccessKind && key in r.world.objs && r.world.objs[key].body.Access?
    requires Enabled(r, Change(actor, key, Some(n))) && CleanupFinished in r.world.objs[key].meta.annotations
    ensures CleanupFinished in n.meta.annotations
  {
    if actor == User {
      assert CleanupFinished in n.meta.annotations * COSI_ANNOTATIONS <==> CleanupFinished in n.meta.annotations;
      assert CleanupFinished in r.world.objs[key].meta.annotations * COSI_ANNOTATIONS;
    }
  }

  /** Managers alternate at most twice: Controller, then Sidecar, then Controller. */
  lemma {:induction false} PhasesAdvance(p: Run, r: Run, key: Ref)
    requires IsRun(r) && Prefix(p, r) && key.kind == AccessKind && key in p.world.objs && p.world.objs[key].body.Access?
    requires Present(r.world, key, p.world.objs[key].meta.uid)
    ensures r.world.objs[key].body.Access? && Phase(p.world.objs[key]) <= Phase(r.world.objs[key])
  {
    hide Permitted;
    if p != r {
      UidPersisted(p, r, key);
      PhasesAdvance(p, r.prev, key);
      var e := r.event;
      if e.Change? && e.ref == key {
        if CleanupFinished in r.prev.world.objs[key].meta.annotations {
          CleanupAnnotationStays(r.prev, e.actor, key, e.now.value);
        }
      }
    }
  }

  /** In any state at most one component may write an access: the Controller or one driver's Sidecar. */
  lemma OneWriter(r: Run, key: Ref, x: Actor, y: Actor, nx: Option<Object>, ny: Option<Object>)
    requires Enabled(r, Change(x, key, nx)) && Enabled(r, Change(y, key, ny)) && key.kind == AccessKind
    requires x != User && y != User
    ensures x == y
  {
    WriterServes(r, key, x, nx);
    WriterServes(r, key, y, ny);
  }

  lemma WriterServes(r: Run, key: Ref, x: Actor, nx: Option<Object>)
    requires Enabled(r, Change(x, key, nx)) && key.kind == AccessKind && x != User
    ensures key in r.world.objs && r.world.objs[key].body.Access?
    ensures x == if ManagedBySidecar(r.world.objs[key])
                 then AccessSidecar(r.world.objs[key].body.astatus.driverName, key) else AccessController(key)
  {
  }

  // Readiness

  function ReadyOf(o: Object): Option<bool> {
    match o.body
    case Access(_, s) => s.ready
    case Claim(_, s) => s.ready
    case Bucket(_, s) => s.ready
    case _ => None
  }

  lemma ReadyKept(r: Run, actor: Actor, key: Ref, n: Object)
    requires Enabled(r, Change(actor, key, Some(n))) && key in r.world.objs && !n.meta.deleting
    requires ReadyOf(r.world.objs[key]) == Some(true)
    ensures ReadyOf(n) == Some(true)
  {
  }

  /** Readiness of an access, a claim or a Bucket that is not being deleted is never taken back. */
  lemma {:induction false} ReadyForGood(p: Run, r: Run, key: Ref)
    requires IsRun(r) && Prefix(p, r) && key in p.world.objs && Present(r.world, key, p.world.objs[key].meta.uid)
    requires ReadyOf(p.world.objs[key]) == Some(true) && !r.world.objs[key].meta.deleting
    ensures ReadyOf(r.world.objs[key]) == Some(true)
  {
    hide Permitted;
    if p != r {
      UidPersisted(p, r, key);
      ReadyForGood(p, r.prev, key);
      if r.event.Change? && r.event.ref == key { ReadyKept(r.prev, r.event.actor, key, r.event.now.value); }
    }
  }

  // Secrets

  /**
   * A Sidecar leaves a stored Secret that the reconciled access does not control as it is, except that
   * during deletion a Delete request may hit one.
   */
  lemma ForeignSecretsUntouched(r: Run, driver: string, key: Ref, secret: Ref, now: Option<Object>)
    requires Enabled(r, Change(AccessSidecar(driver, key), secret, now)) && secret.kind == SecretKind
    requires secret in r.world.objs
    requires !OwnedBy(r.world, secret, r.world.objs[key].meta.uid)
    ensures r.world.objs[key].meta.deleting
    ensures now == Settled(r.world.objs[secret].(meta := r.world.objs[secret].meta.(deleting := true)))
  {
  }

  // Claims

  /** Every report of the Bucket named the same protocols, as an idempotent driver makes it. */
  ghost predicate OneReport(r: Run, bucket: string, protocols: seq<Protocol>) {
    forall list :: EverReported(r, bucket, list) && list != [] ==> list == protocols
  }

  /** What ready claims say they are ready with, some Bucket report said before. */
  ghost predicate ReportedOk(r: Run, key: Ref) {
    key in r.world.objs && r.world.objs[key].body.Claim? && r.world.objs[key].body.cstatus.ready == Some(true) ==>
      EverReported(r, r.world.objs[key].body.cstatus.bound, r.world.objs[key].body.cstatus.protocols)
  }

  lemma ReportedStep(r: Run, actor: Actor, key: Ref, n: Object)
    requires key.kind == ClaimKind && Enabled(r, Change(actor, key, Some(n))) && ReportedOk(r, key) && ClaimOk(r, key)
    requires n.body.Claim? && n.body.cstatus.ready == Some(true)
    ensures EverReported(r, n.body.cstatus.bound, n.body.cstatus.protocols)
  {
    if actor.ClaimController? { assert actor.key == key; }
  }

  lemma {:induction false} ReportedHolds(r: Run, key: Ref)
    requires IsRun(r) && key.kind == ClaimKind
    ensures ReportedOk(r, key)
  {
    hide Permitted, Enabled;
    if r.More? {
      ReportedHolds(r.prev, key);
      ClaimsHold(r.prev, key);
      var e := r.event;
      if e.Change? && e.ref == key && e.now.Some? && e.now.value.body.Claim?
          && e.now.value.body.cstatus.ready == Some(true) {
        ReportedStep(r.prev, e.actor, key, e.now.value);
      }
    }
  }

  /** The class that the claim names never had another content. */
  ghost predicate OneClass(r: Run, className: string, cls: BucketClassSpec) {
    forall other :: EverBucketClass(r, className, other) ==> other == cls
  }

  lemma DynamicBucketSpec(r: Run, key: Ref, cls: BucketClassSpec)
    requires IsRun(r) && key.kind == ClaimKind && key in r.world.objs && r.world.objs[key].body.Claim?
    requires BucketRef(DynamicName(r.world.objs[key].meta.uid)) in r.world.objs
    requires OneClass(r, r.world.objs[key].body.cspec.className, cls)
    ensures
      var c := r.world.objs[key];
      var b := r.world.objs[BucketRef(DynamicName(c.meta.uid))];
      && b.body.Bucket?
      && b.body.bspec ==
        BucketSpec(cls.driverName, b.body.bspec.policy, cls.params, c.body.cspec.protocols, FullRef(key, c), "")
      && (b.body.bspec.policy == cls.policy || EverEdited(r, DynamicName(c.meta.uid)))
  {
    hide Permitted, Enabled, IsRun, EverBucketClass;
    BasicHolds(r);
    MadeHolds(r, key);
    var c := r.world.objs[key];
    var b := r.world.objs[BucketRef(DynamicName(c.meta.uid))];
    var made :| MadeFromClass(r, key, c, b, made);
  }

  /** A claim as it is found in two runs, ready in both, with the same content of its class and the same reports. */
  ghost predicate Comparable(r: Run, r': Run, key: Ref, protocols: seq<Protocol>, cls: BucketClassSpec) {
    && key in r.world.objs && key in r'.world.objs && r.world.objs[key].body.Claim? && r'.world.objs[key].body.Claim?
    && r.world.objs[key].meta.uid == r'.world.objs[key].meta.uid
    && r.world.objs[key].body.cspec == r'.world.objs[key].body.cspec
    && r.world.objs[key].body.cstatus.ready == Some(true) == r'.world.objs[key].body.cstatus.ready
    && OneReport(r, BucketNameFor(r.world.objs[key]), protocols)
    && OneReport(r', BucketNameFor(r.world.objs[key]), protocols)
    && OneClass(r, r.world.objs[key].body.cspec.className, cls)
    && OneClass(r', r.world.objs[key].body.cspec.className, cls)
  }

  /** The Bucket is the same in both runs, but for a deletion policy that a user edited. */
  ghost predicate SameBucket(r: Run, r': Run, ref: Ref) {
    ref in r.world.objs && ref in r'.world.objs ==>
      && r.world.objs[ref].body.Bucket? && r'.world.objs[ref].body.Bucket?
      && var b, b' := r.world.objs[ref].body.bspec, r'.world.objs[ref].body.bspec;
         b == b'.(policy := b.policy) && (b == b' || EverEdited(r, ref.name) || EverEdited(r', ref.name))
  }

  /**
   * Crashes and repeated reconciles do not matter for claims either: two runs in which the same claim became ready
   * end in the same claim status, but for a recorded error, and with the same Bucket spec, but for a deletion policy
   * that a user edited.
   */
  lemma SameClaimOutcome(r: Run, r': Run, key: Ref, protocols: seq<Protocol>, cls: BucketClassSpec)
    requires IsRun(r) && IsRun(r') && key.kind == ClaimKind && Comparable(r, r', key, protocols, cls)
    ensures r.world.objs[key].body.cstatus ==
        r'.world.objs[key].body.cstatus.(failed := r.world.objs[key].body.cstatus.failed)
    ensures SameBucket(r, r', BucketRef(DynamicName(r.world.objs[key].meta.uid)))
  {
    hide Permitted, Enabled, IsRun, OneClass, EverEdited;
    ReportedHolds(r, key);
    ReportedHolds(r', key);
    ClaimsHold(r, key);
    ClaimsHold(r', key);
    var ref := BucketRef(DynamicName(r.world.objs[key].meta.uid));
    if ref in r.world.objs && ref in r'.world.objs {
      DynamicBucketSpec(r, key, cls);
      DynamicBucketSpec(r', key, cls);
    }
  }
}
