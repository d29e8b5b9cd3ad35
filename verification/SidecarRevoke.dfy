/** The Sidecar's deletion path for a BucketAccess. */
module SidecarRevoke {
  import opened Objects
  import opened Rpc
  import opened Errors
  import opened Handoff
  import opened Runs
  import opened Rules
  import opened Invariants
  import opened Clusters
  import opened Rely
  import opened SidecarStatus
  import opened Drivers

  /** Removing the finalizer from a Secret that the access controls is allowed during deletion. */
  lemma MayRelease(r: Run, driver: string, key: Ref, a: Object, secret: Ref, s: Object)
    requires Holds(r.world, driver, key, a) && a.meta.deleting && Basic(r.world)
    requires secret.kind == SecretKind && secret.ns == key.ns && NamesSecret(a.body.aspec.claims, secret.name)
    requires OwnedBy(r.world, secret, a.meta.uid) && r.world.objs[secret] == s
    requires Conforms(r.world, secret, Settled(WithoutFinalizer(s)))
    ensures Updated(s, WithoutFinalizer(s)) == Settled(WithoutFinalizer(s))
    ensures Enabled(r, Change(AccessSidecar(driver, key), secret, Settled(WithoutFinalizer(s))))
  {
    assert s.body.data + map[] == s.body.data;
  }

  lemma MayDelete(r: Run, driver: string, key: Ref, a: Object, secret: Ref)
    requires Holds(r.world, driver, key, a) && a.meta.deleting && Basic(r.world) && secret in r.world.objs
    requires secret.kind == SecretKind && secret.ns == key.ns && NamesSecret(a.body.aspec.claims, secret.name)
    ensures Enabled(r, Change(AccessSidecar(driver, key), secret, DeleteRequested(r.world.objs[secret])))
  {
  }

  /** From `p` to `r` the Sidecar kept serving the access and no Secret was taken over for it. */
  ghost predicate Cleaning(p: Run, r: Run, driver: string, key: Ref, a: Object) {
    Prefix(p, r) && Holds(r.world, driver, key, a) && OnlyShrinks(p.world, r.world, a.meta.uid)
  }

  lemma CleaningOn(p: Run, q: Run, r: Run, driver: string, key: Ref, a: Object)
    requires Cleaning(p, q, driver, key, a) && Cleaning(q, r, driver, key, a)
    ensures Cleaning(p, r, driver, key, a)
  {
    PrefixTransitive(p, q, r);
  }

  lemma OthersKeepCleaning(p: Run, r: Run, driver: string, key: Ref, a: Object)
    requires IsRun(r) && OnlyOthers(AccessSidecar(driver, key), p, r) && Holds(p.world, driver, key, a)
    ensures Cleaning(p, r, driver, key, a)
  {
    OthersPrefix(AccessSidecar(driver, key), p, r);
    StillHolds(p, r, driver, key, a);
    OthersOnlyShrink(p, r, driver, key, a);
  }

  /** Requested deletion of a named Secret, or its absence, or somebody else's Secret. */
  ghost predicate SecretGone(w: World, key: Ref, uid: Uid, name: string) {
    OwnedBy(w, SecretRefOf(key, name), uid) ==> w.objs[SecretRefOf(key, name)].meta.deleting
  }

  /** The Sidecar's own change to a Secret that it does not take over keeps the rest as it was. */
  lemma OwnSecretStep(p: Run, r: Run, driver: string, key: Ref, a: Object, secret: Ref, now: Option<Object>)
    requires Cleaning(p, r, driver, key, a) && secret.kind == SecretKind && secret in r.world.objs
    requires r.world.objs[secret].body.Secret?
    requires now.Some? ==> now.value.body == r.world.objs[secret].body
    requires now.Some? && r.world.objs[secret].meta.deleting ==> now.value.meta.deleting
    ensures Cleaning(p, Extend(r, Change(AccessSidecar(driver, key), secret, now)), driver, key, a)
  {
  }

  // Delete carries no precondition, so it may hit a Secret that replaced the one that was read.

  /** The Secret stored now is one of the access exactly when it is the object that was read. */
  ghost predicate OwnedIffSame(w: World, secret: Ref, uid: Uid, s: Object) {
    secret in w.objs ==> (OwnedBy(w, secret, uid) <==> w.objs[secret].meta.uid == s.meta.uid)
  }

  ghost predicate Traced(w: World, secret: Ref, uid: Uid, s: Object) {
    s.meta.uid in w.uids && OwnedIffSame(w, secret, uid, s)
  }

  lemma TracedStep(r: Run, e: Event, driver: string, key: Ref, a: Object, secret: Ref, s: Object)
    requires Enabled(r, e) && MayInterleave(AccessSidecar(driver, key), e.actor) && secret.kind == SecretKind
    requires Holds(r.world, driver, key, a) && Basic(r.world) && Traced(r.world, secret, a.meta.uid, s)
    ensures Traced(After(r.world, e), secret, a.meta.uid, s)
  {
    hide Permitted, Enabled, FreshFor, UserCreatesBucket;
    if e.Change? && e.ref == secret {
      SecretWriters(r, e.actor, secret, e.now);
      if e.actor.AccessSidecar? { assert r.world.objs[e.actor.key].meta.uid != a.meta.uid; }
    }
  }

  lemma {:induction false} StaysTraced(p: Run, r: Run, driver: string, key: Ref, a: Object, secret: Ref, s: Object)
    requires IsRun(r) && OnlyOthers(AccessSidecar(driver, key), p, r) && Holds(p.world, driver, key, a)
    requires secret.kind == SecretKind && Traced(p.world, secret, a.meta.uid, s)
    ensures Traced(r.world, secret, a.meta.uid, s)
  {
    hide Permitted, Enabled, Traced;
    if p != r {
      StaysTraced(p, r.prev, driver, key, a, secret, s);
      StillHolds(p, r.prev, driver, key, a);
      BasicHolds(r.prev);
      TracedStep(r.prev, r.event, driver, key, a, secret, s);
    }
  }

  /** The Secret was just read as one of the access. */
  lemma TracedWhenRead(r: Run, secret: Ref, uid: Uid)
    requires IsRun(r) && OwnedBy(r.world, secret, uid)
    ensures Traced(r.world, secret, uid, r.world.objs[secret])
  {
    hide Permitted, Enabled, IsRun;
    BasicHolds(r);
  }

  lemma SafeRelease(p: Run, r: Run, driver: string, key: Ref, a: Object, name: string, s: Object)
    requires IsRun(r) && Cleaning(p, r, driver, key, a) && a.meta.deleting && NamesSecret(a.body.aspec.claims, name)
    requires Seen(r, SecretRefOf(key, name), s) && s.body.Secret? && s.body.owner == Some(a.meta.uid)
    requires UpdateApplies(r.world, SecretRefOf(key, name), WithoutFinalizer(s))
    ensures
      var ref := SecretRefOf(key, name);
      var e := Change(AccessSidecar(driver, key), ref, Updated(r.world.objs[ref], WithoutFinalizer(s)));
      && Enabled(r, e) && Cleaning(p, Extend(r, e), driver, key, a)
      && Traced(After(r.world, e), ref, a.meta.uid, s)
  {
    hide Permitted, Enabled, Prefix, Seen, IsRun, Holds, OnlyShrinks;
    var ref := SecretRefOf(key, name);
    SeenIsCurrent(r, ref, s);
    BasicHolds(r);
    assert s.body.data + map[] == s.body.data;
    assert Updated(s, WithoutFinalizer(s)) == Settled(WithoutFinalizer(s));
    MayRelease(r, driver, key, a, ref, s);
    OwnSecretStep(p, r, driver, key, a, ref, Settled(WithoutFinalizer(s)));
  }

  method ReleaseSecret(c: Cluster, driver: string, key: Ref, a: Object, name: string, s: Object)
    returns (err: Option<Error>)
    requires c.Valid() && Holds(c.run.world, driver, key, a) && a.meta.deleting
    requires NamesSecret(a.body.aspec.claims, name)
    requires Seen(c.run, SecretRefOf(key, name), s) && s.body.Secret? && s.body.owner == Some(a.meta.uid)
    requires Traced(c.run.world, SecretRefOf(key, name), a.meta.uid, s)
    modifies c
    ensures c.Valid() && Cleaning(old(c.run), c.run, driver, key, a)
    ensures Traced(c.run.world, SecretRefOf(key, name), a.meta.uid, s)
  {
    hide Permitted, Enabled, Conforms, UpdateApplies, Updated, Prefix, Seen, IsRun, OnlyOthers, Holds, OnlyShrinks,
         Traced;
    var me, ref := AccessSidecar(driver, key), SecretRefOf(key, name);
    ghost var r0 := c.run;
    c.Yield(me);
    OthersKeepCleaning(r0, c.run, driver, key, a);
    StaysTraced(r0, c.run, driver, key, a, ref, s);
    SeenStays(me, r0, c.run, ref, s);
    if UpdateApplies(c.run.world, ref, WithoutFinalizer(s)) {
      SafeRelease(r0, c.run, driver, key, a, name, s);
    }
    var updated := c.Update(me, ref, WithoutFinalizer(s));
    err := if updated.Err? then Some(Wrapped(Plain)) else None;
  }

  /** `before` is the run at the moment of the request. */
  method DeleteSecret(c: Cluster, driver: string, key: Ref, a: Object, name: string, ghost s: Object)
    returns (err: Option<Error>, ghost before: Run)
    requires c.Valid() && Holds(c.run.world, driver, key, a) && a.meta.deleting
    requires NamesSecret(a.body.aspec.claims, name)
    requires Traced(c.run.world, SecretRefOf(key, name), a.meta.uid, s)
    modifies c
    ensures c.Valid() && Cleaning(old(c.run), c.run, driver, key, a)
    ensures err.None? ==> SecretGone(c.run.world, key, a.meta.uid, name)
    ensures Prefix(old(c.run), before) && Traced(before.world, SecretRefOf(key, name), a.meta.uid, s)
    ensures c.run == before || Deletes(before, c.run, driver, key, SecretRefOf(key, name))
  {
    hide Permitted, Enabled, Conforms, Prefix, Seen, IsRun, OnlyOthers, Holds, OnlyShrinks, Traced;
    var me, ref := AccessSidecar(driver, key), SecretRefOf(key, name);
    ghost var r0 := c.run;
    c.Yield(me);
    OthersKeepCleaning(r0, c.run, driver, key, a);
    StaysTraced(r0, c.run, driver, key, a, ref, s);
    BasicHolds(c.run);
    before := c.run;
    if ref in c.run.world.objs { MayDelete(c.run, driver, key, a, ref); }
    var deleted := c.Delete(me, ref);
    if c.run != before {
      OwnSecretStep(r0, before, driver, key, a, ref, DeleteRequested(before.world.objs[ref]));
    }
    err := if deleted.Err? then Some(Plain) else None;
  }

  /** The run after a delete request that met the Secret stored before. */
  ghost predicate Deletes(before: Run, after: Run, driver: string, key: Ref, secret: Ref) {
    && secret in before.world.objs
    && after == Extend(before, Change(AccessSidecar(driver, key), secret, DeleteRequested(before.world.objs[secret])))
  }

  /**
   * If a delete request was made, for the Secret that was read as `read`, then it was met by the access's own Secret
   * if and only if the Secret stored at that moment (in `before`) had the UID that was read.
   */
  method DeleteOneSecret(c: Cluster, driver: string, key: Ref, a: Object, name: string)
    returns (err: Option<Error>, ghost read: Option<Object>, ghost before: Run)
    requires c.Valid() && Holds(c.run.world, driver, key, a) && a.meta.deleting
    requires NamesSecret(a.body.aspec.claims, name)
    modifies c
    ensures c.Valid() && Cleaning(old(c.run), c.run, driver, key, a)
    ensures err.None? ==> SecretGone(c.run.world, key, a.meta.uid, name)
    ensures read.Some? ==> read.value.body.Secret? && read.value.body.owner == Some(a.meta.uid)
    ensures read.Some? ==> Seen(before, SecretRefOf(key, name), read.value) && Prefix(old(c.run), before)
    ensures read.Some? ==> OwnedIffSame(before.world, SecretRefOf(key, name), a.meta.uid, read.value)
    ensures read.Some? ==> c.run == before || Deletes(before, c.run, driver, key, SecretRefOf(key, name))
  {
    hide Permitted, Enabled, IsRun, OnlyOthers, Prefix, Seen, Holds, OnlyShrinks, Deletes;
    ghost var r0 := c.run;
    read, before := None, r0;
    var ref := SecretRefOf(key, name);
    var got := c.Get(AccessSidecar(driver, key), ref);
    OthersKeepCleaning(r0, c.run, driver, key, a);
    if got == Err(MissingError) { return None, None, r0; }
    if got.Err? { return Some(Plain), None, r0; }
    if !(got.obj.body.Secret? && got.obj.body.owner == Some(a.meta.uid)) { return None, None, r0; }
    ghost var r1 := c.run;
    SeenNow(r1, ref);
    TracedWhenRead(r1, ref, a.meta.uid);
    err := ReleaseSecret(c, driver, key, a, name, got.obj);
    CleaningOn(r0, r1, c.run, driver, key, a);
    if err.Some? { return; }
    ghost var r2 := c.run;
    err, before := DeleteSecret(c, driver, key, a, name, got.obj);
    read := Some(got.obj);
    CleaningOn(r0, r2, c.run, driver, key, a);
    PrefixTransitive(r1, r2, before);
    PrefixTransitive(r0, r2, before);
    SeenLater(r1, before, ref, got.obj);
  }

  method DeleteOwnedAccessSecrets(c: Cluster, driver: string, key: Ref, a: Object) returns (err: Option<Error>)
    requires c.Valid() && Holds(c.run.world, driver, key, a) && a.meta.deleting
    modifies c
    ensures c.Valid() && Cleaning(old(c.run), c.run, driver, key, a)
    ensures err.None? ==> SecretsGone(c.run.world, key, a.meta.uid, a.body.aspec.claims)
  {
    hide Permitted;
    var claims, errs := a.body.aspec.claims, [];
    for i := 0 to |claims|
      invariant c.Valid() && Cleaning(old(c.run), c.run, driver, key, a)
      invariant errs == [] ==> forall j :: 0 <= j < i ==> SecretGone(c.run.world, key, a.meta.uid, claims[j].secretName)
    {
      ghost var r1 := c.run;
      var failure;
      ghost var read, before;
      failure, read, before := DeleteOneSecret(c, driver, key, a, claims[i].secretName);
      CleaningOn(old(c.run), r1, c.run, driver, key, a);
      if failure.Some? { errs := errs + [failure.value]; }
    }
    err := if |errs| > 0 then Some(Wrapped(Joined(errs))) else None;
  }

  // Revocation

  /** The entry without an ID is refused; on accesses that the Controller initialised there is none. */
  method NewRevokeRequest(spec: AccessSpec, s: AccessStatus) returns (req: Option<RevokeRequest>)
    ensures req.Some? <==> SharedConfigOf(spec, s).Some? && s.accountId != "" && "" !in AccessedIds(s)
    ensures req.Some? ==> RevokeMatches(spec, s, req.value)
    ensures req.Some? ==> |req.value.buckets| == |s.accessed|
  {
    var shared := SharedConfigOf(spec, s);
    if shared.None? || s.accountId == "" { return None; }
    var buckets: seq<string> := [];
    for i := 0 to |s.accessed|
      invariant |buckets| == i && forall j :: 0 <= j < i ==> buckets[j] == s.accessed[j].bucketId != ""
    {
      if s.accessed[i].bucketId == "" {
        assert "" in AccessedIds(s);
        return None;
      }
      buckets := buckets + [s.accessed[i].bucketId];
    }
    var cfg := shared.value;
    req := Some(RevokeRequest(s.accountId, cfg.protocol, cfg.auth, cfg.serviceAccount, cfg.params, buckets));
  }

  lemma MayRevoke(r: Run, driver: string, key: Ref, a: Object, req: RevokeRequest, ok: bool)
    requires IsRun(r) && Holds(r.world, driver, key, a) && a.meta.deleting && a.body.astatus.accountId != ""
    requires RevokeMatches(a.body.aspec, a.body.astatus, req)
    ensures Enabled(r, Called(AccessSidecar(driver, key), Call.Revoke(a.meta.uid, req, ok)))
  {
  }

  lemma CallKeepsCleaning(p: Run, r: Run, driver: string, key: Ref, a: Object, call: Call)
    requires Cleaning(p, r, driver, key, a)
    ensures Cleaning(p, Extend(r, Called(AccessSidecar(driver, key), call)), driver, key, a)
  {
  }

  lemma RevokeIsLogged(calls: seq<Call>, uid: Uid, req: RevokeRequest)
    ensures Revoked(calls + [Call.Revoke(uid, req, true)], uid, req.accountId)
  {
    assert (calls + [Call.Revoke(uid, req, true)])[|calls|] == Call.Revoke(uid, req, true);
  }

  lemma InitialisedHasIds(r: Run, key: Ref)
    requires IsRun(r) && key in r.world.objs && r.world.objs[key].body.Access?
    requires r.world.objs[key].body.astatus.driverName != ""
    ensures "" !in AccessedIds(r.world.objs[key].body.astatus)
  {
    hide Permitted, Enabled;
    AccessHolds(r, key);
  }

  /** Unless the access names an unknown protocol or authentication type, the driver is called. */
  method DriverRevokeAccess(c: Cluster, driver: string, key: Ref, a: Object) returns (err: Option<Error>)
    requires c.Valid() && Holds(c.run.world, driver, key, a) && a.meta.deleting && a.body.astatus.accountId != ""
    modifies c
    ensures c.Valid() && Cleaning(old(c.run), c.run, driver, key, a)
    ensures err.None? ==> Revoked(c.run.world.calls, a.meta.uid, a.body.astatus.accountId)
    ensures SharedConfigOf(a.body.aspec, a.body.astatus).Some? ==>
              c.run.More? && c.run.event.Called? && c.run.event.call.Revoke? && (c.run.event.call.ok <==> err.None?)
  {
    hide Permitted, Enabled, Conforms, Prefix, Seen, IsRun, OnlyOthers, OnlyShrinks, RevokeMatches, SharedConfigOf,
         Revoked;
    var me := AccessSidecar(driver, key);
    ghost var r0 := c.run;
    c.Yield(me);
    OthersKeepCleaning(r0, c.run, driver, key, a);
    InitialisedHasIds(c.run, key);
    var req := NewRevokeRequest(a.body.aspec, a.body.astatus);
    if req.None? { return Some(Wrapped(NonRetryable(Plain))); }
    forall ok ensures Enabled(c.run, Called(me, Call.Revoke(a.meta.uid, req.value, ok))) {
      MayRevoke(c.run, driver, key, a, req.value, ok);
    }
    ghost var r1 := c.run;
    var answer := c.Revoke(me, a.meta.uid, req.value);
    CallKeepsCleaning(r0, r1, driver, key, a, Call.Revoke(a.meta.uid, req.value, answer.RevokeDone?));
    RevokeIsLogged(r1.world.calls, a.meta.uid, req.value);
    RevokeNames(a.body.aspec, a.body.astatus, req.value);
    err := if answer.RevokeFailed? then Some(RpcError(answer.code)) else None;
  }

  lemma RevokeNames(spec: AccessSpec, s: AccessStatus, req: RevokeRequest)
    requires RevokeMatches(spec, s, req)
    ensures req.accountId == s.accountId
  {
  }

  // The whole deletion path

  function NotReady(a: Object): Object
    requires a.body.Access?
  {
    WithAccessStatus(a, a.body.astatus.(ready := Some(false), failed := false))
  }

  lemma AfterNotReady(p: Run, r: Run, driver: string, key: Ref, a: Object)
    requires IsRun(r) && r.More? && OnlyOthers(AccessSidecar(driver, key), p, r.prev)
    requires Holds(p.world, driver, key, a) && a.meta.deleting && StatusApplies(r.prev.world, key, NotReady(a))
    requires r.event == Change(AccessSidecar(driver, key), key, StatusUpdated(r.prev.world.objs[key], NotReady(a)))
    ensures key in r.world.objs && Holds(r.world, driver, key, r.world.objs[key])
    ensures r.world.objs[key].meta.uid == a.meta.uid && r.world.objs[key].meta.deleting
    ensures r.world.objs[key].body.aspec == a.body.aspec && r.world.objs[key].body.astatus == NotReady(a).body.astatus
    ensures Seen(r, key, r.world.objs[key])
  {
    hide Permitted, Enabled;
    StillHolds(p, r.prev, driver, key, a);
  }

  /** Status first: a deleting access is not ready. */
  method StartDeletion(c: Cluster, driver: string, key: Ref, a: Object) returns (r: Reply)
    requires c.Valid() && Holds(c.run.world, driver, key, a) && a.meta.deleting && c.run.world.objs[key] == a
    modifies c
    ensures c.Valid() && Prefix(old(c.run), c.run)
    ensures r.Err? ==> Recordable(c.run.world, driver, key, NotReady(a))
    ensures r.Ok? ==> Holds(c.run.world, driver, key, r.obj) && c.run.world.objs[key] == r.obj && r.obj.meta.deleting
    ensures r.Ok? ==> r.obj.meta.uid == a.meta.uid && r.obj.body.aspec == a.body.aspec
    ensures r.Ok? ==> r.obj.body.astatus == NotReady(a).body.astatus
  {
    hide Permitted, Enabled, IsRun, OnlyOthers, StatusApplies, StatusUpdated;
    ghost var r0 := c.run;
    BasicHolds(r0);
    r := WriteStatus(c, driver, key, NotReady(a));
    if r.Ok? { AfterNotReady(r0, c.run, driver, key, a); }
  }

  lemma SafeAnnounce(r: Run, driver: string, key: Ref, acc: Object)
    requires IsRun(r) && Holds(r.world, driver, key, acc) && acc.meta.deleting && Seen(r, key, acc)
    requires acc.body.astatus.accountId != "" ==> Revoked(r.world.calls, acc.meta.uid, acc.body.astatus.accountId)
    requires SecretsGone(r.world, key, acc.meta.uid, acc.body.aspec.claims)
    requires UpdateApplies(r.world, key, Annotated(acc, CleanupFinished))
    ensures r.world.objs[key] == acc
    ensures Updated(acc, Annotated(acc, CleanupFinished)) == Some(Annotated(acc, CleanupFinished))
    ensures Enabled(r, Change(AccessSidecar(driver, key), key, Some(Annotated(acc, CleanupFinished))))
  {
    hide IsRun, Seen;
    BasicHolds(r);
    SeenIsCurrent(r, key, acc);
  }

  /** After the handoff annotation is stored, the Controller finishes an access that is cleaned up. */
  ghost predicate HandedBack(w: World, key: Ref, uid: Uid) {
    && key in w.objs && w.objs[key].body.Access? && w.objs[key].meta.uid == uid
    && CleanupFinished in w.objs[key].meta.annotations && !ManagedBySidecar(w.objs[key])
    && w.objs[key].body.astatus.ready == Some(false) && SidecarFinishes(w, key, w.objs[key])
  }

  lemma AnnouncedHandsBack(r: Run, driver: string, key: Ref, acc: Object)
    requires key.kind == AccessKind && acc.body.Access? && acc.meta.deleting && key in r.world.objs
    requires acc.body.astatus.ready == Some(false)
    requires acc.body.astatus.accountId != "" ==> Revoked(r.world.calls, acc.meta.uid, acc.body.astatus.accountId)
    requires SecretsGone(r.world, key, acc.meta.uid, acc.body.aspec.claims)
    ensures HandedBack(After(r.world, Change(AccessSidecar(driver, key), key, Some(Annotated(acc, CleanupFinished)))),
                       key, acc.meta.uid)
  {
  }

  method AnnounceCleanup(c: Cluster, driver: string, key: Ref, acc: Object) returns (err: Option<Error>)
    requires c.Valid() && Holds(c.run.world, driver, key, acc) && acc.meta.deleting && Seen(c.run, key, acc)
    requires acc.body.astatus.ready == Some(false)
    requires acc.body.astatus.accountId != "" ==> Revoked(c.run.world.calls, acc.meta.uid, acc.body.astatus.accountId)
    requires SecretsGone(c.run.world, key, acc.meta.uid, acc.body.aspec.claims)
    modifies c
    ensures c.Valid() && Prefix(old(c.run), c.run)
    ensures err.None? ==> HandedBack(c.run.world, key, acc.meta.uid)
    ensures Recordable(c.run.world, driver, key, acc)
  {
    hide Permitted, Enabled, Conforms, Seen, IsRun, OnlyOthers, UpdateApplies, Updated, SecretsGone, Revoked,
         OnlyShrinks, HandedBack, Holds;
    var me := AccessSidecar(driver, key);
    ghost var r0 := c.run;
    c.Yield(me);
    ghost var r1 := c.run;
    OthersKeepCleaning(r0, r1, driver, key, acc);
    SeenStays(me, r0, r1, key, acc);
    KeepsGone(r0, r1, driver, key, acc);
    SeenRecordable(r1, driver, key, acc);
    if UpdateApplies(c.run.world, key, Annotated(acc, CleanupFinished)) {
      SafeAnnounce(c.run, driver, key, acc);
    }
    var updated := c.Update(me, key, Annotated(acc, CleanupFinished));
    if c.run != r1 { AnnouncedHandsBack(r1, driver, key, acc); }
    err := if updated.Err? then Some(Wrapped(Plain)) else None;
  }

  lemma KeepsGone(p: Run, r: Run, driver: string, key: Ref, acc: Object)
    requires IsRun(r) && OnlyOthers(AccessSidecar(driver, key), p, r) && Cleaning(p, r, driver, key, acc)
    requires acc.body.astatus.accountId != "" ==> Revoked(p.world.calls, acc.meta.uid, acc.body.astatus.accountId)
    requires SecretsGone(p.world, key, acc.meta.uid, acc.body.aspec.claims)
    ensures acc.body.astatus.accountId != "" ==> Revoked(r.world.calls, acc.meta.uid, acc.body.astatus.accountId)
    ensures SecretsGone(r.world, key, acc.meta.uid, acc.body.aspec.claims)
    ensures key in r.world.objs && key.kind == AccessKind
  {
    hide Permitted, Enabled, IsRun, OnlyOthers;
    OthersOnlyAddCalls(AccessSidecar(driver, key), p, r);
    LongerLog(p.world.calls, r.world.calls, acc.meta.uid, acc.body.astatus.accountId);
    ShrinkingKeepsGone(p.world, r.world, key, acc.meta.uid, acc.body.aspec.claims);
  }

  /** The status that was read may be written back. */
  lemma SeenRecordable(r: Run, driver: string, key: Ref, acc: Object)
    requires IsRun(r) && Holds(r.world, driver, key, acc) && Seen(r, key, acc)
    ensures Recordable(r.world, driver, key, acc)
  {
    hide Permitted, Enabled, IsRun, Seen;
    VersionsGrow(r, key, acc);
  }

  /** `acc` is the local copy that Reconcile records an error on. */
  method ReconcileDelete(c: Cluster, driver: string, key: Ref, a: Object) returns (acc: Object, err: Option<Error>)
    requires c.Valid() && Holds(c.run.world, driver, key, a) && a.meta.deleting && c.run.world.objs[key] == a
    modifies c
    ensures c.Valid() && Prefix(old(c.run), c.run)
    ensures err.None? ==> HandedBack(c.run.world, key, a.meta.uid)
    ensures err.Some? ==> Recordable(c.run.world, driver, key, acc)
  {
    hide Permitted, Enabled, IsRun, Seen, Prefix, OnlyOthers, SecretsGone, Revoked, OnlyShrinks, HandedBack,
         Recordable;
    var start := StartDeletion(c, driver, key, a);
    if start.Err? { return NotReady(a), Some(Wrapped(Plain)); }
    acc := start.obj;
    ghost var r1 := c.run;
    SeenNow(r1, key);
    err := DeleteOwnedAccessSecrets(c, driver, key, acc);
    ghost var r2 := c.run;
    PrefixTransitive(old(c.run), r1, r2);
    SeenLater(r1, r2, key, acc);
    SeenRecordable(r2, driver, key, acc);
    if err.Some? { return; }
    if acc.body.astatus.accountId != "" {
      err := DriverRevokeAccess(c, driver, key, acc);
      PrefixTransitive(old(c.run), r2, c.run);
      SeenLater(r2, c.run, key, acc);
      SeenRecordable(c.run, driver, key, acc);
      if err.Some? { return; }
      ShrinkingKeepsGone(r2.world, c.run.world, key, acc.meta.uid, acc.body.aspec.claims);
    }
    ghost var r3 := c.run;
    err := AnnounceCleanup(c, driver, key, acc);
    PrefixTransitive(old(c.run), r3, c.run);
  }

  // The condition can fail.

  function Foreign(uid: Uid, data: Vars): Object { Object(Meta(uid, 0, false, {}, {}), Secret(None, data, map[])) }

  /**
   * A Secret that was read as the access's own is released; a user removes it and creates another one under its
   * name; and the delete request then meets that one.
   */
  lemma ReplacementIsDeleted(r: Run, driver: string, key: Ref, a: Object, secret: Ref, uid: Uid, data: Vars)
    requires IsRun(r) && Holds(r.world, driver, key, a) && a.meta.deleting && OwnedBy(r.world, secret, a.meta.uid)
    requires secret.kind == SecretKind && secret.ns == key.ns && NamesSecret(a.body.aspec.claims, secret.name)
    requires !r.world.objs[secret].meta.deleting && r.world.objs[secret].meta.finalizers == {Protection}
    requires uid != "" && uid !in r.world.uids
    ensures
      var me, s := AccessSidecar(driver, key), r.world.objs[secret];
      var released := Extend(r, Change(me, secret, Some(WithoutFinalizer(s))));
      var removed := Extend(released, Change(User, secret, None));
      var replaced := Extend(removed, Change(User, secret, Some(Foreign(uid, data))));
      && IsRun(replaced) && !OwnedBy(replaced.world, secret, a.meta.uid)
      && Enabled(replaced, Change(me, secret, DeleteRequested(replaced.world.objs[secret])))
  {
    hide Permitted, Enabled, IsRun, After, Holds, SameBut;
    var me, s := AccessSidecar(driver, key), r.world.objs[secret];
    BasicHolds(r);
    assert s.meta.finalizers - {Protection} == {};
    ReleaseAllowed(r, driver, key, a, secret, s);
    var released := Extend(r, Change(me, secret, Some(WithoutFinalizer(s))));
    UserReplaces(released, secret, uid, data);
    var replaced := Extend(Extend(released, Change(User, secret, None)),
                           Change(User, secret, Some(Foreign(uid, data))));
    HoldsElsewhere(r.world, released.world, replaced.world, driver, key, a, secret);
    BasicHolds(replaced);
    MayDelete(replaced, driver, key, a, secret);
  }

  lemma HoldsElsewhere(w: World, w1: World, w2: World, driver: string, key: Ref, a: Object, secret: Ref)
    requires Holds(w, driver, key, a) && SameBut(w, w1, {secret}) && SameBut(w1, w2, {secret})
    requires secret.kind == SecretKind
    ensures Holds(w2, driver, key, a)
  {
  }

  lemma ReleaseAllowed(r: Run, driver: string, key: Ref, a: Object, secret: Ref, s: Object)
    requires IsRun(r) && Holds(r.world, driver, key, a) && a.meta.deleting && Basic(r.world)
    requires OwnedBy(r.world, secret, a.meta.uid) && r.world.objs[secret] == s && !s.meta.deleting
    requires secret.kind == SecretKind && secret.ns == key.ns && NamesSecret(a.body.aspec.claims, secret.name)
    ensures
      var r' := Extend(r, Change(AccessSidecar(driver, key), secret, Some(WithoutFinalizer(s))));
      && IsRun(r') && SameBut(r.world, r'.world, {secret}) && secret in r'.world.objs && r'.world.uids == r.world.uids
      && r'.world.objs[secret].meta.finalizers == s.meta.finalizers - {Protection}
  {
    hide Permitted;
    MayRelease(r, driver, key, a, secret, s);
  }

  lemma UserReplaces(r: Run, secret: Ref, uid: Uid, data: Vars)
    requires IsRun(r) && secret.kind == SecretKind && secret in r.world.objs
    requires r.world.objs[secret].meta.finalizers == {}
    requires uid != "" && uid !in r.world.uids
    ensures
      var r' := Extend(Extend(r, Change(User, secret, None)), Change(User, secret, Some(Foreign(uid, data))));
      && IsRun(r') && SameBut(r.world, r'.world, {secret})
      && secret in r'.world.objs && r'.world.objs[secret].body == Secret(None, data, map[])
  {
  }
}
