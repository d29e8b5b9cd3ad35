/** A ready BucketAccess has its Secrets filled, for as long as it is not being deleted. */
module Readiness {
  import opened Objects
  import opened Rpc
  import opened Protocols
  import opened Translator
  import opened Runs
  import opened Rules
  import opened Invariants
  import opened Clusters
  import opened Rely

  ghost predicate ReadyOk(w: World, key: Ref) {
    (key in w.objs && w.objs[key].body.Access? && !w.objs[key].meta.deleting
     && w.objs[key].body.astatus.ready == Some(true)) ==>
      SecretsFilled(w, key, w.objs[key])
  }

  lemma LongerLogFilled(short: seq<Call>, long: seq<Call>, uid: Uid, spec: AccessSpec, s: AccessStatus, i: nat,
                        data: Vars)
    requires short <= long && i < |s.accessed| && FilledAt(short, uid, spec, s, i, data)
    ensures FilledAt(long, uid, spec, s, i, data)
  {
    assert forall n :: 0 <= n < |short| ==> short[n] == long[n];
  }

  /** What the Sidecar does to a Secret of an access that is not being deleted. */
  lemma OwnSecretEffect(w: World, key: Ref, a: Object, secret: Ref, now: Option<Object>, i: nat)
    requires a.body.Access? && !a.meta.deleting && SidecarMayChangeSecret(w, key, a, secret, now)
    requires UniqueSecrets(a.body.aspec.claims) && i < |a.body.aspec.claims|
    requires secret == SecretRefOf(key, a.body.aspec.claims[i].secretName) && ClaimFilled(w, key, a, i)
    ensures now.Some? && now.value.body.Secret? && now.value.body.owner == Some(a.meta.uid) && IsProtected(now.value)
    ensures LastWithId(a.body.astatus, i) ==>
        FilledAt(w.calls, a.meta.uid, a.body.aspec, a.body.astatus, i, now.value.body.data)
  {
    hide FreshFor, FilledAt;
    if now.Some? && now.value.body.Secret?
        && FreshFor(w.calls, a.meta.uid, a.body.aspec, a.body.astatus, secret.name, now.value.body.data) {
      FreshIsFilled(w.calls, a.meta.uid, a.body.aspec, a.body.astatus, secret.name, now.value.body.data);
      FilledHere(w.calls, a, i, now.value.body.data);
    }
  }

  /** With distinct Secret names, only the claim itself can be meant. */
  lemma FilledHere(calls: seq<Call>, a: Object, i: nat, data: Vars)
    requires a.body.Access? && UniqueSecrets(a.body.aspec.claims) && i < |a.body.aspec.claims|
    requires FilledFor(calls, a.meta.uid, a.body.aspec, a.body.astatus, a.body.aspec.claims[i].secretName, data)
    ensures LastWithId(a.body.astatus, i) && FilledAt(calls, a.meta.uid, a.body.aspec, a.body.astatus, i, data)
  {
    hide FilledAt;
    var j :| 0 <= j < |a.body.aspec.claims| && a.body.aspec.claims[j].secretName == a.body.aspec.claims[i].secretName &&
             LastWithId(a.body.astatus, j) && FilledAt(calls, a.meta.uid, a.body.aspec, a.body.astatus, j, data);
    assert i == j;
  }

  lemma FilledSecretStep(r: Run, e: Event, driver: string, key: Ref, a: Object, i: nat)
    requires Enabled(r, e) && Basic(r.world) && Holds(r.world, driver, key, a) && !r.world.objs[key].meta.deleting
    requires UniqueSecrets(a.body.aspec.claims) && i < |a.body.aspec.claims| && ClaimFilled(r.world, key, a, i)
    requires e.Change? && e.ref == SecretRefOf(key, a.body.aspec.claims[i].secretName)
    ensures ClaimFilled(After(r.world, e), key, a, i)
  {
    if e.actor == AccessSidecar(driver, key) {
      assert SidecarMayChangeSecret(r.world, key, r.world.objs[key], e.ref, e.now);
      SameConfigurationChanges(r.world, key, r.world.objs[key], a, e.ref, e.now);
      OwnSecretEffect(r.world, key, a.(meta := r.world.objs[key].meta), e.ref, e.now, i);
    } else {
      OnlyOneServes(r, e, driver, key);
      SecretUntouchedStep(r, e, driver, key, a, e.ref);
    }
  }

  lemma SameConfigurationChanges(w: World, key: Ref, a: Object, b: Object, secret: Ref, now: Option<Object>)
    requires a.body.Access? && a.body == b.body && SidecarMayChangeSecret(w, key, a, secret, now)
    ensures SidecarMayChangeSecret(w, key, b.(meta := a.meta), secret, now)
  {
  }

  lemma OnlyOneServes(r: Run, e: Event, driver: string, key: Ref)
    requires Enabled(r, e) && SidecarServes(r.world, driver, key) && e.actor != AccessSidecar(driver, key)
    ensures MayInterleave(AccessSidecar(driver, key), e.actor)
  {
  }

  lemma AllFilledStep(r: Run, e: Event, driver: string, key: Ref, a: Object)
    requires Enabled(r, e) && Basic(r.world) && Holds(r.world, driver, key, a) && !r.world.objs[key].meta.deleting
    requires SecretsFilled(r.world, key, a) && (e.Change? ==> e.ref != key)
    ensures SecretsFilled(After(r.world, e), key, a)
  {
    hide Permitted, Enabled;
    var w' := After(r.world, e);
    forall i: nat | i < |a.body.aspec.claims|
      ensures ClaimFilled(w', key, a, i)
    {
      assert ClaimFilled(r.world, key, a, i);
      var ref := SecretRefOf(key, a.body.aspec.claims[i].secretName);
      if e.Called? {
        if LastWithId(a.body.astatus, i) {
          LongerLogFilled(r.world.calls, w'.calls, a.meta.uid, a.body.aspec, a.body.astatus, i,
                          r.world.objs[ref].body.data);
        }
      } else if e.ref == ref {
        FilledSecretStep(r, e, driver, key, a, i);
      }
    }
  }

  /** What fills the Secrets of one version of an access fills those of another with the same configuration. */
  lemma FilledForBoth(w: World, w': World, key: Ref, a: Object, b: Object)
    requires SameConfiguration(a, b) && SecretsFilled(w, key, a) && w'.calls == w.calls && key.kind == AccessKind
    requires forall s :: s != key && s in w.objs ==> s in w'.objs && w'.objs[s] == w.objs[s]
    ensures SecretsFilled(w', key, b)
  {
    forall i: nat | i < |b.body.aspec.claims|
      ensures ClaimFilled(w', key, b, i)
    {
      assert LastWithId(a.body.astatus, i) <==> LastWithId(b.body.astatus, i);
      assert ClaimFilled(w, key, a, i);
    }
  }

  /** Readiness is only ever announced with the Secrets filled. */
  lemma ReadySource(r: Run, actor: Actor, key: Ref, n: Object)
    requires key.kind == AccessKind && Enabled(r, Change(actor, key, Some(n))) && AccessOk(r.world, key)
    requires n.body.Access? && !n.meta.deleting && n.body.astatus.ready == Some(true)
    ensures key in r.world.objs && r.world.objs[key].body.Access? && !r.world.objs[key].meta.deleting
    ensures r.world.objs[key].body.astatus.ready == Some(true) || SecretsFilled(r.world, key, r.world.objs[key])
    ensures r.world.objs[key].body.astatus.driverName != ""
  {
    hide GrantedTogether, SecretsFilled;
    if actor.AccessSidecar? {
      assert actor.key == key;
      if GrantedTogether(r.world, key, r.world.objs[key], n.body.astatus.accountId) {
        TogetherIsFilled(r.world, key, r.world.objs[key], n.body.astatus.accountId);
      }
    }
  }

  lemma TogetherIsFilled(w: World, key: Ref, a: Object, accountId: string)
    requires a.body.Access? && GrantedTogether(w, key, a, accountId)
    ensures SecretsFilled(w, key, a) && Granted(w.calls, a.meta.uid, accountId)
  {
    hide FilledBy;
    var n := LatestIsLogged(w.calls, a.meta.uid);
    var latest := LatestReply(w.calls, a.meta.uid).value;
    forall i: nat | i < |a.body.aspec.claims| ensures ClaimFilled(w, key, a, i) {
      assert ClaimFilledBy(w, key, a, i, latest);
    }
  }

  lemma ReadyKeyStep(r: Run, e: Event, key: Ref)
    requires IsRun(r) && Enabled(r, e) && e.Change? && e.ref == key && key.kind == AccessKind && ReadyOk(r.world, key)
    ensures ReadyOk(After(r.world, e), key)
  {
    hide Permitted, Enabled, IsRun;
    var w, w' := r.world, After(r.world, e);
    if key in w'.objs && w'.objs[key].body.Access? && !w'.objs[key].meta.deleting
        && w'.objs[key].body.astatus.ready == Some(true) {
      AccessHolds(r, key);
      ReadySource(r, e.actor, key, e.now.value);
      ConfigurationFixed(r, e, key);
      FilledForBoth(w, w', key, w.objs[key], w'.objs[key]);
    }
  }

  /** In every reachable state a ready access that is not being deleted has its Secrets filled. */
  lemma {:induction false} ReadyHolds(r: Run, key: Ref)
    requires IsRun(r) && key.kind == AccessKind
    ensures ReadyOk(r.world, key)
  {
    hide Permitted, Enabled;
    if r.More? {
      ReadyHolds(r.prev, key);
      var w, e := r.prev.world, r.event;
      if e.Change? && e.ref == key {
        ReadyKeyStep(r.prev, e, key);
      } else if key in w.objs && w.objs[key].body.Access? && !w.objs[key].meta.deleting
          && w.objs[key].body.astatus.ready == Some(true) {
        AccessHolds(r.prev, key);
        BasicHolds(r.prev);
        AllFilledStep(r.prev, e, w.objs[key].body.astatus.driverName, key, w.objs[key]);
      }
    }
  }

  // What a Secret of a ready access holds

  /** A Secret of the access holds data exactly when no later claim shares the claim's bucket ID. */
  lemma FilledIffLast(r: Run, key: Ref, i: nat)
    requires IsRun(r) && key.kind == AccessKind && key in r.world.objs && r.world.objs[key].body.Access?
    requires !r.world.objs[key].meta.deleting && r.world.objs[key].body.astatus.ready == Some(true)
    requires i < |r.world.objs[key].body.aspec.claims|
    ensures
      var a := r.world.objs[key];
      var secret := SecretRefOf(key, a.body.aspec.claims[i].secretName);
      && Reserved(r.world, secret, a.meta.uid)
      && (r.world.objs[secret].body.data != map[] <==> LastWithId(a.body.astatus, i))
      && (LastWithId(a.body.astatus, i) ==>
           FilledAt(r.world.calls, a.meta.uid, a.body.aspec, a.body.astatus, i, r.world.objs[secret].body.data))
  {
    hide Permitted, Enabled, IsRun;
    var w, a := r.world, r.world.objs[key];
    var secret := SecretRefOf(key, a.body.aspec.claims[i].secretName);
    ReadyHolds(r, key);
    SecretsHold(r, secret, key);
    AccessHolds(r, key);
    CallsHold(r, key);
    assert ClaimFilled(w, key, a, i);
    var data := w.objs[secret].body.data;
    if LastWithId(a.body.astatus, i) {
      KnownProtocolHasKeys(a.body.aspec.protocol);
      assert data.Keys != {};
    } else if data != map[] {
      FilledHere(w.calls, a, i, data);
    }
  }

  predicate DistinctIds(s: AccessStatus) {
    forall i, j :: 0 <= i < j < |s.accessed| ==> s.accessed[i].bucketId != s.accessed[j].bucketId
  }

  /** So every claim of a ready access gets its data if and only if the Buckets have pairwise distinct IDs. */
  lemma AllFilledIffDistinctIds(r: Run, key: Ref)
    requires IsRun(r) && key.kind == AccessKind && key in r.world.objs && r.world.objs[key].body.Access?
    requires !r.world.objs[key].meta.deleting && r.world.objs[key].body.astatus.ready == Some(true)
    ensures
      var a := r.world.objs[key];
      DistinctIds(a.body.astatus) <==>
        forall i :: 0 <= i < |a.body.aspec.claims| ==>
          var secret := SecretRefOf(key, a.body.aspec.claims[i].secretName);
          OwnedBy(r.world, secret, a.meta.uid) && r.world.objs[secret].body.data != map[]
  {
    hide Permitted, Enabled, IsRun, FilledAt;
    var a := r.world.objs[key];
    AccessHolds(r, key);
    forall i: nat | i < |a.body.aspec.claims|
      ensures
        var secret := SecretRefOf(key, a.body.aspec.claims[i].secretName);
        && OwnedBy(r.world, secret, a.meta.uid)
        && (r.world.objs[secret].body.data != map[] <==> LastWithId(a.body.astatus, i))
    {
      FilledIffLast(r, key, i);
    }
    DistinctMeansAllLast(a.body.astatus);
  }

  lemma DistinctMeansAllLast(s: AccessStatus)
    ensures DistinctIds(s) <==> forall i: nat :: i < |s.accessed| ==> LastWithId(s, i)
  {
    if forall i: nat :: i < |s.accessed| ==> LastWithId(s, i) {
      forall i, j | 0 <= i < j < |s.accessed| ensures s.accessed[i].bucketId != s.accessed[j].bucketId {
        assert LastWithId(s, i);
      }
    }
  }

  lemma KnownProtocolHasKeys(p: Protocol)
    requires ProtocolToRpc(p).Some?
    ensures SecretKeys(p) != {}
  {
    match p
    case S3 => assert S3Region in SecretKeys(p);
    case Azure => assert AzureExpiry in SecretKeys(p);
    case Gcs => assert GcsAccessId in SecretKeys(p);
    case _ =>
  }

  /** An idempotent driver: every accepted grant for the access returned the same reply. */
  ghost predicate OneReply(calls: seq<Call>, uid: Uid, reply: GrantReply) {
    forall n :: 0 <= n < |calls| && calls[n].Grant? && calls[n].access == uid && calls[n].reply.Some? ==>
      calls[n].reply.value == reply
  }

  /** What a run leaves behind for an access, apart from versions and recorded errors. */
  ghost predicate SameResult(w: World, w': World, key: Ref, a: Object, b: Object) {
    && a.body.Access? && b.body.Access? && a.body.aspec == b.body.aspec
    && a.body.astatus == b.body.astatus.(failed := a.body.astatus.failed)
    && forall i :: 0 <= i < |a.body.aspec.claims| ==>
         var s := SecretRefOf(key, a.body.aspec.claims[i].secretName);
         && Reserved(w, s, a.meta.uid) && Reserved(w', s, b.meta.uid)
         && w.objs[s].body == w'.objs[s].body
  }

  /** The access is ready for good use, and `reply` named its account and filled its Secrets. */
  ghost predicate ReadyWith(w: World, key: Ref, reply: GrantReply) {
    && key in w.objs && w.objs[key].body.Access? && !w.objs[key].meta.deleting
    && w.objs[key].body.astatus.ready == Some(true) && w.objs[key].body.astatus.accountId == reply.accountId
    && AllFilledBy(w, key, w.objs[key], reply)
  }

  lemma OneReplyFills(r: Run, key: Ref, reply: GrantReply)
    requires IsRun(r) && key.kind == AccessKind && key in r.world.objs && r.world.objs[key].body.Access?
    requires !r.world.objs[key].meta.deleting && r.world.objs[key].body.astatus.ready == Some(true)
    requires OneReply(r.world.calls, r.world.objs[key].meta.uid, reply)
    ensures ReadyWith(r.world, key, reply)
  {
    hide Permitted, Enabled, IsRun, FilledBy;
    AccessHolds(r, key);
    ReadyHolds(r, key);
    var w, a := r.world, r.world.objs[key];
    forall i: nat | i < |a.body.aspec.claims| ensures ClaimFilledBy(w, key, a, i, reply) {
      assert ClaimFilled(w, key, a, i);
    }
  }

  lemma FilledByIsFunctional(reply: GrantReply, a: Object, b: Object, i: nat, data: Vars, data': Vars)
    requires SameConfiguration(a, b) && i < |a.body.astatus.accessed|
    requires FilledBy(reply, a.body.aspec, a.body.astatus, i, data)
    requires FilledBy(reply, b.body.aspec, b.body.astatus, i, data')
    ensures data == data'
  {
  }

  lemma SameSecret(r: Run, r': Run, key: Ref, reply: GrantReply, i: nat)
    requires IsRun(r) && IsRun(r') && key.kind == AccessKind && ReadyWith(r.world, key, reply)
    requires ReadyWith(r'.world, key, reply)
    requires SameConfiguration(r.world.objs[key], r'.world.objs[key]) && i < |r.world.objs[key].body.aspec.claims|
    ensures
      var a := r.world.objs[key];
      var s := SecretRefOf(key, a.body.aspec.claims[i].secretName);
      && Reserved(r.world, s, a.meta.uid) && Reserved(r'.world, s, a.meta.uid)
      && r.world.objs[s].body == r'.world.objs[s].body
  {
    hide Permitted, Enabled, IsRun, FilledBy, FilledAt;
    var a, b := r.world.objs[key], r'.world.objs[key];
    var s := SecretRefOf(key, a.body.aspec.claims[i].secretName);
    FilledIffLast(r, key, i);
    FilledIffLast(r', key, i);
    BasicHolds(r);
    BasicHolds(r');
    assert ClaimFilledBy(r.world, key, a, i, reply) && ClaimFilledBy(r'.world, key, b, i, reply);
    assert LastWithId(a.body.astatus, i) <==> LastWithId(b.body.astatus, i);
    if LastWithId(a.body.astatus, i) {
      FilledByIsFunctional(reply, a, b, i, r.world.objs[s].body.data, r'.world.objs[s].body.data);
    }
  }

  lemma SameIfReadyAlike(r: Run, r': Run, key: Ref, reply: GrantReply)
    requires IsRun(r) && IsRun(r') && key.kind == AccessKind && ReadyWith(r.world, key, reply)
    requires ReadyWith(r'.world, key, reply)
    requires SameConfiguration(r.world.objs[key], r'.world.objs[key])
    ensures SameResult(r.world, r'.world, key, r.world.objs[key], r'.world.objs[key])
  {
    hide Permitted, Enabled, IsRun, AllFilledBy;
    var a := r.world.objs[key];
    forall i: nat | i < |a.body.aspec.claims|
      ensures
        var s := SecretRefOf(key, a.body.aspec.claims[i].secretName);
        && Reserved(r.world, s, a.meta.uid) && Reserved(r'.world, s, a.meta.uid)
        && r.world.objs[s].body == r'.world.objs[s].body
    {
      SameSecret(r, r', key, reply, i);
    }
  }

  /**
   * Crashes, conflicts and repeated grants do not matter: any two runs in which the same configured access became
   * ready, against a driver that answers alike, end in the same status and the same Secrets.
   */
  lemma SameOutcome(r: Run, r': Run, key: Ref, reply: GrantReply)
    requires IsRun(r) && IsRun(r') && key.kind == AccessKind && key in r.world.objs && key in r'.world.objs
    requires SameConfiguration(r.world.objs[key], r'.world.objs[key])
    requires !r.world.objs[key].meta.deleting && r.world.objs[key].body.astatus.ready == Some(true)
    requires !r'.world.objs[key].meta.deleting && r'.world.objs[key].body.astatus.ready == Some(true)
    requires OneReply(r.world.calls, r.world.objs[key].meta.uid, reply)
    requires OneReply(r'.world.calls, r.world.objs[key].meta.uid, reply)
    ensures SameResult(r.world, r'.world, key, r.world.objs[key], r'.world.objs[key])
  {
    hide Permitted, Enabled, IsRun, ReadyWith, SameResult;
    OneReplyFills(r, key, reply);
    OneReplyFills(r', key, reply);
    SameIfReadyAlike(r, r', key, reply);
  }
}
