/** What the Sidecar does before it asks the driver: it checks the Buckets and reserves the Secrets. */
module SidecarReserve {
  import opened Objects
  import opened Errors
  import opened Runs
  import opened Rules
  import opened Invariants
  import opened Releases
  import opened Clusters
  import opened Rely

  // Buckets

  predicate ReadyForAccess(b: Object, id: string) {
    && ClaimBeingDeleted !in b.meta.annotations && !b.meta.deleting
    && b.body.Bucket? && b.body.bstatus.id != "" && b.body.bstatus.id == id
  }

  predicate StoredReady(w: World, ab: AccessedBucket) {
    BucketRef(ab.bucketName) in w.objs && ReadyForAccess(w.objs[BucketRef(ab.bucketName)], ab.bucketId)
  }

  lemma {:induction false} AnnotatedLater(me: Actor, p: Run, r: Run, bucket: string)
    requires OnlyOthers(me, p, r) && EverAnnotated(p, bucket)
    ensures EverAnnotated(r, bucket)
  {
    if p != r { AnnotatedLater(me, p, r.prev, bucket); }
  }

  lemma ReadyNotAnnotated(me: Actor, p: Run, r: Run, bucket: string, id: string)
    requires IsRun(r) && OnlyOthers(me, p, r) && BucketRef(bucket) in r.world.objs
    requires ReadyForAccess(r.world.objs[BucketRef(bucket)], id)
    ensures !EverAnnotated(p, bucket)
  {
    hide Permitted, Enabled, IsRun, OnlyOthers;
    if EverAnnotated(p, bucket) {
      AnnotatedLater(me, p, r, bucket);
      AnnotatedForGood(r, bucket);
    }
  }

  ghost predicate SeenReady(r: Run, ab: AccessedBucket) {
    exists b :: Seen(r, BucketRef(ab.bucketName), b) && ReadyForAccess(b, ab.bucketId)
  }

  lemma SeenReadyStays(me: Actor, p: Run, r: Run, ab: AccessedBucket)
    requires OnlyOthers(me, p, r) && SeenReady(p, ab)
    ensures SeenReady(r, ab)
  {
    var b :| Seen(p, BucketRef(ab.bucketName), b) && ReadyForAccess(b, ab.bucketId);
    SeenStays(me, p, r, BucketRef(ab.bucketName), b);
  }

  method ValidateBucket(c: Cluster, me: Actor, ab: AccessedBucket) returns (err: Option<Error>)
    requires c.Valid()
    modifies c
    ensures c.Valid() && OnlyOthers(me, old(c.run), c.run)
    ensures err.None? ==> SeenReady(c.run, ab) && !EverAnnotated(old(c.run), ab.bucketName)
    ensures c.clock >= old(c.clock) && (old(c.Calm()) ==> c.Calm() && c.run == old(c.run))
    ensures old(c.Calm()) && StoredReady(old(c.run).world, ab) ==> err.None?
  {
    hide Permitted, Enabled, IsRun, OnlyOthers, EverAnnotated;
    var got := c.Get(me, BucketRef(ab.bucketName));
    if got == Err(MissingError) { return Some(NonRetryable(Plain)); }
    if got.Err? { return Some(Plain); }
    if !ReadyForAccess(got.obj, ab.bucketId) { return Some(NonRetryable(Wrapped(Plain))); }
    ReadyNotAnnotated(me, old(c.run), c.run, ab.bucketName, ab.bucketId);
    assert Seen(c.run, BucketRef(ab.bucketName), got.obj);
    return None;
  }

  /** Passes only if every Bucket was seen ready, and fails for good once one was announced as going. */
  method ValidateAccessedBuckets(c: Cluster, me: Actor, accessed: seq<AccessedBucket>) returns (err: Option<Error>)
    requires c.Valid()
    modifies c
    ensures c.Valid() && OnlyOthers(me, old(c.run), c.run)
    ensures err.None? ==> forall i :: 0 <= i < |accessed| ==> SeenReady(c.run, accessed[i])
    ensures err.None? ==> forall i :: 0 <= i < |accessed| ==> !EverAnnotated(old(c.run), accessed[i].bucketName)
    ensures c.clock >= old(c.clock) && (old(c.Calm()) ==> c.Calm() && c.run == old(c.run))
    ensures old(c.Calm()) && (forall i :: 0 <= i < |accessed| ==> StoredReady(old(c.run).world, accessed[i])) ==>
        err.None?
  {
    hide Permitted, Enabled, IsRun, OnlyOthers, EverAnnotated, SeenReady, StoredReady;
    var errs: seq<Error> := [];
    ghost var calm := c.Calm();
    OthersRefl(me, c.run);
    for i := 0 to |accessed|
      invariant c.Valid() && OnlyOthers(me, old(c.run), c.run)
      invariant errs == [] ==> forall j :: 0 <= j < i ==> SeenReady(c.run, accessed[j])
      invariant errs == [] ==> forall j :: 0 <= j < i ==> !EverAnnotated(old(c.run), accessed[j].bucketName)
      invariant c.clock >= old(c.clock) && (calm ==> c.Calm() && c.run == old(c.run))
      invariant calm && (forall j :: 0 <= j < i ==> StoredReady(old(c.run).world, accessed[j])) ==> errs == []
    {
      ghost var r1 := c.run;
      var failure := ValidateBucket(c, me, accessed[i]);
      OthersTransitive(me, old(c.run), r1, c.run);
      forall j | 0 <= j < i && SeenReady(r1, accessed[j]) ensures SeenReady(c.run, accessed[j]) {
        SeenReadyStays(me, r1, c.run, accessed[j]);
      }
      if failure.Some? {
        errs := errs + [failure.value];
      } else {
        NotAnnotatedBefore(me, old(c.run), r1, accessed[i].bucketName);
      }
    }
    err := if errs != [] then Some(Wrapped(Joined(errs))) else None;
  }

  lemma NotAnnotatedBefore(me: Actor, p: Run, r: Run, bucket: string)
    requires OnlyOthers(me, p, r) && !EverAnnotated(r, bucket)
    ensures !EverAnnotated(p, bucket)
  {
    if EverAnnotated(p, bucket) { AnnotatedLater(me, p, r, bucket); }
  }

  // Reserved Secrets keep their owner, protection and content while the Sidecar serves the access.

  ghost predicate KeepsReserved(w: World, w': World, uid: Uid, written: set<Ref>) {
    forall s: Ref :: s.kind == SecretKind && s !in written && Reserved(w, s, uid) ==>
      Reserved(w', s, uid) && w'.objs[s].body == w.objs[s].body
  }

  ghost predicate Serving(p: Run, r: Run, driver: string, key: Ref, a: Object, written: set<Ref>) {
    && Prefix(p, r) && Holds(r.world, driver, key, a) && KeepsReserved(p.world, r.world, a.meta.uid, written)
  }

  lemma ServingOn(p: Run, q: Run, r: Run, driver: string, key: Ref, a: Object, x: set<Ref>, y: set<Ref>)
    requires Serving(p, q, driver, key, a, x) && Serving(q, r, driver, key, a, y)
    ensures Serving(p, r, driver, key, a, x + y)
    ensures y <= x ==> Serving(p, r, driver, key, a, x)
  {
    PrefixTransitive(p, q, r);
  }

  lemma OthersKeepServing(p: Run, r: Run, driver: string, key: Ref, a: Object)
    requires IsRun(r) && OnlyOthers(AccessSidecar(driver, key), p, r) && Holds(p.world, driver, key, a)
    ensures Serving(p, r, driver, key, a, {})
  {
    hide Permitted, Enabled, IsRun, OnlyOthers;
    OthersPrefix(AccessSidecar(driver, key), p, r);
    StillHolds(p, r, driver, key, a);
    forall s: Ref | s.kind == SecretKind && Reserved(p.world, s, a.meta.uid)
      ensures Reserved(r.world, s, a.meta.uid) && r.world.objs[s].body == p.world.objs[s].body
    {
      SecretsUntouched(p, r, driver, key, a, s);
    }
  }

  lemma OwnWriteServing(p: Run, r: Run, driver: string, key: Ref, a: Object, x: set<Ref>, secret: Ref,
                        now: Option<Object>)
    requires Serving(p, r, driver, key, a, x) && secret.kind == SecretKind
    ensures Serving(p, Extend(r, Change(AccessSidecar(driver, key), secret, now)), driver, key, a, x + {secret})
    ensures (|| secret !in r.world.objs
             || (now.Some? && now.value.body == r.world.objs[secret].body && IsProtected(now.value))) ==>
              Serving(p, Extend(r, Change(AccessSidecar(driver, key), secret, now)), driver, key, a, x)
  {
  }

  /** The Secret is reserved, and `s` is a version of it. */
  ghost predicate SecretHeld(r: Run, key: Ref, uid: Uid, name: string, s: Object) {
    && Reserved(r.world, SecretRefOf(key, name), uid) && Seen(r, SecretRefOf(key, name), s)
    && s.body.Secret? && s.body.owner == Some(uid)
  }

  lemma StaysHeld(p: Run, r: Run, driver: string, key: Ref, a: Object, written: set<Ref>, name: string, s: Object)
    requires Serving(p, r, driver, key, a, written) && SecretHeld(p, key, a.meta.uid, name, s)
    requires SecretRefOf(key, name) !in written
    ensures SecretHeld(r, key, a.meta.uid, name, s)
  {
    SeenLater(p, r, SecretRefOf(key, name), s);
  }

  // Reservation

  datatype Reservation = Made(secret: Object) | NotMade(error: Error)

  lemma MayCreateSecret(r: Run, driver: string, key: Ref, a: Object, name: string, uid: Uid)
    requires Holds(r.world, driver, key, a) && NamesSecret(a.body.aspec.claims, name)
    requires SecretRefOf(key, name) !in r.world.objs && uid != "" && uid !in r.world.uids
    ensures
      var secret := WithUid(NewSecret("", a.meta.uid), uid);
      Enabled(r, Change(AccessSidecar(driver, key), SecretRefOf(key, name), Some(secret)))
  {
  }

  method CreateSecret(c: Cluster, driver: string, key: Ref, a: Object, name: string) returns (res: Reservation)
    requires c.Valid() && Holds(c.run.world, driver, key, a) && NamesSecret(a.body.aspec.claims, name)
    modifies c
    ensures c.Valid() && Serving(old(c.run), c.run, driver, key, a, {})
    ensures res.Made? ==> SecretHeld(c.run, key, a.meta.uid, name, res.secret)
    ensures res.Made? ==> Current(c.run.world, SecretRefOf(key, name), res.secret)
    ensures c.clock >= old(c.clock)
    ensures old(c.Calm()) ==> c.Calm() && SameBut(old(c.run).world, c.run.world, {SecretRefOf(key, name)})
    ensures old(c.Calm()) && SecretRefOf(key, name) !in old(c.run).world.objs ==> res.Made?
  {
    hide Permitted, Enabled, Conforms, IsRun, OnlyOthers, Serving, Holds;
    var me, ref := AccessSidecar(driver, key), SecretRefOf(key, name);
    ghost var r0 := c.run;
    c.Yield(me);
    ghost var r1 := c.run;
    OthersKeepServing(r0, r1, driver, key, a);
    ServingHolds(r0, r1, driver, key, a, {});
    if ref !in c.run.world.objs {
      forall uid | uid != "" && uid !in c.run.world.uids
        ensures Enabled(c.run, Change(me, ref, Some(WithUid(NewSecret("", a.meta.uid), uid))))
      {
        MayCreateSecret(c.run, driver, key, a, name, uid);
      }
    }
    var created := c.Create(me, ref, NewSecret("", a.meta.uid));
    if c.run != r1 {
      ghost var stored := WithUid(NewSecret("", a.meta.uid), c.run.world.objs[ref].meta.uid);
      OwnWriteServing(r0, r1, driver, key, a, {}, ref, Some(stored));
    }
    res := if created.Ok? then Made(created.obj) else NotMade(Plain);
  }

  lemma ServingHolds(p: Run, r: Run, driver: string, key: Ref, a: Object, written: set<Ref>)
    requires Serving(p, r, driver, key, a, written)
    ensures Holds(r.world, driver, key, a) && Prefix(p, r)
  {
  }

  lemma SafeProtect(p: Run, r: Run, driver: string, key: Ref, a: Object, name: string, s: Object)
    requires IsRun(r) && Serving(p, r, driver, key, a, {}) && NamesSecret(a.body.aspec.claims, name)
    requires Seen(r, SecretRefOf(key, name), s) && s.body.Secret? && s.body.owner == Some(a.meta.uid)
    requires UpdateApplies(r.world, SecretRefOf(key, name), WithFinalizer(s))
    ensures
      var ref := SecretRefOf(key, name);
      var e := Change(AccessSidecar(driver, key), ref, Updated(r.world.objs[ref], WithFinalizer(s)));
      && e.now == Some(WithFinalizer(s)) && Enabled(r, e) && Serving(p, Extend(r, e), driver, key, a, {})
  {
    hide IsRun, Seen, Prefix, KeepsReserved;
    var ref := SecretRefOf(key, name);
    SeenIsCurrent(r, ref, s);
    BasicHolds(r);
    assert s.body.data + map[] == s.body.data;
    assert Updated(s, WithFinalizer(s)) == Some(WithFinalizer(s));
    OwnWriteServing(p, r, driver, key, a, {}, ref, Some(WithFinalizer(s)));
  }

  /** The Secret can be reserved: it is absent or the access's own, and the access is not being deleted. */
  ghost predicate Reservable(w: World, key: Ref, a: Object, name: string) {
    && Current(w, key, a) && !a.meta.deleting
    && (SecretRefOf(key, name) in w.objs ==> OwnedBy(w, SecretRefOf(key, name), a.meta.uid))
  }

  /** A Secret of a live access is protected already, so that protecting it again is accepted. */
  lemma ProtectApplies(r: Run, key: Ref, a: Object, name: string, s: Object)
    requires IsRun(r) && key.kind == AccessKind && a.body.Access? && Reservable(r.world, key, a, name)
    requires Current(r.world, SecretRefOf(key, name), s)
    ensures UpdateApplies(r.world, SecretRefOf(key, name), WithFinalizer(s))
  {
    hide Permitted, Enabled, IsRun;
    BasicHolds(r);
    SecretsHold(r, SecretRefOf(key, name), key);
    assert s.meta.finalizers + {Protection} == s.meta.finalizers;
  }

  method ProtectSecret(c: Cluster, driver: string, key: Ref, a: Object, name: string, s: Object)
    returns (res: Reservation)
    requires c.Valid() && Holds(c.run.world, driver, key, a) && NamesSecret(a.body.aspec.claims, name)
    requires Seen(c.run, SecretRefOf(key, name), s) && s.body.Secret?
    modifies c
    ensures c.Valid() && Serving(old(c.run), c.run, driver, key, a, {})
    ensures res.Made? ==> SecretHeld(c.run, key, a.meta.uid, name, res.secret)
    ensures res.Made? ==> Current(c.run.world, SecretRefOf(key, name), res.secret)
    ensures s.body.owner != Some(a.meta.uid) ==> res.NotMade? && IsNonRetryable(res.error) && c.run == old(c.run)
    ensures c.clock >= old(c.clock)
    ensures old(c.Calm()) ==> c.Calm() && SameBut(old(c.run).world, c.run.world, {SecretRefOf(key, name)})
    ensures (old(c.Calm()) && Current(old(c.run).world, SecretRefOf(key, name), s)
             && Reservable(old(c.run).world, key, a, name)) ==>
              res.Made?
  {
    hide Permitted, Enabled, Conforms, UpdateApplies, Updated, IsRun, OnlyOthers, Serving;
    var me, ref := AccessSidecar(driver, key), SecretRefOf(key, name);
    ghost var r0, calm := c.run, c.Calm();
    if s.body.owner != Some(a.meta.uid) {
      OthersRefl(me, r0);
      OthersKeepServing(r0, r0, driver, key, a);
      return NotMade(NonRetryable(Plain));
    }
    c.Yield(me);
    OthersKeepServing(r0, c.run, driver, key, a);
    SeenStays(me, r0, c.run, ref, s);
    if calm && Current(r0.world, ref, s) && Reservable(r0.world, key, a, name) { ProtectApplies(r0, key, a, name, s); }
    if UpdateApplies(c.run.world, ref, WithFinalizer(s)) {
      SafeProtect(r0, c.run, driver, key, a, name, s);
    }
    var updated := c.Update(me, ref, WithFinalizer(s));
    res := if updated.Ok? then Made(updated.obj) else NotMade(Plain);
  }

  method ReserveOne(c: Cluster, driver: string, key: Ref, a: Object, name: string) returns (res: Reservation)
    requires c.Valid() && Holds(c.run.world, driver, key, a) && NamesSecret(a.body.aspec.claims, name)
    modifies c
    ensures c.Valid() && Serving(old(c.run), c.run, driver, key, a, {})
    ensures res.Made? ==> SecretHeld(c.run, key, a.meta.uid, name, res.secret)
    ensures res.Made? ==> Current(c.run.world, SecretRefOf(key, name), res.secret)
    ensures c.clock >= old(c.clock)
    ensures old(c.Calm()) ==> c.Calm() && SameBut(old(c.run).world, c.run.world, {SecretRefOf(key, name)})
    ensures old(c.Calm()) && Reservable(old(c.run).world, key, a, name) ==> res.Made?
  {
    hide Permitted, Enabled, Conforms, IsRun, OnlyOthers, Serving, Holds, SecretHeld;
    var me, ref := AccessSidecar(driver, key), SecretRefOf(key, name);
    ghost var r0 := c.run;
    var got := c.Get(me, ref);
    ghost var r1 := c.run;
    OthersKeepServing(r0, r1, driver, key, a);
    ServingHolds(r0, r1, driver, key, a, {});
    if got.Err? && got.code != MissingError { return NotMade(Plain); }
    if got.Err? {
      res := CreateSecret(c, driver, key, a, name);
    } else {
      BasicHolds(r1);
      SeenNow(r1, ref);
      res := ProtectSecret(c, driver, key, a, name, got.obj);
    }
    ServingOn(r0, r1, c.run, driver, key, a, {}, {});
  }

  ghost predicate AllHeld(r: Run, key: Ref, uid: Uid, secrets: map<string, Object>) {
    forall name :: name in secrets ==> SecretHeld(r, key, uid, name, secrets[name])
  }

  lemma AllStayHeld(p: Run, r: Run, driver: string, key: Ref, a: Object, secrets: map<string, Object>)
    requires Serving(p, r, driver, key, a, {}) && AllHeld(p, key, a.meta.uid, secrets)
    ensures AllHeld(r, key, a.meta.uid, secrets)
  {
    forall name | name in secrets ensures SecretHeld(r, key, a.meta.uid, name, secrets[name]) {
      StaysHeld(p, r, driver, key, a, {}, name, secrets[name]);
    }
  }

  function RefsOf(key: Ref, secrets: map<string, Object>): set<Ref> { set name | name in secrets :: SecretRefOf(key,
                  name) }

  ghost predicate AllCurrent(w: World, key: Ref, secrets: map<string, Object>) {
    forall name :: name in secrets ==> Current(w, SecretRefOf(key, name), secrets[name])
  }

  /** Every Secret that the access names can be reserved, under its own name. */
  ghost predicate AllReservable(w: World, key: Ref, a: Object)
    requires a.body.Access?
  {
    && UniqueSecrets(a.body.aspec.claims) && Current(w, key, a)
    && forall i :: 0 <= i < |a.body.aspec.claims| ==> Reservable(w, key, a, a.body.aspec.claims[i].secretName)
  }

  lemma StillReservable(w: World, w': World, key: Ref, a: Object, secrets: map<string, Object>, name: string)
    requires Reservable(w, key, a, name) && SameBut(w, w', RefsOf(key, secrets)) && name !in secrets
    requires key.kind == AccessKind
    ensures Reservable(w', key, a, name)
  {
  }

  lemma OneMoreCurrent(w0: World, w: World, w': World, key: Ref, secrets: map<string, Object>, name: string, s: Object)
    requires SameBut(w0, w, RefsOf(key, secrets)) && SameBut(w, w', {SecretRefOf(key, name)})
    requires AllCurrent(w, key, secrets)
    requires name !in secrets && Current(w', SecretRefOf(key, name), s)
    ensures SameBut(w0, w', RefsOf(key, secrets[name := s])) && AllCurrent(w', key, secrets[name := s])
  {
    assert forall n :: n in secrets ==> SecretRefOf(key, n) in RefsOf(key, secrets[name := s]);
    assert SecretRefOf(key, name) in RefsOf(key, secrets[name := s]);
  }

  /** The first `i` Secret names are distinct, and exactly they have entries. */
  ghost predicate ReservedUpTo(claims: seq<ClaimAccess>, i: nat, secrets: map<string, Object>)
    requires i <= |claims|
  {
    && |secrets| == i && (forall j, k :: 0 <= j < k < i ==> claims[j].secretName != claims[k].secretName)
    && (forall j :: 0 <= j < i ==> claims[j].secretName in secrets)
    && (forall name :: name in secrets ==> exists j :: 0 <= j < i && claims[j].secretName == name)
  }

  lemma ReservedNext(claims: seq<ClaimAccess>, i: nat, secrets: map<string, Object>, s: Object)
    requires i < |claims| && ReservedUpTo(claims, i, secrets)
    ensures claims[i].secretName !in secrets ==> ReservedUpTo(claims, i + 1, secrets[claims[i].secretName := s])
    ensures UniqueSecrets(claims) ==> claims[i].secretName !in secrets
  {
    var more := secrets[claims[i].secretName := s];
    forall name | name in more ensures exists j :: 0 <= j < i + 1 && claims[j].secretName == name {
      if name != claims[i].secretName {
        var j :| 0 <= j < i && claims[j].secretName == name;
      }
    }
  }

  /** Success means distinct Secret names, each held by a protected Secret that the access controls. */
  method ReserveAccessSecrets(c: Cluster, driver: string, key: Ref, a: Object)
    returns (secrets: map<string, Object>, err: Option<Error>)
    requires c.Valid() && Holds(c.run.world, driver, key, a)
    modifies c
    ensures c.Valid() && Serving(old(c.run), c.run, driver, key, a, {})
    ensures err.None? ==> UniqueSecrets(a.body.aspec.claims) && AllHeld(c.run, key, a.meta.uid, secrets)
    ensures err.None? ==> forall i :: 0 <= i < |a.body.aspec.claims| ==> a.body.aspec.claims[i].secretName in secrets
    ensures c.clock >= old(c.clock)
    ensures old(c.Calm()) && AllReservable(old(c.run).world, key, a) ==>
              err.None? && c.Calm() && Current(c.run.world, key, a) && AllCurrent(c.run.world, key, secrets)
  {
    hide Permitted, Enabled, Conforms, IsRun, OnlyOthers, Serving, SecretHeld, SameBut, AllCurrent, Reservable,
         AllHeld, ReservedUpTo, UniqueSecrets;
    var claims := a.body.aspec.claims;
    var errs: seq<Error> := [];
    secrets := map[];
    ghost var w0, good := c.run.world, c.Calm() && AllReservable(c.run.world, key, a);
    NothingWritten(c.run, key, a.meta.uid, claims);
    OthersRefl(AccessSidecar(driver, key), c.run);
    OthersKeepServing(c.run, c.run, driver, key, a);
    for i := 0 to |claims|
      invariant c.Valid() && Holds(c.run.world, driver, key, a) && Serving(old(c.run), c.run, driver, key, a, {})
      invariant AllHeld(c.run, key, a.meta.uid, secrets) && c.clock >= old(c.clock)
      invariant errs == [] ==> ReservedUpTo(claims, i, secrets)
      invariant good ==> errs == [] && c.Calm() && SameBut(w0, c.run.world, RefsOf(key, secrets))
      invariant good ==> AllCurrent(c.run.world, key, secrets)
    {
      var name := claims[i].secretName;
      if errs == [] { ReservedNext(claims, i, secrets, a); }
      if name in secrets {
        errs := errs + [NonRetryable(Plain)];
      } else {
        ghost var r1 := c.run;
        if good { StillReservable(w0, r1.world, key, a, secrets, name); }
        var res := ReserveOne(c, driver, key, a, name);
        ServingOn(old(c.run), r1, c.run, driver, key, a, {}, {});
        ServingHolds(r1, c.run, driver, key, a, {});
        AllStayHeld(r1, c.run, driver, key, a, secrets);
        if good { OneMoreCurrent(w0, r1.world, c.run.world, key, secrets, name, res.secret); }
        match res {
          case NotMade(e) => errs := errs + [e];
          case Made(s) =>
            if errs == [] { ReservedNext(claims, i, secrets, s); }
            HeldMore(c.run, key, a.meta.uid, secrets, name, s);
            secrets := secrets[name := s];
        }
      }
    }
    if errs != [] { return map[], Some(Wrapped(Joined(errs))); }
    ReservedAll(claims, secrets);
    if |secrets| != |claims| { assert false; }
    if good { AccessUntouched(w0, c.run.world, key, a, secrets); }
    err := None;
  }

  lemma ReservedAll(claims: seq<ClaimAccess>, secrets: map<string, Object>)
    requires ReservedUpTo(claims, |claims|, secrets)
    ensures UniqueSecrets(claims) && |secrets| == |claims|
    ensures forall i :: 0 <= i < |claims| ==> claims[i].secretName in secrets
  {
  }

  lemma HeldMore(r: Run, key: Ref, uid: Uid, secrets: map<string, Object>, name: string, s: Object)
    requires AllHeld(r, key, uid, secrets) && SecretHeld(r, key, uid, name, s)
    ensures AllHeld(r, key, uid, secrets[name := s])
  {
  }

  lemma NothingWritten(r: Run, key: Ref, uid: Uid, claims: seq<ClaimAccess>)
    ensures SameBut(r.world, r.world, RefsOf(key, map[])) && AllCurrent(r.world, key, map[])
    ensures AllHeld(r, key, uid, map[]) && ReservedUpTo(claims, 0, map[])
  {
  }

  lemma AccessUntouched(w: World, w': World, key: Ref, a: Object, secrets: map<string, Object>)
    requires Current(w, key, a) && SameBut(w, w', RefsOf(key, secrets)) && key.kind == AccessKind
    ensures Current(w', key, a)
  {
  }
}
