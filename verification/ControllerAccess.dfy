/** The Controller's BucketAccess reconciler. */
module ControllerAccess {
  import opened Objects
  import opened Errors
  import opened Handoff
  import opened Runs
  import opened Rules
  import opened Invariants
  import opened Clusters
  import opened Rely
  import opened ControllerRely
  import opened ControllerChecks
  import opened ControllerMarks
  import opened ControllerEvidence

  // Deletion

  /** Another access of the namespace references the claim. */
  ghost predicate ReferencedElsewhere(w: World, key: Ref, name: string) {
    exists k :: k in w.objs && k != key && References(w, k, key.ns, name)
  }

  ghost predicate KeySettled(w: World, key: Ref) {
    key in w.objs && w.objs[key].body.Access? ==> w.objs[key].body.astatus.driverName == "" || w.objs[key].meta.deleting
  }

  lemma KeySettledStep(r: Run, e: Event, key: Ref)
    requires Enabled(r, e) && !e.actor.AccessController? && KeySettled(r.world, key)
    ensures KeySettled(After(r.world, e), key)
  {
    hide Permitted;
    if e.Change? && e.ref == key && e.now.Some? && e.now.value.body.Access? {
      OthersInitialiseNothing(r, e.actor, key, e.now.value);
    }
  }

  lemma {:induction false} StaysSettled(p: Run, r: Run, key: Ref)
    requires IsRun(r) && OnlyOthers(AccessController(key), p, r) && KeySettled(p.world, key)
    ensures KeySettled(r.world, key)
  {
    hide Permitted, Enabled, KeySettled;
    if p != r {
      StaysSettled(p, r.prev, key);
      KeySettledStep(r.prev, r.event, key);
    }
  }

  /** What the list says about a claim is what the cluster says. */
  lemma ListIsFaithful(w: World, key: Ref, items: map<Ref, Object>, name: string)
    requires Basic(w) && key.kind == AccessKind && KeySettled(w, key)
    requires forall k :: k in items <==> k in w.objs && k.kind == AccessKind && k.ns == key.ns
    requires forall k :: k in items ==> items[k] == w.objs[k]
    ensures NamedElsewhere(items, name, key.name) <==> ReferencedElsewhere(w, key, name)
    ensures !NamedElsewhere(items, name, key.name) ==> Unreferenced(w, key, key.ns, name)
  {
    if ReferencedElsewhere(w, key, name) {
      var k :| k in w.objs && k != key && References(w, k, key.ns, name);
      assert k in items && k.name != key.name;
    }
    if !NamedElsewhere(items, name, key.name) {
      forall k | k in w.objs && References(w, k, key.ns, name)
        ensures w.objs[k].body.astatus.driverName == "" || (k == key && w.objs[k].meta.deleting)
      {
        assert k in items;
      }
    }
  }

  lemma ListedAreAccesses(w: World, items: map<Ref, Object>)
    requires Basic(w) && forall k :: k in items ==> k in w.objs && k.kind == AccessKind && items[k] == w.objs[k]
    ensures forall k :: k in items ==> items[k].body.Access?
  {
  }

  lemma SafeRemove(r: Run, key: Ref, a: Object)
    requires IsRun(r) && key.kind == AccessKind && Seen(r, key, a) && a.body.Access? && a.meta.deleting
    requires !ManagedBySidecar(a)
    requires UpdateApplies(r.world, key, WithoutFinalizer(a))
    ensures key in r.world.objs && r.world.objs[key] == a
    ensures Updated(a, WithoutFinalizer(a)) == Settled(WithoutFinalizer(a))
    ensures Enabled(r, Change(AccessController(key), key, Settled(WithoutFinalizer(a))))
  {
    hide IsRun, Seen;
    SeenIsCurrent(r, key, a);
  }

  lemma OwnAccessStepSettles(p: Run, r: Run, key: Ref, claims: Claims, items: map<Ref, Object>, now: Option<Object>)
    requires SettledBut(p, r, key, claims, items, {}) && key.kind == AccessKind
    ensures SettledBut(p, Extend(r, Change(AccessController(key), key, now)), key, claims, items, {})
  {
    forall name | name in claims
      ensures MarkSettled(p, Extend(r, Change(AccessController(key), key, now)), key, name,
                          NamedElsewhere(items, name, key.name))
    {
      assert MarkSettled(p, r, key, name, NamedElsewhere(items, name, key.name));
    }
  }

  lemma SettledOthers(p: Run, q: Run, r: Run, key: Ref, claims: Claims, items: map<Ref, Object>)
    requires SettledBut(p, q, key, claims, items, {}) && Quiet(q, r, key, {})
    ensures SettledBut(p, r, key, claims, items, {})
  {
    hide Quiet, MarkSettled, NamedElsewhere;
    forall name | name in claims ensures MarkSettled(p, r, key, name, NamedElsewhere(items, name, key.name)) {
      SettledLater(p, q, r, key, {}, name, NamedElsewhere(items, name, key.name));
    }
  }

  method RemoveFinalizer(c: Cluster, key: Ref, a: Object, ghost p: Run, ghost claims: Claims,
                         ghost items: map<Ref, Object>)
    returns (err: Option<Error>)
    requires c.Valid() && key.kind == AccessKind && Seen(c.run, key, a) && a.body.Access? && a.meta.deleting
    requires !ManagedBySidecar(a)
    requires SettledBut(p, c.run, key, claims, items, {})
    modifies c
    ensures c.Valid() && Prefix(old(c.run), c.run) && Seen(c.run, key, a)
    ensures SettledBut(p, c.run, key, claims, items, {})
    ensures err.None? ==> key !in c.run.world.objs || !IsProtected(c.run.world.objs[key])
  {
    hide Permitted, Enabled, Conforms, UpdateApplies, Updated, IsRun, OnlyOthers, Seen, SettledBut, Quiet;
    var me := AccessController(key);
    ghost var r0 := c.run;
    c.Yield(me);
    ghost var r1 := c.run;
    OthersPrefix(me, r0, r1);
    SeenStays(me, r0, r1, key, a);
    QuietOthers(r0, r1, key);
    SettledOthers(p, r0, r1, key, claims, items);
    if UpdateApplies(c.run.world, key, WithoutFinalizer(a)) {
      SafeRemove(r1, key, a);
      OwnAccessStepSettles(p, r1, key, claims, items, Settled(WithoutFinalizer(a)));
    }
    var updated := c.Update(me, key, WithoutFinalizer(a));
    SeenLater(r1, c.run, key, a);
    err := if updated.Err? then Some(Wrapped(Plain)) else None;
  }

  /**
   * On success every referenced claim that was there before is marked exactly if it was marked before and
   * another access referenced it when the accesses were listed (at `q`).
   */
  method ReconcileDelete(c: Cluster, key: Ref, a: Object) returns (err: Option<Error>, ghost q: Run)
    requires c.Valid() && key.kind == AccessKind && key in c.run.world.objs && c.run.world.objs[key] == a
    requires a.body.Access? && a.meta.deleting && !ManagedBySidecar(a)
    modifies c
    ensures c.Valid() && Prefix(old(c.run), c.run) && Seen(c.run, key, a)
    ensures err.None? ==> Prefix(old(c.run), q) && Prefix(q, c.run)
    ensures err.None? ==> forall i :: 0 <= i < |a.body.aspec.claims| ==>
              MarkSettled(old(c.run), c.run, key, a.body.aspec.claims[i].claimName,
                          ReferencedElsewhere(q.world, key, a.body.aspec.claims[i].claimName))
    ensures err.None? ==> key !in c.run.world.objs || !IsProtected(c.run.world.objs[key])
  {
    hide Permitted, Enabled, IsRun, OnlyOthers, Quiet, MarkSettled, NamedElsewhere, ReferencedElsewhere, Prefix,
         KeySettled, AllRead, Seen, Unreferenced, SettledBut, NamesClaim, Basic;
    var me := AccessController(key);
    ghost var r0 := c.run;
    SeenNow(r0, key);
    SettledHere(r0.world, key);
    var claims;
    claims, err := GetAllBucketClaims(c, key, a.body.aspec.claims);
    ghost var r1 := c.run;
    q := r1;
    OthersPrefix(me, r0, r1);
    SeenStays(me, r0, r1, key, a);
    if err.Some? { return; }
    var list := c.ListAccesses(me, key.ns);
    q := c.run;
    OthersTransitive(me, r0, r1, q);
    OthersPrefix(me, r0, q);
    SeenStays(me, r0, q, key, a);
    if list.ListFailed? { return Some(Plain), q; }
    QuietOthers(r1, q, key);
    AllReadStay(r0, r1, q, key, claims);
    StaysSettled(r0, q, key);
    BasicHolds(q);
    ListedAreAccesses(q.world, list.items);
    forall name
      ensures NamedElsewhere(list.items, name, key.name) <==> ReferencedElsewhere(q.world, key, name)
      ensures !NamedElsewhere(list.items, name, key.name) ==> Unreferenced(q.world, key, key.ns, name)
    {
      ListIsFaithful(q.world, key, list.items, name);
    }
    err := UnmarkUnaccessed(c, key, claims, list.items, r0);
    ghost var r3 := c.run;
    PrefixTransitive(r0, q, r3);
    SeenLater(q, r3, key, a);
    if err.Some? { return; }
    err := RemoveFinalizer(c, key, a, r0, claims, list.items);
    PrefixTransitive(q, r3, c.run);
    PrefixTransitive(r0, r3, c.run);
    SettledClaims(r0, c.run, q.world, key, a.body.aspec.claims, claims, list.items);
  }

  lemma SettledClaims(p: Run, r: Run, w: World, key: Ref, list: seq<ClaimAccess>, claims: Claims,
                      items: map<Ref, Object>)
    requires SettledBut(p, r, key, claims, items, {}) && forall name :: name in claims <==> NamesClaim(list, name)
    requires forall name :: NamedElsewhere(items, name, key.name) <==> ReferencedElsewhere(w, key, name)
    ensures forall i :: 0 <= i < |list| ==>
              MarkSettled(p, r, key, list[i].claimName, ReferencedElsewhere(w, key, list[i].claimName))
  {
    hide MarkSettled, NamedElsewhere, ReferencedElsewhere;
    forall i | 0 <= i < |list|
      ensures MarkSettled(p, r, key, list[i].claimName, ReferencedElsewhere(w, key, list[i].claimName))
    {
      assert NamesClaim(list, list[i].claimName);
    }
  }

  lemma SettledHere(w: World, key: Ref)
    requires key in w.objs && w.objs[key].meta.deleting
    ensures KeySettled(w, key)
  {
  }

  // Initialisation

  lemma SafeProtect(r: Run, key: Ref, a: Object)
    requires IsRun(r) && key.kind == AccessKind && Seen(r, key, a) && a.body.Access? && !a.meta.deleting
    requires !ManagedBySidecar(a)
    requires UpdateApplies(r.world, key, WithFinalizer(a))
    ensures key in r.world.objs && r.world.objs[key] == a && Updated(a, WithFinalizer(a)) == Some(WithFinalizer(a))
    ensures Enabled(r, Change(AccessController(key), key, Some(WithFinalizer(a))))
  {
    hide IsRun, Seen;
    SeenIsCurrent(r, key, a);
  }

  /** The access as read, but for its version and protection. */
  ghost predicate ProtectedCopy(a: Object, b: Object) {
    b.body == a.body && b.meta.uid == a.meta.uid && IsProtected(b) && b.meta.deleting == a.meta.deleting
      && b.meta.annotations == a.meta.annotations
  }

  method ProtectAccess(c: Cluster, key: Ref, a: Object) returns (acc: Object, err: Option<Error>)
    requires c.Valid() && key.kind == AccessKind && Seen(c.run, key, a) && a.body.Access? && !a.meta.deleting
    requires !ManagedBySidecar(a)
    modifies c
    ensures c.Valid() && Prefix(old(c.run), c.run)
    ensures err.None? ==> Seen(c.run, key, acc) && ProtectedCopy(a, acc)
    ensures err.Some? ==> acc == WithFinalizer(a) && Seen(c.run, key, a)
  {
    hide Permitted, Enabled, Conforms, UpdateApplies, Updated, IsRun, OnlyOthers;
    if IsProtected(a) { return a, None; }
    var me := AccessController(key);
    ghost var r0 := c.run;
    c.Yield(me);
    ghost var r1 := c.run;
    OthersPrefix(me, r0, r1);
    SeenStays(me, r0, r1, key, a);
    if UpdateApplies(c.run.world, key, WithFinalizer(a)) { SafeProtect(r1, key, a); }
    var updated := c.Update(me, key, WithFinalizer(a));
    match updated
    case Ok(o) => acc, err := o, None;
    case Err(_) => acc, err := WithFinalizer(a), Some(Wrapped(Plain));
  }

  /** The Bucket that a bound claim names, as it was read. */
  ghost predicate BucketOf(r: Run, claim: Option<Object>, found: Option<Found>) {
    && (claim.Some? ==> claim.value.body.Claim?)
    && (found.Some? <==> claim.Some? && claim.value.body.cstatus.bound != "")
    && (found.Some? ==>
         && found.value.name == claim.value.body.cstatus.bound && found.value.obj.body.Bucket?
         && Seen(r, BucketRef(found.value.name), found.value.obj))
  }

  ghost predicate BucketsOf(r: Run, claims: Claims, buckets: Buckets) {
    forall name :: name in buckets ==> name in claims && BucketOf(r, claims[name], buckets[name])
  }

  lemma BucketsOfStay(me: Actor, p: Run, r: Run, claims: Claims, buckets: Buckets)
    requires OnlyOthers(me, p, r) && BucketsOf(p, claims, buckets)
    ensures BucketsOf(r, claims, buckets)
  {
    hide Seen, OnlyOthers;
    forall name | name in buckets ensures BucketOf(r, claims[name], buckets[name]) {
      assert BucketOf(p, claims[name], buckets[name]);
      if buckets[name].Some? { SeenStays(me, p, r, BucketRef(buckets[name].value.name), buckets[name].value.obj); }
    }
  }

  method GetBucket(c: Cluster, key: Ref, claim: Option<Object>) returns (found: Option<Found>, err: Option<Error>)
    requires c.Valid() && (claim.Some? ==> claim.value.body.Claim?)
    modifies c
    ensures c.Valid() && OnlyOthers(AccessController(key), old(c.run), c.run)
    ensures err.None? ==> BucketOf(c.run, claim, found)
  {
    hide Permitted, Enabled, IsRun, OnlyOthers, Seen;
    OthersRefl(AccessController(key), c.run);
    if claim.None? || claim.value.body.cstatus.bound == "" { return None, None; }
    var bound := claim.value.body.cstatus.bound;
    var got := c.Get(AccessController(key), BucketRef(bound));
    match got
    case Err(MissingError) => return None, Some(NonRetryable(Plain));
    case Err(_) => return None, Some(Plain);
    case Ok(o) =>
      BasicHolds(c.run);
      SeenNow(c.run, BucketRef(bound));
      return Some(Found(bound, o)), None;
  }

  method GetBuckets(c: Cluster, key: Ref, claims: Claims) returns (buckets: Buckets, err: Option<Error>)
    requires c.Valid() && AllClaims(claims)
    modifies c
    ensures c.Valid() && OnlyOthers(AccessController(key), old(c.run), c.run)
    ensures err.None? ==> Fetched(claims, buckets) && SeenBuckets(c.run, claims, buckets)
  {
    hide Permitted, Enabled, IsRun, OnlyOthers, Seen, BucketOf, SeenBuckets, Fetched;
    var me := AccessController(key);
    ghost var r0 := c.run;
    OthersRefl(AccessController(key), r0);
    buckets := map[];
    var errs: seq<Error> := [];
    var todo := claims.Keys;
    while todo != {}
      invariant todo <= claims.Keys && c.Valid() && OnlyOthers(me, r0, c.run) && BucketsOf(c.run, claims, buckets)
      invariant errs == [] ==> buckets.Keys == claims.Keys - todo
      decreases |todo|
    {
      var name :| name in todo;
      todo := todo - {name};
      ghost var r1 := c.run;
      var found, failure := GetBucket(c, key, claims[name]);
      OthersTransitive(me, r0, r1, c.run);
      BucketsOfStay(me, r1, c.run, claims, buckets);
      if failure.Some? {
        errs := errs + [failure.value];
      } else {
        buckets := buckets[name := found];
      }
    }
    if errs != [] { return map[], Some(Wrapped(Joined(errs))); }
    if |buckets| != |claims| {
      SameKeysSameSize(claims, buckets);
      assert false;
    }
    AllFetched(c.run, claims, buckets);
    err := None;
  }

  lemma AllFetched(r: Run, claims: Claims, buckets: Buckets)
    requires AllClaims(claims) && BucketsOf(r, claims, buckets) && buckets.Keys == claims.Keys
    ensures Fetched(claims, buckets) && SeenBuckets(r, claims, buckets)
  {
    hide Seen;
  }

  lemma SameKeysSameSize(claims: Claims, buckets: Buckets)
    requires buckets.Keys == claims.Keys
    ensures |buckets| == |claims|
  {
    assert |buckets| == |buckets.Keys| && |claims| == |claims.Keys|;
  }

  /** The claims, all of them marked if they exist. */
  method GatherClaims(c: Cluster, key: Ref, list: seq<ClaimAccess>) returns (claims: Claims, err: Option<Error>)
    requires c.Valid() && key.kind == AccessKind
    modifies c
    ensures c.Valid() && Prefix(old(c.run), c.run)
    ensures err.None? ==> KnownAll(c.run, key, claims) && MarkedBut(c.run.world, key, claims, {})
    ensures err.None? ==> UniqueClaims(list) && AllClaims(claims)
    ensures err.None? ==> forall name :: name in claims <==> NamesClaim(list, name)
  {
    hide Permitted, Enabled, IsRun, OnlyOthers, Quiet, KnownAll, MarkedBut, AllRead, UniqueClaims, NamesClaim, Prefix;
    ghost var r0 := c.run;
    OthersRefl(AccessController(key), r0);
    OthersPrefix(AccessController(key), r0, r0);
    claims := map[];
    var _, failure := ValidateUnique(list);
    if failure.Some? { return claims, failure; }
    claims, err := GetAllBucketClaims(c, key, list);
    ghost var r1 := c.run;
    OthersPrefix(AccessController(key), r0, r1);
    if err.Some? { return; }
    ReadAreKnown(r0, r1, key, claims);
    err := MarkAll(c, key, claims, r0);
    QuietPrefix(r1, c.run, key, RefsOf(key, claims));
    PrefixTransitive(r0, r1, c.run);
  }

  lemma GatheredClaimsStay(p: Run, r: Run, key: Ref, claims: Claims)
    requires KnownAll(p, key, claims) && MarkedBut(p.world, key, claims, {}) && Quiet(p, r, key, {})
    ensures KnownAll(r, key, claims) && MarkedBut(r.world, key, claims, {})
  {
    hide MarkIs, Unreferenced, Prefix, Seen;
    KnownAllLater(p, r, key, {}, claims);
    forall name | name in claims && claims[name].Some?
      ensures MarkIs(r.world, ClaimRefOf(key, name), claims[name].value.meta.uid, true)
    {
      assert Known(p, key, name, claims[name].value);
    }
  }

  /** The class of the access had this content and allowed the access. */
  ghost predicate Permits(r: Run, spec: AccessSpec, cls: AccessClassSpec) {
    forall s: AccessStatus | s.driverName == cls.driverName && s.auth == cls.auth && s.params == cls.params ::
        EverAllowed(r, spec, s)
  }

  lemma ReadPermits(r: Run, spec: AccessSpec, o: Object)
    requires Seen(r, Ref(AccessClassKind, "", spec.className), o) && o.body.AccessClass?
    requires Allowed(o.body.classSpec, spec)
    ensures Permits(r, spec, o.body.classSpec)
  {
    forall s: AccessStatus
        | s.driverName == o.body.classSpec.driverName && s.auth == o.body.classSpec.auth
          && s.params == o.body.classSpec.params
      ensures EverAllowed(r, spec, s)
    {
      SeenAllows(r, spec, o, s);
    }
  }

  lemma {:induction false} AllowedLater(me: Actor, p: Run, r: Run, spec: AccessSpec, s: AccessStatus)
    requires OnlyOthers(me, p, r) && EverAllowed(p, spec, s)
    ensures EverAllowed(r, spec, s)
  {
    if p != r { AllowedLater(me, p, r.prev, spec, s); }
  }

  lemma PermitsLater(me: Actor, p: Run, r: Run, spec: AccessSpec, cls: AccessClassSpec)
    requires OnlyOthers(me, p, r) && Permits(p, spec, cls)
    ensures Permits(r, spec, cls)
  {
    hide OnlyOthers, EverAllowed;
    forall s: AccessStatus | s.driverName == cls.driverName && s.auth == cls.auth && s.params == cls.params
      ensures EverAllowed(r, spec, s)
    {
      AllowedLater(me, p, r, spec, s);
    }
  }

  method GetClass(c: Cluster, key: Ref, spec: AccessSpec) returns (cls: Option<AccessClassSpec>, err: Option<Error>)
    requires c.Valid()
    modifies c
    ensures c.Valid() && OnlyOthers(AccessController(key), old(c.run), c.run)
    ensures err.None? ==> cls.Some? && Permits(c.run, spec, cls.value) && cls.value.driverName != ""
    ensures err.None? ==> cls.value.auth != NoAuth
  {
    hide Permitted, Enabled, IsRun, OnlyOthers;
    cls := None;
    var ref := Ref(AccessClassKind, "", spec.className);
    var got := c.Get(AccessController(key), ref);
    if got.Err? { return None, Some(Plain); }
    BasicHolds(c.run);
    SeenClassGood(c.run, ref, got.obj);
    var failure := ValidateAgainstClass(got.obj.body.classSpec, spec);
    if failure.Some? { return None, Some(NonRetryable(failure.value)); }
    ReadPermits(c.run, spec, got.obj);
    cls, err := Some(got.obj.body.classSpec), None;
  }

  /** Reads and checks everything that initialisation depends on, after the claims are marked. */
  method GatherBuckets(c: Cluster, key: Ref, spec: AccessSpec, claims: Claims)
    returns (cls: Option<AccessClassSpec>, accessed: seq<AccessedBucket>, ghost buckets: Buckets, err: Option<Error>)
    requires c.Valid() && key.kind == AccessKind && KnownAll(c.run, key, claims)
    requires MarkedBut(c.run.world, key, claims, {}) && AllClaims(claims)
    requires forall name :: name in claims <==> NamesClaim(spec.claims, name)
    modifies c
    ensures c.Valid() && OnlyOthers(AccessController(key), old(c.run), c.run)
    ensures err.None? ==> Gathered(c.run, key, spec, claims, buckets, accessed)
    ensures err.None? ==> cls.Some? && Permits(c.run, spec, cls.value) && cls.value.driverName != ""
    ensures err.None? ==> cls.value.auth != NoAuth
  {
    hide Permitted, Enabled, IsRun, OnlyOthers, Quiet, KnownAll, MarkedBut, SeenBuckets, NamesClaim, Fetched, Blocks,
         WaitsFor, Permits;
    var me := AccessController(key);
    ghost var r0 := c.run;
    accessed, buckets := [], map[];
    cls, err := GetClass(c, key, spec);
    if err.Some? { return; }
    ghost var r1 := c.run;
    var found;
    found, err := GetBuckets(c, key, claims);
    buckets := found;
    OthersTransitive(me, r0, r1, c.run);
    if err.Some? { return; }
    QuietOthers(r0, c.run, key);
    GatheredClaimsStay(r0, c.run, key, claims);
    PermitsLater(me, r1, c.run, spec, cls.value);
    FetchedBuckets(claims, found);
    var blockers := CannotAccess(claims, spec.protocol);
    if blockers != [] {
      err := Some(NonRetryable(Plain));
      return;
    }
    var waits := WaitingOn(claims, found);
    if waits != [] {
      err := Some(Plain);
      return;
    }
    forall i | 0 <= i < |spec.claims| ensures spec.claims[i].claimName in claims { NamedAt(spec.claims, i); }
    NothingMissing(claims, found, spec.claims);
    accessed, err := CompileAccessed(spec.claims, found);
    if err.Some? { assert false; }
  }

  lemma NamedAt(list: seq<ClaimAccess>, i: nat)
    requires i < |list|
    ensures NamesClaim(list, list[i].claimName)
  {
  }

  lemma FetchedBuckets(claims: Claims, buckets: Buckets)
    requires Fetched(claims, buckets)
    ensures AllBuckets(buckets)
  {
  }

  /** The hard stop and the two internal errors are not reached: what the Controller manages is uninitialised. */
  lemma UnmanagedIsUninitialised(r: Run, key: Ref)
    requires IsRun(r) && key.kind == AccessKind && key in r.world.objs && r.world.objs[key].body.Access?
    requires !r.world.objs[key].meta.deleting && !ManagedBySidecar(r.world.objs[key])
    ensures SidecarRequirements(r.world.objs[key].body.astatus).Absent? && r.world.objs[key].body.aspec.claims != []
  {
    hide Permitted, Enabled, IsRun;
    AccessHolds(r, key);
  }

  lemma InitialisedRecordable(r: Run, key: Ref, a: Object, claims: Claims, buckets: Buckets,
                              accessed: seq<AccessedBucket>, cls: AccessClassSpec)
    requires IsRun(r) && Seen(r, key, a) && a.body.Access? && !a.meta.deleting && IsProtected(a) && !ManagedBySidecar(a)
    requires a.body.astatus.driverName == "" && UniqueClaims(a.body.aspec.claims) && a.body.aspec.claims != []
    requires cls.driverName != "" && cls.auth != NoAuth && Gathered(r, key, a.body.aspec, claims, buckets, accessed)
    requires Permits(r, a.body.aspec, cls)
    ensures Recordable(r, key, Initialised(a, accessed, cls))
  {
    hide Permitted, Enabled, IsRun, Seen, Initialises, Gathered, UniqueClaims, EverAllowed;
    VersionsGrow(r, key, a);
    GatheredInitialises(r, key, a, claims, buckets, accessed, cls);
  }

  /** The access belongs to the Sidecar of the class's driver, with all it needs. */
  ghost predicate HandedOff(w: World, key: Ref, uid: Uid) {
    && key in w.objs && w.objs[key].body.Access? && w.objs[key].meta.uid == uid && ManagedBySidecar(w.objs[key])
    && SidecarRequirements(w.objs[key].body.astatus).Present?
    && Aligned(w.objs[key].body.aspec, w.objs[key].body.astatus)
    && w.objs[key].body.astatus.ready.Some? && !w.objs[key].body.astatus.failed
  }

  lemma WrittenHandsOff(r: Run, key: Ref, a: Object, accessed: seq<AccessedBucket>, cls: AccessClassSpec)
    requires IsRun(r) && r.More? && key.kind == AccessKind && Seen(r.prev, key, a) && a.body.Access? && !a.meta.deleting
    requires cls.driverName != "" && StatusApplies(r.prev.world, key, Initialised(a, accessed, cls))
    requires r.event ==
        Change(AccessController(key), key, StatusUpdated(r.prev.world.objs[key], Initialised(a, accessed, cls)))
    ensures HandedOff(r.world, key, a.meta.uid)
  {
    hide Permitted, Enabled, Seen;
    SeenIsCurrent(r.prev, key, a);
    AccessHolds(r, key);
  }

  method FinishInitialisation(c: Cluster, key: Ref, a: Object, claims: Claims) returns (acc: Object, err: Option<Error>)
    requires c.Valid() && key.kind == AccessKind && Seen(c.run, key, a) && a.body.Access? && !a.meta.deleting
    requires IsProtected(a)
    requires !ManagedBySidecar(a) && a.body.astatus.driverName == "" && UniqueClaims(a.body.aspec.claims)
    requires a.body.aspec.claims != []
    requires KnownAll(c.run, key, claims) && MarkedBut(c.run.world, key, claims, {}) && AllClaims(claims)
    requires forall name :: name in claims <==> NamesClaim(a.body.aspec.claims, name)
    modifies c
    ensures c.Valid() && Prefix(old(c.run), c.run)
    ensures err.None? ==> HandedOff(c.run.world, key, a.meta.uid)
    ensures err.Some? ==> Recordable(c.run, key, acc)
  {
    hide Permitted, Enabled, IsRun, OnlyOthers, Seen, Recordable, HandedOff, KnownAll, MarkedBut, Gathered,
         UniqueClaims, NamesClaim, Prefix, StatusApplies, StatusUpdated, Permits;
    ghost var r0 := c.run;
    acc := a;
    var cls, accessed;
    ghost var buckets;
    cls, accessed, buckets, err := GatherBuckets(c, key, a.body.aspec, claims);
    ghost var r1 := c.run;
    OthersPrefix(AccessController(key), r0, r1);
    SeenStays(AccessController(key), r0, r1, key, a);
    ReadRecordable(r1, key, a);
    if err.Some? { return; }
    InitialisedRecordable(r1, key, a, claims, buckets, accessed, cls.value);
    acc := Initialised(a, accessed, cls.value);
    var written := WriteStatus(c, key, acc);
    PrefixTransitive(r0, r1, c.run);
    if written.Err? {
      err := Some(Plain);
      return;
    }
    SeenStays(AccessController(key), r1, c.run.prev, key, a);
    WrittenHandsOff(c.run, key, a, accessed, cls.value);
  }

  lemma CopyRecordable(r: Run, key: Ref, a: Object)
    requires Recordable(r, key, a)
    ensures Recordable(r, key, WithFinalizer(a))
  {
  }

  method Initialise(c: Cluster, key: Ref, a: Object) returns (acc: Object, err: Option<Error>)
    requires c.Valid() && key.kind == AccessKind && key in c.run.world.objs && c.run.world.objs[key] == a
    requires a.body.Access? && !a.meta.deleting && !ManagedBySidecar(a)
    modifies c
    ensures c.Valid() && Prefix(old(c.run), c.run)
    ensures err.None? ==> HandedOff(c.run.world, key, a.meta.uid)
    ensures err.Some? ==> Recordable(c.run, key, acc)
  {
    hide Permitted, Enabled, IsRun, OnlyOthers, Seen, Recordable, HandedOff, KnownAll, MarkedBut, UniqueClaims,
         NamesClaim, Prefix;
    ghost var r0 := c.run;
    UnmanagedIsUninitialised(r0, key);
    var requirements := SidecarRequirements(a.body.astatus);
    if requirements.Degraded? { assert false; }
    if requirements.Present? { assert false; }
    SeenNow(r0, key);
    acc, err := ProtectAccess(c, key, a);
    ghost var r1 := c.run;
    if err.Some? {
      ReadRecordable(r1, key, a);
      CopyRecordable(r1, key, a);
      return;
    }
    var claims;
    claims, err := GatherClaims(c, key, acc.body.aspec.claims);
    ghost var r2 := c.run;
    PrefixTransitive(r0, r1, r2);
    SeenLater(r1, r2, key, acc);
    ReadRecordable(r2, key, acc);
    if err.Some? { return; }
    if |acc.body.astatus.accessed| > 0 { assert false; }
    acc, err := FinishInitialisation(c, key, acc, claims);
    PrefixTransitive(r0, r2, c.run);
  }

  // The reconciler

  /** It is terminal exactly if the error is tagged and the record was stored. */
  method RecordFailure(c: Cluster, key: Ref, acc: Object, err: Error) returns (out: Outcome, ghost stored: bool)
    requires c.Valid() && key.kind == AccessKind && Recordable(c.run, key, acc)
    modifies c
    ensures c.Valid() && Prefix(old(c.run), c.run)
    ensures out == if stored && IsNonRetryable(err) then Terminal else Retry
    ensures stored ==> key in c.run.world.objs && c.run.world.objs[key].body.Access?
    ensures stored ==> c.run.world.objs[key].body.astatus == Failed(acc).body.astatus
  {
    hide Permitted, Enabled, IsRun, Prefix, OnlyOthers, ControllerSetsStatus;
    FailedRecordable(c.run, key, acc);
    var written := WriteStatus(c, key, Failed(acc));
    if written.Err? { return Retry, false; }
    return if IsNonRetryable(Wrapped(err)) then Terminal else Retry, true;
  }

  /**
   * Whatever others do meanwhile, a reconcile only takes steps that the protocol allows. When it reports
   * success for an access it managed, the access is handed off, or its protection is gone.
   */
  method Reconcile(c: Cluster, key: Ref) returns (out: Outcome, ghost managed: Option<Uid>)
    requires c.Valid() && key.kind == AccessKind
    modifies c
    ensures c.Valid() && Prefix(old(c.run), c.run)
    ensures out == Done && managed.Some? ==>
              || HandedOff(c.run.world, key, managed.value)
              || key !in c.run.world.objs || !IsProtected(c.run.world.objs[key])
    ensures out != Retry && managed.None? ==> OnlyOthers(AccessController(key), old(c.run), c.run)
  {
    hide Permitted, Enabled, IsRun, OnlyOthers, Recordable, HandedOff, Prefix, MarkSettled, ReferencedElsewhere, Seen;
    ghost var r0 := c.run;
    managed := None;
    var me := AccessController(key);
    var got := c.Get(me, key);
    ghost var r1 := c.run;
    OthersPrefix(me, r0, r1);
    if got == Err(MissingError) { return Done, None; }
    if got.Err? { return Retry, None; }
    BasicHolds(c.run);
    var a := got.obj;
    if ManagedBySidecar(a) { return Done, None; }
    managed := Some(a.meta.uid);
    var acc, err := a, None;
    if a.meta.deleting {
      ghost var q;
      err, q := ReconcileDelete(c, key, a);
      ReadRecordable(c.run, key, a);
    } else {
      acc, err := Initialise(c, key, a);
    }
    PrefixTransitive(r0, r1, c.run);
    if err.None? { return Done, managed; }
    ghost var r2 := c.run;
    ghost var stored;
    out, stored := RecordFailure(c, key, acc, Wrapped(err.value));
    PrefixTransitive(r0, r2, c.run);
  }
}
