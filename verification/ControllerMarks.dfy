/** Reading, marking and unmarking the claims that a BucketAccess references. */
module ControllerMarks {
  import opened Objects
  import opened Errors
  import opened Runs
  import opened Rules
  import opened Invariants
  import opened Marks
  import opened Clusters
  import opened Rely
  import opened ControllerRely
  import opened ControllerChecks

  /** From `p` to `r` marks changed on `written` only, and no claim of the access got a new initialised reference. */
  ghost predicate Quiet(p: Run, r: Run, key: Ref, written: set<Ref>) {
    && Prefix(p, r) && p.world.uids <= r.world.uids
    && (forall claim: Ref, uid: Uid, m: bool ::
         claim.kind == ClaimKind && claim !in written && uid in p.world.uids && MarkIs(p.world, claim, uid, m) ==>
           MarkIs(r.world, claim, uid, m))
    && (forall ns, name :: Unreferenced(p.world, key, ns, name) ==> Unreferenced(r.world, key, ns, name))
  }

  lemma QuietOn(p: Run, q: Run, r: Run, key: Ref, x: set<Ref>, y: set<Ref>)
    requires Quiet(p, q, key, x) && Quiet(q, r, key, y)
    ensures Quiet(p, r, key, x + y)
    ensures y <= x ==> Quiet(p, r, key, x)
  {
    hide MarkIs, Unreferenced;
    PrefixTransitive(p, q, r);
    forall claim: Ref, uid: Uid, m: bool
        | claim.kind == ClaimKind && claim !in x + y && uid in p.world.uids && MarkIs(p.world, claim, uid, m)
      ensures MarkIs(r.world, claim, uid, m)
    {
      assert MarkIs(q.world, claim, uid, m);
    }
  }

  lemma {:induction false} OthersAddUids(me: Actor, p: Run, r: Run)
    requires IsRun(r) && OnlyOthers(me, p, r)
    ensures p.world.uids <= r.world.uids
  {
    hide Permitted, Enabled;
    if p != r { OthersAddUids(me, p, r.prev); }
  }

  lemma QuietOthers(p: Run, r: Run, key: Ref)
    requires IsRun(r) && OnlyOthers(AccessController(key), p, r)
    ensures Quiet(p, r, key, {})
  {
    hide Permitted, Enabled, IsRun, OnlyOthers, MarkIs, Unreferenced;
    OthersPrefix(AccessController(key), p, r);
    OthersAddUids(AccessController(key), p, r);
    forall claim: Ref, uid: Uid, m: bool
        | claim.kind == ClaimKind && uid in p.world.uids && MarkIs(p.world, claim, uid, m)
      ensures MarkIs(r.world, claim, uid, m)
    {
      MarkUntouched(key, p, r, claim, uid, m);
    }
    forall ns, name | Unreferenced(p.world, key, ns, name) ensures Unreferenced(r.world, key, ns, name) {
      StaysUnreferenced(key, p, r, ns, name);
    }
  }

  lemma QuietOwnClaim(p: Run, r: Run, key: Ref, x: set<Ref>, claim: Ref, n: Object)
    requires Quiet(p, r, key, x) && claim.kind == ClaimKind && claim in r.world.objs
    requires !r.world.objs[claim].body.Access? && !n.body.Access?
    ensures Quiet(p, Extend(r, Change(AccessController(key), claim, Some(n))), key, x + {claim})
  {
    var w' := After(r.world, Change(AccessController(key), claim, Some(n)));
    forall ns, name | Unreferenced(p.world, key, ns, name) ensures Unreferenced(w', key, ns, name) {
      assert Unreferenced(r.world, key, ns, name);
      assert forall k :: References(w', k, ns, name) ==> References(r.world, k, ns, name);
    }
  }

  // Reading

  lemma AbsentMarks(w: World, claim: Ref, uid: Uid)
    requires uid in w.uids
    ensures Lost(w, claim, uid) <==> MarkIs(w, claim, uid, true) && MarkIs(w, claim, uid, false)
  {
  }

  /** `o` is the claim as it was read between `p` and `r`; what was there at `p` kept its mark or is gone. */
  ghost predicate ReadClaim(p: Run, r: Run, key: Ref, name: string, o: Option<Object>) {
    var ref := ClaimRefOf(key, name);
    && (o.Some? ==>
         && o.value.body.Claim? && Seen(r, ref, o.value) && o.value.meta.uid in r.world.uids
         && MarkIs(r.world, ref, o.value.meta.uid, Marked(o.value)))
    && (ref in p.world.objs ==>
         if o.Some? && o.value.meta.uid == p.world.objs[ref].meta.uid then Marked(o.value) == Marked(p.world.objs[ref])
         else Lost(r.world, ref, p.world.objs[ref].meta.uid))
  }

  lemma ReadClaimStays(p: Run, q: Run, r: Run, key: Ref, written: set<Ref>, name: string, o: Option<Object>)
    requires ReadClaim(p, q, key, name, o) && Quiet(q, r, key, written) && ClaimRefOf(key, name) !in written
    ensures ReadClaim(p, r, key, name, o)
  {
    hide Unreferenced, Prefix;
    var ref := ClaimRefOf(key, name);
    if o.Some? { SeenLater(q, r, ref, o.value); }
    if ref in p.world.objs && !(o.Some? && o.value.meta.uid == p.world.objs[ref].meta.uid) {
      AbsentMarks(q.world, ref, p.world.objs[ref].meta.uid);
      AbsentMarks(r.world, ref, p.world.objs[ref].meta.uid);
      assert MarkIs(r.world, ref, p.world.objs[ref].meta.uid, true);
      assert MarkIs(r.world, ref, p.world.objs[ref].meta.uid, false);
    }
  }

  lemma ReadNow(p: Run, r: Run, key: Ref, name: string, o: Option<Object>)
    requires IsRun(p) && IsRun(r) && Quiet(p, r, key, {})
    requires o.Some? ==> ClaimRefOf(key, name) in r.world.objs && r.world.objs[ClaimRefOf(key, name)] == o.value
    requires o.None? ==> ClaimRefOf(key, name) !in r.world.objs
    ensures ReadClaim(p, r, key, name, o)
  {
    hide Permitted, Enabled, IsRun, Unreferenced, Prefix;
    BasicHolds(r);
    BasicHolds(p);
    var ref := ClaimRefOf(key, name);
    if ref in p.world.objs {
      assert MarkIs(p.world, ref, p.world.objs[ref].meta.uid, Marked(p.world.objs[ref]));
    }
  }

  ghost predicate AllRead(p: Run, r: Run, key: Ref, claims: Claims) {
    forall name :: name in claims ==> ReadClaim(p, r, key, name, claims[name])
  }

  lemma AllReadStay(p: Run, q: Run, r: Run, key: Ref, claims: Claims)
    requires AllRead(p, q, key, claims) && Quiet(q, r, key, {})
    ensures AllRead(p, r, key, claims)
  {
    hide Quiet, ReadClaim;
    forall name | name in claims ensures ReadClaim(p, r, key, name, claims[name]) {
      ReadClaimStays(p, q, r, key, {}, name, claims[name]);
    }
  }

  method GetAllBucketClaims(c: Cluster, key: Ref, list: seq<ClaimAccess>) returns (claims: Claims, err: Option<Error>)
    requires c.Valid()
    modifies c
    ensures c.Valid() && OnlyOthers(AccessController(key), old(c.run), c.run)
    ensures err.None? ==> AllRead(old(c.run), c.run, key, claims)
    ensures err.None? ==> forall name :: name in claims <==> NamesClaim(list, name)
  {
    hide Permitted, Enabled, IsRun, OnlyOthers, Quiet, ReadClaim;
    var me := AccessController(key);
    ghost var r0 := c.run;
    claims := map[];
    var errs: seq<Error> := [];
    OthersRefl(AccessController(key), r0);
    for i := 0 to |list|
      invariant c.Valid() && OnlyOthers(me, r0, c.run)
      invariant AllRead(r0, c.run, key, claims)
      invariant forall name :: name in claims ==> NamesClaim(list, name)
      invariant errs == [] ==> forall j :: 0 <= j < i ==> list[j].claimName in claims
    {
      var name := list[i].claimName;
      ghost var r1 := c.run;
      var got := c.Get(me, ClaimRefOf(key, name));
      QuietOthers(r1, c.run, key);
      AllReadStay(r0, r1, c.run, key, claims);
      OthersTransitive(me, r0, r1, c.run);
      QuietOthers(r0, c.run, key);
      match got
      case Err(MissingError) =>
        ReadNow(r0, c.run, key, name, None);
        claims := claims[name := None];
      case Err(_) =>
        errs := errs + [Plain];
      case Ok(o) =>
        ReadNow(r0, c.run, key, name, Some(o));
        claims := claims[name := Some(o)];
    }
    err := if errs != [] then Some(Wrapped(Joined(errs))) else None;
  }

  // Marking

  lemma SafeMark(r: Run, key: Ref, name: string, o: Object)
    requires IsRun(r) && key.kind == AccessKind && Seen(r, ClaimRefOf(key, name), o) && o.body.Claim?
    requires UpdateApplies(r.world, ClaimRefOf(key, name), Annotated(o, HasAccessReferences))
    ensures ClaimRefOf(key, name) in r.world.objs && r.world.objs[ClaimRefOf(key, name)] == o
    ensures Updated(o, Annotated(o, HasAccessReferences)) == Some(Annotated(o, HasAccessReferences))
    ensures Enabled(r, Change(AccessController(key), ClaimRefOf(key, name), Some(Annotated(o, HasAccessReferences))))
  {
    hide IsRun, Seen;
    SeenIsCurrent(r, ClaimRefOf(key, name), o);
    BasicHolds(r);
  }

  lemma SafeUnmark(r: Run, key: Ref, name: string, o: Object)
    requires IsRun(r) && key.kind == AccessKind && Seen(r, ClaimRefOf(key, name), o) && o.body.Claim?
    requires Unreferenced(r.world, key, key.ns, name)
    requires UpdateApplies(r.world, ClaimRefOf(key, name), Unannotated(o, HasAccessReferences))
    ensures ClaimRefOf(key, name) in r.world.objs && r.world.objs[ClaimRefOf(key, name)] == o
    ensures Updated(o, Unannotated(o, HasAccessReferences)) == Some(Unannotated(o, HasAccessReferences))
    ensures Enabled(r, Change(AccessController(key), ClaimRefOf(key, name), Some(Unannotated(o, HasAccessReferences))))
  {
    hide IsRun, Seen, Unreferenced;
    SeenIsCurrent(r, ClaimRefOf(key, name), o);
    BasicHolds(r);
  }

  /** The claim was read as `o`. */
  ghost predicate Known(r: Run, key: Ref, name: string, o: Object) {
    o.body.Claim? && Seen(r, ClaimRefOf(key, name), o) && o.meta.uid in r.world.uids
  }

  lemma KnownLater(p: Run, r: Run, key: Ref, written: set<Ref>, name: string, o: Object)
    requires Known(p, key, name, o) && Quiet(p, r, key, written)
    ensures Known(r, key, name, o)
  {
    SeenLater(p, r, ClaimRefOf(key, name), o);
  }

  lemma QuietWiden(p: Run, r: Run, key: Ref, x: set<Ref>, y: set<Ref>)
    requires Quiet(p, r, key, x) && x <= y
    ensures Quiet(p, r, key, y)
  {
  }

  method MarkClaim(c: Cluster, key: Ref, name: string, o: Object) returns (err: Option<Error>)
    requires c.Valid() && key.kind == AccessKind && Known(c.run, key, name, o)
    modifies c
    ensures c.Valid() && Quiet(old(c.run), c.run, key, {ClaimRefOf(key, name)})
    ensures err.None? ==> MarkIs(c.run.world, ClaimRefOf(key, name), o.meta.uid, true)
  {
    hide Permitted, Enabled, Conforms, UpdateApplies, Updated, IsRun, OnlyOthers, Quiet, Seen;
    var me, ref := AccessController(key), ClaimRefOf(key, name);
    ghost var r0 := c.run;
    c.Yield(me);
    ghost var r1 := c.run;
    QuietOthers(r0, r1, key);
    QuietWiden(r0, r1, key, {}, {ref});
    SeenStays(me, r0, r1, ref, o);
    if UpdateApplies(c.run.world, ref, Annotated(o, HasAccessReferences)) {
      SafeMark(r1, key, name, o);
      QuietOwnClaim(r0, r1, key, {ref}, ref, Annotated(o, HasAccessReferences));
      assert {ref} + {ref} == {ref};
    }
    var updated := c.Update(me, ref, Annotated(o, HasAccessReferences));
    err := if updated.Err? then Some(Plain) else None;
  }

  method UnmarkClaim(c: Cluster, key: Ref, name: string, o: Object) returns (err: Option<Error>)
    requires c.Valid() && key.kind == AccessKind && Known(c.run, key, name, o)
    requires Unreferenced(c.run.world, key, key.ns, name)
    modifies c
    ensures c.Valid() && Quiet(old(c.run), c.run, key, {ClaimRefOf(key, name)})
    ensures err.None? ==> MarkIs(c.run.world, ClaimRefOf(key, name), o.meta.uid, false)
  {
    hide Permitted, Enabled, Conforms, UpdateApplies, Updated, IsRun, OnlyOthers, Quiet, Seen, Unreferenced;
    var me, ref := AccessController(key), ClaimRefOf(key, name);
    ghost var r0 := c.run;
    c.Yield(me);
    ghost var r1 := c.run;
    QuietOthers(r0, r1, key);
    QuietWiden(r0, r1, key, {}, {ref});
    SeenStays(me, r0, r1, ref, o);
    StaysUnreferenced(key, r0, r1, key.ns, name);
    if UpdateApplies(c.run.world, ref, Unannotated(o, HasAccessReferences)) {
      SafeUnmark(r1, key, name, o);
      QuietOwnClaim(r0, r1, key, {ref}, ref, Unannotated(o, HasAccessReferences));
      assert {ref} + {ref} == {ref};
    }
    var updated := c.Update(me, ref, Unannotated(o, HasAccessReferences));
    err := if updated.Err? then Some(Plain) else None;
  }

  function RefsOf(key: Ref, claims: Claims): set<Ref> { set name | name in claims :: ClaimRefOf(key, name) }

  ghost predicate KnownAll(r: Run, key: Ref, claims: Claims) {
    forall name :: name in claims && claims[name].Some? ==> Known(r, key, name, claims[name].value)
  }

  ghost predicate MarkedBut(w: World, key: Ref, claims: Claims, todo: set<string>) {
    forall name :: name in claims && name !in todo && claims[name].Some? ==>
      MarkIs(w, ClaimRefOf(key, name), claims[name].value.meta.uid, true)
  }

  lemma ReadAreKnown(p: Run, r: Run, key: Ref, claims: Claims)
    requires AllRead(p, r, key, claims)
    ensures KnownAll(r, key, claims) && AllClaims(claims)
  {
    hide Seen;
    forall name | name in claims && claims[name].Some? ensures Known(r, key, name, claims[name].value) {
      assert ReadClaim(p, r, key, name, claims[name]);
    }
  }

  lemma KnownAllLater(p: Run, r: Run, key: Ref, written: set<Ref>, claims: Claims)
    requires KnownAll(p, key, claims) && Quiet(p, r, key, written)
    ensures KnownAll(r, key, claims)
  {
    hide Quiet, Known;
    forall name | name in claims && claims[name].Some? ensures Known(r, key, name, claims[name].value) {
      KnownLater(p, r, key, written, name, claims[name].value);
    }
  }

  lemma MarkedLater(p: Run, r: Run, key: Ref, claims: Claims, todo: set<string>, name: string)
    requires KnownAll(p, key, claims) && MarkedBut(p.world, key, claims, todo) && name in claims && name in todo
    requires Quiet(p, r, key, {ClaimRefOf(key, name)})
    requires claims[name].Some? ==> MarkIs(r.world, ClaimRefOf(key, name), claims[name].value.meta.uid, true)
    ensures MarkedBut(r.world, key, claims, todo - {name})
  {
    hide MarkIs, Unreferenced, Prefix, Seen;
    forall n | n in claims && n !in todo - {name} && claims[n].Some?
      ensures MarkIs(r.world, ClaimRefOf(key, n), claims[n].value.meta.uid, true)
    {
      if n != name {
        assert Known(p, key, n, claims[n].value);
        assert MarkIs(p.world, ClaimRefOf(key, n), claims[n].value.meta.uid, true);
      }
    }
  }

  /** The order in which the claims are visited is not specified. */
  method MarkAll(c: Cluster, key: Ref, claims: Claims, ghost p: Run) returns (err: Option<Error>)
    requires c.Valid() && key.kind == AccessKind && AllRead(p, c.run, key, claims)
    modifies c
    ensures c.Valid() && Quiet(old(c.run), c.run, key, RefsOf(key, claims)) && KnownAll(c.run, key, claims)
    ensures err.None? ==> MarkedBut(c.run.world, key, claims, {})
  {
    hide Permitted, Enabled, IsRun, OnlyOthers, Quiet, Known, MarkedBut, KnownAll, ReadClaim, MarkIs;
    var todo := claims.Keys;
    var errs: seq<Error> := [];
    ghost var r0 := c.run;
    ReadAreKnown(p, r0, key, claims);
    OthersRefl(AccessController(key), r0);
    QuietOthers(r0, r0, key);
    QuietWiden(r0, r0, key, {}, RefsOf(key, claims));
    MarkedNone(r0.world, key, claims);
    while todo != {}
      invariant todo <= claims.Keys
      invariant c.Valid() && Quiet(r0, c.run, key, RefsOf(key, claims)) && KnownAll(c.run, key, claims)
      invariant errs == [] ==> MarkedBut(c.run.world, key, claims, todo)
      invariant forall name :: name in todo ==> ReadClaim(p, c.run, key, name, claims[name])
      decreases |todo|
    {
      var name :| name in todo;
      ghost var r1 := c.run;
      var ref := ClaimRefOf(key, name);
      if claims[name].Some? && !Marked(claims[name].value) {
        KnownOne(r1, key, claims, name);
        var failure := MarkClaim(c, key, name, claims[name].value);
        if failure.Some? { errs := errs + [failure.value]; }
      } else {
        OthersRefl(AccessController(key), r1);
        QuietOthers(r1, r1, key);
        QuietWiden(r1, r1, key, {}, {ref});
        AlreadyMarked(p, r1, key, name, claims[name]);
      }
      QuietOn(r0, r1, c.run, key, RefsOf(key, claims), {ref});
      KnownAllLater(r1, c.run, key, {ref}, claims);
      if errs == [] { MarkedLater(r1, c.run, key, claims, todo, name); }
      forall n | n in todo - {name} ensures ReadClaim(p, c.run, key, n, claims[n]) {
        ReadClaimStays(p, r1, c.run, key, {ref}, n, claims[n]);
      }
      todo := todo - {name};
    }
    err := if errs != [] then Some(Wrapped(Joined(errs))) else None;
  }

  lemma MarkedNone(w: World, key: Ref, claims: Claims)
    ensures MarkedBut(w, key, claims, claims.Keys)
  {
  }

  lemma KnownOne(r: Run, key: Ref, claims: Claims, name: string)
    requires KnownAll(r, key, claims) && name in claims && claims[name].Some?
    ensures Known(r, key, name, claims[name].value)
  {
  }

  lemma AlreadyMarked(p: Run, r: Run, key: Ref, name: string, o: Option<Object>)
    requires ReadClaim(p, r, key, name, o) && (o.Some? ==> Marked(o.value))
    ensures o.Some? ==> MarkIs(r.world, ClaimRefOf(key, name), o.value.meta.uid, true)
  {
  }

  // Unmarking

  /** The claim object that was there at `p`, if it still is, is marked exactly if it was and `referenced`. */
  ghost predicate MarkSettled(p: Run, r: Run, key: Ref, name: string, referenced: bool) {
    var ref := ClaimRefOf(key, name);
    ref in p.world.objs ==>
      p.world.objs[ref].meta.uid in r.world.uids
        && MarkIs(r.world, ref, p.world.objs[ref].meta.uid, Marked(p.world.objs[ref]) && referenced)
  }

  lemma SettledLater(p: Run, q: Run, r: Run, key: Ref, written: set<Ref>, name: string, referenced: bool)
    requires MarkSettled(p, q, key, name, referenced) && Quiet(q, r, key, written) && ClaimRefOf(key, name) !in written
    ensures MarkSettled(p, r, key, name, referenced)
  {
    hide MarkIs, Unreferenced, Prefix;
  }

  /** Left alone: the claim is absent, unmarked, or referenced. */
  lemma SettledUntouched(p: Run, r: Run, key: Ref, name: string, o: Option<Object>, referenced: bool)
    requires IsRun(p) && ReadClaim(p, r, key, name, o) && (o.None? || !Marked(o.value) || referenced)
    ensures MarkSettled(p, r, key, name, referenced)
  {
    hide Permitted, Enabled, IsRun;
  }

  lemma SettledUnmarked(p: Run, q: Run, r: Run, key: Ref, name: string, o: Object)
    requires ReadClaim(p, q, key, name, Some(o)) && Quiet(q, r, key, {ClaimRefOf(key, name)})
    requires AbsentStays(p, q, r, key, name, o) && MarkIs(r.world, ClaimRefOf(key, name), o.meta.uid, false)
    ensures MarkSettled(p, r, key, name, false)
  {
  }

  /** A claim object that was gone when the claim was read stays gone. */
  ghost predicate AbsentStays(p: Run, q: Run, r: Run, key: Ref, name: string, o: Object) {
    var ref := ClaimRefOf(key, name);
    (ref in p.world.objs && p.world.objs[ref].meta.uid != o.meta.uid
     && Lost(q.world, ref, p.world.objs[ref].meta.uid)) ==>
      Lost(r.world, ref, p.world.objs[ref].meta.uid)
  }

  method SettleClaim(c: Cluster, key: Ref, name: string, o: Option<Object>, items: map<Ref, Object>, ghost p: Run)
    returns (err: Option<Error>)
    requires c.Valid() && key.kind == AccessKind && IsRun(p) && ReadClaim(p, c.run, key, name, o)
    requires forall k :: k in items ==> items[k].body.Access?
    requires !NamedElsewhere(items, name, key.name) ==> Unreferenced(c.run.world, key, key.ns, name)
    modifies c
    ensures c.Valid() && Quiet(old(c.run), c.run, key, {ClaimRefOf(key, name)})
    ensures err.None? ==> MarkSettled(p, c.run, key, name, NamedElsewhere(items, name, key.name))
  {
    hide Permitted, Enabled, IsRun, OnlyOthers, Quiet, Known, MarkIs, MarkSettled, Unreferenced, NamedElsewhere;
    ghost var r0 := c.run;
    OthersRefl(AccessController(key), r0);
    QuietOthers(r0, r0, key);
    QuietWiden(r0, r0, key, {}, {ClaimRefOf(key, name)});
    if o.None? || !Marked(o.value) {
      SettledUntouched(p, r0, key, name, o, NamedElsewhere(items, name, key.name));
      return None;
    }
    var referenced := HasReferences(name, items, key.name);
    if referenced {
      SettledUntouched(p, r0, key, name, o, referenced);
      return None;
    }
    ReadIsKnown(p, r0, key, name, o.value);
    err := UnmarkClaim(c, key, name, o.value);
    if err.None? {
      QuietPrefix(r0, c.run, key, {ClaimRefOf(key, name)});
      if ClaimRefOf(key, name) in p.world.objs
          && Lost(r0.world, ClaimRefOf(key, name), p.world.objs[ClaimRefOf(key, name)].meta.uid) {
        GoneStaysGone(r0, c.run, ClaimRefOf(key, name), p.world.objs[ClaimRefOf(key, name)].meta.uid);
      }
      SettledUnmarked(p, r0, c.run, key, name, o.value);
    }
  }

  lemma ReadIsKnown(p: Run, r: Run, key: Ref, name: string, o: Object)
    requires ReadClaim(p, r, key, name, Some(o))
    ensures Known(r, key, name, o)
  {
  }

  lemma QuietPrefix(p: Run, r: Run, key: Ref, written: set<Ref>)
    requires Quiet(p, r, key, written)
    ensures Prefix(p, r)
  {
  }

  ghost predicate SettledBut(p: Run, r: Run, key: Ref, claims: Claims, items: map<Ref, Object>, todo: set<string>) {
    forall name ::
        name in claims && name !in todo ==> MarkSettled(p, r, key, name, NamedElsewhere(items, name, key.name))
  }

  lemma UnreferencedLater(q: Run, r: Run, key: Ref, written: set<Ref>, ns: string, name: string)
    requires Quiet(q, r, key, written) && Unreferenced(q.world, key, ns, name)
    ensures Unreferenced(r.world, key, ns, name)
  {
  }

  method UnmarkUnaccessed(c: Cluster, key: Ref, claims: Claims, items: map<Ref, Object>, ghost p: Run)
    returns (err: Option<Error>)
    requires c.Valid() && key.kind == AccessKind && IsRun(p) && AllRead(p, c.run, key, claims)
    requires forall k :: k in items ==> items[k].body.Access?
    requires forall name ::
        name in claims && !NamedElsewhere(items, name, key.name) ==> Unreferenced(c.run.world, key, key.ns, name)
    modifies c
    ensures c.Valid() && Prefix(old(c.run), c.run)
    ensures err.None? ==> SettledBut(p, c.run, key, claims, items, {})
    ensures forall k: Ref :: k.kind == AccessKind ==> MarksOk(c.run, k)
  {
    hide Permitted, Enabled, IsRun, OnlyOthers, Quiet, MarkSettled, ReadClaim, Unreferenced, NamedElsewhere, Prefix,
         MarksOk;
    var todo := claims.Keys;
    var errs: seq<Error> := [];
    ghost var r0 := c.run;
    OthersRefl(AccessController(key), r0);
    QuietOthers(r0, r0, key);
    QuietWiden(r0, r0, key, {}, RefsOf(key, claims));
    while todo != {}
      invariant todo <= claims.Keys
      invariant c.Valid() && Quiet(r0, c.run, key, RefsOf(key, claims))
      invariant forall name :: name in todo ==> ReadClaim(p, c.run, key, name, claims[name])
      invariant forall name ::
          name in claims && !NamedElsewhere(items, name, key.name) ==> Unreferenced(c.run.world, key, key.ns, name)
      invariant errs == [] ==> SettledBut(p, c.run, key, claims, items, todo)
      decreases |todo|
    {
      var name :| name in todo;
      ghost var r1 := c.run;
      ghost var ref := ClaimRefOf(key, name);
      var failure := SettleClaim(c, key, name, claims[name], items, p);
      QuietOn(r0, r1, c.run, key, RefsOf(key, claims), {ref});
      forall n | n in todo - {name} ensures ReadClaim(p, c.run, key, n, claims[n]) {
        ReadClaimStays(p, r1, c.run, key, {ref}, n, claims[n]);
      }
      forall n | n in claims && !NamedElsewhere(items, n, key.name) ensures Unreferenced(c.run.world, key, key.ns, n) {
        UnreferencedLater(r1, c.run, key, {ref}, key.ns, n);
      }
      if failure.Some? {
        errs := errs + [failure.value];
      } else if errs == [] {
        SettledMore(p, r1, c.run, key, claims, items, todo, name);
      }
      todo := todo - {name};
    }
    QuietPrefix(r0, c.run, key, RefsOf(key, claims));
    forall k: Ref | k.kind == AccessKind ensures MarksOk(c.run, k) { MarksHold(c.run, k); }
    err := if errs != [] then Some(Wrapped(Joined(errs))) else None;
  }

  lemma SettledMore(p: Run, q: Run, r: Run, key: Ref, claims: Claims, items: map<Ref, Object>, todo: set<string>,
                    name: string)
    requires SettledBut(p, q, key, claims, items, todo) && Quiet(q, r, key, {ClaimRefOf(key, name)})
    requires MarkSettled(p, r, key, name, NamedElsewhere(items, name, key.name))
    ensures SettledBut(p, r, key, claims, items, todo - {name})
  {
    hide MarkSettled, Quiet, NamedElsewhere;
    forall n | n in claims && n !in todo - {name}
      ensures MarkSettled(p, r, key, n, NamedElsewhere(items, n, key.name))
    {
      if n != name { SettledLater(p, q, r, key, {ClaimRefOf(key, name)}, n, NamedElsewhere(items, n, key.name)); }
    }
  }
}
