/** What a reconciler may rely on between its requests. */
module Rely {
  import opened Objects
  import opened Rpc
  import opened Runs
  import opened Rules
  import opened Invariants
  import opened Clusters

  lemma {:induction false} VersionsGrow(r: Run, ref: Ref, o: Object)
    requires IsRun(r) && Seen(r, ref, o)
    ensures o.meta.rv <= r.world.rv
    ensures ref in r.world.objs ==> r.world.objs[ref] == o || r.world.objs[ref].meta.rv > o.meta.rv
  {
    hide Permitted;
    if ref in r.world.objs && r.world.objs[ref] == o {
      BasicHolds(r);
    } else {
      VersionsGrow(r.prev, ref, o);
    }
  }

  /** Optimistic locking: an object with the version that was read is the object that was read. */
  lemma SeenIsCurrent(r: Run, ref: Ref, o: Object)
    requires IsRun(r) && Seen(r, ref, o) && ref in r.world.objs && r.world.objs[ref].meta.rv == o.meta.rv
    ensures r.world.objs[ref] == o
  {
    VersionsGrow(r, ref, o);
  }

  lemma {:induction false} SeenStays(me: Actor, p: Run, r: Run, ref: Ref, o: Object)
    requires OnlyOthers(me, p, r) && Seen(p, ref, o)
    ensures Seen(r, ref, o)
  {
    if p != r { SeenStays(me, p, r.prev, ref, o); }
  }

  lemma PrevIsRun(r: Run)
    requires IsRun(r) && r.More?
    ensures IsRun(r.prev)
  {
    hide Permitted, Enabled;
  }

  lemma SeenNow(r: Run, ref: Ref)
    requires ref in r.world.objs
    ensures Seen(r, ref, r.world.objs[ref])
  {
  }

  lemma PrefixNext(p: Run, r: Run)
    requires r == p || (r.More? && r.prev == p)
    ensures Prefix(p, r)
  {
    assert Prefix(p, p);
  }

  lemma OthersRefl(me: Actor, r: Run)
    ensures OnlyOthers(me, r, r)
  {
  }

  lemma {:induction false} OthersTransitive(me: Actor, p: Run, q: Run, r: Run)
    requires OnlyOthers(me, p, q) && OnlyOthers(me, q, r)
    ensures OnlyOthers(me, p, r)
  {
    if q != r { OthersTransitive(me, p, q, r.prev); }
  }

  lemma {:induction false} OthersOnlyAddCalls(me: Actor, p: Run, r: Run)
    requires IsRun(r) && OnlyOthers(me, p, r)
    ensures IsRun(p) && p.world.calls <= r.world.calls
  {
    hide Permitted;
    if p != r { OthersOnlyAddCalls(me, p, r.prev); }
  }

  lemma LongerLog(short: seq<Call>, long: seq<Call>, uid: Uid, account: string)
    requires short <= long
    ensures Granted(short, uid, account) ==> Granted(long, uid, account)
    ensures Revoked(short, uid, account) ==> Revoked(long, uid, account)
  {
    assert forall n :: 0 <= n < |short| ==> short[n] == long[n];
  }

  /** The object with this UID is gone. */
  ghost predicate Lost(w: World, ref: Ref, uid: Uid) {
    uid in w.uids && !(ref in w.objs && w.objs[ref].meta.uid == uid)
  }

  lemma {:induction false} GoneStaysGone(q: Run, r: Run, ref: Ref, uid: Uid)
    requires IsRun(r) && Prefix(q, r) && Lost(q.world, ref, uid)
    ensures Lost(r.world, ref, uid)
  {
    hide Permitted;
    if q != r { GoneStaysGone(q, r.prev, ref, uid); }
  }

  // The Sidecar serving one access

  /** The Sidecar serves the access under `key`, which still says what `base` says. */
  ghost predicate Holds(w: World, driver: string, key: Ref, base: Object) {
    && SidecarServes(w, driver, key) && base.body.Access?
    && w.objs[key].meta.uid == base.meta.uid && w.objs[key].body == base.body
    && (base.meta.deleting ==> w.objs[key].meta.deleting)
  }

  lemma HoldsStep(r: Run, e: Event, driver: string, key: Ref, base: Object)
    requires Enabled(r, e) && MayInterleave(AccessSidecar(driver, key), e.actor)
    requires Holds(r.world, driver, key, base) && AccessOk(r.world, key)
    ensures Holds(After(r.world, e), driver, key, base)
  {
    if e.Change? && e.ref == key {
      assert e.actor == User;
      var a := r.world.objs[key];
      assert IsProtected(a);
      var n := e.now.value;
      assert CleanupFinished in n.meta.annotations * COSI_ANNOTATIONS <==> CleanupFinished in n.meta.annotations;
      assert ManagementOverride in n.meta.annotations * COSI_ANNOTATIONS <==> ManagementOverride in n.meta.annotations;
    }
  }

  lemma {:induction false} StillHolds(p: Run, r: Run, driver: string, key: Ref, base: Object)
    requires IsRun(r) && OnlyOthers(AccessSidecar(driver, key), p, r) && Holds(p.world, driver, key, base)
    ensures Holds(r.world, driver, key, base)
  {
    hide Permitted;
    if p != r {
      StillHolds(p, r.prev, driver, key, base);
      AccessHolds(r.prev, key);
      HoldsStep(r.prev, r.event, driver, key, base);
    }
  }

  /** Between two worlds, others did not hand out, refill or release Secrets of `uid`. */
  ghost predicate SecretUntouched(w: World, w': World, secret: Ref, uid: Uid) {
    && (OwnedBy(w', secret, uid) ==>
         && OwnedBy(w, secret, uid) && w'.objs[secret].body == w.objs[secret].body
         && (w.objs[secret].meta.deleting ==> w'.objs[secret].meta.deleting))
    && (Reserved(w, secret, uid) ==> Reserved(w', secret, uid) && w'.objs[secret].meta.uid == w.objs[secret].meta.uid)
  }

  /** Nobody else calls the driver for this access. */
  lemma OthersCallElsewhere(r: Run, actor: Actor, call: Call, driver: string, key: Ref, base: Object)
    requires Enabled(r, Called(actor, call)) && MayInterleave(AccessSidecar(driver, key), actor)
    requires Holds(r.world, driver, key, base) && Basic(r.world)
    ensures call.access != base.meta.uid
  {
  }

  lemma LatestUnaffected(calls: seq<Call>, call: Call, uid: Uid)
    requires call.access != uid
    ensures LatestReply(calls + [call], uid) == LatestReply(calls, uid)
  {
    assert (calls + [call])[..|calls|] == calls;
  }

  lemma {:induction false} LatestStays(p: Run, r: Run, driver: string, key: Ref, base: Object)
    requires IsRun(r) && OnlyOthers(AccessSidecar(driver, key), p, r) && Holds(p.world, driver, key, base)
    ensures LatestReply(r.world.calls, base.meta.uid) == LatestReply(p.world.calls, base.meta.uid)
  {
    hide Permitted;
    if p != r {
      LatestStays(p, r.prev, driver, key, base);
      if r.event.Called? {
        StillHolds(p, r.prev, driver, key, base);
        BasicHolds(r.prev);
        OthersCallElsewhere(r.prev, r.event.actor, r.event.call, driver, key, base);
        LatestUnaffected(r.prev.world.calls, r.event.call, base.meta.uid);
      }
    }
  }

  /** Users and Sidecars are the only ones to write Secrets. */
  lemma SecretWriters(r: Run, actor: Actor, secret: Ref, now: Option<Object>)
    requires secret.kind == SecretKind && Enabled(r, Change(actor, secret, now))
    ensures Conforms(r.world, secret, now)
    ensures
      || (actor == User && UserMayChange(r, secret, now))
      || (actor.AccessSidecar? && SidecarServes(r.world, actor.driver, actor.key)
          && SidecarMayChangeSecret(r.world, actor.key, r.world.objs[actor.key], secret, now))
  {
  }

  lemma SecretUntouchedStep(r: Run, e: Event, driver: string, key: Ref, base: Object, secret: Ref)
    requires Enabled(r, e) && MayInterleave(AccessSidecar(driver, key), e.actor) && secret.kind == SecretKind
    requires Holds(r.world, driver, key, base) && Basic(r.world)
    ensures SecretUntouched(r.world, After(r.world, e), secret, base.meta.uid)
  {
    hide Permitted, Enabled, FilledFor, UserCreatesBucket;
    if e.Change? && e.ref == secret {
      SecretWriters(r, e.actor, secret, e.now);
      if e.actor.AccessSidecar? { assert r.world.objs[e.actor.key].meta.uid != base.meta.uid; }
    }
  }

  lemma {:induction false} SecretsUntouched(p: Run, r: Run, driver: string, key: Ref, base: Object, secret: Ref)
    requires IsRun(r) && OnlyOthers(AccessSidecar(driver, key), p, r) && secret.kind == SecretKind
    requires Holds(p.world, driver, key, base)
    ensures SecretUntouched(p.world, r.world, secret, base.meta.uid)
  {
    hide Permitted;
    if p != r {
      SecretsUntouched(p, r.prev, driver, key, base, secret);
      OthersPrefix(AccessSidecar(driver, key), p, r.prev);
      StillHolds(p, r.prev, driver, key, base);
      BasicHolds(r.prev);
      SecretUntouchedStep(r.prev, r.event, driver, key, base, secret);
    }
  }

  lemma {:induction false} OthersPrefix(me: Actor, p: Run, r: Run)
    requires OnlyOthers(me, p, r)
    ensures Prefix(p, r)
  {
    if p != r { OthersPrefix(me, p, r.prev); }
  }

  lemma {:induction false} SeenLater(p: Run, r: Run, ref: Ref, o: Object)
    requires Prefix(p, r) && Seen(p, ref, o)
    ensures Seen(r, ref, o)
  {
    if p != r { SeenLater(p, r.prev, ref, o); }
  }

  lemma {:induction false} CallsOnlyGrow(p: Run, r: Run)
    requires IsRun(r) && Prefix(p, r)
    ensures p.world.calls <= r.world.calls
  {
    hide Permitted;
    if p != r { CallsOnlyGrow(p, r.prev); }
  }

  /** Nobody took over a Secret for `uid`, and no requested deletion was undone. */
  ghost predicate OnlyShrinks(w: World, w': World, uid: Uid) {
    forall s :: OwnedBy(w', s, uid) && s.kind == SecretKind ==>
      OwnedBy(w, s, uid) && (w.objs[s].meta.deleting ==> w'.objs[s].meta.deleting)
  }

  lemma OthersOnlyShrink(p: Run, r: Run, driver: string, key: Ref, base: Object)
    requires IsRun(r) && OnlyOthers(AccessSidecar(driver, key), p, r) && Holds(p.world, driver, key, base)
    ensures OnlyShrinks(p.world, r.world, base.meta.uid)
  {
    forall s | OwnedBy(r.world, s, base.meta.uid) && s.kind == SecretKind
      ensures OwnedBy(p.world, s, base.meta.uid) && (p.world.objs[s].meta.deleting ==> r.world.objs[s].meta.deleting)
    {
      SecretsUntouched(p, r, driver, key, base, s);
    }
  }

  lemma ShrinkingKeepsGone(w: World, w': World, key: Ref, uid: Uid, claims: seq<ClaimAccess>)
    requires OnlyShrinks(w, w', uid) && SecretsGone(w, key, uid, claims)
    ensures SecretsGone(w', key, uid, claims)
  {
  }
}
