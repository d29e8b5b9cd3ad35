/** What every event keeps. Each invariant is proved by induction over runs. */
module Invariants {
  import opened Objects
  import opened Rpc
  import opened Handoff
  import opened Runs
  import opened Rules

  ghost predicate Basic(w: World) {
    && "" !in w.uids
    && (forall ref :: ref in w.objs ==>
         && KindOf(w.objs[ref]) == ref.kind
         && (w.objs[ref].body.Secret? ==> w.objs[ref].body.stringData == map[])
         && (w.objs[ref].meta.deleting ==> w.objs[ref].meta.finalizers != {})
         && w.objs[ref].meta.rv <= w.rv
         && w.objs[ref].meta.uid in w.uids)
    && (forall ref, ref' ::
          ref in w.objs && ref' in w.objs && w.objs[ref].meta.uid == w.objs[ref'].meta.uid ==> ref == ref')
  }

  lemma BasicStep(w: World, e: Event)
    requires Basic(w) && (e.Change? ==> Conforms(w, e.ref, e.now))
    ensures Basic(After(w, e))
  {
  }

  lemma {:induction false} BasicHolds(r: Run)
    requires IsRun(r)
    ensures Basic(r.world)
  {
    hide Permitted;
    if r.More? {
      BasicHolds(r.prev);
      BasicStep(r.prev.world, r.event);
    }
  }

  /** Initialisation sets all required fields or none, and only on protected, well-formed accesses. */
  ghost predicate GoodAccess(calls: seq<Call>, a: Object)
    requires a.body.Access?
  {
    var spec, s := a.body.aspec, a.body.astatus;
    && ManagementOverride !in a.meta.annotations && spec.claims != []
    && !SidecarRequirements(s).Degraded?
    && (s.driverName != "" ==> Aligned(spec, s) && UniqueClaims(spec.claims))
    && (s.driverName != "" ==> IsProtected(a) || CleanupFinished in a.meta.annotations)
    && (s.accountId != "" ==> s.driverName != "" && Granted(calls, a.meta.uid, s.accountId))
    && (s.ready == Some(true) ==> s.accountId != "")
    && (CleanupFinished in a.meta.annotations ==> a.meta.deleting && s.driverName != "")
  }

  ghost predicate AccessOk(w: World, key: Ref) {
    key in w.objs && w.objs[key].body.Access? ==> GoodAccess(w.calls, w.objs[key])
  }

  lemma UserKeepsAccessGood(calls: seq<Call>, a: Object, n: Object)
    requires a.body.Access? && GoodAccess(calls, a) && ForeignMetadataOnly(a, Some(n))
    requires MetaAdmitted(a.meta, n.meta)
    ensures n.body.Access? && GoodAccess(calls, n)
  {
    assert CleanupFinished in n.meta.annotations * COSI_ANNOTATIONS <==> CleanupFinished in n.meta.annotations;
    assert ManagementOverride in n.meta.annotations * COSI_ANNOTATIONS <==> ManagementOverride in n.meta.annotations;
  }

  lemma SidecarKeepsAccessGood(w: World, key: Ref, a: Object, n: Object)
    requires a.body.Access? && GoodAccess(w.calls, a) && ManagedBySidecar(a)
    requires SidecarMayChangeAccess(w, key, a, Some(n))
    ensures GoodAccess(w.calls, n)
  {
  }

  lemma ControllerKeepsAccessGood(r: Run, key: Ref, a: Object, n: Object)
    requires a.body.Access? && GoodAccess(r.world.calls, a) && !ManagedBySidecar(a)
    requires ControllerMayChangeAccess(r, key, a, Some(n))
    ensures n.body.Access? && GoodAccess(r.world.calls, n)
  {
  }

  lemma AccessStep(r: Run, e: Event, key: Ref)
    requires Basic(r.world) && AccessOk(r.world, key) && Enabled(r, e)
    ensures AccessOk(After(r.world, e), key)
  {
    var w := r.world;
    match e
    case Called(_, call) =>
      if key in w.objs && w.objs[key].body.Access? { MoreCallsKeepGood(w.calls, call, w.objs[key]); }
    case Change(actor, ref, now) =>
      if ref == key && now.Some? && now.value.body.Access? {
        match actor
        case User => if key in w.objs { UserKeepsAccessGood(w.calls, w.objs[key], now.value); }
        case AccessController(_) => ControllerKeepsAccessGood(r, key, w.objs[key], now.value);
        case AccessSidecar(_, _) => SidecarKeepsAccessGood(w, key, w.objs[key], now.value);
        case _ =>
      }
  }

  lemma MoreCallsKeepGood(calls: seq<Call>, call: Call, a: Object)
    requires a.body.Access? && GoodAccess(calls, a)
    ensures GoodAccess(calls + [call], a)
  {
    var uid, account := a.meta.uid, a.body.astatus.accountId;
    if Granted(calls, uid, account) { MoreCallsGranted(calls, call, uid, account); }
  }

  lemma MoreCallsGranted(calls: seq<Call>, call: Call, uid: Uid, account: string)
    ensures Granted(calls, uid, account) ==> Granted(calls + [call], uid, account)
    ensures Revoked(calls, uid, account) ==> Revoked(calls + [call], uid, account)
  {
    assert forall n :: 0 <= n < |calls| ==> (calls + [call])[n] == calls[n];
  }

  lemma {:induction false} AccessHolds(r: Run, key: Ref)
    requires IsRun(r)
    ensures AccessOk(r.world, key)
  {
    hide Permitted;
    if r.More? {
      AccessHolds(r.prev, key);
      BasicHolds(r.prev);
      AccessStep(r.prev, r.event, key);
    }
  }

  // Driver calls

  predicate SameTarget(g: Call, v: Call)
    requires g.Grant? && v.Revoke?
  {
    GrantConfig(g.grant) == RevokeConfig(v.revoke) && GrantIds(g.grant) == RevokeIds(v.revoke)
  }

  /** Every logged call says what the access it served says now. */
  ghost predicate CallsMatch(w: World, key: Ref) {
    key in w.objs && w.objs[key].body.Access? ==>
      forall n :: 0 <= n < |w.calls| && w.calls[n].access == w.objs[key].meta.uid ==>
        && w.objs[key].body.astatus.driverName != ""
        && LoggedMatch(w.objs[key], w.calls[n])
  }

  /** Apart from the account ID, which a grant may precede, the call is the one the access determines. */
  ghost predicate LoggedMatch(a: Object, call: Call)
    requires a.body.Access?
  {
    match call
    case Grant(_, g, _) => GrantMatches(a.meta.uid, a.body.aspec, a.body.astatus, g)
    case Revoke(_, v, _) =>
      SharedConfigOf(a.body.aspec, a.body.astatus) == Some(RevokeConfig(v))
        && RevokeIds(v) == AccessedIds(a.body.astatus)
  }

  /** Calls serve accesses that exist: their UIDs are taken. */
  ghost predicate CallersKnown(w: World) {
    forall n :: 0 <= n < |w.calls| ==> w.calls[n].access in w.uids
  }

  /** The configuration that calls depend on is fixed once the access is initialised. */
  ghost predicate SameConfiguration(a: Object, b: Object) {
    && a.body.Access? && b.body.Access? && a.meta.uid == b.meta.uid
    && a.body.aspec == b.body.aspec
    && var s, t := a.body.astatus, b.body.astatus;
       s.driverName == t.driverName && s.accessed == t.accessed && s.auth == t.auth && s.params == t.params
  }

  lemma LoggedMatchFixed(a: Object, b: Object, call: Call)
    requires SameConfiguration(a, b)
    ensures LoggedMatch(a, call) <==> LoggedMatch(b, call)
  {
    var s, t := a.body.astatus, b.body.astatus;
    assert SharedConfigOf(a.body.aspec, s) == SharedConfigOf(b.body.aspec, t);
    assert AccessedIds(s) == AccessedIds(t);
    assert forall i: nat :: LastWithId(s, i) <==> LastWithId(t, i);
    match call
    case Grant(_, g, _) =>
      forall i | 0 <= i < |g.buckets|
        ensures GrantEntryMatches(a.body.aspec, s, g.buckets[i]) <==> GrantEntryMatches(b.body.aspec, t, g.buckets[i])
      {
      }
    case Revoke(_, _, _) =>
  }

  /** Once initialised, the configuration of an access never changes, whoever writes it. */
  lemma ConfigurationFixed(r: Run, e: Event, key: Ref)
    requires IsRun(r) && Enabled(r, e)
    requires key in r.world.objs && r.world.objs[key].body.Access?
    requires r.world.objs[key].body.astatus.driverName != ""
    requires key in After(r.world, e).objs
    ensures SameConfiguration(r.world.objs[key], After(r.world, e).objs[key])
  {
    hide Permitted;
    AccessHolds(r, key);
    if e.Change? && e.ref == key {
      AccessKeepsConfiguration(r, e.actor, key, e.now.value);
    }
  }

  lemma AccessKeepsConfiguration(r: Run, actor: Actor, key: Ref, n: Object)
    requires key in r.world.objs && r.world.objs[key].body.Access?
    requires Conforms(r.world, key, Some(n))
    requires r.world.objs[key].body.astatus.driverName != ""
    requires AccessOk(r.world, key)
    ensures Enabled(r, Change(actor, key, Some(n))) ==> SameConfiguration(r.world.objs[key], n)
  {
    var a := r.world.objs[key];
    assert Admitted(a.body, n.body);
    if Enabled(r, Change(actor, key, Some(n))) {
      match actor
      case User => assert ForeignMetadataOnly(a, Some(n));
      case AccessController(k) => assert k == key;
      case AccessSidecar(_, k) => assert k == key;
      case _ =>
    }
  }

  lemma CallStep(r: Run, actor: Actor, call: Call, key: Ref)
    requires IsRun(r) && Enabled(r, Called(actor, call)) && Basic(r.world)
    requires CallsMatch(r.world, key) && CallersKnown(r.world)
    ensures CallsMatch(After(r.world, Called(actor, call)), key)
    ensures CallersKnown(After(r.world, Called(actor, call)))
  {
    var w := r.world;
    var k := actor.key;
    assert CallMatches(w.objs[k].meta.uid, w.objs[k].body.aspec, w.objs[k].body.astatus, call);
    assert LoggedMatch(w.objs[k], call);
  }

  lemma ChangeStep(r: Run, e: Event, key: Ref)
    requires IsRun(r) && Enabled(r, e) && e.Change?
    requires CallsMatch(r.world, key) && CallersKnown(r.world)
    ensures CallsMatch(After(r.world, e), key)
    ensures CallersKnown(After(r.world, e))
  {
    hide Permitted;
    var w, w' := r.world, After(r.world, e);
    if e.ref == key && key in w.objs && key in w'.objs && w'.objs[key].body.Access? && w.objs[key].body.Access? {
      if w.objs[key].body.astatus.driverName != "" {
        ConfigurationFixed(r, e, key);
        forall n | 0 <= n < |w.calls| && w.calls[n].access == w'.objs[key].meta.uid
          ensures LoggedMatch(w'.objs[key], w.calls[n])
        {
          LoggedMatchFixed(w.objs[key], w'.objs[key], w.calls[n]);
        }
      }
    }
  }

  lemma {:induction false} CallsHold(r: Run, key: Ref)
    requires IsRun(r)
    ensures CallsMatch(r.world, key) && CallersKnown(r.world)
  {
    hide Permitted;
    if r.More? {
      CallsHold(r.prev, key);
      BasicHolds(r.prev);
      if r.event.Called? {
        CallStep(r.prev, r.event.actor, r.event.call, key);
      } else {
        ChangeStep(r.prev, r.event, key);
      }
    }
  }

  lemma MatchesAgree(a: Object, g: Call, v: Call)
    requires a.body.Access? && g.Grant? && v.Revoke?
    requires LoggedMatch(a, g) && LoggedMatch(a, v)
    ensures SameTarget(g, v)
  {
  }

  ghost predicate TargetsAgree(calls: seq<Call>) {
    forall m, n :: 0 <= m < |calls| && 0 <= n < |calls| && calls[m].Grant? && calls[n].Revoke? ==>
      (calls[m].access == calls[n].access ==> SameTarget(calls[m], calls[n]))
  }

  lemma {:induction false} TargetsHold(r: Run)
    requires IsRun(r)
    ensures TargetsAgree(r.world.calls)
  {
    if r.More? {
      TargetsHold(r.prev);
      if r.event.Called? {
        TargetsStep(r, r.event.actor.key, r.prev.world.calls, r.event.call);
      }
    }
  }

  lemma TargetsStep(r: Run, key: Ref, calls: seq<Call>, call: Call)
    requires IsRun(r) && r.world.calls == calls + [call] && TargetsAgree(calls)
    requires key in r.world.objs && r.world.objs[key].body.Access? && r.world.objs[key].meta.uid == call.access
    ensures TargetsAgree(calls + [call])
  {
    hide Permitted;
    CallsHold(r, key);
    var all, a := calls + [call], r.world.objs[key];
    forall m, n | 0 <= m < |all| && 0 <= n < |all| && all[m].Grant? && all[n].Revoke? && all[m].access == all[n].access
      ensures SameTarget(all[m], all[n])
    {
      if m < |calls| && n < |calls| {
        assert all[m] == calls[m] && all[n] == calls[n];
      } else {
        MatchesAgree(a, all[m], all[n]);
      }
    }
  }

  // Secrets

  ghost predicate SecretOk(w: World, secret: Ref, key: Ref) {
    key in w.objs && w.objs[key].body.Access? && OwnedBy(w, secret, w.objs[key].meta.uid) ==>
      var a, s := w.objs[key], w.objs[secret];
      && secret.ns == key.ns && NamesSecret(a.body.aspec.claims, secret.name)
      && a.body.astatus.driverName != "" && (a.meta.deleting || IsProtected(s))
      && (s.body.data == map[] ||
          FilledFor(w.calls, a.meta.uid, a.body.aspec, a.body.astatus, secret.name, s.body.data))
  }

  ghost predicate OwnersKnown(w: World) {
    forall s ::
        s in w.objs && w.objs[s].body.Secret? && w.objs[s].body.owner.Some? ==> w.objs[s].body.owner.value in w.uids
  }

  lemma MoreCallsFilled(calls: seq<Call>, call: Call, uid: Uid, spec: AccessSpec, s: AccessStatus, name: string,
                        data: Vars)
    requires FilledFor(calls, uid, spec, s, name, data)
    ensures FilledFor(calls + [call], uid, spec, s, name, data)
  {
    assert forall n :: 0 <= n < |calls| ==> (calls + [call])[n] == calls[n];
  }

  lemma FilledFixed(calls: seq<Call>, a: Object, b: Object, name: string, data: Vars)
    requires SameConfiguration(a, b)
    requires FilledFor(calls, a.meta.uid, a.body.aspec, a.body.astatus, name, data)
    ensures FilledFor(calls, b.meta.uid, b.body.aspec, b.body.astatus, name, data)
  {
    var s, t := a.body.astatus, b.body.astatus;
    assert forall i: nat :: LastWithId(s, i) <==> LastWithId(t, i);
  }

  /** What any event can do to a Secret: drop it, leave its owner and data alone, or serve one access. */
  ghost predicate SecretEffect(w: World, actor: Actor, secret: Ref, now: Option<Object>) {
    now.Some? ==>
      && now.value.body.Secret?
      && (|| now.value.body.owner == None
          || (KeepsSecret(w, secret, now.value)
              && (IsProtected(w.objs[secret]) ==> IsProtected(now.value) || Releases(w, actor, secret)))
          || (actor.AccessSidecar? && SidecarServes(w, actor.driver, actor.key)
              && ServesSecret(w, actor.key, w.objs[actor.key], secret, now.value)))
  }

  /** A Sidecar releases a Secret that its deleting access controls. */
  ghost predicate Releases(w: World, actor: Actor, secret: Ref) {
    && actor.AccessSidecar? && actor.key in w.objs && w.objs[actor.key].meta.deleting
    && OwnedBy(w, secret, w.objs[actor.key].meta.uid)
  }

  ghost predicate KeepsSecret(w: World, secret: Ref, n: Object) {
    && secret in w.objs && n.body == w.objs[secret].body
    && (w.objs[secret].meta.deleting ==> n.meta.deleting)
  }

  ghost predicate ServesSecret(w: World, key: Ref, a: Object, secret: Ref, n: Object)
    requires a.body.Access?
  {
    && n.body.Secret? && n.body.owner == Some(a.meta.uid)
    && (a.meta.deleting || IsProtected(n) || (OwnedBy(w, secret, a.meta.uid) && !IsProtected(w.objs[secret])))
    && secret.ns == key.ns && NamesSecret(a.body.aspec.claims, secret.name)
    && (n.body.data == map[] ||
        (OwnedBy(w, secret, a.meta.uid)
         && FreshFor(w.calls, a.meta.uid, a.body.aspec, a.body.astatus, secret.name, n.body.data)))
  }

  lemma SecretCauses(r: Run, actor: Actor, secret: Ref, now: Option<Object>)
    requires secret.kind == SecretKind && Enabled(r, Change(actor, secret, now))
    ensures SecretEffect(r.world, actor, secret, now)
  {
    match actor
    case User =>
    case AccessSidecar(_, k) =>
      if now.Some? { SidecarSecretCauses(r.world, k, r.world.objs[k], secret, now.value); }
    case _ =>
  }

  lemma {:induction false} LatestIsLogged(calls: seq<Call>, uid: Uid) returns (n: nat)
    requires LatestReply(calls, uid).Some?
    ensures n < |calls| && calls[n].Grant? && calls[n].access == uid && calls[n].reply == LatestReply(calls, uid)
  {
    n := |calls| - 1;
    if !(calls[n].Grant? && calls[n].access == uid && calls[n].reply.Some?) { n := LatestIsLogged(calls[..n], uid); }
  }

  /** What the latest grant produced, some grant produced. */
  lemma FreshIsFilled(calls: seq<Call>, uid: Uid, spec: AccessSpec, s: AccessStatus, name: string, data: Vars)
    requires FreshFor(calls, uid, spec, s, name, data)
    ensures FilledFor(calls, uid, spec, s, name, data)
  {
    hide FilledBy;
    var n := LatestIsLogged(calls, uid);
    var latest := LatestReply(calls, uid).value;
    var i :| 0 <= i < |spec.claims| && spec.claims[i].secretName == name && LastWithId(s, i)
      && FilledBy(latest, spec, s, i, data);
    assert FilledAt(calls, uid, spec, s, i, data);
  }

  lemma SidecarSecretCauses(w: World, key: Ref, a: Object, secret: Ref, n: Object)
    requires a.body.Access? && Conforms(w, secret, Some(n)) && SidecarMayChangeSecret(w, key, a, secret, Some(n))
    ensures
      || ServesSecret(w, key, a, secret, n)
      || (KeepsSecret(w, secret, n) &&
          (IsProtected(w.objs[secret]) ==> IsProtected(n) || (a.meta.deleting && OwnedBy(w, secret, a.meta.uid))))
  {
    hide FreshFor;
  }

  /** An event on a Secret. */
  lemma SecretStep(w: World, e: Event, secret: Ref, key: Ref)
    requires e.Change? && e.ref == secret && secret.kind == SecretKind && SecretEffect(w, e.actor, secret, e.now)
    requires Basic(w) && SecretOk(w, secret, key) && AccessOk(w, key)
    ensures SecretOk(After(w, e), secret, key)
  {
    hide FreshFor, FilledFor;
    if key in w.objs && w.objs[key].body.Access? && e.now.Some? && e.now.value.body.Secret? {
      var a, data := w.objs[key], e.now.value.body.data;
      if FreshFor(w.calls, a.meta.uid, a.body.aspec, a.body.astatus, secret.name, data) {
        FreshIsFilled(w.calls, a.meta.uid, a.body.aspec, a.body.astatus, secret.name, data);
      }
    }
  }

  /** An event on the access itself. */
  lemma SecretKeyStep(r: Run, e: Event, secret: Ref, key: Ref)
    requires IsRun(r) && Enabled(r, e) && e.Change? && e.ref == key && key.kind == AccessKind && secret != key
    requires SecretOk(r.world, secret, key) && OwnersKnown(r.world)
    ensures SecretOk(After(r.world, e), secret, key)
  {
    hide Permitted;
    var w, w' := r.world, After(r.world, e);
    BasicHolds(r);
    if key in w'.objs && w'.objs[key].body.Access? && OwnedBy(w', secret, w'.objs[key].meta.uid) {
      assert key in w.objs && OwnedBy(w, secret, w.objs[key].meta.uid);
      ConfigurationFixed(r, e, key);
      if w.objs[secret].body.data != map[] {
        FilledFixed(w.calls, w.objs[key], w'.objs[key], secret.name, w.objs[secret].body.data);
      }
    }
  }

  lemma OwnersStep(w: World, e: Event)
    requires Basic(w) && OwnersKnown(w)
    requires e.Change? ==> Conforms(w, e.ref, e.now)
    requires e.Change? && e.ref.kind == SecretKind ==> SecretEffect(w, e.actor, e.ref, e.now)
    ensures OwnersKnown(After(w, e))
  {
  }

  lemma {:induction false} OwnersHold(r: Run)
    requires IsRun(r)
    ensures OwnersKnown(r.world)
  {
    hide Permitted;
    if r.More? {
      OwnersHold(r.prev);
      BasicHolds(r.prev);
      if r.event.Change? && r.event.ref.kind == SecretKind {
        SecretCauses(r.prev, r.event.actor, r.event.ref, r.event.now);
      }
      OwnersStep(r.prev.world, r.event);
    }
  }

  lemma SecretCallStep(w: World, e: Event, secret: Ref, key: Ref)
    requires e.Called? && SecretOk(w, secret, key)
    ensures SecretOk(After(w, e), secret, key)
  {
    if key in w.objs && w.objs[key].body.Access? && OwnedBy(w, secret, w.objs[key].meta.uid) {
      var a, data := w.objs[key], w.objs[secret].body.data;
      if data != map[] {
        MoreCallsFilled(w.calls, e.call, a.meta.uid, a.body.aspec, a.body.astatus, secret.name, data);
      }
    }
  }

  lemma {:induction false} SecretsHold(r: Run, secret: Ref, key: Ref)
    requires IsRun(r) && secret.kind == SecretKind && key.kind == AccessKind
    ensures SecretOk(r.world, secret, key)
  {
    hide Permitted;
    if r.More? {
      SecretsHold(r.prev, secret, key);
      var e := r.event;
      if e.Called? {
        SecretCallStep(r.prev.world, e, secret, key);
      } else if e.ref == secret {
        BasicHolds(r.prev);
        AccessHolds(r.prev, key);
        SecretCauses(r.prev, e.actor, secret, e.now);
        SecretStep(r.prev.world, e, secret, key);
      } else if e.ref == key {
        OwnersHold(r.prev);
        SecretKeyStep(r.prev, e, secret, key);
      }
    }
  }

  // Cleanup

  ghost predicate CleanupOk(w: World, key: Ref) {
    key in w.objs && w.objs[key].body.Access? && CleanupFinished in w.objs[key].meta.annotations ==>
      SidecarFinishes(w, key, w.objs[key])
  }

  /** Once the Sidecar no longer manages the access, its Secrets stay gone. */
  lemma SecretChangeKeepsGone(w: World, e: Event, key: Ref, uid: Uid, claims: seq<ClaimAccess>)
    requires Basic(w) && e.Change? && e.ref.kind == SecretKind && SecretEffect(w, e.actor, e.ref, e.now)
    requires key in w.objs && w.objs[key].body.Access? && w.objs[key].meta.uid == uid ==> !ManagedBySidecar(w.objs[key])
    requires forall k :: k in w.objs && w.objs[k].meta.uid == uid ==> k == key
    requires SecretsGone(w, key, uid, claims)
    ensures SecretsGone(After(w, e), key, uid, claims)
  {
    var w' := After(w, e);
    if OwnedBy(w', e.ref, uid) {
      assert OwnedBy(w, e.ref, uid) && (w.objs[e.ref].meta.deleting ==> w'.objs[e.ref].meta.deleting);
    }
  }

  lemma CleanupKeyStep(r: Run, e: Event, key: Ref)
    requires Enabled(r, e) && e.Change? && e.ref == key && key.kind == AccessKind
    requires AccessOk(r.world, key) && CleanupOk(r.world, key)
    ensures CleanupOk(After(r.world, e), key)
  {
    hide Permitted;
    var w, w' := r.world, After(r.world, e);
    if key in w'.objs && w'.objs[key].body.Access? && CleanupFinished in w'.objs[key].meta.annotations {
      FinishedSource(r, e.actor, key, e.now.value);
      FinishesKept(w, w', key, w.objs[key], w'.objs[key]);
    }
  }

  /** The annotation comes from the Sidecar that finished, or was there before. */
  lemma FinishedSource(r: Run, actor: Actor, key: Ref, n: Object)
    requires key.kind == AccessKind && Enabled(r, Change(actor, key, Some(n)))
    requires CleanupFinished in n.meta.annotations && AccessOk(r.world, key) && CleanupOk(r.world, key)
    ensures key in r.world.objs && n.body.Access? && n.meta.deleting && r.world.objs[key].body.Access?
    ensures n.meta.uid == r.world.objs[key].meta.uid && n.body.aspec == r.world.objs[key].body.aspec
    ensures n.body.astatus.accountId == r.world.objs[key].body.astatus.accountId
    ensures SidecarFinishes(r.world, key, r.world.objs[key])
  {
    var w := r.world;
    match actor
    case User =>
      assert CleanupFinished in n.meta.annotations * COSI_ANNOTATIONS <==> CleanupFinished in n.meta.annotations;
      assert CleanupFinished in w.objs[key].meta.annotations * COSI_ANNOTATIONS <==>
        CleanupFinished in w.objs[key].meta.annotations;
    case AccessController(k) => assert k == key;
    case AccessSidecar(_, k) => assert k == key;
    case _ =>
  }

  lemma FinishesKept(w: World, w': World, key: Ref, a: Object, n: Object)
    requires a.body.Access? && n.body.Access? && n.meta.deleting && n.meta.uid == a.meta.uid
    requires n.body.aspec == a.body.aspec
    requires n.body.astatus.accountId == a.body.astatus.accountId && key.kind == AccessKind
    requires w'.calls == w.calls && (forall s :: s != key ==> (s in w.objs <==> s in w'.objs))
    requires forall s :: s != key && s in w.objs ==> w'.objs[s] == w.objs[s]
    requires SidecarFinishes(w, key, a)
    ensures SidecarFinishes(w', key, n)
  {
  }

  lemma {:induction false} CleanupHolds(r: Run, key: Ref)
    requires IsRun(r) && key.kind == AccessKind
    ensures CleanupOk(r.world, key)
  {
    hide Permitted;
    if r.More? {
      CleanupHolds(r.prev, key);
      AccessHolds(r.prev, key);
      var w, e := r.prev.world, r.event;
      if e.Called? {
        if key in w.objs && w.objs[key].body.Access? {
          MoreCallsGranted(w.calls, e.call, w.objs[key].meta.uid, w.objs[key].body.astatus.accountId);
        }
      } else if e.ref == key {
        CleanupKeyStep(r.prev, e, key);
      } else if e.ref.kind == SecretKind && key in w.objs && w.objs[key].body.Access?
          && CleanupFinished in w.objs[key].meta.annotations {
        BasicHolds(r.prev);
        SecretCauses(r.prev, e.actor, e.ref, e.now);
        SecretChangeKeepsGone(w, e, key, w.objs[key].meta.uid, w.objs[key].body.aspec.claims);
      }
    }
  }
}
