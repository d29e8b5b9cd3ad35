/** The end of the grant path: filling the Secrets from one reply. */
module SidecarFill {
  import opened Objects
  import opened Rpc
  import opened Errors
  import opened Translator
  import opened Runs
  import opened Rules
  import opened Invariants
  import opened Clusters
  import opened Rely
  import opened GrantPipeline
  import opened SidecarReserve
  import opened SidecarGrant

  // One Secret

  function Filling(s: Object, data: Vars): Object
    requires s.body.Secret?
  {
    s.(body := s.body.(stringData := data))
  }

  function WithData(s: Object, data: Vars): Object
    requires s.body.Secret?
  {
    s.(body := s.body.(data := data))
  }

  function SecretOf(key: Ref, a: Object, i: nat): Ref
    requires a.body.Access? && i < |a.body.aspec.claims|
  {
    SecretRefOf(key, a.body.aspec.claims[i].secretName)
  }

  /** The API server merges stringData into data, but a Secret of the access holds no other keys. */
  lemma MergeReplaces(r: Run, key: Ref, secret: Ref, data: Vars)
    requires IsRun(r) && key.kind == AccessKind && key in r.world.objs && r.world.objs[key].body.Access?
    requires secret.kind == SecretKind && OwnedBy(r.world, secret, r.world.objs[key].meta.uid)
    requires data.Keys == SecretKeys(r.world.objs[key].body.aspec.protocol)
    ensures r.world.objs[secret].body.data + data == data
  {
    hide Permitted, Enabled, IsRun;
    SecretsHold(r, secret, key);
  }

  /** `data` for claim `i` comes from the latest reply. */
  ghost predicate Deliverable(calls: seq<Call>, a: Object, i: nat, data: Vars, reply: GrantReply) {
    && a.body.Access? && i < |a.body.aspec.claims| && LastWithId(a.body.astatus, i)
    && LatestReply(calls, a.meta.uid) == Some(reply) && FilledBy(reply, a.body.aspec, a.body.astatus, i, data)
  }

  lemma DeliverableIsFresh(calls: seq<Call>, a: Object, i: nat, data: Vars, reply: GrantReply)
    requires Deliverable(calls, a, i, data, reply)
    ensures FreshFor(calls, a.meta.uid, a.body.aspec, a.body.astatus, a.body.aspec.claims[i].secretName, data)
    ensures data.Keys == SecretKeys(a.body.aspec.protocol)
  {
    hide FilledFrom;
  }

  lemma SafeFill(r: Run, driver: string, key: Ref, a: Object, s: Object, data: Vars, i: nat, reply: GrantReply)
    requires IsRun(r) && Holds(r.world, driver, key, a) && Deliverable(r.world.calls, a, i, data, reply)
    requires Seen(r, SecretOf(key, a, i), s) && s.body.Secret? && s.body.owner == Some(a.meta.uid)
    requires UpdateApplies(r.world, SecretOf(key, a, i), Filling(s, data))
    ensures Current(r.world, SecretOf(key, a, i), s) && Updated(s, Filling(s, data)) == Some(WithData(s, data))
    ensures Enabled(r, Change(AccessSidecar(driver, key), SecretOf(key, a, i), Some(WithData(s, data))))
  {
    hide IsRun, Seen, FilledBy, LatestReply, FreshFor;
    var ref := SecretOf(key, a, i);
    SeenIsCurrent(r, ref, s);
    BasicHolds(r);
    DeliverableIsFresh(r.world.calls, a, i, data, reply);
    MergeReplaces(r, key, ref, data);
  }

  lemma AfterFill(p: Run, r: Run, driver: string, key: Ref, a: Object, s: Object, data: Vars, i: nat, reply: GrantReply)
    requires Serving(p, r, driver, key, a, {}) && Deliverable(r.world.calls, a, i, data, reply)
    requires s.body.Secret? && Reserved(r.world, SecretOf(key, a, i), a.meta.uid)
    requires r.world.objs[SecretOf(key, a, i)] == s
    ensures
      var r' := Extend(r, Change(AccessSidecar(driver, key), SecretOf(key, a, i), Some(WithData(s, data))));
      Serving(p, r', driver, key, a, {SecretOf(key, a, i)}) && ClaimFilledBy(r'.world, key, a, i, reply)
  {
    hide Prefix, KeepsReserved, FilledFrom;
    var ref := SecretOf(key, a, i);
    OwnWriteServing(p, r, driver, key, a, {}, ref, Some(WithData(s, data)));
    assert {} + {ref} == {ref};
  }

  lemma FillApplies(r: Run, ref: Ref, s: Object, data: Vars)
    requires IsRun(r) && ref.kind == SecretKind && Current(r.world, ref, s) && s.body.Secret?
    ensures UpdateApplies(r.world, ref, Filling(s, data))
  {
    hide Permitted, Enabled, IsRun;
    BasicHolds(r);
  }

  method FillSecret(c: Cluster, driver: string, key: Ref, a: Object, s: Object, data: Vars, name: string,
                    ghost i: nat, ghost reply: GrantReply) returns (err: Option<Error>)
    requires c.Valid() && Holds(c.run.world, driver, key, a) && Deliverable(c.run.world.calls, a, i, data, reply)
    requires name == a.body.aspec.claims[i].secretName && SecretHeld(c.run, key, a.meta.uid, name, s)
    modifies c
    ensures c.Valid() && Serving(old(c.run), c.run, driver, key, a, {SecretRefOf(key, name)})
    ensures LatestReply(c.run.world.calls, a.meta.uid) == Some(reply)
    ensures err.None? ==> ClaimFilledBy(c.run.world, key, a, i, reply)
    ensures old(c.Calm()) ==> c.Calm() && SameBut(old(c.run).world, c.run.world, {SecretRefOf(key, name)})
    ensures old(c.Calm()) && Current(old(c.run).world, SecretRefOf(key, name), s) ==> err.None?
  {
    hide Permitted, Enabled, Conforms, UpdateApplies, Updated, IsRun, OnlyOthers, Serving, Seen, LastWithId,
         ClaimFilledBy, KeepsReserved, LatestReply, FilledBy;
    var me, ref := AccessSidecar(driver, key), SecretRefOf(key, name);
    ghost var r0, calm := c.run, c.Calm();
    c.Yield(me);
    ghost var r1 := c.run;
    OthersKeepServing(r0, r1, driver, key, a);
    ServingHolds(r0, r1, driver, key, a, {});
    StaysHeld(r0, r1, driver, key, a, {}, name, s);
    LatestStays(r0, r1, driver, key, a);
    if calm && Current(r0.world, ref, s) { FillApplies(r1, ref, s, data); }
    if UpdateApplies(c.run.world, ref, Filling(s, data)) {
      SafeFill(r1, driver, key, a, s, data, i, reply);
      AfterFill(r0, r1, driver, key, a, s, data, i, reply);
    }
    var updated := c.Update(me, ref, Filling(s, data));
    if c.run == r1 { ServingWiden(r0, r1, driver, key, a, {ref}); }
    err := if updated.Err? then Some(Plain) else None;
  }

  lemma ServingWiden(p: Run, r: Run, driver: string, key: Ref, a: Object, written: set<Ref>)
    requires Serving(p, r, driver, key, a, {})
    ensures Serving(p, r, driver, key, a, written)
  {
  }

  // All Secrets

  /** Every Secret is reserved, and those of the bucket IDs outside `todo` are filled from the reply. */
  ghost predicate FilledBut(w: World, key: Ref, a: Object, todo: set<string>, reply: GrantReply)
    requires a.body.Access?
  {
    forall i: nat :: i < |a.body.aspec.claims| ==>
      && Reserved(w, SecretOf(key, a, i), a.meta.uid)
      && (LastWithId(a.body.astatus, i) && a.body.astatus.accessed[i].bucketId !in todo ==>
            ClaimFilledBy(w, key, a, i, reply))
  }

  /** The Secrets of the bucket IDs in `todo` are held; if `asRead`, as they were last read. */
  ghost predicate HeldFor(r: Run, key: Ref, uid: Uid, cfg: map<string, BucketConfig>, secrets: map<string, Object>,
                          todo: set<string>, asRead: bool) {
    forall id :: id in todo && id in cfg ==>
      && cfg[id].secretName in secrets && SecretHeld(r, key, uid, cfg[id].secretName, secrets[cfg[id].secretName])
      && (asRead ==> Current(r.world, SecretRefOf(key, cfg[id].secretName), secrets[cfg[id].secretName]))
  }

  lemma LastFor(a: Object, cfg: map<string, BucketConfig>, id: string) returns (i: nat)
    requires a.body.Access? && ConfiguredFor(a.body.aspec, a.body.astatus, cfg) && id in cfg
    requires |a.body.astatus.accessed| == |a.body.aspec.claims|
    ensures LastWithId(a.body.astatus, i) && i < |a.body.aspec.claims| && a.body.astatus.accessed[i].bucketId == id
    ensures a.body.aspec.claims[i].secretName == cfg[id].secretName
  {
    assert id in AccessedIds(a.body.astatus);
    var j: nat :| j < |a.body.astatus.accessed| && a.body.astatus.accessed[j].bucketId == id;
    i := LastExists(a.body.astatus, j);
  }

  lemma DistinctSecrets(a: Object, cfg: map<string, BucketConfig>, id: string, other: string)
    requires a.body.Access? && ConfiguredFor(a.body.aspec, a.body.astatus, cfg)
    requires |a.body.astatus.accessed| == |a.body.aspec.claims|
    requires UniqueSecrets(a.body.aspec.claims) && id in cfg && other in cfg && id != other
    ensures cfg[id].secretName != cfg[other].secretName
  {
    hide ConfiguredFor, LastWithId;
    var i := LastFor(a, cfg, id);
    var j := LastFor(a, cfg, other);
  }

  lemma OthersStayHeld(p: Run, r: Run, driver: string, key: Ref, a: Object, cfg: map<string, BucketConfig>,
                       secrets: map<string, Object>, todo: set<string>, asRead: bool, id: string)
    requires a.body.Access? && ConfiguredFor(a.body.aspec, a.body.astatus, cfg)
    requires |a.body.astatus.accessed| == |a.body.aspec.claims| && UniqueSecrets(a.body.aspec.claims) && id in cfg
    requires Serving(p, r, driver, key, a, {SecretRefOf(key, cfg[id].secretName)})
    requires HeldFor(p, key, a.meta.uid, cfg, secrets, todo, asRead)
    requires asRead ==> SameBut(p.world, r.world, {SecretRefOf(key, cfg[id].secretName)})
    ensures HeldFor(r, key, a.meta.uid, cfg, secrets, todo - {id}, asRead)
  {
    hide Serving, SecretHeld, ConfiguredFor, UniqueSecrets;
    var ref := SecretRefOf(key, cfg[id].secretName);
    forall other | other in todo - {id} && other in cfg
      ensures cfg[other].secretName in secrets
      ensures SecretHeld(r, key, a.meta.uid, cfg[other].secretName, secrets[cfg[other].secretName])
      ensures asRead ==> Current(r.world, SecretRefOf(key, cfg[other].secretName), secrets[cfg[other].secretName])
    {
      DistinctSecrets(a, cfg, id, other);
      StaysHeld(p, r, driver, key, a, {ref}, cfg[other].secretName, secrets[cfg[other].secretName]);
    }
  }

  lemma ClaimStaysFilled(p: Run, r: Run, driver: string, key: Ref, a: Object, written: set<Ref>, i: nat,
                         reply: GrantReply)
    requires a.body.Access? && i < |a.body.aspec.claims| && ClaimFilledBy(p.world, key, a, i, reply)
    requires Serving(p, r, driver, key, a, written) && SecretOf(key, a, i) !in written
    ensures ClaimFilledBy(r.world, key, a, i, reply)
  {
    hide FilledBy, Holds, Prefix;
  }

  lemma OneMoreFilled(p: Run, r: Run, driver: string, key: Ref, a: Object, todo: set<string>, i: nat, reply: GrantReply)
    requires a.body.Access? && UniqueSecrets(a.body.aspec.claims) && i < |a.body.aspec.claims|
    requires LastWithId(a.body.astatus, i)
    requires Serving(p, r, driver, key, a, {SecretOf(key, a, i)})
    requires FilledBut(p.world, key, a, todo, reply) && ClaimFilledBy(r.world, key, a, i, reply)
    ensures FilledBut(r.world, key, a, todo - {a.body.astatus.accessed[i].bucketId}, reply)
  {
    hide FilledBy, Holds, Prefix;
    forall j: nat | j < |a.body.aspec.claims|
      ensures Reserved(r.world, SecretOf(key, a, j), a.meta.uid)
      ensures LastWithId(a.body.astatus, j) &&
              a.body.astatus.accessed[j].bucketId !in todo - {a.body.astatus.accessed[i].bucketId} ==>
                ClaimFilledBy(r.world, key, a, j, reply)
    {
      if j != i {
        assert Reserved(p.world, SecretOf(key, a, j), a.meta.uid);
        if LastWithId(a.body.astatus, j) && a.body.astatus.accessed[j].bucketId !in todo {
          ClaimStaysFilled(p, r, driver, key, a, {SecretOf(key, a, i)}, j, reply);
        }
      }
    }
  }

  lemma ObtainedData(a: Object, cfg: map<string, BucketConfig>, d: GrantDetails, reply: GrantReply, i: nat)
    requires a.body.Access? && Obtained(a, cfg, d, reply) && i < |a.body.aspec.claims| && LastWithId(a.body.astatus, i)
    ensures a.body.astatus.accessed[i].bucketId in d.infoById
    ensures FilledBy(reply, a.body.aspec, a.body.astatus, i, SecretData(d, a.body.astatus.accessed[i].bucketId))
  {
  }

  lemma ObtainedKeys(a: Object, cfg: map<string, BucketConfig>, d: GrantDetails, reply: GrantReply)
    requires a.body.Access? && Obtained(a, cfg, d, reply)
    ensures cfg.Keys == d.infoById.Keys && ConfiguredFor(a.body.aspec, a.body.astatus, cfg)
    ensures d.accountId == reply.accountId != ""
  {
  }

  lemma HeldForOne(r: Run, key: Ref, uid: Uid, cfg: map<string, BucketConfig>, secrets: map<string, Object>,
                   todo: set<string>, asRead: bool, id: string)
    requires HeldFor(r, key, uid, cfg, secrets, todo, asRead) && id in todo && id in cfg
    ensures cfg[id].secretName in secrets && SecretHeld(r, key, uid, cfg[id].secretName, secrets[cfg[id].secretName])
    ensures asRead ==> Current(r.world, SecretRefOf(key, cfg[id].secretName), secrets[cfg[id].secretName])
  {
  }

  /**
   * The order in which the buckets are visited is not specified. If `asRead`, the Secrets are as they were last
   * read, and filling them undisturbed succeeds.
   */
  method FillSecrets(c: Cluster, driver: string, key: Ref, a: Object, cfg: map<string, BucketConfig>, d: GrantDetails,
                     secrets: map<string, Object>, ghost asRead: bool, ghost reply: GrantReply)
    returns (err: Option<Error>)
    requires c.Valid() && Holds(c.run.world, driver, key, a) && Obtained(a, cfg, d, reply)
    requires LatestReply(c.run.world.calls, a.meta.uid) == Some(reply)
    requires |a.body.astatus.accessed| == |a.body.aspec.claims| && UniqueSecrets(a.body.aspec.claims)
    requires HeldFor(c.run, key, a.meta.uid, cfg, secrets, cfg.Keys, asRead)
    requires FilledBut(c.run.world, key, a, cfg.Keys, reply)
    modifies c
    ensures c.Valid() && Prefix(old(c.run), c.run) && Holds(c.run.world, driver, key, a)
    ensures LatestReply(c.run.world.calls, a.meta.uid) == Some(reply)
    ensures err.None? ==> FilledBut(c.run.world, key, a, {}, reply)
    ensures old(c.Calm()) ==> c.Calm() && (Current(old(c.run).world, key, a) ==> Current(c.run.world, key, a))
    ensures old(c.Calm()) && asRead ==> err.None?
  {
    hide Permitted, Enabled, Conforms, IsRun, OnlyOthers, Serving, SecretHeld, Prefix, HeldFor, FilledBut, LastWithId,
         FilledBy, ClaimFilledBy, ConfiguredFor, SecretData, Obtained, UniqueSecrets, LatestReply, SameBut;
    var errs: seq<Error> := [];
    var todo := d.infoById.Keys;
    ghost var calm, w0 := c.Calm(), c.run.world;
    ghost var steady := calm && asRead;
    HeldForLess(c.run, key, a.meta.uid, cfg, secrets, todo, asRead, steady);
    ObtainedKeys(a, cfg, d, reply);
    PrefixNext(c.run, c.run);
    while todo != {}
      invariant c.Valid() && Holds(c.run.world, driver, key, a) && Prefix(old(c.run), c.run)
      invariant todo <= d.infoById.Keys && HeldFor(c.run, key, a.meta.uid, cfg, secrets, todo, steady)
      invariant LatestReply(c.run.world.calls, a.meta.uid) == Some(reply)
      invariant errs == [] ==> FilledBut(c.run.world, key, a, todo, reply)
      invariant calm ==> c.Calm() && (Current(w0, key, a) ==> Current(c.run.world, key, a))
      invariant steady ==> errs == []
      decreases |todo|
    {
      var id :| id in todo;
      ghost var i := LastFor(a, cfg, id);
      ghost var r1 := c.run;
      ObtainedData(a, cfg, d, reply, i);
      HeldForOne(r1, key, a.meta.uid, cfg, secrets, todo, steady, id);
      if id !in cfg { assert false; }
      var name := cfg[id].secretName;
      if name !in secrets { assert false; }
      var failure := FillSecret(c, driver, key, a, secrets[name], SecretData(d, id), name, i, reply);
      ServingHolds(r1, c.run, driver, key, a, {SecretRefOf(key, name)});
      if calm && Current(w0, key, a) { AccessStays(r1.world, c.run.world, key, a, name); }
      PrefixTransitive(old(c.run), r1, c.run);
      OthersStayHeld(r1, c.run, driver, key, a, cfg, secrets, todo, steady, id);
      if failure.Some? {
        errs := errs + [failure.value];
      } else if errs == [] {
        OneMoreFilled(r1, c.run, driver, key, a, todo, i, reply);
      }
      todo := todo - {id};
    }
    err := if errs != [] then Some(Wrapped(Joined(errs))) else None;
  }

  lemma AccessStays(w: World, w': World, key: Ref, a: Object, name: string)
    requires Current(w, key, a) && SameBut(w, w', {SecretRefOf(key, name)}) && key.kind == AccessKind
    ensures Current(w', key, a)
  {
  }

  lemma HeldForLess(r: Run, key: Ref, uid: Uid, cfg: map<string, BucketConfig>, secrets: map<string, Object>,
                    todo: set<string>, asRead: bool, steady: bool)
    requires HeldFor(r, key, uid, cfg, secrets, cfg.Keys, asRead) && (steady ==> asRead)
    ensures HeldFor(r, key, uid, cfg, secrets, todo, steady)
  {
  }
}
