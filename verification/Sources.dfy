/** Which grant the data of a Secret comes from, and when all Secrets of an access share their credentials. */
module Sources {
  import opened Objects
  import opened Rpc
  import opened Protocols
  import opened Translator
  import opened Runs
  import opened Rules
  import opened Invariants
  import opened Readiness

  predicate ChangesData(w: World, e: Event, secret: Ref) {
    && e.Change? && e.ref == secret && e.now.Some? && e.now.value.body.Secret?
    && (secret in w.objs && w.objs[secret].body.Secret? ==> w.objs[secret].body.data != e.now.value.body.data)
  }

  /** How many driver calls were logged when the Secret got the data that it holds. */
  function FillTime(r: Run, secret: Ref): (t: nat)
    decreases r
  {
    match r
    case Start(_) => 0
    case More(prev, e, _) => if ChangesData(prev.world, e, secret) then |prev.world.calls| else FillTime(prev, secret)
  }

  lemma {:induction false} FillTimeBound(r: Run, secret: Ref)
    requires IsRun(r)
    ensures FillTime(r, secret) <= |r.world.calls|
  {
    hide Permitted, Enabled;
    if r.More? { FillTimeBound(r.prev, secret); }
  }

  /** The data comes from the grant that was the latest when it was stored. */
  ghost predicate SourceOk(r: Run, secret: Ref, key: Ref) {
    key in r.world.objs && r.world.objs[key].body.Access? && OwnedBy(r.world, secret, r.world.objs[key].meta.uid) ==>
      var a, data, t := r.world.objs[key], r.world.objs[secret].body.data, FillTime(r, secret);
      data != map[] && t <= |r.world.calls| ==>
        FreshFor(r.world.calls[..t], a.meta.uid, a.body.aspec, a.body.astatus, secret.name, data)
  }

  lemma FreshFixed(calls: seq<Call>, a: Object, b: Object, name: string, data: Vars)
    requires SameConfiguration(a, b) && FreshFor(calls, a.meta.uid, a.body.aspec, a.body.astatus, name, data)
    ensures FreshFor(calls, b.meta.uid, b.body.aspec, b.body.astatus, name, data)
  {
    hide FilledFrom, LatestReply;
    var s, t := a.body.astatus, b.body.astatus;
    assert forall i: nat :: LastWithId(s, i) <==> LastWithId(t, i);
  }

  lemma SourceSecretStep(r: Run, secret: Ref, key: Ref)
    requires r.More? && r.world == After(r.prev.world, r.event) && r.event.Change? && r.event.ref == secret
    requires secret.kind == SecretKind
    requires SecretEffect(r.prev.world, r.event.actor, secret, r.event.now) && Basic(r.prev.world)
    requires key.kind == AccessKind
    requires SourceOk(r.prev, secret, key)
    ensures SourceOk(r, secret, key)
  {
    hide FreshFor;
    var w := r.prev.world;
    assert w.calls[..|w.calls|] == w.calls;
  }

  lemma SourceKeyStep(r: Run, secret: Ref, key: Ref, a: Object, b: Object)
    requires r.More? && r.world == After(r.prev.world, r.event) && r.event.Change? && r.event.ref == key
    requires secret != key
    requires SourceOk(r.prev, secret, key) && key in r.prev.world.objs && r.prev.world.objs[key] == a
    requires key in r.world.objs && r.world.objs[key] == b && SameConfiguration(a, b)
    ensures SourceOk(r, secret, key)
  {
    hide FreshFor, SameConfiguration;
    ConfigurationUid(a, b);
    var w, t := r.prev.world, FillTime(r, secret);
    assert t == FillTime(r.prev, secret) && r.world.calls == w.calls;
    if OwnedBy(w, secret, a.meta.uid) && t <= |w.calls| && w.objs[secret].body.data != map[] {
      FreshFixed(w.calls[..t], a, b, secret.name, w.objs[secret].body.data);
    }
  }

  lemma ConfigurationUid(a: Object, b: Object)
    requires SameConfiguration(a, b)
    ensures a.body.Access? && b.body.Access? && a.meta.uid == b.meta.uid
  {
  }

  /** A controlled Secret belongs to an access that was there, initialised, before the event. */
  lemma OwnerWasThere(r: Run, e: Event, secret: Ref, key: Ref)
    requires IsRun(r) && Enabled(r, e) && e.Change? && e.ref == key && key.kind == AccessKind
    requires secret.kind == SecretKind
    requires key in After(r.world, e).objs && After(r.world, e).objs[key].body.Access?
    requires OwnedBy(r.world, secret, After(r.world, e).objs[key].meta.uid)
    ensures key in r.world.objs && SameConfiguration(r.world.objs[key], After(r.world, e).objs[key])
  {
    hide Permitted;
    BasicHolds(r);
    OwnersHold(r);
    assert key in r.world.objs;
    SecretsHold(r, secret, key);
    ConfigurationFixed(r, e, key);
  }

  lemma {:induction false} SourcesHold(r: Run, secret: Ref, key: Ref)
    requires IsRun(r) && secret.kind == SecretKind && key.kind == AccessKind
    ensures SourceOk(r, secret, key)
  {
    hide Permitted, Enabled, FreshFor;
    if r.More? {
      SourcesHold(r.prev, secret, key);
      var w, e := r.prev.world, r.event;
      FillTimeBound(r.prev, secret);
      if e.Called? {
        assert r.world.calls[..FillTime(r, secret)] == w.calls[..FillTime(r, secret)];
      } else if e.ref == secret {
        BasicHolds(r.prev);
        SecretCauses(r.prev, e.actor, secret, e.now);
        SourceSecretStep(r, secret, key);
      } else if e.ref == key && key in r.world.objs && r.world.objs[key].body.Access? {
        if OwnedBy(w, secret, r.world.objs[key].meta.uid) {
          OwnerWasThere(r.prev, e, secret, key);
          SourceKeyStep(r, secret, key, w.objs[key], r.world.objs[key]);
        }
      }
    }
  }

  // Shared credentials

  /** The reply that filled the Secret of claim `i`. */
  function SourceOf(r: Run, key: Ref, a: Object, i: nat): Option<GrantReply>
    requires a.body.Access? && i < |a.body.aspec.claims|
  {
    var t := FillTime(r, SecretRefOf(key, a.body.aspec.claims[i].secretName));
    if t <= |r.world.calls| then LatestReply(r.world.calls[..t], a.meta.uid) else None
  }

  lemma ServedSource(r: Run, key: Ref, i: nat)
    requires IsRun(r) && key.kind == AccessKind && key in r.world.objs && r.world.objs[key].body.Access?
    requires !r.world.objs[key].meta.deleting && r.world.objs[key].body.astatus.ready == Some(true)
    requires i < |r.world.objs[key].body.aspec.claims| && LastWithId(r.world.objs[key].body.astatus, i)
    ensures
      var a := r.world.objs[key];
      var secret := SecretRefOf(key, a.body.aspec.claims[i].secretName);
      && SourceOf(r, key, a, i).Some? && secret in r.world.objs && r.world.objs[secret].body.Secret?
      && FilledBy(SourceOf(r, key, a, i).value, a.body.aspec, a.body.astatus, i, r.world.objs[secret].body.data)
  {
    hide Permitted, Enabled, IsRun, FilledBy;
    var a := r.world.objs[key];
    var secret := SecretRefOf(key, a.body.aspec.claims[i].secretName);
    FilledIffLast(r, key, i);
    ReadyHolds(r, key);
    SourcesHold(r, secret, key);
    FillTimeBound(r, secret);
    var data := r.world.objs[secret].body.data;
    FreshHere(r.world.calls[..FillTime(r, secret)], a, i, data);
  }

  lemma FreshHere(calls: seq<Call>, a: Object, i: nat, data: Vars)
    requires a.body.Access? && UniqueSecrets(a.body.aspec.claims) && i < |a.body.aspec.claims|
    requires LastWithId(a.body.astatus, i)
    requires FreshFor(calls, a.meta.uid, a.body.aspec, a.body.astatus, a.body.aspec.claims[i].secretName, data)
    ensures LatestReply(calls, a.meta.uid).Some?
    ensures FilledBy(LatestReply(calls, a.meta.uid).value, a.body.aspec, a.body.astatus, i, data)
  {
    hide FilledBy, LatestReply;
    var j :| 0 <= j < |a.body.aspec.claims| && a.body.aspec.claims[j].secretName == a.body.aspec.claims[i].secretName &&
             LastWithId(a.body.astatus, j)
               && FilledBy(LatestReply(calls, a.meta.uid).value, a.body.aspec, a.body.astatus, j, data);
    assert i == j;
  }

  lemma CredentialKind(ci: CredentialInfo, p: Protocol)
    ensures CredentialVars(ci).Keys !! InfoKeys(p)
  {
    hide CredentialKeys, InfoKeys;
    var s3, azure, gcs := S3CredentialToApi(ci.s3), AzureCredentialToApi(ci.azure), GcsCredentialToApi(ci.gcs);
    CredentialKeysOf(ci);
    KeysDisjoint(p, S3);
    KeysDisjoint(p, Azure);
    KeysDisjoint(p, Gcs);
    assert CredentialVars(ci).Keys == s3.Keys + azure.Keys + gcs.Keys;
  }

  lemma CredentialKeysOf(ci: CredentialInfo)
    ensures S3CredentialToApi(ci.s3).Keys <= CredentialKeys(S3)
    ensures AzureCredentialToApi(ci.azure).Keys <= CredentialKeys(Azure)
    ensures GcsCredentialToApi(ci.gcs).Keys <= CredentialKeys(Gcs)
  {
  }

  lemma InfoKind(bi: BucketInfo, p: Protocol)
    ensures InfoVars(bi).Keys !! CredentialKeys(p)
  {
    hide CredentialKeys, InfoKeys;
    var s3, azure, gcs := S3InfoToApi(bi.s3), AzureInfoToApi(bi.azure), GcsInfoToApi(bi.gcs);
    InfoKeysOf(bi);
    KeysDisjoint(S3, p);
    KeysDisjoint(Azure, p);
    KeysDisjoint(Gcs, p);
    assert InfoVars(bi).Keys == s3.Keys + azure.Keys + gcs.Keys;
  }

  lemma InfoKeysOf(bi: BucketInfo)
    ensures S3InfoToApi(bi.s3).Keys <= InfoKeys(S3) && AzureInfoToApi(bi.azure).Keys <= InfoKeys(Azure)
    ensures GcsInfoToApi(bi.gcs).Keys <= InfoKeys(Gcs)
  {
  }

  lemma RestrictFirst(x: Vars, y: Vars, kx: set<Var>, ky: set<Var>)
    requires x.Keys !! ky && y.Keys !! kx && (x + y).Keys == ky + kx
    ensures Restrict(x + y, kx) == x
  {
    forall k | k in x ensures k in kx { assert k in (x + y).Keys; }
  }

  lemma CredentialPartOf(reply: GrantReply, spec: AccessSpec, s: AccessStatus, i: nat, data: Vars)
    requires i < |s.accessed| && FilledBy(reply, spec, s, i, data)
    ensures reply.credentials.Some?
    ensures Restrict(data, CredentialKeys(spec.protocol)) == CredentialVars(reply.credentials.value)
  {
    hide CredentialVars, InfoVars, CredentialKeys, InfoKeys, Restrict, CompleteCredential, CompleteInfo;
    var info := InfoFor(reply.buckets, s.accessed[i].bucketId).value;
    CredentialKind(reply.credentials.value, spec.protocol);
    InfoKind(info, spec.protocol);
    RestrictFirst(CredentialVars(reply.credentials.value), InfoVars(info), CredentialKeys(spec.protocol),
                  InfoKeys(spec.protocol));
  }

  /** The Secrets of claims `i` and `j` hold the same credentials. */
  ghost predicate ShareCredentials(w: World, key: Ref, a: Object, i: nat, j: nat)
    requires a.body.Access? && i < |a.body.aspec.claims| && j < |a.body.aspec.claims|
  {
    var x, y := SecretRefOf(key, a.body.aspec.claims[i].secretName),
      SecretRefOf(key, a.body.aspec.claims[j].secretName);
    && x in w.objs && y in w.objs && w.objs[x].body.Secret? && w.objs[y].body.Secret?
    && Restrict(w.objs[x].body.data, CredentialKeys(a.body.aspec.protocol))
       == Restrict(w.objs[y].body.data, CredentialKeys(a.body.aspec.protocol))
  }

  /**
   * Two served claims of a ready access share their credentials if and only if the replies that were the latest when
   * their Secrets were last filled carry the same ones.
   */
  lemma SharedIffSourcesAgree(r: Run, key: Ref, i: nat, j: nat)
    requires IsRun(r) && key.kind == AccessKind && key in r.world.objs && r.world.objs[key].body.Access?
    requires !r.world.objs[key].meta.deleting && r.world.objs[key].body.astatus.ready == Some(true)
    requires i < |r.world.objs[key].body.aspec.claims| && LastWithId(r.world.objs[key].body.astatus, i)
    requires j < |r.world.objs[key].body.aspec.claims| && LastWithId(r.world.objs[key].body.astatus, j)
    ensures
      var a := r.world.objs[key];
      var x, y := SourceOf(r, key, a, i), SourceOf(r, key, a, j);
      && x.Some? && y.Some? && x.value.credentials.Some? && y.value.credentials.Some?
      && (ShareCredentials(r.world, key, a, i, j) <==>
          CredentialVars(x.value.credentials.value) == CredentialVars(y.value.credentials.value))
  {
    hide Permitted, Enabled, IsRun, FilledBy;
    var a := r.world.objs[key];
    ServedSource(r, key, i);
    ServedSource(r, key, j);
    var x, y := SecretRefOf(key, a.body.aspec.claims[i].secretName),
      SecretRefOf(key, a.body.aspec.claims[j].secretName);
    CredentialPartOf(SourceOf(r, key, a, i).value, a.body.aspec, a.body.astatus, i, r.world.objs[x].body.data);
    CredentialPartOf(SourceOf(r, key, a, j).value, a.body.aspec, a.body.astatus, j, r.world.objs[y].body.data);
  }
}
