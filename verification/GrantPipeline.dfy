/** From an initialised BucketAccess to a grant request, and from the response to Secret data. */
module GrantPipeline {
  import opened Objects
  import opened Rpc
  import opened Errors
  import opened Protocols
  import opened Translator
  import opened Rules

  datatype BucketConfig = BucketConfig(mode: RpcMode, secretName: string)

  // Accessed Buckets by claim

  /** The bucket ID recorded for a claim; a later entry replaces an earlier one. */
  function IdOf(accessed: seq<AccessedBucket>, claimName: string): Option<string> {
    if accessed == [] then None
    else if accessed[|accessed| - 1].claimName == claimName then Some(accessed[|accessed| - 1].bucketId)
    else IdOf(accessed[..|accessed| - 1], claimName)
  }

  lemma {:induction false} IdOfAt(accessed: seq<AccessedBucket>, i: nat)
    requires i < |accessed|
    requires forall j :: i < j < |accessed| ==> accessed[j].claimName != accessed[i].claimName
    ensures IdOf(accessed, accessed[i].claimName) == Some(accessed[i].bucketId)
  {
    if i < |accessed| - 1 { IdOfAt(accessed[..|accessed| - 1], i); }
  }

  /** On accesses that the Controller initialised, the i-th claim has the i-th ID. */
  lemma AlignedIds(spec: AccessSpec, s: AccessStatus, i: nat)
    requires Aligned(spec, s) && UniqueClaims(spec.claims) && i < |spec.claims|
    ensures IdOf(s.accessed, spec.claims[i].claimName) == Some(s.accessed[i].bucketId)
  {
    IdOfAt(s.accessed, i);
  }

  predicate Mapped(c: ClaimAccess, accessed: seq<AccessedBucket>) {
    IdOf(accessed, c.claimName).Some? && ModeToRpc(c.mode).Some?
  }

  /** One entry per bucket ID, made from the last claim with that ID. */
  ghost predicate Configured(claims: seq<ClaimAccess>, accessed: seq<AccessedBucket>, cfg: map<string, BucketConfig>) {
    && (forall i ::
          0 <= i < |claims| && Mapped(claims[i], accessed) ==> IdOf(accessed, claims[i].claimName).value in cfg)
    && (forall id :: id in cfg ==> exists i :: ConfiguredBy(claims, accessed, id, cfg[id], i))
  }

  ghost predicate ConfiguredBy(claims: seq<ClaimAccess>, accessed: seq<AccessedBucket>, id: string, cfg: BucketConfig,
                               i: int) {
    && 0 <= i < |claims| && IdOf(accessed, claims[i].claimName) == Some(id)
    && ModeToRpc(claims[i].mode) == Some(cfg.mode) && cfg.secretName == claims[i].secretName
    && forall j :: i < j < |claims| && Mapped(claims[j], accessed) ==> IdOf(accessed, claims[j].claimName) != Some(id)
  }

  lemma ConfiguredAppend(claims: seq<ClaimAccess>, c: ClaimAccess, accessed: seq<AccessedBucket>,
                         cfg: map<string, BucketConfig>)
    requires Configured(claims, accessed, cfg) && Mapped(c, accessed)
    ensures Configured(claims + [c], accessed,
                       cfg[IdOf(accessed, c.claimName).value := BucketConfig(ModeToRpc(c.mode).value, c.secretName)])
  {
    var all, added := claims + [c], IdOf(accessed, c.claimName).value;
    var cfg' := cfg[added := BucketConfig(ModeToRpc(c.mode).value, c.secretName)];
    assert ConfiguredBy(all, accessed, added, cfg'[added], |claims|);
    forall id | id in cfg && id != added
      ensures exists i :: ConfiguredBy(all, accessed, id, cfg'[id], i)
    {
      var i :| ConfiguredBy(claims, accessed, id, cfg[id], i);
      assert ConfiguredBy(all, accessed, id, cfg'[id], i);
    }
  }

  lemma ConfiguredSkip(claims: seq<ClaimAccess>, c: ClaimAccess, accessed: seq<AccessedBucket>,
                       cfg: map<string, BucketConfig>)
    requires Configured(claims, accessed, cfg) && !Mapped(c, accessed)
    ensures Configured(claims + [c], accessed, cfg)
  {
    forall id | id in cfg
      ensures exists i :: ConfiguredBy(claims + [c], accessed, id, cfg[id], i)
    {
      var i :| ConfiguredBy(claims, accessed, id, cfg[id], i);
      assert ConfiguredBy(claims + [c], accessed, id, cfg[id], i);
    }
  }

  method IdsByClaimName(accessed: seq<AccessedBucket>) returns (ids: map<string, string>)
    ensures forall name :: name in ids <==> IdOf(accessed, name).Some?
    ensures forall name :: name in ids ==> IdOf(accessed, name) == Some(ids[name])
  {
    ids := map[];
    for i := 0 to |accessed|
      invariant forall name :: name in ids <==> IdOf(accessed[..i], name).Some?
      invariant forall name :: name in ids ==> IdOf(accessed[..i], name) == Some(ids[name])
    {
      assert accessed[..i + 1][..i] == accessed[..i];
      ids := ids[accessed[i].claimName := accessed[i].bucketId];
    }
    assert accessed[..|accessed|] == accessed;
  }

  /** Fails exactly when a claim has no accessed Bucket or an access mode that the driver interface lacks. */
  method GenerateConfigs(spec: AccessSpec, s: AccessStatus) returns (cfg: map<string, BucketConfig>, err: Option<Error>)
    ensures err.None? <==> forall i :: 0 <= i < |spec.claims| ==> Mapped(spec.claims[i], s.accessed)
    ensures err.Some? ==> IsNonRetryable(err.value)
    ensures err.None? ==> Configured(spec.claims, s.accessed, cfg)
  {
    var ids := IdsByClaimName(s.accessed);
    cfg := map[];
    var errs: seq<Error> := [];
    for i := 0 to |spec.claims|
      invariant errs == [] <==> forall j :: 0 <= j < i ==> Mapped(spec.claims[j], s.accessed)
      invariant Configured(spec.claims[..i], s.accessed, cfg)
    {
      var claim := spec.claims[i];
      assert spec.claims[..i + 1] == spec.claims[..i] + [claim];
      var mode := ModeToRpc(claim.mode);
      if claim.claimName !in ids {
        ConfiguredSkip(spec.claims[..i], claim, s.accessed, cfg);
        errs := errs + [Plain];
      } else if mode.None? {
        ConfiguredSkip(spec.claims[..i], claim, s.accessed, cfg);
        errs := errs + [Plain];
      } else {
        ConfiguredAppend(spec.claims[..i], claim, s.accessed, cfg);
        cfg := cfg[ids[claim.claimName] := BucketConfig(mode.value, claim.secretName)];
      }
    }
    assert spec.claims[..|spec.claims|] == spec.claims;
    err := if errs != [] then Some(NonRetryable(Wrapped(Joined(errs)))) else None;
  }

  /** For an access that the Controller initialised: the entries of the last claims with each ID. */
  ghost predicate ConfiguredFor(spec: AccessSpec, s: AccessStatus, cfg: map<string, BucketConfig>) {
    && cfg.Keys == AccessedIds(s)
    && forall i: nat :: i < |spec.claims| && LastWithId(s, i) ==>
         var id := s.accessed[i].bucketId;
         id in cfg && cfg[id].secretName == spec.claims[i].secretName
           && ModeToRpc(spec.claims[i].mode) == Some(cfg[id].mode)
  }

  lemma {:induction false} LastExists(s: AccessStatus, i: nat) returns (k: nat)
    requires i < |s.accessed|
    ensures LastWithId(s, k) && s.accessed[k].bucketId == s.accessed[i].bucketId
    decreases |s.accessed| - i
  {
    if LastWithId(s, i) {
      k := i;
    } else {
      var j :| i < j < |s.accessed| && s.accessed[j].bucketId == s.accessed[i].bucketId;
      k := LastExists(s, j);
    }
  }

  lemma InitialisedConfigs(spec: AccessSpec, s: AccessStatus, cfg: map<string, BucketConfig>)
    requires Aligned(spec, s) && UniqueClaims(spec.claims) && Configured(spec.claims, s.accessed, cfg)
    requires forall i :: 0 <= i < |spec.claims| ==> Mapped(spec.claims[i], s.accessed)
    ensures ConfiguredFor(spec, s, cfg)
  {
    forall i: nat | i < |spec.claims|
      ensures IdOf(s.accessed, spec.claims[i].claimName) == Some(s.accessed[i].bucketId)
    {
      AlignedIds(spec, s, i);
    }
    forall i: nat | i < |spec.claims| && LastWithId(s, i)
      ensures
        var id := s.accessed[i].bucketId;
        id in cfg && cfg[id].secretName == spec.claims[i].secretName
          && ModeToRpc(spec.claims[i].mode) == Some(cfg[id].mode)
    {
      var id := s.accessed[i].bucketId;
      assert Mapped(spec.claims[i], s.accessed);
      var k :| ConfiguredBy(spec.claims, s.accessed, id, cfg[id], k);
      assert Mapped(spec.claims[k], s.accessed);
      assert k == i;
    }
  }

  // The request

  /** The order of the list is not specified, as the order of iteration over a Go map is not. */
  method GrantBucketsList(cfg: map<string, BucketConfig>) returns (out: seq<GrantBucket>)
    ensures forall i, j :: 0 <= i < j < |out| ==> out[i].id != out[j].id
    ensures forall i :: 0 <= i < |out| ==> out[i].id in cfg && out[i].mode == cfg[out[i].id].mode
    ensures forall id :: id in cfg ==> exists i :: 0 <= i < |out| && out[i].id == id
  {
    out := [];
    var todo := cfg.Keys;
    while todo != {}
      invariant todo <= cfg.Keys
      invariant forall i, j :: 0 <= i < j < |out| ==> out[i].id != out[j].id
      invariant forall i ::
          0 <= i < |out| ==> out[i].id in cfg && out[i].id !in todo && out[i].mode == cfg[out[i].id].mode
      invariant forall id :: id in cfg && id !in todo ==> exists i :: 0 <= i < |out| && out[i].id == id
      decreases |todo|
    {
      var id :| id in todo;
      ghost var before := out;
      out := out + [GrantBucket(id, cfg[id].mode)];
      todo := todo - {id};
      assert out[|before|].id == id;
      forall other | other in cfg && other !in todo
        ensures exists i :: 0 <= i < |out| && out[i].id == other
      {
        if other != id {
          var i :| 0 <= i < |before| && before[i].id == other;
          assert out[i].id == other;
        }
      }
    }
  }

  lemma RequestMatches(uid: Uid, spec: AccessSpec, s: AccessStatus, cfg: map<string, BucketConfig>, g: GrantRequest)
    requires ConfiguredFor(spec, s, cfg) && |s.accessed| == |spec.claims|
    requires g.accountName == AccountName(uid) && SharedConfigOf(spec, s) == Some(GrantConfig(g))
    requires forall i, j :: 0 <= i < j < |g.buckets| ==> g.buckets[i].id != g.buckets[j].id
    requires forall i ::
        0 <= i < |g.buckets| ==> g.buckets[i].id in cfg && g.buckets[i].mode == cfg[g.buckets[i].id].mode
    requires forall id :: id in cfg ==> exists i :: 0 <= i < |g.buckets| && g.buckets[i].id == id
    ensures GrantMatches(uid, spec, s, g)
  {
    assert GrantIds(g) == cfg.Keys;
    forall b | 0 <= b < |g.buckets|
      ensures GrantEntryMatches(spec, s, g.buckets[b])
    {
      assert g.buckets[b].id in AccessedIds(s);
      var i: nat :| i < |s.accessed| && s.accessed[i].bucketId == g.buckets[b].id;
      var k := LastExists(s, i);
    }
  }

  /** On accesses that the Controller initialised, only an unknown access mode can leave a claim unmapped. */
  lemma InitialisedMapped(spec: AccessSpec, s: AccessStatus, i: nat)
    requires Aligned(spec, s) && UniqueClaims(spec.claims) && i < |spec.claims|
    ensures Mapped(spec.claims[i], s.accessed) <==> ModeToRpc(spec.claims[i].mode).Some?
  {
    AlignedIds(spec, s, i);
  }

  method NewGrantRequest(uid: Uid, spec: AccessSpec, s: AccessStatus)
    returns (req: GrantRequest, cfg: map<string, BucketConfig>, err: Option<Error>)
    ensures err.None? <==>
            SharedConfigOf(spec, s).Some? && forall i :: 0 <= i < |spec.claims| ==> Mapped(spec.claims[i], s.accessed)
    ensures err.Some? ==> IsNonRetryable(err.value)
    ensures err.None? && Aligned(spec, s) && UniqueClaims(spec.claims) ==>
              ConfiguredFor(spec, s, cfg) && GrantMatches(uid, spec, s, req)
  {
    req, cfg := GrantRequest("", UnknownProtocol, UnknownAuth, "", map[], []), map[];
    var shared := SharedConfigOf(spec, s);
    if shared.None? {
      err := Some(NonRetryable(Plain));
      return;
    }
    cfg, err := GenerateConfigs(spec, s);
    if err.Some? { return; }
    var list := GrantBucketsList(cfg);
    req := GrantRequest(AccountName(uid), shared.value.protocol, shared.value.auth, shared.value.serviceAccount,
                        shared.value.params, list);
    if Aligned(spec, s) && UniqueClaims(spec.claims) {
      InitialisedConfigs(spec, s, cfg);
      RequestMatches(uid, spec, s, cfg, req);
    }
  }

  // The response

  datatype GrantDetails = GrantDetails(accountId: string, credentials: Vars, infoById: map<string, Vars>)

  ghost predicate GoodBucketEntry(b: GrantedBucket, p: Protocol) {
    b.id != "" && b.info.Some? && ExactlyInfo(b.info.value, p)
  }

  /** Complete for the requested protocol, and for no other. */
  ghost predicate GoodReply(reply: GrantReply, v: Validation) {
    && reply.accountId != ""
    && reply.credentials.Some? && ExactlyCredential(reply.credentials.value, v)
    && forall b :: 0 <= b < |reply.buckets| ==> GoodBucketEntry(reply.buckets[b], v.protocol)
  }

  /** Each ID carries the info of the last entry with that ID. */
  ghost predicate Collected(buckets: seq<GrantedBucket>, infoById: map<string, Vars>) {
    && (forall b :: 0 <= b < |buckets| ==> buckets[b].id in infoById)
    && (forall id ::
          id in infoById ==> InfoFor(buckets, id).Some? && infoById[id] == InfoVars(InfoFor(buckets, id).value))
  }

  method CollectInfo(buckets: seq<GrantedBucket>, v: Validation) returns (infoById: map<string, Vars>, errs: seq<Error>)
    ensures errs == [] <==> forall b :: 0 <= b < |buckets| ==> GoodBucketEntry(buckets[b], v.protocol)
    ensures errs == [] ==> Collected(buckets, infoById)
  {
    infoById, errs := map[], [];
    for i := 0 to |buckets|
      invariant errs == [] <==> forall b :: 0 <= b < i ==> GoodBucketEntry(buckets[b], v.protocol)
      invariant errs == [] ==> Collected(buckets[..i], infoById)
    {
      var b := buckets[i];
      assert buckets[..i + 1][..i] == buckets[..i];
      if b.id == "" {
        errs := errs + [Plain];
      } else {
        var _, info, err := BucketInfoToApi(b.info, Some(v));
        if err.Some? {
          errs := errs + [Wrapped(err.value)];
        } else {
          infoById := infoById[b.id := info];
        }
      }
    }
    assert buckets[..|buckets|] == buckets;
  }

  method TranslateResponse(reply: GrantReply, v: Validation) returns (d: GrantDetails, err: Option<Error>)
    ensures err.None? <==> GoodReply(reply, v)
    ensures err.None? ==> d.accountId == reply.accountId && d.credentials == CredentialVars(reply.credentials.value)
    ensures err.None? ==> Collected(reply.buckets, d.infoById)
  {
    var errs: seq<Error> := [];
    if reply.accountId == "" { errs := errs + [Plain]; }
    var credentials, failure := CredentialsToApi(reply.credentials, v);
    if failure.Some? { errs := errs + [Wrapped(failure.value)]; }
    var infoById, more := CollectInfo(reply.buckets, v);
    errs := errs + more;
    d := GrantDetails(reply.accountId, credentials, infoById);
    err := if errs != [] then Some(Wrapped(Joined(errs))) else None;
  }

  /** Exactly the requested buckets were granted. */
  method ValidateGranted(cfg: map<string, BucketConfig>, d: GrantDetails) returns (err: Option<Error>)
    ensures err.None? <==> cfg.Keys == d.infoById.Keys
  {
    var errs: seq<Error> := [];
    var todo := cfg.Keys;
    while todo != {}
      invariant todo <= cfg.Keys
      invariant errs == [] <==> cfg.Keys - todo <= d.infoById.Keys
      decreases |todo|
    {
      var id :| id in todo;
      assert id in cfg.Keys - (todo - {id});
      if id !in d.infoById { errs := errs + [Plain]; }
      todo := todo - {id};
    }
    assert errs == [] <==> cfg.Keys <= d.infoById.Keys;
    todo := d.infoById.Keys;
    while todo != {}
      invariant todo <= d.infoById.Keys
      invariant errs == [] <==> cfg.Keys <= d.infoById.Keys && d.infoById.Keys - todo <= cfg.Keys
      decreases |todo|
    {
      var id :| id in todo;
      assert id in d.infoById.Keys - (todo - {id});
      if id !in cfg { errs := errs + [Plain]; }
      todo := todo - {id};
    }
    err := if errs != [] then Some(Wrapped(Joined(errs))) else None;
  }

  /** What goes into the Secret of a bucket's claim. */
  function SecretData(d: GrantDetails, id: string): Vars
    requires id in d.infoById
  {
    d.credentials + d.infoById[id]
  }

  /** Data made from an accepted response is complete and belongs to the requested protocol only. */
  lemma {:induction false} SecretDataFilled(reply: GrantReply, d: GrantDetails, id: string, v: Validation)
    requires GoodReply(reply, v) && d.credentials == CredentialVars(reply.credentials.value)
    requires Collected(reply.buckets, d.infoById)
    requires id in d.infoById && !v.protocol.OtherProtocol?
    ensures FilledFrom(reply, id, v, SecretData(d, id)) && SecretData(d, id).Keys == SecretKeys(v.protocol)
  {
    GoodInfoFor(reply.buckets, id, v.protocol);
    ValidatedKeys(InfoFor(reply.buckets, id).value, reply.credentials.value, v);
  }

  lemma {:induction false} GoodInfoFor(buckets: seq<GrantedBucket>, id: string, p: Protocol)
    requires forall b :: 0 <= b < |buckets| ==> GoodBucketEntry(buckets[b], p)
    requires InfoFor(buckets, id).Some?
    ensures ExactlyInfo(InfoFor(buckets, id).value, p)
  {
    assert GoodBucketEntry(buckets[|buckets| - 1], p);
    if buckets[|buckets| - 1].id != id { GoodInfoFor(buckets[..|buckets| - 1], id, p); }
  }
}
