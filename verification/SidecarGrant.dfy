/** The Sidecar's grant path for a BucketAccess. */
module SidecarGrant {
  import opened Objects
  import opened Rpc
  import opened Errors
  import opened Protocols
  import opened Translator
  import opened Runs
  import opened Rules
  import opened Clusters
  import opened Rely
  import opened Drivers
  import opened GrantPipeline
  import opened SidecarReserve

  // The driver call

  lemma MayGrant(r: Run, driver: string, key: Ref, a: Object, req: GrantRequest, reply: Option<GrantReply>)
    requires IsRun(r) && Holds(r.world, driver, key, a) && GrantMatches(a.meta.uid, a.body.aspec, a.body.astatus, req)
    ensures Enabled(r, Called(AccessSidecar(driver, key), Call.Grant(a.meta.uid, req, reply)))
  {
  }

  lemma CallKeepsServing(p: Run, r: Run, driver: string, key: Ref, a: Object, call: Call)
    requires Serving(p, r, driver, key, a, {})
    ensures Serving(p, Extend(r, Called(AccessSidecar(driver, key), call)), driver, key, a, {})
  {
  }

  lemma LatestLogged(calls: seq<Call>, uid: Uid, req: GrantRequest, reply: GrantReply)
    ensures LatestReply(calls + [Call.Grant(uid, req, Some(reply))], uid) == Some(reply)
  {
  }

  /** `expected` is what the driver would answer from now on, if that is known. */
  method RequestGrant(c: Cluster, driver: string, key: Ref, a: Object, req: GrantRequest, ghost expected: GrantReply)
    returns (answer: GrantAnswer)
    requires c.Valid() && Holds(c.run.world, driver, key, a)
    requires GrantMatches(a.meta.uid, a.body.aspec, a.body.astatus, req)
    modifies c
    ensures c.Valid() && Serving(old(c.run), c.run, driver, key, a, {})
    ensures c.run.More? && c.run.event.Called? && c.run.event.call.Grant? && c.run.event.call.grant == req
    ensures answer.GrantAnswer? ==> LatestReply(c.run.world.calls, a.meta.uid) == Some(answer.reply)
    ensures old(c.Calm()) ==> c.Calm() && SameBut(old(c.run).world, c.run.world, {})
    ensures old(c.Calm() && c.Answers(expected)) ==> answer == GrantAnswer(expected)
  {
    hide Permitted, Enabled, Conforms, IsRun, OnlyOthers, Serving, Holds, GrantMatches, LatestReply;
    var me := AccessSidecar(driver, key);
    ghost var r0 := c.run;
    c.Yield(me);
    ghost var r1 := c.run;
    OthersKeepServing(r0, r1, driver, key, a);
    ServingHolds(r0, r1, driver, key, a, {});
    forall reply ensures Enabled(c.run, Called(me, Call.Grant(a.meta.uid, req, reply))) {
      MayGrant(c.run, driver, key, a, req, reply);
    }
    answer := c.Grant(me, a.meta.uid, req);
    ghost var got := if answer.GrantAnswer? then Some(answer.reply) else None;
    CallKeepsServing(r0, r1, driver, key, a, Call.Grant(a.meta.uid, req, got));
    if answer.GrantAnswer? { LatestLogged(r1.world.calls, a.meta.uid, req, answer.reply); }
  }

  function GrantError(code: Code): (e: Error)
    ensures IsNonRetryable(e) <==> code in {OutOfRange, InvalidArgument, AlreadyExists, Unimplemented}
  {
    if code == OutOfRange then NonRetryable(Wrapped(Plain)) else RpcError(code)
  }

  /** One translated and validated reply to the request that the access determines: account, credentials and info. */
  ghost predicate Obtained(a: Object, cfg: map<string, BucketConfig>, d: GrantDetails, reply: GrantReply)
    requires a.body.Access?
  {
    && ConfiguredFor(a.body.aspec, a.body.astatus, cfg) && cfg.Keys == d.infoById.Keys
    && d.accountId == reply.accountId != ""
    && forall i: nat :: i < |a.body.aspec.claims| && LastWithId(a.body.astatus, i) ==>
         && a.body.astatus.accessed[i].bucketId in d.infoById
         && FilledBy(reply, a.body.aspec, a.body.astatus, i, SecretData(d, a.body.astatus.accessed[i].bucketId))
  }

  lemma MakesObtained(a: Object, cfg: map<string, BucketConfig>, reply: GrantReply, d: GrantDetails)
    requires a.body.Access? && ConfiguredFor(a.body.aspec, a.body.astatus, cfg) && cfg.Keys == d.infoById.Keys
    requires ProtocolToRpc(a.body.aspec.protocol).Some?
    requires GoodReply(reply, Validation(a.body.aspec.protocol, a.body.astatus.auth))
    requires d.accountId == reply.accountId && d.credentials == CredentialVars(reply.credentials.value)
    requires Collected(reply.buckets, d.infoById)
    ensures Obtained(a, cfg, d, reply)
  {
    hide FilledFrom, SecretData, Collected;
    var spec, s := a.body.aspec, a.body.astatus;
    forall i: nat | i < |spec.claims| && LastWithId(s, i)
      ensures s.accessed[i].bucketId in d.infoById
      ensures FilledBy(reply, spec, s, i, SecretData(d, s.accessed[i].bucketId))
    {
      assert s.accessed[i].bucketId in AccessedIds(s);
      SecretDataFilled(reply, d, s.accessed[i].bucketId, Validation(spec.protocol, s.auth));
    }
  }

  function ReplyIds(reply: GrantReply): set<string> { set b | 0 <= b < |reply.buckets| :: reply.buckets[b].id }

  /** The access can be granted, and `reply` grants it. */
  ghost predicate Grantable(a: Object, reply: GrantReply)
    requires a.body.Access?
  {
    && SharedConfigOf(a.body.aspec, a.body.astatus).Some?
    && (forall i :: 0 <= i < |a.body.aspec.claims| ==> ModeToRpc(a.body.aspec.claims[i].mode).Some?)
    && GoodReply(reply, Validation(a.body.aspec.protocol, a.body.astatus.auth))
    && ReplyIds(reply) == AccessedIds(a.body.astatus)
  }

  lemma GrantableMapped(a: Object, reply: GrantReply)
    requires a.body.Access? && Grantable(a, reply) && Aligned(a.body.aspec, a.body.astatus)
    requires UniqueClaims(a.body.aspec.claims)
    ensures forall i :: 0 <= i < |a.body.aspec.claims| ==> Mapped(a.body.aspec.claims[i], a.body.astatus.accessed)
  {
    hide Mapped, Aligned, UniqueClaims;
    forall i | 0 <= i < |a.body.aspec.claims| ensures Mapped(a.body.aspec.claims[i], a.body.astatus.accessed) {
      InitialisedMapped(a.body.aspec, a.body.astatus, i);
    }
  }

  lemma {:induction false} InfoNamesBucket(buckets: seq<GrantedBucket>, id: string)
    requires InfoFor(buckets, id).Some?
    ensures exists b :: 0 <= b < |buckets| && buckets[b].id == id
  {
    if buckets[|buckets| - 1].id != id {
      InfoNamesBucket(buckets[..|buckets| - 1], id);
      var b :| 0 <= b < |buckets| - 1 && buckets[..|buckets| - 1][b].id == id;
      assert buckets[b].id == id;
    }
  }

  lemma CollectedIds(reply: GrantReply, d: GrantDetails)
    requires Collected(reply.buckets, d.infoById)
    ensures d.infoById.Keys == ReplyIds(reply)
  {
    forall id | id in d.infoById ensures id in ReplyIds(reply) { InfoNamesBucket(reply.buckets, id); }
  }

  method ObtainGrant(c: Cluster, driver: string, key: Ref, a: Object, ghost expected: GrantReply)
    returns (cfg: map<string, BucketConfig>, d: GrantDetails, err: Option<Error>, ghost reply: GrantReply)
    requires c.Valid() && Holds(c.run.world, driver, key, a)
    requires Aligned(a.body.aspec, a.body.astatus) && UniqueClaims(a.body.aspec.claims)
    modifies c
    ensures c.Valid() && Serving(old(c.run), c.run, driver, key, a, {})
    ensures err.None? ==> Obtained(a, cfg, d, reply) && LatestReply(c.run.world.calls, a.meta.uid) == Some(reply)
    ensures old(c.Calm()) ==> c.Calm() && SameBut(old(c.run).world, c.run.world, {})
    ensures old(c.Calm() && c.Answers(expected)) && Grantable(a, expected) ==> err.None? && reply == expected
  {
    hide Permitted, Enabled, Conforms, IsRun, OnlyOthers, Serving, GrantMatches, ConfiguredFor, Aligned, UniqueClaims,
         Obtained, GoodReply, Collected, Mapped, LatestReply;
    d, reply := GrantDetails("", map[], map[]), expected;
    if Grantable(a, expected) { GrantableMapped(a, expected); }
    var req;
    req, cfg, err := NewGrantRequest(a.meta.uid, a.body.aspec, a.body.astatus);
    if err.Some? {
      OthersRefl(AccessSidecar(driver, key), c.run);
      OthersKeepServing(c.run, c.run, driver, key, a);
      err := Some(Wrapped(err.value));
      return;
    }
    var answer := RequestGrant(c, driver, key, a, req, expected);
    if answer.GrantFailed? {
      err := Some(GrantError(answer.code));
      return;
    }
    reply := answer.reply;
    d, err := TranslateResponse(answer.reply, Validation(a.body.aspec.protocol, a.body.astatus.auth));
    if err.Some? {
      err := Some(NonRetryable(err.value));
      return;
    }
    CollectedIds(reply, d);
    ConfiguredKeys(a, cfg);
    err := ValidateGranted(cfg, d);
    if err.Some? {
      err := Some(NonRetryable(err.value));
      return;
    }
    MakesObtained(a, cfg, reply, d);
  }

  lemma ConfiguredKeys(a: Object, cfg: map<string, BucketConfig>)
    requires a.body.Access? && ConfiguredFor(a.body.aspec, a.body.astatus, cfg)
    ensures cfg.Keys == AccessedIds(a.body.astatus)
  {
  }
}
