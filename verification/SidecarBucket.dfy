/** The Sidecar's Bucket reconciler. */
module SidecarBucket {
  import opened Objects
  import opened Rpc
  import opened Errors
  import opened Protocols
  import opened Translator
  import opened Drivers
  import opened Runs
  import opened Rules
  import opened Invariants
  import opened Bindings
  import opened Clusters
  import opened Rely

  // Protocol lists

  /** Fails exactly on a protocol that the driver interface lacks. */
  method ProtocolList(list: seq<Protocol>) returns (out: seq<RpcProtocol>, err: Option<Error>)
    ensures err.None? <==> forall p :: p in list ==> ProtocolToRpc(p).Some?
    ensures err.None? ==> |out| == |list| && forall i :: 0 <= i < |list| ==> ProtocolToApi(out[i]) == Some(list[i])
  {
    out := [];
    var errs: seq<Error> := [];
    for i := 0 to |list|
      invariant errs == [] <==> forall j :: 0 <= j < i ==> ProtocolToRpc(list[j]).Some?
      invariant errs == [] ==> |out| == i && forall j :: 0 <= j < i ==> ProtocolToApi(out[j]) == Some(list[j])
    {
      var p := ProtocolToRpc(list[i]);
      if p.None? { errs := errs + [Plain]; } else { out := out + [p.value]; }
    }
    err := if errs != [] then Some(Wrapped(Joined(errs))) else None;
  }

  method ValidateDriverSupports(supported: seq<RpcProtocol>, required: seq<RpcProtocol>) returns (err: Option<Error>)
    ensures err.None? <==> forall p :: p in required ==> p in supported
  {
    var unsupported: seq<RpcProtocol> := [];
    for i := 0 to |required|
      invariant unsupported == [] <==> forall j :: 0 <= j < i ==> required[j] in supported
    {
      if required[i] !in supported { unsupported := unsupported + [required[i]]; }
    }
    err := if unsupported != [] then Some(Plain) else None;
  }

  method ValidateBucketSupports(supported: seq<Protocol>, required: seq<Protocol>) returns (err: Option<Error>)
    ensures err.None? <==> Covers(supported, required)
  {
    var unsupported: seq<Protocol> := [];
    for i := 0 to |required|
      invariant unsupported == [] <==> forall j :: 0 <= j < i ==> required[j] in supported
    {
      if required[i] !in supported { unsupported := unsupported + [required[i]]; }
    }
    err := if unsupported != [] then Some(Plain) else None;
  }

  // Provisioning

  datatype Details = Details(id: string, protocols: seq<Protocol>, info: Vars)

  /** A complete answer: an ID, and bucket info whose protocols are exactly those that the driver set. */
  ghost predicate Describes(reply: BucketReply, d: Details) {
    && reply.bucketId != "" && reply.protocols.Some?
    && d.id == reply.bucketId && d.info == InfoVars(reply.protocols.value)
    && forall p :: p in d.protocols <==> HasInfo(reply.protocols.value, p)
  }

  method ParseReply(reply: BucketReply) returns (d: Details, err: Option<Error>)
    ensures err.None? <==> reply.bucketId != "" && reply.protocols.Some?
    ensures err.None? ==> Describes(reply, d)
    ensures err.Some? ==> IsNonRetryable(err.value)
  {
    d := Details("", [], map[]);
    if reply.bucketId == "" { return d, Some(NonRetryable(Plain)); }
    if reply.protocols.None? { return d, Some(NonRetryable(Plain)); }
    var protos, info, failure := BucketInfoToApi(reply.protocols, None);
    if failure.Some? { assert false; }
    return Details(reply.bucketId, protos, info), None;
  }

  /** Dynamic provisioning needs the whole claim reference, static provisioning its namespace and name. */
  predicate ReferenceComplete(spec: BucketSpec) {
    spec.claimRef.name != "" && spec.claimRef.ns != "" && (spec.existingId == "" ==> spec.claimRef.uid != "")
  }

  function RequestFor(name: string, spec: BucketSpec, protocols: seq<RpcProtocol>): BucketRequest {
    if spec.existingId != "" then GetExistingBucket(spec.existingId, protocols, spec.params)
    else CreateBucket(name, protocols, spec.params)
  }

  /** A static bucket that does not exist yet is waited for. */
  function ProvisionError(spec: BucketSpec, code: Code): (e: Error)
    ensures IsNonRetryable(e) <==> code in {InvalidArgument, AlreadyExists, Unimplemented}
  {
    if spec.existingId != "" && code == NotFound then Wrapped(Plain) else RpcError(code)
  }

  method Provision(c: Cluster, name: string, spec: BucketSpec, protocols: seq<RpcProtocol>)
    returns (d: Details, err: Option<Error>, ghost answered: BucketReply)
    requires c.Valid()
    modifies c`clock
    ensures c.Valid() && (err.None? ==> ReferenceComplete(spec) && Describes(answered, d))
  {
    d, answered, err := Details("", [], map[]), BucketReply("", None), None;
    if !ReferenceComplete(spec) { return d, Some(NonRetryable(Plain)), answered; }
    var answer := c.AskForBucket(RequestFor(name, spec, protocols));
    match answer
    case BucketFailed(code) => err := Some(ProvisionError(spec, code));
    case BucketAnswer(reply) =>
      answered := reply;
      d, err := ParseReply(reply);
  }

  // Status

  ghost predicate Recordable(r: Run, driver: string, key: Ref, acc: Object) {
    && acc.body.Bucket? && acc.meta.rv <= r.world.rv
    && (key in r.world.objs && r.world.objs[key].meta.rv == acc.meta.rv ==>
         && r.world.objs[key].body.Bucket? && r.world.objs[key].body.bspec.driverName == driver
         && BucketSetsStatus(r.world.objs[key], acc.body.bstatus))
  }

  lemma {:induction false} StillRecordable(p: Run, r: Run, driver: string, key: Ref, acc: Object)
    requires IsRun(r) && Prefix(p, r) && Recordable(p, driver, key, acc)
    ensures Recordable(r, driver, key, acc)
  {
    hide Permitted, Enabled;
    if p != r { StillRecordable(p, r.prev, driver, key, acc); }
  }

  lemma ReadRecordable(r: Run, driver: string, key: Ref, b: Object)
    requires IsRun(r) && Seen(r, key, b) && b.body.Bucket? && b.body.bspec.driverName == driver
    ensures Recordable(r, driver, key, b)
  {
    hide Permitted, Enabled, IsRun, Seen;
    VersionsGrow(r, key, b);
  }

  function Provisioned(b: Object, d: Details): Object
    requires b.body.Bucket?
  {
    WithBucketStatus(b, BucketStatus(Some(true), d.id, d.protocols, d.info, false))
  }

  lemma ProvisionedRecordable(r: Run, driver: string, key: Ref, b: Object, d: Details)
    requires IsRun(r) && Seen(r, key, b) && b.body.Bucket? && b.body.bspec.driverName == driver
    requires d.id != "" && d.protocols != [] && Covers(d.protocols, b.body.bspec.protocols)
    ensures Recordable(r, driver, key, Provisioned(b, d))
  {
    hide Permitted, Enabled, IsRun, Seen;
    VersionsGrow(r, key, b);
  }

  lemma SafeStatus(r: Run, driver: string, key: Ref, acc: Object)
    requires IsRun(r) && Recordable(r, driver, key, acc) && StatusApplies(r.world, key, acc) && key.kind == BucketKind
    ensures Enabled(r, Change(BucketSidecar(driver, key), key, StatusUpdated(r.world.objs[key], acc)))
  {
    hide IsRun, BucketSetsStatus;
    BasicHolds(r);
    assert StatusUpdated(r.world.objs[key], acc) == Some(WithBucketStatus(r.world.objs[key], acc.body.bstatus));
  }

  method WriteStatus(c: Cluster, driver: string, key: Ref, acc: Object) returns (r: Reply)
    requires c.Valid() && Recordable(c.run, driver, key, acc) && key.kind == BucketKind
    modifies c
    ensures c.Valid() && Prefix(old(c.run), c.run) && Recordable(c.run, driver, key, acc)
    ensures r.Ok? ==> key in c.run.world.objs && c.run.world.objs[key].body.Bucket?
    ensures r.Ok? ==> c.run.world.objs[key].body.bstatus == acc.body.bstatus
  {
    hide Permitted, Enabled, Conforms, IsRun, OnlyOthers, BucketSetsStatus, Prefix;
    var me := BucketSidecar(driver, key);
    ghost var r0 := c.run;
    c.Yield(me);
    ghost var r1 := c.run;
    OthersPrefix(me, r0, r1);
    StillRecordable(r0, r1, driver, key, acc);
    if StatusApplies(c.run.world, key, acc) { SafeStatus(c.run, driver, key, acc); }
    r := c.StatusUpdate(me, key, acc);
    PrefixNext(r1, c.run);
    PrefixTransitive(r0, r1, c.run);
    StillRecordable(r1, c.run, driver, key, acc);
  }

  function Failed(acc: Object): Object
    requires acc.body.Bucket?
  {
    WithBucketStatus(acc, acc.body.bstatus.(ready := OrFalse(acc.body.bstatus.ready), failed := true))
  }

  lemma FailedRecordable(r: Run, driver: string, key: Ref, acc: Object)
    requires Recordable(r, driver, key, acc)
    ensures Recordable(r, driver, key, Failed(acc))
  {
  }

  // The reconcile

  lemma SafeFinalizer(r: Run, driver: string, key: Ref, b: Object, req: Object)
    requires IsRun(r) && key.kind == BucketKind && Seen(r, key, b) && b.body.Bucket?
    requires b.body.bspec.driverName == driver
    requires req == (if b.meta.deleting then WithoutFinalizer(b) else WithFinalizer(b))
    requires UpdateApplies(r.world, key, req)
    ensures key in r.world.objs && r.world.objs[key] == b && Updated(b, req) == Settled(req)
    ensures Enabled(r, Change(BucketSidecar(driver, key), key, Settled(req)))
  {
    hide IsRun, Seen;
    SeenIsCurrent(r, key, b);
  }

  /** Adds the protection finalizer, or removes it from a deleting Bucket. */
  method WriteFinalizer(c: Cluster, driver: string, key: Ref, b: Object) returns (acc: Object, err: Option<Error>)
    requires c.Valid() && key.kind == BucketKind && Seen(c.run, key, b) && b.body.Bucket?
    requires b.body.bspec.driverName == driver
    modifies c
    ensures c.Valid() && Prefix(old(c.run), c.run) && Recordable(c.run, driver, key, acc)
    ensures err.None? && !b.meta.deleting ==> Seen(c.run, key, acc) && acc.body == b.body && IsProtected(acc)
  {
    hide Permitted, Enabled, Conforms, UpdateApplies, Updated, IsRun, OnlyOthers, BucketSetsStatus, Prefix;
    var me, req := BucketSidecar(driver, key), if b.meta.deleting then WithoutFinalizer(b) else WithFinalizer(b);
    ghost var r0 := c.run;
    c.Yield(me);
    ghost var r1 := c.run;
    OthersPrefix(me, r0, r1);
    SeenStays(me, r0, r1, key, b);
    if UpdateApplies(c.run.world, key, req) { SafeFinalizer(r1, driver, key, b, req); }
    var updated := c.Update(me, key, req);
    PrefixNext(r1, c.run);
    PrefixTransitive(r0, r1, c.run);
    SeenLater(r1, c.run, key, b);
    ReadRecordable(c.run, driver, key, b);
    if updated.Err? { return req, Some(Wrapped(Plain)); }
    acc, err := req, None;
    if !b.meta.deleting {
      acc := updated.obj;
      ReadRecordable(c.run, driver, key, acc);
    }
  }

  /** The Bucket is ready as the driver described it, and its protocols cover what its spec asks for. */
  ghost predicate BucketReady(w: World, key: Ref, reply: BucketReply) {
    && key in w.objs && w.objs[key].body.Bucket?
    && var s := w.objs[key].body.bstatus;
       && s.ready == Some(true) && !s.failed && s.protocols != []
       && Covers(s.protocols, w.objs[key].body.bspec.protocols)
       && Describes(reply, Details(s.id, s.protocols, s.info))
  }

  method ProvisionBucket(c: Cluster, driver: string, supported: seq<RpcProtocol>, key: Ref, a: Object)
    returns (acc: Object, err: Option<Error>, ghost answered: BucketReply)
    requires c.Valid() && key == BucketRef(key.name) && Seen(c.run, key, a) && a.body.Bucket?
    requires a.body.bspec.driverName == driver
    requires !a.meta.deleting
    modifies c
    ensures c.Valid() && Prefix(old(c.run), c.run) && Recordable(c.run, driver, key, acc)
    ensures err.None? ==> BucketReady(c.run.world, key, answered)
  {
    hide Permitted, Enabled, IsRun, OnlyOthers, Seen, Recordable, Prefix;
    ghost var r0 := c.run;
    PrefixNext(r0, r0);
    ReadRecordable(r0, driver, key, a);
    acc, answered := a, BucketReply("", None);
    var required;
    required, err := ProtocolList(a.body.bspec.protocols);
    if err.Some? {
      err := Some(NonRetryable(err.value));
      return;
    }
    err := ValidateDriverSupports(supported, required);
    if err.Some? {
      err := Some(NonRetryable(err.value));
      return;
    }
    if !IsProtected(a) {
      acc, err := WriteFinalizer(c, driver, key, a);
      if err.Some? { return; }
    }
    ghost var r1 := c.run;
    var d;
    d, err, answered := Provision(c, key.name, acc.body.bspec, required);
    if err.Some? { return; }
    acc, err := StoreProvisioned(c, driver, key, acc, d, answered);
    PrefixTransitive(r0, r1, c.run);
  }

  method StoreProvisioned(c: Cluster, driver: string, key: Ref, a: Object, d: Details, ghost answered: BucketReply)
    returns (acc: Object, err: Option<Error>)
    requires c.Valid() && key == BucketRef(key.name) && Seen(c.run, key, a) && a.body.Bucket?
    requires a.body.bspec.driverName == driver
    requires Describes(answered, d)
    modifies c
    ensures c.Valid() && Prefix(old(c.run), c.run) && Recordable(c.run, driver, key, acc)
    ensures err.None? ==> BucketReady(c.run.world, key, answered)
  {
    hide Permitted, Enabled, IsRun, OnlyOthers, Seen, Recordable, Prefix;
    ghost var r0 := c.run;
    PrefixNext(r0, r0);
    ReadRecordable(r0, driver, key, a);
    if |d.protocols| == 0 { return a, Some(NonRetryable(Plain)); }
    err := ValidateBucketSupports(d.protocols, a.body.bspec.protocols);
    if err.Some? { return a, Some(NonRetryable(Wrapped(err.value))); }
    ProvisionedRecordable(r0, driver, key, a, d);
    acc := Provisioned(a, d);
    var written := WriteStatus(c, driver, key, acc);
    if written.Err? { return acc, Some(Wrapped(Plain)); }
    WrittenReady(c.run, key, answered);
    err := None;
  }

  lemma WrittenReady(r: Run, key: Ref, reply: BucketReply)
    requires IsRun(r) && key == BucketRef(key.name) && key in r.world.objs && r.world.objs[key].body.Bucket?
    requires !r.world.objs[key].body.bstatus.failed
    requires
      var s := r.world.objs[key].body.bstatus;
      Describes(reply, Details(s.id, s.protocols, s.info))
    ensures BucketReady(r.world, key, reply)
  {
    hide Permitted, Enabled, IsRun;
    BucketsHold(r, key.name);
  }

  /** It is terminal exactly if the error is tagged and the record was stored. */
  method RecordFailure(c: Cluster, driver: string, key: Ref, acc: Object, err: Error)
    returns (out: Outcome, ghost stored: bool)
    requires c.Valid() && key.kind == BucketKind && Recordable(c.run, driver, key, acc)
    modifies c
    ensures c.Valid() && Prefix(old(c.run), c.run)
    ensures out == if stored && IsNonRetryable(err) then Terminal else Retry
    ensures stored ==> key in c.run.world.objs && c.run.world.objs[key].body.Bucket?
    ensures stored ==> c.run.world.objs[key].body.bstatus == Failed(acc).body.bstatus
  {
    hide Permitted, Enabled, IsRun, Prefix, OnlyOthers, BucketSetsStatus;
    FailedRecordable(c.run, driver, key, acc);
    var written := WriteStatus(c, driver, key, Failed(acc));
    if written.Err? { return Retry, false; }
    return if IsNonRetryable(err) then Terminal else Retry, true;
  }

  /**
   * Whatever others do meanwhile, a reconcile only takes steps that the protocol allows. When it reports
   * success for a Bucket of its driver, the Bucket is ready. A deleting Bucket only loses its protection.
   */
  method Reconcile(c: Cluster, driver: string, supported: seq<RpcProtocol>, key: Ref)
    returns (out: Outcome, ghost served: bool, ghost answered: BucketReply)
    requires c.Valid() && key == BucketRef(key.name)
    modifies c
    ensures c.Valid() && Prefix(old(c.run), c.run)
    ensures out == Done && served ==> BucketReady(c.run.world, key, answered)
    ensures out != Retry && !served ==> OnlyOthers(BucketSidecar(driver, key), old(c.run), c.run)
  {
    hide Permitted, Enabled, IsRun, OnlyOthers, Recordable, BucketReady, Prefix, Seen;
    ghost var r0 := c.run;
    served, answered := false, BucketReply("", None);
    var me := BucketSidecar(driver, key);
    var got := c.Get(me, key);
    ghost var r1 := c.run;
    OthersPrefix(me, r0, r1);
    if got == Err(MissingError) {
      out := Done;
      return;
    }
    if got.Err? {
      out := Retry;
      return;
    }
    BasicHolds(r1);
    var b := got.obj;
    if b.body.bspec.driverName != driver {
      out := Done;
      return;
    }
    served := true;
    SeenNow(r1, key);
    var acc, err;
    if b.meta.deleting {
      acc, err := WriteFinalizer(c, driver, key, b);
      if err.None? { err := Some(NonRetryable(Plain)); }
    } else {
      acc, err, answered := ProvisionBucket(c, driver, supported, key, b);
    }
    ghost var r2 := c.run;
    PrefixTransitive(r0, r1, r2);
    if err.None? {
      out := Done;
      return;
    }
    ghost var stored;
    out, stored := RecordFailure(c, driver, key, acc, err.value);
    PrefixTransitive(r0, r2, c.run);
  }
}
