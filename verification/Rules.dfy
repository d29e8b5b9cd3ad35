/** What each actor may do: the COSI protocol, and the assumptions made about everybody else. */
module Rules {
  import opened Objects
  import opened Rpc
  import opened Protocols
  import opened Translator
  import opened Handoff
  import opened Runs

  // Requests to the driver, as the access object determines them.

  datatype SharedConfig = SharedConfig(
    protocol: RpcProtocol, auth: RpcAuth, serviceAccount: string, params: map<string, string>)

  /** None when the access names a protocol or an authentication type that the driver interface lacks. */
  function SharedConfigOf(spec: AccessSpec, s: AccessStatus): Option<SharedConfig> {
    var protocol := ProtocolToRpc(spec.protocol);
    var auth := AuthToRpc(s.auth);
    if protocol.None? || auth.None? then None
    else Some(SharedConfig(
      protocol.value, auth.value,
      if auth.value == ServiceAccountAuth then spec.serviceAccount else "", s.params))
  }

  function GrantConfig(g: GrantRequest): SharedConfig {
    SharedConfig(g.protocol, g.auth, g.serviceAccount, g.params)
  }

  function RevokeConfig(v: RevokeRequest): SharedConfig {
    SharedConfig(v.protocol, v.auth, v.serviceAccount, v.params)
  }

  function AccountName(uid: Uid): string { "ba-" + uid }

  function GrantIds(g: GrantRequest): set<string> { set i | 0 <= i < |g.buckets| :: g.buckets[i].id }
  function RevokeIds(v: RevokeRequest): set<string> { set i | 0 <= i < |v.buckets| :: v.buckets[i] }
  function AccessedIds(s: AccessStatus): set<string> { set i | 0 <= i < |s.accessed| :: s.accessed[i].bucketId }

  /** The list of accessed Buckets follows the list of claims. */
  predicate Aligned(spec: AccessSpec, s: AccessStatus) {
    && |s.accessed| == |spec.claims| > 0
    && forall i :: 0 <= i < |spec.claims| ==>
         s.accessed[i].claimName == spec.claims[i].claimName && s.accessed[i].bucketId != ""
  }

  /** No later claim uses the same bucket ID. Later entries replace earlier ones in the grant. */
  predicate LastWithId(s: AccessStatus, i: nat) {
    && i < |s.accessed|
    && forall j :: i < j < |s.accessed| ==> s.accessed[j].bucketId != s.accessed[i].bucketId
  }

  predicate GrantEntryMatches(spec: AccessSpec, s: AccessStatus, entry: GrantBucket) {
    exists i :: 0 <= i < |spec.claims| && LastWithId(s, i) &&
      s.accessed[i].bucketId == entry.id && ModeToRpc(spec.claims[i].mode) == Some(entry.mode)
  }

  predicate GrantMatches(uid: Uid, spec: AccessSpec, s: AccessStatus, g: GrantRequest) {
    && g.accountName == AccountName(uid)
    && SharedConfigOf(spec, s) == Some(GrantConfig(g))
    && GrantIds(g) == AccessedIds(s)
    && (forall i, j :: 0 <= i < j < |g.buckets| ==> g.buckets[i].id != g.buckets[j].id)
    && (forall i :: 0 <= i < |g.buckets| ==> GrantEntryMatches(spec, s, g.buckets[i]))
  }

  predicate RevokeMatches(spec: AccessSpec, s: AccessStatus, v: RevokeRequest) {
    && v.accountId == s.accountId
    && SharedConfigOf(spec, s) == Some(RevokeConfig(v))
    && RevokeIds(v) == AccessedIds(s)
  }

  predicate CallMatches(uid: Uid, spec: AccessSpec, s: AccessStatus, call: Call) {
    match call
    case Grant(_, g, _) => GrantMatches(uid, spec, s, g)
    case Revoke(_, v, _) => RevokeMatches(spec, s, v)
  }

  predicate Granted(calls: seq<Call>, uid: Uid, accountId: string) {
    exists n :: 0 <= n < |calls| && calls[n].Grant? && calls[n].access == uid &&
      calls[n].reply.Some? && calls[n].reply.value.accountId == accountId
  }

  predicate Revoked(calls: seq<Call>, uid: Uid, accountId: string) {
    exists n :: 0 <= n < |calls| && calls[n].Revoke? && calls[n].access == uid &&
      calls[n].ok && calls[n].revoke.accountId == accountId
  }

  // Secrets

  predicate OwnedBy(w: World, secret: Ref, uid: Uid) {
    secret in w.objs && w.objs[secret].body.Secret? && w.objs[secret].body.owner == Some(uid)
  }

  /** Every Secret of the spec that the access controls is gone, or its deletion is requested. */
  predicate SecretsGone(w: World, key: Ref, uid: Uid, claims: seq<ClaimAccess>) {
    forall i :: 0 <= i < |claims| ==>
      var s := SecretRefOf(key, claims[i].secretName);
      OwnedBy(w, s, uid) ==> w.objs[s].meta.deleting
  }

  predicate NamesSecret(claims: seq<ClaimAccess>, name: string) {
    exists i :: 0 <= i < |claims| && claims[i].secretName == name
  }

  predicate NamesClaim(claims: seq<ClaimAccess>, name: string) {
    exists i :: 0 <= i < |claims| && claims[i].claimName == name
  }

  /** What a response says about bucket `id`; a later entry replaces an earlier one. */
  function InfoFor(buckets: seq<GrantedBucket>, id: string): Option<BucketInfo> {
    if buckets == [] then None
    else if buckets[|buckets| - 1].id == id then buckets[|buckets| - 1].info
    else InfoFor(buckets[..|buckets| - 1], id)
  }

  /** `data` is what `reply` granted for bucket `id`: shared credentials and that bucket's own info. */
  predicate FilledFrom(reply: GrantReply, id: string, v: Validation, data: Vars) {
    var info := InfoFor(reply.buckets, id);
    && reply.credentials.Some? && info.Some?
    && CompleteCredential(v.protocol, CredentialVars(reply.credentials.value), v.auth)
    && CompleteInfo(v.protocol, InfoVars(info.value))
    && data == CredentialVars(reply.credentials.value) + InfoVars(info.value)
  }

  /** The reply to the latest accepted grant for the access. */
  function LatestReply(calls: seq<Call>, uid: Uid): Option<GrantReply> {
    if calls == [] then None
    else
      var last := calls[|calls| - 1];
      if last.Grant? && last.access == uid && last.reply.Some? then last.reply
      else LatestReply(calls[..|calls| - 1], uid)
  }

  /** `data` is exactly what `reply` granted for the bucket of claim `i`. */
  predicate FilledBy(reply: GrantReply, spec: AccessSpec, s: AccessStatus, i: nat, data: Vars)
    requires i < |s.accessed|
  {
    && data.Keys == SecretKeys(spec.protocol)
    && FilledFrom(reply, s.accessed[i].bucketId, Validation(spec.protocol, s.auth), data)
  }

  /** The latest accepted grant produced `data` for the claim that names this Secret. */
  predicate FreshFor(calls: seq<Call>, uid: Uid, spec: AccessSpec, s: AccessStatus, name: string, data: Vars) {
    var latest := LatestReply(calls, uid);
    && latest.Some?
    && exists i :: 0 <= i < |spec.claims| && spec.claims[i].secretName == name && LastWithId(s, i) &&
         FilledBy(latest.value, spec, s, i, data)
  }

  /** A grant to this access produced `data` for the bucket of claim `i`. */
  predicate FilledAt(calls: seq<Call>, uid: Uid, spec: AccessSpec, s: AccessStatus, i: nat, data: Vars)
    requires i < |s.accessed|
  {
    exists n :: 0 <= n < |calls| && calls[n].Grant? && calls[n].access == uid && calls[n].reply.Some? &&
      FilledBy(calls[n].reply.value, spec, s, i, data)
  }

  /** The same, for the claim that names this Secret. */
  predicate FilledFor(calls: seq<Call>, uid: Uid, spec: AccessSpec, s: AccessStatus, name: string, data: Vars) {
    exists i :: 0 <= i < |spec.claims| && spec.claims[i].secretName == name && LastWithId(s, i) &&
      FilledAt(calls, uid, spec, s, i, data)
  }

  predicate Reserved(w: World, secret: Ref, uid: Uid) {
    OwnedBy(w, secret, uid) && IsProtected(w.objs[secret])
  }

  /**
   * The Secret of claim `i` belongs to the access and is protected. It holds what was granted for the
   * claim, unless a later claim has the same bucket ID.
   */
  predicate ClaimFilled(w: World, key: Ref, a: Object, i: nat)
    requires a.body.Access? && i < |a.body.aspec.claims|
  {
    var ref := SecretRefOf(key, a.body.aspec.claims[i].secretName);
    && Reserved(w, ref, a.meta.uid)
    && (LastWithId(a.body.astatus, i) ==>
         FilledAt(w.calls, a.meta.uid, a.body.aspec, a.body.astatus, i, w.objs[ref].body.data))
  }

  predicate SecretsFilled(w: World, key: Ref, a: Object)
    requires a.body.Access?
  {
    UniqueSecrets(a.body.aspec.claims) && forall i: nat :: i < |a.body.aspec.claims| ==> ClaimFilled(w, key, a, i)
  }

  /** One reply filled the Secrets of all served claims. */
  predicate AllFilledBy(w: World, key: Ref, a: Object, reply: GrantReply)
    requires a.body.Access?
  {
    && UniqueSecrets(a.body.aspec.claims)
    && forall i: nat :: i < |a.body.aspec.claims| ==> ClaimFilledBy(w, key, a, i, reply)
  }

  predicate ClaimFilledBy(w: World, key: Ref, a: Object, i: nat, reply: GrantReply)
    requires a.body.Access? && i < |a.body.aspec.claims|
  {
    var ref := SecretRefOf(key, a.body.aspec.claims[i].secretName);
    && Reserved(w, ref, a.meta.uid)
    && (LastWithId(a.body.astatus, i) ==> FilledBy(reply, a.body.aspec, a.body.astatus, i, w.objs[ref].body.data))
  }

  /** The latest accepted grant named the account and filled the Secrets. */
  predicate GrantedTogether(w: World, key: Ref, a: Object, accountId: string)
    requires a.body.Access?
  {
    var latest := LatestReply(w.calls, a.meta.uid);
    latest.Some? && latest.value.accountId == accountId && AllFilledBy(w, key, a, latest.value)
  }

  function NewSecret(uid: Uid, owner: Uid): Object {
    Object(Meta(uid, 0, false, {Protection}, {}), Secret(Some(owner), map[], map[]))
  }

  // The Sidecar, on behalf of one access `a` stored under `key`.

  predicate SidecarSetsStatus(w: World, key: Ref, a: Object, s: AccessStatus)
    requires a.body.Access?
  {
    var before := a.body.astatus;
    && s == before.(ready := s.ready, accountId := s.accountId, failed := s.failed)
    && (s.accountId == before.accountId ||
        (!a.meta.deleting && s.accountId != "" && Granted(w.calls, a.meta.uid, s.accountId)))
    && (s.ready == before.ready || s.ready == OrFalse(before.ready)
        || (s.ready == Some(true) && !a.meta.deleting && s.accountId != "" && GrantedTogether(w, key, a, s.accountId))
        || (s.ready == Some(false) && a.meta.deleting))
  }

  predicate SidecarFinishes(w: World, key: Ref, a: Object)
    requires a.body.Access?
  {
    && a.meta.deleting
    && (a.body.astatus.accountId != "" ==> Revoked(w.calls, a.meta.uid, a.body.astatus.accountId))
    && SecretsGone(w, key, a.meta.uid, a.body.aspec.claims)
  }

  predicate SidecarMayChangeAccess(w: World, key: Ref, a: Object, now: Option<Object>)
    requires a.body.Access?
  {
    && now.Some? && now.value.body.Access?
    && (|| (!a.meta.deleting && now.value == WithFinalizer(a))
        || (now.value == WithAccessStatus(a, now.value.body.astatus)
            && SidecarSetsStatus(w, key, a, now.value.body.astatus))
        || (now.value == Annotated(a, CleanupFinished) && SidecarFinishes(w, key, a)))
  }

  predicate SidecarMayChangeSecret(w: World, key: Ref, a: Object, secret: Ref, now: Option<Object>)
    requires a.body.Access?
  {
    var uid, spec := a.meta.uid, a.body.aspec;
    && secret.kind == SecretKind && secret.ns == key.ns && NamesSecret(spec.claims, secret.name)
    && if secret !in w.objs then
         now.Some? && now.value == NewSecret(now.value.meta.uid, uid)
       else
         var s := w.objs[secret];
         || (a.meta.deleting && now == Settled(s.(meta := s.meta.(deleting := true))))
         || (OwnedBy(w, secret, uid) &&
             (|| now == Some(WithFinalizer(s))
              || (a.meta.deleting && now == Settled(WithoutFinalizer(s)))
              || (now.Some? && now.value.body.Secret? && now.value == s.(body := s.body.(data := now.value.body.data))
                  && FreshFor(w.calls, uid, spec, a.body.astatus, secret.name, now.value.body.data))))
  }

  predicate SidecarServes(w: World, driver: string, key: Ref) {
    && key.kind == AccessKind && key in w.objs && w.objs[key].body.Access?
    && ManagedBySidecar(w.objs[key]) && w.objs[key].body.astatus.driverName == driver
  }

  predicate SidecarMayChange(w: World, driver: string, key: Ref, ref: Ref, now: Option<Object>) {
    && SidecarServes(w, driver, key)
    && if ref == key then SidecarMayChangeAccess(w, key, w.objs[key], now)
       else SidecarMayChangeSecret(w, key, w.objs[key], ref, now)
  }

  predicate SidecarMayCall(w: World, driver: string, key: Ref, call: Call) {
    && SidecarServes(w, driver, key)
    && var a := w.objs[key];
       && call.access == a.meta.uid
       && CallMatches(a.meta.uid, a.body.aspec, a.body.astatus, call)
       && (call.Revoke? ==> a.meta.deleting && a.body.astatus.accountId != "")
  }

  // The Controller, on behalf of one access.

  predicate References(w: World, access: Ref, ns: string, claimName: string) {
    && access in w.objs && access.ns == ns && w.objs[access].body.Access?
    && NamesClaim(w.objs[access].body.aspec.claims, claimName)
  }

  predicate Marked(o: Object) { HasAccessReferences in o.meta.annotations }

  /** The claim object behind an accessed Bucket carries the mark, if it still exists. */
  predicate MarkKept(r: Run, key: Ref, ab: AccessedBucket) {
    var c := ClaimRefOf(key, ab.claimName);
    c in r.world.objs && EverBound(r, ab.bucketName, r.world.objs[c].meta.uid) ==> Marked(r.world.objs[c])
  }

  /** What a class demands of an access. */
  predicate Allowed(cls: AccessClassSpec, spec: AccessSpec) {
    && (cls.auth == ServiceAccount ==> spec.serviceAccount != "")
    && (cls.multiBucket || |spec.claims| <= 1)
    && forall i :: 0 <= i < |spec.claims| ==> spec.claims[i].mode !in cls.disallowedModes
  }

  /** The class of the access allows it and has this configuration. */
  predicate AllowedNow(w: World, spec: AccessSpec, s: AccessStatus) {
    var ref := Ref(AccessClassKind, "", spec.className);
    && ref in w.objs && w.objs[ref].body.AccessClass?
    && var cls := w.objs[ref].body.classSpec;
       Allowed(cls, spec) && s.driverName == cls.driverName && s.auth == cls.auth && s.params == cls.params
  }

  predicate EverAllowed(r: Run, spec: AccessSpec, s: AccessStatus) {
    AllowedNow(r.world, spec, s) || (r.More? && EverAllowed(r.prev, spec, s))
  }

  predicate Initialises(r: Run, key: Ref, a: Object, s: AccessStatus)
    requires a.body.Access?
  {
    var spec := a.body.aspec;
    && !a.meta.deleting && IsProtected(a) && UniqueClaims(spec.claims)
    && a.body.astatus.driverName == "" && s.driverName != "" && s.auth != NoAuth
    && Aligned(spec, s) && EverAllowed(r, spec, s)
    && (forall i :: 0 <= i < |spec.claims| ==>
         EverOffered(r, ClaimRefOf(key, spec.claims[i].claimName), spec.protocol, s.accessed[i].bucketName))
    && (forall i :: 0 <= i < |spec.claims| ==>
         EverHadId(r, s.accessed[i].bucketName, s.accessed[i].bucketId))
    && (forall i :: 0 <= i < |spec.claims| ==> MarkKept(r, key, s.accessed[i]))
  }

  predicate ControllerSetsStatus(r: Run, key: Ref, a: Object, s: AccessStatus)
    requires a.body.Access?
  {
    var before := a.body.astatus;
    && (s.ready == before.ready || s.ready == OrFalse(before.ready))
    && s.accountId == before.accountId
    && (s == before.(ready := s.ready, failed := s.failed) || Initialises(r, key, a, s))
  }

  predicate ControllerMayChangeAccess(r: Run, key: Ref, a: Object, now: Option<Object>)
    requires a.body.Access?
  {
    || (!a.meta.deleting && now == Some(WithFinalizer(a)))
    || (a.meta.deleting && now == Settled(WithoutFinalizer(a)))
    || (now.Some? && now.value.body.Access? && now.value == WithAccessStatus(a, now.value.body.astatus)
        && ControllerSetsStatus(r, key, a, now.value.body.astatus))
  }

  /** No initialised access references the claim, except the one under `key` on its way out. */
  predicate Unreferenced(w: World, key: Ref, ns: string, claimName: string) {
    forall k :: k in w.objs && References(w, k, ns, claimName) ==>
      w.objs[k].body.astatus.driverName == "" || (k == key && w.objs[k].meta.deleting)
  }

  predicate ControllerMayChangeClaim(w: World, key: Ref, claim: Ref, now: Option<Object>) {
    && claim.kind == ClaimKind && claim.ns == key.ns && claim in w.objs
    && (|| now == Some(Annotated(w.objs[claim], HasAccessReferences))
        || (now == Some(Unannotated(w.objs[claim], HasAccessReferences)) && Unreferenced(w, key, claim.ns, claim.name)))
  }

  predicate ControllerMayChange(r: Run, key: Ref, ref: Ref, now: Option<Object>) {
    && key.kind == AccessKind
    && if ref == key then
         && key in r.world.objs && r.world.objs[key].body.Access? && !ManagedBySidecar(r.world.objs[key])
         && ControllerMayChangeAccess(r, key, r.world.objs[key], now)
       else
         ControllerMayChangeClaim(r.world, key, ref, now)
  }

  // The Controller, on behalf of one claim.

  predicate ClaimSetsStatus(r: Run, c: Object, s: ClaimStatus)
    requires c.body.Claim?
  {
    var before, name := c.body.cstatus, BucketNameFor(c);
    && (s.bound == before.bound ||
        (!c.meta.deleting && IsProtected(c) && s.bound == name && EverBound(r, name, c.meta.uid)))
    && (|| (s.protocols == before.protocols && (s.ready == before.ready || s.ready == OrFalse(before.ready)))
        || (s.protocols == before.protocols && s.ready == Some(false) && c.meta.deleting)
        || (s.ready == Some(true) && s.bound != "" && s.protocols != [] && EverReported(r, s.bound, s.protocols)
            && (c.body.cspec.existingBucket == "" ==> forall p :: p in c.body.cspec.protocols ==> p in s.protocols)))
  }

  /** The claim may go: its Bucket is absent, does not name it, or was kept on purpose. */
  predicate Releasable(r: Run, key: Ref, c: Object)
    requires c.body.Claim?
  {
    && c.meta.deleting
    && (|| !BoundToNow(r.world, BucketNameFor(c), ClaimRef(key.ns, key.name, c.meta.uid))
        || EverRetained(r, BucketNameFor(c)))
  }

  predicate ClaimMayChangeClaim(r: Run, key: Ref, c: Object, now: Option<Object>)
    requires c.body.Claim?
  {
    || (!c.meta.deleting && now == Some(WithFinalizer(c)))
    || (now == Settled(WithoutFinalizer(c)) && Releasable(r, key, c))
    || (now.Some? && now.value.body.Claim? && now.value == WithClaimStatus(c, now.value.body.cstatus)
        && ClaimSetsStatus(r, c, now.value.body.cstatus))
  }

  /** The claim is still there, and was not deleting at some moment since which its reconciler did nothing. */
  predicate LiveWhenRead(r: Run, key: Ref, uid: Uid) {
    && key in r.world.objs && r.world.objs[key].meta.uid == uid
    && (!r.world.objs[key].meta.deleting ||
        (r.More? && r.event.actor != ClaimController(key) && LiveWhenRead(r.prev, key, uid)))
  }

  function IntermediateBucket(uid: Uid, claim: Ref, c: Object, bc: BucketClassSpec): Object
    requires c.body.Claim?
  {
    Object(Meta(uid, 0, false, {}, {}),
           Bucket(BucketSpec(bc.driverName, bc.policy, bc.params, c.body.cspec.protocols,
                             ClaimRef(claim.ns, claim.name, c.meta.uid), ""), NO_BUCKET_STATUS))
  }

  /** The Bucket is made from the claim and from its class as that was at some time. */
  predicate IsIntermediateBucket(r: Run, claim: Ref, c: Object, b: Object)
    requires c.body.Claim?
  {
    && b.body.Bucket?
    && var cls := BucketClassSpec(b.body.bspec.driverName, b.body.bspec.policy, b.body.bspec.params);
       b == IntermediateBucket(b.meta.uid, claim, c, cls) && EverBucketClass(r, c.body.cspec.className, cls)
  }

  /** A live, protected claim creates its dynamic Bucket, or gives its UID to a static one that names it. */
  predicate ClaimBindsBucket(r: Run, key: Ref, c: Object, bucket: Ref, now: Option<Object>)
    requires c.body.Claim?
  {
    && bucket == BucketRef(BucketNameFor(c)) && IsProtected(c) && LiveWhenRead(r, key, c.meta.uid)
    && if bucket !in r.world.objs then
         && now.Some? && c.body.cspec.existingBucket == "" && c.body.cstatus.bound == ""
         && IsIntermediateBucket(r, key, c, now.value)
       else
         var b := r.world.objs[bucket];
         && b.body.Bucket? && c.body.cspec.existingBucket != ""
         && b.body.bspec.claimRef == ClaimRef(key.ns, key.name, "")
         && now == Some(b.(body := b.body.(bspec := b.body.bspec.(claimRef := ClaimRef(key.ns, key.name, c.meta.uid)))))
  }

  /** The claim with this UID was under `key`, and is deleting or gone. */
  predicate Ended(w: World, key: Ref, uid: Uid) {
    uid in w.uids && forall k :: k in w.objs && w.objs[k].meta.uid == uid ==> k == key && w.objs[k].meta.deleting
  }

  /** The Bucket of an ended claim is annotated first, and deleted only then. */
  predicate ClaimEndsBucket(w: World, key: Ref, bucket: Ref, now: Option<Object>) {
    && bucket.kind == BucketKind && bucket in w.objs && w.objs[bucket].body.Bucket?
    && var b := w.objs[bucket];
       && b.body.bspec.claimRef.ns == key.ns && b.body.bspec.claimRef.name == key.name
       && Ended(w, key, b.body.bspec.claimRef.uid)
       && (|| now == Some(Annotated(b, ClaimBeingDeleted))
           || (ClaimBeingDeleted in b.meta.annotations && now == Settled(b.(meta := b.meta.(deleting := true)))))
  }

  predicate ClaimMayChange(r: Run, key: Ref, ref: Ref, now: Option<Object>) {
    && key.kind == ClaimKind
    && (|| (key in r.world.objs && r.world.objs[key].body.Claim? &&
            if ref == key then ClaimMayChangeClaim(r, key, r.world.objs[key], now)
            else ClaimBindsBucket(r, key, r.world.objs[key], ref, now))
        || ClaimEndsBucket(r.world, key, ref, now))
  }

  // The Sidecar, on behalf of one Bucket.

  predicate BucketSetsStatus(b: Object, s: BucketStatus)
    requires b.body.Bucket?
  {
    var before := b.body.bstatus;
    || (s == before.(ready := s.ready, failed := s.failed)
        && (s.ready == before.ready || s.ready == OrFalse(before.ready)))
    || (s.ready == Some(true) && s.id != "" && s.protocols != []
        && forall p :: p in b.body.bspec.protocols ==> p in s.protocols)
  }

  predicate BucketMayChange(w: World, driver: string, key: Ref, ref: Ref, now: Option<Object>) {
    && key.kind == BucketKind && ref == key && key in w.objs && w.objs[key].body.Bucket?
    && var b := w.objs[key];
       && b.body.bspec.driverName == driver
       && (|| (!b.meta.deleting && now == Some(WithFinalizer(b)))
           || (b.meta.deleting && now == Settled(WithoutFinalizer(b)))
           || (now.Some? && now.value.body.Bucket? && now.value == WithBucketStatus(b, now.value.body.bstatus)
               && BucketSetsStatus(b, now.value.body.bstatus)))
  }

  // Everybody else. These are the environment assumptions.

  const COSI_ANNOTATIONS := {ClaimBeingDeleted, HasAccessReferences, CleanupFinished, ManagementOverride}

  /** Metadata edits and deletions leave what COSI owns alone. */
  predicate ForeignMetadataOnly(o: Object, now: Option<Object>) {
    match now
    case None => Protection !in o.meta.finalizers
    case Some(n) =>
      && n == o.(meta := o.meta.(deleting := n.meta.deleting, finalizers := n.meta.finalizers,
                                 annotations := n.meta.annotations))
      && (IsProtected(n) <==> IsProtected(o))
      && n.meta.annotations * COSI_ANNOTATIONS == o.meta.annotations * COSI_ANNOTATIONS
  }

  /** Users may preset a claim UID on a static Bucket, but not that of a claim already being deleted. */
  predicate UserCreatesBucket(r: Run, ref: Ref, b: Object)
    requires b.body.Bucket?
  {
    && b.body.bstatus == NO_BUCKET_STATUS && !IsDynamicName(ref.name) && !EverExisted(r, ref)
    && forall k :: k in r.world.objs && r.world.objs[k].meta.uid == b.body.bspec.claimRef.uid ==>
         !r.world.objs[k].meta.deleting
  }

  predicate UserCreates(r: Run, ref: Ref, o: Object) {
    && o.meta.annotations !! COSI_ANNOTATIONS
    && match o.body
       case Access(spec, s) => s == NO_ACCESS_STATUS && spec.claims != []
       case Claim(_, s) => s == NO_CLAIM_STATUS
       case Bucket(_, _) => UserCreatesBucket(r, ref, o)
       case Secret(owner, _, _) => owner == None
       case AccessClass(c) => c.driverName != "" && (c.auth == Key || c.auth == ServiceAccount)
       case BucketClass(_) => true
  }

  predicate UserEdits(o: Object, now: Option<Object>) {
    || ForeignMetadataOnly(o, now)
    || (o.body.Secret? && o.body.owner == None
        && (now.None? || (now.value.body.Secret? && now.value.body.owner == None)))
    || (o.body.Bucket? && now.Some? && now.value.body.Bucket? &&
        now.value == o.(body := o.body.(bspec := o.body.bspec.(policy := now.value.body.bspec.policy))))
  }

  predicate UserMayChange(r: Run, ref: Ref, now: Option<Object>) {
    if ref in r.world.objs then UserEdits(r.world.objs[ref], now)
    else now.Some? && UserCreates(r, ref, now.value)
  }

  /** The protocol, or an assumption, allows the actor to do this now. */
  predicate Permitted(r: Run, e: Event) {
    match e
    case Change(User, ref, now) => UserMayChange(r, ref, now)
    case Change(AccessController(key), ref, now) => ControllerMayChange(r, key, ref, now)
    case Change(ClaimController(key), ref, now) => ClaimMayChange(r, key, ref, now)
    case Change(AccessSidecar(driver, key), ref, now) => SidecarMayChange(r.world, driver, key, ref, now)
    case Change(BucketSidecar(driver, key), ref, now) => BucketMayChange(r.world, driver, key, ref, now)
    case Called(AccessSidecar(driver, key), call) => SidecarMayCall(r.world, driver, key, call)
    case Called(_, _) => false
  }

  predicate Enabled(r: Run, e: Event) {
    (e.Change? ==> Conforms(r.world, e.ref, e.now)) && Permitted(r, e)
  }

  /** A run from the empty cluster in which every event was allowed when it happened. */
  ghost predicate IsRun(r: Run) {
    match r
    case Start(w) => w == EMPTY
    case More(prev, e, w) => IsRun(prev) && Enabled(prev, e) && w == After(prev.world, e)
  }
}
