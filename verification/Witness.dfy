/** Concrete runs from the empty cluster, so that nothing holds vacuously and every failure shown is a real one. */
module Witness {
  import opened Objects
  import opened Rpc
  import opened Protocols
  import opened Translator
  import opened Runs
  import opened Rules
  import Sources

  // The objects: two dynamic claims, and one access that references both

  const ACCESS := Ref(AccessKind, "ns", "a")
  const CLASS := Ref(AccessClassKind, "", "l")
  const BUCKET_CLASS := Ref(BucketClassKind, "", "b")

  function ClaimNamed(name: string): Ref { Ref(ClaimKind, "ns", name) }
  function SecretNamed(name: string): Ref { Ref(SecretKind, "ns", name) }
  function BucketFor(uid: Uid): Ref { BucketRef(DynamicName(uid)) }

  const MADE := BucketClassSpec("d", Delete, map[])
  const SPEC := AccessSpec([ClaimAccess("c1", ReadWrite, "s1"), ClaimAccess("c2", ReadOnly, "s2")], "l", Azure, "")

  function NewMeta(uid: Uid): Meta { Meta(uid, 0, false, {}, {}) }

  function TheClaim(uid: Uid, finalizers: set<Finalizer>, annotations: set<Annotation>, s: ClaimStatus): Object {
    Object(Meta(uid, 0, false, finalizers, annotations), Claim(ClaimSpec("b", "", []), s))
  }

  function TheBucket(uid: Uid, claim: string, owner: Uid, s: BucketStatus): Object {
    Object(NewMeta(uid), Bucket(BucketSpec("d", Delete, map[], [], ClaimRef("ns", claim, owner), ""), s))
  }

  function TheAccess(deleting: bool, finalizers: set<Finalizer>, annotations: set<Annotation>,
                     s: AccessStatus): Object {
    Object(Meta("7", 0, deleting, finalizers, annotations), Access(SPEC, s))
  }

  function TheSecret(uid: Uid, finalizers: set<Finalizer>, data: Vars): Object {
    Object(Meta(uid, 0, false, finalizers, {}), Secret(Some("7"), data, map[]))
  }

  function BoundTo(uid: Uid, ready: bool, protocols: seq<Protocol>): ClaimStatus {
    ClaimStatus(DynamicName(uid), Some(ready), protocols, false)
  }

  function Provisioned(id: string): BucketStatus { BucketStatus(Some(true), id, [Azure], map[], false) }

  /** The second Bucket's ID is `y`; the first one's is "x". */
  function Initial(y: string): AccessStatus {
    AccessStatus(Some(false), "", [AccessedBucket("bc-1", "x", "c1"), AccessedBucket("bc-2", y, "c2")], "d", Key, map[],
                 false)
  }

  function Complete(y: string): AccessStatus { Initial(y).(ready := Some(true), accountId := "acct") }

  /** Stored under `ref` is `o`, whatever its version. */
  ghost predicate Has(w: World, ref: Ref, o: Object) {
    ref in w.objs && w.objs[ref] == Stamped(o, w.objs[ref].meta.rv)
  }

  /** A write of the stored version of `ref`. */
  function Write(r: Run, actor: Actor, ref: Ref, o: Object): Event {
    Change(actor, ref, Some(if ref in r.world.objs then Stamped(o, r.world.objs[ref].meta.rv) else o))
  }

  function Set(r: Run, actor: Actor, ref: Ref, o: Object): Run { Extend(r, Write(r, actor, ref, o)) }

  /** `w'` is `w` with `o` stored under `ref`. */
  ghost predicate Stores(w: World, w': World, ref: Ref, o: Object) {
    && Has(w', ref, o) && w'.uids == w.uids + {o.meta.uid} && w'.calls == w.calls
    && forall other :: other != ref ==>
         (other in w.objs <==> other in w'.objs) && (other in w.objs ==> w'.objs[other] == w.objs[other])
  }

  lemma SetStores(r: Run, actor: Actor, ref: Ref, o: Object)
    ensures Stores(r.world, Set(r, actor, ref, o).world, ref, o)
  {
  }

  lemma Next(r: Run, e: Event)
    requires IsRun(r) && Enabled(r, e)
    ensures IsRun(Extend(r, e))
  {
    hide Enabled;
  }

  // Steps of users

  lemma UserCreation(r: Run, ref: Ref, o: Object)
    requires IsRun(r) && ref !in r.world.objs && KindOf(o) == ref.kind && o.meta.uid != ""
    requires o.meta.uid !in r.world.uids
    requires o.meta == NewMeta(o.meta.uid) && !o.body.Secret? && !o.body.Bucket? && UserCreates(r, ref, o)
    ensures IsRun(Set(r, User, ref, o))
  {
    hide IsRun;
    Next(r, Write(r, User, ref, o));
  }

  lemma UserDeletion(r: Run, s: AccessStatus)
    requires IsRun(r) && Has(r.world, ACCESS, TheAccess(false, {Protection}, {}, s))
    ensures IsRun(Set(r, User, ACCESS, TheAccess(true, {Protection}, {}, s)))
  {
    hide IsRun;
    Next(r, Write(r, User, ACCESS, TheAccess(true, {Protection}, {}, s)));
  }

  // Steps of the claim reconciler and of the Bucket reconciler

  lemma ClaimProtected(r: Run, name: string, uid: Uid)
    requires IsRun(r) && Has(r.world, ClaimNamed(name), TheClaim(uid, {}, {}, NO_CLAIM_STATUS))
    ensures IsRun(Set(r, ClaimController(ClaimNamed(name)), ClaimNamed(name),
                      TheClaim(uid, {Protection}, {}, NO_CLAIM_STATUS)))
  {
    hide IsRun;
    var ref := ClaimNamed(name);
    var e := Write(r, ClaimController(ref), ref, TheClaim(uid, {Protection}, {}, NO_CLAIM_STATUS));
    assert {} + {Protection} == {Protection};
    assert e.now == Some(WithFinalizer(r.world.objs[ref]));
    Next(r, e);
  }

  lemma BucketCreated(r: Run, name: string, uid: Uid, made: Uid)
    requires IsRun(r) && Has(r.world, ClaimNamed(name), TheClaim(uid, {Protection}, {}, NO_CLAIM_STATUS))
    requires BucketClassNow(r.world, "b", MADE) && BucketFor(uid) !in r.world.objs && made != ""
    requires made !in r.world.uids
    ensures IsRun(Set(r, ClaimController(ClaimNamed(name)), BucketFor(uid),
                      TheBucket(made, name, uid, NO_BUCKET_STATUS)))
  {
    hide IsRun;
    var e := Write(r, ClaimController(ClaimNamed(name)), BucketFor(uid), TheBucket(made, name, uid, NO_BUCKET_STATUS));
    assert LiveWhenRead(r, ClaimNamed(name), uid);
    assert EverBucketClass(r, "b", MADE);
    assert e.now.value == IntermediateBucket(made, ClaimNamed(name), r.world.objs[ClaimNamed(name)], MADE);
    Next(r, e);
  }

  lemma ClaimBound(r: Run, name: string, uid: Uid, bucket: Uid)
    requires IsRun(r) && Has(r.world, ClaimNamed(name), TheClaim(uid, {Protection}, {}, NO_CLAIM_STATUS))
    requires Has(r.world, BucketFor(uid), TheBucket(bucket, name, uid, NO_BUCKET_STATUS))
    ensures IsRun(Set(r, ClaimController(ClaimNamed(name)), ClaimNamed(name),
                      TheClaim(uid, {Protection}, {}, BoundTo(uid, false, []))))
  {
    hide IsRun;
    assert EverBound(r, DynamicName(uid), uid);
    Next(r, Write(r, ClaimController(ClaimNamed(name)), ClaimNamed(name),
                  TheClaim(uid, {Protection}, {}, BoundTo(uid, false, []))));
  }

  lemma BucketProvisioned(r: Run, name: string, uid: Uid, bucket: Uid, id: string)
    requires IsRun(r) && Has(r.world, BucketFor(uid), TheBucket(bucket, name, uid, NO_BUCKET_STATUS)) && id != ""
    ensures IsRun(Set(r, BucketSidecar("d", BucketFor(uid)), BucketFor(uid),
                      TheBucket(bucket, name, uid, Provisioned(id))))
  {
    hide IsRun;
    Next(r, Write(r, BucketSidecar("d", BucketFor(uid)), BucketFor(uid),
                  TheBucket(bucket, name, uid, Provisioned(id))));
  }

  lemma ClaimReady(r: Run, name: string, uid: Uid, bucket: Uid, id: string)
    requires IsRun(r) && Has(r.world, ClaimNamed(name), TheClaim(uid, {Protection}, {}, BoundTo(uid, false, [])))
    requires Has(r.world, BucketFor(uid), TheBucket(bucket, name, uid, Provisioned(id)))
    ensures IsRun(Set(r, ClaimController(ClaimNamed(name)), ClaimNamed(name),
                      TheClaim(uid, {Protection}, {}, BoundTo(uid, true, [Azure]))))
  {
    hide IsRun;
    assert EverReported(r, DynamicName(uid), [Azure]);
    Next(r, Write(r, ClaimController(ClaimNamed(name)), ClaimNamed(name),
                  TheClaim(uid, {Protection}, {}, BoundTo(uid, true, [Azure]))));
  }

  ghost function BindClaim(r: Run, name: string, uid: Uid, bucket: Uid): Run {
    var ref, me := ClaimNamed(name), ClaimController(ClaimNamed(name));
    var r1 := Set(r, User, ref, TheClaim(uid, {}, {}, NO_CLAIM_STATUS));
    var r2 := Set(r1, me, ref, TheClaim(uid, {Protection}, {}, NO_CLAIM_STATUS));
    var r3 := Set(r2, me, BucketFor(uid), TheBucket(bucket, name, uid, NO_BUCKET_STATUS));
    Set(r3, me, ref, TheClaim(uid, {Protection}, {}, BoundTo(uid, false, [])))
  }

  ghost function ProvisionClaim(r: Run, name: string, uid: Uid, bucket: Uid, id: string): Run {
    var r4 := BindClaim(r, name, uid, bucket);
    var r5 := Set(r4, BucketSidecar("d", BucketFor(uid)), BucketFor(uid),
                  TheBucket(bucket, name, uid, Provisioned(id)));
    Set(r5, ClaimController(ClaimNamed(name)), ClaimNamed(name),
        TheClaim(uid, {Protection}, {}, BoundTo(uid, true, [Azure])))
  }

  /** What the two worlds store is the same, except under `x` and `y`. */
  ghost predicate SameBut(w: World, w': World, x: Ref, y: Ref) {
    forall ref :: ref != x && ref != y ==>
      (ref in w.objs <==> ref in w'.objs) && (ref in w.objs ==> w'.objs[ref] == w.objs[ref])
  }

  ghost predicate CanProvision(r: Run, name: string, uid: Uid, bucket: Uid) {
    && IsRun(r) && BucketClassNow(r.world, "b", MADE) && ClaimNamed(name) !in r.world.objs
    && BucketFor(uid) !in r.world.objs
    && uid != "" && bucket != "" && uid != bucket && uid !in r.world.uids && bucket !in r.world.uids
  }

  lemma ClaimIsBound(r: Run, name: string, uid: Uid, bucket: Uid)
    requires CanProvision(r, name, uid, bucket)
    ensures
      var r' := BindClaim(r, name, uid, bucket);
      && IsRun(r') && SameBut(r.world, r'.world, ClaimNamed(name), BucketFor(uid))
      && Has(r'.world, ClaimNamed(name), TheClaim(uid, {Protection}, {}, BoundTo(uid, false, [])))
      && Has(r'.world, BucketFor(uid), TheBucket(bucket, name, uid, NO_BUCKET_STATUS))
      && r'.world.uids == r.world.uids + {uid, bucket} && r'.world.calls == r.world.calls
  {
    hide IsRun, Enabled, Permitted, DynamicName, BoundTo, After, Stamped, Set;
    var ref, me := ClaimNamed(name), ClaimController(ClaimNamed(name));
    var c1, c2 := TheClaim(uid, {}, {}, NO_CLAIM_STATUS), TheClaim(uid, {Protection}, {}, NO_CLAIM_STATUS);
    var b, c3 := TheBucket(bucket, name, uid, NO_BUCKET_STATUS),
      TheClaim(uid, {Protection}, {}, BoundTo(uid, false, []));
    UserCreation(r, ref, c1);
    SetStores(r, User, ref, c1);
    var r1 := Set(r, User, ref, c1);
    ClaimProtected(r1, name, uid);
    SetStores(r1, me, ref, c2);
    var r2 := Set(r1, me, ref, c2);
    BucketCreated(r2, name, uid, bucket);
    SetStores(r2, me, BucketFor(uid), b);
    var r3 := Set(r2, me, BucketFor(uid), b);
    ClaimBound(r3, name, uid, bucket);
    SetStores(r3, me, ref, c3);
  }

  lemma ClaimProvisioned(r: Run, name: string, uid: Uid, bucket: Uid, id: string)
    requires CanProvision(r, name, uid, bucket) && id != ""
    ensures
      var r' := ProvisionClaim(r, name, uid, bucket, id);
      && IsRun(r') && SameBut(r.world, r'.world, ClaimNamed(name), BucketFor(uid))
      && Has(r'.world, ClaimNamed(name), TheClaim(uid, {Protection}, {}, BoundTo(uid, true, [Azure])))
      && Has(r'.world, BucketFor(uid), TheBucket(bucket, name, uid, Provisioned(id)))
      && r'.world.uids == r.world.uids + {uid, bucket} && r'.world.calls == r.world.calls
  {
    hide IsRun, Enabled, Permitted, DynamicName, BoundTo, Provisioned, BindClaim;
    ClaimIsBound(r, name, uid, bucket);
    var r4 := BindClaim(r, name, uid, bucket);
    BucketProvisioned(r4, name, uid, bucket, id);
    var r5 := Set(r4, BucketSidecar("d", BucketFor(uid)), BucketFor(uid),
                  TheBucket(bucket, name, uid, Provisioned(id)));
    ClaimReady(r5, name, uid, bucket, id);
  }

  // Steps of the access reconcilers

  const SIDECAR := AccessSidecar("d", ACCESS)
  const CONTROLLER := AccessController(ACCESS)

  lemma AccessProtected(r: Run)
    requires IsRun(r) && Has(r.world, ACCESS, TheAccess(false, {}, {}, NO_ACCESS_STATUS))
    ensures IsRun(Set(r, CONTROLLER, ACCESS, TheAccess(false, {Protection}, {}, NO_ACCESS_STATUS)))
  {
    hide IsRun;
    var e := Write(r, CONTROLLER, ACCESS, TheAccess(false, {Protection}, {}, NO_ACCESS_STATUS));
    assert {} + {Protection} == {Protection};
    assert e.now == Some(WithFinalizer(r.world.objs[ACCESS]));
    Next(r, e);
  }

  function ReadyClaim(uid: Uid, annotations: set<Annotation>): Object {
    TheClaim(uid, {Protection}, annotations, BoundTo(uid, true, [Azure]))
  }

  lemma ClaimMarked(r: Run, name: string, uid: Uid)
    requires IsRun(r) && Has(r.world, ClaimNamed(name), ReadyClaim(uid, {}))
    ensures IsRun(Set(r, CONTROLLER, ClaimNamed(name), ReadyClaim(uid, {HasAccessReferences})))
  {
    hide IsRun;
    var e := Write(r, CONTROLLER, ClaimNamed(name), ReadyClaim(uid, {HasAccessReferences}));
    assert {} + {HasAccessReferences} == {HasAccessReferences};
    assert e.now == Some(Annotated(r.world.objs[ClaimNamed(name)], HasAccessReferences));
    Next(r, e);
  }

  const CLASS_SPEC := AccessClassSpec("d", Key, map[], [], true)

  /** Everything that the access depends on is ready and marked. */
  ghost predicate Prepared(w: World, y: string) {
    && y != "" && Has(w, CLASS, Object(NewMeta("6"), AccessClass(CLASS_SPEC)))
    && Has(w, ClaimNamed("c1"), ReadyClaim("1", {HasAccessReferences}))
    && Has(w, ClaimNamed("c2"), ReadyClaim("2", {HasAccessReferences}))
    && Has(w, BucketFor("1"), TheBucket("3", "c1", "1", Provisioned("x")))
    && Has(w, BucketFor("2"), TheBucket("4", "c2", "2", Provisioned(y)))
  }

  lemma EntryReady(r: Run, name: string, uid: Uid, bucket: Uid, id: string)
    requires Has(r.world, ClaimNamed(name), ReadyClaim(uid, {HasAccessReferences}))
    requires Has(r.world, BucketFor(uid), TheBucket(bucket, name, uid, Provisioned(id)))
    ensures EverOffered(r, ClaimNamed(name), Azure, DynamicName(uid)) && EverHadId(r, DynamicName(uid), id)
    ensures MarkKept(r, ACCESS, AccessedBucket(DynamicName(uid), id, name))
  {
  }

  lemma HandedOff(r: Run, y: string)
    requires IsRun(r) && Prepared(r.world, y)
    requires Has(r.world, ACCESS, TheAccess(false, {Protection}, {}, NO_ACCESS_STATUS))
    ensures IsRun(Set(r, CONTROLLER, ACCESS, TheAccess(false, {Protection}, {}, Initial(y))))
  {
    hide IsRun, EverOffered, EverHadId, MarkKept;
    var e := Write(r, CONTROLLER, ACCESS, TheAccess(false, {Protection}, {}, Initial(y)));
    assert DynamicName("1") == "bc-1" && DynamicName("2") == "bc-2" && "c1"[1] != "c2"[1];
    EntryReady(r, "c1", "1", "3", "x");
    EntryReady(r, "c2", "2", "4", y);
    assert EverAllowed(r, SPEC, Initial(y));
    assert SPEC.claims[0].claimName == "c1" && SPEC.claims[1].claimName == "c2";
    assert Initialises(r, ACCESS, r.world.objs[ACCESS], Initial(y));
    Next(r, e);
  }

  lemma NamesBoth()
    ensures NamesSecret(SPEC.claims, "s1") && NamesSecret(SPEC.claims, "s2") && "s1"[1] != "s2"[1]
  {
    assert SPEC.claims[0].secretName == "s1" && SPEC.claims[1].secretName == "s2";
  }

  lemma SecretReserved(r: Run, y: string, name: string, uid: Uid)
    requires IsRun(r) && Has(r.world, ACCESS, TheAccess(false, {Protection}, {}, Initial(y))) && name in {"s1", "s2"}
    requires SecretNamed(name) !in r.world.objs && uid != "" && uid !in r.world.uids
    ensures IsRun(Set(r, SIDECAR, SecretNamed(name), TheSecret(uid, {Protection}, map[])))
  {
    hide IsRun;
    NamesBoth();
    var e := Write(r, SIDECAR, SecretNamed(name), TheSecret(uid, {Protection}, map[]));
    assert e.now.value == NewSecret(uid, "7");
    Next(r, e);
  }

  // Grants

  function Info(store: string): BucketInfo { BucketInfo(None, Some(AzureBucketInfo(store)), None) }
  function Token(token: string): CredentialInfo { CredentialInfo(None, Some(AzureCredential(token, "")), None) }

  function Reply(y: string, token: string): GrantReply {
    GrantReply("acct", [GrantedBucket("x", Some(Info("one"))), GrantedBucket(y, Some(Info("two")))], Some(Token(token)))
  }

  function Request(y: string): GrantRequest {
    var second := GrantBucket(y, ReadOnlyMode);
    GrantRequest("ba-7", AzureProtocol, KeyAuth, "", map[],
                 if y == "x" then [second] else [GrantBucket("x", ReadWriteMode), second])
  }

  function GrantCall(y: string, token: string): Call { Call.Grant("7", Request(y), Some(Reply(y, token))) }

  function Data(token: string, store: string): Vars {
    map[AzureAccessToken := token, AzureExpiry := "", AzureStorageAccount := store]
  }

  /** The configuration is the one that was handed off. */
  predicate Configured(s: AccessStatus, y: string) {
    s == Initial(y).(ready := s.ready, accountId := s.accountId)
  }

  lemma RequestFits(s: AccessStatus, y: string)
    requires Configured(s, y)
    ensures GrantMatches("7", SPEC, s, Request(y)) && LastWithId(s, 1) && (LastWithId(s, 0) <==> y != "x")
  {
    assert AccountName("7") == "ba-7";
    assert s.accessed[0].bucketId == "x" && s.accessed[1].bucketId == y;
    assert AccessedIds(s) == {"x", y};
    var g := Request(y);
    if y == "x" { assert g.buckets[0].id == y; } else { assert g.buckets[0].id == "x" && g.buckets[1].id == y; }
    assert GrantIds(g) == {"x", y};
    assert SPEC.claims[0].mode == ReadWrite && SPEC.claims[1].mode == ReadOnly;
  }

  lemma GrantMade(r: Run, s: AccessStatus, y: string, token: string)
    requires IsRun(r) && Has(r.world, ACCESS, TheAccess(false, {Protection}, {}, s)) && Configured(s, y)
    ensures IsRun(Extend(r, Called(SIDECAR, GrantCall(y, token))))
  {
    hide IsRun, GrantMatches;
    RequestFits(s, y);
    Next(r, Called(SIDECAR, GrantCall(y, token)));
  }

  /** What the reply holds for each claim that is served. */
  lemma ReplyFills(s: AccessStatus, y: string, token: string, i: nat)
    requires Configured(s, y) && i < 2 && token != ""
    ensures FilledBy(Reply(y, token), SPEC, s, i, Data(token, if i == 0 && y != "x" then "one" else "two"))
  {
    var store := if i == 0 && y != "x" then "one" else "two";
    var reply := Reply(y, token);
    assert s.accessed[0].bucketId == "x" && s.accessed[1].bucketId == y;
    assert reply.buckets[..1] == [reply.buckets[0]];
    assert InfoFor(reply.buckets, s.accessed[i].bucketId) == Some(Info(store));
    assert CredentialVars(Token(token)) == map[AzureAccessToken := token, AzureExpiry := ""];
    assert InfoVars(Info(store)) == map[AzureStorageAccount := store];
    assert Data(token, store) == CredentialVars(Token(token)) + InfoVars(Info(store));
    assert Data(token, store).Keys == SecretKeys(Azure);
  }

  lemma DataIsFresh(calls: seq<Call>, s: AccessStatus, y: string, token: string, i: nat)
    requires Configured(s, y) && token != "" && i < 2 && (i == 0 ==> y != "x")
    requires LatestReply(calls, "7") == Some(Reply(y, token))
    ensures FreshFor(calls, "7", SPEC, s, SPEC.claims[i].secretName, Data(token, if i == 0 then "one" else "two"))
  {
    hide FilledBy, LatestReply, Reply, Data;
    RequestFits(s, y);
    ReplyFills(s, y, token, i);
  }

  lemma SecretFilled(r: Run, s: AccessStatus, y: string, token: string, i: nat, uid: Uid, before: Vars)
    requires IsRun(r) && Has(r.world, ACCESS, TheAccess(false, {Protection}, {}, s)) && Configured(s, y) && token != ""
    requires LatestReply(r.world.calls, "7") == Some(Reply(y, token)) && i < 2 && (i == 0 ==> y != "x")
    requires Has(r.world, SecretNamed(SPEC.claims[i].secretName), TheSecret(uid, {Protection}, before))
    ensures
      var data := Data(token, if i == 0 then "one" else "two");
      IsRun(Set(r, SIDECAR, SecretNamed(SPEC.claims[i].secretName), TheSecret(uid, {Protection}, data)))
  {
    hide IsRun, LatestReply, Reply, Data, FreshFor;
    NamesBoth();
    DataIsFresh(r.world.calls, s, y, token, i);
    var data := Data(token, if i == 0 then "one" else "two");
    Next(r, Write(r, SIDECAR, SecretNamed(SPEC.claims[i].secretName), TheSecret(uid, {Protection}, data)));
  }

  /** The Secrets are as the reply leaves them; with equal IDs the first one is not served. */
  ghost predicate Filled(w: World, y: string, token: string, first: Vars) {
    && LatestReply(w.calls, "7") == Some(Reply(y, token)) && (y != "x" ==> first == Data(token, "one"))
    && Has(w, SecretNamed("s1"), TheSecret("8", {Protection}, first))
    && Has(w, SecretNamed("s2"), TheSecret("9", {Protection}, Data(token, "two")))
  }

  lemma FilledTogether(w: World, y: string, token: string, first: Vars)
    requires Has(w, ACCESS, TheAccess(false, {Protection}, {}, Initial(y))) && token != "" && Filled(w, y, token, first)
    ensures GrantedTogether(w, ACCESS, w.objs[ACCESS], "acct")
  {
    hide FilledBy, LatestReply, Data;
    NamesBoth();
    var s, a := Initial(y), w.objs[ACCESS];
    RequestFits(s, y);
    ReplyFills(s, y, token, 0);
    ReplyFills(s, y, token, 1);
    assert SPEC.claims[0].secretName == "s1" && SPEC.claims[1].secretName == "s2";
    assert ClaimFilledBy(w, ACCESS, a, 0, Reply(y, token)) && ClaimFilledBy(w, ACCESS, a, 1, Reply(y, token));
  }

  lemma MadeReady(r: Run, y: string, token: string, first: Vars)
    requires IsRun(r) && Has(r.world, ACCESS, TheAccess(false, {Protection}, {}, Initial(y))) && token != ""
    requires Filled(r.world, y, token, first) && Granted(r.world.calls, "7", "acct")
    ensures IsRun(Set(r, SIDECAR, ACCESS, TheAccess(false, {Protection}, {}, Complete(y))))
  {
    hide IsRun, GrantedTogether, Filled, Granted;
    FilledTogether(r.world, y, token, first);
    Next(r, Write(r, SIDECAR, ACCESS, TheAccess(false, {Protection}, {}, Complete(y))));
  }

  // Deletion

  lemma SecretReleased(r: Run, s: AccessStatus, y: string, name: string, uid: Uid, data: Vars)
    requires IsRun(r) && Has(r.world, ACCESS, TheAccess(true, {Protection}, {}, s)) && Configured(s, y)
    requires name in {"s1", "s2"}
    requires Has(r.world, SecretNamed(name), TheSecret(uid, {Protection}, data))
    ensures IsRun(Set(r, SIDECAR, SecretNamed(name), TheSecret(uid, {}, data)))
  {
    hide IsRun;
    NamesBoth();
    var e := Write(r, SIDECAR, SecretNamed(name), TheSecret(uid, {}, data));
    assert {Protection} - {Protection} == {};
    assert e.now == Settled(WithoutFinalizer(r.world.objs[SecretNamed(name)]));
    Next(r, e);
  }

  lemma SecretRemoved(r: Run, s: AccessStatus, y: string, name: string, uid: Uid, data: Vars)
    requires IsRun(r) && Has(r.world, ACCESS, TheAccess(true, {Protection}, {}, s)) && Configured(s, y)
    requires name in {"s1", "s2"}
    requires Has(r.world, SecretNamed(name), TheSecret(uid, {}, data))
    ensures IsRun(Extend(r, Change(SIDECAR, SecretNamed(name), None)))
  {
    hide IsRun;
    NamesBoth();
    Next(r, Change(SIDECAR, SecretNamed(name), None));
  }

  function RevokeCall(y: string): Call {
    Call.Revoke("7", RevokeRequest("acct", AzureProtocol, KeyAuth, "", map[], ["x", y]), true)
  }

  lemma RevokeMade(r: Run, y: string)
    requires IsRun(r) && Has(r.world, ACCESS, TheAccess(true, {Protection}, {}, Complete(y)))
    ensures IsRun(Extend(r, Called(SIDECAR, RevokeCall(y))))
  {
    hide IsRun;
    var s, v := Complete(y), RevokeCall(y).revoke;
    assert s.accessed[0].bucketId == "x" && s.accessed[1].bucketId == y && v.buckets[0] == "x" && v.buckets[1] == y;
    assert RevokeIds(v) == {"x", y} == AccessedIds(s);
    Next(r, Called(SIDECAR, RevokeCall(y)));
  }

  lemma CleanupAnnounced(r: Run, s: AccessStatus, y: string)
    requires IsRun(r) && Has(r.world, ACCESS, TheAccess(true, {Protection}, {}, s)) && Configured(s, y)
    requires SecretNamed("s1") !in r.world.objs && SecretNamed("s2") !in r.world.objs
    requires s.accountId != "" ==> Revoked(r.world.calls, "7", s.accountId)
    ensures IsRun(Set(r, SIDECAR, ACCESS, TheAccess(true, {Protection}, {CleanupFinished}, s)))
  {
    hide IsRun, Revoked;
    var e := Write(r, SIDECAR, ACCESS, TheAccess(true, {Protection}, {CleanupFinished}, s));
    assert {} + {CleanupFinished} == {CleanupFinished};
    assert e.now == Some(Annotated(r.world.objs[ACCESS], CleanupFinished));
    Next(r, e);
  }

  lemma ClaimUnmarked(r: Run, s: AccessStatus, name: string, uid: Uid)
    requires IsRun(r) && Has(r.world, ACCESS, TheAccess(true, {Protection}, {CleanupFinished}, s))
    requires forall k :: k in r.world.objs && r.world.objs[k].body.Access? ==> k == ACCESS
    requires Has(r.world, ClaimNamed(name), ReadyClaim(uid, {HasAccessReferences}))
    ensures IsRun(Set(r, CONTROLLER, ClaimNamed(name), ReadyClaim(uid, {})))
  {
    hide IsRun;
    var e := Write(r, CONTROLLER, ClaimNamed(name), ReadyClaim(uid, {}));
    assert {HasAccessReferences} - {HasAccessReferences} == {};
    assert e.now == Some(Unannotated(r.world.objs[ClaimNamed(name)], HasAccessReferences));
    Next(r, e);
  }

  lemma AccessRemoved(r: Run, s: AccessStatus)
    requires IsRun(r) && Has(r.world, ACCESS, TheAccess(true, {Protection}, {CleanupFinished}, s))
    ensures IsRun(Extend(r, Change(CONTROLLER, ACCESS, None)))
  {
    hide IsRun;
    assert {Protection} - {Protection} == {};
    assert Settled(WithoutFinalizer(r.world.objs[ACCESS])) == None;
    Next(r, Change(CONTROLLER, ACCESS, None));
  }

  // The runs

  const BUCKET_CLASS_OBJECT := Object(NewMeta("5"), BucketClass(MADE))
  const CLASS_OBJECT := Object(NewMeta("6"), AccessClass(CLASS_SPEC))

  ghost function FirstClaim(): Run {
    ProvisionClaim(Set(Start(EMPTY), User, BUCKET_CLASS, BUCKET_CLASS_OBJECT), "c1", "1", "3", "x")
  }

  ghost function Claims(y: string): Run { ProvisionClaim(FirstClaim(), "c2", "2", "4", y) }

  /** There are no Secrets, and no access other than the one. */
  ghost predicate Tidy(w: World) {
    && (forall ref :: ref in w.objs ==> ref.kind != SecretKind)
    && (forall ref :: ref in w.objs && w.objs[ref].body.Access? ==> ref == ACCESS)
  }

  lemma FirstClaimMade()
    ensures
      var w := FirstClaim().world;
      && IsRun(FirstClaim()) && Has(w, BUCKET_CLASS, BUCKET_CLASS_OBJECT)
      && Has(w, ClaimNamed("c1"), ReadyClaim("1", {}))
      && Has(w, BucketFor("1"), TheBucket("3", "c1", "1", Provisioned("x")))
      && (forall ref :: ref in w.objs ==> ref in {BUCKET_CLASS, ClaimNamed("c1"), BucketFor("1")})
      && w.uids == {"5", "1", "3"} && w.calls == []
  {
    hide IsRun, Enabled, Permitted, ProvisionClaim, After, Set, Stamped, BoundTo, Provisioned, DynamicName;
    var r0 := Start(EMPTY);
    StartIsRun();
    UserCreation(r0, BUCKET_CLASS, BUCKET_CLASS_OBJECT);
    SetStores(r0, User, BUCKET_CLASS, BUCKET_CLASS_OBJECT);
    var r1 := Set(r0, User, BUCKET_CLASS, BUCKET_CLASS_OBJECT);
    ClassIsStored(r1.world);
    ClaimProvisioned(r1, "c1", "1", "3", "x");
  }

  lemma ClaimsMade(y: string)
    requires y != ""
    ensures
      var w := Claims(y).world;
      && IsRun(Claims(y)) && Tidy(w) && ACCESS !in w.objs && CLASS !in w.objs
      && Has(w, ClaimNamed("c1"), ReadyClaim("1", {})) && Has(w, ClaimNamed("c2"), ReadyClaim("2", {}))
      && Has(w, BucketFor("1"), TheBucket("3", "c1", "1", Provisioned("x")))
      && Has(w, BucketFor("2"), TheBucket("4", "c2", "2", Provisioned(y)))
      && w.uids == {"5", "1", "3"} + {"2", "4"} && w.calls == []
  {
    hide IsRun, Enabled, Permitted, ProvisionClaim, FirstClaim, BoundTo, Provisioned;
    FirstClaimMade();
    var r := FirstClaim();
    assert DynamicName("1")[3] != DynamicName("2")[3] && "c1"[1] != "c2"[1];
    ClassIsStored(r.world);
    ClaimProvisioned(r, "c2", "2", "4", y);
  }

  lemma StartIsRun()
    ensures IsRun(Start(EMPTY))
  {
  }

  lemma ClassIsStored(w: World)
    requires Has(w, BUCKET_CLASS, BUCKET_CLASS_OBJECT)
    ensures BucketClassNow(w, "b", MADE)
  {
  }

  ghost function Requested(y: string): Run {
    var r1 := Set(Claims(y), User, CLASS, CLASS_OBJECT);
    var r2 := Set(r1, User, ACCESS, TheAccess(false, {}, {}, NO_ACCESS_STATUS));
    Set(r2, CONTROLLER, ACCESS, TheAccess(false, {Protection}, {}, NO_ACCESS_STATUS))
  }

  ghost function HandOff(y: string): Run {
    var r4 := Set(Requested(y), CONTROLLER, ClaimNamed("c1"), ReadyClaim("1", {HasAccessReferences}));
    var r5 := Set(r4, CONTROLLER, ClaimNamed("c2"), ReadyClaim("2", {HasAccessReferences}));
    Set(r5, CONTROLLER, ACCESS, TheAccess(false, {Protection}, {}, Initial(y)))
  }

  /** The access is there with this status and marks on its claims, and no other access is. */
  ghost predicate InUse(w: World, deleting: bool, annotations: set<Annotation>, s: AccessStatus) {
    && Has(w, ACCESS, TheAccess(deleting, {Protection}, annotations, s))
    && Has(w, ClaimNamed("c1"), ReadyClaim("1", {HasAccessReferences}))
    && Has(w, ClaimNamed("c2"), ReadyClaim("2", {HasAccessReferences}))
    && (forall ref :: ref in w.objs && w.objs[ref].body.Access? ==> ref == ACCESS)
  }

  lemma RequestedMade(y: string)
    requires y != ""
    ensures
      var w := Requested(y).world;
      && IsRun(Requested(y)) && Tidy(w) && Has(w, CLASS, CLASS_OBJECT)
      && Has(w, ACCESS, TheAccess(false, {Protection}, {}, NO_ACCESS_STATUS))
      && Has(w, ClaimNamed("c1"), ReadyClaim("1", {})) && Has(w, ClaimNamed("c2"), ReadyClaim("2", {}))
      && Has(w, BucketFor("1"), TheBucket("3", "c1", "1", Provisioned("x")))
      && Has(w, BucketFor("2"), TheBucket("4", "c2", "2", Provisioned(y)))
      && w.uids == {"5", "1", "3"} + {"2", "4"} + {"6"} + {"7"} && w.calls == []
  {
    hide IsRun, Enabled, Permitted, Claims, After, Set, Provisioned, ReadyClaim, DynamicName;
    ClaimsMade(y);
    var r0 := Claims(y);
    var a1, a2 := TheAccess(false, {}, {}, NO_ACCESS_STATUS), TheAccess(false, {Protection}, {}, NO_ACCESS_STATUS);
    UserCreation(r0, CLASS, CLASS_OBJECT);
    SetStores(r0, User, CLASS, CLASS_OBJECT);
    var r1 := Set(r0, User, CLASS, CLASS_OBJECT);
    UserCreation(r1, ACCESS, a1);
    SetStores(r1, User, ACCESS, a1);
    var r2 := Set(r1, User, ACCESS, a1);
    AccessProtected(r2);
    SetStores(r2, CONTROLLER, ACCESS, a2);
  }

  lemma HandOffMade(y: string)
    requires y != ""
    ensures
      var w := HandOff(y).world;
      && IsRun(HandOff(y)) && Tidy(w) && InUse(w, false, {}, Initial(y))
      && w.uids == {"5", "1", "3"} + {"2", "4"} + {"6"} + {"7"} && w.calls == []
  {
    hide IsRun, Enabled, Permitted, Requested, After, Set, Provisioned, ReadyClaim, Initial, DynamicName;
    RequestedMade(y);
    ReadyClaimsAre();
    var r3 := Requested(y);
    ClaimMarked(r3, "c1", "1");
    SetStores(r3, CONTROLLER, ClaimNamed("c1"), ReadyClaim("1", {HasAccessReferences}));
    var r4 := Set(r3, CONTROLLER, ClaimNamed("c1"), ReadyClaim("1", {HasAccessReferences}));
    ClaimMarked(r4, "c2", "2");
    SetStores(r4, CONTROLLER, ClaimNamed("c2"), ReadyClaim("2", {HasAccessReferences}));
    var r5 := Set(r4, CONTROLLER, ClaimNamed("c2"), ReadyClaim("2", {HasAccessReferences}));
    HandedOff(r5, y);
    SetStores(r5, CONTROLLER, ACCESS, TheAccess(false, {Protection}, {}, Initial(y)));
  }

  lemma ReadyClaimsAre()
    ensures ReadyClaim("1", {HasAccessReferences}).meta.uid == "1"
    ensures ReadyClaim("2", {HasAccessReferences}).meta.uid == "2"
    ensures ReadyClaim("1", {HasAccessReferences}).body.Claim? && ReadyClaim("2", {HasAccessReferences}).body.Claim?
    ensures "c1"[1] != "c2"[1]
  {
  }

  ghost function Ask(y: string, token: string): Run {
    var r1 := Set(HandOff(y), SIDECAR, SecretNamed("s1"), TheSecret("8", {Protection}, map[]));
    var r2 := Set(r1, SIDECAR, SecretNamed("s2"), TheSecret("9", {Protection}, map[]));
    Extend(r2, Called(SIDECAR, GrantCall(y, token)))
  }

  /** The Secrets hold this data, or are absent. */
  ghost predicate Holding(w: World, first: Vars, second: Vars) {
    && Has(w, SecretNamed("s1"), TheSecret("8", {Protection}, first))
    && Has(w, SecretNamed("s2"), TheSecret("9", {Protection}, second))
  }

  lemma Asked(y: string, token: string)
    requires y != ""
    ensures
      var w := Ask(y, token).world;
      IsRun(Ask(y, token)) && InUse(w, false, {}, Initial(y)) && Holding(w, map[], map[])
        && w.calls == [GrantCall(y, token)]
  {
    hide IsRun, Enabled, Permitted, HandOff, Set, ReadyClaim, Initial, Request, Reply, GrantCall;
    HandOffMade(y);
    NamesBoth();
    ConfiguredInitially(y);
    var r := HandOff(y);
    var x1, x2 := TheSecret("8", {Protection}, map[]), TheSecret("9", {Protection}, map[]);
    SecretReserved(r, y, "s1", "8");
    SetStores(r, SIDECAR, SecretNamed("s1"), x1);
    var r1 := Set(r, SIDECAR, SecretNamed("s1"), x1);
    SecretReserved(r1, y, "s2", "9");
    SetStores(r1, SIDECAR, SecretNamed("s2"), x2);
    var r2 := Set(r1, SIDECAR, SecretNamed("s2"), x2);
    GrantMade(r2, Initial(y), y, token);
  }

  lemma ConfiguredInitially(y: string)
    ensures Configured(Initial(y), y) && Configured(Complete(y), y)
  {
  }

  lemma LatestIs(calls: seq<Call>, y: string, token: string)
    ensures LatestReply(calls + [GrantCall(y, token)], "7") == Some(Reply(y, token))
    ensures Granted(calls + [GrantCall(y, token)], "7", "acct")
  {
    assert (calls + [GrantCall(y, token)])[|calls|] == GrantCall(y, token);
  }

  // Two claims whose Buckets have the same ID: the access is ready, and the first Secret is empty.

  ghost function SharedId(token: string): Run {
    var r1 := Set(Ask("x", token), SIDECAR, SecretNamed("s2"), TheSecret("9", {Protection}, Data(token, "two")));
    Set(r1, SIDECAR, ACCESS, TheAccess(false, {Protection}, {}, Complete("x")))
  }

  lemma SharedIdRun(token: string)
    requires token != ""
    ensures
      var w := SharedId(token).world;
      IsRun(SharedId(token)) && InUse(w, false, {}, Complete("x")) && Holding(w, map[], Data(token, "two"))
  {
    hide IsRun, Enabled, Permitted, Ask, Set, After, ReadyClaim, Initial, Complete, GrantCall, Data, LatestReply,
         Granted;
    Asked("x", token);
    ConfiguredInitially("x");
    NamesBoth();
    var r := Ask("x", token);
    LatestIs([], "x", token);
    assert [] + [GrantCall("x", token)] == [GrantCall("x", token)];
    SecretFilled(r, Initial("x"), "x", token, 1, "9", map[]);
    SetStores(r, SIDECAR, SecretNamed("s2"), TheSecret("9", {Protection}, Data(token, "two")));
    var r1 := Set(r, SIDECAR, SecretNamed("s2"), TheSecret("9", {Protection}, Data(token, "two")));
    MadeReady(r1, "x", token, map[]);
    SetStores(r1, SIDECAR, ACCESS, TheAccess(false, {Protection}, {}, Complete("x")));
  }

  // Distinct IDs: both Secrets are filled from one reply.

  ghost function Served(token: string): Run {
    var r1 := Set(Ask("y", token), SIDECAR, SecretNamed("s1"), TheSecret("8", {Protection}, Data(token, "one")));
    var r2 := Set(r1, SIDECAR, SecretNamed("s2"), TheSecret("9", {Protection}, Data(token, "two")));
    Set(r2, SIDECAR, ACCESS, TheAccess(false, {Protection}, {}, Complete("y")))
  }

  lemma ServedRun(token: string)
    requires token != ""
    ensures
      var w := Served(token).world;
      && IsRun(Served(token)) && InUse(w, false, {}, Complete("y"))
      && Holding(w, Data(token, "one"), Data(token, "two"))
      && w.calls == [GrantCall("y", token)]
  {
    hide IsRun, Enabled, Permitted, Ask, Set, After, ReadyClaim, Initial, Complete, GrantCall, Data, LatestReply,
         Granted;
    Asked("y", token);
    ConfiguredInitially("y");
    NamesBoth();
    assert "x"[0] != "y"[0];
    var r := Ask("y", token);
    LatestIs([], "y", token);
    assert [] + [GrantCall("y", token)] == [GrantCall("y", token)];
    SecretFilled(r, Initial("y"), "y", token, 0, "8", map[]);
    SetStores(r, SIDECAR, SecretNamed("s1"), TheSecret("8", {Protection}, Data(token, "one")));
    var r1 := Set(r, SIDECAR, SecretNamed("s1"), TheSecret("8", {Protection}, Data(token, "one")));
    SecretFilled(r1, Initial("y"), "y", token, 1, "9", map[]);
    SetStores(r1, SIDECAR, SecretNamed("s2"), TheSecret("9", {Protection}, Data(token, "two")));
    var r2 := Set(r1, SIDECAR, SecretNamed("s2"), TheSecret("9", {Protection}, Data(token, "two")));
    MadeReady(r2, "y", token, Data(token, "one"));
    SetStores(r2, SIDECAR, ACCESS, TheAccess(false, {Protection}, {}, Complete("y")));
  }

  // A later reconcile that gets other credentials and stops after the first Secret leaves them mixed.

  ghost function Mixed(token: string, later: string): Run {
    var r1 := Extend(Served(token), Called(SIDECAR, GrantCall("y", later)));
    Set(r1, SIDECAR, SecretNamed("s1"), TheSecret("8", {Protection}, Data(later, "one")))
  }

  lemma MixedRun(token: string, later: string)
    requires token != "" && later != ""
    ensures
      var w := Mixed(token, later).world;
      IsRun(Mixed(token, later)) && InUse(w, false, {}, Complete("y"))
        && Holding(w, Data(later, "one"), Data(token, "two"))
  {
    hide IsRun, Enabled, Permitted, Served, Set, ReadyClaim, Initial, Complete, GrantCall, Data, LatestReply;
    ServedRun(token);
    ConfiguredInitially("y");
    NamesBoth();
    assert "x"[0] != "y"[0];
    var r := Served(token);
    GrantMade(r, Complete("y"), "y", later);
    var r1 := Extend(r, Called(SIDECAR, GrantCall("y", later)));
    LatestIs(r.world.calls, "y", later);
    SecretFilled(r1, Complete("y"), "y", later, 0, "8", Data(token, "one"));
    SetStores(r1, SIDECAR, SecretNamed("s1"), TheSecret("8", {Protection}, Data(later, "one")));
  }

  /** Then the two claims share their credentials only if the replies carry the same ones. */
  lemma MixedIsNotShared(token: string, later: string)
    requires token != "" && later != "" && token != later
    ensures
      var w := Mixed(token, later).world;
      && IsRun(Mixed(token, later)) && InUse(w, false, {}, Complete("y"))
      && !Sources.ShareCredentials(w, ACCESS, w.objs[ACCESS], 0, 1)
  {
    hide IsRun, Enabled, Permitted, Mixed, Complete;
    MixedRun(token, later);
    var w := Mixed(token, later).world;
    assert SPEC.claims[0].secretName == "s1" && SPEC.claims[1].secretName == "s2";
    assert AzureAccessToken in CredentialKeys(Azure);
    assert Restrict(Data(later, "one"), CredentialKeys(Azure))[AzureAccessToken] == later;
    assert Restrict(Data(token, "two"), CredentialKeys(Azure))[AzureAccessToken] == token;
  }

  // Deletion, of an access with a recorded account or without one

  function Drop(r: Run, actor: Actor, ref: Ref): Run { Extend(r, Change(actor, ref, None)) }

  /** `w'` is `w` without `ref`. */
  ghost predicate Drops(w: World, w': World, ref: Ref) {
    && ref !in w'.objs && w'.calls == w.calls
    && forall other :: other != ref ==>
         (other in w.objs <==> other in w'.objs) && (other in w.objs ==> w'.objs[other] == w.objs[other])
  }

  lemma DropDrops(r: Run, actor: Actor, ref: Ref)
    ensures Drops(r.world, Drop(r, actor, ref).world, ref)
  {
  }

  ghost function DropSecret(r: Run, name: string, uid: Uid, data: Vars): Run {
    Drop(Set(r, SIDECAR, SecretNamed(name), TheSecret(uid, {}, data)), SIDECAR, SecretNamed(name))
  }

  lemma SecretDropped(r: Run, s: AccessStatus, y: string, name: string, uid: Uid, data: Vars)
    requires IsRun(r) && Has(r.world, ACCESS, TheAccess(true, {Protection}, {}, s)) && Configured(s, y)
    requires name in {"s1", "s2"}
    requires Has(r.world, SecretNamed(name), TheSecret(uid, {Protection}, data))
    ensures IsRun(DropSecret(r, name, uid, data))
    ensures Drops(r.world, DropSecret(r, name, uid, data).world, SecretNamed(name))
  {
    hide IsRun, Enabled, Permitted, After, Set, Drop;
    SecretReleased(r, s, y, name, uid, data);
    SetStores(r, SIDECAR, SecretNamed(name), TheSecret(uid, {}, data));
    var r1 := Set(r, SIDECAR, SecretNamed(name), TheSecret(uid, {}, data));
    SecretRemoved(r1, s, y, name, uid, data);
    DropDrops(r1, SIDECAR, SecretNamed(name));
    DropIs(r1, SIDECAR, SecretNamed(name));
  }

  lemma DropIs(r: Run, actor: Actor, ref: Ref)
    ensures Drop(r, actor, ref) == Extend(r, Change(actor, ref, None))
  {
  }

  ghost function Clear(r: Run, s: AccessStatus, first: Vars, second: Vars): Run {
    var r1 := Set(r, User, ACCESS, TheAccess(true, {Protection}, {}, s));
    DropSecret(DropSecret(r1, "s1", "8", first), "s2", "9", second)
  }

  lemma Cleared(r: Run, s: AccessStatus, y: string, first: Vars, second: Vars)
    requires IsRun(r) && InUse(r.world, false, {}, s) && Configured(s, y) && Holding(r.world, first, second)
    ensures
      var w := Clear(r, s, first, second).world;
      && IsRun(Clear(r, s, first, second)) && InUse(w, true, {}, s) && w.calls == r.world.calls
      && SecretNamed("s1") !in w.objs && SecretNamed("s2") !in w.objs
  {
    hide IsRun, Enabled, Permitted, After, Set, DropSecret, ReadyClaim, Configured;
    NamesBoth();
    UserDeletion(r, s);
    SetStores(r, User, ACCESS, TheAccess(true, {Protection}, {}, s));
    var r1 := Set(r, User, ACCESS, TheAccess(true, {Protection}, {}, s));
    SecretDropped(r1, s, y, "s1", "8", first);
    var r2 := DropSecret(r1, "s1", "8", first);
    SecretDropped(r2, s, y, "s2", "9", second);
  }

  ghost function Finish(r: Run, s: AccessStatus): Run {
    var r1 := Set(r, SIDECAR, ACCESS, TheAccess(true, {Protection}, {CleanupFinished}, s));
    var r2 := Set(r1, CONTROLLER, ClaimNamed("c1"), ReadyClaim("1", {}));
    var r3 := Set(r2, CONTROLLER, ClaimNamed("c2"), ReadyClaim("2", {}));
    Drop(r3, CONTROLLER, ACCESS)
  }

  lemma Finished(r: Run, s: AccessStatus, y: string)
    requires IsRun(r) && InUse(r.world, true, {}, s) && Configured(s, y)
    requires SecretNamed("s1") !in r.world.objs && SecretNamed("s2") !in r.world.objs
    requires s.accountId != "" ==> Revoked(r.world.calls, "7", s.accountId)
    ensures
      var w := Finish(r, s).world;
      && IsRun(Finish(r, s)) && w.calls == r.world.calls && ACCESS !in w.objs
      && SecretNamed("s1") !in w.objs && SecretNamed("s2") !in w.objs
  {
    hide IsRun, Enabled, Permitted, After, Set, Configured, Revoked;
    ReadyClaimsAre();
    var a := TheAccess(true, {Protection}, {CleanupFinished}, s);
    CleanupAnnounced(r, s, y);
    SetStores(r, SIDECAR, ACCESS, a);
    var r1 := Set(r, SIDECAR, ACCESS, a);
    ClaimUnmarked(r1, s, "c1", "1");
    SetStores(r1, CONTROLLER, ClaimNamed("c1"), ReadyClaim("1", {}));
    var r2 := Set(r1, CONTROLLER, ClaimNamed("c1"), ReadyClaim("1", {}));
    ClaimUnmarked(r2, s, "c2", "2");
    SetStores(r2, CONTROLLER, ClaimNamed("c2"), ReadyClaim("2", {}));
    var r3 := Set(r2, CONTROLLER, ClaimNamed("c2"), ReadyClaim("2", {}));
    AccessRemoved(r3, s);
    DropDrops(r3, CONTROLLER, ACCESS);
  }

  /** The driver granted an account that never reached the status: the access goes, and the account is not revoked. */
  lemma UnrecordedRun(token: string)
    ensures
      var r := Finish(Clear(Ask("y", token), Initial("y"), map[], map[]), Initial("y"));
      && IsRun(r) && ACCESS !in r.world.objs && Granted(r.world.calls, "7", "acct")
      && !Revoked(r.world.calls, "7", "acct")
  {
    hide IsRun, Enabled, Permitted, Ask, Clear, Finish, Initial, InUse, Holding, Configured, GrantCall;
    Asked("y", token);
    ConfiguredInitially("y");
    Cleared(Ask("y", token), Initial("y"), "y", map[], map[]);
    InitiallyUnrecorded("y");
    Finished(Clear(Ask("y", token), Initial("y"), map[], map[]), Initial("y"), "y");
    LatestIs([], "y", token);
    assert [] + [GrantCall("y", token)] == [GrantCall("y", token)];
    GrantIsNoRevoke("y", token);
  }

  lemma InitiallyUnrecorded(y: string)
    ensures Initial(y).accountId == ""
  {
  }

  lemma GrantIsNoRevoke(y: string, token: string)
    ensures GrantCall(y, token).Grant?
  {
  }

  ghost function Leave(token: string): Run {
    Extend(Clear(Served(token), Complete("y"), Data(token, "one"), Data(token, "two")),
           Called(SIDECAR, RevokeCall("y")))
  }

  /** The protocol can be followed to its end: recorded account, filled Secrets, revoke, and the access gone. */
  lemma WholeLifecycle(token: string)
    requires token != ""
    ensures IsRun(Served(token)) && InUse(Served(token).world, false, {}, Complete("y"))
    ensures
      var r := Finish(Leave(token), Complete("y"));
      IsRun(r) && ACCESS !in r.world.objs && Revoked(r.world.calls, "7", "acct")
  {
    hide IsRun, Enabled, Permitted, Served, Clear, Finish, Data, Holding, Configured, GrantCall;
    ServedRun(token);
    ConfiguredInitially("y");
    var r := Served(token);
    Cleared(r, Complete("y"), "y", Data(token, "one"), Data(token, "two"));
    var r1 := Clear(r, Complete("y"), Data(token, "one"), Data(token, "two"));
    RevokeMade(r1, "y");
    var r2 := Leave(token);
    assert r2.world.calls == r1.world.calls + [RevokeCall("y")] && r2.world.calls[|r1.world.calls|] == RevokeCall("y");
    Finished(r2, Complete("y"), "y");
  }
}
