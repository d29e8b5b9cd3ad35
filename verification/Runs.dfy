/** The API server's state, the events that change it, and runs of such events. */
module Runs {
  import opened Objects
  import opened Rpc

  /** `uids` are all UIDs ever assigned; `calls` is the log of driver calls. */
  datatype World = World(objs: map<Ref, Object>, rv: nat, uids: set<Uid>, calls: seq<Call>)

  const EMPTY := World(map[], 0, {}, [])

  datatype Actor =
    | User
    | AccessController(key: Ref)
    | ClaimController(key: Ref)
    | AccessSidecar(driver: string, key: Ref)
    | BucketSidecar(driver: string, key: Ref)

  /** One write that took effect (`now` is None when the object is gone), or one driver call. */
  datatype Event =
    | Change(actor: Actor, ref: Ref, now: Option<Object>)
    | Called(actor: Actor, call: Call)

  datatype Run =
    | Start(world: World)
    | More(prev: Run, event: Event, world: World)

  function Stamped(o: Object, rv: nat): Object { o.(meta := o.meta.(rv := rv)) }

  /** Every write takes the next resource version. */
  function After(w: World, e: Event): World {
    match e
    case Change(_, ref, Some(o)) =>
      w.(objs := w.objs[ref := Stamped(o, w.rv + 1)], rv := w.rv + 1, uids := w.uids + {o.meta.uid})
    case Change(_, ref, None) => w.(objs := w.objs - {ref}, rv := w.rv + 1)
    case Called(_, call) => w.(calls := w.calls + [call])
  }

  function Extend(r: Run, e: Event): Run { More(r, e, After(r.world, e)) }

  // What the API server enforces on every write.

  predicate Once<T(==)>(before: T, unset: T, after: T) { before == unset || before == after }

  predicate AccessAdmitted(spec: AccessSpec, s: AccessStatus, spec': AccessSpec, s': AccessStatus) {
    && spec' == spec
    && Once(s.accountId, "", s'.accountId)
    && Once(s.accessed, [], s'.accessed)
    && Once(s.driverName, "", s'.driverName)
    && Once(s.auth, NoAuth, s'.auth)
    && Once(s.params, map[], s'.params)
  }

  predicate ClaimAdmitted(spec: ClaimSpec, s: ClaimStatus, spec': ClaimSpec, s': ClaimStatus) {
    && spec' == spec
    && Once(s.bound, "", s'.bound)
    && (s.protocols != [] ==> s'.protocols != [])
  }

  predicate BucketAdmitted(spec: BucketSpec, s: BucketStatus, spec': BucketSpec, s': BucketStatus) {
    && spec' == spec.(policy := spec'.policy, claimRef := spec.claimRef.(uid := spec'.claimRef.uid))
    && Once(spec.claimRef.uid, "", spec'.claimRef.uid)
    && Once(s.id, "", s'.id)
    && (s.protocols != [] ==> s'.protocols != [])
  }

  /** The transition rules of the resource schemas. */
  predicate Admitted(before: Body, after: Body) {
    match before
    case Access(spec, s) => after.Access? && AccessAdmitted(spec, s, after.aspec, after.astatus)
    case Claim(spec, s) => after.Claim? && ClaimAdmitted(spec, s, after.cspec, after.cstatus)
    case Bucket(spec, s) => after.Bucket? && BucketAdmitted(spec, s, after.bspec, after.bstatus)
    case Secret(_, _, _) => after.Secret?
    case AccessClass(_) => after == before
    case BucketClass(_) => after == before
  }

  /** A deleting object gains no finalizer, and goes away with its last one. */
  predicate MetaAdmitted(before: Meta, after: Meta) {
    && after.uid == before.uid
    && after.rv == before.rv
    && (before.deleting ==> after.deleting && after.finalizers <= before.finalizers)
    && (after.deleting ==> after.finalizers != {})
  }

  predicate Conforms(w: World, ref: Ref, now: Option<Object>) {
    match now
    case None => ref in w.objs
    case Some(o) =>
      && KindOf(o) == ref.kind
      && (o.body.Secret? ==> o.body.stringData == map[])
      && if ref in w.objs then
           MetaAdmitted(w.objs[ref].meta, o.meta) && Admitted(w.objs[ref].body, o.body)
         else
           !o.meta.deleting && o.meta.uid != "" && o.meta.uid !in w.uids
  }

  /** What remains of an object after a metadata write: nothing, once it is deleting without finalizers. */
  function Settled(o: Object): Option<Object> {
    if o.meta.deleting && o.meta.finalizers == {} then None else Some(o)
  }

  // What was true at some moment of a run.

  predicate EverExisted(r: Run, ref: Ref) {
    ref in r.world.objs || (r.More? && EverExisted(r.prev, ref))
  }

  predicate BoundNow(w: World, bucket: string, uid: Uid) {
    var ref := BucketRef(bucket);
    ref in w.objs && w.objs[ref].body.Bucket? && w.objs[ref].body.bspec.claimRef.uid == uid
  }

  predicate EverBound(r: Run, bucket: string, uid: Uid) {
    BoundNow(r.world, bucket, uid) || (r.More? && EverBound(r.prev, bucket, uid))
  }

  /** The Bucket names exactly this claim. */
  predicate BoundToNow(w: World, bucket: string, cr: ClaimRef) {
    var ref := BucketRef(bucket);
    ref in w.objs && w.objs[ref].body.Bucket? && w.objs[ref].body.bspec.claimRef == cr
  }

  predicate ReportsNow(w: World, bucket: string, protocols: seq<Protocol>) {
    var ref := BucketRef(bucket);
    ref in w.objs && w.objs[ref].body.Bucket? && w.objs[ref].body.bstatus.protocols == protocols
  }

  predicate EverReported(r: Run, bucket: string, protocols: seq<Protocol>) {
    ReportsNow(r.world, bucket, protocols) || (r.More? && EverReported(r.prev, bucket, protocols))
  }

  predicate RetainedNow(w: World, bucket: string) {
    var ref := BucketRef(bucket);
    ref in w.objs && w.objs[ref].body.Bucket? && w.objs[ref].body.bspec.policy != Delete
  }

  predicate EverRetained(r: Run, bucket: string) {
    RetainedNow(r.world, bucket) || (r.More? && EverRetained(r.prev, bucket))
  }

  predicate BucketClassNow(w: World, name: string, cls: BucketClassSpec) {
    var ref := Ref(BucketClassKind, "", name);
    ref in w.objs && w.objs[ref].body == BucketClass(cls)
  }

  /** The class with this name had this content. */
  predicate EverBucketClass(r: Run, name: string, cls: BucketClassSpec) {
    BucketClassNow(r.world, name, cls) || (r.More? && EverBucketClass(r.prev, name, cls))
  }

  predicate AnnotatedNow(w: World, bucket: string) {
    BucketRef(bucket) in w.objs && ClaimBeingDeleted in w.objs[BucketRef(bucket)].meta.annotations
  }

  predicate EverAnnotated(r: Run, bucket: string) {
    AnnotatedNow(r.world, bucket) || (r.More? && EverAnnotated(r.prev, bucket))
  }

  predicate HasIdNow(w: World, bucket: string, id: string) {
    var ref := BucketRef(bucket);
    ref in w.objs && w.objs[ref].body.Bucket? && w.objs[ref].body.bstatus.id == id
  }

  predicate EverHadId(r: Run, bucket: string, id: string) {
    HasIdNow(r.world, bucket, id) || (r.More? && EverHadId(r.prev, bucket, id))
  }

  /** The claim was usable for protocol `p` through `bucket`. */
  predicate OffersNow(w: World, claim: Ref, p: Protocol, bucket: string) {
    && claim in w.objs && w.objs[claim].body.Claim? && !w.objs[claim].meta.deleting
    && var s := w.objs[claim].body.cstatus;
       s.ready == Some(true) && p in s.protocols && s.bound == bucket
  }

  predicate EverOffered(r: Run, claim: Ref, p: Protocol, bucket: string) {
    OffersNow(r.world, claim, p, bucket) || (r.More? && EverOffered(r.prev, claim, p, bucket))
  }

  /** `o` was stored under `ref`. */
  ghost predicate Seen(r: Run, ref: Ref, o: Object) {
    (ref in r.world.objs && r.world.objs[ref] == o) || (r.More? && Seen(r.prev, ref, o))
  }

  // Prefixes

  ghost predicate Prefix(p: Run, r: Run) { p == r || (r.More? && Prefix(p, r.prev)) }

  lemma {:induction false} PrefixTransitive(p: Run, q: Run, r: Run)
    requires Prefix(p, q) && Prefix(q, r)
    ensures Prefix(p, r)
  {
    if q != r { PrefixTransitive(p, q, r.prev); }
  }
}
