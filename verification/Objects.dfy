/** The API objects that the COSI Controller and the Sidecars read and write. */
module Objects {

  datatype Option<+T> = None | Some(value: T)

  type Uid = string

  datatype Kind = AccessKind | ClaimKind | BucketKind | SecretKind | AccessClassKind | BucketClassKind

  /** Cluster-scoped kinds have an empty namespace. */
  datatype Ref = Ref(kind: Kind, ns: string, name: string)

  // API enumerations keep a case for values outside the schema, which the code handles.
  datatype Protocol = S3 | Azure | Gcs | OtherProtocol(name: string)
  datatype AuthType = NoAuth | Key | ServiceAccount | OtherAuth(name: string)
  datatype AccessMode = ReadWrite | ReadOnly | WriteOnly | OtherMode(name: string)
  datatype DeletionPolicy = Retain | Delete | OtherPolicy(name: string)

  /** The COSI environment variables, which are the data keys of access Secrets. */
  datatype Var =
    | S3BucketId | S3Endpoint | S3Region | S3Style | S3AccessKeyId | S3AccessSecretKey
    | AzureStorageAccount | AzureAccessToken | AzureExpiry
    | GcsProjectId | GcsBucketName | GcsAccessId | GcsAccessSecret | GcsPrivateKeyName | GcsServiceAccount
    | ForeignVar(name: string)

  type Vars = map<Var, string>

  datatype Finalizer = Protection | ForeignFinalizer(name: string)

  datatype Annotation =
    | ClaimBeingDeleted
    | HasAccessReferences
    | CleanupFinished
    | ManagementOverride
    | ForeignAnnotation(name: string)

  datatype Meta = Meta(
    uid: Uid, rv: nat, deleting: bool,
    finalizers: set<Finalizer>, annotations: set<Annotation>)

  datatype ClaimAccess = ClaimAccess(claimName: string, mode: AccessMode, secretName: string)

  datatype AccessSpec = AccessSpec(
    claims: seq<ClaimAccess>, className: string, protocol: Protocol, serviceAccount: string)

  datatype AccessedBucket = AccessedBucket(bucketName: string, bucketId: string, claimName: string)

  /** `failed` stands for a recorded error; its message and timestamp are not modelled. */
  datatype AccessStatus = AccessStatus(
    ready: Option<bool>, accountId: string, accessed: seq<AccessedBucket>,
    driverName: string, auth: AuthType, params: map<string, string>, failed: bool)

  datatype ClaimSpec = ClaimSpec(className: string, existingBucket: string, protocols: seq<Protocol>)

  datatype ClaimStatus = ClaimStatus(
    bound: string, ready: Option<bool>, protocols: seq<Protocol>, failed: bool)

  datatype ClaimRef = ClaimRef(ns: string, name: string, uid: Uid)

  datatype BucketSpec = BucketSpec(
    driverName: string, policy: DeletionPolicy, params: map<string, string>,
    protocols: seq<Protocol>, claimRef: ClaimRef, existingId: string)

  datatype BucketStatus = BucketStatus(
    ready: Option<bool>, id: string, protocols: seq<Protocol>,
    info: Vars, failed: bool)

  datatype AccessClassSpec = AccessClassSpec(
    driverName: string, auth: AuthType, params: map<string, string>,
    disallowedModes: seq<AccessMode>, multiBucket: bool)

  datatype BucketClassSpec = BucketClassSpec(
    driverName: string, policy: DeletionPolicy, params: map<string, string>)

  /**
   * `owner` is the UID in a Secret's controller reference when that reference names a
   * BucketAccess. `stringData` is the write-only field that the API server merges into `data`.
   */
  datatype Body =
    | Access(aspec: AccessSpec, astatus: AccessStatus)
    | Claim(cspec: ClaimSpec, cstatus: ClaimStatus)
    | Bucket(bspec: BucketSpec, bstatus: BucketStatus)
    | Secret(owner: Option<Uid>, data: Vars, stringData: Vars)
    | AccessClass(classSpec: AccessClassSpec)
    | BucketClass(bucketClassSpec: BucketClassSpec)

  datatype Object = Object(meta: Meta, body: Body)

  function KindOf(o: Object): Kind {
    match o.body
    case Access(_, _) => AccessKind
    case Claim(_, _) => ClaimKind
    case Bucket(_, _) => BucketKind
    case Secret(_, _, _) => SecretKind
    case AccessClass(_) => AccessClassKind
    case BucketClass(_) => BucketClassKind
  }

  function WithAccessStatus(o: Object, s: AccessStatus): Object
    requires o.body.Access?
  {
    o.(body := o.body.(astatus := s))
  }

  function WithClaimStatus(o: Object, s: ClaimStatus): Object
    requires o.body.Claim?
  {
    o.(body := o.body.(cstatus := s))
  }

  function WithBucketStatus(o: Object, s: BucketStatus): Object
    requires o.body.Bucket?
  {
    o.(body := o.body.(bstatus := s))
  }

  const NO_ACCESS_STATUS := AccessStatus(None, "", [], "", NoAuth, map[], false)
  const NO_CLAIM_STATUS := ClaimStatus("", None, [], false)
  const NO_BUCKET_STATUS := BucketStatus(None, "", [], map[], false)

  function ClaimRefOf(access: Ref, claimName: string): Ref { Ref(ClaimKind, access.ns, claimName) }
  function SecretRefOf(access: Ref, secretName: string): Ref { Ref(SecretKind, access.ns, secretName) }
  function BucketRef(name: string): Ref { Ref(BucketKind, "", name) }

  function WithFinalizer(o: Object): Object {
    o.(meta := o.meta.(finalizers := o.meta.finalizers + {Protection}))
  }

  function WithoutFinalizer(o: Object): Object {
    o.(meta := o.meta.(finalizers := o.meta.finalizers - {Protection}))
  }

  function Annotated(o: Object, a: Annotation): Object {
    o.(meta := o.meta.(annotations := o.meta.annotations + {a}))
  }

  function Unannotated(o: Object, a: Annotation): Object {
    o.(meta := o.meta.(annotations := o.meta.annotations - {a}))
  }

  predicate IsProtected(o: Object) { Protection in o.meta.finalizers }

  /** The status that records a reconcile error: readiness is only filled in, never lowered. */
  function OrFalse(ready: Option<bool>): Option<bool> { if ready.None? then Some(false) else ready }

  /** "bc-" + UID for dynamic provisioning, the named Bucket for static provisioning. */
  function BucketNameFor(c: Object): string
    requires c.body.Claim?
  {
    if c.body.cspec.existingBucket != "" then c.body.cspec.existingBucket else DynamicName(c.meta.uid)
  }

  function DynamicName(uid: Uid): string { "bc-" + uid }

  predicate IsDynamicName(name: string) { |name| >= 3 && name[..3] == "bc-" }

  lemma DynamicNameInjective(u: Uid, v: Uid)
    requires DynamicName(u) == DynamicName(v)
    ensures u == v
  {
    assert DynamicName(u)[3..] == u && DynamicName(v)[3..] == v;
  }

  predicate UniqueClaims(claims: seq<ClaimAccess>) {
    forall i, j :: 0 <= i < j < |claims| ==> claims[i].claimName != claims[j].claimName
  }

  predicate UniqueSecrets(claims: seq<ClaimAccess>) {
    forall i, j :: 0 <= i < j < |claims| ==> claims[i].secretName != claims[j].secretName
  }
}
