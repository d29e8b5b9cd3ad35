/** Per-protocol translation between RPC messages and COSI environment variables. */
module Protocols {
  import opened Objects
  import opened Rpc

  /** The names under which the variables appear in Secrets. */
  function VarName(v: Var): string {
    match v
    case S3BucketId => "COSI_S3_BUCKET_ID"
    case S3Endpoint => "COSI_S3_ENDPOINT"
    case S3Region => "COSI_S3_REGION"
    case S3Style => "COSI_S3_ADDRESSING_STYLE"
    case S3AccessKeyId => "COSI_S3_ACCESS_KEY_ID"
    case S3AccessSecretKey => "COSI_S3_ACCESS_SECRET_KEY"
    case AzureStorageAccount => "COSI_AZURE_STORAGE_ACCOUNT"
    case AzureAccessToken => "COSI_AZURE_ACCESS_TOKEN"
    case AzureExpiry => "COSI_AZURE_EXPIRY_TIMESTAMP"
    case GcsProjectId => "COSI_GCS_PROJECT_ID"
    case GcsBucketName => "COSI_GCS_BUCKET_NAME"
    case GcsAccessId => "COSI_GCS_ACCESS_ID"
    case GcsAccessSecret => "COSI_GCS_ACCESS_SECRET"
    case GcsPrivateKeyName => "COSI_GCS_PRIVATE_KEY_NAME"
    case GcsServiceAccount => "COSI_GCS_SERVICE_ACCOUNT"
    case ForeignVar(name) => name
  }

  /** No two variables share a name, so a Secret's keys can be identified with the variables. */
  lemma VarNamesDistinct(v: Var, u: Var)
    requires !v.ForeignVar? && !u.ForeignVar? && VarName(v) == VarName(u)
    ensures v == u
  {
    assert "COSI_S3_ADDRESSING_STYLE"[5] != "COSI_GCS_SERVICE_ACCOUNT"[5];
    assert "COSI_S3_ACCESS_SECRET_KEY"[5] != "COSI_GCS_PRIVATE_KEY_NAME"[5];
    assert |VarName(v)| == |VarName(u)|;
  }

  /** The bucket-info variables of a protocol. */
  function InfoKeys(p: Protocol): set<Var> {
    match p
    case S3 => {S3BucketId, S3Endpoint, S3Region, S3Style}
    case Azure => {AzureStorageAccount}
    case Gcs => {GcsProjectId, GcsBucketName}
    case OtherProtocol(_) => {}
  }

  /** The credential variables of a protocol. */
  function CredentialKeys(p: Protocol): set<Var> {
    match p
    case S3 => {S3AccessKeyId, S3AccessSecretKey}
    case Azure => {AzureAccessToken, AzureExpiry}
    case Gcs => {GcsAccessId, GcsAccessSecret, GcsPrivateKeyName, GcsServiceAccount}
    case OtherProtocol(_) => {}
  }

  /** Every variable belongs to one protocol and is either bucket info or a credential. */
  lemma KeysDisjoint(p: Protocol, q: Protocol)
    ensures InfoKeys(p) !! CredentialKeys(q)
    ensures p != q ==> InfoKeys(p) !! InfoKeys(q)
    ensures p != q ==> CredentialKeys(p) !! CredentialKeys(q)
  {
  }

  /** Reading a Go map: a missing key yields the empty string. */
  function Lookup(vars: Vars, key: Var): string {
    if key in vars then vars[key] else ""
  }

  // S3

  const PATH := "path"
  const VIRTUAL := "virtual"

  function StyleToApi(style: Option<AddressingStyle>): string {
    match style
    case Some(PathStyle) => PATH
    case Some(VirtualStyle) => VIRTUAL
    case _ => ""
  }

  function StyleToRpc(style: string): AddressingStyle {
    if style == PATH then PathStyle else if style == VIRTUAL then VirtualStyle else UnknownStyle
  }

  function S3InfoToApi(b: Option<S3BucketInfo>): Vars {
    if b.None? then map[] else map[
      S3BucketId := b.value.bucketId,
      S3Endpoint := b.value.endpoint,
      S3Region := b.value.region,
      S3Style := StyleToApi(b.value.style)]
  }

  function S3InfoToRpc(vars: Vars): Option<S3BucketInfo> {
    if vars == map[] then None else Some(S3BucketInfo(
      Lookup(vars, S3BucketId), Lookup(vars, S3Endpoint), Lookup(vars, S3Region),
      Some(StyleToRpc(Lookup(vars, S3Style)))))
  }

  predicate ValidS3Info(vars: Vars) {
    && Lookup(vars, S3BucketId) != ""
    && Lookup(vars, S3Endpoint) != ""
    && Lookup(vars, S3Region) != ""
    && Lookup(vars, S3Style) in [PATH, VIRTUAL]
  }

  function S3CredentialToApi(c: Option<S3Credential>): Vars {
    if c.None? then map[] else map[
      S3AccessKeyId := c.value.accessKeyId,
      S3AccessSecretKey := c.value.accessSecretKey]
  }

  function S3CredentialToRpc(vars: Vars): Option<S3Credential> {
    if vars == map[] then None else Some(S3Credential(
      Lookup(vars, S3AccessKeyId), Lookup(vars, S3AccessSecretKey)))
  }

  predicate ValidS3Credential(vars: Vars, auth: AuthType) {
    auth == Key ==> Lookup(vars, S3AccessKeyId) != "" && Lookup(vars, S3AccessSecretKey) != ""
  }

  // Azure

  function AzureInfoToApi(b: Option<AzureBucketInfo>): Vars {
    if b.None? then map[] else map[AzureStorageAccount := b.value.storageAccount]
  }

  function AzureInfoToRpc(vars: Vars): Option<AzureBucketInfo> {
    if vars == map[] then None else Some(AzureBucketInfo(Lookup(vars, AzureStorageAccount)))
  }

  predicate ValidAzureInfo(vars: Vars) { Lookup(vars, AzureStorageAccount) != "" }

  function AzureCredentialToApi(c: Option<AzureCredential>): Vars {
    if c.None? then map[] else map[
      AzureAccessToken := c.value.accessToken,
      AzureExpiry := c.value.expiry]
  }

  function AzureCredentialToRpc(vars: Vars): Option<AzureCredential> {
    if vars == map[] then None else Some(AzureCredential(
      Lookup(vars, AzureAccessToken), Lookup(vars, AzureExpiry)))
  }

  predicate ValidAzureCredential(vars: Vars, auth: AuthType) {
    auth == Key ==> Lookup(vars, AzureAccessToken) != ""
  }

  // GCS

  function GcsInfoToApi(b: Option<GcsBucketInfo>): Vars {
    if b.None? then map[] else map[
      GcsBucketName := b.value.bucketName,
      GcsProjectId := b.value.projectId]
  }

  function GcsInfoToRpc(vars: Vars): Option<GcsBucketInfo> {
    if vars == map[] then None else Some(GcsBucketInfo(
      Lookup(vars, GcsProjectId), Lookup(vars, GcsBucketName)))
  }

  predicate ValidGcsInfo(vars: Vars) {
    Lookup(vars, GcsBucketName) != "" && Lookup(vars, GcsProjectId) != ""
  }

  function GcsCredentialToApi(c: Option<GcsCredential>): Vars {
    if c.None? then map[] else map[
      GcsAccessId := c.value.accessId,
      GcsAccessSecret := c.value.accessSecret,
      GcsPrivateKeyName := c.value.privateKeyName,
      GcsServiceAccount := c.value.serviceAccount]
  }

  function GcsCredentialToRpc(vars: Vars): Option<GcsCredential> {
    if vars == map[] then None else Some(GcsCredential(
      Lookup(vars, GcsAccessId), Lookup(vars, GcsAccessSecret),
      Lookup(vars, GcsPrivateKeyName), Lookup(vars, GcsServiceAccount)))
  }

  predicate ValidGcsCredential(vars: Vars, auth: AuthType) {
    match auth
    case Key => Lookup(vars, GcsAccessId) != "" && Lookup(vars, GcsAccessSecret) != ""
    case ServiceAccount => Lookup(vars, GcsPrivateKeyName) != "" && Lookup(vars, GcsServiceAccount) != ""
    case _ => true
  }

  // Object protocol names

  function ProtocolToApi(p: RpcProtocol): Option<Protocol> {
    match p
    case S3Protocol => Some(S3)
    case AzureProtocol => Some(Azure)
    case GcsProtocol => Some(Gcs)
    case UnknownProtocol => None
  }

  /** The reverse search over the mapping above. */
  function ProtocolToRpc(p: Protocol): (r: Option<RpcProtocol>)
    ensures forall q :: ProtocolToApi(q) == Some(p) <==> r == Some(q)
  {
    match p
    case S3 => Some(S3Protocol)
    case Azure => Some(AzureProtocol)
    case Gcs => Some(GcsProtocol)
    case OtherProtocol(_) => None
  }

  function AuthToRpc(a: AuthType): Option<RpcAuth> {
    match a
    case Key => Some(KeyAuth)
    case ServiceAccount => Some(ServiceAccountAuth)
    case _ => None
  }

  function ModeToRpc(m: AccessMode): Option<RpcMode> {
    match m
    case ReadOnly => Some(ReadOnlyMode)
    case ReadWrite => Some(ReadWriteMode)
    case WriteOnly => Some(WriteOnlyMode)
    case OtherMode(_) => None
  }
}

/** Translation of whole driver responses, with or without validation. */
module Translator {
  import opened Objects
  import opened Rpc
  import opened Errors
  import opened Protocols

  datatype Validation = Validation(protocol: Protocol, auth: AuthType)

  /** One protocol's share of a response: whether it answered, its variables, and their validity. */
  datatype Part = Part(present: bool, vars: Vars, valid: bool)

  /** Nothing may arrive for a protocol other than the expected one. */
  function Translate(mine: Protocol, part: Part, validation: Option<Validation>): Option<Vars> {
    if validation.Some? && validation.value.protocol != mine then
      if part.present then None else Some(map[])
    else if validation.Some? && !part.present then None
    else if validation.Some? && !part.valid then None
    else Some(part.vars)
  }

  /** The expected protocol, and no other, answered with valid variables. */
  predicate Accepts(s3: Part, azure: Part, gcs: Part, v: Validation) {
    && (if v.protocol == S3 then s3.present && s3.valid else !s3.present)
    && (if v.protocol == Azure then azure.present && azure.valid else !azure.present)
    && (if v.protocol == Gcs then gcs.present && gcs.valid else !gcs.present)
  }

  function Answered(part: Part, p: Protocol): seq<Protocol> { if part.present then [p] else [] }

  /** The accumulation shared by bucket info and credentials. */
  method Accumulate(s3: Part, azure: Part, gcs: Part, validation: Option<Validation>)
    returns (protos: seq<Protocol>, vars: Vars, err: Option<Error>)
    requires (!s3.present ==> s3.vars == map[]) && (!azure.present ==> azure.vars == map[])
    requires !gcs.present ==> gcs.vars == map[]
    ensures err.None? <==> validation.None? || Accepts(s3, azure, gcs, validation.value)
    ensures err.None? ==> vars == s3.vars + azure.vars + gcs.vars
    ensures err.None? ==> protos == Answered(s3, S3) + Answered(azure, Azure) + Answered(gcs, Gcs)
  {
    protos, vars := [], map[];
    var errs: seq<Error> := [];

    if s3.present { protos := protos + [S3]; }
    var t := Translate(S3, s3, validation);
    if t.None? { errs := errs + [Plain]; } else { vars := vars + t.value; }

    if azure.present { protos := protos + [Azure]; }
    t := Translate(Azure, azure, validation);
    if t.None? { errs := errs + [Plain]; } else { vars := vars + t.value; }

    if gcs.present { protos := protos + [Gcs]; }
    t := Translate(Gcs, gcs, validation);
    if t.None? { errs := errs + [Plain]; } else { vars := vars + t.value; }

    if |errs| > 0 {
      return [], map[], Some(Wrapped(Joined(errs)));
    }
    err := None;
  }

  function InfoVars(bi: BucketInfo): Vars {
    S3InfoToApi(bi.s3) + AzureInfoToApi(bi.azure) + GcsInfoToApi(bi.gcs)
  }

  function CredentialVars(ci: CredentialInfo): Vars {
    S3CredentialToApi(ci.s3) + AzureCredentialToApi(ci.azure) + GcsCredentialToApi(ci.gcs)
  }

  predicate HasInfo(bi: BucketInfo, p: Protocol) {
    match p
    case S3 => bi.s3.Some?
    case Azure => bi.azure.Some?
    case Gcs => bi.gcs.Some?
    case OtherProtocol(_) => false
  }

  predicate HasCredential(ci: CredentialInfo, p: Protocol) {
    match p
    case S3 => ci.s3.Some?
    case Azure => ci.azure.Some?
    case Gcs => ci.gcs.Some?
    case OtherProtocol(_) => false
  }

  /** Every variable the protocol requires has a value. */
  predicate CompleteInfo(p: Protocol, vars: Vars) {
    match p
    case S3 => ValidS3Info(vars)
    case Azure => ValidAzureInfo(vars)
    case Gcs => ValidGcsInfo(vars)
    case OtherProtocol(_) => true
  }

  predicate CompleteCredential(p: Protocol, vars: Vars, auth: AuthType) {
    match p
    case S3 => ValidS3Credential(vars, auth)
    case Azure => ValidAzureCredential(vars, auth)
    case Gcs => ValidGcsCredential(vars, auth)
    case OtherProtocol(_) => true
  }

  /** Only the expected protocol answered, and completely. */
  ghost predicate ExactlyInfo(bi: BucketInfo, p: Protocol) {
    && (forall q :: HasInfo(bi, q) ==> q == p)
    && (!p.OtherProtocol? ==> HasInfo(bi, p))
    && CompleteInfo(p, InfoVars(bi))
  }

  ghost predicate ExactlyCredential(ci: CredentialInfo, v: Validation) {
    && (forall q :: HasCredential(ci, q) ==> q == v.protocol)
    && (!v.protocol.OtherProtocol? ==> HasCredential(ci, v.protocol))
    && CompleteCredential(v.protocol, CredentialVars(ci), v.auth)
  }

  lemma ExactlyInfoMeansAccepted(bi: BucketInfo, v: Validation)
    ensures ExactlyInfo(bi, v.protocol) <==> Accepts(S3InfoPart(bi), AzureInfoPart(bi), GcsInfoPart(bi), v)
  {
    assert HasInfo(bi, S3) == bi.s3.Some? && HasInfo(bi, Azure) == bi.azure.Some? && HasInfo(bi, Gcs) == bi.gcs.Some?;
    assert InfoVars(bi) == S3InfoToApi(bi.s3) + AzureInfoToApi(bi.azure) + GcsInfoToApi(bi.gcs);
    match v.protocol
    case S3 => assert bi.azure.None? && bi.gcs.None? ==> InfoVars(bi) == S3InfoToApi(bi.s3);
    case Azure => assert bi.s3.None? && bi.gcs.None? ==> InfoVars(bi) == AzureInfoToApi(bi.azure);
    case Gcs => assert bi.s3.None? && bi.azure.None? ==> InfoVars(bi) == GcsInfoToApi(bi.gcs);
    case OtherProtocol(_) =>
  }

  function S3InfoPart(bi: BucketInfo): Part { Part(bi.s3.Some?, S3InfoToApi(bi.s3), ValidS3Info(S3InfoToApi(bi.s3))) }
  function AzureInfoPart(bi: BucketInfo): Part {
    Part(bi.azure.Some?, AzureInfoToApi(bi.azure), ValidAzureInfo(AzureInfoToApi(bi.azure)))
  }
  function GcsInfoPart(bi: BucketInfo): Part { Part(bi.gcs.Some?, GcsInfoToApi(bi.gcs),
                       ValidGcsInfo(GcsInfoToApi(bi.gcs))) }

  method BucketInfoToApi(info: Option<BucketInfo>, validation: Option<Validation>)
    returns (protos: seq<Protocol>, vars: Vars, err: Option<Error>)
    ensures info.None? ==> err.Some?
    ensures info.Some? && validation.None? ==> err.None?
    ensures info.Some? && validation.Some? ==> (err.None? <==> ExactlyInfo(info.value, validation.value.protocol))
    ensures err.None? ==> vars == InfoVars(info.value)
    ensures err.None? ==> forall p :: p in protos <==> HasInfo(info.value, p)
    ensures err.None? ==> forall i, j :: 0 <= i < j < |protos| ==> protos[i] != protos[j]
  {
    if info.None? {
      return [], map[], Some(Plain);
    }
    protos, vars, err := Accumulate(
      S3InfoPart(info.value), AzureInfoPart(info.value), GcsInfoPart(info.value), validation);
    if validation.Some? {
      ExactlyInfoMeansAccepted(info.value, validation.value);
    }
  }

  function S3CredentialPart(ci: CredentialInfo, auth: AuthType): Part {
    Part(ci.s3.Some?, S3CredentialToApi(ci.s3), ValidS3Credential(S3CredentialToApi(ci.s3), auth))
  }
  function AzureCredentialPart(ci: CredentialInfo, auth: AuthType): Part {
    Part(ci.azure.Some?, AzureCredentialToApi(ci.azure), ValidAzureCredential(AzureCredentialToApi(ci.azure), auth))
  }
  function GcsCredentialPart(ci: CredentialInfo, auth: AuthType): Part {
    Part(ci.gcs.Some?, GcsCredentialToApi(ci.gcs), ValidGcsCredential(GcsCredentialToApi(ci.gcs), auth))
  }

  lemma ExactlyCredentialMeansAccepted(ci: CredentialInfo, v: Validation)
    ensures ExactlyCredential(ci, v) <==>
            Accepts(S3CredentialPart(ci, v.auth), AzureCredentialPart(ci, v.auth), GcsCredentialPart(ci, v.auth), v)
  {
    assert HasCredential(ci, S3) == ci.s3.Some? && HasCredential(ci, Azure) == ci.azure.Some?;
    assert HasCredential(ci, Gcs) == ci.gcs.Some?;
    assert CredentialVars(ci) == S3CredentialToApi(ci.s3) + AzureCredentialToApi(ci.azure) + GcsCredentialToApi(ci.gcs);
    match v.protocol
    case S3 => assert ci.azure.None? && ci.gcs.None? ==> CredentialVars(ci) == S3CredentialToApi(ci.s3);
    case Azure => assert ci.s3.None? && ci.gcs.None? ==> CredentialVars(ci) == AzureCredentialToApi(ci.azure);
    case Gcs => assert ci.s3.None? && ci.azure.None? ==> CredentialVars(ci) == GcsCredentialToApi(ci.gcs);
    case OtherProtocol(_) =>
  }

  method CredentialsToApi(info: Option<CredentialInfo>, v: Validation)
    returns (vars: Vars, err: Option<Error>)
    ensures err.None? <==> info.Some? && ExactlyCredential(info.value, v)
    ensures err.None? ==> vars == CredentialVars(info.value)
  {
    if info.None? {
      return map[], Some(Plain);
    }
    var _, merged, failure := Accumulate(
      S3CredentialPart(info.value, v.auth), AzureCredentialPart(info.value, v.auth),
      GcsCredentialPart(info.value, v.auth), Some(v));
    vars, err := merged, failure;
    ExactlyCredentialMeansAccepted(info.value, v);
  }

  /** The entries of `vars` whose keys belong to `keys`. */
  function Restrict(vars: Vars, keys: set<Var>): Vars { map k | k in vars && k in keys :: vars[k] }

  /** An unset or unknown addressing style comes back as an explicit unknown style. */
  function Normalised(b: Option<S3BucketInfo>): Option<S3BucketInfo> {
    if b.None? then None
    else if b.value.style.None? then Some(b.value.(style := Some(UnknownStyle)))
    else b
  }

  /** Merging the protocols' variables loses nothing: each message can be read back from its own keys. */
  lemma InfoRoundTrip(bi: BucketInfo)
    ensures S3InfoToRpc(Restrict(InfoVars(bi), InfoKeys(S3))) == Normalised(bi.s3)
    ensures AzureInfoToRpc(Restrict(InfoVars(bi), InfoKeys(Azure))) == bi.azure
    ensures GcsInfoToRpc(Restrict(InfoVars(bi), InfoKeys(Gcs))) == bi.gcs
  {
    KeysDisjoint(S3, Azure);
    KeysDisjoint(S3, Gcs);
    KeysDisjoint(Azure, Gcs);
    RestrictPart(S3InfoToApi(bi.s3), AzureInfoToApi(bi.azure), GcsInfoToApi(bi.gcs),
                 InfoKeys(S3), InfoKeys(Azure), InfoKeys(Gcs));
    S3InfoRoundTrip(bi.s3);
    assert bi.azure.Some? ==> AzureStorageAccount in AzureInfoToApi(bi.azure);
    assert bi.gcs.Some? ==> GcsProjectId in GcsInfoToApi(bi.gcs);
  }

  lemma S3InfoRoundTrip(b: Option<S3BucketInfo>)
    ensures S3InfoToRpc(S3InfoToApi(b)) == Normalised(b)
  {
    if b.Some? {
      var vars := S3InfoToApi(b);
      assert S3Endpoint in vars;
      assert PATH[0] != VIRTUAL[0];
    }
  }

  lemma CredentialRoundTrip(ci: CredentialInfo)
    ensures S3CredentialToRpc(Restrict(CredentialVars(ci), CredentialKeys(S3))) == ci.s3
    ensures AzureCredentialToRpc(Restrict(CredentialVars(ci), CredentialKeys(Azure))) == ci.azure
    ensures GcsCredentialToRpc(Restrict(CredentialVars(ci), CredentialKeys(Gcs))) == ci.gcs
  {
    var s3, azure, gcs := S3CredentialToApi(ci.s3), AzureCredentialToApi(ci.azure), GcsCredentialToApi(ci.gcs);
    KeysDisjoint(S3, Azure);
    KeysDisjoint(S3, Gcs);
    KeysDisjoint(Azure, Gcs);
    RestrictPart(s3, azure, gcs, CredentialKeys(S3), CredentialKeys(Azure), CredentialKeys(Gcs));
    assert ci.s3.Some? ==> S3AccessKeyId in s3;
    assert ci.azure.Some? ==> AzureAccessToken in azure;
    assert ci.gcs.Some? ==> GcsAccessId in gcs;
  }

  lemma RestrictPart(a: Vars, b: Vars, c: Vars, ka: set<Var>, kb: set<Var>, kc: set<Var>)
    requires a.Keys <= ka && b.Keys <= kb && c.Keys <= kc
    requires ka !! kb && ka !! kc && kb !! kc
    ensures Restrict(a + b + c, ka) == a && Restrict(a + b + c, kb) == b && Restrict(a + b + c, kc) == c
  {
  }

  /** The variables a Secret of the given protocol holds once it is filled. */
  function SecretKeys(p: Protocol): set<Var> { InfoKeys(p) + CredentialKeys(p) }

  /** A validated response sets exactly the variables of the requested protocol. */
  lemma ValidatedKeys(bi: BucketInfo, ci: CredentialInfo, v: Validation)
    requires !v.protocol.OtherProtocol?
    requires ExactlyInfo(bi, v.protocol) && ExactlyCredential(ci, v)
    ensures InfoVars(bi).Keys == InfoKeys(v.protocol)
    ensures CredentialVars(ci).Keys == CredentialKeys(v.protocol)
  {
    assert HasInfo(bi, S3) == bi.s3.Some? && HasInfo(bi, Azure) == bi.azure.Some? && HasInfo(bi, Gcs) == bi.gcs.Some?;
    assert HasCredential(ci, S3) == ci.s3.Some? && HasCredential(ci, Azure) == ci.azure.Some?;
    assert HasCredential(ci, Gcs) == ci.gcs.Some?;
  }
}
