/** The messages of the COSI gRPC interface that the Sidecar exchanges with a driver. */
module Rpc {
  import opened Objects

  datatype RpcProtocol = UnknownProtocol | S3Protocol | AzureProtocol | GcsProtocol
  datatype RpcAuth = UnknownAuth | KeyAuth | ServiceAccountAuth
  datatype RpcMode = UnknownMode | ReadWriteMode | ReadOnlyMode | WriteOnlyMode

  datatype AddressingStyle = UnknownStyle | PathStyle | VirtualStyle

  datatype S3BucketInfo = S3BucketInfo(
    bucketId: string, endpoint: string, region: string, style: Option<AddressingStyle>)
  datatype AzureBucketInfo = AzureBucketInfo(storageAccount: string)
  datatype GcsBucketInfo = GcsBucketInfo(projectId: string, bucketName: string)

  datatype S3Credential = S3Credential(accessKeyId: string, accessSecretKey: string)
  datatype AzureCredential = AzureCredential(accessToken: string, expiry: string)
  datatype GcsCredential = GcsCredential(
    accessId: string, accessSecret: string, privateKeyName: string, serviceAccount: string)

  /** A nil message is None. */
  datatype BucketInfo = BucketInfo(
    s3: Option<S3BucketInfo>, azure: Option<AzureBucketInfo>, gcs: Option<GcsBucketInfo>)
  datatype CredentialInfo = CredentialInfo(
    s3: Option<S3Credential>, azure: Option<AzureCredential>, gcs: Option<GcsCredential>)

  datatype GrantBucket = GrantBucket(id: string, mode: RpcMode)

  datatype GrantRequest = GrantRequest(
    accountName: string, protocol: RpcProtocol, auth: RpcAuth, serviceAccount: string,
    params: map<string, string>, buckets: seq<GrantBucket>)

  datatype GrantedBucket = GrantedBucket(id: string, info: Option<BucketInfo>)

  datatype GrantReply = GrantReply(
    accountId: string, buckets: seq<GrantedBucket>, credentials: Option<CredentialInfo>)

  datatype RevokeRequest = RevokeRequest(
    accountId: string, protocol: RpcProtocol, auth: RpcAuth, serviceAccount: string,
    params: map<string, string>, buckets: seq<string>)

  /** DriverCreateBucket and DriverGetExistingBucket. */
  datatype BucketRequest =
    | CreateBucket(name: string, protocols: seq<RpcProtocol>, params: map<string, string>)
    | GetExistingBucket(existingId: string, protocols: seq<RpcProtocol>, params: map<string, string>)

  datatype BucketReply = BucketReply(bucketId: string, protocols: Option<BucketInfo>)

  /** The canonical gRPC codes. */
  datatype Code =
    | Canceled | Unknown | InvalidArgument | DeadlineExceeded | NotFound | AlreadyExists
    | PermissionDenied | ResourceExhausted | FailedPrecondition | Aborted | OutOfRange
    | Unimplemented | Internal | Unavailable | DataLoss | Unauthenticated

  /**
   * Calls as a log of one run sees them. `access` is the UID of the BucketAccess served. A call without
   * an accepted reply may or may not have reached the backend.
   */
  datatype Call =
    | Grant(access: Uid, grant: GrantRequest, reply: Option<GrantReply>)
    | Revoke(access: Uid, revoke: RevokeRequest, ok: bool)
}
