# A verified model of the COSI access and binding protocol

COSI (the Container Object Storage Interface for Kubernetes) is run by a Controller and by one Sidecar
per driver. They share nothing but the objects in the Kubernetes API server, and take turns in managing
each `BucketAccess`. This project models both components, the API server between them, and the driver
behind the Sidecar, and proves what holds over whole runs, whatever the interleaving of reconciles,
conflicts, lost answers, crashes and user actions.

## How the model is built

* `Objects`, `Rpc`, `Errors`: the API objects, the messages of the driver interface, and error trees.
* `Runs`: the API server. A `Run` is a history of events, each of which is one write that took effect or
  one driver call. `Conforms` holds the server's own rules: the transition rules of the resource schemas,
  UIDs, finalizers and deletion.
* `Rules`: for each actor the events that it may cause (`Permitted`), and runs in which every event was
  permitted when it happened (`IsRun`). The rules of users are the environment assumptions.
* `Clusters`: the server as a reconciler sees it. Get, List, Create, Update, Status().Update, Delete and
  the RPCs may be refused, may conflict, and may take effect without the client seeing the answer. Other
  actors act before every request. A write may only be requested where its effect is permitted. `Calm`
  describes the opposite case, in which nobody else acts and every request is served. The grant and the
  provisioning methods say when they then succeed, from any reachable state.
* `Sidecar*`, `GrantPipeline`, `Controller*`, `Claim*`: the reconcilers as methods on a `Cluster`. Each is
  proved to cause permitted events only, so the theorems about runs are about this code. A reconcile may
  stop after any request, and that is again a run.
* `Invariants`, `Bindings`, `Marks`, `Releases`, `Readiness`, `Sources`, `Creations`, `Theorems`: what every
  run keeps.
* `Convergence`: reconciles that stopped anywhere and are run again end where an uninterrupted one ends.
* `Rely`, `ControllerRely`, `ClaimRely`: what a reconcile may count on between its requests.
* `Handoff`, `Protocols` (with `Translator`), `Drivers`: ownership and event filters, the translators,
  and what a driver must report to be accepted.
* `Witness`: concrete runs. One goes through a whole lifecycle, so none of the above holds vacuously. The
  others reach the states in which an expected property fails.

The rows that end the table under "By the rules" read back in one step what `Rules` and the event filters allow.
Their weight lies in the reconcilers, each of which is proved to stay inside those rules.

A Go object that a reconcile mutates through a pointer is a value that the methods pass on and return.
What only a specification talks about (the reply that a grant got, the run at the moment of a request) is a
ghost result. A successful grant reconcile returns the one reply that its account and all its Secrets come from.

### Environment assumptions

* Nobody but COSI writes COSI's annotations, the protection finalizer, statuses, or Secrets that a
  BucketAccess controls. The management override annotation is not used.
* A Bucket name is not used again by hand, names that start with `bc-` are left to the Controller, and no
  Bucket is created for the UID of a claim that is already being deleted. Claim references are complete
  in namespace and name when a Bucket is created.
* Reads return the current object. Reconciles of one object by one component do not overlap, and the
  Controller reconciles one BucketAccess at a time.
* Accesses have at least one claim, and classes name a driver and one of the two authentication types.

### Where the code and its documentation or the expected property differ

* Deleting a Secret carries no UID precondition. A Secret that was read as the access's own and released can
  be removed and recreated by a user, and the delete request then meets the user's Secret
  (`SidecarRevoke.ReplacementIsDeleted`). The Secret met is the access's own if and only if its UID is the one
  that was read (`SidecarRevoke.DeleteOneSecret`). Deleting a Bucket has no precondition either, but cannot go
  wrong in this way (`ClaimReconciler.DeleteBucket`).
* Claims whose Buckets share an ID collapse into one entry. The access becomes ready, but only the last of
  those claims gets its data (`Witness.SharedIdRun`). All claims get their data if and only if the IDs are
  pairwise distinct (`Readiness.AllFilledIffDistinctIds`).
* One reconcile fills all Secrets from one reply, but a ready access is granted again whenever it is reconciled.
  If the driver then answers with other credentials and the reconcile stops half-way, a ready access has mixed
  credentials (`Witness.MixedIsNotShared`). Two served claims share their credentials if and only if the
  replies that were the latest when their Secrets were last filled carry the same ones
  (`Sources.SharedIffSourcesAgree`).
* An account that was granted but never reached the status is not revoked (`Witness.UnrecordedRun`); exactly
  the recorded ones are (`Theorems.RevokedIffRecorded`). An account ID, once recorded, cannot be changed, so a
  rerun whose grant answers with another account ID cannot finish.
* A static Bucket on which a user wrote the UID of a claim in advance can outlive that claim until the claim has
  recorded it. With this exception a claim is protected from the moment its Bucket is bound, also before it
  records the Bucket's name (`Bindings.GuardedHolds`, `Releases.BoundClaimIsReleased`).
* No filter admits the update that sets the deletion timestamp of a BucketAccess, unless a stale cleanup
  annotation makes it a handoff (`Handoff.DeletionUpdateAdmittedIffHandoff`).
* `stringData` is merged into existing data by the server. It replaces the data of an access Secret only
  because such a Secret never holds other keys (`SidecarFill.MergeReplaces`).
* A reconcile error is recorded together with whatever the reconcile had changed in its copy of the
  status, so a handoff or readiness can also be written by the error path. The rules allow for it.
* BucketClaim deletion does not look at the has-references mark, although a comment in
  `controller/pkg/reconciler/bucketaccess.go` says it should. Nothing is claimed about it.
* A static claim's requested protocols are never compared with its Bucket, so only dynamic claims are
  shown to cover what they asked for.

## Model

| member | source | states |
|---|---|---|
| `Theorems.RecordedAccountIsRevoked` | sidecar/pkg/reconciler/bucketaccess.go:246-281 | Over every run: an access whose account ID was ever recorded is gone only after a successful revoke of that account and after deletion of every Secret of its spec that it controlled |
| `Theorems.RevokedIffRecorded` | sidecar/pkg/reconciler/bucketaccess.go:261-268 | Of an access that is gone, an account was successfully revoked if and only if it had been recorded in the status |
| `Theorems.RevokeMatchesGrants` | sidecar/pkg/reconciler/bucketaccess.go:354-506 | Every revoke names the bucket IDs, protocol, authentication type, service account and parameters of every grant for the same access, at any distance in the run |
| `Theorems.OneAccountName` | sidecar/pkg/reconciler/bucketaccess.go:390 | Every grant for an access, in any reconcile, carries the account name derived from its UID |
| `Theorems.InitialisedForGood` | internal/bucketaccess/bucketaccess.go:83-107 | Once set, driver, accessed Buckets, authentication type and parameters never change while the object lives, and the degraded outcome is never reached |
| `Theorems.PhaseDecidesManager` | internal/bucketaccess/bucketaccess.go:44-70 | In every reachable state the Sidecar manages an access exactly between initialisation and the cleanup annotation |
| `Theorems.PhasesAdvance` | internal/bucketaccess/bucketaccess.go:44-70 | Over any run the managers of one access are Controller, then Sidecar, then Controller |
| `Theorems.ReadyForGood` | sidecar/pkg/reconciler/bucket.go:73-91 | Readiness of an access, claim or Bucket that is not being deleted is never taken back by any sequence of failing or succeeding reconciles |
| `Theorems.SameClaimOutcome` | controller/pkg/reconciler/bucketclaim.go:125-240 | Two runs in which the same claim became ready, with the class and the Bucket reports alike, end in the same claim status and the same dynamic Bucket (driver, parameters, protocols, claim reference, and policy unless a user edited it), however often reconciles stopped and reran |
| `Theorems.ReportedHolds` | controller/pkg/reconciler/bucketclaim.go:225-237 | In every reachable state the protocols of a ready claim are ones that its Bucket reported |
| `Invariants.AccessHolds` | controller/pkg/reconciler/bucketaccess.go:127-256 | In every reachable state the fields for the Sidecar are all set or all unset, the accessed Buckets follow the claims, a handed-off access is protected, and a recorded account was granted |
| `Invariants.ConfigurationFixed` | client/apis/objectstorage/v1alpha2/bucketaccess_types.go:68-156 | No event of any actor changes the configuration of an initialised access |
| `Invariants.CallsHold` | sidecar/pkg/reconciler/bucketaccess.go:381-506 | Every logged driver call says what the access it served still says |
| `Invariants.TargetsHold` | sidecar/pkg/reconciler/bucketaccess.go:475-506 | All grants and revokes logged for one access agree, also after the access is gone |
| `Invariants.SecretsHold` | sidecar/pkg/reconciler/bucketaccess.go:584-623 | A Secret controlled by an access is named in its spec and is empty or holds exactly what a grant returned for that claim's own bucket and protocol |
| `Invariants.CleanupHolds` | sidecar/pkg/reconciler/bucketaccess.go:246-281 | While the cleanup annotation is there, the recorded account is revoked and the controlled Secrets are gone |
| `Readiness.ReadyHolds` | sidecar/pkg/reconciler/bucketaccess.go:135-244 | In every reachable state a ready, non-deleting access has distinct Secret names, controls and protects every Secret, and each holds what was granted |
| `Readiness.FilledIffLast` | sidecar/pkg/reconciler/bucketaccess.go:443 | The Secret of a claim of a ready access holds data if and only if no later claim has the same bucket ID, and then exactly the credentials of some grant for the access plus that bucket's own info from the same grant |
| `Readiness.AllFilledIffDistinctIds` | sidecar/pkg/reconciler/bucketaccess.go:412-451 | All claims of a ready access got their data if and only if the bucket IDs are pairwise distinct |
| `Readiness.SameOutcome` | sidecar/pkg/reconciler/bucketaccess.go:135-244 | Two runs in which the same configured access is ready against a driver that answers alike are in the same status with the same Secrets, however often reconciles stopped and reran |
| `Convergence.RerunAccess` | sidecar/pkg/reconciler/bucketaccess.go:135-244 | From every reachable state of a served, live access that can be completed (Secrets reserved or not, grant made or not, status written or not), one undisturbed rerun ends in the same status and Secrets as any other run in which that access became ready |
| `Convergence.ReadyIsFixedPoint` | sidecar/pkg/reconciler/bucketaccess.go:135-244 | Once an access is ready, no later event of any reconcile, failed or not, changes its status or its Secrets, as long as it lives and the driver answers alike |
| `Convergence.RerunClaim` | controller/pkg/reconciler/bucketclaim.go:125-240 | From every reachable state of a live claim whose Bucket can be found, bound or created, one undisturbed rerun records the Bucket, makes the claim ready if the Bucket is provisioned, and then ends in the claim status and Bucket of any other run in which the claim became ready |
| `Sources.SourcesHold` | sidecar/pkg/reconciler/bucketaccess.go:584-623 | In every reachable state the data of a controlled Secret comes from the reply that was the latest when the data was stored |
| `Sources.SharedIffSourcesAgree` | sidecar/pkg/reconciler/bucketaccess.go:185-233 | Two served claims of a ready access hold the same credentials if and only if the replies that were the latest when their Secrets were last filled carry the same credentials |
| `Bindings.BucketsHold` | sidecar/pkg/reconciler/bucket.go:198-222 | A Bucket has an ID exactly when it is ready, and then has protocols that cover its spec |
| `Bindings.BoundStays` | controller/pkg/reconciler/bucketclaim.go:496-528 | A binding, once made, is never changed, also under racing stale reads and recreation by the Controller |
| `Bindings.BindingUnique` | controller/pkg/reconciler/bucketclaim.go:460-528 | A Bucket name is bound to at most one claim UID in the whole run |
| `Bindings.ClaimsHold` | controller/pkg/reconciler/bucketclaim.go:189-240 | A bound claim names its determined Bucket, which was bound to it; a ready claim has protocols, all it asked for when dynamic |
| `Bindings.GuardedHolds` | controller/pkg/reconciler/bucketclaim.go:242-337 | In every reachable state a claim to which a Bucket is bound, recorded or not, is protected or the Bucket's policy was other than Delete at some time; the one exception is a UID that a user preset on a static Bucket that the claim has not recorded |
| `Bindings.MadeHolds` | controller/pkg/reconciler/bucketclaim.go:383-458 | In every reachable state a dynamic Bucket has the driver, parameters and protocols, and unless a user edited it the policy, of its claim and of a content that the claim's class once had |
| `Marks.BackedHolds` | controller/pkg/reconciler/bucketaccess.go:541-662 | Every initialised access was allowed by its class, has the class's configuration, and each claim was ready, live and offering the requested protocol through the recorded Bucket and ID, although the blocker check skips empty protocol lists |
| `Marks.MarksHold` | controller/pkg/reconciler/bucketaccess.go:174-188 | Every non-deleting initialised access keeps the has-references mark on every claim object it was initialised against |
| `Releases.AnnotatedForGood` | controller/pkg/reconciler/bucketclaim.go:339-351 | After a claim's deletion was announced on a Bucket, whatever is stored under that name carries the announcement |
| `Releases.BoundClaimIsReleased` | controller/pkg/reconciler/bucketclaim.go:242-337 | A claim disappears only if no Bucket under its determined name is bound to it, or the Bucket's policy was other than Delete at some time; this covers the time between creating or binding the Bucket and recording its name |
| `Releases.OneClaimPerBucket` | controller/pkg/reconciler/bucketclaim.go:354-381 | Claims with the same bound Bucket name, at any two moments of a run, are the same claim |
| `Creations.CreatedOnce` | controller/pkg/reconciler/bucketclaim.go:383-431 | Unless a user deletes it, a Bucket of a given name is created at most once in a run |
| `Creations.NoneOnceBound` | controller/pkg/reconciler/bucketclaim.go:165-172 | Once a claim is bound, its dynamic Bucket is never created again, whatever happens to either |
| `Witness.WholeLifecycle` | sidecar/pkg/reconciler/bucketaccess.go:135-281 | A concrete run reaches a ready access with filled Secrets, and then its revoke and disappearance |
| `Witness.SharedIdRun` | sidecar/pkg/reconciler/bucketaccess.go:412-451 | A concrete run in which two claims with the same bucket ID reach a ready access whose first Secret is empty |
| `Witness.UnrecordedRun` | sidecar/pkg/reconciler/bucketaccess.go:261-268 | A concrete run in which an account was granted but not recorded, the access is gone, and the account was never revoked |
| `Witness.MixedIsNotShared` | sidecar/pkg/reconciler/bucketaccess.go:185-233 | A concrete run in which a ready access, granted again by a reconcile that stops after one Secret, holds credentials of two grants |
| `Handoff.SidecarRequirements` | internal/bucketaccess/bucketaccess.go:83-107 | Present, absent or degraded exactly as all, none or some of the three fields are set |
| `Handoff.DeletionUpdateAdmittedIffHandoff` | sidecar/pkg/reconciler/bucketaccess.go:118-131 | The update that sets the deletion timestamp is admitted by some filter if and only if a stale cleanup annotation makes it a handoff |
| `Errors.TagIsFound` | internal/errors/errors.go:23-43 | A tagged node anywhere in an error tree makes the error terminal |
| `Errors.FoundTagExists` | internal/errors/errors.go:36-43 | An error is terminal only if its tree has a tagged node |
| `Clusters.Cluster.constructor` | sidecar/pkg/reconciler/bucketaccess.go:62-110 | A cluster starts as an empty run |
| `Clusters.Cluster.Yield` | sidecar/pkg/reconciler/bucketaccess.go:135-244 | Between two requests other actors take any permitted steps |
| `Clusters.Cluster.Get` | sidecar/pkg/reconciler/bucketaccess.go:65-74 | A read returns the stored object, its absence, or an error |
| `Clusters.Cluster.ListAccesses` | controller/pkg/reconciler/bucketaccess.go:267-271 | A list returns exactly the accesses of the namespace |
| `Clusters.Cluster.Update` | sidecar/pkg/reconciler/bucketaccess.go:164-170 | An update takes effect only on the version it was made from, keeps the status, and may take effect without a seen answer |
| `Clusters.Cluster.StatusUpdate` | sidecar/pkg/reconciler/bucketaccess.go:235-241 | A status update changes the status only |
| `Clusters.Cluster.Create` | sidecar/pkg/reconciler/bucketaccess.go:773-776 | A create takes effect only on a free name and gets a fresh UID |
| `Clusters.Cluster.Delete` | sidecar/pkg/reconciler/bucketaccess.go:849-852 | A delete applies to whatever is stored, and removes it only without finalizers |
| `Clusters.Cluster.Grant` | sidecar/pkg/reconciler/bucketaccess.go:191-213 | A grant call is logged with its reply, or without one when it failed on the way |
| `Clusters.Cluster.Revoke` | sidecar/pkg/reconciler/bucketaccess.go:296-318 | A revoke call is logged with its success |
| `SidecarAccess.Reconcile` | sidecar/pkg/reconciler/bucketaccess.go:62-110 | Causes permitted events only; success for a served access means it is ready with the account and every served Secret from one reply, or cleaned up and handed back; otherwise nothing was done; a live access that can be completed becomes ready if undisturbed |
| `SidecarAccess.RecordFailure` | sidecar/pkg/reconciler/bucketaccess.go:82-103 | Terminal exactly if the error is tagged and its record was stored, otherwise retried; the stored status is as the reconcile left it, marked as failed, with readiness filled in but not lowered |
| `SidecarAccess.ReconcileGrant` | sidecar/pkg/reconciler/bucketaccess.go:135-244 | Success means ready, with the account and every served Secret from one logged reply; an undisturbed attempt succeeds from every state that can be completed; if a Bucket was ever announced as going, it fails and the driver is not asked; the uninitialised, degraded and unprotected branches are unreachable |
| `SidecarAccess.AnnounceReady` | sidecar/pkg/reconciler/bucketaccess.go:235-243 | The account and readiness are stored on the version that was read, with all Secrets filled from the reply that carries this account |
| `SidecarReserve.ValidateAccessedBuckets` | sidecar/pkg/reconciler/bucketaccess.go:627-692 | Passes only if every Bucket was seen ready under the recorded ID, and never once one was announced as going; passes if undisturbed and all are stored so |
| `SidecarReserve.ReserveAccessSecrets` | sidecar/pkg/reconciler/bucketaccess.go:696-751 | Success means distinct names, each a protected Secret that the access controls; an undisturbed attempt succeeds if the names are distinct and each Secret is absent or the access's own; the count mismatch is unreachable |
| `SidecarReserve.CreateSecret` | sidecar/pkg/reconciler/bucketaccess.go:754-779 | The created Secret is controlled and protected, and the other reserved Secrets are kept |
| `SidecarReserve.ProtectSecret` | sidecar/pkg/reconciler/bucketaccess.go:783-801 | A Secret of somebody else is refused and left alone; an own one ends up protected |
| `SidecarGrant.ObtainGrant` | sidecar/pkg/reconciler/bucketaccess.go:185-228 | Success means one logged, accepted reply that gives the account and the data of every served claim, complete and of the requested protocol only; an undisturbed attempt succeeds if the driver answers with such a reply |
| `SidecarGrant.RequestGrant` | sidecar/pkg/reconciler/bucketaccess.go:191-200 | The call made is the one that the access determines |
| `SidecarGrant.GrantError` | sidecar/pkg/reconciler/bucketaccess.go:201-213 | Terminal exactly for the codes that are not retryable and for missing multi-bucket support |
| `SidecarFill.FillSecrets` | sidecar/pkg/reconciler/bucketaccess.go:584-623 | Success means that every served claim's Secret holds its own data from the one reply of this reconcile, in whatever order the buckets are visited; unknown IDs and missing Secrets are unreachable |
| `SidecarFill.MergeReplaces` | sidecar/pkg/reconciler/bucketaccess.go:608-613 | Merging the granted variables into an access Secret leaves exactly the granted variables |
| `SidecarRevoke.ReconcileDelete` | sidecar/pkg/reconciler/bucketaccess.go:246-281 | Success means the access is handed back, not ready, with the recorded account revoked and its Secrets gone |
| `SidecarRevoke.StartDeletion` | sidecar/pkg/reconciler/bucketaccess.go:249-254 | The deleting access is stored as not ready, with account and spec unchanged |
| `SidecarRevoke.DeleteOwnedAccessSecrets` | sidecar/pkg/reconciler/bucketaccess.go:812-859 | Success means that every Secret of the spec that the access controls is gone or deleting |
| `SidecarRevoke.DeleteOneSecret` | sidecar/pkg/reconciler/bucketaccess.go:821-852 | Success means that the access's Secret of this name is gone or deleting; whatever happened since the read, the own release included, the delete request meets a Secret of the access if and only if that Secret's UID is the one that was read |
| `SidecarRevoke.NewRevokeRequest` | sidecar/pkg/reconciler/bucketaccess.go:475-506 | Builds the revoke that the access determines, exactly when the shared configuration is known, an account is recorded and no ID is empty |
| `SidecarRevoke.InitialisedHasIds` | sidecar/pkg/reconciler/bucketaccess.go:487-493 | The empty bucket ID is unreachable on initialised accesses |
| `SidecarRevoke.DriverRevokeAccess` | sidecar/pkg/reconciler/bucketaccess.go:284-319 | Success means a logged successful revoke of the recorded account, and the driver is always asked if protocol and authentication type are known |
| `SidecarRevoke.AnnounceCleanup` | sidecar/pkg/reconciler/bucketaccess.go:270-278 | The annotation is stored only on a revoked and cleaned-up access |
| `SidecarRevoke.ReplacementIsDeleted` | sidecar/pkg/reconciler/bucketaccess.go:843-852 | For every Secret that was read as the access's own and released, a user can remove and recreate it so that the delete request meets the user's Secret |
| `GrantPipeline.GenerateConfigs` | sidecar/pkg/reconciler/bucketaccess.go:412-451 | One entry per bucket ID, from the last claim with it; fails exactly on an unmapped claim or an unknown access mode |
| `GrantPipeline.InitialisedMapped` | sidecar/pkg/reconciler/bucketaccess.go:426-430 | On initialised accesses no claim is unmapped |
| `GrantPipeline.InitialisedConfigs` | sidecar/pkg/reconciler/bucketaccess.go:418-444 | On initialised accesses the entries are those of the last claims with each recorded ID |
| `GrantPipeline.GrantBucketsList` | sidecar/pkg/reconciler/bucketaccess.go:454-472 | Lists every configured bucket once, with its mode, in no particular order |
| `GrantPipeline.NewGrantRequest` | sidecar/pkg/reconciler/bucketaccess.go:381-406 | Builds the grant that the access determines |
| `GrantPipeline.TranslateResponse` | sidecar/pkg/reconciler/bucketaccess.go:516-558 | Accepts exactly replies with an account, complete credentials and complete info of the requested protocol only, and keeps each bucket's last info |
| `GrantPipeline.ValidateGranted` | sidecar/pkg/reconciler/bucketaccess.go:562-581 | Accepts exactly if the granted buckets are the requested ones |
| `GrantPipeline.SecretDataFilled` | sidecar/pkg/reconciler/bucketaccess.go:608-611 | Data made from an accepted reply is complete and has exactly the keys of the requested protocol |
| `ControllerAccess.Reconcile` | controller/pkg/reconciler/bucketaccess.go:55-103 | Causes permitted events only; success for a managed access means it is handed off or no longer protected; otherwise nothing was done |
| `ControllerAccess.RecordFailure` | controller/pkg/reconciler/bucketaccess.go:75-96 | Terminal exactly if the error is tagged and its record was stored, otherwise retried; the stored status is as the reconcile left it, marked as failed, with readiness filled in but not lowered |
| `ControllerAccess.Initialise` | controller/pkg/reconciler/bucketaccess.go:127-256 | Success hands the access off with all required fields, readiness filled in and no error; the degraded, initialised and hard-stop branches are unreachable |
| `ControllerAccess.FinishInitialisation` | controller/pkg/reconciler/bucketaccess.go:190-255 | The status written follows class, claims and Buckets as read, with the marks in place |
| `ControllerAccess.GatherClaims` | controller/pkg/reconciler/bucketaccess.go:162-179 | Success means unique references and every existing claim marked |
| `ControllerAccess.GetBuckets` | controller/pkg/reconciler/bucketaccess.go:488-537 | One entry per claim, with the bound Bucket exactly for bound claims; the count mismatch is unreachable |
| `ControllerAccess.GatherBuckets` | controller/pkg/reconciler/bucketaccess.go:190-239 | Success means class, claims and Buckets pass all checks; compiling the list then cannot fail |
| `ControllerAccess.ReconcileDelete` | controller/pkg/reconciler/bucketaccess.go:258-294 | On success each referenced claim object that was there before is marked exactly if it was marked before and another access of the namespace referenced it at the listing |
| `ControllerEvidence.EntryEvidence` | controller/pkg/reconciler/bucketaccess.go:541-621 | A marked claim that passed the checks offered the protocol, also when the blocker check saw no protocol list |
| `ControllerEvidence.GatheredInitialises` | controller/pkg/reconciler/bucketaccess.go:235-251 | What was gathered justifies the initialising status |
| `ControllerMarks.GetAllBucketClaims` | controller/pkg/reconciler/bucketaccess.go:324-354 | An entry for exactly the named claims, as read |
| `ControllerMarks.MarkAll` | controller/pkg/reconciler/bucketaccess.go:357-389 | Success means that every claim object read is marked if it still exists, and no other mark changed |
| `ControllerMarks.UnmarkUnaccessed` | controller/pkg/reconciler/bucketaccess.go:394-431 | Success means every claim's mark is settled by the list of accesses; in any case no live initialised access has lost a mark |
| `ControllerChecks.ValidateUnique` | controller/pkg/reconciler/bucketaccess.go:299-318 | Fails exactly on a repeated claim, with exact counts |
| `ControllerChecks.HasReferences` | controller/pkg/reconciler/bucketaccess.go:435-451 | True exactly if another access of the list names the claim |
| `ControllerChecks.ValidateAgainstClass` | controller/pkg/reconciler/bucketaccess.go:454-482 | Accepts exactly what the class allows |
| `ControllerChecks.CannotAccess` | controller/pkg/reconciler/bucketaccess.go:541-565 | No blockers exactly if no existing claim is deleting or lists protocols without the requested one |
| `ControllerChecks.WaitingOn` | controller/pkg/reconciler/bucketaccess.go:569-621 | Nothing waited for exactly if every claim is bound and ready with an ID; the two internal errors do not occur on fetched Buckets |
| `ControllerChecks.CompileAccessed` | controller/pkg/reconciler/bucketaccess.go:624-662 | The list follows the order of the claims; fails exactly on a missing Bucket or ID |
| `ControllerChecks.NothingMissing` | controller/pkg/reconciler/bucketaccess.go:638-659 | Once nothing is waited for, no Bucket and no ID is missing |
| `ClaimReconciler.Reconcile` | controller/pkg/reconciler/bucketclaim.go:56-104 | Causes permitted events only; success means the claim is ready through its own Bucket, or no longer protected; an undisturbed reconcile records the Bucket of a live claim that can get one, and succeeds if that Bucket is provisioned |
| `ClaimReconciler.RecordFailure` | controller/pkg/reconciler/bucketclaim.go:71-88 | Terminal exactly if the error is tagged and its record was stored, otherwise retried; the stored status is as the reconcile left it, marked as failed, with readiness filled in but not lowered |
| `ClaimReconciler.Provision` | controller/pkg/reconciler/bucketclaim.go:125-240 | Success means ready, bound to the determined Bucket, with protocols that the Bucket reported; an undisturbed attempt records the Bucket, and succeeds if the Bucket is provisioned |
| `ClaimReconciler.BindClaim` | controller/pkg/reconciler/bucketclaim.go:206-216 | The recorded name is that of a Bucket bound to the claim |
| `ClaimReconciler.FinishProvisioning` | controller/pkg/reconciler/bucketclaim.go:218-239 | Readiness follows the Bucket; a ready Bucket without protocols is unreachable |
| `ClaimReconciler.ReconcileDelete` | controller/pkg/reconciler/bucketclaim.go:242-326 | Success means that the claim is no longer protected, with evidence that it may go |
| `ClaimReconciler.EndBucket` | controller/pkg/reconciler/bucketclaim.go:294-325 | Succeeds only for retained Buckets, after the announcement; asks to wait only when the Bucket to delete is gone or deleting |
| `ClaimReconciler.Announce` | controller/pkg/reconciler/bucketclaim.go:339-351 | Success means that whatever is stored under the name is the claim's own, announced Bucket |
| `ClaimReconciler.DeleteBucket` | controller/pkg/reconciler/bucketclaim.go:307-314 | The delete request, though without precondition, meets only the claim's announced Bucket |
| `ClaimReconciler.RemoveClaimFinalizer` | controller/pkg/reconciler/bucketclaim.go:328-337 | The finalizer goes only while the Bucket is absent, another's or retained |
| `ClaimReconciler.NameIsDetermined` | controller/pkg/reconciler/bucketclaim.go:371-378 | The recorded name never diverges from the determined one |
| `ControllerClaim.DetermineBucketName` | controller/pkg/reconciler/bucketclaim.go:354-381 | The name in the spec or else the UID-derived one, never empty; fails exactly when a recorded name disagrees |
| `ControllerClaim.BindingOf` | controller/pkg/reconciler/bucketclaim.go:460-494 | Bound exactly if the reference is the claim in full, unbound exactly if only the UID is missing |
| `ControllerClaim.AcquireBucket` | controller/pkg/reconciler/bucketclaim.go:154-204 | Success yields the claim's own Bucket, found, bound or created; a claim that recorded its Bucket writes nothing at all; an undisturbed attempt succeeds when the Bucket is there for the claim or can be made |
| `ControllerClaim.CreateIntermediate` | controller/pkg/reconciler/bucketclaim.go:383-458 | The created Bucket is bound to the claim, asks for its protocols, and has driver, policy and parameters of the class as read |
| `ControllerClaim.EnsureStaticBound` | controller/pkg/reconciler/bucketclaim.go:496-528 | Only a reference without a UID is completed; a Bucket of another claim is refused without a write |
| `ControllerClaim.DynamicIsBound` | controller/pkg/reconciler/bucketclaim.go:194-204 | The malformed dynamic Bucket is unreachable |
| `SidecarBucket.Reconcile` | sidecar/pkg/reconciler/bucket.go:59-107 | Causes permitted events only; success for a Bucket of the driver means it is ready as the driver described it |
| `SidecarBucket.RecordFailure` | sidecar/pkg/reconciler/bucket.go:73-91 | Terminal exactly if the error is tagged and its record was stored, otherwise retried; the stored status is as the reconcile left it, marked as failed, with readiness filled in but not lowered |
| `SidecarBucket.ProvisionBucket` | sidecar/pkg/reconciler/bucket.go:131-225 | Success means ready with the driver's ID, exactly the protocols it answered for, and those cover the spec |
| `SidecarBucket.ParseReply` | sidecar/pkg/reconciler/bucket.go:278-302 | Accepts exactly replies with an ID and bucket info, and keeps exactly the protocols that were answered |
| `SidecarBucket.ProvisionError` | sidecar/pkg/reconciler/bucket.go:333-344 | Terminal exactly for the codes that are not retryable |
| `SidecarBucket.ProtocolList` | sidecar/pkg/reconciler/bucket.go:373-392 | Translates the list in order; fails exactly on an unknown protocol |
| `SidecarBucket.ValidateDriverSupports` | sidecar/pkg/reconciler/bucket.go:395-408 | Accepts exactly lists that the driver supports |
| `SidecarBucket.ValidateBucketSupports` | sidecar/pkg/reconciler/bucket.go:411-422 | Accepts exactly if the supported protocols cover the required ones |
| `Translator.BucketInfoToApi` | sidecar/internal/translator/translator.go:41-91 | With validation it succeeds exactly when only the expected info is present and complete; the protocols returned are exactly those present, once each |
| `Translator.CredentialsToApi` | sidecar/internal/translator/translator.go:95-134 | Succeeds exactly when only the expected credentials are present and complete for the authentication type |
| `Translator.Accumulate` | sidecar/internal/translator/translator.go:136-179 | The merged variables are the disjoint union of the protocols' variables |
| `Translator.InfoRoundTrip` | internal/protocol/s3.go:58-106 | Every bucket info can be read back from its own keys in the merged map, up to the normalised addressing style |
| `Translator.CredentialRoundTrip` | internal/protocol/s3.go:143-167 | Every credential can be read back from its own keys in the merged map |
| `Translator.ValidatedKeys` | internal/protocol/gcs.go:47-122 | A validated response sets exactly the variables of the requested protocol |
| `Protocols.KeysDisjoint` | internal/protocol/azure.go:47-111 | Bucket info and credential keys are disjoint, within and between protocols |
| `Protocols.VarNamesDistinct` | client/apis/objectstorage/v1alpha2/protocols.go:70-146 | No two of the variables have the same name, so they do not overwrite each other in a Secret |
| `Protocols.ProtocolToRpc` | internal/protocol/protocol.go:41-57 | The two protocol translations are inverse to each other |
| `Drivers.ValidateDriverName` | sidecar/pkg/reconciler/driver.go:78-99 | Accepts exactly the lower-case domain names of section 2.3.1 of RFC 1035 with at most 63 characters |
| `Drivers.AcceptedIsAddressable` | client/apis/objectstorage/v1alpha2/bucket_types.go:49-53 | Every accepted name matches the pattern and lengths that objects put on driver names |
| `Drivers.ParseProtocols` | sidecar/pkg/reconciler/driver.go:102-126 | Accepts exactly non-empty lists of known protocols without repetition, unchanged |
| `Drivers.RpcError` | sidecar/pkg/reconciler/driver.go:149-166 | Terminal exactly for the codes that the error scheme calls not retryable |
| `Theorems.OneWriter` | sidecar/pkg/reconciler/bucketaccess.go:76-142 | By the rules: in any state at most one of the Controller and the Sidecars may write an access |
| `Theorems.ForeignSecretsUntouched` | sidecar/pkg/reconciler/bucketaccess.go:783-859 | By the rules: a Sidecar never updates a stored Secret that the reconciled access does not control; only a delete request during deletion can reach one |
| `Releases.DeletionIsAnnounced` | controller/pkg/reconciler/bucketclaim.go:300-314 | By the rules: the Controller requests deletion of a Bucket only after the announcement and only for a claim that is deleting or gone |
| `Releases.BindingSource` | controller/pkg/reconciler/bucketclaim.go:496-528 | By the rules: a stored Bucket's claim UID only goes from empty to the UID of the claim with the namespace and name that the Bucket states |
| `Handoff.HandoffIsAdmitted` | internal/predicate/predicate.go:122-188 | By the rules: the update in which the manager changes is admitted by the filter of the new manager |

## Left out

- Deletion of backend buckets and the Controller's Bucket reconciler: both are stubs in the source. Of the Sidecar's deletion branch only the removal of the finalizer is modelled.
- Liveness: that a deletion or a retry is eventually reconciled is not claimed; the event filters do not establish it. What is shown is that one undisturbed rerun of a grant or of provisioning completes it; progress of deletion and progress while others interfere are not shown.
- Protection of claims with live accesses: the claim reconciler does not look at the marks.
- Stale informer caches beyond version conflicts, coalesced watch events, and hand edits of what COSI owns.
- Update in place through Go pointers: the reconcilers pass object values on instead, so aliasing is not modelled.
- Updates that change nothing get a new version in the model; a real server keeps the old one.
- Message texts, timestamps, logging, backoff and metrics: a recorded error is one bit.
- Command-line handling, TLS, leader election, generated code and the fake driver.
- The bucket calls of the driver interface are answered but not logged, so nothing is claimed about their order.
- Clusters.Cluster.AskForBucket: states nothing about the answer, because any answer is possible.
