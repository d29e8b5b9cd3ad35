/** Which component manages a BucketAccess, and which watch events each component reconciles. */
module Handoff {
  import opened Objects

  predicate ManagedBySidecar(a: Object)
    requires a.body.Access?
  {
    if ManagementOverride in a.meta.annotations then false
    else if a.body.astatus.driverName == "" then false
    else if a.meta.deleting then CleanupFinished !in a.meta.annotations
    else true
  }

  datatype Requirements = Present | Absent | Degraded

  /** Whether the status fields that the Sidecar needs are all set, all unset, or partly set. */
  function SidecarRequirements(s: AccessStatus): (r: Requirements)
    ensures r.Present? <==> s.accessed != [] && s.driverName != "" && s.auth != NoAuth
    ensures r.Absent? <==> s.accessed == [] && s.driverName == "" && s.auth == NoAuth
  {
    var set0 := if |s.accessed| > 0 then 1 else 0;
    var set1 := if s.driverName != "" then set0 + 1 else set0;
    var set2 := if s.auth != NoAuth then set1 + 1 else set1;
    if set2 == 0 then Absent else if set2 == 3 then Present else Degraded
  }

  // Watch events, as the predicates receive them.
  datatype WatchEvent =
    | Created(obj: Object)
    | Modified(before: Object, after: Object)
    | Deleted(obj: Object)
    | Generic(obj: Object)
  {
    /** The object that predicates built from one object test look at. */
    function Subject(): Object { if Modified? then after else obj }
  }

  predicate HandoffOccurred(before: Object, after: Object) {
    before.body.Access? && after.body.Access? && ManagedBySidecar(before) != ManagedBySidecar(after)
  }

  predicate ProtectionRemoved(before: Object, after: Object) {
    !after.meta.deleting && IsProtected(before) && !IsProtected(after)
  }

  /** The disjunction both BucketAccess controllers share, built on an all-false base. */
  predicate Interesting(e: WatchEvent) {
    match e
    case Created(_) => true
    case Deleted(_) => true
    case Generic(_) => true
    case Modified(before, after) => HandoffOccurred(before, after) || ProtectionRemoved(before, after)
  }

  predicate ControllerAdmits(e: WatchEvent) {
    e.Subject().body.Access? && !ManagedBySidecar(e.Subject()) && Interesting(e)
  }

  predicate SidecarAdmits(driver: string, e: WatchEvent) {
    && match e.Subject().body {
         case Access(_, status) => status.driverName == driver
         case Bucket(spec, _) => spec.driverName == driver
         case _ => false
       }
    && Interesting(e)
  }

  /** Whoever manages the object after a change of manager is told about that change. */
  lemma HandoffIsAdmitted(before: Object, after: Object)
    requires before.body.Access? && after.body.Access?
    requires ManagedBySidecar(before) != ManagedBySidecar(after)
    ensures ManagedBySidecar(after) ==> SidecarAdmits(after.body.astatus.driverName, Modified(before, after))
    ensures !ManagedBySidecar(after) ==> ControllerAdmits(Modified(before, after))
  {
    assert HandoffOccurred(before, after);
  }

  /**
   * Deleting an access only sets its deletion timestamp. No filter admits that update unless the
   * stale cleanup annotation makes it a handoff, so neither component reconciles the deletion from it.
   */
  lemma DeletionUpdateAdmittedIffHandoff(before: Object, driver: string)
    requires before.body.Access? && !before.meta.deleting
    ensures
      var e := Modified(before, before.(meta := before.meta.(deleting := true)));
      (ControllerAdmits(e) || SidecarAdmits(driver, e)) <==>
      (ManagedBySidecar(before) && CleanupFinished in before.meta.annotations)
  {
    var after := before.(meta := before.meta.(deleting := true));
    assert !ProtectionRemoved(before, after);
  }
}
