/** The API server and the driver as a reconciler sees them, with everybody else acting in between. */
module Clusters {
  import opened Objects
  import opened Rpc
  import opened Runs
  import opened Rules

  datatype ApiError = MissingError | ConflictError | ExistsError | InvalidError | OtherError

  datatype Reply = Ok(obj: Object) | Err(code: ApiError)

  datatype ListReply = Listed(items: map<Ref, Object>) | ListFailed

  datatype GrantAnswer = GrantAnswer(reply: GrantReply) | GrantFailed(code: Code)

  datatype BucketAnswer = BucketAnswer(reply: BucketReply) | BucketFailed(code: Code)

  datatype RevokeAnswer = RevokeDone | RevokeFailed(code: Code)

  /** What a reconcile reports: success, an error to retry, or an error not worth retrying. */
  datatype Outcome = Done | Retry | Terminal

  /** A request is served, refused, or served without the client ever seeing the answer. */
  datatype Fate = Served | Refused | AnswerLost

  /** What happens around one request: the events of others before it, and how it is answered. */
  datatype Turn = Turn(
    others: seq<Event>, fate: Fate, uid: Uid, grant: GrantReply, bucket: BucketRequest -> BucketReply, code: Code)

  /**
   * Reconciles of one object by one component do not overlap, and the Controller reconciles one
   * BucketAccess at a time. All other actors may act between any two requests of a reconcile.
   */
  predicate MayInterleave(me: Actor, other: Actor) {
    match me
    case User => true
    case AccessController(_) => !other.AccessController?
    case ClaimController(k) => other != ClaimController(k)
    case AccessSidecar(_, k) => !(other.AccessSidecar? && other.key == k)
    case BucketSidecar(_, k) => !(other.BucketSidecar? && other.key == k)
  }

  ghost predicate OnlyOthers(me: Actor, p: Run, r: Run) {
    p == r || (r.More? && MayInterleave(me, r.event.actor) && OnlyOthers(me, p, r.prev))
  }

  // What the API server stores for each request.

  /** Update takes metadata and spec from the request and keeps the stored status. */
  function UpdatedBody(stored: Body, req: Body): Body {
    match (stored, req)
    case (Access(_, s), Access(spec, _)) => Access(spec, s)
    case (Claim(_, s), Claim(spec, _)) => Claim(spec, s)
    case (Bucket(_, s), Bucket(spec, _)) => Bucket(spec, s)
    case (Secret(_, _, _), Secret(owner, data, stringData)) => Secret(owner, data + stringData, map[])
    case _ => req
  }

  function Updated(stored: Object, req: Object): Option<Object> {
    Settled(Object(
      stored.meta.(finalizers := req.meta.finalizers, annotations := req.meta.annotations),
      UpdatedBody(stored.body, req.body)))
  }

  /** Status().Update takes the status from the request and keeps everything else. */
  function StatusUpdatedBody(stored: Body, req: Body): Body {
    match (stored, req)
    case (Access(spec, _), Access(_, s)) => Access(spec, s)
    case (Claim(spec, _), Claim(_, s)) => Claim(spec, s)
    case (Bucket(spec, _), Bucket(_, s)) => Bucket(spec, s)
    case _ => stored
  }

  function StatusUpdated(stored: Object, req: Object): Option<Object> {
    Some(Object(stored.meta, StatusUpdatedBody(stored.body, req.body)))
  }

  /** Delete has no precondition on the version or the UID of what it deletes. */
  function DeleteRequested(stored: Object): Option<Object> {
    Settled(stored.(meta := stored.meta.(deleting := true)))
  }

  function WithUid(o: Object, uid: Uid): Object { o.(meta := o.meta.(uid := uid)) }

  /** The stored version is the one the request was made from, and the result passes admission. */
  predicate Applies(w: World, ref: Ref, req: Object, now: Option<Object>) {
    && ref in w.objs && KindOf(req) == ref.kind && KindOf(w.objs[ref]) == ref.kind
    && w.objs[ref].meta.rv == req.meta.rv && Conforms(w, ref, now)
  }

  predicate UpdateApplies(w: World, ref: Ref, req: Object) {
    ref in w.objs && Applies(w, ref, req, Updated(w.objs[ref], req))
  }

  predicate StatusApplies(w: World, ref: Ref, req: Object) {
    ref in w.objs && Applies(w, ref, req, StatusUpdated(w.objs[ref], req))
  }

  /** The object stored under `ref` is `o`. */
  predicate Current(w: World, ref: Ref, o: Object) { ref in w.objs && w.objs[ref] == o }

  /** The two worlds store the same objects, except under `written`. */
  ghost predicate SameBut(w: World, w': World, written: set<Ref>) {
    forall ref :: ref !in written ==>
      (ref in w.objs <==> ref in w'.objs) && (ref in w.objs ==> w'.objs[ref] == w.objs[ref])
  }

  class Cluster {
    var run: Run
    var clock: nat
    const script: nat -> Turn

    ghost predicate Valid()
      reads this
    {
      IsRun(run)
    }

    /** From now on nobody else acts, every request is served, and the server has fresh UIDs. */
    ghost predicate Calm()
      reads this
    {
      && (forall t :: t >= clock ==>
           script(t).others == [] && script(t).fate == Served && script(t).uid != ""
             && script(t).uid !in run.world.uids)
      && (forall t, ref :: t >= clock && ref in run.world.objs ==> script(t).uid != run.world.objs[ref].meta.uid)
      && (forall t, u :: clock <= t < u ==> script(t).uid != script(u).uid)
    }

    /** From now on the driver answers every grant with this reply. */
    ghost predicate Answers(reply: GrantReply)
      reads this
    {
      forall t :: t >= clock ==> script(t).grant == reply
    }

    constructor (script: nat -> Turn)
      ensures Valid() && run == Start(EMPTY) && this.script == script
    {
      this.script, clock, run := script, 0, Start(EMPTY);
    }

    /** Other actors take any number of steps. */
    method Yield(me: Actor)
      requires Valid()
      modifies this
      ensures Valid() && OnlyOthers(me, old(run), run) && clock == old(clock) + 1
      ensures old(Calm()) ==> Calm() && run == old(run)
    {
      var others := script(clock).others;
      clock := clock + 1;
      for i := 0 to |others|
        invariant Valid() && OnlyOthers(me, old(run), run)
        invariant clock == old(clock) + 1 && (others == [] ==> run == old(run))
      {
        var e := others[i];
        if MayInterleave(me, e.actor) && Enabled(run, e) {
          run := Extend(run, e);
        }
      }
    }

    /** Records one write of `me` that took effect. */
    method Apply(me: Actor, ref: Ref, now: Option<Object>)
      requires Valid() && Enabled(run, Change(me, ref, now))
      modifies this`run
      ensures Valid() && run == Extend(old(run), Change(me, ref, now))
    {
      run := Extend(run, Change(me, ref, now));
    }

    method Get(me: Actor, ref: Ref) returns (r: Reply)
      requires Valid()
      modifies this
      ensures Valid() && OnlyOthers(me, old(run), run)
      ensures r.Ok? ==> ref in run.world.objs && r.obj == run.world.objs[ref]
      ensures r == Err(MissingError) ==> ref !in run.world.objs
      ensures clock == old(clock) + 1 && (old(Calm()) ==> Calm() && run == old(run))
      ensures old(Calm()) ==> r == if ref in run.world.objs then Ok(run.world.objs[ref]) else Err(MissingError)
    {
      var turn := script(clock);
      Yield(me);
      if turn.fate != Served { return Err(OtherError); }
      if ref !in run.world.objs { return Err(MissingError); }
      return Ok(run.world.objs[ref]);
    }

    /** All accesses of a namespace. */
    method ListAccesses(me: Actor, ns: string) returns (r: ListReply)
      requires Valid()
      modifies this
      ensures Valid() && OnlyOthers(me, old(run), run)
      ensures r.Listed? ==> forall k :: k in r.items <==> k in run.world.objs && k.kind == AccessKind && k.ns == ns
      ensures r.Listed? ==> forall k :: k in r.items ==> r.items[k] == run.world.objs[k]
      ensures clock == old(clock) + 1 && (old(Calm()) ==> Calm() && run == old(run) && r.Listed?)
    {
      var turn := script(clock);
      Yield(me);
      if turn.fate != Served { return ListFailed; }
      return Listed(map k | k in run.world.objs && k.kind == AccessKind && k.ns == ns :: run.world.objs[k]);
    }

    method Update(me: Actor, ref: Ref, req: Object) returns (r: Reply)
      requires Valid()
      requires UpdateApplies(run.world, ref, req) ==> Enabled(run, Change(me, ref, Updated(run.world.objs[ref], req)))
      modifies this
      ensures Valid()
      ensures run == old(run) ||
              (UpdateApplies(old(run).world, ref, req) &&
               run == Extend(old(run), Change(me, ref, Updated(old(run).world.objs[ref], req))))
      ensures r.Ok? ==> run != old(run) && (ref in run.world.objs ==> r.obj == run.world.objs[ref])
      ensures r == Err(MissingError) ==> ref !in run.world.objs
      ensures clock == old(clock) + 1 && (old(Calm()) && UpdateApplies(old(run).world, ref, req) ==> r.Ok?)
      ensures old(Calm()) ==> Calm()
    {
      var turn := script(clock);
      clock := clock + 1;
      if turn.fate == Refused { return Err(OtherError); }
      if ref !in run.world.objs { return Err(MissingError); }
      var stored := run.world.objs[ref];
      if stored.meta.rv != req.meta.rv { return Err(ConflictError); }
      if !UpdateApplies(run.world, ref, req) { return Err(InvalidError); }
      var now := Updated(stored, req);
      Apply(me, ref, now);
      if turn.fate == AnswerLost { return Err(OtherError); }
      return Ok(if ref in run.world.objs then run.world.objs[ref] else req);
    }

    method StatusUpdate(me: Actor, ref: Ref, req: Object) returns (r: Reply)
      requires Valid()
      requires StatusApplies(run.world, ref, req) ==>
          Enabled(run, Change(me, ref, StatusUpdated(run.world.objs[ref], req)))
      modifies this
      ensures Valid()
      ensures run == old(run) ||
              (StatusApplies(old(run).world, ref, req) &&
               run == Extend(old(run), Change(me, ref, StatusUpdated(old(run).world.objs[ref], req))))
      ensures r.Ok? ==> run != old(run) && ref in run.world.objs && r.obj == run.world.objs[ref]
      ensures clock == old(clock) + 1 && (old(Calm()) && StatusApplies(old(run).world, ref, req) ==> r.Ok?)
      ensures old(Calm()) ==> Calm()
    {
      var turn := script(clock);
      clock := clock + 1;
      if turn.fate == Refused { return Err(OtherError); }
      if ref !in run.world.objs { return Err(MissingError); }
      var stored := run.world.objs[ref];
      if stored.meta.rv != req.meta.rv { return Err(ConflictError); }
      if !StatusApplies(run.world, ref, req) { return Err(InvalidError); }
      Apply(me, ref, StatusUpdated(stored, req));
      if turn.fate == AnswerLost { return Err(OtherError); }
      return Ok(run.world.objs[ref]);
    }

    /** The server assigns a fresh UID. */
    method Create(me: Actor, ref: Ref, req: Object) returns (r: Reply)
      requires Valid() && KindOf(req) == ref.kind && !req.meta.deleting
      requires ref !in run.world.objs ==> forall uid :: uid != "" && uid !in run.world.uids ==>
                 Enabled(run, Change(me, ref, Some(WithUid(req, uid))))
      modifies this
      ensures Valid()
      ensures run == old(run) ||
              (ref !in old(run).world.objs && ref in run.world.objs
                && run.world.objs[ref].meta.uid !in old(run).world.uids
               && run == Extend(old(run), Change(me, ref, Some(WithUid(req, run.world.objs[ref].meta.uid)))))
      ensures r.Ok? ==> run != old(run) && r.obj == run.world.objs[ref]
      ensures clock == old(clock) + 1 && (old(Calm()) && ref !in old(run).world.objs ==> r.Ok?)
      ensures old(Calm()) ==> Calm()
    {
      var turn := script(clock);
      clock := clock + 1;
      if turn.fate == Refused || turn.uid == "" || turn.uid in run.world.uids { return Err(OtherError); }
      if ref in run.world.objs { return Err(ExistsError); }
      Apply(me, ref, Some(WithUid(req, turn.uid)));
      if turn.fate == AnswerLost { return Err(OtherError); }
      return Ok(run.world.objs[ref]);
    }

    method Delete(me: Actor, ref: Ref) returns (r: Reply)
      requires Valid()
      requires ref in run.world.objs ==> Enabled(run, Change(me, ref, DeleteRequested(run.world.objs[ref])))
      modifies this
      ensures Valid()
      ensures run == old(run) ||
              (ref in old(run).world.objs
                && run == Extend(old(run), Change(me, ref, DeleteRequested(old(run).world.objs[ref]))))
      ensures r.Ok? ==> run != old(run)
      ensures clock == old(clock) + 1 && (old(Calm()) && ref in old(run).world.objs ==> r.Ok?)
      ensures old(Calm()) ==> Calm()
    {
      var turn := script(clock);
      clock := clock + 1;
      if turn.fate == Refused { return Err(OtherError); }
      if ref !in run.world.objs { return Err(MissingError); }
      var stored := run.world.objs[ref];
      Apply(me, ref, DeleteRequested(stored));
      if turn.fate == AnswerLost { return Err(OtherError); }
      return Ok(stored);
    }

    /** DriverGrantBucketAccess; a call that fails on the way is logged without a reply. */
    method Grant(me: Actor, access: Uid, req: GrantRequest) returns (r: GrantAnswer)
      requires Valid() && me.AccessSidecar?
      requires forall reply :: Enabled(run, Called(me, Call.Grant(access, req, reply)))
      modifies this
      ensures Valid()
      ensures r.GrantAnswer? ==> run == Extend(old(run), Called(me, Call.Grant(access, req, Some(r.reply))))
      ensures r.GrantFailed? ==> run == Extend(old(run), Called(me, Call.Grant(access, req, None)))
      ensures clock == old(clock) + 1 && (old(Calm()) ==> Calm() && r == GrantAnswer(script(old(clock)).grant))
    {
      var turn := script(clock);
      clock := clock + 1;
      if turn.fate == Served {
        run := Extend(run, Called(me, Call.Grant(access, req, Some(turn.grant))));
        return GrantAnswer(turn.grant);
      }
      run := Extend(run, Called(me, Call.Grant(access, req, None)));
      return GrantFailed(turn.code);
    }

    /** The driver's bucket calls leave no trace in the run. */
    method AskForBucket(req: BucketRequest) returns (r: BucketAnswer)
      modifies this`clock
    {
      var turn := script(clock);
      clock := clock + 1;
      return if turn.fate == Served then BucketAnswer(turn.bucket(req)) else BucketFailed(turn.code);
    }

    method Revoke(me: Actor, access: Uid, req: RevokeRequest) returns (r: RevokeAnswer)
      requires Valid() && me.AccessSidecar?
      requires forall ok :: Enabled(run, Called(me, Call.Revoke(access, req, ok)))
      modifies this
      ensures Valid()
      ensures run == Extend(old(run), Called(me, Call.Revoke(access, req, r.RevokeDone?)))
      ensures clock == old(clock) + 1 && (old(Calm()) ==> Calm() && r.RevokeDone?)
    {
      var turn := script(clock);
      clock := clock + 1;
      run := Extend(run, Called(me, Call.Revoke(access, req, turn.fate == Served)));
      return if turn.fate == Served then RevokeDone else RevokeFailed(turn.code);
    }
  }
}
