/**
 * The reconciler of ec2instance_controller.go: one pass over one resource.
 * The API server's copy of the resource is a field of the reconciler; every
 * AWS and store call is replaced by its outcome, supplied in an `Env`; the
 * calls a pass issues are recorded, in order, as `Effect`s.
 */
module Controller {
  import opened Wrappers
  import opened GoRuntime
  import opened Resource
  import opened Aws

  /** ctrl.Result: retry now, or retry after a delay (in seconds; zero means none). */
  datatype CtrlResult = CtrlResult(Requeue: bool, RequeueAfterSeconds: nat)

  const EmptyResult := CtrlResult(false, 0)
  const RequeueNow := CtrlResult(true, 0)
  const RequeueAfterOneSecond := CtrlResult(false, 1)

  /** The status state the controller writes when the instance is not found running. */
  const Unknown := "Unknown"

  /** How a pass ends: `return result, err`, or a panic at one of the crash sites. */
  datatype ReconcileOutcome = Returned(result: CtrlResult, err: Option<Error>) | Panicked(site: Crash)

  /**
   * The outcome of every external call a pass may make, in the order the
   * code makes them: a failure of Get other than NotFound, the two calls of
   * deleteEc2Instance, the describe of checkEC2InstanceExists, the three
   * calls of createEc2Instance, and the two store writes.
   */
  datatype Env = Env(
    getErr: Option<Error>,
    terminate: Result<TerminateInstancesOutput, Error>,
    terminatedWait: Option<Error>,
    describe: Result<DescribeInstancesOutput, Error>,
    run: Result<RunInstancesOutput, Error>,
    runningWait: Option<Error>,
    createDescribe: Result<DescribeInstancesOutput, Error>,
    updateErr: Option<Error>,
    statusUpdateErr: Option<Error>)

  /** A call a pass issues to AWS or to the store; a store write records whether it was persisted. */
  datatype Effect =
    | DescribeCall(query: DescribeInstancesInput)
    | RunCall(runRequest: RunInstancesInput)
    | TerminateCall(terminateRequest: TerminateInstancesInput)
    | UpdateCall(finalizers: seq<string>, persisted: bool)
    | StatusUpdateCall(status: Ec2InstanceStatus, persisted: bool)

  /** The stored resource after a pass, the calls it issued, and how it ended. */
  datatype PassResult = PassResult(stored: Option<Ec2Instance>, effects: seq<Effect>, outcome: ReconcileOutcome)

  /** Some call in `effects` asked AWS to run an instance. */
  predicate IssuesCreate(effects: seq<Effect>) {
    exists e :: e in effects && e.RunCall?
  }

  /**
   * `r.Update`: the resource has a status subresource, so only metadata and
   * spec are written; a resource being deleted whose last finalizer is gone
   * is removed by the API server.
   */
  function PersistMetadata(stored: Ec2Instance, obj: Ec2Instance): (r: Option<Ec2Instance>)
    ensures r.None? <==> BeingDeleted(stored) && obj.Finalizers == []
    ensures r.Some? ==> r.value == stored.(Finalizers := obj.Finalizers, Spec := obj.Spec)
  {
    if BeingDeleted(stored) && obj.Finalizers == [] then None
    else Some(stored.(Finalizers := obj.Finalizers, Spec := obj.Spec))
  }

  /** `r.Status().Update`: only the status is written. */
  function PersistStatus(stored: Ec2Instance, obj: Ec2Instance): (r: Ec2Instance)
    ensures r.Status == obj.Status
    ensures r.DeletionTimestamp == stored.DeletionTimestamp && r.Finalizers == stored.Finalizers && r.Spec == stored.Spec
  {
    stored.(Status := obj.Status)
  }

  /** The stored resource after a status write of `edited` that failed or not. */
  function AfterStatusUpdate(stored: Ec2Instance, edited: Ec2Instance, fault: Option<Error>): Option<Ec2Instance> {
    if fault.None? then Some(PersistStatus(stored, edited)) else Some(stored)
  }

  /**
   * One pass of Reconcile over the stored resource. A pass never changes the
   * spec or the deletion timestamp, removes the resource only after a
   * confirmed termination, and asks for an instance only for a live resource
   * without a recorded id.
   */
  function Pass(stored: Option<Ec2Instance>, env: Env): (p: PassResult)
    ensures p.stored.Some? ==>
      && stored.Some?
      && p.stored.value.Spec == stored.value.Spec
      && p.stored.value.DeletionTimestamp == stored.value.DeletionTimestamp
    ensures stored.Some? && p.stored.None? ==>
      BeingDeleted(stored.value) && TerminationConfirmed(env.terminate, env.terminatedWait)
    ensures IssuesCreate(p.effects) ==>
      env.getErr.None? && stored.Some? && !BeingDeleted(stored.value) && stored.value.Status.InstanceID == ""
  {
    if env.getErr.Some? then PassResult(stored, [], Returned(EmptyResult, env.getErr))
    else match stored
      case None => PassResult(None, [], Returned(EmptyResult, None))
      case Some(obj) =>
        if BeingDeleted(obj) then DeletionPass(obj, env)
        else if obj.Status.InstanceID != "" then VerificationPass(obj, env)
        else CreationPass(obj, env)
  }

  /**
   * The deletion branch: terminate, then drop the finalizer and persist it.
   * The terminate call comes first, only metadata is written, and the store
   * changes only after a confirmed termination and a successful persist.
   */
  function DeletionPass(obj: Ec2Instance, env: Env): (p: PassResult)
    ensures |p.effects| > 0 && p.effects[0] == TerminateCall(TerminateInstancesInput([obj.Status.InstanceID]))
    ensures forall e :: e in p.effects ==> e.TerminateCall? || e.UpdateCall?
    ensures p.stored.Some? ==> p.stored.value.Status == obj.Status && p.stored.value.Spec == obj.Spec
    ensures p.stored != Some(obj) ==> TerminationConfirmed(env.terminate, env.terminatedWait) && env.updateErr.None?
  {
    var terminate := [TerminateCall(TerminateInstancesInput([obj.Status.InstanceID]))];
    match DeleteEc2Instance(env.terminate, env.terminatedWait)
    case Panic(site) => PassResult(Some(obj), terminate, Panicked(site))
    case Value(deletion) =>
      if deletion.err.Some? then PassResult(Some(obj), terminate, Returned(RequeueNow, deletion.err))
      else
        var edited := obj.(Finalizers := WithoutFinalizer(obj.Finalizers, FinalizerToken));
        if env.updateErr.Some? then
          PassResult(Some(obj), terminate + [UpdateCall(edited.Finalizers, false)], Returned(RequeueNow, env.updateErr))
        else
          PassResult(PersistMetadata(obj, edited), terminate + [UpdateCall(edited.Finalizers, true)], Returned(EmptyResult, None))
  }

  /**
   * The verification branch: describe the recorded instance and repair the
   * status. Only the status is written, nothing is launched, and the id is
   * lost only to a describe error other than not-found.
   */
  function VerificationPass(obj: Ec2Instance, env: Env): (p: PassResult)
    ensures |p.effects| > 0 && p.effects[0] == DescribeCall(ExistsQuery(obj.Status.InstanceID))
    ensures forall e :: e in p.effects ==> e.DescribeCall? || e.StatusUpdateCall?
    ensures p.stored.Some? && p.stored.value == obj.(Status := p.stored.value.Status)
    ensures p.stored.value.Status.InstanceID != obj.Status.InstanceID ==>
      && CheckEC2InstanceExists(env.describe).Value? && CheckEC2InstanceExists(env.describe).value.err.Some?
      && p.stored.value.Status == EmptyStatus
  {
    var describe := [DescribeCall(ExistsQuery(obj.Status.InstanceID))];
    match CheckEC2InstanceExists(env.describe)
    case Panic(site) => PassResult(Some(obj), describe, Panicked(site))
    case Value(check) =>
      if check.err.Some? then
        var edited := obj.(Status := EmptyStatus);
        PassResult(AfterStatusUpdate(obj, edited, env.statusUpdateErr),
          describe + [StatusUpdateCall(edited.Status, env.statusUpdateErr.None?)],
          Returned(RequeueNow, env.statusUpdateErr))
      else if !check.instanceExists then
        var edited := obj.(Status := obj.Status.(State := Unknown, PublicIP := ""));
        PassResult(AfterStatusUpdate(obj, edited, env.statusUpdateErr),
          describe + [StatusUpdateCall(edited.Status, env.statusUpdateErr.None?)],
          Returned(EmptyResult, None))
      else if obj.Status.State == Unknown then
        if check.record.None? || check.record.value.State.None? then
          PassResult(Some(obj), describe, Panicked(RecordStateNil))
        else if check.record.value.PublicIpAddress.None? then
          PassResult(Some(obj), describe, Panicked(RecordPublicIpNil))
        else
          var record := check.record.value;
          var edited := obj.(Status := obj.Status.(State := record.State.value, PublicIP := record.PublicIpAddress.value));
          PassResult(AfterStatusUpdate(obj, edited, env.statusUpdateErr),
            describe + [StatusUpdateCall(edited.Status, env.statusUpdateErr.None?)],
            Returned(EmptyResult, None))
      else PassResult(Some(obj), describe, Returned(EmptyResult, None))
  }

  /** The creation branch: persist the finalizer, create, then persist the status. */
  function CreationPass(obj: Ec2Instance, env: Env): (p: PassResult)
    requires !BeingDeleted(obj)
    ensures |p.effects| > 0 && p.effects[0] == UpdateCall(obj.Finalizers + [FinalizerToken], env.updateErr.None?)
    ensures IssuesCreate(p.effects) <==> env.updateErr.None?
    ensures p.stored.Some? && p.stored.value.Spec == obj.Spec
    ensures env.updateErr.None? ==> p.stored.value.Finalizers == obj.Finalizers + [FinalizerToken]
    ensures env.updateErr.Some? ==> p.stored == Some(obj)
  {
    var edited := obj.(Finalizers := obj.Finalizers + [FinalizerToken]);
    if env.updateErr.Some? then
      PassResult(Some(obj), [UpdateCall(edited.Finalizers, false)], Returned(RequeueNow, env.updateErr))
    else
      var persisted := PersistMetadata(obj, edited).value;
      var calls := [UpdateCall(edited.Finalizers, true), RunCall(RunRequest(obj.Spec))];
      assert calls[1] in calls;
      match CreateEc2Instance(env.run, env.runningWait, env.createDescribe)
      case Panic(site) => PassResult(Some(persisted), calls, Panicked(site))
      case Value(creation) =>
        if creation.err.Some? then PassResult(Some(persisted), calls, Returned(EmptyResult, creation.err))
        else if creation.info.None? then PassResult(Some(persisted), calls, Panicked(CreatedInfoNil))
        else
          var withStatus := edited.(Status := StatusOf(creation.info.value));
          assert (calls + [StatusUpdateCall(withStatus.Status, env.statusUpdateErr.None?)])[1] == calls[1];
          PassResult(AfterStatusUpdate(persisted, withStatus, env.statusUpdateErr),
            calls + [StatusUpdateCall(withStatus.Status, env.statusUpdateErr.None?)],
            if env.statusUpdateErr.Some? then Returned(EmptyResult, env.statusUpdateErr)
            else Returned(RequeueAfterOneSecond, None))
  }

  /**
   * Ec2InstanceReconciler: `store` is the API server's copy of the resource
   * (None once it is gone), `calls` every call issued so far.
   */
  class Ec2InstanceReconciler {
    var store: Option<Ec2Instance>
    var calls: seq<Effect>

    constructor (initial: Option<Ec2Instance>)
      ensures store == initial && calls == []
    {
      store := initial;
      calls := [];
    }

    /** `r.Get`: the stored copy, NotFound when there is none, or the injected failure. */
    method Get(fault: Option<Error>) returns (obj: Option<Ec2Instance>, err: Option<Error>, notFound: bool)
      ensures fault.Some? ==> obj.None? && err == fault && !notFound
      ensures fault.None? ==> obj == store && err.None? && (notFound <==> store.None?)
    {
      if fault.Some? {
        return None, fault, false;
      }
      obj, err, notFound := store, None, store.None?;
    }

    /** `r.Update(ctx, obj)`, failing with `fault` when it is given. */
    method Update(obj: Ec2Instance, fault: Option<Error>) returns (err: Option<Error>)
      requires store.Some?
      modifies this
      ensures err == fault
      ensures store == if fault.None? then PersistMetadata(old(store).value, obj) else old(store)
      ensures calls == old(calls) + [UpdateCall(obj.Finalizers, fault.None?)]
    {
      if fault.None? {
        store := PersistMetadata(store.value, obj);
      }
      calls := calls + [UpdateCall(obj.Finalizers, fault.None?)];
      err := fault;
    }

    /** `r.Status().Update(ctx, obj)`, failing with `fault` when it is given. */
    method UpdateStatus(obj: Ec2Instance, fault: Option<Error>) returns (err: Option<Error>)
      requires store.Some?
      modifies this
      ensures err == fault
      ensures store == AfterStatusUpdate(old(store).value, obj, fault)
      ensures calls == old(calls) + [StatusUpdateCall(obj.Status, fault.None?)]
    {
      if fault.None? {
        store := Some(PersistStatus(store.value, obj));
      }
      calls := calls + [StatusUpdateCall(obj.Status, fault.None?)];
      err := fault;
    }

    /**
     * Reconcile: fetch the resource, edit a local copy, persist it at the
     * update calls, and return a requeue hint. The new store, the calls
     * issued and the outcome are those of `Pass`.
     */
    method Reconcile(env: Env) returns (res: ReconcileOutcome)
      modifies this
      ensures var p := Pass(old(store), env);
        store == p.stored && calls == old(calls) + p.effects && res == p.outcome
    {
      var fetched, getErr, notFound := Get(env.getErr);
      if getErr.Some? {
        return Returned(EmptyResult, getErr);
      }
      if notFound {
        return Returned(EmptyResult, None);
      }
      var ec2Instance := fetched.value;

      if BeingDeleted(ec2Instance) {
        calls := calls + [TerminateCall(TerminateInstancesInput([ec2Instance.Status.InstanceID]))];
        var deletion := DeleteEc2Instance(env.terminate, env.terminatedWait);
        if deletion.Panic? {
          return Panicked(deletion.site);
        }
        if deletion.value.err.Some? {
          return Returned(RequeueNow, deletion.value.err);
        }
        var remaining := RemoveFinalizer(ec2Instance.Finalizers, FinalizerToken);
        ec2Instance := ec2Instance.(Finalizers := remaining);
        var err := Update(ec2Instance, env.updateErr);
        if err.Some? {
          return Returned(RequeueNow, err);
        }
        return Returned(EmptyResult, None);
      }

      if ec2Instance.Status.InstanceID != "" {
        calls := calls + [DescribeCall(ExistsQuery(ec2Instance.Status.InstanceID))];
        var check := CheckEC2InstanceExists(env.describe);
        if check.Panic? {
          return Panicked(check.site);
        }
        var instanceExists, instanceState, err := check.value.instanceExists, check.value.record, check.value.err;
        if err.Some? {
          ec2Instance := ec2Instance.(Status := ec2Instance.Status.(InstanceID := ""));
          ec2Instance := ec2Instance.(Status := ec2Instance.Status.(State := ""));
          ec2Instance := ec2Instance.(Status := ec2Instance.Status.(PublicIP := ""));
          ec2Instance := ec2Instance.(Status := ec2Instance.Status.(PrivateIP := ""));
          ec2Instance := ec2Instance.(Status := ec2Instance.Status.(PublicDNS := ""));
          ec2Instance := ec2Instance.(Status := ec2Instance.Status.(PrivateDNS := ""));
          var statusErr := UpdateStatus(ec2Instance, env.statusUpdateErr);
          return Returned(RequeueNow, statusErr);
        }
        if !instanceExists {
          ec2Instance := ec2Instance.(Status := ec2Instance.Status.(State := Unknown));
          ec2Instance := ec2Instance.(Status := ec2Instance.Status.(PublicIP := ""));
          var ignored := UpdateStatus(ec2Instance, env.statusUpdateErr);
          return Returned(EmptyResult, None);
        }
        if ec2Instance.Status.State == Unknown {
          if instanceState.None? || instanceState.value.State.None? {
            return Panicked(RecordStateNil);
          }
          ec2Instance := ec2Instance.(Status := ec2Instance.Status.(State := instanceState.value.State.value));
          if instanceState.value.PublicIpAddress.None? {
            return Panicked(RecordPublicIpNil);
          }
          ec2Instance := ec2Instance.(Status := ec2Instance.Status.(PublicIP := instanceState.value.PublicIpAddress.value));
          var ignored := UpdateStatus(ec2Instance, env.statusUpdateErr);
          return Returned(EmptyResult, None);
        }
        return Returned(EmptyResult, None);
      }

      ec2Instance := ec2Instance.(Finalizers := ec2Instance.Finalizers + [FinalizerToken]);
      var err := Update(ec2Instance, env.updateErr);
      if err.Some? {
        return Returned(RequeueNow, err);
      }

      calls := calls + [RunCall(RunRequest(ec2Instance.Spec))];
      var creation := CreateEc2Instance(env.run, env.runningWait, env.createDescribe);
      if creation.Panic? {
        return Panicked(creation.site);
      }
      if creation.value.err.Some? {
        return Returned(EmptyResult, creation.value.err);
      }
      if creation.value.info.None? {
        return Panicked(CreatedInfoNil);
      }
      var createdInstanceInfo := creation.value.info.value;
      ec2Instance := ec2Instance.(Status := ec2Instance.Status.(InstanceID := createdInstanceInfo.InstanceID));
      ec2Instance := ec2Instance.(Status := ec2Instance.Status.(State := createdInstanceInfo.State));
      ec2Instance := ec2Instance.(Status := ec2Instance.Status.(PublicIP := createdInstanceInfo.PublicIP));
      ec2Instance := ec2Instance.(Status := ec2Instance.Status.(PrivateIP := createdInstanceInfo.PrivateIP));
      ec2Instance := ec2Instance.(Status := ec2Instance.Status.(PublicDNS := createdInstanceInfo.PublicDNS));
      ec2Instance := ec2Instance.(Status := ec2Instance.Status.(PrivateDNS := createdInstanceInfo.PrivateDNS));

      err := UpdateStatus(ec2Instance, env.statusUpdateErr);
      if err.Some? {
        return Returned(EmptyResult, err);
      }
      return Returned(RequeueAfterOneSecond, None);
    }
  }

  // Properties of one pass.

  /** Get: a missing resource ends the pass quietly; any other failure is returned. Nothing is called or written. */
  lemma GetOutcomes(stored: Option<Ec2Instance>, env: Env)
    ensures env.getErr.Some? ==> Pass(stored, env) == PassResult(stored, [], Returned(EmptyResult, env.getErr))
    ensures env.getErr.None? && stored.None? ==> Pass(stored, env) == PassResult(None, [], Returned(EmptyResult, None))
  {
  }

  /**
   * A resource being deleted takes the deletion branch whatever its status:
   * the first call is the terminate of the recorded id, and no describe, run
   * or status write follows.
   */
  lemma DeletionTakesPrecedence(obj: Ec2Instance, env: Env)
    requires BeingDeleted(obj) && env.getErr.None?
    ensures var p := Pass(Some(obj), env);
      && |p.effects| >= 1
      && p.effects[0] == TerminateCall(TerminateInstancesInput([obj.Status.InstanceID]))
      && forall e :: e in p.effects ==> e.TerminateCall? || e.UpdateCall?
  {
  }

  /**
   * A failed delete keeps the finalizers and writes nothing; the pass asks for
   * a retry with the delete's own error, or carries the delete's crash.
   */
  lemma DeletionFailureKeepsFinalizer(obj: Ec2Instance, env: Env)
    requires BeingDeleted(obj) && env.getErr.None?
    requires !TerminationConfirmed(env.terminate, env.terminatedWait)
    ensures var p := Pass(Some(obj), env);
      && p.stored == Some(obj)
      && p.effects == [TerminateCall(TerminateInstancesInput([obj.Status.InstanceID]))]
      && var d := DeleteEc2Instance(env.terminate, env.terminatedWait);
         && (d.Value? ==> d.value.err.Some? && p.outcome == Returned(RequeueNow, d.value.err))
         && (d.Panic? ==> p.outcome == Panicked(d.site))
  {
  }

  /**
   * After a confirmed termination every copy of the token is dropped and the
   * list persisted; the resource is gone if no other finalizer remains. A
   * failed persist leaves the store as it was and asks for a retry.
   */
  lemma DeletionAfterConfirmedTermination(obj: Ec2Instance, env: Env)
    requires BeingDeleted(obj) && env.getErr.None?
    requires TerminationConfirmed(env.terminate, env.terminatedWait)
    ensures var p := Pass(Some(obj), env);
      var remaining := WithoutFinalizer(obj.Finalizers, FinalizerToken);
      && p.effects == [TerminateCall(TerminateInstancesInput([obj.Status.InstanceID])), UpdateCall(remaining, env.updateErr.None?)]
      && (env.updateErr.Some? ==> p.stored == Some(obj) && p.outcome == Returned(RequeueNow, env.updateErr))
      && (env.updateErr.None? ==>
            && p.outcome == Returned(EmptyResult, None)
            && p.stored == if remaining == [] then None else Some(obj.(Finalizers := remaining)))
  {
  }

  /** The token leaves the stored resource only in a deletion pass whose termination was confirmed and persisted. */
  lemma FinalizerLeavesOnlyAfterConfirmedTermination(stored: Option<Ec2Instance>, env: Env)
    requires stored.Some? && FinalizerToken in stored.value.Finalizers
    ensures var p := Pass(stored, env);
      (p.stored.None? || FinalizerToken !in p.stored.value.Finalizers) ==>
        && env.getErr.None? && BeingDeleted(stored.value)
        && TerminationConfirmed(env.terminate, env.terminatedWait) && env.updateErr.None?
  {
    var obj := stored.value;
    if env.getErr.None? && !BeingDeleted(obj) {
      if obj.Status.InstanceID == "" && env.updateErr.None? {
        assert FinalizerToken in obj.Finalizers + [FinalizerToken];
      }
    }
  }

  /**
   * The single-create guard: a pass asks AWS to run an instance only for a
   * resource that is not being deleted and records no instance id; for such a
   * resource it does so exactly when the finalizer was persisted first.
   */
  lemma CreateOnlyWithoutInstanceID(stored: Option<Ec2Instance>, env: Env)
    ensures IssuesCreate(Pass(stored, env).effects) ==>
      && env.getErr.None? && stored.Some? && !BeingDeleted(stored.value)
      && stored.value.Status.InstanceID == "" && env.updateErr.None?
    ensures env.getErr.None? && stored.Some? && !BeingDeleted(stored.value) && stored.value.Status.InstanceID == "" ==>
      (IssuesCreate(Pass(stored, env).effects) <==> env.updateErr.None?)
  {
    var p := Pass(stored, env);
    if env.getErr.None? && stored.Some? && !BeingDeleted(stored.value) && stored.value.Status.InstanceID == "" && env.updateErr.None? {
      assert p.effects[1].RunCall?;
      assert p.effects[1] in p.effects;
    }
  }

  /**
   * On the creation path the token is appended (one more copy each time) and
   * persisted before the run request; a failed persist ends the pass without
   * a run, asking for a retry.
   */
  lemma FinalizerPersistedBeforeCreate(obj: Ec2Instance, env: Env)
    requires env.getErr.None? && !BeingDeleted(obj) && obj.Status.InstanceID == ""
    ensures var p := Pass(Some(obj), env);
      && |p.effects| >= 1
      && p.effects[0] == UpdateCall(obj.Finalizers + [FinalizerToken], env.updateErr.None?)
      && (env.updateErr.Some? ==> p == PassResult(Some(obj), [p.effects[0]], Returned(RequeueNow, env.updateErr)))
      && (env.updateErr.None? ==>
            && |p.effects| >= 2 && p.effects[1] == RunCall(RunRequest(obj.Spec))
            && p.stored.Some? && p.stored.value.Finalizers == obj.Finalizers + [FinalizerToken])
  {
  }

  /**
   * After the finalizer is persisted: a created instance's six fields become
   * the status and are persisted, and the pass asks to be run again in one
   * second; a create error is returned with no status write; (nil, nil) panics.
   */
  lemma CreationOutcomes(obj: Ec2Instance, env: Env)
    requires env.getErr.None? && !BeingDeleted(obj) && obj.Status.InstanceID == "" && env.updateErr.None?
    ensures var p := Pass(Some(obj), env);
      var c := CreateEc2Instance(env.run, env.runningWait, env.createDescribe);
      var guarded := obj.(Finalizers := obj.Finalizers + [FinalizerToken]);
      var calls := [UpdateCall(guarded.Finalizers, true), RunCall(RunRequest(obj.Spec))];
      && (c.Value? && c.value.info.Some? ==>
            && p.effects == calls + [StatusUpdateCall(StatusOf(c.value.info.value), env.statusUpdateErr.None?)]
            && (env.statusUpdateErr.None? ==>
                  && p.stored == Some(guarded.(Status := StatusOf(c.value.info.value)))
                  && p.outcome == Returned(RequeueAfterOneSecond, None))
            && (env.statusUpdateErr.Some? ==>
                  p.stored == Some(guarded) && p.outcome == Returned(EmptyResult, env.statusUpdateErr)))
      && (c.Value? && c.value.err.Some? ==>
            p == PassResult(Some(guarded), calls, Returned(EmptyResult, c.value.err)))
      && (c.Value? && c.value.info.None? && c.value.err.None? ==>
            p == PassResult(Some(guarded), calls, Panicked(CreatedInfoNil)))
      && (c.Panic? ==> p == PassResult(Some(guarded), calls, Panicked(c.site)))
  {
  }

  /**
   * A describe error other than not-found clears all six status fields,
   * persists them, and asks for a retry with the persist's error.
   */
  lemma DescribeErrorClearsStatus(obj: Ec2Instance, env: Env)
    requires env.getErr.None? && !BeingDeleted(obj) && obj.Status.InstanceID != ""
    requires env.describe.Failure? && !IsInstanceNotFound(env.describe.error)
    ensures var p := Pass(Some(obj), env);
      && p.effects == [DescribeCall(ExistsQuery(obj.Status.InstanceID)), StatusUpdateCall(EmptyStatus, env.statusUpdateErr.None?)]
      && p.outcome == Returned(RequeueNow, env.statusUpdateErr)
      && p.stored == if env.statusUpdateErr.None? then Some(obj.(Status := EmptyStatus)) else Some(obj)
  {
  }

  /** Once the cleared status is persisted, the next pass that reads it takes the creation path. */
  lemma ClearedStatusLeadsToCreation(obj: Ec2Instance, env: Env, next: Env)
    requires env.getErr.None? && !BeingDeleted(obj) && obj.Status.InstanceID != ""
    requires env.describe.Failure? && !IsInstanceNotFound(env.describe.error)
    requires env.statusUpdateErr.None? && next.getErr.None?
    ensures var after := Pass(Pass(Some(obj), env).stored, next);
      && |after.effects| >= 1
      && after.effects[0] == UpdateCall(obj.Finalizers + [FinalizerToken], next.updateErr.None?)
      && (next.updateErr.None? ==> IssuesCreate(after.effects))
  {
    DescribeErrorClearsStatus(obj, env);
    var cleared := obj.(Status := EmptyStatus);
    FinalizerPersistedBeforeCreate(cleared, next);
    CreateOnlyWithoutInstanceID(Some(cleared), next);
  }

  /**
   * Verification without a describe error: an instance not found running keeps
   * its id, is marked "Unknown" with no public IP, and the write's error is
   * dropped; a running instance in state "Unknown" gets state and public IP
   * from the record; any other running instance is left alone, with no write.
   * None of them asks for a retry.
   */
  lemma VerificationWithoutError(obj: Ec2Instance, env: Env)
    requires env.getErr.None? && !BeingDeleted(obj) && obj.Status.InstanceID != ""
    requires CheckEC2InstanceExists(env.describe).Value? && CheckEC2InstanceExists(env.describe).value.err.None?
    ensures var p := Pass(Some(obj), env);
      var check := CheckEC2InstanceExists(env.describe).value;
      var describe := DescribeCall(ExistsQuery(obj.Status.InstanceID));
      && (!check.instanceExists ==>
            var marked := obj.Status.(State := Unknown, PublicIP := "");
            && marked.InstanceID == obj.Status.InstanceID
            && p.effects == [describe, StatusUpdateCall(marked, env.statusUpdateErr.None?)]
            && p.outcome == Returned(EmptyResult, None)
            && p.stored == if env.statusUpdateErr.None? then Some(obj.(Status := marked)) else Some(obj))
      && (check.instanceExists && obj.Status.State == Unknown ==>
            var record := check.record.value;
            && (record.State.None? ==> p == PassResult(Some(obj), [describe], Panicked(RecordStateNil)))
            && (record.State.Some? && record.PublicIpAddress.None? ==> p == PassResult(Some(obj), [describe], Panicked(RecordPublicIpNil)))
            && (record.State.Some? && record.PublicIpAddress.Some? ==>
                  var refreshed := obj.Status.(State := record.State.value, PublicIP := record.PublicIpAddress.value);
                  && p.effects == [describe, StatusUpdateCall(refreshed, env.statusUpdateErr.None?)]
                  && p.outcome == Returned(EmptyResult, None)
                  && p.stored == if env.statusUpdateErr.None? then Some(obj.(Status := refreshed)) else Some(obj)))
      && (check.instanceExists && obj.Status.State != Unknown ==>
            p == PassResult(Some(obj), [describe], Returned(EmptyResult, None)))
  {
  }

  /** A describe that finds nothing (by error code or by an empty answer) never clears the instance id. */
  lemma NotFoundKeepsInstanceID(obj: Ec2Instance, env: Env)
    requires env.getErr.None? && !BeingDeleted(obj) && obj.Status.InstanceID != ""
    requires (env.describe.Failure? && IsInstanceNotFound(env.describe.error))
          || (env.describe.Success? && env.describe.value.Reservations == [])
    ensures var p := Pass(Some(obj), env);
      && p.stored.Some? && p.stored.value.Status.InstanceID == obj.Status.InstanceID
      && p.stored.value.Status.State == (if env.statusUpdateErr.None? then Unknown else obj.Status.State)
      && !IssuesCreate(p.effects)
      && p.outcome == Returned(EmptyResult, None)
  {
    var p := Pass(Some(obj), env);
    assert p.effects[0].DescribeCall? && p.effects[1].StatusUpdateCall?;
  }
}
