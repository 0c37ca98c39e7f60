/**
 * Concrete runs: the end-to-end life of one resource, and two runs in which
 * the code as written asks AWS for a second instance for the same resource.
 */
module Scenarios {
  import opened Wrappers
  import opened GoRuntime
  import opened Resource
  import opened Aws
  import opened Controller
  import opened Traces

  const Spec := Ec2InstanceSpec("ami-1", "t3.micro", "", "subnet-1", "us-east-1")

  /** A resource as first declared: no deletion, no finalizer, empty status. */
  const Declared := Ec2Instance(None, [], Spec, EmptyStatus)

  /** What RunInstances reports right after launch. */
  const Launched := Instance(Some("i-abc"), Some("pending"), None, Some("10.0.0.5"), None, Some("ip-10-0-0-5"))

  /** What the describe after the running-wait reports. */
  const Described := Instance(Some("i-abc"), Some("running"), Some("1.2.3.4"), Some("10.0.0.5"), Some("ec2-1-2-3-4"), Some("ip-10-0-0-5"))

  const CreatedStatus := Ec2InstanceStatus("i-abc", "running", "1.2.3.4", "10.0.0.5", "ec2-1-2-3-4", "ip-10-0-0-5")

  /** A transient describe failure: throttling, not a missing instance. */
  const Throttled := Error("RequestLimitExceeded")

  const Conflict := Error("the object has been modified")

  /** Every call succeeds; a fresh instance is launched and found running. */
  function QuietEnv(): Env {
    Env(None,
      Success(TerminateInstancesOutput([InstanceStateChange(Some("shutting-down"))])), None,
      Success(DescribeInstancesOutput([Reservation([Described])])),
      Success(RunInstancesOutput([Launched])), None,
      Success(DescribeInstancesOutput([Reservation([Described])])),
      None, None)
  }

  /**
   * End to end: the first pass creates "i-abc" and persists its status, then
   * the user deletes the resource, and the next pass terminates the instance,
   * drops the finalizer, and the resource is removed.
   */
  lemma EndToEnd()
    ensures Run(Some(Declared), [ReconcileStep(QuietEnv())]).stored
      == Some(Declared.(Finalizers := [FinalizerToken], Status := CreatedStatus))
    ensures Run(Some(Declared), [ReconcileStep(QuietEnv()), DeleteRequest(7), ReconcileStep(QuietEnv())]).stored == None
  {
    var env := QuietEnv();
    var c := CreateEc2Instance(env.run, env.runningWait, env.createDescribe);
    assert c.Value? && c.value.info.Some?;
    assert StatusOf(c.value.info.value) == CreatedStatus;
    CreationOutcomes(Declared, env);
    assert Declared.Finalizers + [FinalizerToken] == [FinalizerToken];
    var created := Declared.(Finalizers := [FinalizerToken], Status := CreatedStatus);
    assert Pass(Some(Declared), env).stored == Some(created);
    assert Run(Some(created), []) == Trace(Some(created), []);
    assert [ReconcileStep(env)][1..] == [];
    assert Run(Some(Declared), [ReconcileStep(env)]).stored == Some(created);

    var deleting := created.(DeletionTimestamp := Some(7));
    assert RequestDeletion(Some(created), 7) == Some(deleting);
    assert TerminationConfirmed(env.terminate, env.terminatedWait);
    DeletionAfterConfirmedTermination(deleting, env);
    assert WithoutFinalizer([FinalizerToken], FinalizerToken) == [];
    assert Pass(Some(deleting), env).stored == None;

    var steps := [ReconcileStep(env), DeleteRequest(7), ReconcileStep(env)];
    assert steps[1..] == [DeleteRequest(7), ReconcileStep(env)];
    assert steps[1..][1..] == [ReconcileStep(env)];
    assert steps[1..][1..][1..] == [];
    assert Run(None, []).stored == None;
    assert Run(Some(deleting), steps[1..][1..]).stored == None;
    assert Run(Some(created), steps[1..]).stored == None;
  }

  /** The effects of a creation pass that launched one instance hold one run request. */
  lemma {:induction false} CreationCallsCountOne(finalizers: seq<string>, request: RunInstancesInput, tail: seq<Effect>)
    requires forall e :: e in tail ==> !e.RunCall?
    ensures CreateCount([UpdateCall(finalizers, true), RunCall(request)] + tail) == 1
  {
    var all := [UpdateCall(finalizers, true), RunCall(request)] + tail;
    assert all[1..] == [RunCall(request)] + tail;
    assert all[1..][1..] == tail;
    NoCreateMeansZeroCount(tail);
  }

  /**
   * A lost status write after a successful launch: the next pass still reads
   * an empty instance id and launches a second instance.
   */
  lemma LostStatusWriteCreatesTwice()
    ensures CreateCount(Run(Some(Declared), [ReconcileStep(QuietEnv().(statusUpdateErr := Some(Conflict))), ReconcileStep(QuietEnv())]).effects) == 2
  {
    var lost := QuietEnv().(statusUpdateErr := Some(Conflict));
    var c := CreateEc2Instance(lost.run, lost.runningWait, lost.createDescribe);
    assert c.Value? && c.value.info.Some?;
    var info := c.value.info.value;
    CreationOutcomes(Declared, lost);
    assert Declared.Finalizers + [FinalizerToken] == [FinalizerToken];
    var first := Pass(Some(Declared), lost);
    var guarded := Declared.(Finalizers := [FinalizerToken]);
    assert first.stored == Some(guarded);
    CreationCallsCountOne([FinalizerToken], RunRequest(Spec), [StatusUpdateCall(StatusOf(info), false)]);
    CreationOutcomes(guarded, QuietEnv());
    var second := Pass(first.stored, QuietEnv());
    CreationCallsCountOne([FinalizerToken, FinalizerToken], RunRequest(Spec), [StatusUpdateCall(StatusOf(info), true)]);
    var steps := [ReconcileStep(lost), ReconcileStep(QuietEnv())];
    assert steps[1..] == [ReconcileStep(QuietEnv())];
    assert steps[1..][1..] == [];
    assert second.effects + [] == second.effects;
    assert Apply(first.stored, steps[1..][0]) == Trace(second.stored, second.effects);
    assert Run(first.stored, steps[1..]).effects == second.effects;
    assert Apply(Some(Declared), steps[0]) == Trace(first.stored, first.effects);
    assert Run(Some(Declared), steps).effects == first.effects + second.effects;
    CreateCountAppend(first.effects, second.effects);
  }

  /** The running-wait gives up before the instance is running. */
  const WaitTimeout := Error("exceeded max wait time for InstanceRunning waiter")

  /**
   * An instance launched but not recorded: RunInstances reports an instance
   * with an id, then the running-wait or the describe fails, or creation
   * crashes. The pass returns without a status write, so the next pass reads
   * an empty id again and asks for a second instance.
   */
  lemma LaunchedButUnrecordedIsRepeated(obj: Ec2Instance, first: Env, second: Env)
    requires !BeingDeleted(obj) && obj.Status.InstanceID == ""
    requires first.getErr.None? && first.updateErr.None? && second.getErr.None? && second.updateErr.None?
    requires first.run.Success? && |first.run.value.Instances| > 0 && first.run.value.Instances[0].InstanceId.Some?
    requires var c := CreateEc2Instance(first.run, first.runningWait, first.createDescribe);
      c.Panic? || c.value.err.Some?
    ensures CreateCount(Run(Some(obj), [ReconcileStep(first), ReconcileStep(second)]).effects) == 2
  {
    var guarded := obj.(Finalizers := obj.Finalizers + [FinalizerToken]);
    CreationOutcomes(obj, first);
    var p1 := Pass(Some(obj), first);
    assert p1.stored == Some(guarded);
    assert p1.effects == [UpdateCall(guarded.Finalizers, true), RunCall(RunRequest(obj.Spec))] + [];
    CreationCallsCountOne(guarded.Finalizers, RunRequest(obj.Spec), []);
    CreationOutcomes(guarded, second);
    var p2 := Pass(p1.stored, second);
    var calls2 := [UpdateCall(guarded.Finalizers + [FinalizerToken], true), RunCall(RunRequest(obj.Spec))];
    match CreateEc2Instance(second.run, second.runningWait, second.createDescribe)
    case Value(Creation(Some(info), _)) =>
      CreationCallsCountOne(guarded.Finalizers + [FinalizerToken], RunRequest(obj.Spec),
        [StatusUpdateCall(StatusOf(info), second.statusUpdateErr.None?)]);
    case _ =>
      assert p2.effects == calls2 + [];
      CreationCallsCountOne(guarded.Finalizers + [FinalizerToken], RunRequest(obj.Spec), []);
    var steps := [ReconcileStep(first), ReconcileStep(second)];
    assert steps[1..] == [ReconcileStep(second)];
    assert steps[1..][1..] == [];
    assert p2.effects + [] == p2.effects;
    assert Run(p1.stored, steps[1..]).effects == p2.effects;
    assert Run(Some(obj), steps).effects == p1.effects + p2.effects;
    CreateCountAppend(p1.effects, p2.effects);
  }

  /** A running-wait that times out after launch leads to a second run request. */
  lemma WaitTimeoutCreatesTwice()
    ensures CreateCount(Run(Some(Declared), [ReconcileStep(QuietEnv().(runningWait := Some(WaitTimeout))), ReconcileStep(QuietEnv())]).effects) == 2
  {
    LaunchedButUnrecordedIsRepeated(Declared, QuietEnv().(runningWait := Some(WaitTimeout)), QuietEnv());
  }

  /**
   * A transient describe error while the instance runs: the status is
   * cleared, and the pass after launches a second instance although the
   * first was never terminated.
   */
  lemma TransientDescribeErrorCreatesTwice()
    ensures var steps := [ReconcileStep(QuietEnv()), ReconcileStep(QuietEnv().(describe := Failure(Throttled))), ReconcileStep(QuietEnv())];
      CreateCount(Run(Some(Declared), steps).effects) == 2
  {
    var blip := QuietEnv().(describe := Failure(Throttled));
    var c := CreateEc2Instance(blip.run, blip.runningWait, blip.createDescribe);
    assert c.Value? && c.value.info.Some?;
    var info := c.value.info.value;
    CreationOutcomes(Declared, QuietEnv());
    assert Declared.Finalizers + [FinalizerToken] == [FinalizerToken];
    var p1 := Pass(Some(Declared), QuietEnv());
    var created := Declared.(Finalizers := [FinalizerToken], Status := StatusOf(info));
    assert p1.stored == Some(created);
    CreationCallsCountOne([FinalizerToken], RunRequest(Spec), [StatusUpdateCall(StatusOf(info), true)]);
    assert !IsInstanceNotFound(Throttled);
    DescribeErrorClearsStatus(created, blip);
    var p2 := Pass(p1.stored, blip);
    var cleared := created.(Status := EmptyStatus);
    assert p2.stored == Some(cleared);
    NoCreateMeansZeroCount(p2.effects);
    CreationOutcomes(cleared, QuietEnv());
    var p3 := Pass(p2.stored, QuietEnv());
    CreationCallsCountOne([FinalizerToken, FinalizerToken], RunRequest(Spec), [StatusUpdateCall(StatusOf(info), true)]);
    var steps := [ReconcileStep(QuietEnv()), ReconcileStep(blip), ReconcileStep(QuietEnv())];
    assert steps[1..] == [ReconcileStep(blip), ReconcileStep(QuietEnv())];
    assert steps[1..][1..] == [ReconcileStep(QuietEnv())];
    assert steps[1..][1..][1..] == [];
    assert p3.effects + [] == p3.effects;
    assert Apply(p2.stored, steps[1..][1..][0]) == Trace(p3.stored, p3.effects);
    assert Run(p2.stored, steps[1..][1..]).effects == p3.effects;
    assert Apply(p1.stored, steps[1..][0]) == Trace(p2.stored, p2.effects);
    assert Run(p1.stored, steps[1..]).effects == p2.effects + p3.effects;
    assert Apply(Some(Declared), steps[0]) == Trace(p1.stored, p1.effects);
    assert Run(Some(Declared), steps).effects == p1.effects + (p2.effects + p3.effects);
    CreateCountAppend(p2.effects, p3.effects);
    CreateCountAppend(p1.effects, p2.effects + p3.effects);
  }
}
