/**
 * The provider client of aws.go with every SDK call replaced by its outcome:
 * how describe, run and terminate results are classified and projected.
 * Building the client (credentials, region, process exit) and the waiters'
 * clocks are outside; a waiter is just a call that may fail.
 */
module Aws {
  import opened Wrappers
  import opened GoRuntime
  import opened Strings
  import opened Helpers
  import opened Resource

  /** An EC2 instance record; every field the code reads is a pointer that may be nil. */
  datatype Instance = Instance(
    InstanceId: Option<string>,
    State: Option<string>,
    PublicIpAddress: Option<string>,
    PrivateIpAddress: Option<string>,
    PublicDnsName: Option<string>,
    PrivateDnsName: Option<string>)

  datatype Reservation = Reservation(Instances: seq<Instance>)

  datatype DescribeInstancesOutput = DescribeInstancesOutput(Reservations: seq<Reservation>)

  datatype Filter = Filter(Name: string, Values: seq<string>)

  datatype DescribeInstancesInput = DescribeInstancesInput(InstanceIds: seq<string>, Filters: seq<Filter>)

  datatype RunInstancesInput = RunInstancesInput(
    ImageId: string,
    InstanceType: string,
    KeyName: string,
    SubnetId: string,
    MinCount: int,
    MaxCount: int)

  datatype RunInstancesOutput = RunInstancesOutput(Instances: seq<Instance>)

  /** One entry of a terminate response; `CurrentState` is a pointer. */
  datatype InstanceStateChange = InstanceStateChange(CurrentState: Option<string>)

  datatype TerminateInstancesOutput = TerminateInstancesOutput(TerminatingInstances: seq<InstanceStateChange>)

  datatype TerminateInstancesInput = TerminateInstancesInput(InstanceIds: seq<string>)

  /** checkEC2InstanceExists's (bool, *ec2types.Instance, error). */
  datatype Existence = Existence(instanceExists: bool, record: Option<Instance>, err: Option<Error>)

  /** createEc2Instance's (*CreatedInstanceInfo, error). */
  datatype Creation = Creation(info: Option<CreatedInstanceInfo>, err: Option<Error>)

  /** deleteEc2Instance's (bool, error). */
  datatype Deletion = Deletion(deleted: bool, err: Option<Error>)

  /** The error code whose presence in a describe error means "no such instance". */
  const NotFoundCode := "InvalidInstanceID.NotFound"
  const StateFilterName := "instance-state-name"
  const Running := "running"

  const CreateFailedPrefix := "failed to create EC2 instance: "
  const WaitFailedPrefix := "failed to wait for instance to be running: "
  const DescribeFailedPrefix := "failed to describe EC2 instance: "

  /** A describe error that reports the instance id as unknown. */
  predicate IsInstanceNotFound(e: Error) {
    Contains(e.message, NotFoundCode)
  }

  /** The describe request checkEC2InstanceExists sends for `instanceID`. */
  function ExistsQuery(instanceID: string): (q: DescribeInstancesInput)
    ensures q.InstanceIds == [instanceID]
    ensures q.Filters == [Filter(StateFilterName, [Running])]
  {
    DescribeInstancesInput([instanceID], [Filter(StateFilterName, [Running])])
  }

  /** Whether a record passes one filter; only the state filter this code sends is modelled. */
  predicate FilterHolds(f: Filter, inst: Instance) {
    f.Name == StateFilterName && inst.State.Some? && inst.State.value in f.Values
  }

  /** Whether a describe request selects a record: its id is listed (if any are) and every filter holds. */
  predicate Selects(q: DescribeInstancesInput, inst: Instance) {
    && (q.InstanceIds == [] || (inst.InstanceId.Some? && inst.InstanceId.value in q.InstanceIds))
    && forall f :: f in q.Filters ==> FilterHolds(f, inst)
  }

  /** The existence query selects exactly the record of that one id, and only while it is running. */
  lemma ExistsQuerySelectsRunningInstance(instanceID: string, inst: Instance)
    ensures Selects(ExistsQuery(instanceID), inst) <==> inst.InstanceId == Some(instanceID) && inst.State == Some(Running)
  {
    var q := ExistsQuery(instanceID);
    if inst.InstanceId == Some(instanceID) && inst.State == Some(Running) {
      forall f | f in q.Filters ensures FilterHolds(f, inst) {
      }
    }
    if Selects(q, inst) {
      assert q.Filters[0] in q.Filters;
    }
  }

  /**
   * checkEC2InstanceExists, given the outcome of the describe call. An error
   * naming "InvalidInstanceID.NotFound" counts as "not there", any other error
   * is passed on; an empty answer is "not there"; otherwise the first instance
   * of the first reservation is the record, taken without a length check.
   */
  function CheckEC2InstanceExists(describe: Result<DescribeInstancesOutput, Error>): (r: Outcome<Existence>)
    ensures r.Panic? <==> describe.Success? && |describe.value.Reservations| > 0 && |describe.value.Reservations[0].Instances| == 0
    ensures r.Panic? ==> r.site == FirstReservationEmpty
    ensures r.Value? ==> (r.value.instanceExists <==> r.value.record.Some?)
    ensures r.Value? && r.value.instanceExists ==>
      && r.value.err.None? && describe.Success?
      && |describe.value.Reservations| > 0 && |describe.value.Reservations[0].Instances| > 0
      && r.value.record == Some(describe.value.Reservations[0].Instances[0])
    ensures r.Value? && r.value.err.Some? ==>
      !r.value.instanceExists && describe.Failure? && r.value.err == Some(describe.error) && !IsInstanceNotFound(describe.error)
    ensures describe.Failure? ==>
      r == Value(Existence(false, None, if IsInstanceNotFound(describe.error) then None else Some(describe.error)))
    ensures describe.Success? && describe.value.Reservations == [] ==> r == Value(Existence(false, None, None))
    ensures describe.Success? && |describe.value.Reservations| > 0 && |describe.value.Reservations[0].Instances| > 0 ==>
      r == Value(Existence(true, Some(describe.value.Reservations[0].Instances[0]), None))
  {
    match describe
    case Failure(e) =>
      if IsInstanceNotFound(e) then Value(Existence(false, None, None))
      else Value(Existence(false, None, Some(e)))
    case Success(out) =>
      if |out.Reservations| == 0 then Value(Existence(false, None, None))
      else if |out.Reservations[0].Instances| == 0 then Panic(FirstReservationEmpty)
      else Value(Existence(true, Some(out.Reservations[0].Instances[0]), None))
  }

  /** An AWS error message carrying the not-found code is classified as "not there", without an error. */
  lemma NotFoundMessageIsNoInstance(prefix: string, suffix: string)
    ensures CheckEC2InstanceExists(Failure(Error(prefix + NotFoundCode + suffix))) == Value(Existence(false, None, None))
  {
    var m := prefix + NotFoundCode + suffix;
    assert m[|prefix|..|prefix| + |NotFoundCode|] == NotFoundCode;
    assert OccursAt(m, NotFoundCode, |prefix|);
  }

  /** The run request: one instance exactly, from the spec's image, type, key pair and subnet. */
  function RunRequest(spec: Ec2InstanceSpec): (q: RunInstancesInput)
    ensures q.MinCount == 1 && q.MaxCount == 1
    ensures q.ImageId == spec.AMIId && q.InstanceType == spec.InstanceType
    ensures q.KeyName == spec.KeyPair && q.SubnetId == spec.Subnet
  {
    RunInstancesInput(spec.AMIId, spec.InstanceType, spec.KeyPair, spec.Subnet, 1, 1)
  }

  /**
   * The info built from a run record's id and a described record: state from
   * the described record, the four addresses through DerefString.
   */
  function ProjectInfo(instanceID: string, described: Instance): (info: CreatedInstanceInfo)
    requires described.State.Some?
    ensures info.InstanceID == instanceID && info.State == described.State.value
    ensures info.PublicIP == DerefString(described.PublicIpAddress)
    ensures info.PrivateIP == DerefString(described.PrivateIpAddress)
    ensures info.PublicDNS == DerefString(described.PublicDnsName)
    ensures info.PrivateDNS == DerefString(described.PrivateDnsName)
  {
    CreatedInstanceInfo(
      instanceID,
      described.State.value,
      DerefString(described.PublicIpAddress),
      DerefString(described.PrivateIpAddress),
      DerefString(described.PublicDnsName),
      DerefString(described.PrivateDnsName))
  }

  /**
   * createEc2Instance, given the outcomes of RunInstances, of the running-wait
   * and of the follow-up describe, in that order.
   */
  function CreateEc2Instance(
    run: Result<RunInstancesOutput, Error>,
    runningWait: Option<Error>,
    describe: Result<DescribeInstancesOutput, Error>): (r: Outcome<Creation>)
    ensures r.Value? ==> r.value.info.None? || r.value.err.None?
    ensures r.Panic? <==>
      && run.Success? && |run.value.Instances| > 0
      && (|| run.value.Instances[0].InstanceId.None?
          || (&& runningWait.None? && describe.Success?
              && (|| |describe.value.Reservations| == 0 || |describe.value.Reservations[0].Instances| == 0
                  || describe.value.Reservations[0].Instances[0].PublicDnsName.None?
                  || describe.value.Reservations[0].Instances[0].State.None?)))
    ensures r.Panic? && run.Success? && |run.value.Instances| > 0 && run.value.Instances[0].InstanceId.None? ==>
      r.site == RunInstanceIdNil
    ensures r.Panic? && run.value.Instances[0].InstanceId.Some? ==>
      var described := describe.value.Reservations;
      && (|described| == 0 || |described[0].Instances| == 0 ==> r.site == DescribedInstanceMissing)
      && (|described| > 0 && |described[0].Instances| > 0 ==>
            && (described[0].Instances[0].PublicDnsName.None? ==> r.site == PublicDnsNameNil)
            && (described[0].Instances[0].PublicDnsName.Some? ==> r.site == DescribedStateNil))
    ensures run.Failure? ==> r == Value(Creation(None, Some(Wrap(CreateFailedPrefix, run.error))))
    ensures r.Value? && r.value.info.None? && r.value.err.None? <==> run.Success? && run.value.Instances == []
    ensures r.Value? && r.value.err.Some? ==>
      || (run.Failure? && r.value.err == Some(Wrap(CreateFailedPrefix, run.error)))
      || (run.Success? && runningWait.Some? && r.value.err == Some(Wrap(WaitFailedPrefix, runningWait.value)))
      || (run.Success? && runningWait.None? && describe.Failure? && r.value.err == Some(Wrap(DescribeFailedPrefix, describe.error)))
    ensures run.Success? && |run.value.Instances| > 0 && run.value.Instances[0].InstanceId.Some? && runningWait.Some? ==>
      r == Value(Creation(None, Some(Wrap(WaitFailedPrefix, runningWait.value))))
    ensures run.Success? && |run.value.Instances| > 0 && run.value.Instances[0].InstanceId.Some? && runningWait.None? && describe.Failure? ==>
      r == Value(Creation(None, Some(Wrap(DescribeFailedPrefix, describe.error))))
    ensures r.Value? && r.value.info.Some? ==>
      && run.Success? && runningWait.None? && describe.Success?
      && |run.value.Instances| > 0 && run.value.Instances[0].InstanceId.Some?
      && |describe.value.Reservations| > 0 && |describe.value.Reservations[0].Instances| > 0
      && var described := describe.value.Reservations[0].Instances[0];
         && described.State.Some? && described.PublicDnsName.Some?
         && r.value.info.value == ProjectInfo(run.value.Instances[0].InstanceId.value, described)
  {
    match run
    case Failure(e) => Value(Creation(None, Some(Wrap(CreateFailedPrefix, e))))
    case Success(out) =>
      if |out.Instances| == 0 then Value(Creation(None, None))
      else
        var inst := out.Instances[0];
        if inst.InstanceId.None? then Panic(RunInstanceIdNil)
        else if runningWait.Some? then Value(Creation(None, Some(Wrap(WaitFailedPrefix, runningWait.value))))
        else match describe
          case Failure(e) => Value(Creation(None, Some(Wrap(DescribeFailedPrefix, e))))
          case Success(described) =>
            if |described.Reservations| == 0 || |described.Reservations[0].Instances| == 0 then Panic(DescribedInstanceMissing)
            else
              var instance := described.Reservations[0].Instances[0];
              if instance.PublicDnsName.None? then Panic(PublicDnsNameNil)
              else if instance.State.None? then Panic(DescribedStateNil)
              else Value(Creation(Some(ProjectInfo(inst.InstanceId.value, instance)), None))
  }

  /**
   * Creation returns an info exactly when every call succeeded, the run record
   * has an id, and the described record has a state and a public DNS name.
   */
  lemma CreateSucceedsExactlyWhen(
    run: Result<RunInstancesOutput, Error>,
    runningWait: Option<Error>,
    describe: Result<DescribeInstancesOutput, Error>)
    ensures (var r := CreateEc2Instance(run, runningWait, describe); r.Value? && r.value.info.Some?) <==>
      && run.Success? && |run.value.Instances| > 0 && run.value.Instances[0].InstanceId.Some?
      && runningWait.None? && describe.Success?
      && |describe.value.Reservations| > 0 && |describe.value.Reservations[0].Instances| > 0
      && describe.value.Reservations[0].Instances[0].State.Some?
      && describe.value.Reservations[0].Instances[0].PublicDnsName.Some?
  {
  }

  /**
   * A described record with an id, a state and both IPs but no DNS names
   * does not project to empty DNS fields: creation panics on the print of the
   * missing public DNS name, and the projection alone would give "<nil>".
   */
  lemma RecordWithoutDnsDoesNotProjectToEmpty()
    ensures var described := Instance(Some("i-123"), Some("running"), Some("1.2.3.4"), Some("10.0.0.5"), None, None);
      && CreateEc2Instance(Success(RunInstancesOutput([Instance(Some("i-123"), None, None, None, None, None)])), None,
           Success(DescribeInstancesOutput([Reservation([described])]))) == Panic(PublicDnsNameNil)
      && ProjectInfo("i-123", described) == CreatedInstanceInfo("i-123", "running", "1.2.3.4", "10.0.0.5", NilText, NilText)
  {
  }

  /**
   * deleteEc2Instance, given the outcomes of TerminateInstances and of the
   * terminated-wait.
   */
  function DeleteEc2Instance(terminate: Result<TerminateInstancesOutput, Error>, terminatedWait: Option<Error>): (r: Outcome<Deletion>)
    ensures r.Value? ==> (r.value.deleted <==> r.value.err.None?)
    ensures r.Panic? <==>
      terminate.Success? && (terminate.value.TerminatingInstances == [] || terminate.value.TerminatingInstances[0].CurrentState.None?)
    ensures r.Panic? ==> r.site == TerminatingInstanceMissing
    ensures r == Value(Deletion(true, None)) <==> TerminationConfirmed(terminate, terminatedWait)
    ensures terminate.Failure? ==> r == Value(Deletion(false, Some(terminate.error)))
    ensures r.Value? && r.value.err.Some? && terminate.Success? ==> r.value.err == terminatedWait
  {
    match terminate
    case Failure(e) => Value(Deletion(false, Some(e)))
    case Success(out) =>
      if |out.TerminatingInstances| == 0 || out.TerminatingInstances[0].CurrentState.None? then Panic(TerminatingInstanceMissing)
      else if terminatedWait.Some? then Value(Deletion(false, terminatedWait))
      else Value(Deletion(true, None))
  }

  /** The provider accepted the termination, reported a state for it, and the terminated-wait succeeded. */
  predicate TerminationConfirmed(terminate: Result<TerminateInstancesOutput, Error>, terminatedWait: Option<Error>) {
    && terminate.Success?
    && |terminate.value.TerminatingInstances| > 0
    && terminate.value.TerminatingInstances[0].CurrentState.Some?
    && terminatedWait.None?
  }
}
