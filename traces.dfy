/**
 * Sequences of reconcile passes, interleaved with deletion requests made by
 * the user through the API server, one at a time as the dispatcher runs
 * them for one resource.
 */
module Traces {
  import opened Wrappers
  import opened GoRuntime
  import opened Resource
  import opened Aws
  import opened Controller

  /** One event in the life of a resource: a reconcile pass, or a delete request at some time. */
  datatype Step = ReconcileStep(env: Env) | DeleteRequest(at: Timestamp)

  /** The store after a run of steps, and every call the passes issued. */
  datatype Trace = Trace(stored: Option<Ec2Instance>, effects: seq<Effect>)

  /**
   * The API server's handling of a delete: a resource without finalizers is
   * removed at once; otherwise its deletion timestamp is set, once.
   */
  function RequestDeletion(stored: Option<Ec2Instance>, at: Timestamp): (r: Option<Ec2Instance>)
    ensures r.Some? ==> stored.Some? && BeingDeleted(r.value) && r.value.Finalizers == stored.value.Finalizers
    ensures r.Some? ==> r.value.Status == stored.value.Status
  {
    match stored
    case None => None
    case Some(obj) =>
      if obj.Finalizers == [] then None
      else if BeingDeleted(obj) then stored
      else Some(obj.(DeletionTimestamp := Some(at)))
  }

  function Apply(stored: Option<Ec2Instance>, step: Step): Trace {
    match step
    case ReconcileStep(env) => var p := Pass(stored, env); Trace(p.stored, p.effects)
    case DeleteRequest(at) => Trace(RequestDeletion(stored, at), [])
  }

  /** The steps applied in order, starting from `stored`. */
  function Run(stored: Option<Ec2Instance>, steps: seq<Step>): Trace
    decreases |steps|
  {
    if steps == [] then Trace(stored, [])
    else
      var first := Apply(stored, steps[0]);
      var rest := Run(first.stored, steps[1..]);
      Trace(rest.stored, first.effects + rest.effects)
  }

  /** How many run requests a sequence of calls holds. */
  function CreateCount(effects: seq<Effect>): nat {
    if effects == [] then 0
    else (if effects[0].RunCall? then 1 else 0) + CreateCount(effects[1..])
  }

  lemma {:induction false} CreateCountAppend(a: seq<Effect>, b: seq<Effect>)
    ensures CreateCount(a + b) == CreateCount(a) + CreateCount(b)
  {
    if a != [] {
      assert (a + b)[0] == a[0] && (a + b)[1..] == a[1..] + b;
      CreateCountAppend(a[1..], b);
    } else {
      assert a + b == b;
    }
  }

  lemma {:induction false} NoCreateMeansZeroCount(effects: seq<Effect>)
    requires !IssuesCreate(effects)
    ensures CreateCount(effects) == 0
  {
    if effects != [] {
      assert effects[0] in effects;
      assert forall e :: e in effects[1..] ==> e in effects;
      NoCreateMeansZeroCount(effects[1..]);
    }
  }

  // The finalizer guard.

  /** While a resource records an instance and is not being deleted, it carries the token. */
  predicate FinalizerGuarded(stored: Option<Ec2Instance>) {
    stored.Some? && !BeingDeleted(stored.value) && stored.value.Status.InstanceID != "" ==>
      FinalizerToken in stored.value.Finalizers
  }

  /** Every pass keeps the finalizer guard. */
  lemma PassKeepsFinalizerGuard(stored: Option<Ec2Instance>, env: Env)
    requires FinalizerGuarded(stored)
    ensures FinalizerGuarded(Pass(stored, env).stored)
  {
    if env.getErr.None? && stored.Some? && !BeingDeleted(stored.value) && stored.value.Status.InstanceID == "" {
      assert FinalizerToken in stored.value.Finalizers + [FinalizerToken];
    }
  }

  /**
   * The guard holds along every run that starts from a guarded store (a fresh
   * resource, with an empty status, is one).
   */
  lemma {:induction false} RunKeepsFinalizerGuard(stored: Option<Ec2Instance>, steps: seq<Step>)
    requires FinalizerGuarded(stored)
    ensures FinalizerGuarded(Run(stored, steps).stored)
    decreases |steps|
  {
    if steps != [] {
      var first := Apply(stored, steps[0]);
      if steps[0].ReconcileStep? {
        PassKeepsFinalizerGuard(stored, steps[0].env);
      }
      RunKeepsFinalizerGuard(first.stored, steps[1..]);
    }
  }

  /**
   * The pass over `stored` with `env` is a deletion pass (Get succeeded and
   * the resource is being deleted) whose terminate call was confirmed.
   */
  predicate ConfirmedDeletionPass(stored: Option<Ec2Instance>, env: Env) {
    env.getErr.None? && stored.Some? && BeingDeleted(stored.value)
      && TerminationConfirmed(env.terminate, env.terminatedWait)
  }

  /** Some reconcile step of the run, starting from `stored`, is a confirmed deletion pass. */
  predicate SomeConfirmedDeletion(stored: Option<Ec2Instance>, steps: seq<Step>) {
    exists k :: 0 <= k < |steps| && steps[k].ReconcileStep? && ConfirmedDeletionPass(Run(stored, steps[..k]).stored, steps[k].env)
  }

  /** The store before step k + 1 of a run is the store before step k of the run after its first step. */
  lemma RunPrefixAfterFirst(stored: Option<Ec2Instance>, steps: seq<Step>, k: nat)
    requires k < |steps|
    ensures Run(stored, steps[..k + 1]).stored == Run(Apply(stored, steps[0]).stored, steps[1..][..k]).stored
  {
    assert steps[..k + 1][0] == steps[0];
    assert steps[..k + 1][1..] == steps[1..][..k];
  }

  /** A confirmed deletion in the run after the first step is one in the whole run. */
  lemma {:induction false} ConfirmedDeletionInRest(stored: Option<Ec2Instance>, steps: seq<Step>)
    requires steps != [] && SomeConfirmedDeletion(Apply(stored, steps[0]).stored, steps[1..])
    ensures SomeConfirmedDeletion(stored, steps)
  {
    var first := Apply(stored, steps[0]).stored;
    var k :| 0 <= k < |steps[1..]| && steps[1..][k].ReconcileStep?
      && ConfirmedDeletionPass(Run(first, steps[1..][..k]).stored, steps[1..][k].env);
    RunPrefixAfterFirst(stored, steps, k);
    assert steps[k + 1] == steps[1..][k];
    assert 0 <= k + 1 < |steps| && steps[k + 1].ReconcileStep?
      && ConfirmedDeletionPass(Run(stored, steps[..k + 1]).stored, steps[k + 1].env);
  }

  /**
   * Deletion safety: a resource carrying the token loses it, or is removed,
   * only in a run where some deletion pass (over a resource being deleted)
   * had its termination confirmed.
   */
  lemma {:induction false} RemovalOnlyAfterConfirmedTermination(stored: Option<Ec2Instance>, steps: seq<Step>)
    requires stored.Some? && FinalizerToken in stored.value.Finalizers
    ensures var t := Run(stored, steps);
      (t.stored.None? || FinalizerToken !in t.stored.value.Finalizers) ==> SomeConfirmedDeletion(stored, steps)
    decreases |steps|
  {
    if steps != [] {
      var first := Apply(stored, steps[0]);
      var t := Run(stored, steps);
      if first.stored.Some? && FinalizerToken in first.stored.value.Finalizers {
        RemovalOnlyAfterConfirmedTermination(first.stored, steps[1..]);
        if t.stored.None? || FinalizerToken !in t.stored.value.Finalizers {
          ConfirmedDeletionInRest(stored, steps);
        }
      } else if steps[0].ReconcileStep? {
        FinalizerLeavesOnlyAfterConfirmedTermination(stored, steps[0].env);
        assert steps[..0] == [];
        assert ConfirmedDeletionPass(Run(stored, steps[..0]).stored, steps[0].env);
      }
    }
  }

  /** A resource being deleted (or gone) stays so: no pass and no request undoes a deletion timestamp. */
  predicate DeletingOrGone(stored: Option<Ec2Instance>) {
    stored.None? || BeingDeleted(stored.value)
  }

  /** A pass never clears a deletion timestamp and never brings a removed resource back. */
  lemma PassKeepsDeletion(stored: Option<Ec2Instance>, env: Env)
    requires DeletingOrGone(stored)
    ensures DeletingOrGone(Pass(stored, env).stored)
  {
  }

  /** Once deletion has been requested, no run of steps ever asks AWS for an instance again. */
  lemma {:induction false} NoCreateOnceDeletionRequested(stored: Option<Ec2Instance>, steps: seq<Step>)
    requires DeletingOrGone(stored)
    ensures !IssuesCreate(Run(stored, steps).effects)
    ensures DeletingOrGone(Run(stored, steps).stored)
    decreases |steps|
  {
    if steps != [] {
      var first := Apply(stored, steps[0]);
      if steps[0].ReconcileStep? {
        CreateOnlyWithoutInstanceID(stored, steps[0].env);
        PassKeepsDeletion(stored, steps[0].env);
      }
      NoCreateOnceDeletionRequested(first.stored, steps[1..]);
      var rest := Run(first.stored, steps[1..]);
      assert forall e :: e in first.effects + rest.effects ==> e in first.effects || e in rest.effects;
    }
  }

  /** The describe outcome makes checkEC2InstanceExists report an error (not a not-found). */
  predicate DescribeFails(describe: Result<DescribeInstancesOutput, Error>) {
    CheckEC2InstanceExists(describe).Value? && CheckEC2InstanceExists(describe).value.err.Some?
  }

  /** The resource records an instance, is being deleted, or is gone. */
  predicate Settled(stored: Option<Ec2Instance>) {
    stored.None? || BeingDeleted(stored.value) || stored.value.Status.InstanceID != ""
  }

  /**
   * Without a describe error, a pass over a settled resource leaves it
   * settled, and a recorded id on a live resource is kept as it is.
   */
  lemma PassKeepsSettled(stored: Option<Ec2Instance>, env: Env)
    requires Settled(stored) && !DescribeFails(env.describe)
    ensures Settled(Pass(stored, env).stored)
    ensures stored.Some? && !BeingDeleted(stored.value) && stored.value.Status.InstanceID != "" ==>
      && Pass(stored, env).stored.Some?
      && Pass(stored, env).stored.value.Status.InstanceID == stored.value.Status.InstanceID
  {
  }

  /**
   * The single-create guarantee as the code gives it: once an instance id is
   * persisted, no later pass asks AWS for another instance as long as no
   * describe fails with an error other than not-found.
   */
  lemma {:induction false} PersistedIdBlocksRecreation(stored: Option<Ec2Instance>, steps: seq<Step>)
    requires Settled(stored)
    requires forall k :: 0 <= k < |steps| && steps[k].ReconcileStep? ==> !DescribeFails(steps[k].env.describe)
    ensures !IssuesCreate(Run(stored, steps).effects)
    ensures Settled(Run(stored, steps).stored)
    decreases |steps|
  {
    if steps != [] {
      var first := Apply(stored, steps[0]);
      if steps[0].ReconcileStep? {
        CreateOnlyWithoutInstanceID(stored, steps[0].env);
        PassKeepsSettled(stored, steps[0].env);
      }
      assert forall k :: 0 <= k < |steps[1..]| && steps[1..][k].ReconcileStep? ==> !DescribeFails(steps[1..][k].env.describe) by {
        forall k | 0 <= k < |steps[1..]| && steps[1..][k].ReconcileStep? ensures !DescribeFails(steps[1..][k].env.describe) {
          assert steps[1..][k] == steps[k + 1];
        }
      }
      PersistedIdBlocksRecreation(first.stored, steps[1..]);
      var rest := Run(first.stored, steps[1..]);
      assert forall e :: e in first.effects + rest.effects ==> e in first.effects || e in rest.effects;
    }
  }
}
