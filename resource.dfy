/**
 * The Ec2Instance custom resource as the controller and aws.go read and
 * write it, and the finalizer handling of controllerutil the controller uses.
 */
module Resource {
  import opened Wrappers

  /** The declared configuration. Only the reconciler's readers of it are modelled. */
  datatype Ec2InstanceSpec = Ec2InstanceSpec(
    AMIId: string,
    InstanceType: string,
    KeyPair: string,
    Subnet: string,
    Region: string)

  /** The observed fields persisted through the status subresource; all plain strings. */
  datatype Ec2InstanceStatus = Ec2InstanceStatus(
    InstanceID: string,
    State: string,
    PublicIP: string,
    PrivateIP: string,
    PublicDNS: string,
    PrivateDNS: string)

  /** What createEc2Instance hands back on success. */
  datatype CreatedInstanceInfo = CreatedInstanceInfo(
    InstanceID: string,
    State: string,
    PublicIP: string,
    PrivateIP: string,
    PublicDNS: string,
    PrivateDNS: string)

  /** A point in time; only whether a deletion timestamp is set matters here. */
  type Timestamp = nat

  /**
   * The resource: object metadata the controller reads (deletion timestamp,
   * finalizers), the spec and the status.
   */
  datatype Ec2Instance = Ec2Instance(
    DeletionTimestamp: Option<Timestamp>,
    Finalizers: seq<string>,
    Spec: Ec2InstanceSpec,
    Status: Ec2InstanceStatus)

  /** The token that blocks removal of the resource until the remote instance is gone. */
  const FinalizerToken := "ec2instance.compute.cloud.com"

  /** The status of a resource nothing has been created for: every field empty. */
  const EmptyStatus := Ec2InstanceStatus("", "", "", "", "", "")

  /** `DeletionTimestamp.IsZero()` is false: deletion has been requested. */
  predicate BeingDeleted(obj: Ec2Instance) {
    obj.DeletionTimestamp.Some?
  }

  /** The status a creation result is copied into, field by field. */
  function StatusOf(info: CreatedInstanceInfo): (st: Ec2InstanceStatus)
    ensures st.InstanceID == info.InstanceID && st.State == info.State
    ensures st.PublicIP == info.PublicIP && st.PrivateIP == info.PrivateIP
    ensures st.PublicDNS == info.PublicDNS && st.PrivateDNS == info.PrivateDNS
  {
    Ec2InstanceStatus(info.InstanceID, info.State, info.PublicIP, info.PrivateIP, info.PublicDNS, info.PrivateDNS)
  }

  /**
   * The finalizer list with every copy of `token` dropped and the rest kept
   * in order: the list `RemoveFinalizer` leaves behind.
   */
  function WithoutFinalizer(finalizers: seq<string>, token: string): (r: seq<string>)
    ensures token !in r
    ensures forall x :: x in r <==> x in finalizers && x != token
    ensures |r| <= |finalizers|
    ensures token !in finalizers ==> r == finalizers
    ensures multiset(r) == multiset(finalizers)[token := 0]
  {
    if finalizers == [] then []
    else
      var init := WithoutFinalizer(finalizers[..|finalizers| - 1], token);
      var last := finalizers[|finalizers| - 1];
      assert finalizers == finalizers[..|finalizers| - 1] + [last];
      if last == token then init else init + [last]
  }

  /**
   * Removal keeps the order of the remaining entries: removing from a
   * concatenation is removing from each part and concatenating the rests.
   */
  lemma {:induction false} WithoutFinalizerKeepsOrder(a: seq<string>, b: seq<string>, token: string)
    ensures WithoutFinalizer(a + b, token) == WithoutFinalizer(a, token) + WithoutFinalizer(b, token)
    decreases |b|
  {
    if b == [] {
      assert a + b == a;
    } else {
      var b' := b[..|b| - 1];
      assert (a + b)[..|a + b| - 1] == a + b';
      assert b[..|b| - 1] == b';
      WithoutFinalizerKeepsOrder(a, b', token);
    }
  }

  /** Appending a copy of a token and then removing that token gives back the list without it. */
  lemma {:induction false} AppendThenRemove(finalizers: seq<string>, token: string)
    ensures WithoutFinalizer(finalizers + [token], token) == WithoutFinalizer(finalizers, token)
  {
    assert (finalizers + [token])[..|finalizers|] == finalizers;
  }

  /**
   * controllerutil.RemoveFinalizer: compacts the list in one pass, keeping
   * every entry that differs from `token`.
   */
  method RemoveFinalizer(finalizers: seq<string>, token: string) returns (r: seq<string>)
    ensures r == WithoutFinalizer(finalizers, token)
  {
    r := [];
    var i := 0;
    while i < |finalizers|
      invariant 0 <= i <= |finalizers|
      invariant r == WithoutFinalizer(finalizers[..i], token)
    {
      assert finalizers[..i + 1][..i] == finalizers[..i];
      if finalizers[i] != token {
        r := r + [finalizers[i]];
      }
      i := i + 1;
    }
    assert finalizers[..i] == finalizers;
  }
}
