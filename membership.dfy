/** The group and its members, as the EC2 and Auto Scaling APIs describe them. */
module Membership {
  import opened Outcomes
  import opened Tags

  /** An EC2 instance, reduced to what the reactor reads (the hostname
      function may read anything else it carries, such as its tags). */
  datatype Instance = Instance(instanceId: string, stateCode: int, tags: seq<InstanceTag>)

  datatype Reservation = Reservation(reservationId: string, instances: seq<Instance>)

  /** An Auto Scaling group with its tags. */
  datatype Group = Group(name: string, tags: seq<TagDescription>)

  /** The instances of every reservation, concatenated in order. */
  function Flatten(rs: seq<Reservation>): seq<Instance>
  {
    if |rs| == 0 then [] else Flatten(rs[..|rs| - 1]) + rs[|rs| - 1].instances
  }

  lemma {:induction false} FlattenAppend(a: seq<Reservation>, b: seq<Reservation>)
    ensures Flatten(a + b) == Flatten(a) + Flatten(b)
    decreases |b|
  {
    if |b| == 0 {
      assert a + b == a;
    } else {
      assert (a + b)[..|a + b| - 1] == a + b[..|b| - 1];
      FlattenAppend(a, b[..|b| - 1]);
    }
  }

  /** An instance is in the flattened list iff some reservation holds it. */
  lemma {:induction false} FlattenContains(rs: seq<Reservation>, inst: Instance)
    ensures inst in Flatten(rs) <==> exists k :: 0 <= k < |rs| && inst in rs[k].instances
  {
    if |rs| > 0 {
      var init := rs[..|rs| - 1];
      FlattenContains(init, inst);
      assert forall k :: 0 <= k < |init| ==> init[k] == rs[k];
      if inst in Flatten(rs) && inst !in rs[|rs| - 1].instances {
        assert inst in Flatten(init);
        var k :| 0 <= k < |init| && inst in init[k].instances;
        assert inst in rs[k].instances;
      }
    }
  }

  /** The flattened list begins with the first reservation's instances. */
  lemma {:induction false} FlattenStartsWithFirst(rs: seq<Reservation>)
    requires |rs| > 0
    ensures |rs[0].instances| <= |Flatten(rs)| && Flatten(rs)[..|rs[0].instances|] == rs[0].instances
  {
    FlattenAppend([rs[0]], rs[1..]);
    assert [rs[0]] + rs[1..] == rs;
    assert Flatten([rs[0]]) == Flatten([]) + rs[0].instances;
  }

  /** lookupInstances: the flattened DescribeInstances result, refusing an
      empty one (no reservations, or a first reservation without instances). */
  method LookupInstances(describeInstances: string -> Result<seq<Reservation>>, name: string)
    returns (r: Result<seq<Instance>>)
    ensures describeInstances(name).Err? ==> r == Err(describeInstances(name).error)
    ensures describeInstances(name).Ok? ==>
      var rs := describeInstances(name).value;
      (r.Err? <==> |rs| == 0 || |rs[0].instances| == 0) &&
      (r.Err? ==> r.error == NoInstances) &&
      (r.Ok? ==> r.value == Flatten(rs) && |r.value| > 0)
  {
    var output := describeInstances(name);
    if output.Err? {
      return Err(output.error);
    }
    var reservations := output.value;
    if |reservations| == 0 || |reservations[0].instances| == 0 {
      return Err(NoInstances);
    }
    var instances: seq<Instance> := [];
    for k := 0 to |reservations|
      invariant instances == Flatten(reservations[..k])
    {
      var res := reservations[k];
      for j := 0 to |res.instances|
        invariant instances == Flatten(reservations[..k]) + res.instances[..j]
      {
        instances := instances + [res.instances[j]];
      }
      assert reservations[..k + 1][..k] == reservations[..k];
    }
    assert reservations[..|reservations|] == reservations;
    FlattenStartsWithFirst(reservations);
    return Ok(instances);
  }

  /** lookupAutoScalingGroup: the first group DescribeAutoScalingGroups reports. */
  function LookupAutoScalingGroup(describeGroups: string -> Result<seq<Group>>, name: string): (r: Result<Group>)
    ensures describeGroups(name).Err? ==> r == Err(describeGroups(name).error)
    ensures describeGroups(name).Ok? ==>
      (r.Ok? <==> |describeGroups(name).value| > 0) &&
      (r.Ok? ==> r.value == describeGroups(name).value[0]) &&
      (r.Err? ==> r.error == GroupNotFound)
  {
    var output :- describeGroups(name);
    if |output| == 0 then Err(GroupNotFound) else Ok(output[0])
  }
}
