/** The record-set builder: per service name, the SRV values of the live
    instances that stay in the pool after the event. */
module Records {
  import opened Outcomes
  import opened Membership

  const TerminatedCode := 48
  const LaunchEvent := "autoscaling:EC2_INSTANCE_LAUNCH"

  /** The decoded lifecycle notification. */
  datatype AutoscalingEvent = AutoscalingEvent(ec2InstanceId: string, autoScalingGroupName: string, event: string)

  /** The service manifest: names and ports, paired by position. */
  datatype Manifest = Manifest(names: seq<string>, ports: seq<string>)

  /** What every record depends on besides the manifest and the instance:
      the event, the hosted zone's name and the hostname function. */
  datatype Context = Context(event: AutoscalingEvent, zoneName: string, hostname: Instance -> string)

  predicate Terminated(inst: Instance)
  {
    inst.stateCode == TerminatedCode
  }

  /** The shouldAdd flag of processEvent. */
  predicate ShouldAdd(event: AutoscalingEvent, inst: Instance)
  {
    event.event == LaunchEvent || event.ec2InstanceId != inst.instanceId
  }

  /** An instance adds records iff it is not terminated and shouldAdd holds. */
  predicate Contributes(event: AutoscalingEvent, inst: Instance)
  {
    !Terminated(inst) && ShouldAdd(event, inst)
  }

  /** hostname "." zone name */
  function Fqdn(hostname: string, zoneName: string): string
  {
    hostname + "." + zoneName
  }

  function Target(ctx: Context, inst: Instance): string
  {
    Fqdn(ctx.hostname(inst), ctx.zoneName)
  }

  /** An SRV value: priority 0, weight 0, the port, the target. */
  function SrvValue(port: string, fqdn: string): string
  {
    "0 0" + " " + port + " " + fqdn
  }

  function NameSet(names: seq<string>): set<string>
  {
    set i | 0 <= i < |names| :: names[i]
  }

  /** What one included instance appends to the list of `name`: one value per
      index at which `name` is declared, in index order. */
  function Contribution(name: string, names: seq<string>, ports: seq<string>, fqdn: string): seq<string>
    requires |names| <= |ports|
  {
    if |names| == 0 then []
    else
      Contribution(name, names[..|names| - 1], ports, fqdn)
        + (if names[|names| - 1] == name then [SrvValue(ports[|names| - 1], fqdn)] else [])
  }

  /** The list built for `name` from the instances, in enumeration order. */
  function RecordsFor(name: string, m: Manifest, ctx: Context, instances: seq<Instance>): seq<string>
    requires |m.names| <= |m.ports|
  {
    if |instances| == 0 then []
    else
      var last := instances[|instances| - 1];
      RecordsFor(name, m, ctx, instances[..|instances| - 1])
        + (if Contributes(ctx.event, last) then Contribution(name, m.names, m.ports, Target(ctx, last)) else [])
  }

  /** The map the builder produces: every declared name is a key; with fewer
      ports than names it can only succeed when no instance contributes,
      and then every list is empty. */
  function Desired(m: Manifest, ctx: Context, instances: seq<Instance>): (d: map<string, seq<string>>)
    ensures d.Keys == NameSet(m.names)
  {
    map n | n in NameSet(m.names) :: if |m.names| <= |m.ports| then RecordsFor(n, m, ctx, instances) else []
  }

  /** The number of instances that contribute. */
  function ContributingCount(event: AutoscalingEvent, instances: seq<Instance>): nat
  {
    if |instances| == 0 then 0
    else
      ContributingCount(event, instances[..|instances| - 1])
        + (if Contributes(event, instances[|instances| - 1]) then 1 else 0)
  }

  /** A value is in one instance's contribution iff it is the SRV value of a
      port declared at an index carrying `name`. */
  lemma {:induction false} ContributionMembership(name: string, names: seq<string>, ports: seq<string>, fqdn: string, v: string)
    requires |names| <= |ports|
    ensures v in Contribution(name, names, ports, fqdn) <==>
      exists i :: 0 <= i < |names| && names[i] == name && v == SrvValue(ports[i], fqdn)
  {
    if |names| > 0 {
      var init := names[..|names| - 1];
      ContributionMembership(name, init, ports, fqdn, v);
      assert forall i :: 0 <= i < |init| ==> init[i] == names[i];
    }
  }

  /** Exactly one value per declaring index. */
  lemma {:induction false} ContributionLength(name: string, names: seq<string>, ports: seq<string>, fqdn: string)
    requires |names| <= |ports|
    ensures |Contribution(name, names, ports, fqdn)| == multiset(names)[name]
  {
    if |names| > 0 {
      var init := names[..|names| - 1];
      ContributionLength(name, init, ports, fqdn);
      assert names == init + [names[|names| - 1]];
      assert multiset(names) == multiset(init) + multiset{names[|names| - 1]};
    }
  }

  /** Building over a concatenation concatenates the lists. */
  lemma {:induction false} RecordsForAppend(name: string, m: Manifest, ctx: Context, a: seq<Instance>, b: seq<Instance>)
    requires |m.names| <= |m.ports|
    ensures RecordsFor(name, m, ctx, a + b) == RecordsFor(name, m, ctx, a) + RecordsFor(name, m, ctx, b)
    decreases |b|
  {
    if |b| == 0 {
      assert a + b == a;
    } else {
      assert (a + b)[..|a + b| - 1] == a + b[..|b| - 1];
      assert (a + b)[|a + b| - 1] == b[|b| - 1];
      RecordsForAppend(name, m, ctx, a, b[..|b| - 1]);
    }
  }

  /** An instance that does not contribute can be dropped from the membership
      without changing any list. */
  lemma {:induction false} RecordsForOmits(name: string, m: Manifest, ctx: Context, a: seq<Instance>, x: Instance, b: seq<Instance>)
    requires |m.names| <= |m.ports|
    requires !Contributes(ctx.event, x)
    ensures RecordsFor(name, m, ctx, a + [x] + b) == RecordsFor(name, m, ctx, a + b)
  {
    RecordsForAppend(name, m, ctx, a + [x], b);
    RecordsForAppend(name, m, ctx, a, [x]);
    RecordsForAppend(name, m, ctx, a, b);
    assert [x][..0] == [];
  }

  /** A terminated instance contributes nothing, under any event. */
  lemma TerminatedInstanceIgnored(name: string, m: Manifest, ctx: Context, a: seq<Instance>, x: Instance, b: seq<Instance>)
    requires |m.names| <= |m.ports|
    requires x.stateCode == 48
    ensures RecordsFor(name, m, ctx, a + [x] + b) == RecordsFor(name, m, ctx, a + b)
  {
    RecordsForOmits(name, m, ctx, a, x, b);
  }

  /** On any event other than a launch, the instance the event names
      contributes nothing, even if it is still reported running. */
  lemma EventInstanceExcludedUnlessLaunch(name: string, m: Manifest, ctx: Context, a: seq<Instance>, x: Instance, b: seq<Instance>)
    requires |m.names| <= |m.ports|
    requires ctx.event.event != "autoscaling:EC2_INSTANCE_LAUNCH"
    requires x.instanceId == ctx.event.ec2InstanceId
    ensures RecordsFor(name, m, ctx, a + [x] + b) == RecordsFor(name, m, ctx, a + b)
  {
    RecordsForOmits(name, m, ctx, a, x, b);
  }

  /** Every value in a list is the SRV value, for a port declared under that
      name, of a contributing instance; and every such value is there. */
  lemma {:induction false} RecordsForMembership(name: string, m: Manifest, ctx: Context, instances: seq<Instance>, v: string)
    requires |m.names| <= |m.ports|
    ensures v in RecordsFor(name, m, ctx, instances) <==>
      exists k, i :: 0 <= k < |instances| && 0 <= i < |m.names| && Contributes(ctx.event, instances[k])
        && m.names[i] == name && v == SrvValue(m.ports[i], Target(ctx, instances[k]))
  {
    if |instances| > 0 {
      var n := |instances| - 1;
      var init := instances[..n];
      var last := instances[n];
      RecordsForMembership(name, m, ctx, init, v);
      ContributionMembership(name, m.names, m.ports, Target(ctx, last), v);
      assert forall k :: 0 <= k < n ==> init[k] == instances[k];
      if v in RecordsFor(name, m, ctx, instances) {
        if v in RecordsFor(name, m, ctx, init) {
          var k, i :| 0 <= k < |init| && 0 <= i < |m.names| && Contributes(ctx.event, init[k])
            && m.names[i] == name && v == SrvValue(m.ports[i], Target(ctx, init[k]));
          assert instances[k] == init[k];
        } else {
          var i :| 0 <= i < |m.names| && m.names[i] == name && v == SrvValue(m.ports[i], Target(ctx, last));
          assert Contributes(ctx.event, instances[n]);
        }
      }
      if (exists k, i :: (0 <= k < |instances| && 0 <= i < |m.names| && Contributes(ctx.event, instances[k])
          && m.names[i] == name && v == SrvValue(m.ports[i], Target(ctx, instances[k])))) {
        var k, i :| 0 <= k < |instances| && 0 <= i < |m.names| && Contributes(ctx.event, instances[k])
          && m.names[i] == name && v == SrvValue(m.ports[i], Target(ctx, instances[k]));
        if k < n {
          assert init[k] == instances[k];
        }
      }
    }
  }

  /** Exactly one value per (contributing instance, declaring index) pair. */
  lemma {:induction false} RecordsForLength(name: string, m: Manifest, ctx: Context, instances: seq<Instance>)
    requires |m.names| <= |m.ports|
    ensures |RecordsFor(name, m, ctx, instances)| == ContributingCount(ctx.event, instances) * multiset(m.names)[name]
  {
    if |instances| > 0 {
      var n := |instances| - 1;
      var last := instances[n];
      var c := ContributingCount(ctx.event, instances[..n]);
      var o := multiset(m.names)[name];
      var init := RecordsFor(name, m, ctx, instances[..n]);
      var added := if Contributes(ctx.event, last) then Contribution(name, m.names, m.ports, Target(ctx, last)) else [];
      RecordsForLength(name, m, ctx, instances[..n]);
      ContributionLength(name, m.names, m.ports, Target(ctx, last));
      assert |init| == c * o;
      assert |added| == if Contributes(ctx.event, last) then o else 0;
      assert RecordsFor(name, m, ctx, instances) == init + added;
      ProductStep(c, o, Contributes(ctx.event, last));
    }
  }

  lemma ProductStep(c: nat, o: nat, b: bool)
    ensures c * o + (if b then o else 0) == (c + (if b then 1 else 0)) * o
  {
  }

  /** On a launch event the launched instance is included whenever it is not
      terminated: its SRV value is in the list of every declared name. */
  lemma LaunchIncludesEventInstance(m: Manifest, ctx: Context, instances: seq<Instance>, k: int, i: int)
    requires |m.names| <= |m.ports|
    requires ctx.event.event == "autoscaling:EC2_INSTANCE_LAUNCH"
    requires 0 <= k < |instances| && instances[k].stateCode != 48
    requires 0 <= i < |m.names|
    ensures SrvValue(m.ports[i], Target(ctx, instances[k])) in RecordsFor(m.names[i], m, ctx, instances)
  {
    RecordsForMembership(m.names[i], m, ctx, instances, SrvValue(m.ports[i], Target(ctx, instances[k])));
  }

  lemma NameSetOfPair(x: string, y: string)
    ensures NameSet([x, y]) == {x, y}
  {
    assert [x, y][0] == x && [x, y][1] == y;
  }

  lemma ContributionOfPair(x: string, y: string, px: string, py: string, fqdn: string)
    requires x != y
    ensures Contribution(x, [x, y], [px, py], fqdn) == [SrvValue(px, fqdn)]
    ensures Contribution(y, [x, y], [px, py], fqdn) == [SrvValue(py, fqdn)]
  {
    assert [x, y][..1] == [x] && [x][..0] == [];
    assert Contribution(x, [x], [px, py], fqdn) == [SrvValue(px, fqdn)];
    assert Contribution(y, [x], [px, py], fqdn) == [];
  }

  /** Two services, instances A and B running and C terminated, a launch of A:
      both lists hold A's and B's values in that order, and C adds nothing. */
  lemma LaunchScenario(hostname: Instance -> string)
    ensures
      var a, b, c := Instance("i-a", 16, []), Instance("i-b", 16, []), Instance("i-c", 48, []);
      var m := Manifest(["web", "grpc"], ["80", "9090"]);
      var ctx := Context(AutoscalingEvent("i-a", "pool", "autoscaling:EC2_INSTANCE_LAUNCH"), "svc.internal", hostname);
      Desired(m, ctx, [a, b, c]) == map[
        "web" := [SrvValue("80", Fqdn(hostname(a), "svc.internal")), SrvValue("80", Fqdn(hostname(b), "svc.internal"))],
        "grpc" := [SrvValue("9090", Fqdn(hostname(a), "svc.internal")), SrvValue("9090", Fqdn(hostname(b), "svc.internal"))]]
  {
    var a, b, c := Instance("i-a", 16, []), Instance("i-b", 16, []), Instance("i-c", 48, []);
    var m := Manifest(["web", "grpc"], ["80", "9090"]);
    var ctx := Context(AutoscalingEvent("i-a", "pool", "autoscaling:EC2_INSTANCE_LAUNCH"), "svc.internal", hostname);
    var fa, fb := Target(ctx, a), Target(ctx, b);
    ContributionOfPair("web", "grpc", "80", "9090", fa);
    ContributionOfPair("web", "grpc", "80", "9090", fb);
    var all := [a, b, c];
    assert all[..2] == [a, b] && [a, b][..1] == [a] && [a][..0] == [];
    assert Contributes(ctx.event, a) && Contributes(ctx.event, b) && !Contributes(ctx.event, c);
    forall n | n == "web" || n == "grpc"
      ensures RecordsFor(n, m, ctx, all) == Contribution(n, m.names, m.ports, fa) + Contribution(n, m.names, m.ports, fb)
    {
      assert RecordsFor(n, m, ctx, [a]) == Contribution(n, m.names, m.ports, fa);
      assert RecordsFor(n, m, ctx, [a, b]) == Contribution(n, m.names, m.ports, fa) + Contribution(n, m.names, m.ports, fb);
    }
    NameSetOfPair("web", "grpc");
    var d := Desired(m, ctx, all);
    assert d["web"] == [SrvValue("80", fa), SrvValue("80", fb)];
    assert d["grpc"] == [SrvValue("9090", fa), SrvValue("9090", fb)];
  }

  /** One service pair, only A running, a termination of A: every list is empty. */
  lemma TerminateScenario(hostname: Instance -> string)
    ensures
      var a := Instance("i-a", 16, []);
      var m := Manifest(["web", "grpc"], ["80", "9090"]);
      var ctx := Context(AutoscalingEvent("i-a", "pool", "autoscaling:EC2_INSTANCE_TERMINATE"), "svc.internal", hostname);
      Desired(m, ctx, [a]) == map["web" := [], "grpc" := []]
  {
    var a := Instance("i-a", 16, []);
    var m := Manifest(["web", "grpc"], ["80", "9090"]);
    var ctx := Context(AutoscalingEvent("i-a", "pool", "autoscaling:EC2_INSTANCE_TERMINATE"), "svc.internal", hostname);
    assert [a][..0] == [];
    assert !Contributes(ctx.event, a);
    assert RecordsFor("web", m, ctx, [a]) == [];
    assert RecordsFor("grpc", m, ctx, [a]) == [];
    NameSetOfPair("web", "grpc");
  }

  /** The inner loop of processEvent for one included instance: append, for
      every index i, the SRV value of ports[i] to the list of names[i]. It
      panics (an error here) at the first index the ports list lacks. */
  method AppendContribution(records: map<string, seq<string>>, m: Manifest, fqdn: string)
    returns (r: Result<map<string, seq<string>>>)
    requires records.Keys == NameSet(m.names)
    ensures r.Err? <==> |m.ports| < |m.names|
    ensures r.Err? ==> r.error == PortIndexOutOfRange
    ensures r.Ok? ==> r.value.Keys == NameSet(m.names)
    ensures r.Ok? ==> forall n :: n in r.value ==> r.value[n] == records[n] + Contribution(n, m.names, m.ports, fqdn)
  {
    var names, ports := m.names, m.ports;
    var acc := records;
    for i := 0 to |names|
      invariant i <= |ports|
      invariant acc.Keys == NameSet(names)
      invariant forall n :: n in acc ==> acc[n] == records[n] + Contribution(n, names[..i], ports, fqdn)
    {
      if i >= |ports| {
        return Err(PortIndexOutOfRange);
      }
      assert names[..i + 1][..i] == names[..i];
      acc := acc[names[i] := acc[names[i]] + [SrvValue(ports[i], fqdn)]];
    }
    assert names[..|names|] == names;
    return Ok(acc);
  }

  /** One more instance extends every list by what that instance contributes. */
  lemma RecordsForStep(name: string, m: Manifest, ctx: Context, instances: seq<Instance>, k: int)
    requires |m.names| <= |m.ports|
    requires 0 <= k < |instances|
    ensures RecordsFor(name, m, ctx, instances[..k + 1]) == RecordsFor(name, m, ctx, instances[..k])
      + (if Contributes(ctx.event, instances[k]) then Contribution(name, m.names, m.ports, Target(ctx, instances[k])) else [])
  {
    assert instances[..k + 1][..k] == instances[..k];
  }

  /** The record building loop of processEvent. It fails exactly when there
      are fewer ports than names and some instance contributes. */
  method BuildRecords(m: Manifest, ctx: Context, instances: seq<Instance>) returns (r: Result<map<string, seq<string>>>)
    ensures r.Err? <==> |m.ports| < |m.names| && exists k :: 0 <= k < |instances| && Contributes(ctx.event, instances[k])
    ensures r.Err? ==> r.error == PortIndexOutOfRange
    ensures r.Ok? ==> r.value == Desired(m, ctx, instances)
  {
    var names, ports := m.names, m.ports;
    var records: map<string, seq<string>> := map[];
    for j := 0 to |names|
      invariant records.Keys == set i | 0 <= i < j :: names[i]
      invariant forall n :: n in records ==> records[n] == []
    {
      records := records[names[j] := []];
    }
    assert records.Keys == NameSet(names);

    for k := 0 to |instances|
      invariant records.Keys == NameSet(names)
      invariant |ports| < |names| ==>
        (forall j :: 0 <= j < k ==> !Contributes(ctx.event, instances[j])) && forall n :: n in records ==> records[n] == []
      invariant |names| <= |ports| ==> forall n :: n in records ==> records[n] == RecordsFor(n, m, ctx, instances[..k])
    {
      var instance := instances[k];
      if |names| <= |ports| {
        forall n | n in records
          ensures RecordsFor(n, m, ctx, instances[..k + 1]) == RecordsFor(n, m, ctx, instances[..k])
            + (if Contributes(ctx.event, instance) then Contribution(n, names, ports, Target(ctx, instance)) else [])
        {
          RecordsForStep(n, m, ctx, instances, k);
        }
      }
      if instance.stateCode == TerminatedCode {
        continue;
      }
      var shouldAdd := ctx.event.event == LaunchEvent || ctx.event.ec2InstanceId != instance.instanceId;
      if shouldAdd {
        var fqdn := Fqdn(ctx.hostname(instance), ctx.zoneName);
        var added := AppendContribution(records, m, fqdn);
        if added.Err? {
          return Err(added.error);
        }
        records := added.value;
      }
    }
    assert instances[..|instances|] == instances;
    return Ok(records);
  }
}
