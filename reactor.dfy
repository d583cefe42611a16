/** The reconciler: Handle and processEvent, with every remote service given
    as a function from request to result. */
module Reactor {
  import opened Outcomes
  import opened Tags
  import opened Strings
  import opened Membership
  import opened Records
  import opened Planner

  /** GetHostedZone (hosted zone id to zone name), ListResourceRecordSets and
      ChangeResourceRecordSets. */
  datatype Route53Api = Route53Api(
    getHostedZone: string -> Result<string>,
    listResourceRecordSets: RecordSetLister,
    changeResourceRecordSets: ChangeBatch -> Result<()>)

  /** DescribeAutoScalingGroups for one group name. */
  datatype AutoScalingApi = AutoScalingApi(describeAutoScalingGroups: string -> Result<seq<Group>>)

  /** DescribeInstances filtered on tag aws:autoscaling:groupName. */
  datatype Ec2Api = Ec2Api(describeInstances: string -> Result<seq<Reservation>>)

  /** The Reactor struct: its three service clients. */
  datatype Clients = Clients(route53: Route53Api, autoscaling: AutoScalingApi, ec2: Ec2Api)

  datatype SnsEntity = SnsEntity(message: string)
  datatype SnsEventRecord = SnsEventRecord(sns: SnsEntity)
  datatype SnsEvent = SnsEvent(records: seq<SnsEventRecord>)

  /** The hosted zone id tag. The SDK refuses a GetHostedZone request whose Id is nil. */
  function HostedZoneId(tags: seq<TagDescription>): (r: Result<string>)
    ensures r.Ok? <==> exists i :: 0 <= i < |tags| && tags[i].key == ZoneTagKey
    ensures r.Ok? ==> ExtractTag(ZoneTagKey, tags) == Some(r.value)
    ensures r.Err? ==> r.error == MissingParameter("Id")
  {
    match ExtractTag(ZoneTagKey, tags)
    case None => Err(MissingParameter("Id"))
    case Some(id) => Ok(id)
  }

  /** The names and ports tags split on ','. Dereferencing a missing tag panics,
      the names tag being read first. */
  function ReadManifest(tags: seq<TagDescription>): (r: Result<Manifest>)
    ensures ExtractTag(NamesTagKey, tags).None? ==> r == Err(NilTag(NamesTagKey))
    ensures ExtractTag(NamesTagKey, tags).Some? && ExtractTag(PortsTagKey, tags).None? ==> r == Err(NilTag(PortsTagKey))
    ensures r.Ok? <==> ExtractTag(NamesTagKey, tags).Some? && ExtractTag(PortsTagKey, tags).Some?
    ensures r.Ok? ==> |r.value.names| >= 1 && |r.value.ports| >= 1
    ensures r.Ok? ==> Join(r.value.names, ',') == ExtractTag(NamesTagKey, tags).value
    ensures r.Ok? ==> Join(r.value.ports, ',') == ExtractTag(PortsTagKey, tags).value
    ensures r.Ok? ==> forall i :: 0 <= i < |r.value.names| ==> ',' !in r.value.names[i]
    ensures r.Ok? ==> forall i :: 0 <= i < |r.value.ports| ==> ',' !in r.value.ports[i]
  {
    match ExtractTag(NamesTagKey, tags)
    case None => Err(NilTag(NamesTagKey))
    case Some(names) =>
      match ExtractTag(PortsTagKey, tags)
      case None => Err(NilTag(PortsTagKey))
      case Some(ports) =>
        JoinSplit(names, ',');
        JoinSplit(ports, ',');
        Ok(Manifest(Split(names, ','), Split(ports, ',')))
  }

  /** What processEvent reads before it builds records. */
  datatype Inputs = Inputs(zoneId: string, zoneName: string, manifest: Manifest, instances: seq<Instance>)

  /** The reads of processEvent in its order: the group, its instances, the
      zone id tag, the zone, the names and ports tags; the first failure wins. */
  ghost function Gather(clients: Clients, event: AutoscalingEvent): Result<Inputs>
  {
    var group :- LookupAutoScalingGroup(clients.autoscaling.describeAutoScalingGroups, event.autoScalingGroupName);
    var reservations :- clients.ec2.describeInstances(event.autoScalingGroupName);
    if |reservations| == 0 || |reservations[0].instances| == 0 then Err(NoInstances)
    else
      var zoneId :- HostedZoneId(group.tags);
      var zoneName :- clients.route53.getHostedZone(zoneId);
      var manifest :- ReadManifest(group.tags);
      Ok(Inputs(zoneId, zoneName, manifest, Flatten(reservations)))
  }

  /** Building fails: fewer ports than names, and some instance contributes. */
  ghost predicate PortsRunOut(inputs: Inputs, event: AutoscalingEvent)
  {
    |inputs.manifest.ports| < |inputs.manifest.names|
      && exists k :: 0 <= k < |inputs.instances| && Contributes(event, inputs.instances[k])
  }

  ghost function DesiredFor(inputs: Inputs, hostname: Instance -> string, event: AutoscalingEvent): map<string, seq<string>>
  {
    Desired(inputs.manifest, Context(event, inputs.zoneName, hostname), inputs.instances)
  }

  /** What processEvent guarantees: `batch` is the change batch it submits
      (an error when it stops before submitting) and `ack` is what it returns. */
  ghost predicate Processed(clients: Clients, hostname: Instance -> string, event: AutoscalingEvent,
                            batch: Result<ChangeBatch>, ack: Result<string>)
  {
    var g := Gather(clients, event);
    var list := clients.route53.listResourceRecordSets;
    && (g.Err? ==> batch == Err(g.error))
    && (g.Ok? && PortsRunOut(g.value, event) ==> batch == Err(PortIndexOutOfRange))
    && (g.Ok? && !PortsRunOut(g.value, event) ==>
          var d := DesiredFor(g.value, hostname, event);
          && (batch.Ok? <==> forall n :: n in d ==> PlanChange(n, d[n], g.value.zoneId, list).Ok?)
          && (batch.Ok? ==> batch.value.hostedZoneId == g.value.zoneId && IsPlan(batch.value.changes, d, g.value.zoneId, list))
          && (batch.Err? ==> exists n :: n in d && PlanChange(n, d[n], g.value.zoneId, list) == Err(batch.error)))
    && (batch.Err? ==> ack == Err(batch.error))
    && (batch.Ok? ==> var sent := clients.route53.changeResourceRecordSets(batch.value);
          ack == if sent.Ok? then Ok(event.ec2InstanceId) else Err(sent.error))
  }

  /** The reads of processEvent (lines up to the split of the tags). */
  method ReadInputs(clients: Clients, event: AutoscalingEvent) returns (r: Result<Inputs>)
    ensures r == Gather(clients, event)
  {
    var name := event.autoScalingGroupName;
    var group := LookupAutoScalingGroup(clients.autoscaling.describeAutoScalingGroups, name);
    if group.Err? {
      return Err(group.error);
    }
    var instances := LookupInstances(clients.ec2.describeInstances, name);
    if instances.Err? {
      return Err(instances.error);
    }
    var zoneId := HostedZoneId(group.value.tags);
    if zoneId.Err? {
      return Err(zoneId.error);
    }
    var zone := clients.route53.getHostedZone(zoneId.value);
    if zone.Err? {
      return Err(zone.error);
    }
    var manifest := ReadManifest(group.value.tags);
    if manifest.Err? {
      return Err(manifest.error);
    }
    return Ok(Inputs(zoneId.value, zone.value, manifest.value, instances.value));
  }

  /** processEvent: read, build, plan, submit one batch, acknowledge with the
      event's instance id. */
  method ProcessEvent(clients: Clients, hostname: Instance -> string, event: AutoscalingEvent)
    returns (batch: Result<ChangeBatch>, ack: Result<string>)
    ensures Processed(clients, hostname, event, batch, ack)
    ensures ack.Ok? ==> ack.value == event.ec2InstanceId && batch.Ok?
  {
    var inputs := ReadInputs(clients, event);
    if inputs.Err? {
      return Err(inputs.error), Err(inputs.error);
    }
    var zoneId := inputs.value.zoneId;
    var records := BuildRecords(inputs.value.manifest, Context(event, inputs.value.zoneName, hostname), inputs.value.instances);
    if records.Err? {
      return Err(records.error), Err(records.error);
    }
    ghost var d := DesiredFor(inputs.value, hostname, event);
    assert !PortsRunOut(inputs.value, event) && records.value == d;
    var changes := PlanChanges(records.value, zoneId, clients.route53.listResourceRecordSets);
    if changes.Err? {
      assert exists n :: n in d && PlanChange(n, d[n], zoneId, clients.route53.listResourceRecordSets) == Err(changes.error);
      return Err(changes.error), Err(changes.error);
    }
    batch := Ok(ChangeBatch(zoneId, changes.value));
    var sent := clients.route53.changeResourceRecordSets(batch.value);
    if sent.Err? {
      return batch, Err(sent.error);
    }
    return batch, Ok(event.ec2InstanceId);
  }

  /** The guard of Handle: the first record's message, which must be there and non-empty. */
  function SnsMessage(req: SnsEvent): (r: Result<string>)
    ensures r.Err? <==> |req.records| == 0 || req.records[0].sns.message == ""
    ensures r.Err? ==> r.error == NoSnsMessage
    ensures r.Ok? ==> r.value == req.records[0].sns.message
  {
    if |req.records| == 0 || req.records[0].sns.message == "" then Err(NoSnsMessage)
    else Ok(req.records[0].sns.message)
  }

  /** Handle: check the notification, decode its message, process the event. */
  method Handle(clients: Clients, hostname: Instance -> string, unmarshal: string -> Result<AutoscalingEvent>, req: SnsEvent)
    returns (batch: Result<ChangeBatch>, ack: Result<string>)
    ensures SnsMessage(req).Err? ==> batch == Err(NoSnsMessage) && ack == Err(NoSnsMessage)
    ensures SnsMessage(req).Ok? && unmarshal(SnsMessage(req).value).Err? ==>
      var e := unmarshal(SnsMessage(req).value).error;
      batch == Err(e) && ack == Err(e)
    ensures SnsMessage(req).Ok? && unmarshal(SnsMessage(req).value).Ok? ==>
      Processed(clients, hostname, unmarshal(SnsMessage(req).value).value, batch, ack)
  {
    var message := SnsMessage(req);
    if message.Err? {
      return Err(message.error), Err(message.error);
    }
    var evt := unmarshal(message.value);
    if evt.Err? {
      return Err(evt.error), Err(evt.error);
    }
    batch, ack := ProcessEvent(clients, hostname, evt.value);
  }

  /** Every declared service name yields exactly one change, duplicates
      collapsing to one: the batch's names are the pieces of the names tag. */
  lemma BatchCoversDeclaredNames(clients: Clients, hostname: Instance -> string, event: AutoscalingEvent,
                                 batch: Result<ChangeBatch>, ack: Result<string>)
    requires Processed(clients, hostname, event, batch, ack) && batch.Ok?
    ensures Gather(clients, event).Ok?
    ensures var m := Gather(clients, event).value.manifest;
      (set i | 0 <= i < |batch.value.changes| :: batch.value.changes[i].name) == NameSet(m.names)
    ensures forall i, j :: 0 <= i < j < |batch.value.changes| ==> batch.value.changes[i].name != batch.value.changes[j].name
  {
    var g := Gather(clients, event);
    assert g.Ok?;
    PlanNames(batch.value.changes, DesiredFor(g.value, hostname, event), g.value.zoneId, clients.route53.listResourceRecordSets);
  }

  /** Every record of an UPSERT in the batch is "0 0 <port> <host>.<zone>" for a
      port declared under that change's name and an instance of the group that
      is not terminated and, unless the event is a launch, is not the event's
      instance. */
  lemma UpsertRecordOrigin(clients: Clients, hostname: Instance -> string, event: AutoscalingEvent,
                           batch: Result<ChangeBatch>, ack: Result<string>, c: Change, v: string)
    requires Processed(clients, hostname, event, batch, ack) && batch.Ok?
    requires c in batch.value.changes && c.action == Upsert && v in c.records
    ensures Gather(clients, event).Ok?
    ensures var inputs := Gather(clients, event).value;
      var m := inputs.manifest;
      exists k, i :: 0 <= k < |inputs.instances| && 0 <= i < |m.names| && i < |m.ports|
        && inputs.instances[k].stateCode != 48
        && (event.event == "autoscaling:EC2_INSTANCE_LAUNCH" || inputs.instances[k].instanceId != event.ec2InstanceId)
        && m.names[i] == c.name
        && v == SrvValue(m.ports[i], Fqdn(hostname(inputs.instances[k]), inputs.zoneName))
  {
    var g := Gather(clients, event);
    assert g.Ok?;
    var inputs := g.value;
    var d := DesiredFor(inputs, hostname, event);
    var list := clients.route53.listResourceRecordSets;
    var changes := batch.value.changes;
    var idx :| 0 <= idx < |changes| && changes[idx] == c;
    assert PlanChange(c.name, d[c.name], inputs.zoneId, list) == Ok(c);
    assert d[c.name] == c.records;
    var m, ctx := inputs.manifest, Context(event, inputs.zoneName, hostname);
    if |m.names| <= |m.ports| {
      RecordsForMembership(c.name, m, ctx, inputs.instances, v);
    }
  }
}
