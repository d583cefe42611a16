/** The change planner: one SRV change per service name, UPSERT when the name
    has records, DELETE (with the records now on file) when it has none. */
module Planner {
  import opened Outcomes

  datatype Action = Upsert | Delete

  /** One entry of a Route 53 change batch. */
  datatype Change = Change(action: Action, name: string, recordType: string, records: seq<string>, ttl: int)

  datatype ChangeBatch = ChangeBatch(hostedZoneId: string, changes: seq<Change>)

  const SrvType := "SRV"
  const Ttl := 60

  /** ListResourceRecordSets(hosted zone id, start record name): the record
      sets listed from that name on, each given by its records' values. */
  type RecordSetLister = (string, string) -> Result<seq<seq<string>>>

  /** The change planned for one name. A failed lookup ends the process
      (log.Fatal); an empty listing panics on its first element. */
  function PlanChange(name: string, records: seq<string>, zoneId: string, list: RecordSetLister): (r: Result<Change>)
    ensures r.Ok? ==> r.value.name == name && r.value.recordType == "SRV" && r.value.ttl == 60
    ensures r.Ok? ==> (r.value.action == Upsert <==> |records| > 0)
    ensures |records| > 0 ==> r.Ok? && r.value.records == records
    ensures |records| == 0 ==>
      var listed := list(zoneId, name);
      (r.Ok? <==> listed.Ok? && |listed.value| > 0) &&
      (r.Ok? ==> r.value.records == listed.value[0]) &&
      (listed.Err? ==> r == Err(Fatal(listed.error))) &&
      (listed.Ok? && |listed.value| == 0 ==> r == Err(RecordSetIndexOutOfRange))
  {
    if |records| > 0 then Ok(Change(Upsert, name, SrvType, records, Ttl))
    else
      var listed := list(zoneId, name);
      if listed.Err? then Err(Fatal(listed.error))
      else if |listed.value| == 0 then Err(RecordSetIndexOutOfRange)
      else Ok(Change(Delete, name, SrvType, listed.value[0], Ttl))
  }

  /** changes is a batch for desired in some order: one change per key, no
      name twice, each the change planned for its name. */
  ghost predicate IsPlan(changes: seq<Change>, desired: map<string, seq<string>>, zoneId: string, list: RecordSetLister)
  {
    && |changes| == |desired|
    && (forall i :: 0 <= i < |changes| ==>
          changes[i].name in desired && PlanChange(changes[i].name, desired[changes[i].name], zoneId, list) == Ok(changes[i]))
    && (forall i, j :: 0 <= i < j < |changes| ==> changes[i].name != changes[j].name)
    && (forall n :: n in desired ==> exists i :: 0 <= i < |changes| && changes[i].name == n)
  }

  /** The planning loop of processEvent. Go visits the map in an unspecified
      order; here the next key is chosen arbitrarily. */
  method PlanChanges(desired: map<string, seq<string>>, zoneId: string, list: RecordSetLister) returns (r: Result<seq<Change>>)
    ensures r.Ok? <==> forall n :: n in desired ==> PlanChange(n, desired[n], zoneId, list).Ok?
    ensures r.Ok? ==> IsPlan(r.value, desired, zoneId, list)
    ensures r.Err? ==> exists n :: n in desired && PlanChange(n, desired[n], zoneId, list) == Err(r.error)
  {
    var changes: seq<Change> := [];
    var remaining := desired.Keys;
    while remaining != {}
      invariant remaining <= desired.Keys
      invariant |changes| + |remaining| == |desired|
      invariant forall i :: 0 <= i < |changes| ==>
        changes[i].name in desired.Keys - remaining
        && PlanChange(changes[i].name, desired[changes[i].name], zoneId, list) == Ok(changes[i])
      invariant forall i, j :: 0 <= i < j < |changes| ==> changes[i].name != changes[j].name
      invariant forall n :: n in desired.Keys - remaining ==> exists i :: 0 <= i < |changes| && changes[i].name == n
      decreases remaining
    {
      var name :| name in remaining;
      var records := desired[name];
      var action := Upsert;
      if |records| == 0 {
        action := Delete;
        var output := list(zoneId, name);
        if output.Err? {
          return Err(Fatal(output.error));
        }
        if |output.value| == 0 {
          return Err(RecordSetIndexOutOfRange);
        }
        records := output.value[0];
      }
      ghost var before, left := changes, remaining;
      changes := changes + [Change(action, name, SrvType, records, Ttl)];
      remaining := remaining - {name};
      forall n | n in desired.Keys - remaining ensures exists i :: 0 <= i < |changes| && changes[i].name == n {
        if n == name {
          assert changes[|before|].name == n;
        } else {
          assert n in desired.Keys - left;
          var i :| 0 <= i < |before| && before[i].name == n;
          assert changes[i] == before[i];
        }
      }
    }
    assert desired.Keys - remaining == desired.Keys;
    forall n | n in desired ensures PlanChange(n, desired[n], zoneId, list).Ok? {
      var i :| 0 <= i < |changes| && changes[i].name == n;
    }
    return Ok(changes);
  }

  /** Two batches planned from the same map hold the same changes, so
      replaying an event against unchanged inputs yields the same batch up to
      the order of its entries. */
  lemma PlanUniqueUpToOrder(a: seq<Change>, b: seq<Change>, desired: map<string, seq<string>>, zoneId: string, list: RecordSetLister)
    requires IsPlan(a, desired, zoneId, list) && IsPlan(b, desired, zoneId, list)
    ensures |a| == |b|
    ensures forall c :: c in a <==> c in b
  {
    forall c | c in a ensures c in b {
      var i :| 0 <= i < |a| && a[i] == c;
      var j :| 0 <= j < |b| && b[j].name == c.name;
    }
    forall c | c in b ensures c in a {
      var j :| 0 <= j < |b| && b[j] == c;
      var i :| 0 <= i < |a| && a[i].name == c.name;
    }
  }

  /** The names in a planned batch are exactly the keys of the map. */
  lemma PlanNames(changes: seq<Change>, desired: map<string, seq<string>>, zoneId: string, list: RecordSetLister)
    requires IsPlan(changes, desired, zoneId, list)
    ensures (set i | 0 <= i < |changes| :: changes[i].name) == desired.Keys
  {
    forall n | n in desired ensures n in (set i | 0 <= i < |changes| :: changes[i].name) {
      var i :| 0 <= i < |changes| && changes[i].name == n;
    }
  }
}
