# SRV-record reconciliation for an Auto Scaling group, in Dafny

This project models the reactor of `aws-autoscalinggroup-dns-sd`. The reactor is a Lambda
handler. It receives an Auto Scaling lifecycle notification through SNS and reads the
group's tags:

- `massive:DNS-SD:Route53:zone` holds the hosted zone id.
- `massive:DNS-SD:names` holds the service names, separated by commas.
- `massive:DNS-SD:ports` holds the service ports, separated by commas.

It then lists the group's instances and builds, for every service name, the SRV values
`"0 0 <port> <hostname>.<zone name>"` of the live instances. Finally it submits one Route 53
change batch. A name with records gets an `UPSERT`. A name without records gets a `DELETE`
that carries the records currently on file. Every change has type `SRV` and TTL 60.

Modules, one per component of `reactor/main.go`:

- `Outcomes`: `Option`, `Result` and `Error`. `Error` lists every way the reactor stops:
  the errors it returns, its panics and `log.Fatal`.
- `Tags`: `extractTag` and its twin `extractTagFromInstance`.
- `Strings`: `strings.Split` and `strings.Join` with a one-character separator.
- `Membership`: instances, reservations and groups; `lookupInstances` and
  `lookupAutoScalingGroup`.
- `Records`: the record-set builder. The loop of `processEvent` is the method `BuildRecords`.
  Its specification is `RecordsFor` / `Desired`.
- `Planner`: the change planner. The map loop is the method `PlanChanges`. Its specification
  is `PlanChange` per name and `IsPlan` for the whole batch.
- `Reactor`: `processEvent` and `Handle`. The AWS clients are datatypes of functions, one
  function per API call. The hostname function and the JSON decoder are parameters.

Go visits a map in no fixed order. `PlanChanges` therefore picks the next key with `:|`:
any order is allowed, and every property is stated per name. `IsPlan` and
`PlanUniqueUpToOrder` show that all possible batches contain the same changes.

A few behaviours of the code are easy to expect otherwise. The model does what the code does:

- One might expect the event instance to be excluded only on a terminate event. The code
  excludes it on every event other than `autoscaling:EC2_INSTANCE_LAUNCH`.
- One might expect the names and ports lists to be checked for equal length. The code never
  compares them. The model fails (`PortIndexOutOfRange`, the Go index panic) only when the
  building loop actually reads a missing port. That happens exactly when there are fewer
  ports than names and some instance contributes. If no instance contributes, every list
  stays empty and the reactor goes on.
- One might expect an empty membership to be refused whatever the reservations look like.
  The code looks only at the number of reservations and at the first reservation. A group
  whose instances are all terminated passes the check, and every one of its services gets
  a `DELETE`.
- One might expect the `DELETE` payload to be the record set of that name. The code takes the
  first record set that `ListResourceRecordSets` returns when it lists from that name on.
  Nothing checks that this record set has the same name or the `SRV` type.
- One might expect a missing tag to give a configuration error. A missing names or ports tag
  is dereferenced as nil, so it panics (`NilTag`). A missing zone tag sends a
  `GetHostedZone` request whose `Id` is nil. The AWS SDK's parameter validation refuses that
  request and returns an error (`MissingParameter("Id")`).
- One might expect a failed existing-record lookup to be returned as an error. The code calls
  `log.Fatal`, which ends the process. This is `Fatal(cause)`. A lookup that returns no
  record sets panics on `[0]` (`RecordSetIndexOutOfRange`).

## Model

| member | source | states |
|---|---|---|
| `Tags.ExtractTag` | reactor/main.go:178-187 | the result is nil exactly when no tag has the key; otherwise it is the value of a tag with that key |
| `Tags.ExtractTagReturnsFirstMatch` | reactor/main.go:180-184 | the result is exactly the value of the first tag whose key matches |
| `Tags.ExtractTagIgnoresLaterTags` | reactor/main.go:180-184 | once the key occurs in the list, appending more tags (later duplicates included) does not change the result |
| `Tags.ExtractTagSkipsOtherKeys` | reactor/main.go:180-184 | tags with other keys placed in front do not change the result |
| `Tags.ExtractTagFromInstance` | reactor/main.go:189-198 | the instance-tag search: nil exactly when no tag has the key, otherwise the value of a matching tag |
| `Tags.ExtractTagTwins` | reactor/main.go:178-198 | the two searches agree on lists with the same keys and values, so every property of `ExtractTag` carries over to the twin |
| `Strings.Split` | reactor/main.go:70-71 | splitting gives at least one piece, and no piece contains the separator |
| `Strings.JoinSplit` | reactor/main.go:70-71 | joining the pieces with ',' gives back the tag value |
| `Strings.SplitJoin` | reactor/main.go:70-71 | splitting undoes a join of separator-free pieces, so the pieces are exactly the declared names in their order |
| `Strings.SplitCount` | reactor/main.go:70-71 | there is one more piece than there are commas |
| `Membership.FlattenAppend` | reactor/main.go:143-147 | concatenating reservations concatenates their instance lists |
| `Membership.FlattenContains` | reactor/main.go:143-147 | an instance is in the result exactly when some reservation holds it |
| `Membership.FlattenStartsWithFirst` | reactor/main.go:139-147 | the result begins with the first reservation's instances |
| `Membership.LookupInstances` | reactor/main.go:132-149 | a DescribeInstances error is returned unchanged; the lookup fails with NoInstances exactly when there is no reservation or the first one has no instances; otherwise it returns the in-order concatenation of all reservations' instances, which is non-empty |
| `Membership.LookupAutoScalingGroup` | reactor/main.go:151-161 | a DescribeAutoScalingGroups error is returned unchanged; an empty group list gives GroupNotFound; otherwise the result is the first group |
| `Records.Desired` | reactor/main.go:73-77 | every declared service name, and nothing else, is a key of the record map |
| `Records.ContributionMembership` | reactor/main.go:89-91 | what one instance adds under a name is exactly the SRV values of the ports declared at that name's indices |
| `Records.ContributionLength` | reactor/main.go:89-91 | one instance adds one value per index declaring the name, so a duplicated name collects one value per port |
| `Records.RecordsForAppend` | reactor/main.go:79-93 | building over two instance lists in a row gives the two lists concatenated, so values follow the enumeration order of the instances |
| `Records.RecordsForOmits` | reactor/main.go:79-85 | removing an instance that does not contribute leaves every list unchanged |
| `Records.TerminatedInstanceIgnored` | reactor/main.go:80-82 | an instance with state code 48 contributes nothing under any event |
| `Records.EventInstanceExcludedUnlessLaunch` | reactor/main.go:83-85 | on any event other than a launch, the instance the event names contributes nothing, even if it is reported running |
| `Records.LaunchIncludesEventInstance` | reactor/main.go:83-91 | on a launch, a non-terminated instance (the launched one included) has its SRV value in the list of every declared name |
| `Records.RecordsForMembership` | reactor/main.go:79-93 | a value is in a name's list exactly when it is `"0 0 " + ports[i] + " " + hostname + "." + zone` for an index i carrying that name and a contributing instance; no other value is ever added |
| `Records.RecordsForLength` | reactor/main.go:79-93 | a name's list has exactly (number of contributing instances) × (number of indices declaring the name) values |
| `Records.LaunchScenario` | reactor/main.go:70-93 | two services, A and B running, C terminated, launch of A: both lists hold A's value and then B's value, and C adds nothing |
| `Records.TerminateScenario` | reactor/main.go:70-93 | only A running, termination of A: both lists are empty |
| `Records.AppendContribution` | reactor/main.go:86-91 | the inner loop appends each index's SRV value to its name's list; it fails (index panic) exactly when the ports list is shorter than the names list |
| `Records.BuildRecords` | reactor/main.go:70-93 | the building loop returns exactly the map `Desired`; it fails exactly when there are fewer ports than names and some instance contributes |
| `Planner.PlanChange` | reactor/main.go:97-115 | the change for a name has type SRV and TTL 60; it is an UPSERT exactly when the built list is non-empty, and then it carries that list; otherwise it is a DELETE carrying the first listed record set, and it fails with Fatal when the listing fails or with an index error when the listing is empty |
| `Planner.PlanChanges` | reactor/main.go:95-116 | whatever the visiting order, the batch has one change per map key, no name twice, and each change is the one planned for its name; the loop fails exactly when some name's change fails |
| `Planner.PlanUniqueUpToOrder` | reactor/main.go:95-116 | any two batches planned from the same map have the same length and the same changes, so replaying an event gives the same batch up to order |
| `Planner.PlanNames` | reactor/main.go:95-116 | the names in a planned batch are exactly the keys of the map |
| `Reactor.HostedZoneId` | reactor/main.go:64-65 | the zone id is the zone tag's value; a missing tag makes the request fail because its required Id is nil |
| `Reactor.ReadManifest` | reactor/main.go:70-71 | a missing names tag fails first and a missing ports tag fails next (nil dereference); otherwise both lists are non-empty, join back to their tag values with ',' and hold no comma in any piece, so by `Strings.SplitJoin` they are exactly the tag values split on ',' |
| `Reactor.ReadInputs` | reactor/main.go:54-71 | the reads happen in the source's order (group, instances, zone tag, zone, then the names and ports tags), and the first failure is the result |
| `Reactor.ProcessEvent` | reactor/main.go:54-130 | when a read, the building or the planning fails, the returned batch and the acknowledgement are both that first error; otherwise the returned batch is for the zone from the tag and is a plan (`IsPlan`) of `Desired`, and the acknowledgement is ChangeResourceRecordSets' verdict on that batch: its error unchanged, or the event's instance id |
| `Reactor.SnsMessage` | reactor/main.go:165-169 | the guard fails with NoSnsMessage exactly when there is no record or the first message is empty; otherwise it yields that message |
| `Reactor.Handle` | reactor/main.go:164-176 | an event without records or with an empty first message gives NoSnsMessage as both the batch and the acknowledgement; a decoding error is returned unchanged in both; otherwise the outcome is that of `ProcessEvent` on the decoded event |
| `Reactor.BatchCoversDeclaredNames` | reactor/main.go:70-116 | in a submitted batch, every service name split from the names tag appears exactly once, duplicates collapsing, and no other name appears |
| `Reactor.UpsertRecordOrigin` | reactor/main.go:79-116 | every record of an UPSERT in the submitted batch is `"0 0 <port> <host>.<zone>"` for a port declared under that change's name and a group instance that is not terminated and, unless the event is a launch, is not the event's instance |

## Left out

- AWS calls: `GetHostedZone`, `DescribeInstances`, `DescribeAutoScalingGroups`, `ListResourceRecordSets` and `ChangeResourceRecordSets` are fields of the `Clients` datatypes and have no behaviour of their own. Their filters become the arguments the model passes (group name; zone id and start record name). The model takes one page of each response, as the source does.
- `New` (session and client construction) is credential and HTTP plumbing and is not modelled.
- JSON decoding of the SNS message is the parameter `unmarshal`.
- `identity.GenerateHostname` is the uninterpreted parameter `hostname`. Its discarded error, and the nil dereference that error could cause, are not modelled.
- `log.Fatal` ends the process. The model only records it as the aborting error `Fatal(cause)`.
- Go panics come out as `Err` values. The panic recovery of the Lambda runtime is not modelled.
- A nil pointer field in an SDK structure (a tag's key or value, an instance's state, id or zone name) is assumed present and is not a modelled error.
- State codes are unbounded integers. The source's int64 makes no difference to the comparison with 48.
- The unused `srvRecord` type, `main.go` (Lambda registration) and the tests.
- `Reactor.ProcessEvent`: besides the acknowledgement, it returns the batch it submits. The source only passes that batch to `ChangeResourceRecordSets`. The extra output makes the submitted batch open to statement.
- `Reactor.ProcessEvent` and `Reactor.Handle`: the remote calls are pure functions, so the contracts cannot observe whether or how often a call is made. They do not promise that nothing is read or submitted after a failure, or that the batch is submitted exactly once. They only state the returned batch and the acknowledgement.
