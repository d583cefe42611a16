/** Linear search of key/value tags, as the reactor reads its configuration. */
module Tags {
  import opened Outcomes

  /** An Auto Scaling group tag. */
  datatype TagDescription = TagDescription(
    key: string, value: string, resourceId: string, resourceType: string, propagateAtLaunch: bool)

  /** An EC2 instance tag. */
  datatype InstanceTag = InstanceTag(key: string, value: string)

  const ZoneTagKey := "massive:DNS-SD:Route53:zone"
  const NamesTagKey := "massive:DNS-SD:names"
  const PortsTagKey := "massive:DNS-SD:ports"

  /** Index i holds the first tag whose key is tagName. */
  ghost predicate IsFirstMatch(tagName: string, tags: seq<TagDescription>, i: int)
  {
    0 <= i < |tags| && tags[i].key == tagName && forall j :: 0 <= j < i ==> tags[j].key != tagName
  }

  /** The value of the first tag keyed tagName, or None (Go's nil). */
  function ExtractTag(tagName: string, tags: seq<TagDescription>): (r: Option<string>)
    ensures r.None? <==> forall i :: 0 <= i < |tags| ==> tags[i].key != tagName
    ensures r.Some? ==> exists i :: 0 <= i < |tags| && tags[i].key == tagName && tags[i].value == r.value
  {
    if |tags| == 0 then None
    else if tags[0].key == tagName then Some(tags[0].value)
    else
      var r := ExtractTag(tagName, tags[1..]);
      assert forall i :: 0 <= i < |tags| - 1 ==> tags[1..][i] == tags[i + 1];
      r
  }

  /** The same search over instance tags. */
  function ExtractTagFromInstance(tagName: string, tags: seq<InstanceTag>): (r: Option<string>)
    ensures r.None? <==> forall i :: 0 <= i < |tags| ==> tags[i].key != tagName
    ensures r.Some? ==> exists i :: 0 <= i < |tags| && tags[i].key == tagName && tags[i].value == r.value
  {
    if |tags| == 0 then None
    else if tags[0].key == tagName then Some(tags[0].value)
    else
      var r := ExtractTagFromInstance(tagName, tags[1..]);
      assert forall i :: 0 <= i < |tags| - 1 ==> tags[1..][i] == tags[i + 1];
      r
  }

  /** The search returns exactly the value at the first matching key. */
  lemma {:induction false} ExtractTagReturnsFirstMatch(tagName: string, tags: seq<TagDescription>, i: int)
    requires IsFirstMatch(tagName, tags, i)
    ensures ExtractTag(tagName, tags) == Some(tags[i].value)
  {
    if i > 0 {
      assert IsFirstMatch(tagName, tags[1..], i - 1) by {
        forall j | 0 <= j < i - 1 ensures tags[1..][j].key != tagName {
          assert tags[1..][j] == tags[j + 1];
        }
      }
      ExtractTagReturnsFirstMatch(tagName, tags[1..], i - 1);
    }
  }

  /** Once the key has been seen, appending more tags (even duplicates) changes nothing. */
  lemma {:induction false} ExtractTagIgnoresLaterTags(tagName: string, tags: seq<TagDescription>, later: seq<TagDescription>)
    requires exists i :: 0 <= i < |tags| && tags[i].key == tagName
    ensures ExtractTag(tagName, tags + later) == ExtractTag(tagName, tags)
  {
    assert (tags + later)[0] == tags[0];
    if tags[0].key != tagName {
      var i :| 0 <= i < |tags| && tags[i].key == tagName;
      assert tags[1..][i - 1] == tags[i];
      assert (tags + later)[1..] == tags[1..] + later;
      ExtractTagIgnoresLaterTags(tagName, tags[1..], later);
    }
  }

  /** Tags with other keys in front of the list do not affect the result. */
  lemma {:induction false} ExtractTagSkipsOtherKeys(tagName: string, earlier: seq<TagDescription>, tags: seq<TagDescription>)
    requires forall i :: 0 <= i < |earlier| ==> earlier[i].key != tagName
    ensures ExtractTag(tagName, earlier + tags) == ExtractTag(tagName, tags)
  {
    if |earlier| > 0 {
      assert (earlier + tags)[0] == earlier[0];
      assert (earlier + tags)[1..] == earlier[1..] + tags;
      assert forall i :: 0 <= i < |earlier| - 1 ==> earlier[1..][i] == earlier[i + 1];
      ExtractTagSkipsOtherKeys(tagName, earlier[1..], tags);
    } else {
      assert earlier + tags == tags;
    }
  }

  /** The two searches agree on tag lists with the same keys and values. */
  lemma {:induction false} ExtractTagTwins(tagName: string, itags: seq<InstanceTag>, descs: seq<TagDescription>)
    requires |itags| == |descs|
    requires forall i :: 0 <= i < |itags| ==> itags[i].key == descs[i].key && itags[i].value == descs[i].value
    ensures ExtractTagFromInstance(tagName, itags) == ExtractTag(tagName, descs)
  {
    if |itags| > 0 && itags[0].key != tagName {
      assert forall i :: 0 <= i < |itags| - 1 ==> itags[1..][i] == itags[i + 1] && descs[1..][i] == descs[i + 1];
      ExtractTagTwins(tagName, itags[1..], descs[1..]);
    }
  }
}
