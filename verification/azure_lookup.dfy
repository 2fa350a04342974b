/** The lookups of `cloudimg/ms_azure.py`: a container by name (created on
    request), a blob by container and name, and the two tag searches. None
    of them fails; only the container lookup with `create` set writes. */
module AzureLookup {
  import opened Outcomes
  import opened Dicts
  import opened Seqs
  import opened AzureTags
  import opened AzureModel

  /** `get_container_by_name`: the container client (its name) when the
      container exists; otherwise nothing, unless `create` is set, in which
      case the container is created empty. */
  function GetContainer(s: Storage, name: string, create: bool): (r: Act<Option<string>>)
    ensures r.value.None? <==> name !in s.containers && !create
    ensures r.value.Some? ==> r.value.value == name && name in r.storage.containers
    ensures name in s.containers || !create ==> r.storage == s
    ensures name !in s.containers && create ==>
      r.storage.containers == s.containers[name := []] && r.storage.listing == s.listing + [name]
    ensures r.trace == [ContainerExists(name)] + (if name !in s.containers && create then [CreateContainer(name)] else [])
    ensures Writes(r.trace) == if name !in s.containers && create then [CreateContainer(name)] else []
  {
    if name in s.containers then Act(Some(name), s, [ContainerExists(name)])
    else if !create then Act(None, s, [ContainerExists(name)])
    else
      var t := [ContainerExists(name), CreateContainer(name)];
      assert t[1..][1..] == [];
      Act(Some(name), Storage(s.containers[name := []], s.listing + [name]), t)
  }

  /** `get_object_by_name`: the blob client when the container exists and
      holds a blob of that name. The blob's existence is asked only of a
      container that exists. */
  function GetObject(s: Storage, container: string, name: string): (r: Act<Option<BlobRef>>)
    ensures r.value.Some? <==> BlobAt(s, container, name).Some?
    ensures r.value.Some? ==> r.value.value == BlobRef(container, name)
    ensures r.storage == s
    ensures r.trace == [ContainerExists(container)] + (if container in s.containers then [BlobExists(container, name)] else [])
    ensures Writes(r.trace) == []
  {
    var c := GetContainer(s, container, false);
    var t := c.trace + (if container in s.containers then [BlobExists(container, name)] else []);
    assert forall i :: 0 <= i < |t| ==> !IsWrite(t[i]);
    WritesNone(t);
    if c.value.None? then Act(None, s, t)
    else if BlobAt(s, container, name).Some? then Act(Some(BlobRef(container, name)), s, t)
    else Act(None, s, t)
  }

  /** `are_tags_present`: whether the container's tag query lists a blob. */
  function AreTagsPresent(s: Storage, container: string, tags: Dict): (r: Act<bool>)
    ensures r.value <==> exists j :: 0 <= j < |BlobsOf(s, container)| && Carries(BlobsOf(s, container)[j], tags)
    ensures r.storage == s
    ensures r.trace == [FindBlobsByTags(container, FilterExpression(tags))]
  {
    Act(TaggedIn(s, container, tags).Some?, s, [FindBlobsByTags(container, FilterExpression(tags))])
  }

  /** The hit of the tag search among the containers `names`, walked in
      order: a name whose container lookup finds nothing is skipped, and the
      first blob of the first container whose query lists one is the
      answer. Also the calls the walk makes. */
  function Scan(s: Storage, names: seq<string>, tags: Dict): (r: (Option<BlobRef>, seq<Call>))
    ensures Writes(r.1) == []
    decreases |names|
  {
    if |names| == 0 then (None, [])
    else
      var n := names[0];
      var look := GetContainer(s, n, false);
      var rest := Scan(s, names[1..], tags);
      if look.value.None? then
        WritesConcat(look.trace, rest.1);
        (rest.0, look.trace + rest.1)
      else
        var query := look.trace + [FindBlobsByTags(n, FilterExpression(tags))];
        WritesConcat(look.trace, [FindBlobsByTags(n, FilterExpression(tags))]);
        WritesConcat(query, rest.1);
        var hit := TaggedIn(s, n, tags);
        if hit.Some? then (Some(BlobRef(n, hit.value.name)), query)
        else (rest.0, query + rest.1)
  }

  /** `filter_object_by_tags`: the tag search over every listed container. */
  function FilterObjectByTags(s: Storage, tags: Dict): (r: Act<Option<BlobRef>>)
    ensures r.storage == s
    ensures |r.trace| >= 1 && r.trace[0] == ListContainers
    ensures Writes(r.trace) == []
  {
    var scan := Scan(s, s.listing, tags);
    WritesConcat([ListContainers], scan.1);
    Act(scan.0, s, [ListContainers] + scan.1)
  }

  // The tag search against an independent description of its answer.

  /** A listed name whose container exists and holds a blob carrying the
      tags. */
  function Holds(s: Storage, tags: Dict): (string -> bool) {
    (n: string) => n in s.containers && TaggedIn(s, n, tags).Some?
  }

  /** The first listed container holding a tagged blob, and that container's
      first tagged blob. */
  function FirstTagged(s: Storage, names: seq<string>, tags: Dict): Option<BlobRef> {
    var i := FirstIndex(names, Holds(s, tags));
    if i < |names| then Some(BlobRef(names[i], TaggedIn(s, names[i], tags).value.name)) else None
  }

  lemma {:induction false} ScanFindsFirstTagged(s: Storage, names: seq<string>, tags: Dict)
    ensures Scan(s, names, tags).0 == FirstTagged(s, names, tags)
    decreases |names|
  {
    if |names| > 0 {
      ScanFindsFirstTagged(s, names[1..], tags);
    }
  }

  /** The tag search answers the first tagged blob of the first listed
      container that holds one; nothing when no listed container does. */
  lemma FilterObjectByTagsFinds(s: Storage, tags: Dict)
    ensures FilterObjectByTags(s, tags).value == FirstTagged(s, s.listing, tags)
    ensures FilterObjectByTags(s, tags).value.None? <==>
      forall j :: 0 <= j < |s.listing| ==> !Holds(s, tags)(s.listing[j])
    ensures FilterObjectByTags(s, tags).value.Some? ==>
      var ref := FilterObjectByTags(s, tags).value.value;
      && ref.container in s.listing
      && TaggedIn(s, ref.container, tags).Some?
      && TaggedIn(s, ref.container, tags).value.name == ref.name
      && BlobAt(s, ref.container, ref.name).Some?
  {
    ScanFindsFirstTagged(s, s.listing, tags);
    var i := FirstIndex(s.listing, Holds(s, tags));
    if i < |s.listing| {
      var n := s.listing[i];
      BlobAtOfMember(s, n, TaggedIn(s, n, tags).value);
    }
  }

  /** The tag search's hit is a blob the lookup by name finds. */
  lemma FilterHitExists(s: Storage, tags: Dict)
    ensures FilterObjectByTags(s, tags).value.Some? ==>
      BlobAt(s, FilterObjectByTags(s, tags).value.value.container, FilterObjectByTags(s, tags).value.value.name).Some?
  {
    FilterObjectByTagsFinds(s, tags);
  }

  /** A blob of a container is found by its name. */
  lemma BlobAtOfMember(s: Storage, c: string, b: Blob)
    requires c in s.containers && b in s.containers[c]
    ensures BlobAt(s, c, b.name).Some?
  {
    var j :| 0 <= j < |s.containers[c]| && s.containers[c][j] == b;
    assert BlobsOf(s, c)[j].name == b.name;
  }
}
