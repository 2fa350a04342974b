/** The lookups of `cloudimg/aws.py`: images by name, tags or id, snapshots
    by name or id, S3 objects and buckets. None changes the cloud. */
module AwsLookup {
  import opened Outcomes
  import opened Dicts
  import opened AwsModel
  import opened AwsRequests

  /** `get_image_by_filters`: one `describe_images` call, the first image
      it lists. */
  function ImageByFilters(c: Cloud, filters: seq<Filter>): (r: Step<Option<Image>>)
    ensures r.cloud == c && r.trace == [DescribeImages(filters)]
    ensures r.out == Ok(DescribeImagesFirst(c, filters))
  {
    Step(Ok(DescribeImagesFirst(c, filters)), c, [DescribeImages(filters)])
  }

  /** `get_image_by_name`: nothing is asked for a missing or empty name. */
  function ImageByName(c: Cloud, name: Option<string>): (r: Step<Option<Image>>)
    ensures r.cloud == c && r.out.Ok?
    ensures Blank(name) ==> r.out == Ok(None) && r.trace == []
    ensures !Blank(name) ==> r.trace == [DescribeImages([Filter("name", [name.value])])]
    ensures r.out.value.Some? ==> r.out.value.value in c.images && r.out.value.value.name == name.value
    ensures !Blank(name) && r.out.value.None? ==> forall i :: 0 <= i < |c.images| ==> c.images[i].name != name.value
  {
    if Blank(name) then Step(Ok(None), c, [])
    else
      var fs := NameFilters(name.value);
      assert fs[0] in fs && forall f :: f in fs ==> f == fs[0];
      ImageByFilters(c, fs)
  }

  /** `get_image_by_tags`: nothing is asked for an empty dictionary;
      otherwise one filter per tag. */
  function ImageByTags(c: Cloud, tags: Dict): (r: Step<Option<Image>>)
    ensures r.cloud == c && r.out.Ok?
    ensures |tags| == 0 ==> r.out == Ok(None) && r.trace == []
    ensures |tags| > 0 ==> r.trace == [DescribeImages(TagFilters(tags))]
    ensures r.out.value.Some? ==> r.out.value.value in c.images
    ensures r.out.value.Some? ==>
      forall i :: 0 <= i < |tags| ==> Get(r.out.value.value.tags, tags[i].0) == Some(tags[i].1)
  {
    if |tags| == 0 then Step(Ok(None), c, [])
    else
      var r := ImageByFilters(c, TagFilters(tags));
      assert r.out.value.Some? ==> forall i :: 0 <= i < |tags| ==> Get(r.out.value.value.tags, tags[i].0) == Some(tags[i].1) by {
        if r.out.value.Some? {
          TagFiltersMatch(tags, r.out.value.value);
        }
      }
      r
  }

  /** `get_image_by_id`. */
  function ImageById(c: Cloud, id: Option<string>): (r: Step<Option<Image>>)
    ensures r.cloud == c && r.out.Ok?
    ensures Blank(id) ==> r.out == Ok(None) && r.trace == []
    ensures !Blank(id) ==> r.trace == [DescribeImages([Filter("image-id", [id.value])])]
    ensures r.out.value.Some? ==> r.out.value.value in c.images && r.out.value.value.id == id.value
    ensures !Blank(id) && r.out.value.None? ==> forall i :: 0 <= i < |c.images| ==> c.images[i].id != id.value
  {
    if Blank(id) then Step(Ok(None), c, [])
    else
      var fs := ImageIdFilters(id.value);
      assert fs[0] in fs && forall f :: f in fs ==> f == fs[0];
      ImageByFilters(c, fs)
  }

  /** `get_snapshot_by_name`: snapshots carry their name as the `Name` tag. */
  function SnapshotByName(c: Cloud, name: Option<string>): (r: Step<Option<Snapshot>>)
    ensures r.cloud == c && r.out.Ok?
    ensures Blank(name) ==> r.out == Ok(None) && r.trace == []
    ensures !Blank(name) ==> r.trace == [DescribeSnapshots([Filter("tag:Name", [name.value])])]
    ensures r.out.value.Some? ==> r.out.value.value in c.snapshots && Get(r.out.value.value.tags, "Name") == Some(name.value)
    ensures !Blank(name) && r.out.value.None? ==>
      forall i :: 0 <= i < |c.snapshots| ==> Get(c.snapshots[i].tags, "Name") != Some(name.value)
  {
    if Blank(name) then Step(Ok(None), c, [])
    else
      var fs := SnapshotNameFilters(name.value);
      assert "tag:Name"[4..] == "Name";
      assert fs[0] in fs && forall f :: f in fs ==> f == fs[0];
      Step(Ok(DescribeSnapshotsFirst(c, fs)), c, [DescribeSnapshots(fs)])
  }

  /** `get_snapshot_by_id`. */
  function SnapshotById(c: Cloud, id: Option<string>): (r: Step<Option<Snapshot>>)
    ensures r.cloud == c && r.out.Ok?
    ensures Blank(id) ==> r.out == Ok(None) && r.trace == []
    ensures !Blank(id) ==> r.trace == [DescribeSnapshots([Filter("snapshot-id", [id.value])])]
    ensures r.out.value.Some? ==> r.out.value.value in c.snapshots && r.out.value.value.id == id.value
    ensures !Blank(id) && r.out.value.None? ==> forall i :: 0 <= i < |c.snapshots| ==> c.snapshots[i].id != id.value
  {
    if Blank(id) then Step(Ok(None), c, [])
    else
      var fs := SnapshotIdFilters(id.value);
      assert fs[0] in fs && forall f :: f in fs ==> f == fs[0];
      Step(Ok(DescribeSnapshotsFirst(c, fs)), c, [DescribeSnapshots(fs)])
  }

  /** An S3 object, named by bucket and key. */
  datatype ObjectRef = ObjectRef(bucket: string, key: string)

  /** `get_object_by_name`: a HEAD on the object. A 404 means absent; any
      other error is raised. */
  function ObjectByName(c: Cloud, bucket: string, key: string): (r: Step<Option<ObjectRef>>)
    ensures r.cloud == c && r.trace == [HeadObject(bucket, key)]
    ensures (bucket, key) !in c.objectFaults ==>
      r.out == Ok(if (bucket, key) in c.objects then Some(ObjectRef(bucket, key)) else None)
    ensures (bucket, key) in c.objectFaults ==> r.out == HeadFailure(c.objectFaults[(bucket, key)])
  {
    var out :=
      if (bucket, key) in c.objectFaults then HeadFailure(c.objectFaults[(bucket, key)])
      else if (bucket, key) in c.objects then Ok(Some(ObjectRef(bucket, key)))
      else Ok(None);
    Step(out, c, [HeadObject(bucket, key)])
  }

  /** `get_container_by_name`: a HEAD on the bucket, with the same error
      handling. */
  function ContainerByName(c: Cloud, bucket: string): (r: Step<Option<string>>)
    ensures r.cloud == c && r.trace == [HeadBucket(bucket)]
    ensures bucket !in c.bucketFaults ==> r.out == Ok(if bucket in c.buckets then Some(bucket) else None)
    ensures bucket in c.bucketFaults ==> r.out == HeadFailure(c.bucketFaults[bucket])
  {
    var out :=
      if bucket in c.bucketFaults then HeadFailure(c.bucketFaults[bucket])
      else if bucket in c.buckets then Ok(Some(bucket))
      else Ok(None);
    Step(out, c, [HeadBucket(bucket)])
  }

  /** Only a 404 reads as "absent": every other HEAD failure propagates. */
  lemma ObjectAbsentOnlyOn404(c: Cloud, bucket: string, key: string)
    requires (bucket, key) in c.objectFaults
    ensures ObjectByName(c, bucket, key).out == Ok(None) <==> c.objectFaults[(bucket, key)] == Code(404)
    ensures ObjectByName(c, bucket, key).out.Ok? <==> c.objectFaults[(bucket, key)] == Code(404)
  {
  }
}
