/** `delete` of `cloudimg/aws.py`: find the image by id, then by name; take
    the snapshot its first block device mapping names, or, without an image,
    find the snapshot by id and then by name; deregister the image, then
    delete the snapshot unless asked to keep it. */
module AwsDelete {
  import opened Outcomes
  import opened Seqs
  import opened Common
  import opened AwsModel
  import opened AwsLookup

  /** The snapshot an image's first block device mapping names. A missing
      mapping, a mapping without `Ebs` and an empty id all read as none. */
  function MappedSnapshotId(img: Image): (r: Option<string>)
    ensures r.Some? <==>
      |img.mappings| > 0 && img.mappings[0].ebs.Some? &&
      !Blank(img.mappings[0].ebs.value.snapshotId)
    ensures r.Some? ==> r.value == img.mappings[0].ebs.value.snapshotId.value
  {
    if |img.mappings| == 0 || img.mappings[0].ebs.None? then None
    else
      var id := img.mappings[0].ebs.value.snapshotId;
      if Blank(id) then None else id
  }

  /** What `delete` returns: the id of the image it deregistered and of the
      snapshot it deleted. */
  datatype Deleted = Deleted(imageId: Option<string>, snapshotId: Option<string>)

  /** The image lookup: by id, and by name only when the id finds nothing. */
  function FindImageToDelete(c: Cloud, md: DeleteMetadata): (r: Step<Option<Image>>)
    ensures r.cloud == c && r.out.Ok?
    ensures Only(r.trace, {KDescribeImages})
    ensures var byId := ImageById(c, Some(md.imageId));
      byId.out.value.Some? ==> r.out == byId.out
    ensures var byId := ImageById(c, Some(md.imageId));
      byId.out.value.None? ==> r.out == ImageByName(c, md.imageName).out
    ensures r.out.value.Some? ==> r.out.value.value in c.images
  {
    var byId := ImageById(c, Some(md.imageId));
    if byId.out.value.Some? then byId
    else
      var byName := ImageByName(c, md.imageName);
      OnlyConcat(byId.trace, byName.trace, {KDescribeImages});
      Step(byName.out, c, byId.trace + byName.trace)
  }

  /** The snapshot lookup: the one the found image maps, looked up by id
      only; without an image, by the requested id and then by the
      requested name. */
  function FindSnapshotToDelete(c: Cloud, md: DeleteMetadata, image: Option<Image>): (r: Step<Option<Snapshot>>)
    ensures r.cloud == c && r.out.Ok?
    ensures Only(r.trace, {KDescribeSnapshots})
    ensures image.Some? ==> r.out == SnapshotById(c, MappedSnapshotId(image.value)).out
    ensures image.None? && SnapshotById(c, md.snapshotId).out.value.Some? ==>
      r.out == SnapshotById(c, md.snapshotId).out
    ensures image.None? && SnapshotById(c, md.snapshotId).out.value.None? ==>
      r.out == SnapshotByName(c, md.snapshotName).out
    ensures r.out.value.Some? ==> r.out.value.value in c.snapshots
  {
    if image.Some? then SnapshotById(c, MappedSnapshotId(image.value))
    else
      var byId := SnapshotById(c, md.snapshotId);
      if byId.out.value.Some? then byId
      else
        var byName := SnapshotByName(c, md.snapshotName);
        OnlyConcat(byId.trace, byName.trace, {KDescribeSnapshots});
        Step(byName.out, c, byId.trace + byName.trace)
  }

  /** `deregister_image`: the image leaves the account's list. */
  function Deregister(c: Cloud, img: Image): (r: Step<string>)
    ensures r.out == Ok(img.id) && r.trace == [DeregisterImage(img.id)]
    ensures forall i :: 0 <= i < |r.cloud.images| ==> r.cloud.images[i].id != img.id
    ensures forall j :: 0 <= j < |c.images| && c.images[j].id != img.id ==> c.images[j] in r.cloud.images
    ensures forall i :: 0 <= i < |r.cloud.images| ==> r.cloud.images[i] in c.images
    ensures r.cloud == c.(images := r.cloud.images)
  {
    Step(Ok(img.id), c.(images := Keep(c.images, (x: Image) => x.id != img.id)), [DeregisterImage(img.id)])
  }

  /** `delete_snapshot`: the snapshot leaves the account's list. */
  function DeleteSnapshotStep(c: Cloud, s: Snapshot): (r: Step<string>)
    ensures r.out == Ok(s.id) && r.trace == [DeleteSnapshot(s.id)]
    ensures forall i :: 0 <= i < |r.cloud.snapshots| ==> r.cloud.snapshots[i].id != s.id
    ensures forall j :: 0 <= j < |c.snapshots| && c.snapshots[j].id != s.id ==> c.snapshots[j] in r.cloud.snapshots
    ensures forall i :: 0 <= i < |r.cloud.snapshots| ==> r.cloud.snapshots[i] in c.snapshots
    ensures r.cloud == c.(snapshots := r.cloud.snapshots)
  {
    Step(Ok(s.id), c.(snapshots := Keep(c.snapshots, (x: Snapshot) => x.id != s.id)), [DeleteSnapshot(s.id)])
  }

  /** `delete`: both lookups come first; then the image is deregistered and
      the snapshot deleted, in that order. */
  function Delete(c: Cloud, md: DeleteMetadata): (r: Step<Deleted>)
    ensures var image := FindImageToDelete(c, md);
      var snap := FindSnapshotToDelete(c, md, image.out.value);
      r.out == Ok(Deleted(
        if image.out.value.Some? then Some(image.out.value.value.id) else None,
        if snap.out.value.Some? && !md.skipSnapshot then Some(snap.out.value.value.id) else None))
  {
    var image := FindImageToDelete(c, md);
    var snap := FindSnapshotToDelete(c, md, image.out.value);
    var lookups := image.trace + snap.trace;
    var dereg :=
      if image.out.value.Some? then Deregister(c, image.out.value.value)
      else Step(Ok(""), c, []);
    var del :=
      if snap.out.value.Some? && !md.skipSnapshot then DeleteSnapshotStep(dereg.cloud, snap.out.value.value)
      else Step(Ok(""), dereg.cloud, []);
    Step(Ok(Deleted(
           if image.out.value.Some? then Some(image.out.value.value.id) else None,
           if snap.out.value.Some? && !md.skipSnapshot then Some(snap.out.value.value.id) else None)),
         del.cloud,
         lookups + dereg.trace + del.trace)
  }

  // What `delete` leaves behind.

  /** The deregistered image is gone and every other image stays; without
      an image found, the images are untouched. */
  lemma DeleteImageEffect(c: Cloud, md: DeleteMetadata)
    ensures var r := Delete(c, md);
      r.out.value.imageId.Some? ==>
        (forall i :: 0 <= i < |r.cloud.images| ==> r.cloud.images[i].id != r.out.value.imageId.value) &&
        (forall j :: 0 <= j < |c.images| && c.images[j].id != r.out.value.imageId.value ==> c.images[j] in r.cloud.images) &&
        (forall i :: 0 <= i < |r.cloud.images| ==> r.cloud.images[i] in c.images)
    ensures var r := Delete(c, md);
      r.out.value.imageId.None? ==> r.cloud.images == c.images
  {
  }

  /** The deleted snapshot is gone and every other snapshot stays; without
      a deletion, the snapshots are untouched. */
  lemma DeleteSnapshotEffect(c: Cloud, md: DeleteMetadata)
    ensures var r := Delete(c, md);
      r.out.value.snapshotId.Some? ==>
        (forall i :: 0 <= i < |r.cloud.snapshots| ==> r.cloud.snapshots[i].id != r.out.value.snapshotId.value) &&
        (forall j :: 0 <= j < |c.snapshots| && c.snapshots[j].id != r.out.value.snapshotId.value ==>
           c.snapshots[j] in r.cloud.snapshots) &&
        (forall i :: 0 <= i < |r.cloud.snapshots| ==> r.cloud.snapshots[i] in c.snapshots)
    ensures var r := Delete(c, md);
      r.out.value.snapshotId.None? ==> r.cloud.snapshots == c.snapshots
  {
  }

  /** After `delete` the image it reports is no longer found by its id. */
  lemma DeletedImageNotFound(c: Cloud, md: DeleteMetadata)
    requires Delete(c, md).out.value.imageId.Some?
    ensures var r := Delete(c, md);
      ImageById(r.cloud, r.out.value.imageId).out == Ok(None)
  {
    DeleteImageEffect(c, md);
  }

  /** After `delete` the snapshot it reports is no longer found by its id. */
  lemma DeletedSnapshotNotFound(c: Cloud, md: DeleteMetadata)
    requires Delete(c, md).out.value.snapshotId.Some?
    ensures var r := Delete(c, md);
      SnapshotById(r.cloud, r.out.value.snapshotId).out == Ok(None)
  {
    DeleteSnapshotEffect(c, md);
  }

  /** `skip_snapshot` keeps every snapshot. */
  lemma SkipKeepsSnapshots(c: Cloud, md: DeleteMetadata)
    requires md.skipSnapshot
    ensures Delete(c, md).out.value.snapshotId.None?
    ensures Delete(c, md).cloud.snapshots == c.snapshots
  {
  }

  /** A found image decides the snapshot: when its mapping names none, no
      snapshot is deleted, whatever snapshot the request names. */
  lemma ImageWithoutMappingKeepsSnapshots(c: Cloud, md: DeleteMetadata)
    requires FindImageToDelete(c, md).out.value.Some?
    requires MappedSnapshotId(FindImageToDelete(c, md).out.value.value).None?
    ensures Delete(c, md).out.value.snapshotId.None?
    ensures Delete(c, md).cloud.snapshots == c.snapshots
  {
  }

  // The calls `delete` makes.

  /** The calls of `delete`: the lookups, then the deregistration when an
      image is found, then the snapshot deletion when one is done. */
  lemma DeleteTrace(c: Cloud, md: DeleteMetadata)
    ensures var r := Delete(c, md);
      var image := FindImageToDelete(c, md);
      var snap := FindSnapshotToDelete(c, md, image.out.value);
      r.trace == image.trace + snap.trace +
        (if r.out.value.imageId.Some? then [DeregisterImage(r.out.value.imageId.value)] else []) +
        (if r.out.value.snapshotId.Some? then [DeleteSnapshot(r.out.value.snapshotId.value)] else [])
  {
  }

  /** At most one deregistration and one snapshot deletion, each exactly
      when `delete` reports it. */
  lemma DeleteCalls(c: Cloud, md: DeleteMetadata)
    ensures var r := Delete(c, md);
      Count(r.trace, KDeregister) == (if r.out.value.imageId.Some? then 1 else 0) &&
      Count(r.trace, KDeleteSnapshot) == (if r.out.value.snapshotId.Some? then 1 else 0)
  {
    var r := Delete(c, md);
    var image := FindImageToDelete(c, md);
    var snap := FindSnapshotToDelete(c, md, image.out.value);
    var lookups := image.trace + snap.trace;
    var dereg: seq<Call> := if r.out.value.imageId.Some? then [DeregisterImage(r.out.value.imageId.value)] else [];
    var del: seq<Call> := if r.out.value.snapshotId.Some? then [DeleteSnapshot(r.out.value.snapshotId.value)] else [];
    DeleteTrace(c, md);
    LookupCounts(image.trace, snap.trace);
    TailCounts(lookups, dereg, del);
  }

  lemma TailCounts(lookups: seq<Call>, dereg: seq<Call>, del: seq<Call>)
    requires Count(lookups, KDeregister) == 0 && Count(lookups, KDeleteSnapshot) == 0
    requires dereg == [] || (|dereg| == 1 && dereg[0].DeregisterImage?)
    requires del == [] || (|del| == 1 && del[0].DeleteSnapshot?)
    ensures Count(lookups + dereg + del, KDeregister) == |dereg|
    ensures Count(lookups + dereg + del, KDeleteSnapshot) == |del|
  {
    CountConcat(lookups, dereg, KDeregister);
    CountConcat(lookups + dereg, del, KDeregister);
    CountConcat(lookups, dereg, KDeleteSnapshot);
    CountConcat(lookups + dereg, del, KDeleteSnapshot);
    if |dereg| == 1 {
      assert dereg == [dereg[0]];
      CountOne(dereg[0], KDeregister);
      CountOne(dereg[0], KDeleteSnapshot);
    }
    if |del| == 1 {
      assert del == [del[0]];
      CountOne(del[0], KDeregister);
      CountOne(del[0], KDeleteSnapshot);
    }
  }

  /** When both are removed, the deregistration comes right before the
      snapshot deletion, and they are the last two calls. */
  lemma DeregisterBeforeDelete(c: Cloud, md: DeleteMetadata)
    requires Delete(c, md).out.value.imageId.Some? && Delete(c, md).out.value.snapshotId.Some?
    ensures var r := Delete(c, md);
      |r.trace| >= 2 &&
      r.trace[|r.trace| - 2..] == [DeregisterImage(r.out.value.imageId.value), DeleteSnapshot(r.out.value.snapshotId.value)]
  {
    DeleteTrace(c, md);
  }

  lemma LookupCounts(images: seq<Call>, snapshots: seq<Call>)
    requires Only(images, {KDescribeImages}) && Only(snapshots, {KDescribeSnapshots})
    ensures Count(images + snapshots, KDeregister) == 0 && Count(images + snapshots, KDeleteSnapshot) == 0
  {
    OnlyWeaken(images, {KDescribeImages}, {KDescribeImages, KDescribeSnapshots});
    OnlyWeaken(snapshots, {KDescribeSnapshots}, {KDescribeImages, KDescribeSnapshots});
    OnlyConcat(images, snapshots, {KDescribeImages, KDescribeSnapshots});
    OnlyCountZero(images + snapshots, {KDescribeImages, KDescribeSnapshots}, KDeregister);
    OnlyCountZero(images + snapshots, {KDescribeImages, KDescribeSnapshots}, KDeleteSnapshot);
  }
}
