/** `publish` of `cloudimg/aws.py` and the steps it chains: find the image
    (by name, then by tags); failing that find the snapshot (by name);
    failing that find the S3 object, uploading it when missing, import it as
    a snapshot, tag and share the snapshot; register the image from the
    snapshot and tag it; finally share the image. Each stage that finds its
    result skips everything before it.

    The source passes its tag dictionaries around by reference and updates
    them in place, so one stage's merge can show up in a later stage. Here
    every merge builds a fresh dictionary; `AmiTagsAsWritten` records what
    the in-place updates do to the image's tags. */
module AwsPublish {
  import opened Outcomes
  import opened Dicts
  import opened Common
  import opened AwsModel
  import opened AwsMetadata
  import opened AwsRequests
  import opened AwsLookup
  import opened AwsUpload
  import opened AwsPoller

  /** What the provider decides on its own: the answers to the import task
      queries, and the id it gives a newly registered image. */
  datatype Provider = Provider(answers: nat -> TaskDetail, newImageId: string)

  /** `n` queries of the import task. */
  function Queries(n: nat): (t: seq<Call>)
    ensures |t| == n
    ensures Only(t, {KDescribeImportTask})
  {
    if n == 0 then []
    else
      var rest := Queries(n - 1);
      assert ([DescribeImportTask] + rest)[1..] == rest;
      [DescribeImportTask] + rest
  }

  // Sharing.

  /** The permissions a `share_image` call adds. */
  function PermissionSet(accounts: seq<string>, groups: seq<string>): set<Permission> {
    set p | p in LaunchPermissions(accounts, groups)
  }

  /** A list argument as Python's truth test sees it: `None` and `[]` are
      both false. */
  predicate Given(xs: Option<seq<string>>) {
    xs.Some? && |xs.value| > 0
  }

  /** `share_image` gets past its early return when it has an account or a
      group, and then iterates both lists: a `None` one raises `TypeError`
      before any call is made. */
  predicate ShareRaises(accounts: Option<seq<string>>, groups: Option<seq<string>>) {
    (Given(accounts) || Given(groups)) && (accounts.None? || groups.None?)
  }

  /** What `share_image` leaves `publish` to return for the image `imageId`. */
  function ShareOutcome(accounts: Option<seq<string>>, groups: Option<seq<string>>, imageId: string): Result<string, Error> {
    if ShareRaises(accounts, groups) then Fail(TypeError("'NoneType' object is not iterable")) else Ok(imageId)
  }

  /** `share_image`: nothing when there is no account and no group; a
      `TypeError` when one of the two lists is `None` and the other is not
      empty; otherwise one call adding all of them. */
  function ShareImageStep(c: Cloud, imageId: string, accounts: Option<seq<string>>, groups: Option<seq<string>>): (r: Step<string>)
    ensures r.out == ShareOutcome(accounts, groups, imageId)
    ensures r.out.Fail? <==> ShareRaises(accounts, groups)
    ensures r.out.Fail? ==> r.out.error.TypeError? && r.trace == [] && r.cloud == c
    ensures !Given(accounts) && !Given(groups) ==> r.out == Ok(imageId) && r.trace == [] && r.cloud == c
    ensures (Given(accounts) || Given(groups)) && accounts.Some? && groups.Some? ==>
      r.out == Ok(imageId) && r.trace == [ShareImage(imageId, LaunchPermissions(accounts.value, groups.value))]
    ensures Only(r.trace, {KShareImage})
    ensures r.cloud.images == c.images && r.cloud.snapshots == c.snapshots && r.cloud.objects == c.objects
    ensures r.cloud.volumePermissions == c.volumePermissions
    ensures (Given(accounts) || Given(groups)) && accounts.Some? && groups.Some? ==>
      imageId in r.cloud.launchPermissions &&
      (forall a :: a in accounts.value ==> UserId(a) in r.cloud.launchPermissions[imageId]) &&
      (forall g :: g in groups.value ==> Group(g) in r.cloud.launchPermissions[imageId])
  {
    if !Given(accounts) && !Given(groups) then Step(Ok(imageId), c, [])
    else if accounts.None? || groups.None? then Step(ShareOutcome(accounts, groups, imageId), c, [])
    else
      var ps := LaunchPermissions(accounts.value, groups.value);
      LaunchPermissionsCover(accounts.value, groups.value);
      Step(Ok(imageId),
           c.(launchPermissions := Grant(c.launchPermissions, imageId, PermissionSet(accounts.value, groups.value))),
           [ShareImage(imageId, ps)])
  }

  /** The `None` cases of `share_image`: a `None` list next to a non-empty
      one raises `TypeError` without a call, and next to a falsy one it is
      a no-op. */
  lemma ShareImageNoneList(c: Cloud, imageId: string, xs: seq<string>)
    ensures |xs| > 0 ==>
      ShareImageStep(c, imageId, None, Some(xs)).out.Fail? &&
      ShareImageStep(c, imageId, None, Some(xs)).out.error.TypeError? &&
      ShareImageStep(c, imageId, Some(xs), None).out.Fail? &&
      ShareImageStep(c, imageId, Some(xs), None).trace == []
    ensures |xs| == 0 ==>
      ShareImageStep(c, imageId, None, Some(xs)) == Step(Ok(imageId), c, []) &&
      ShareImageStep(c, imageId, Some(xs), None) == Step(Ok(imageId), c, [])
    ensures ShareImageStep(c, imageId, None, None) == Step(Ok(imageId), c, [])
  {
  }

  /** Sharing an image twice leaves the account as sharing it once. */
  lemma ShareImageIdempotent(c: Cloud, imageId: string, accounts: Option<seq<string>>, groups: Option<seq<string>>)
    ensures var once := ShareImageStep(c, imageId, accounts, groups);
      ShareImageStep(once.cloud, imageId, accounts, groups).cloud == once.cloud
  {
    if (Given(accounts) || Given(groups)) && accounts.Some? && groups.Some? {
      GrantIdempotent(c.launchPermissions, imageId, PermissionSet(accounts.value, groups.value));
    }
  }

  /** `share_snapshot`: nothing without accounts, otherwise one call adding
      a create-volume permission for each. */
  function ShareSnapshotStep(c: Cloud, snapshotId: string, accounts: seq<string>): (r: Step<string>)
    ensures r.out == Ok(snapshotId)
    ensures |accounts| == 0 ==> r.trace == [] && r.cloud == c
    ensures |accounts| > 0 ==> r.trace == [ShareSnapshot(snapshotId, accounts)]
    ensures Only(r.trace, {KShareSnapshot})
    ensures r.cloud.images == c.images && r.cloud.snapshots == c.snapshots && r.cloud.objects == c.objects
    ensures r.cloud.launchPermissions == c.launchPermissions
    ensures |accounts| > 0 ==>
      snapshotId in r.cloud.volumePermissions &&
      forall a :: a in accounts ==> a in r.cloud.volumePermissions[snapshotId]
  {
    if |accounts| == 0 then Step(Ok(snapshotId), c, [])
    else
      Step(Ok(snapshotId),
           c.(volumePermissions := Grant(c.volumePermissions, snapshotId, set a | a in accounts)),
           [ShareSnapshot(snapshotId, accounts)])
  }

  // Importing and registering.

  /** What boto3's resource constructor raises for `ec2.Snapshot(None)`. */
  const NoSnapshotId := ValueError("Required parameter id not set")

  /** `import_snapshot`: request the import, poll the task with the default
      budget, then name the new snapshot by tagging it with `tags` plus
      `Name`. A task that completes without a snapshot id cannot be turned
      into a snapshot: boto3 refuses to build `ec2.Snapshot(None)`. */
  function ImportSnapshotStep(c: Cloud, svc: Service, obj: ObjectRef, snapshotName: string, tags: Dict,
                              answers: nat -> TaskDetail): (r: Step<string>)
    ensures |r.trace| >= 1 && r.trace[0] == ImportSnapshot(ImportRequestOf(obj.bucket, obj.key, svc.importRole))
    ensures var poll := PollImport(answers, DefaultAttempts);
      |r.trace| == 1 + poll.queries + (if r.out.Ok? then 1 else 0)
    ensures var poll := PollImport(answers, DefaultAttempts);
      poll.out.Fail? ==> r.out == Fail(poll.out.error) && r.cloud == c
    ensures var poll := PollImport(answers, DefaultAttempts);
      poll.out == Ok(None) ==> r.out == Fail(NoSnapshotId) && r.cloud == c
    ensures var poll := PollImport(answers, DefaultAttempts);
      r.out.Ok? <==> poll.out.Ok? && poll.out.value.Some?
    ensures r.out.Ok? ==>
      r.out.value == PollImport(answers, DefaultAttempts).out.value.value &&
      r.trace[|r.trace| - 1] == CreateSnapshotTags(r.out.value, Records(Put(tags, "Name", snapshotName))) &&
      r.cloud == c.(snapshots := c.snapshots + [Snapshot(r.out.value, Put(tags, "Name", snapshotName))])
    ensures r.out.Ok? ==> Get(r.cloud.snapshots[|r.cloud.snapshots| - 1].tags, "Name") == Some(snapshotName)
  {
    var request := ImportRequestOf(obj.bucket, obj.key, svc.importRole);
    var poll := PollImport(answers, DefaultAttempts);
    var calls := [ImportSnapshot(request)] + Queries(poll.queries);
    match poll.out
    case Fail(e) => Step(Fail(e), c, calls)
    case Ok(id) =>
      if id.None? then Step(Fail(NoSnapshotId), c, calls)
      else
        var named := Put(tags, "Name", snapshotName);
        var trace := calls + [CreateSnapshotTags(id.value, Records(named))];
        Step(Ok(id.value), c.(snapshots := c.snapshots + [Snapshot(id.value, named)]), trace)
  }

  /** The import makes only import, task query and snapshot tagging
      calls. */
  lemma ImportSnapshotCalls(c: Cloud, svc: Service, obj: ObjectRef, snapshotName: string, tags: Dict,
                            answers: nat -> TaskDetail)
    ensures Only(ImportSnapshotStep(c, svc, obj, snapshotName, tags, answers).trace,
                 {KImport, KDescribeImportTask, KCreateSnapshotTags})
  {
    var ks := {KImport, KDescribeImportTask, KCreateSnapshotTags};
    var r := ImportSnapshotStep(c, svc, obj, snapshotName, tags, answers);
    var request := ImportRequestOf(obj.bucket, obj.key, svc.importRole);
    var poll := PollImport(answers, DefaultAttempts);
    var calls := [ImportSnapshot(request)] + Queries(poll.queries);
    OnlyWeaken(Queries(poll.queries), {KDescribeImportTask}, ks);
    OnlyConcat([ImportSnapshot(request)], Queries(poll.queries), ks);
    if r.out.Ok? {
      var named := Put(tags, "Name", snapshotName);
      OnlyConcat(calls, [CreateSnapshotTags(r.out.value, Records(named))], ks);
      assert r.trace == calls + [CreateSnapshotTags(r.out.value, Records(named))];
    } else {
      assert r.trace == calls;
    }
  }

  /** `register_image`: register the image from the snapshot, then tag it
      when `tags` or `ami_tags` has an entry, with `ami_tags` winning. */
  function RegisterImageStep(c: Cloud, md: AwsPublishingMetadata, snapshotId: string, imageId: string): (r: Step<string>)
    ensures r.out == Ok(imageId)
    ensures |r.trace| >= 1 && r.trace[0] == RegisterImage(RegisterRequestOf(md, snapshotId))
    ensures var tags := ImageTags(md.base.details.tags, md.amiTags);
      (|md.base.details.tags| == 0 && |md.amiTags| == 0 ==> |r.trace| == 1) &&
      (|md.base.details.tags| + |md.amiTags| > 0 ==>
         r.trace == [RegisterImage(RegisterRequestOf(md, snapshotId)), CreateImageTags(imageId, Records(tags))])
    ensures |r.cloud.images| == |c.images| + 1 && r.cloud.images[..|c.images|] == c.images
    ensures r.cloud.images[|c.images|].id == imageId
    ensures r.cloud.images[|c.images|].name == md.base.imageName
    ensures r.cloud.images[|c.images|].mappings == RootMapping(md, snapshotId)
    ensures r.cloud.images[|c.images|].tags == ImageTags(md.base.details.tags, md.amiTags)
    ensures r.cloud == c.(images := r.cloud.images)
  {
    var tags := ImageTags(md.base.details.tags, md.amiTags);
    var img := Image(imageId, md.base.imageName, tags, RootMapping(md, snapshotId));
    var tagging := if |tags| > 0 then [CreateImageTags(imageId, Records(tags))] else [];
    Step(Ok(imageId), c.(images := c.images + [img]), [RegisterImage(RegisterRequestOf(md, snapshotId))] + tagging)
  }

  /** Registering makes only the registration and the image tagging. */
  lemma RegisterImageCalls(c: Cloud, md: AwsPublishingMetadata, snapshotId: string, imageId: string)
    ensures Only(RegisterImageStep(c, md, snapshotId, imageId).trace, {KRegister, KCreateImageTags})
  {
    var t := RegisterImageStep(c, md, snapshotId, imageId).trace;
    if |t| > 1 {
      assert t[1..][1..] == [];
    }
  }

  // The stages of `publish`.

  /** The metadata `publish` works from: the constructor refuses one
      without a container. */
  predicate Publishable(md: AwsPublishingMetadata) {
    !Blank(md.base.details.container)
  }

  /** The image lookup: by name, and by tags only when the name finds
      nothing. */
  function FindImage(c: Cloud, md: AwsPublishingMetadata): (r: Step<Option<Image>>)
    ensures r.cloud == c && r.out.Ok?
    ensures Only(r.trace, {KDescribeImages})
    ensures var byName := ImageByName(c, Some(md.base.imageName));
      byName.out.value.Some? ==> r.out == byName.out && r.trace == byName.trace
    ensures var byName := ImageByName(c, Some(md.base.imageName));
      byName.out.value.None? ==>
        r.out == ImageByTags(c, md.base.details.tags).out &&
        r.trace == byName.trace + ImageByTags(c, md.base.details.tags).trace
    ensures r.out.value.Some? ==> r.out.value.value in c.images
  {
    var byName := ImageByName(c, Some(md.base.imageName));
    if byName.out.value.Some? then byName
    else
      var byTags := ImageByTags(c, md.base.details.tags);
      OnlyConcat(byName.trace, byTags.trace, {KDescribeImages});
      Step(byTags.out, c, byName.trace + byTags.trace)
  }

  /** The calls of the object stage. */
  const ObjectKinds: set<Kind> := {KHeadObject, KHeadBucket, KCreateBucket, KHttpGet, KUpload, KPutObjectTagging}

  /** The calls of an import: the request, the task queries, the tagging. */
  const ImportCallKinds: set<Kind> := {KImport, KDescribeImportTask, KCreateSnapshotTags}

  /** The calls of the snapshot stage. */
  const SnapshotKinds: set<Kind> :=
    ObjectKinds + {KDescribeSnapshots, KImport, KDescribeImportTask, KCreateSnapshotTags, KShareSnapshot}

  /** The calls of the image stage: everything but sharing the image. */
  const ImageKinds: set<Kind> := SnapshotKinds + {KDescribeImages, KRegister, KCreateImageTags}

  /** How the kind sets of the stages nest. */
  lemma StageKindsNest()
    ensures {KDescribeSnapshots} <= SnapshotKinds && ObjectKinds <= SnapshotKinds
    ensures ImportCallKinds + {KShareSnapshot} <= SnapshotKinds
    ensures SnapshotKinds <= ImageKinds && {KDescribeImages} <= ImageKinds
    ensures {KRegister, KCreateImageTags} <= ImageKinds
  {
  }

  /** The object stage: HEAD the object, and upload it (tagged with `tags`)
      only when the HEAD finds nothing. */
  function ObtainObject(c: Cloud, svc: Service, md: AwsPublishingMetadata): (r: Step<ObjectRef>)
    requires Publishable(md)
    ensures Only(r.trace, ObjectKinds)
    ensures r.out.Ok? ==> r.out.value == ObjectRef(md.base.details.container.value, md.base.ObjectName())
    ensures r.cloud.images == c.images && r.cloud.snapshots == c.snapshots
    ensures r.cloud.launchPermissions == c.launchPermissions && r.cloud.volumePermissions == c.volumePermissions
  {
    ObjectAt(c, svc, md.base.imagePath, md.base.details.container.value, md.base.ObjectName(), md.base.details.tags)
  }

  /** The object stage for the object `key` of `bucket`, uploaded from
      `imagePath`. */
  function ObjectAt(c: Cloud, svc: Service, imagePath: string, bucket: string, key: string, tags: Dict): (r: Step<ObjectRef>)
    ensures Only(r.trace, ObjectKinds)
    ensures r.out.Ok? ==> r.out.value == ObjectRef(bucket, key)
    ensures r.cloud.images == c.images && r.cloud.snapshots == c.snapshots
    ensures r.cloud.launchPermissions == c.launchPermissions && r.cloud.volumePermissions == c.volumePermissions
  {
    var head := ObjectByName(c, bucket, key);
    var rest := AfterObjectHead(c, head.out, svc, imagePath, bucket, key, tags);
    HeadObjectFirst(bucket, key, rest.trace);
    Step(rest.out, rest.cloud, head.trace + rest.trace)
  }

  /** What follows the HEAD on the object: a failed HEAD ends the stage, a
      found object is used as it is, a missing one is uploaded. */
  function AfterObjectHead(c: Cloud, head: Result<Option<ObjectRef>, Error>, svc: Service, imagePath: string,
                           bucket: string, key: string, tags: Dict): (r: Step<ObjectRef>)
    requires head.Ok? && head.value.Some? ==> head.value.value == ObjectRef(bucket, key)
    ensures Only(r.trace, ObjectKinds)
    ensures r.out.Ok? ==> r.out.value == ObjectRef(bucket, key)
    ensures head.Fail? ==> r.out == Fail(head.error) && r.trace == [] && r.cloud == c
    ensures head.Ok? && head.value.Some? ==> r.out == Ok(head.value.value) && r.trace == [] && r.cloud == c
    ensures head == Ok(None) ==> r == UploadToContainer(c, svc, imagePath, bucket, key, tags)
    ensures r.cloud.images == c.images && r.cloud.snapshots == c.snapshots
    ensures r.cloud.launchPermissions == c.launchPermissions && r.cloud.volumePermissions == c.volumePermissions
  {
    if head.Fail? then Step(Fail(head.error), c, [])
    else if head.value.Some? then Step(Ok(head.value.value), c, [])
    else
      UploadCallsAreObjectCalls(ContainerByName(c, bucket).out, svc, imagePath, HttpStatus(c, imagePath), bucket, key, tags);
      UploadToContainer(c, svc, imagePath, bucket, key, tags)
  }

  /** A HEAD on the object followed by object-stage calls is object-stage
      calls. */
  lemma HeadObjectFirst(bucket: string, key: string, t: seq<Call>)
    requires Only(t, ObjectKinds)
    ensures Only([HeadObject(bucket, key)] + t, ObjectKinds)
  {
    assert ([HeadObject(bucket, key)] + t)[1..] == t;
    assert KHeadObject in ObjectKinds;
  }

  /** The object stage HEADs the object first; a failed HEAD ends it, a
      found object is used as it is, and only a missing one is uploaded,
      with the upload deciding the outcome. */
  lemma ObtainObjectCases(c: Cloud, svc: Service, md: AwsPublishingMetadata)
    requires Publishable(md)
    ensures var r := ObtainObject(c, svc, md);
      |r.trace| >= 1 && r.trace[0] == HeadObject(md.base.details.container.value, md.base.ObjectName())
    ensures var r := ObtainObject(c, svc, md);
      var head := ObjectByName(c, md.base.details.container.value, md.base.ObjectName());
      head.out.Fail? ==> r.out == Fail(head.out.error) && r.trace == head.trace
    ensures var r := ObtainObject(c, svc, md);
      var head := ObjectByName(c, md.base.details.container.value, md.base.ObjectName());
      head.out.Ok? && head.out.value.Some? ==> r.out == Ok(head.out.value.value) && r.trace == head.trace && r.cloud == c
    ensures var r := ObtainObject(c, svc, md);
      var head := ObjectByName(c, md.base.details.container.value, md.base.ObjectName());
      var up := UploadToContainer(c, svc, md.base.imagePath, md.base.details.container.value,
                                  md.base.ObjectName(), md.base.details.tags);
      head.out == Ok(None) ==> r.trace == head.trace + up.trace && r.out == up.out && r.cloud == up.cloud
  {
    ObjectAtCases(c, svc, md.base.imagePath, md.base.details.container.value, md.base.ObjectName(), md.base.details.tags);
  }

  lemma ObjectAtCases(c: Cloud, svc: Service, imagePath: string, bucket: string, key: string, tags: Dict)
    ensures var r := ObjectAt(c, svc, imagePath, bucket, key, tags);
      |r.trace| >= 1 && r.trace[0] == HeadObject(bucket, key)
    ensures var r := ObjectAt(c, svc, imagePath, bucket, key, tags);
      var head := ObjectByName(c, bucket, key);
      head.out.Fail? ==> r.out == Fail(head.out.error) && r.trace == head.trace
    ensures var r := ObjectAt(c, svc, imagePath, bucket, key, tags);
      var head := ObjectByName(c, bucket, key);
      head.out.Ok? && head.out.value.Some? ==> r.out == Ok(head.out.value.value) && r.trace == head.trace && r.cloud == c
    ensures var r := ObjectAt(c, svc, imagePath, bucket, key, tags);
      var head := ObjectByName(c, bucket, key);
      var up := UploadToContainer(c, svc, imagePath, bucket, key, tags);
      head.out == Ok(None) ==> r.trace == head.trace + up.trace && r.out == up.out && r.cloud == up.cloud
  {
    var head := ObjectByName(c, bucket, key);
    var rest := AfterObjectHead(c, head.out, svc, imagePath, bucket, key, tags);
    assert ([HeadObject(bucket, key)] + rest.trace)[0] == HeadObject(bucket, key);
    if head.out.Ok? && head.out.value.None? {
      assert head.out == Ok(None);
    }
  }

  lemma UploadCallsAreObjectCalls(head: Result<Option<string>, Error>, svc: Service, imagePath: string, status: int,
                                  bucket: string, key: string, tags: Dict)
    ensures Only(UploadTrace(head, svc, imagePath, status, bucket, key, tags), ObjectKinds)
  {
    if head.Ok? {
      var create := if head.value.None? then [CreateBucket(bucket, LocationConstraint(svc.region))] else [];
      OnlyConcat([HeadBucket(bucket)], create, ObjectKinds);
      OnlyConcat([HeadBucket(bucket)] + create, TransferCalls(imagePath, status, bucket, key, tags), ObjectKinds);
      TransferCallsAreObjectCalls(imagePath, status, bucket, key, tags);
    }
  }

  lemma TransferCallsAreObjectCalls(imagePath: string, status: int, bucket: string, key: string, tags: Dict)
    ensures Only(TransferCalls(imagePath, status, bucket, key, tags), ObjectKinds)
  {
    var get := GetCalls(imagePath);
    var d := Route(imagePath, status);
    if d.Ok? {
      var up := [Upload(d.value, bucket, key, d.value == LocalFile)];
      OnlyConcat(get, up, ObjectKinds);
      OnlyConcat(get + up, TagCalls(bucket, key, tags), ObjectKinds);
    }
  }

  /** The import half of the snapshot stage: import the object with
      `snapshot_tags` overridden by `tags`, then share the new snapshot. */
  function ImportAndShare(c: Cloud, svc: Service, obj: ObjectRef, md: AwsPublishingMetadata, p: Provider): (r: Step<string>)
    ensures r.out == ImportSnapshotStep(c, svc, obj, md.base.snapshotName,
                                        Update(md.snapshotTags, md.base.details.tags), p.answers).out
    ensures |r.trace| >= 1 && r.trace[0] == ImportSnapshot(ImportRequestOf(obj.bucket, obj.key, svc.importRole))
    ensures r.out.Ok? && |md.base.details.snapshotAccountIds| > 0 ==>
      r.trace[|r.trace| - 1] == ShareSnapshot(r.out.value, md.base.details.snapshotAccountIds)
    ensures r.out.Ok? ==>
      r.cloud.snapshots == c.snapshots +
        [Snapshot(r.out.value, SnapshotTags(md.snapshotTags, md.base.details.tags, md.base.snapshotName))]
    ensures r.cloud.images == c.images && r.cloud.launchPermissions == c.launchPermissions
  {
    ImportThenShare(c, svc, obj, md.base.snapshotName, Update(md.snapshotTags, md.base.details.tags), p.answers,
                    md.base.details.snapshotAccountIds)
  }

  /** The import of `obj` as the snapshot `name` tagged with `tags`, then
      the sharing of the new snapshot with `accounts`. */
  function ImportThenShare(c: Cloud, svc: Service, obj: ObjectRef, name: string, tags: Dict,
                           answers: nat -> TaskDetail, accounts: seq<string>): (r: Step<string>)
    ensures r.out == ImportSnapshotStep(c, svc, obj, name, tags, answers).out
    ensures |r.trace| >= 1 && r.trace[0] == ImportSnapshot(ImportRequestOf(obj.bucket, obj.key, svc.importRole))
    ensures r.out.Ok? && |accounts| > 0 ==> r.trace[|r.trace| - 1] == ShareSnapshot(r.out.value, accounts)
    ensures r.out.Ok? ==> r.cloud.snapshots == c.snapshots + [Snapshot(r.out.value, Put(tags, "Name", name))]
    ensures r.cloud.images == c.images && r.cloud.launchPermissions == c.launchPermissions
  {
    var imported := ImportSnapshotStep(c, svc, obj, name, tags, answers);
    if imported.out.Fail? then imported
    else
      var shared := ShareSnapshotStep(imported.cloud, imported.out.value, accounts);
      Step(Ok(imported.out.value), shared.cloud, imported.trace + shared.trace)
  }

  /** The import half makes import, task query and snapshot tagging calls,
      and shares the snapshot only when there are accounts. */
  lemma ImportAndShareCalls(c: Cloud, svc: Service, obj: ObjectRef, md: AwsPublishingMetadata, p: Provider)
    ensures Only(ImportAndShare(c, svc, obj, md, p).trace, ImportCallKinds + {KShareSnapshot})
    ensures |md.base.details.snapshotAccountIds| == 0 ==> Only(ImportAndShare(c, svc, obj, md, p).trace, ImportCallKinds)
  {
    var tags := Update(md.snapshotTags, md.base.details.tags);
    var imported := ImportSnapshotStep(c, svc, obj, md.base.snapshotName, tags, p.answers);
    ImportSnapshotCalls(c, svc, obj, md.base.snapshotName, tags, p.answers);
    OnlyWeaken(imported.trace, ImportCallKinds, ImportCallKinds + {KShareSnapshot});
    if imported.out.Ok? {
      var shared := ShareSnapshotStep(imported.cloud, imported.out.value, md.base.details.snapshotAccountIds);
      OnlyWeaken(shared.trace, {KShareSnapshot}, ImportCallKinds + {KShareSnapshot});
      OnlyConcat(imported.trace, shared.trace, ImportCallKinds + {KShareSnapshot});
      OnlyConcat(imported.trace, shared.trace, ImportCallKinds);
    }
  }

  /** The snapshot stage: look the snapshot up by name; when it is missing,
      obtain the object, import it and share the new snapshot. */
  function ObtainSnapshot(c: Cloud, svc: Service, md: AwsPublishingMetadata, p: Provider): (r: Step<string>)
    requires Publishable(md)
    ensures var byName := SnapshotByName(c, Some(md.base.snapshotName));
      byName.out.value.Some? ==> r.out == Ok(byName.out.value.value.id) && r.trace == byName.trace && r.cloud == c
    ensures var byName := SnapshotByName(c, Some(md.base.snapshotName));
      var obj := ObtainObject(c, svc, md);
      byName.out.value.None? && obj.out.Fail? ==>
        r.out == Fail(obj.out.error) && r.trace == byName.trace + obj.trace
    ensures var byName := SnapshotByName(c, Some(md.base.snapshotName));
      var obj := ObtainObject(c, svc, md);
      byName.out.value.None? && obj.out.Ok? ==>
        var rest := ImportAndShare(obj.cloud, svc, obj.out.value, md, p);
        r.out == rest.out && r.trace == byName.trace + obj.trace + rest.trace && r.cloud == rest.cloud
    ensures r.cloud.images == c.images && r.cloud.launchPermissions == c.launchPermissions
  {
    var byName := SnapshotByName(c, Some(md.base.snapshotName));
    if byName.out.value.Some? then Step(Ok(byName.out.value.value.id), c, byName.trace)
    else
      var obj := ObtainObject(c, svc, md);
      if obj.out.Fail? then Step(Fail(obj.out.error), obj.cloud, byName.trace + obj.trace)
      else
        var rest := ImportAndShare(obj.cloud, svc, obj.out.value, md, p);
        Step(rest.out, rest.cloud, byName.trace + obj.trace + rest.trace)
  }

  /** The image stage: find the image, or obtain a snapshot and register
      one from it. */
  function ObtainImage(c: Cloud, svc: Service, md: AwsPublishingMetadata, p: Provider): (r: Step<string>)
    requires Publishable(md)
    ensures var found := FindImage(c, md);
      found.out.value.Some? ==> r.out == Ok(found.out.value.value.id) && r.trace == found.trace && r.cloud == c
    ensures var found := FindImage(c, md);
      var snap := ObtainSnapshot(c, svc, md, p);
      found.out.value.None? && snap.out.Fail? ==>
        r.out == Fail(snap.out.error) && r.trace == found.trace + snap.trace && r.cloud == snap.cloud
    ensures var found := FindImage(c, md);
      var snap := ObtainSnapshot(c, svc, md, p);
      found.out.value.None? && snap.out.Ok? ==>
        var reg := RegisterImageStep(snap.cloud, md, snap.out.value, p.newImageId);
        r.out == reg.out && r.trace == found.trace + snap.trace + reg.trace && r.cloud == reg.cloud
    ensures r.cloud.launchPermissions == c.launchPermissions
  {
    var found := FindImage(c, md);
    if found.out.value.Some? then Step(Ok(found.out.value.value.id), c, found.trace)
    else
      var snap := ObtainSnapshot(c, svc, md, p);
      if snap.out.Fail? then Step(Fail(snap.out.error), snap.cloud, found.trace + snap.trace)
      else
        var reg := RegisterImageStep(snap.cloud, md, snap.out.value, p.newImageId);
        Step(reg.out, reg.cloud, found.trace + snap.trace + reg.trace)
  }

  /** What `publish` answers once it has obtained the image `imageId`: the
      id, unless `share_image` raises. */
  function Shared(md: AwsPublishingMetadata, imageId: string): Result<string, Error> {
    ShareOutcome(md.base.details.accounts, md.base.details.groups, imageId)
  }

  /** `publish`: obtain the image, then share it. */
  function Publish(c: Cloud, svc: Service, md: AwsPublishingMetadata, p: Provider): (r: Step<string>)
    requires Publishable(md)
    ensures var img := ObtainImage(c, svc, md, p);
      img.out.Fail? ==> r.out == img.out && r.trace == img.trace
    ensures var img := ObtainImage(c, svc, md, p);
      img.out.Ok? ==>
        r.out == Shared(md, img.out.value) &&
        r.trace == img.trace + ShareImageStep(img.cloud, img.out.value, md.base.details.accounts, md.base.details.groups).trace
  {
    var img := ObtainImage(c, svc, md, p);
    if img.out.Fail? then img
    else
      var shared := ShareImageStep(img.cloud, img.out.value, md.base.details.accounts, md.base.details.groups);
      Step(shared.out, shared.cloud, img.trace + shared.trace)
  }

  // What each stage's calls can be.

  lemma ObtainSnapshotCalls(c: Cloud, svc: Service, md: AwsPublishingMetadata, p: Provider)
    requires Publishable(md)
    ensures Only(ObtainSnapshot(c, svc, md, p).trace, SnapshotKinds)
  {
    var byName := SnapshotByName(c, Some(md.base.snapshotName));
    if byName.out.value.None? {
      var obj := ObtainObject(c, svc, md);
      if obj.out.Ok? {
        ImportingSnapshotCalls(c, svc, md, p);
      } else {
        SnapshotLookupCalls(c, Some(md.base.snapshotName));
        SnapshotStageTrace(byName.trace, obj.trace, []);
        assert byName.trace + obj.trace + [] == byName.trace + obj.trace;
      }
    } else {
      SnapshotLookupCalls(c, Some(md.base.snapshotName));
      SnapshotStageTrace(byName.trace, [], []);
      assert byName.trace + [] + [] == byName.trace;
    }
  }

  lemma ImportingSnapshotCalls(c: Cloud, svc: Service, md: AwsPublishingMetadata, p: Provider)
    requires Publishable(md)
    requires SnapshotByName(c, Some(md.base.snapshotName)).out.value.None?
    requires ObtainObject(c, svc, md).out.Ok?
    ensures Only(ObtainSnapshot(c, svc, md, p).trace, SnapshotKinds)
  {
    var byName := SnapshotByName(c, Some(md.base.snapshotName));
    var obj := ObtainObject(c, svc, md);
    var rest := ImportAndShare(obj.cloud, svc, obj.out.value, md, p);
    ImportAndShareCalls(obj.cloud, svc, obj.out.value, md, p);
    SnapshotLookupCalls(c, Some(md.base.snapshotName));
    SnapshotStageTrace(byName.trace, obj.trace, rest.trace);
    assert ObtainSnapshot(c, svc, md, p).trace == byName.trace + obj.trace + rest.trace;
  }

  /** The snapshot lookup only describes snapshots. */
  lemma SnapshotLookupCalls(c: Cloud, name: Option<string>)
    ensures Only(SnapshotByName(c, name).trace, {KDescribeSnapshots})
  {
    var t := SnapshotByName(c, name).trace;
    if |t| > 0 {
      assert t[1..] == [];
    }
  }

  /** A snapshot lookup, object-stage calls and import calls make a
      snapshot-stage trace. */
  lemma SnapshotStageTrace(lookup: seq<Call>, obj: seq<Call>, rest: seq<Call>)
    requires Only(lookup, {KDescribeSnapshots}) && Only(obj, ObjectKinds) && Only(rest, ImportCallKinds + {KShareSnapshot})
    ensures Only(lookup + obj + rest, SnapshotKinds)
  {
    StageKindsNest();
    OnlyThree(lookup, obj, rest, {KDescribeSnapshots}, ObjectKinds, ImportCallKinds + {KShareSnapshot}, SnapshotKinds);
  }

  /** Obtaining the image never shares it. */
  lemma ObtainImageCalls(c: Cloud, svc: Service, md: AwsPublishingMetadata, p: Provider)
    requires Publishable(md)
    ensures Only(ObtainImage(c, svc, md, p).trace, ImageKinds)
  {
    var found := FindImage(c, md);
    OnlyWeaken(found.trace, {KDescribeImages}, ImageKinds);
    if found.out.value.None? {
      var snap := ObtainSnapshot(c, svc, md, p);
      ObtainSnapshotCalls(c, svc, md, p);
      OnlyWeaken(snap.trace, SnapshotKinds, ImageKinds);
      OnlyConcat(found.trace, snap.trace, ImageKinds);
      if snap.out.Ok? {
        var reg := RegisterImageStep(snap.cloud, md, snap.out.value, p.newImageId);
        RegisterImageCalls(snap.cloud, md, snap.out.value, p.newImageId);
        OnlyWeaken(reg.trace, {KRegister, KCreateImageTags}, ImageKinds);
        OnlyConcat(found.trace + snap.trace, reg.trace, ImageKinds);
      }
    }
  }

  // Stage skipping.

  /** A found image (by name, or by tags after a name miss) is only shared:
      no snapshot or object is looked up, nothing is uploaded, imported or
      registered, and the account's images, snapshots and objects stay as
      they were. */
  lemma PublishImageFound(c: Cloud, svc: Service, md: AwsPublishingMetadata, p: Provider)
    requires Publishable(md)
    requires FindImage(c, md).out.value.Some?
    ensures var r := Publish(c, svc, md, p);
      r.out == Shared(md, FindImage(c, md).out.value.value.id) &&
      Only(r.trace, {KDescribeImages, KShareImage}) &&
      r.cloud.images == c.images && r.cloud.snapshots == c.snapshots && r.cloud.objects == c.objects
  {
    var found := FindImage(c, md);
    var shared := ShareImageStep(c, found.out.value.value.id, md.base.details.accounts, md.base.details.groups);
    OnlyWeaken(found.trace, {KDescribeImages}, {KDescribeImages, KShareImage});
    OnlyConcat(found.trace, shared.trace, {KDescribeImages, KShareImage});
  }

  /** A found snapshot is only registered: no object is looked up, nothing
      is uploaded, imported or shared before the registration, which uses
      the found snapshot. */
  lemma PublishSnapshotFound(c: Cloud, svc: Service, md: AwsPublishingMetadata, p: Provider)
    requires Publishable(md)
    requires FindImage(c, md).out.value.None?
    requires SnapshotByName(c, Some(md.base.snapshotName)).out.value.Some?
    ensures var r := Publish(c, svc, md, p);
      var s := SnapshotByName(c, Some(md.base.snapshotName)).out.value.value;
      r.out == Shared(md, p.newImageId) &&
      RegisterImage(RegisterRequestOf(md, s.id)) in r.trace &&
      Only(r.trace, {KDescribeImages, KDescribeSnapshots, KRegister, KCreateImageTags, KShareImage})
  {
    var ks := {KDescribeImages, KDescribeSnapshots, KRegister, KCreateImageTags, KShareImage};
    var found := FindImage(c, md);
    var byName := SnapshotByName(c, Some(md.base.snapshotName));
    var s := byName.out.value.value;
    var reg := RegisterImageStep(c, md, s.id, p.newImageId);
    var img := ObtainImage(c, svc, md, p);
    assert img.trace == found.trace + byName.trace + reg.trace;
    assert reg.trace[0] in reg.trace;
    OnlyWeaken(found.trace, {KDescribeImages}, ks);
    SnapshotLookupCalls(c, Some(md.base.snapshotName));
    OnlyWeaken(byName.trace, {KDescribeSnapshots}, ks);
    RegisterImageCalls(c, md, s.id, p.newImageId);
    OnlyWeaken(reg.trace, {KRegister, KCreateImageTags}, ks);
    OnlyConcat(found.trace, byName.trace, ks);
    OnlyConcat(found.trace + byName.trace, reg.trace, ks);
    var shared := ShareImageStep(img.cloud, p.newImageId, md.base.details.accounts, md.base.details.groups);
    OnlyConcat(img.trace, shared.trace, ks);
  }

  /** When the snapshot is not found and the object stage succeeds, the
      snapshot stage imports the object; on success it names the new
      snapshot with `snapshot_tags` overridden by `tags` and `Name` last,
      and shares it when there are accounts. */
  lemma SnapshotStageImports(c: Cloud, svc: Service, md: AwsPublishingMetadata, p: Provider)
    requires Publishable(md)
    requires SnapshotByName(c, Some(md.base.snapshotName)).out.value.None?
    requires ObtainObject(c, svc, md).out.Ok?
    ensures var obj := ObtainObject(c, svc, md);
      var snap := ObtainSnapshot(c, svc, md, p);
      snap.out == ImportSnapshotStep(obj.cloud, svc, obj.out.value, md.base.snapshotName,
                                     Update(md.snapshotTags, md.base.details.tags), p.answers).out &&
      ImportSnapshot(ImportRequestOf(obj.out.value.bucket, obj.out.value.key, svc.importRole)) in snap.trace
    ensures var snap := ObtainSnapshot(c, svc, md, p);
      snap.out.Ok? ==>
        (|md.base.details.snapshotAccountIds| > 0 ==>
           ShareSnapshot(snap.out.value, md.base.details.snapshotAccountIds) in snap.trace) &&
        snap.cloud.snapshots == c.snapshots +
          [Snapshot(snap.out.value, SnapshotTags(md.snapshotTags, md.base.details.tags, md.base.snapshotName))]
  {
    var byName := SnapshotByName(c, Some(md.base.snapshotName));
    var obj := ObtainObject(c, svc, md);
    var rest := ImportAndShare(obj.cloud, svc, obj.out.value, md, p);
    assert rest.trace[0] in rest.trace;
    assert rest.trace[|rest.trace| - 1] in rest.trace;
  }

  /** The calls of an importing snapshot stage: the object stage's, the
      snapshot lookup, the import and its queries, the snapshot tagging,
      and the snapshot sharing only when there are accounts. */
  lemma SnapshotStageImportCalls(c: Cloud, svc: Service, md: AwsPublishingMetadata, p: Provider,
                                 objectKinds: set<Kind>, k: set<Kind>)
    requires Publishable(md)
    requires SnapshotByName(c, Some(md.base.snapshotName)).out.value.None?
    requires ObtainObject(c, svc, md).out.Ok?
    requires Only(ObtainObject(c, svc, md).trace, objectKinds)
    requires objectKinds <= k && {KDescribeSnapshots} <= k && ImportCallKinds <= k
    requires |md.base.details.snapshotAccountIds| > 0 ==> KShareSnapshot in k
    ensures Only(ObtainSnapshot(c, svc, md, p).trace, k)
  {
    var byName := SnapshotByName(c, Some(md.base.snapshotName));
    var obj := ObtainObject(c, svc, md);
    var rest := ImportAndShare(obj.cloud, svc, obj.out.value, md, p);
    ImportAndShareCalls(obj.cloud, svc, obj.out.value, md, p);
    SnapshotLookupCalls(c, Some(md.base.snapshotName));
    var restKinds := if |md.base.details.snapshotAccountIds| > 0 then ImportCallKinds + {KShareSnapshot} else ImportCallKinds;
    OnlyThree(byName.trace, obj.trace, rest.trace, {KDescribeSnapshots}, objectKinds, restKinds, k);
    assert ObtainSnapshot(c, svc, md, p).trace == byName.trace + obj.trace + rest.trace;
  }

  /** The calls the image stage and the sharing add to the snapshot
      stage's when the image is not found. */
  const RegisterStageKinds: set<Kind> := {KDescribeImages, KRegister, KCreateImageTags, KShareImage}

  /** When the image is not found, a failed snapshot stage ends `publish`
      with its error; a successful one is followed by the registration of
      an image from that snapshot, which `publish` returns. */
  lemma ImageStageRegisters(c: Cloud, svc: Service, md: AwsPublishingMetadata, p: Provider, snapshotKinds: set<Kind>)
    requires Publishable(md)
    requires FindImage(c, md).out.value.None?
    requires Only(ObtainSnapshot(c, svc, md, p).trace, snapshotKinds)
    ensures var snap := ObtainSnapshot(c, svc, md, p);
      var r := Publish(c, svc, md, p);
      (snap.out.Fail? ==> r.out == snap.out) &&
      (snap.out.Ok? ==>
         r.out == Shared(md, p.newImageId) &&
         RegisterImage(RegisterRequestOf(md, snap.out.value)) in r.trace &&
         r.cloud.snapshots == snap.cloud.snapshots)
    ensures Only(Publish(c, svc, md, p).trace, snapshotKinds + RegisterStageKinds)
  {
    var k := snapshotKinds + RegisterStageKinds;
    var found := FindImage(c, md);
    var snap := ObtainSnapshot(c, svc, md, p);
    var img := ObtainImage(c, svc, md, p);
    var r := Publish(c, svc, md, p);
    OnlyWeaken(found.trace, {KDescribeImages}, k);
    OnlyWeaken(snap.trace, snapshotKinds, k);
    OnlyConcat(found.trace, snap.trace, k);
    if snap.out.Ok? {
      var reg := RegisterImageStep(snap.cloud, md, snap.out.value, p.newImageId);
      assert img.trace == found.trace + snap.trace + reg.trace;
      assert reg.trace[0] in reg.trace;
      RegisterImageCalls(snap.cloud, md, snap.out.value, p.newImageId);
      OnlyWeaken(reg.trace, {KRegister, KCreateImageTags}, k);
      OnlyConcat(found.trace + snap.trace, reg.trace, k);
      var si := ShareImageStep(img.cloud, p.newImageId, md.base.details.accounts, md.base.details.groups);
      OnlyWeaken(si.trace, {KShareImage}, k);
      OnlyConcat(img.trace, si.trace, k);
    } else {
      assert img.trace == found.trace + snap.trace;
    }
  }

  /** Every call of the snapshot stage is a call of `publish` when the
      image is not found. */
  lemma SnapshotStageInPublish(c: Cloud, svc: Service, md: AwsPublishingMetadata, p: Provider, x: Call)
    requires Publishable(md)
    requires FindImage(c, md).out.value.None?
    requires x in ObtainSnapshot(c, svc, md, p).trace
    ensures x in Publish(c, svc, md, p).trace
  {
    var found := FindImage(c, md);
    var snap := ObtainSnapshot(c, svc, md, p);
    var img := ObtainImage(c, svc, md, p);
    if snap.out.Ok? {
      var reg := RegisterImageStep(snap.cloud, md, snap.out.value, p.newImageId);
      assert img.trace == found.trace + snap.trace + reg.trace;
    } else {
      assert img.trace == found.trace + snap.trace;
    }
    assert x in img.trace;
  }

  // The object stage inside `publish`.

  /** The calls of `publish` when the object is found: the bucket is
      neither looked up nor created, and nothing is downloaded, uploaded or
      tagged in S3. */
  const ObjectFoundKinds: set<Kind> := ObjectFoundSnapshotKinds + RegisterStageKinds

  /** The calls of the snapshot stage when the object is found. */
  const ObjectFoundSnapshotKinds: set<Kind> := {KDescribeSnapshots, KHeadObject} + ImportCallKinds + {KShareSnapshot}

  lemma ObjectFoundKindsExclude()
    ensures KUpload !in ObjectFoundKinds && KCreateBucket !in ObjectFoundKinds
  {
  }

  /** The found object's snapshot stage calls fit its kinds. */
  lemma ObjectFoundKindsNest()
    ensures {KHeadObject} <= ObjectFoundSnapshotKinds && {KDescribeSnapshots} <= ObjectFoundSnapshotKinds
    ensures ImportCallKinds <= ObjectFoundSnapshotKinds && KShareSnapshot in ObjectFoundSnapshotKinds
  {
  }

  /** The HEAD on an object is one call. */
  lemma HeadObjectCalls(c: Cloud, bucket: string, key: string)
    ensures Only(ObjectByName(c, bucket, key).trace, {KHeadObject})
  {
    assert ObjectByName(c, bucket, key).trace[1..] == [];
  }

  /** When only the object exists, `publish` makes no S3 call besides the
      object's HEAD. */
  lemma PublishObjectFoundCalls(c: Cloud, svc: Service, md: AwsPublishingMetadata, p: Provider)
    requires Publishable(md)
    requires FindImage(c, md).out.value.None?
    requires SnapshotByName(c, Some(md.base.snapshotName)).out.value.None?
    requires ObjectByName(c, md.base.details.container.value, md.base.ObjectName()).out.Ok?
    requires ObjectByName(c, md.base.details.container.value, md.base.ObjectName()).out.value.Some?
    ensures Only(Publish(c, svc, md, p).trace, ObjectFoundKinds)
    ensures Count(Publish(c, svc, md, p).trace, KUpload) == 0
    ensures Count(Publish(c, svc, md, p).trace, KCreateBucket) == 0
  {
    ObtainObjectCases(c, svc, md);
    HeadObjectCalls(c, md.base.details.container.value, md.base.ObjectName());
    ObjectFoundKindsNest();
    SnapshotStageImportCalls(c, svc, md, p, {KHeadObject}, ObjectFoundSnapshotKinds);
    ImageStageRegisters(c, svc, md, p, ObjectFoundSnapshotKinds);
    var t := Publish(c, svc, md, p).trace;
    ObjectFoundKindsExclude();
    OnlyCountZero(t, ObjectFoundKinds, KUpload);
    OnlyCountZero(t, ObjectFoundKinds, KCreateBucket);
  }

  /** When only the object exists, `publish` imports it: the import's
      failure is `publish`'s, and its success registers the image from the
      new snapshot. */
  lemma PublishObjectFoundImports(c: Cloud, svc: Service, md: AwsPublishingMetadata, p: Provider)
    requires Publishable(md)
    requires FindImage(c, md).out.value.None?
    requires SnapshotByName(c, Some(md.base.snapshotName)).out.value.None?
    requires ObjectByName(c, md.base.details.container.value, md.base.ObjectName()).out.Ok?
    requires ObjectByName(c, md.base.details.container.value, md.base.ObjectName()).out.value.Some?
    ensures var bucket := md.base.details.container.value;
      var key := md.base.ObjectName();
      var imported := ImportSnapshotStep(c, svc, ObjectRef(bucket, key), md.base.snapshotName,
                                         Update(md.snapshotTags, md.base.details.tags), p.answers);
      var r := Publish(c, svc, md, p);
      ImportSnapshot(ImportRequestOf(bucket, key, svc.importRole)) in r.trace &&
      (imported.out.Fail? ==> r.out == Fail(imported.out.error)) &&
      (imported.out.Ok? ==>
         r.out == Shared(md, p.newImageId) && RegisterImage(RegisterRequestOf(md, imported.out.value)) in r.trace)
  {
    var bucket := md.base.details.container.value;
    var key := md.base.ObjectName();
    ObtainObjectCases(c, svc, md);
    SnapshotStageImports(c, svc, md, p);
    ObtainSnapshotCalls(c, svc, md, p);
    ImageStageRegisters(c, svc, md, p, SnapshotKinds);
    SnapshotStageInPublish(c, svc, md, p, ImportSnapshot(ImportRequestOf(bucket, key, svc.importRole)));
  }

  /** When nothing exists, `publish` uploads the image first: a failed
      upload ends it with the upload's error and no image or snapshot is
      made; a successful one is in the trace. */
  lemma PublishNothingFoundUploads(c: Cloud, svc: Service, md: AwsPublishingMetadata, p: Provider)
    requires Publishable(md)
    requires FindImage(c, md).out.value.None?
    requires SnapshotByName(c, Some(md.base.snapshotName)).out.value.None?
    requires ObjectByName(c, md.base.details.container.value, md.base.ObjectName()).out == Ok(None)
    ensures var bucket := md.base.details.container.value;
      var up := UploadToContainer(c, svc, md.base.imagePath, bucket, md.base.ObjectName(), md.base.details.tags);
      var r := Publish(c, svc, md, p);
      (up.out.Fail? ==> r.out == Fail(up.out.error) && r.cloud.images == c.images && r.cloud.snapshots == c.snapshots) &&
      (up.out.Ok? ==>
         var d := Dispatch(md.base.imagePath).value;
         Upload(d, bucket, md.base.ObjectName(), d == LocalFile) in r.trace)
  {
    var bucket := md.base.details.container.value;
    var key := md.base.ObjectName();
    var up := UploadToContainer(c, svc, md.base.imagePath, bucket, key, md.base.details.tags);
    ObtainObjectCases(c, svc, md);
    UploadTraceShape(ContainerByName(c, bucket).out, svc, md.base.imagePath, HttpStatus(c, md.base.imagePath), bucket, key, md.base.details.tags);
    if up.out.Ok? {
      var d := Dispatch(md.base.imagePath).value;
      var x := Upload(d, bucket, key, d == LocalFile);
      var obj := ObtainObject(c, svc, md);
      assert x in obj.trace;
      assert x in ObtainSnapshot(c, svc, md, p).trace;
      SnapshotStageInPublish(c, svc, md, p, x);
    }
  }

  /** When nothing exists and the upload succeeds, `publish` imports the
      uploaded object; the import's outcome decides `publish`'s. */
  lemma PublishNothingFoundImports(c: Cloud, svc: Service, md: AwsPublishingMetadata, p: Provider)
    requires Publishable(md)
    requires FindImage(c, md).out.value.None?
    requires SnapshotByName(c, Some(md.base.snapshotName)).out.value.None?
    requires ObjectByName(c, md.base.details.container.value, md.base.ObjectName()).out == Ok(None)
    requires UploadToContainer(c, svc, md.base.imagePath, md.base.details.container.value,
                               md.base.ObjectName(), md.base.details.tags).out.Ok?
    ensures var bucket := md.base.details.container.value;
      var key := md.base.ObjectName();
      var up := UploadToContainer(c, svc, md.base.imagePath, bucket, key, md.base.details.tags);
      var imported := ImportSnapshotStep(up.cloud, svc, ObjectRef(bucket, key), md.base.snapshotName,
                                         Update(md.snapshotTags, md.base.details.tags), p.answers);
      var r := Publish(c, svc, md, p);
      ImportSnapshot(ImportRequestOf(bucket, key, svc.importRole)) in r.trace &&
      (imported.out.Fail? ==> r.out == Fail(imported.out.error)) &&
      (imported.out.Ok? ==>
         r.out == Shared(md, p.newImageId) && RegisterImage(RegisterRequestOf(md, imported.out.value)) in r.trace)
  {
    var bucket := md.base.details.container.value;
    var key := md.base.ObjectName();
    ObtainObjectCases(c, svc, md);
    SnapshotStageImports(c, svc, md, p);
    ObtainSnapshotCalls(c, svc, md, p);
    ImageStageRegisters(c, svc, md, p, SnapshotKinds);
    SnapshotStageInPublish(c, svc, md, p, ImportSnapshot(ImportRequestOf(bucket, key, svc.importRole)));
  }

  /** A `publish` that imports adds exactly one snapshot to the account,
      tagged with `snapshot_tags` overridden by `tags` and named by the
      `Name` tag; the image registered from it is the one returned. */
  lemma PublishNewSnapshot(c: Cloud, svc: Service, md: AwsPublishingMetadata, p: Provider)
    requires Publishable(md)
    requires FindImage(c, md).out.value.None?
    requires SnapshotByName(c, Some(md.base.snapshotName)).out.value.None?
    requires ObtainObject(c, svc, md).out.Ok?
    ensures var snap := ObtainSnapshot(c, svc, md, p);
      var r := Publish(c, svc, md, p);
      snap.out.Ok? ==>
        r.out == Shared(md, p.newImageId) &&
        r.cloud.snapshots == c.snapshots +
          [Snapshot(snap.out.value, SnapshotTags(md.snapshotTags, md.base.details.tags, md.base.snapshotName))]
  {
    SnapshotStageImports(c, svc, md, p);
    ObtainSnapshotCalls(c, svc, md, p);
    ImageStageRegisters(c, svc, md, p, SnapshotKinds);
  }

  // Sharing the image.

  /** Obtaining the image never shares it. */
  lemma ImageKindsExclude()
    ensures KShareImage !in ImageKinds
  {
  }

  /** `publish` shares the image it returns exactly once, when there is an
      account or a group to share it with, and never otherwise. */
  lemma PublishSharesOnce(c: Cloud, svc: Service, md: AwsPublishingMetadata, p: Provider)
    requires Publishable(md)
    ensures var r := Publish(c, svc, md, p);
      Count(r.trace, KShareImage) ==
        if r.out.Ok? && (Given(md.base.details.accounts) || Given(md.base.details.groups)) then 1 else 0
  {
    var img := ObtainImage(c, svc, md, p);
    ObtainImageCalls(c, svc, md, p);
    ImageKindsExclude();
    OnlyCountZero(img.trace, ImageKinds, KShareImage);
    if img.out.Ok? {
      var shared := ShareImageStep(img.cloud, img.out.value, md.base.details.accounts, md.base.details.groups);
      ShareImageCount(img.cloud, img.out.value, md.base.details.accounts, md.base.details.groups);
      CountConcat(img.trace, shared.trace, KShareImage);
    }
  }

  lemma ShareImageCount(c: Cloud, imageId: string, accounts: Option<seq<string>>, groups: Option<seq<string>>)
    ensures var r := ShareImageStep(c, imageId, accounts, groups);
      Count(r.trace, KShareImage) == if r.out.Ok? && (Given(accounts) || Given(groups)) then 1 else 0
  {
  }

  /** The share is `publish`'s last call, with every account and then
      every group. */
  lemma PublishSharesLast(c: Cloud, svc: Service, md: AwsPublishingMetadata, p: Provider)
    requires Publishable(md)
    ensures var r := Publish(c, svc, md, p);
      var accounts := md.base.details.accounts;
      var groups := md.base.details.groups;
      r.out.Ok? && (Given(accounts) || Given(groups)) ==>
        accounts.Some? && groups.Some? &&
        |r.trace| > 0 && r.trace[|r.trace| - 1] == ShareImage(r.out.value, LaunchPermissions(accounts.value, groups.value))
  {
  }

  /** The image `publish` returns carries every launch permission asked
      for. */
  lemma PublishGrantsLaunch(c: Cloud, svc: Service, md: AwsPublishingMetadata, p: Provider)
    requires Publishable(md)
    requires Given(md.base.details.accounts) || Given(md.base.details.groups)
    ensures var r := Publish(c, svc, md, p);
      r.out.Ok? ==>
        md.base.details.accounts.Some? && md.base.details.groups.Some? &&
        r.out.value in r.cloud.launchPermissions &&
        (forall a :: a in md.base.details.accounts.value ==> UserId(a) in r.cloud.launchPermissions[r.out.value]) &&
        (forall g :: g in md.base.details.groups.value ==> Group(g) in r.cloud.launchPermissions[r.out.value])
  {
  }

  /** With one list `None` and the other not empty, `publish` never
      succeeds: either obtaining the image fails, or the image is obtained
      and `share_image` raises `TypeError`. */
  lemma PublishFailsWhenShareRaises(c: Cloud, svc: Service, md: AwsPublishingMetadata, p: Provider)
    requires Publishable(md)
    requires ShareRaises(md.base.details.accounts, md.base.details.groups)
    ensures var r := Publish(c, svc, md, p);
      r.out.Fail? &&
      (ObtainImage(c, svc, md, p).out.Ok? ==> r.out.error.TypeError?)
  {
  }

  // Publishing twice.

  /** The image lookup sees only the account's images. */
  lemma FindImageSeesImages(c1: Cloud, c2: Cloud, md: AwsPublishingMetadata)
    requires c1.images == c2.images
    ensures FindImage(c1, md).out == FindImage(c2, md).out
  {
  }

  /** After a `publish` that found its image, the lookup finds it again. */
  lemma RepublishFindsFound(c: Cloud, svc: Service, md: AwsPublishingMetadata, p: Provider)
    requires Publishable(md)
    requires FindImage(c, md).out.value.Some?
    ensures var r := Publish(c, svc, md, p);
      FindImage(r.cloud, md).out.value.Some? && Shared(md, FindImage(r.cloud, md).out.value.value.id) == r.out
  {
    PublishImageFound(c, svc, md, p);
    FindImageSeesImages(Publish(c, svc, md, p).cloud, c, md);
  }

  /** A `publish` that does not find its image and succeeds adds exactly
      one image to the account, under the image name, and returns its id. */
  lemma PublishAddsOneImage(c: Cloud, svc: Service, md: AwsPublishingMetadata, p: Provider)
    requires Publishable(md)
    requires FindImage(c, md).out.value.None?
    requires Publish(c, svc, md, p).out.Ok?
    ensures var r := Publish(c, svc, md, p);
      |r.cloud.images| == |c.images| + 1 &&
      r.cloud.images == c.images + [r.cloud.images[|c.images|]] &&
      r.cloud.images[|c.images|].name == md.base.imageName &&
      r.out == Ok(r.cloud.images[|c.images|].id)
    ensures var r := Publish(c, svc, md, p);
      |r.cloud.images| == |c.images| + 1 &&
      r.cloud.images[|c.images|].tags == ImageTags(md.base.details.tags, md.amiTags)
  {
    var snap := ObtainSnapshot(c, svc, md, p);
    ObtainSnapshotCalls(c, svc, md, p);
    ImageStageRegisters(c, svc, md, p, SnapshotKinds);
    var reg := RegisterImageStep(snap.cloud, md, snap.out.value, p.newImageId);
    assert reg.cloud.images == c.images + [reg.cloud.images[|c.images|]];
  }

  /** After a `publish` that registered its image, the lookup by name finds
      the new image: nothing before it had the name. */
  lemma RepublishFindsRegistered(c: Cloud, svc: Service, md: AwsPublishingMetadata, p: Provider)
    requires Publishable(md) && md.base.imageName != ""
    requires FindImage(c, md).out.value.None?
    requires Publish(c, svc, md, p).out.Ok?
    ensures var r := Publish(c, svc, md, p);
      FindImage(r.cloud, md).out.value.Some? && Ok(FindImage(r.cloud, md).out.value.value.id) == r.out
  {
    var r := Publish(c, svc, md, p);
    PublishAddsOneImage(c, svc, md, p);
    var img := r.cloud.images[|c.images|];
    FindsAddedImage(c, md, img);
    FindImageSeesImages(r.cloud, c.(images := c.images + [img]), md);
  }

  /** An image carrying the looked-up name, added after a lookup that
      missed, is what the lookup finds next. */
  lemma FindsAddedImage(c: Cloud, md: AwsPublishingMetadata, img: Image)
    requires md.base.imageName != "" && img.name == md.base.imageName
    requires FindImage(c, md).out.value.None?
    ensures FindImage(c.(images := c.images + [img]), md).out == Ok(Some(img))
  {
    var fs := NameFilters(md.base.imageName);
    assert forall f :: f in fs ==> ImageMatches(f, img);
    DescribeImagesAfterMisses(c, fs, img);
  }

  /** `publish` is idempotent: publishing the same metadata again finds the
      image the first run returned, only looks it up and shares it again,
      and leaves the account as the first run left it. */
  lemma PublishIdempotent(c: Cloud, svc: Service, md: AwsPublishingMetadata, p: Provider)
    requires Publishable(md) && md.base.imageName != ""
    requires Publish(c, svc, md, p).out.Ok?
    ensures var r := Publish(c, svc, md, p);
      var again := Publish(r.cloud, svc, md, p);
      again.out == r.out && again.cloud == r.cloud && Only(again.trace, {KDescribeImages, KShareImage})
  {
    var r := Publish(c, svc, md, p);
    var img := ObtainImage(c, svc, md, p);
    if FindImage(c, md).out.value.Some? {
      RepublishFindsFound(c, svc, md, p);
    } else {
      RepublishFindsRegistered(c, svc, md, p);
    }
    PublishImageFound(r.cloud, svc, md, p);
    ShareImageIdempotent(img.cloud, r.out.value, md.base.details.accounts, md.base.details.groups);
  }

  // The image's tags as the source computes them.

  /** The tags `register_image` applies after an import, as the source
      computes them: `import_snapshot` adds `Name` to the dictionary it is
      handed, and when `snapshot_tags` is empty that dictionary is `tags`
      itself, which `register_image` then reads. */
  function AmiTagsAsWritten(md: AwsPublishingMetadata): (r: Dict)
    ensures |md.snapshotTags| > 0 || |md.base.details.tags| == 0 ==>
      r == ImageTags(md.base.details.tags, md.amiTags)
    ensures |md.snapshotTags| == 0 && |md.base.details.tags| > 0 ==>
      Get(r, "Name") == if "Name" in Keys(md.amiTags) then Get(md.amiTags, "Name") else Some(md.base.snapshotName)
  {
    var handed :=
      if |md.snapshotTags| == 0 && |md.base.details.tags| > 0
      then Put(md.base.details.tags, "Name", md.base.snapshotName)
      else md.base.details.tags;
    ImageTags(handed, md.amiTags)
  }

  /** The discrepancy: with `tags` set, `snapshot_tags` empty and `Name` in
      neither `tags` nor `ami_tags`, the image gets a `Name` tag holding the
      snapshot name, which the tags it is meant to carry do not have. */
  lemma NameLeaksIntoAmiTags(md: AwsPublishingMetadata)
    requires |md.snapshotTags| == 0 && |md.base.details.tags| > 0
    requires "Name" !in Keys(md.base.details.tags) && "Name" !in Keys(md.amiTags)
    ensures Get(AmiTagsAsWritten(md), "Name") == Some(md.base.snapshotName)
    ensures Get(ImageTags(md.base.details.tags, md.amiTags), "Name") == None
    ensures AmiTagsAsWritten(md) != ImageTags(md.base.details.tags, md.amiTags)
  {
  }
}
