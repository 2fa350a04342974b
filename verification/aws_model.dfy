/** The AWS account as `cloudimg/aws.py` sees it through boto3: the images
    and snapshots the account owns, the S3 buckets and objects, and the
    provider calls a pipeline makes, recorded in order. Every pipeline of the
    model is a pure function from a cloud state to a `Step`: its outcome, the
    cloud state after it, and its trace of provider calls. The HEAD requests
    and the GET of an image URL can fail; every other provider call
    succeeds. */
module AwsModel {
  import opened Outcomes
  import opened Dicts
  import opened Seqs
  import opened Strings

  /** The `Code` of a botocore `ClientError`; the source reads it with
      `int(...)`, which fails on text that is not a number. */
  datatype ErrorCode = Code(n: int) | NonNumeric(text: string)

  /** The exceptions the modelled code raises. */
  datatype Error =
    | ClientError(code: ErrorCode)       // a provider error re-raised as is
    | ValueError(message: string)        // `int()` of a non-numeric error code, or `ec2.Snapshot(None)`
    | KeyError(key: string)              // an unknown boot mode name
    | AssertionError(message: string)
    | NotImplemented(message: string)
    | SnapshotError(message: string)
    | SnapshotTimeout(message: string)
    | HTTPError(status: int)             // `raise_for_status` on an error status of the image's URL
    | TypeError(message: string)         // iterating a `None` list argument
    | ZeroDivision                       // a percentage of a zero-byte size

  datatype Ebs = Ebs(snapshotId: Option<string>, volumeType: Option<string>, deleteOnTermination: bool)

  datatype BlockDevice = BlockDevice(deviceName: Option<string>, ebs: Option<Ebs>)

  /** One entry of a `LaunchPermission` `Add` list. */
  datatype Permission = UserId(account: string) | Group(group: string)

  datatype Image = Image(
    id: string,
    name: string,
    tags: Dict,
    mappings: seq<BlockDevice>)

  datatype Snapshot = Snapshot(id: string, tags: Dict)

  /** The account. `images` and `snapshots` are in the order the provider
      lists them; the two fault maps give the error code a HEAD request on a
      bucket, or on a (bucket, key) object, fails with. A missing bucket or
      object without a recorded fault answers 404. A recorded fault is
      permanent: creating the bucket or uploading the object does not clear
      it. `httpStatus` is the
      status the GET of an image URL answers; a URL it does not list answers
      200. The launch permissions of
      an image and the create-volume permissions of a snapshot are sets kept
      by id: the provider ignores a grant that is already there. */
  datatype Cloud = Cloud(
    images: seq<Image>,
    snapshots: seq<Snapshot>,
    buckets: set<string>,
    objects: map<(string, string), Dict>,
    bucketFaults: map<string, ErrorCode>,
    objectFaults: map<(string, string), ErrorCode>,
    httpStatus: map<string, int>,
    launchPermissions: map<string, set<Permission>>,
    volumePermissions: map<string, set<string>>)

  /** One `{'Name': ..., 'Values': [...]}` filter of a describe call. */
  datatype Filter = Filter(name: string, values: seq<string>)

  /** The three ways `upload_to_container` feeds S3. */
  datatype Transport = HttpStream | LzmaStream | LocalFile

  datatype ImportRequest = ImportRequest(
    description: string,
    format: string,
    bucket: string,
    key: string,
    roleName: Option<string>)

  datatype RegisterRequest = RegisterRequest(
    name: string,
    description: Option<string>,
    architecture: Option<string>,
    virtualizationType: Option<string>,
    rootDeviceName: Option<string>,
    mappings: seq<BlockDevice>,
    enaSupport: bool,
    sriovNetSupport: Option<string>,
    billingProducts: Option<seq<string>>,
    bootMode: Option<string>)

  /** A provider call. */
  datatype Call =
    | DescribeImages(filters: seq<Filter>)
    | DescribeSnapshots(filters: seq<Filter>)
    | HeadObject(bucket: string, key: string)
    | HeadBucket(bucket: string)
    | CreateBucket(bucket: string, locationConstraint: Option<string>)
    | HttpGet(url: string)
    | Upload(transport: Transport, bucket: string, key: string, sized: bool)
    | PutObjectTagging(bucket: string, key: string, tagSet: seq<Tag>)
    | ImportSnapshot(importRequest: ImportRequest)
    | DescribeImportTask
    | CreateSnapshotTags(snapshotId: string, tagList: seq<Tag>)
    | ShareSnapshot(snapshotId: string, accounts: seq<string>)
    | RegisterImage(registerRequest: RegisterRequest)
    | CreateImageTags(imageId: string, tagList: seq<Tag>)
    | ShareImage(imageId: string, permissions: seq<Permission>)
    | DeregisterImage(imageId: string)
    | DeleteSnapshot(snapshotId: string)

  /** What a pipeline did: its outcome, the cloud afterwards, its calls. */
  datatype Step<T> = Step(out: Result<T, Error>, cloud: Cloud, trace: seq<Call>)

  // Counting calls of one kind in a trace.

  datatype Kind =
    | KDescribeImages | KDescribeSnapshots | KHeadObject | KHeadBucket | KCreateBucket
    | KHttpGet | KUpload | KPutObjectTagging | KImport | KDescribeImportTask
    | KCreateSnapshotTags | KShareSnapshot | KRegister | KCreateImageTags | KShareImage
    | KDeregister | KDeleteSnapshot

  function KindOf(c: Call): Kind {
    match c
    case DescribeImages(_) => KDescribeImages
    case DescribeSnapshots(_) => KDescribeSnapshots
    case HeadObject(_, _) => KHeadObject
    case HeadBucket(_) => KHeadBucket
    case CreateBucket(_, _) => KCreateBucket
    case HttpGet(_) => KHttpGet
    case Upload(_, _, _, _) => KUpload
    case PutObjectTagging(_, _, _) => KPutObjectTagging
    case ImportSnapshot(_) => KImport
    case DescribeImportTask => KDescribeImportTask
    case CreateSnapshotTags(_, _) => KCreateSnapshotTags
    case ShareSnapshot(_, _) => KShareSnapshot
    case RegisterImage(_) => KRegister
    case CreateImageTags(_, _) => KCreateImageTags
    case ShareImage(_, _) => KShareImage
    case DeregisterImage(_) => KDeregister
    case DeleteSnapshot(_) => KDeleteSnapshot
  }

  /** How many calls of kind `k` the trace holds. */
  function Count(t: seq<Call>, k: Kind): (n: nat)
    ensures n <= |t|
  {
    if |t| == 0 then 0
    else (if KindOf(t[0]) == k then 1 else 0) + Count(t[1..], k)
  }

  /** No call of kind `k` means a count of 0. */
  lemma {:induction false} CountZero(t: seq<Call>, k: Kind)
    ensures Count(t, k) == 0 <==> forall i :: 0 <= i < |t| ==> KindOf(t[i]) != k
  {
    if |t| > 0 {
      CountZero(t[1..], k);
      assert forall i :: 1 <= i < |t| ==> t[i] == t[1..][i - 1];
    }
  }

  lemma {:induction false} CountConcat(a: seq<Call>, b: seq<Call>, k: Kind)
    ensures Count(a + b, k) == Count(a, k) + Count(b, k)
  {
    if |a| == 0 {
      assert a + b == b;
    } else {
      assert (a + b)[1..] == a[1..] + b;
      CountConcat(a[1..], b, k);
    }
  }

  /** A single call counts once for its own kind. */
  lemma CountOne(x: Call, k: Kind)
    ensures Count([x], k) == if KindOf(x) == k then 1 else 0
  {
    assert [x][1..] == [];
  }

  /** Every call of the trace is of a kind in `ks`. */
  predicate Only(t: seq<Call>, ks: set<Kind>) {
    |t| == 0 || (KindOf(t[0]) in ks && Only(t[1..], ks))
  }

  /** `Only` against its direct reading, call by call. */
  lemma {:induction false} OnlyMeans(t: seq<Call>, ks: set<Kind>)
    ensures Only(t, ks) <==> forall i :: 0 <= i < |t| ==> KindOf(t[i]) in ks
  {
    if |t| > 0 {
      OnlyMeans(t[1..], ks);
      assert forall i :: 1 <= i < |t| ==> t[i] == t[1..][i - 1];
    }
  }

  lemma {:induction false} OnlyConcat(a: seq<Call>, b: seq<Call>, ks: set<Kind>)
    ensures Only(a + b, ks) <==> Only(a, ks) && Only(b, ks)
  {
    if |a| == 0 {
      assert a + b == b;
    } else {
      assert (a + b)[1..] == a[1..] + b;
      OnlyConcat(a[1..], b, ks);
    }
  }

  lemma {:induction false} OnlyWeaken(t: seq<Call>, ks: set<Kind>, more: set<Kind>)
    requires Only(t, ks) && ks <= more
    ensures Only(t, more)
  {
    if |t| > 0 {
      OnlyWeaken(t[1..], ks, more);
    }
  }

  /** Three traces, each within a part of `ks`, make a trace within `ks`. */
  lemma OnlyThree(a: seq<Call>, b: seq<Call>, c: seq<Call>, ka: set<Kind>, kb: set<Kind>, kc: set<Kind>, ks: set<Kind>)
    requires Only(a, ka) && Only(b, kb) && Only(c, kc)
    requires ka <= ks && kb <= ks && kc <= ks
    ensures Only(a + b + c, ks)
  {
    OnlyWeaken(a, ka, ks);
    OnlyWeaken(b, kb, ks);
    OnlyWeaken(c, kc, ks);
    OnlyConcat(a, b, ks);
    OnlyConcat(a + b, c, ks);
  }

  /** A trace within `ks` holds no call of a kind outside it. */
  lemma {:induction false} OnlyCountZero(t: seq<Call>, ks: set<Kind>, k: Kind)
    requires Only(t, ks) && k !in ks
    ensures Count(t, k) == 0
  {
    if |t| > 0 {
      OnlyCountZero(t[1..], ks, k);
    }
  }

  /** A call of a kind outside `ks` is not in a trace that is `Only(ks)`. */
  lemma OnlyExcludes(t: seq<Call>, ks: set<Kind>, x: Call)
    requires Only(t, ks) && KindOf(x) !in ks
    ensures x !in t
  {
    OnlyMeans(t, ks);
  }

  // What the describe and HEAD calls answer.

  /** Whether an image passes one filter of `describe_images`. */
  predicate ImageMatches(f: Filter, img: Image) {
    if f.name == "name" then img.name in f.values
    else if f.name == "image-id" then img.id in f.values
    else if StartsWith(f.name, "tag:") then
      var v := Get(img.tags, f.name[4..]);
      v.Some? && v.value in f.values
    else false
  }

  /** Whether a snapshot passes one filter of `describe_snapshots`. */
  predicate SnapshotMatches(f: Filter, s: Snapshot) {
    if f.name == "snapshot-id" then s.id in f.values
    else if StartsWith(f.name, "tag:") then
      var v := Get(s.tags, f.name[4..]);
      v.Some? && v.value in f.values
    else false
  }

  /** The first owned image passing every filter. */
  function DescribeImagesFirst(c: Cloud, filters: seq<Filter>): (r: Option<Image>)
    ensures r.Some? ==> r.value in c.images
    ensures r.Some? ==> forall f :: f in filters ==> ImageMatches(f, r.value)
    ensures r.None? ==> forall i :: 0 <= i < |c.images| ==>
      exists f :: f in filters && !ImageMatches(f, c.images[i])
  {
    First(c.images, PassesAll(filters))
  }

  /** Whether an image passes every filter. */
  function PassesAll(filters: seq<Filter>): (Image -> bool) {
    (img: Image) => forall f :: f in filters ==> ImageMatches(f, img)
  }

  /** An image added after a listing in which nothing passed is the first
      that passes, if it does. */
  lemma DescribeImagesAfterMisses(c: Cloud, filters: seq<Filter>, img: Image)
    requires DescribeImagesFirst(c, filters).None?
    requires forall f :: f in filters ==> ImageMatches(f, img)
    ensures DescribeImagesFirst(c.(images := c.images + [img]), filters) == Some(img)
  {
    FirstAfterMisses(c.images, img, PassesAll(filters));
  }

  /** The first owned snapshot passing every filter. */
  function DescribeSnapshotsFirst(c: Cloud, filters: seq<Filter>): (r: Option<Snapshot>)
    ensures r.Some? ==> r.value in c.snapshots
    ensures r.Some? ==> forall f :: f in filters ==> SnapshotMatches(f, r.value)
    ensures r.None? ==> forall i :: 0 <= i < |c.snapshots| ==>
      exists f :: f in filters && !SnapshotMatches(f, c.snapshots[i])
  {
    First(c.snapshots, (s: Snapshot) => forall f :: f in filters ==> SnapshotMatches(f, s))
  }

  /** The outcome of a HEAD request the provider answers with `code`: 404 is
      "absent", any other number is re-raised, and a code that is not a
      number makes `int()` fail. */
  function HeadFailure<T>(code: ErrorCode): (r: Result<Option<T>, Error>)
    ensures code == Code(404) <==> r == Ok(None)
    ensures code.Code? && code.n != 404 ==> r == Fail(ClientError(code))
    ensures code.NonNumeric? ==> r.Fail? && r.error.ValueError?
  {
    match code
    case Code(n) => if n == 404 then Ok(None) else Fail(ClientError(code))
    case NonNumeric(text) => Fail(ValueError("invalid literal for int(): " + text))
  }

  /** The permissions held under `id` after adding `xs`. */
  function Grant<P>(m: map<string, set<P>>, id: string, xs: set<P>): (r: map<string, set<P>>)
    ensures id in r && xs <= r[id]
    ensures id in m ==> m[id] <= r[id]
    ensures forall p :: p in r[id] ==> p in xs || (id in m && p in m[id])
    ensures forall k :: k != id ==> (k in r <==> k in m) && (k in m ==> r[k] == m[k])
  {
    m[id := (if id in m then m[id] else {}) + xs]
  }

  /** Granting the same permissions twice is granting them once. */
  lemma GrantIdempotent<P>(m: map<string, set<P>>, id: string, xs: set<P>)
    ensures Grant(Grant(m, id, xs), id, xs) == Grant(m, id, xs)
  {
  }
}
