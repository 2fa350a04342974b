/** Bucket creation and `upload_to_container` of `cloudimg/aws.py`: get or
    create the bucket, pick the transport from the image path, upload, and
    tag the object. */
module AwsUpload {
  import opened Outcomes
  import opened Strings
  import opened Dicts
  import opened AwsModel
  import opened AwsRequests
  import opened AwsLookup

  /** The parts of `AWSService` the pipelines read. */
  datatype Service = Service(region: string, importRole: Option<string>)

  /** The service's default region. */
  const DefaultRegion := "us-east-1"

  /** `create_container`: the bucket exists afterwards. The propagation
      sleep is left out. */
  function CreateContainer(c: Cloud, svc: Service, bucket: string): (r: Step<string>)
    ensures r.out == Ok(bucket)
    ensures r.cloud == c.(buckets := c.buckets + {bucket})
    ensures |r.trace| == 1 && r.trace[0].CreateBucket? && r.trace[0].bucket == bucket
    ensures r.trace[0].locationConstraint.None? <==> svc.region == "us-east-1"
    ensures r.trace[0].locationConstraint.Some? ==> r.trace[0].locationConstraint.value == svc.region
  {
    Step(Ok(bucket), c.(buckets := c.buckets + {bucket}), [CreateBucket(bucket, LocationConstraint(svc.region))])
  }

  /** A path the source streams over HTTP: its lower-case form starts with
      "http" (so "HTTP://..." and "https://..." count, and so does a local
      file named "httpd.raw"). */
  predicate IsHttp(imagePath: string) {
    StartsWith(Lower(imagePath), "http")
  }

  /** The transport `upload_to_container` picks, in the source's order. An
      HTTP path ending in ".xz" is refused, after the GET is sent. */
  function Dispatch(imagePath: string): (r: Result<Transport, Error>)
    ensures r.Fail? <==> IsHttp(imagePath) && EndsWith(imagePath, ".xz")
    ensures r.Fail? ==> r.error.NotImplemented?
    ensures r == Ok(HttpStream) <==> IsHttp(imagePath) && !EndsWith(imagePath, ".xz")
    ensures r == Ok(LzmaStream) <==> !IsHttp(imagePath) && EndsWith(imagePath, ".xz")
    ensures r == Ok(LocalFile) <==> !IsHttp(imagePath) && !EndsWith(imagePath, ".xz")
  {
    if IsHttp(imagePath) then
      if EndsWith(imagePath, ".xz") then
        Fail(NotImplemented("LZMA decompression is not implemented for S3 content from an HTTP source"))
      else Ok(HttpStream)
    else if EndsWith(imagePath, ".xz") then Ok(LzmaStream)
    else Ok(LocalFile)
  }

  /** The status the GET of `url` answers. */
  function HttpStatus(c: Cloud, url: string): int {
    if url in c.httpStatus then c.httpStatus[url] else 200
  }

  /** `raise_for_status` raises on a client (4xx) or server (5xx) error. */
  predicate RaisesForStatus(status: int) {
    400 <= status < 600
  }

  /** The transport once the GET of an HTTP source has answered `status`:
      an error status raises before the ".xz" refusal; otherwise the path
      decides. */
  function Route(imagePath: string, status: int): (r: Result<Transport, Error>)
    ensures IsHttp(imagePath) && RaisesForStatus(status) ==> r == Fail(HTTPError(status))
    ensures r.Fail? <==> IsHttp(imagePath) && (RaisesForStatus(status) || EndsWith(imagePath, ".xz"))
    ensures r.Fail? && !RaisesForStatus(status) ==> r.error.NotImplemented?
    ensures r.Ok? ==> r == Dispatch(imagePath)
  {
    if IsHttp(imagePath) && RaisesForStatus(status) then Fail(HTTPError(status))
    else Dispatch(imagePath)
  }

  /** The calls after the bucket is settled: the GET of an HTTP source, the
      upload (with a sized progress tracker only for a local file), and the
      object tagging when there are tags. */
  function TransferCalls(imagePath: string, status: int, bucket: string, key: string, tags: Dict): seq<Call> {
    TransferCallsOf(GetCalls(imagePath), Route(imagePath, status), bucket, key, tags)
  }

  /** The GET that opens the stream of an HTTP source. */
  function GetCalls(imagePath: string): (r: seq<Call>)
    ensures r == [] || r == [HttpGet(imagePath)]
  {
    if IsHttp(imagePath) then [HttpGet(imagePath)] else []
  }

  /** The transfer calls once the GET (if any) is sent and the transport
      chosen as `d`. */
  function TransferCallsOf(get: seq<Call>, d: Result<Transport, Error>, bucket: string, key: string, tags: Dict): seq<Call> {
    match d
    case Fail(_) => get
    case Ok(t) => get + [Upload(t, bucket, key, t == LocalFile)] + TagCalls(bucket, key, tags)
  }

  /** `tag_s3_object`, called only with tags. */
  function TagCalls(bucket: string, key: string, tags: Dict): seq<Call> {
    if |tags| > 0 then [PutObjectTagging(bucket, key, Records(tags))] else []
  }

  /** The calls `upload_to_container` makes once the HEAD on the bucket has
      answered `head`, for an image URL answering `status`. */
  function UploadTrace(head: Result<Option<string>, Error>, svc: Service, imagePath: string, status: int,
                       bucket: string, key: string, tags: Dict): seq<Call> {
    if head.Fail? then [HeadBucket(bucket)]
    else
      var create := if head.value.None? then [CreateBucket(bucket, LocationConstraint(svc.region))] else [];
      [HeadBucket(bucket)] + create + TransferCalls(imagePath, status, bucket, key, tags)
  }

  /** `upload_to_container`. */
  function UploadToContainer(c: Cloud, svc: Service, imagePath: string, bucket: string, key: string,
                             tags: Dict): (r: Step<ObjectRef>)
    ensures r.trace == UploadTrace(ContainerByName(c, bucket).out, svc, imagePath, HttpStatus(c, imagePath), bucket, key, tags)
    ensures ContainerByName(c, bucket).out.Fail? ==>
      r.out.Fail? && r.out.error == ContainerByName(c, bucket).out.error
    ensures ContainerByName(c, bucket).out.Ok? ==> bucket in r.cloud.buckets
    ensures ContainerByName(c, bucket).out.Ok? && IsHttp(imagePath) && RaisesForStatus(HttpStatus(c, imagePath)) ==>
      r.out == Fail(HTTPError(HttpStatus(c, imagePath)))
    ensures r.out.Ok? <==> ContainerByName(c, bucket).out.Ok? && Route(imagePath, HttpStatus(c, imagePath)).Ok?
    ensures r.out.Ok? ==> r.out.value == ObjectRef(bucket, key) && r.cloud.objects == c.objects[(bucket, key) := tags]
    ensures r.out.Fail? ==> r.cloud.objects == c.objects
    ensures r.cloud.images == c.images && r.cloud.snapshots == c.snapshots
    ensures r.cloud.launchPermissions == c.launchPermissions && r.cloud.volumePermissions == c.volumePermissions
  {
    AfterHead(c, ContainerByName(c, bucket).out, svc, imagePath, HttpStatus(c, imagePath), bucket, key, tags)
  }

  /** The upload once the HEAD on the bucket has answered `head` and a GET
      of the image would answer `status`. */
  function AfterHead(c: Cloud, head: Result<Option<string>, Error>, svc: Service, imagePath: string, status: int,
                     bucket: string, key: string, tags: Dict): (r: Step<ObjectRef>)
    ensures r.trace == UploadTrace(head, svc, imagePath, status, bucket, key, tags)
    ensures head.Fail? ==> r.out.Fail? && r.out.error == head.error
    ensures head.Ok? ==> bucket in r.cloud.buckets
    ensures head.Ok? && IsHttp(imagePath) && RaisesForStatus(status) ==> r.out == Fail(HTTPError(status))
    ensures r.out.Ok? <==> head.Ok? && Route(imagePath, status).Ok?
    ensures r.out.Ok? ==> r.out.value == ObjectRef(bucket, key) && r.cloud.objects == c.objects[(bucket, key) := tags]
    ensures r.out.Fail? ==> r.cloud.objects == c.objects
    ensures r.cloud.images == c.images && r.cloud.snapshots == c.snapshots
    ensures r.cloud.launchPermissions == c.launchPermissions && r.cloud.volumePermissions == c.volumePermissions
  {
    var trace := UploadTrace(head, svc, imagePath, status, bucket, key, tags);
    if head.Fail? then Step(Fail(head.error), c, trace)
    else
      var c1 := c.(buckets := c.buckets + {bucket});
      var d := Route(imagePath, status);
      if d.Fail? then Step(Fail(d.error), c1, trace)
      else Step(Ok(ObjectRef(bucket, key)), c1.(objects := c1.objects[(bucket, key) := tags]), trace)
  }

  /** What the trace shows: the HEAD comes first; the bucket is created
      second, with the region's location constraint, exactly when the HEAD
      said it is missing; a successful upload's call is in the trace. */
  lemma UploadTraceShape(head: Result<Option<string>, Error>, svc: Service, imagePath: string, status: int,
                         bucket: string, key: string, tags: Dict)
    ensures var t := UploadTrace(head, svc, imagePath, status, bucket, key, tags);
      |t| >= 1 && t[0] == HeadBucket(bucket) && (head.Fail? ==> t == [HeadBucket(bucket)])
    ensures var t := UploadTrace(head, svc, imagePath, status, bucket, key, tags);
      head == Ok(None) ==> |t| >= 2 && t[1] == CreateBucket(bucket, LocationConstraint(svc.region))
    ensures var t := UploadTrace(head, svc, imagePath, status, bucket, key, tags);
      head.Ok? && Route(imagePath, status).Ok? ==>
        Upload(Route(imagePath, status).value, bucket, key, Route(imagePath, status).value == LocalFile) in t
  {
    var t := UploadTrace(head, svc, imagePath, status, bucket, key, tags);
    if head.Ok? && Route(imagePath, status).Ok? {
      var d := Route(imagePath, status);
      var get: seq<Call> := if IsHttp(imagePath) then [HttpGet(imagePath)] else [];
      var create: seq<Call> := if head.value.None? then [CreateBucket(bucket, LocationConstraint(svc.region))] else [];
      var up := Upload(d.value, bucket, key, d.value == LocalFile);
      assert t == [HeadBucket(bucket)] + create + (get + [up] + TagCalls(bucket, key, tags));
      assert t[1 + |create| + |get|] == up;
    }
  }

  /** The bucket is created at most once, and only when missing; exactly one
      upload happens on success and none on failure; the object is tagged
      once exactly when the upload succeeds with tags. */
  lemma UploadCounts(head: Result<Option<string>, Error>, svc: Service, imagePath: string, status: int,
                     bucket: string, key: string, tags: Dict)
    ensures Count(UploadTrace(head, svc, imagePath, status, bucket, key, tags), KCreateBucket) ==
      (if head == Ok(None) then 1 else 0)
    ensures Count(UploadTrace(head, svc, imagePath, status, bucket, key, tags), KUpload) ==
      (if head.Ok? && Route(imagePath, status).Ok? then 1 else 0)
    ensures Count(UploadTrace(head, svc, imagePath, status, bucket, key, tags), KPutObjectTagging) ==
      (if head.Ok? && Route(imagePath, status).Ok? && |tags| > 0 then 1 else 0)
  {
    UploadCreates(head, svc, imagePath, status, bucket, key, tags);
    UploadUploads(head, svc, imagePath, status, bucket, key, tags);
    UploadTags(head, svc, imagePath, status, bucket, key, tags);
  }

  lemma UploadCreates(head: Result<Option<string>, Error>, svc: Service, imagePath: string, status: int,
                      bucket: string, key: string, tags: Dict)
    ensures Count(UploadTrace(head, svc, imagePath, status, bucket, key, tags), KCreateBucket) ==
      (if head == Ok(None) then 1 else 0)
  {
    UploadCount(head, svc, imagePath, status, bucket, key, tags, KCreateBucket);
    TransferCounts(imagePath, status, bucket, key, tags);
  }

  lemma UploadUploads(head: Result<Option<string>, Error>, svc: Service, imagePath: string, status: int,
                      bucket: string, key: string, tags: Dict)
    ensures Count(UploadTrace(head, svc, imagePath, status, bucket, key, tags), KUpload) ==
      (if head.Ok? && Route(imagePath, status).Ok? then 1 else 0)
  {
    UploadCount(head, svc, imagePath, status, bucket, key, tags, KUpload);
    TransferCounts(imagePath, status, bucket, key, tags);
  }

  lemma UploadTags(head: Result<Option<string>, Error>, svc: Service, imagePath: string, status: int,
                   bucket: string, key: string, tags: Dict)
    ensures Count(UploadTrace(head, svc, imagePath, status, bucket, key, tags), KPutObjectTagging) ==
      (if head.Ok? && Route(imagePath, status).Ok? && |tags| > 0 then 1 else 0)
  {
    UploadCount(head, svc, imagePath, status, bucket, key, tags, KPutObjectTagging);
    TransferCounts(imagePath, status, bucket, key, tags);
  }

  /** A count over the HEAD, the optional bucket creation and the transfer. */
  lemma UploadCount(head: Result<Option<string>, Error>, svc: Service, imagePath: string, status: int,
                    bucket: string, key: string, tags: Dict, k: Kind)
    requires k != KHeadBucket
    ensures Count(UploadTrace(head, svc, imagePath, status, bucket, key, tags), k) ==
      if head.Fail? then 0
      else (if head.value.None? && k == KCreateBucket then 1 else 0) + Count(TransferCalls(imagePath, status, bucket, key, tags), k)
  {
    var calls := TransferCalls(imagePath, status, bucket, key, tags);
    var create := if head.Ok? && head.value.None? then [CreateBucket(bucket, LocationConstraint(svc.region))] else [];
    HeadCount(bucket, create, calls, k);
  }

  lemma HeadCount(bucket: string, create: seq<Call>, calls: seq<Call>, k: Kind)
    requires k != KHeadBucket
    requires create == [] || (|create| == 1 && create[0].CreateBucket?)
    ensures Count([HeadBucket(bucket)], k) == 0
    ensures Count([HeadBucket(bucket)] + create + calls, k) ==
      (if create != [] && k == KCreateBucket then 1 else 0) + Count(calls, k)
  {
    CountOne(HeadBucket(bucket), k);
    CountConcat([HeadBucket(bucket)] + create, calls, k);
    CountConcat([HeadBucket(bucket)], create, k);
    if create != [] {
      CountOne(create[0], k);
      assert create == [create[0]];
    }
  }

  lemma TransferCounts(imagePath: string, status: int, bucket: string, key: string, tags: Dict)
    ensures Count(TransferCalls(imagePath, status, bucket, key, tags), KCreateBucket) == 0
    ensures Count(TransferCalls(imagePath, status, bucket, key, tags), KUpload) == (if Route(imagePath, status).Ok? then 1 else 0)
    ensures Count(TransferCalls(imagePath, status, bucket, key, tags), KPutObjectTagging) ==
      (if Route(imagePath, status).Ok? && |tags| > 0 then 1 else 0)
  {
    var get := GetCalls(imagePath);
    var d := Route(imagePath, status);
    TransferCount(get, d, bucket, key, tags, KCreateBucket);
    TransferCount(get, d, bucket, key, tags, KUpload);
    TransferCount(get, d, bucket, key, tags, KPutObjectTagging);
  }

  /** A count over the GET, the upload and the tagging. */
  lemma TransferCount(get: seq<Call>, d: Result<Transport, Error>, bucket: string, key: string, tags: Dict, k: Kind)
    requires get == [] || (|get| == 1 && get[0].HttpGet?)
    requires k != KHttpGet
    ensures Count(TransferCallsOf(get, d, bucket, key, tags), k) ==
      if d.Fail? then 0
      else (if k == KUpload then 1 else 0) + (if k == KPutObjectTagging && |tags| > 0 then 1 else 0)
  {
    if get != [] {
      CountOne(get[0], k);
      assert get == [get[0]];
    }
    if d.Ok? {
      var up := Upload(d.value, bucket, key, d.value == LocalFile);
      var tagging := TagCalls(bucket, key, tags);
      CountConcat(get + [up], tagging, k);
      CountConcat(get, [up], k);
      CountOne(up, k);
      if |tags| > 0 {
        CountOne(PutObjectTagging(bucket, key, Records(tags)), k);
      }
    }
  }

  // The four cases the source's tests pin, as exact call sequences.

  /** A local raw file into an existing bucket, with no tags: one sized
      upload. */
  lemma UploadLocalFile(c: Cloud, svc: Service, imagePath: string, bucket: string, key: string)
    requires bucket !in c.bucketFaults && bucket in c.buckets
    requires !IsHttp(imagePath) && !EndsWith(imagePath, ".xz")
    ensures UploadToContainer(c, svc, imagePath, bucket, key, []).trace ==
      [HeadBucket(bucket), Upload(LocalFile, bucket, key, true)]
  {
  }

  /** A local ".xz" file is decompressed on the fly, with an unsized
      tracker. */
  lemma UploadXzFile(c: Cloud, svc: Service, imagePath: string, bucket: string, key: string)
    requires bucket !in c.bucketFaults && bucket in c.buckets
    requires !IsHttp(imagePath) && EndsWith(imagePath, ".xz")
    ensures UploadToContainer(c, svc, imagePath, bucket, key, []).trace ==
      [HeadBucket(bucket), Upload(LzmaStream, bucket, key, false)]
  {
  }

  /** An HTTP source into a missing bucket outside us-east-1: the bucket is
      created with a location constraint, then the URL answers a status that
      is not an error, so the stream is uploaded and the object tagged. */
  lemma UploadHttpIntoNewBucket(c: Cloud, svc: Service, imagePath: string, bucket: string, key: string, tags: Dict)
    requires bucket !in c.bucketFaults && bucket !in c.buckets
    requires svc.region != "us-east-1" && |tags| > 0
    requires IsHttp(imagePath) && !EndsWith(imagePath, ".xz")
    requires !RaisesForStatus(HttpStatus(c, imagePath))
    ensures UploadToContainer(c, svc, imagePath, bucket, key, tags).trace ==
      [HeadBucket(bucket), CreateBucket(bucket, Some(svc.region)), HttpGet(imagePath),
       Upload(HttpStream, bucket, key, false), PutObjectTagging(bucket, key, Records(tags))]
  {
  }

  /** An HTTP ".xz" source whose URL answers without an error status is
      refused after the GET, and nothing is uploaded. */
  lemma UploadHttpXzRefused(c: Cloud, svc: Service, imagePath: string, bucket: string, key: string, tags: Dict)
    requires bucket !in c.bucketFaults && bucket in c.buckets
    requires IsHttp(imagePath) && EndsWith(imagePath, ".xz")
    requires !RaisesForStatus(HttpStatus(c, imagePath))
    ensures UploadToContainer(c, svc, imagePath, bucket, key, tags).out.Fail?
    ensures UploadToContainer(c, svc, imagePath, bucket, key, tags).out.error.NotImplemented?
    ensures UploadToContainer(c, svc, imagePath, bucket, key, tags).trace == [HeadBucket(bucket), HttpGet(imagePath)]
  {
  }

  /** An HTTP source whose URL answers an error status raises `HTTPError`
      right after the GET, whatever its extension: nothing is uploaded or
      tagged, and only a bucket the HEAD found missing has been created. */
  lemma UploadHttpErrorRaises(c: Cloud, svc: Service, imagePath: string, bucket: string, key: string, tags: Dict)
    requires bucket !in c.bucketFaults
    requires IsHttp(imagePath) && RaisesForStatus(HttpStatus(c, imagePath))
    ensures var r := UploadToContainer(c, svc, imagePath, bucket, key, tags);
      r.out == Fail(HTTPError(HttpStatus(c, imagePath))) && r.cloud.objects == c.objects
    ensures var r := UploadToContainer(c, svc, imagePath, bucket, key, tags);
      r.trace == [HeadBucket(bucket)] +
        (if bucket in c.buckets then [] else [CreateBucket(bucket, LocationConstraint(svc.region))]) +
        [HttpGet(imagePath)]
  {
  }
}
