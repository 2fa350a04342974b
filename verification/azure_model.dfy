/** The storage account the Azure reconciler of `cloudimg/ms_azure.py`
    works against, the calls it makes on it, and its request records.

    The account maps container names to their blobs, in the order a tag
    query lists them. `listing` is what `list_containers` answers: it names
    the containers in listing order and may name one that no longer exists
    (a container client lookup then finds nothing), or leave one out. Only
    the copy-status probes can fail; every other call on the account
    succeeds. */
module AzureModel {
  import opened Outcomes
  import opened Strings
  import opened Dicts
  import opened Seqs
  import opened Common
  import opened AzureTags

  /** Why a server-side copy is reported as failed. */
  datatype CopyFailure =
    | RetriesExhausted       // the retry budget ran out before "success"
    | UnboundProperties      // the very first property query raised
    | BadProgress            // the copy progress could not be computed

  /** The exceptions the modelled code raises. */
  datatype Error =
    | AssertionError(message: string)
    | BlobNotFound(message: string)
    | AzureError(reason: CopyFailure)
    | NoneAttribute(attribute: string)   // an attribute looked up on `None`
    | ResourceNotFound(container: string, name: string)   // properties of a missing blob

  /** What a blob holds: pages uploaded from a local file (decompressed on
      the way when the file is ".xz"), or a server-side copy of a URL. */
  datatype Content = Pages(length: nat, decompressed: bool) | CopyOf(url: string)

  datatype Blob = Blob(name: string, tags: Dict, content: Content)

  datatype Storage = Storage(containers: map<string, seq<Blob>>, listing: seq<string>)

  /** A blob client: where the blob lives. */
  datatype BlobRef = BlobRef(container: string, name: string)

  /** What `get_blob_properties` answers. */
  datatype BlobProperties = BlobProperties(container: string, name: string, blob: Blob)

  /** A provider call. */
  datatype Call =
    | ContainerExists(container: string)
    | CreateContainer(container: string)
    | ListContainers
    | FindBlobsByTags(container: string, expression: string)
    | BlobExists(container: string, name: string)
    | StartCopy(container: string, name: string, url: string)   // empty metadata, no tags
    | GetBlobProperties(container: string, name: string)
    | UploadBlob(container: string, name: string, length: nat, decompress: bool, tags: Dict)
    | SetBlobTags(container: string, name: string, tags: Dict)
    | DeleteBlob(container: string, name: string, includeSnapshots: bool)

  /** A call that changes the account. */
  predicate IsWrite(c: Call) {
    c.CreateContainer? || c.StartCopy? || c.UploadBlob? || c.SetBlobTags? || c.DeleteBlob?
  }

  /** The writes of a trace, in order. */
  function Writes(t: seq<Call>): (w: seq<Call>)
    ensures |w| <= |t|
    ensures forall i :: 0 <= i < |w| ==> IsWrite(w[i])
  {
    if |t| == 0 then []
    else (if IsWrite(t[0]) then [t[0]] else []) + Writes(t[1..])
  }

  lemma {:induction false} WritesConcat(a: seq<Call>, b: seq<Call>)
    ensures Writes(a + b) == Writes(a) + Writes(b)
  {
    if |a| == 0 {
      assert a + b == b;
    } else {
      assert (a + b)[1..] == a[1..] + b;
      WritesConcat(a[1..], b);
    }
  }

  /** The writes of a single call. */
  lemma WritesOne(c: Call)
    ensures Writes([c]) == if IsWrite(c) then [c] else []
  {
    assert [c][1..] == [];
  }

  /** A trace of reads writes nothing. */
  lemma {:induction false} WritesNone(t: seq<Call>)
    requires forall i :: 0 <= i < |t| ==> !IsWrite(t[i])
    ensures Writes(t) == []
  {
    if |t| > 0 {
      assert forall i :: 0 <= i < |t[1..]| ==> t[1..][i] == t[i + 1];
      WritesNone(t[1..]);
    }
  }

  /** A step that cannot fail: its value, the account after it, its calls. */
  datatype Act<T> = Act(value: T, storage: Storage, trace: seq<Call>)

  /** A step that can fail. */
  datatype Step<T> = Step(out: Result<T, Error>, storage: Storage, trace: seq<Call>)

  // The account's contents.

  /** The blobs of a container; none for a container that does not exist. */
  function BlobsOf(s: Storage, c: string): seq<Blob> {
    if c in s.containers then s.containers[c] else []
  }

  function NamedAs(name: string): (Blob -> bool) {
    (b: Blob) => b.name == name
  }

  /** The blob called `name` in container `c`. */
  function BlobAt(s: Storage, c: string, name: string): (r: Option<Blob>)
    ensures r.Some? ==> c in s.containers && r.value in s.containers[c] && r.value.name == name
    ensures r.None? <==> forall j :: 0 <= j < |BlobsOf(s, c)| ==> BlobsOf(s, c)[j].name != name
  {
    First(BlobsOf(s, c), NamedAs(name))
  }

  /** A blob carries every tag of `tags` with the same value. */
  predicate Carries(b: Blob, tags: Dict) {
    forall i :: 0 <= i < |tags| ==> Get(b.tags, tags[i].0) == Some(tags[i].1)
  }

  function CarriesAll(tags: Dict): (Blob -> bool) {
    (b: Blob) => Carries(b, tags)
  }

  /** The first blob of container `c` a tag query for `tags` lists. The
      query travels as `FilterExpression(tags)`; `AzureTags.FilterRoundTrip`
      shows the expression carries exactly these tags. */
  function TaggedIn(s: Storage, c: string, tags: Dict): (r: Option<Blob>)
    ensures r.Some? ==> c in s.containers && r.value in s.containers[c] && Carries(r.value, tags)
    ensures r.None? <==> forall j :: 0 <= j < |BlobsOf(s, c)| ==> !Carries(BlobsOf(s, c)[j], tags)
  {
    First(BlobsOf(s, c), CarriesAll(tags))
  }

  /** A blob whose own tags are `tags` carries them. */
  lemma CarriesOwnTags(b: Blob)
    ensures Carries(b, b.tags)
  {
    forall i | 0 <= i < |b.tags|
      ensures Get(b.tags, b.tags[i].0) == Some(b.tags[i].1)
    {
      GetEntry(b.tags, i);
    }
  }

  /** Adds a blob at the end of container `c`. */
  function AddBlob(s: Storage, c: string, b: Blob): (r: Storage)
    requires c in s.containers
    ensures r.listing == s.listing
    ensures r.containers.Keys == s.containers.Keys
    ensures r.containers[c] == s.containers[c] + [b]
    ensures forall o :: o in s.containers && o != c ==> r.containers[o] == s.containers[o]
  {
    s.(containers := s.containers[c := s.containers[c] + [b]])
  }

  /** Removes every blob called `name` from container `c`. */
  function RemoveBlob(s: Storage, c: string, name: string): (r: Storage)
    requires c in s.containers
    ensures r.listing == s.listing
    ensures r.containers.Keys == s.containers.Keys
    ensures forall j :: 0 <= j < |r.containers[c]| ==> r.containers[c][j].name != name
    ensures forall j :: 0 <= j < |s.containers[c]| && s.containers[c][j].name != name ==>
      s.containers[c][j] in r.containers[c]
    ensures forall b :: b in r.containers[c] ==> b in s.containers[c]
    ensures forall o :: o in s.containers && o != c ==> r.containers[o] == s.containers[o]
  {
    s.(containers := s.containers[c := Keep(s.containers[c], (b: Blob) => b.name != name)])
  }

  /** Replaces the tags of every blob called `name` in container `c`. */
  function Retag(s: Storage, c: string, name: string, tags: Dict): (r: Storage)
    requires c in s.containers
    ensures r.listing == s.listing
    ensures r.containers.Keys == s.containers.Keys
    ensures |r.containers[c]| == |s.containers[c]|
    ensures forall j :: 0 <= j < |s.containers[c]| ==>
      r.containers[c][j] == if s.containers[c][j].name == name then s.containers[c][j].(tags := tags) else s.containers[c][j]
    ensures forall o :: o in s.containers && o != c ==> r.containers[o] == s.containers[o]
  {
    var bs := s.containers[c];
    s.(containers := s.containers[c := seq(|bs|, j requires 0 <= j < |bs| => if bs[j].name == name then bs[j].(tags := tags) else bs[j])])
  }

  // The request records.

  /** `AzurePublishingMetadata`: publishing metadata whose container and tags
      are known to be set. */
  datatype AzurePublishingMetadata = AzurePublishingMetadata(base: PublishingMetadata, container: string, tags: Dict)
  {
    function ObjectName(): string {
      base.ObjectName()
    }
  }

  /** The constructor's two assertions, in order: a container must be
      defined, then a tag. */
  function NewAzurePublishingMetadata(md: PublishingMetadata): (r: Result<AzurePublishingMetadata, Error>)
    ensures r.Ok? <==> !Blank(md.details.container) && |md.details.tags| > 0
    ensures Blank(md.details.container) ==> r == Fail(AssertionError("A container must be defined"))
    ensures !Blank(md.details.container) && |md.details.tags| == 0 ==> r == Fail(AssertionError("A tag must be defined"))
    ensures r.Ok? ==> r.value.base == md && r.value.container == md.details.container.value &&
                      r.value.container != "" && r.value.tags == md.details.tags
  {
    if Blank(md.details.container) then Fail(AssertionError("A container must be defined"))
    else if |md.details.tags| == 0 then Fail(AssertionError("A tag must be defined"))
    else Ok(AzurePublishingMetadata(md, md.details.container.value, md.details.tags))
  }

  /** `AzureDeleteMetadata`: delete metadata with the container, whose image
      name is always set. */
  datatype AzureDeleteMetadata = AzureDeleteMetadata(base: DeleteMetadata, container: string)
  {
    function ImageName(): string {
      if base.imageName.Some? then base.imageName.value else base.imageId
    }
  }

  /** The constructor: on Azure the image name and id are the same thing, so
      a missing or empty image name is replaced by the image id. */
  function NewAzureDeleteMetadata(container: string, imageId: string, imageName: Option<string>,
                                  snapshotId: Option<string>, snapshotName: Option<string>,
                                  skipSnapshot: bool): (m: AzureDeleteMetadata)
    ensures m.container == container && m.base.imageId == imageId
    ensures m.base.imageName.Some?
    ensures Blank(imageName) ==> m.ImageName() == imageId
    ensures !Blank(imageName) ==> m.ImageName() == imageName.value
    ensures m.base.snapshotId == snapshotId && m.base.snapshotName == snapshotName
    ensures m.base.skipSnapshot == skipSnapshot
  {
    var name := if Blank(imageName) then Some(imageId) else imageName;
    AzureDeleteMetadata(DeleteMetadata(imageId, name, snapshotId, snapshotName, skipSnapshot), container)
  }

  /** The image name the constructor, as written, hands on when the image id
      arrives as a positional argument rather than a keyword: the id is read
      from the keywords only, so a missing name becomes `None` instead of the
      id. */
  function DeleteImageNameAsWritten(imageId: string, idByKeyword: bool, imageName: Option<string>): (r: Option<string>)
    ensures !Blank(imageName) ==> r == imageName
    ensures Blank(imageName) && idByKeyword ==> r == Some(imageId)
    ensures Blank(imageName) && !idByKeyword ==> r.None?
  {
    if !Blank(imageName) then imageName
    else if idByKeyword then Some(imageId)
    else None
  }

  /** With the id passed by position and no name, the constructor as written
      leaves the name unset, where the corrected one uses the id. */
  lemma PositionalIdLeavesNameUnset(container: string, imageId: string)
    ensures DeleteImageNameAsWritten(imageId, false, None) == None
    ensures NewAzureDeleteMetadata(container, imageId, None, None, None, false).base.imageName == Some(imageId)
  {
  }
}
