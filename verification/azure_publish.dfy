/** `publish`, `tag_image` and `delete` of `cloudimg/ms_azure.py`. Publishing
    resolves the blob by name, then by tags, and uploads only when both
    miss; it answers the blob's properties. */
module AzurePublish {
  import opened Outcomes
  import opened Strings
  import opened Dicts
  import opened Seqs
  import opened AzureTags
  import opened AzureModel
  import opened AzureLookup
  import opened AzureCopy
  import opened AzureUpload

  /** The blob stage of `publish`: the blob of the object name in the
      container, else the first blob carrying the tags in any listed
      container, else a new upload. */
  function Locate(s: Storage, md: AzurePublishingMetadata, env: Env): (r: Step<Option<BlobRef>>)
  {
    var byName := GetObject(s, md.container, md.ObjectName());
    if byName.value.Some? then Step(Ok(byName.value), s, byName.trace)
    else Search(s, md, env, byName.trace)
  }

  /** The blob stage once the name missed, after the calls `head`: the tag
      search's hit, else a new upload. */
  function Search(s: Storage, md: AzurePublishingMetadata, env: Env, head: seq<Call>): (r: Step<Option<BlobRef>>)
  {
    var byTags := FilterObjectByTags(s, md.tags);
    if byTags.value.Some? then
      var got := GetObject(s, byTags.value.value.container, byTags.value.value.name);
      Step(Ok(got.value), s, head + byTags.trace + got.trace)
    else
      var up := Upload(s, md.base.imagePath, md.container, md.ObjectName(), md.tags, env);
      Step(up.out, up.storage, head + byTags.trace + up.trace)
  }

  /** `get_blob_properties` on a blob client: the blob's properties, or the
      provider's not-found error for a blob that is not there. */
  function Properties(s: Storage, ref: BlobRef): (r: Result<BlobProperties, Error>)
    ensures r.Ok? <==> BlobAt(s, ref.container, ref.name).Some?
  {
    match BlobAt(s, ref.container, ref.name)
    case None => Fail(ResourceNotFound(ref.container, ref.name))
    case Some(b) => Ok(BlobProperties(ref.container, ref.name, b))
  }

  /** `publish`: the located blob's properties. */
  function Publish(s: Storage, md: AzurePublishingMetadata, env: Env): (r: Step<BlobProperties>)
  {
    Finish(Locate(s, md, env))
  }

  /** The last step of `publish`. The located client is logged (its
      container name read) before the properties are asked for, so an
      absent client fails on that attribute. */
  function Finish(loc: Step<Option<BlobRef>>): (r: Step<BlobProperties>)
  {
    match loc.out
    case Fail(e) => Step(Fail(e), loc.storage, loc.trace)
    case Ok(None) => Step(Fail(NoneAttribute("container_name")), loc.storage, loc.trace)
    case Ok(Some(ref)) =>
      Step(Properties(loc.storage, ref), loc.storage, loc.trace + [GetBlobProperties(ref.container, ref.name)])
  }

  /** The message `tag_image` raises for a blob it cannot find. */
  function MissingBlobMessage(container: string, name: string): string {
    "Attempting to tag a missing blob: " + container + "/" + name + "."
  }

  /** `tag_image`: replace the tags of the blob the properties describe. */
  function TagImage(s: Storage, props: BlobProperties, tags: Dict): (r: Step<()>)
    ensures r.out.Ok? <==> BlobAt(s, props.container, props.name).Some?
    ensures r.out.Fail? ==> r.out.error == BlobNotFound(MissingBlobMessage(props.container, props.name)) && r.storage == s
    ensures r.out.Ok? ==>
      BlobAt(r.storage, props.container, props.name) == Some(BlobAt(s, props.container, props.name).value.(tags := tags))
    ensures r.storage.listing == s.listing && r.storage.containers.Keys == s.containers.Keys
    ensures Writes(r.trace) == if r.out.Ok? then [SetBlobTags(props.container, props.name, tags)] else []
  {
    var got := GetObject(s, props.container, props.name);
    if got.value.None? then
      Step(Fail(BlobNotFound(MissingBlobMessage(props.container, props.name))), s, got.trace)
    else
      RetagFound(s, props.container, props.name, tags);
      WritesConcat(got.trace, [SetBlobTags(props.container, props.name, tags)]);
      WritesOne(SetBlobTags(props.container, props.name, tags));
      Step(Ok(()), Retag(s, props.container, props.name, tags), got.trace + [SetBlobTags(props.container, props.name, tags)])
  }

  /** After a retag, the blob of that name is the one it was, with the new
      tags. */
  lemma RetagFound(s: Storage, c: string, name: string, tags: Dict)
    requires BlobAt(s, c, name).Some?
    ensures BlobAt(Retag(s, c, name, tags), c, name) == Some(BlobAt(s, c, name).value.(tags := tags))
  {
    var bs := s.containers[c];
    var i := FirstIndex(bs, NamedAs(name));
    var r := Retag(s, c, name, tags);
    assert forall j :: 0 <= j < |bs| ==> r.containers[c][j].name == bs[j].name;
    FirstAt(r.containers[c], NamedAs(name), i);
  }

  /** `delete`: remove the blob of the image name from the container, with
      its snapshots; answers the image name and "container/name", or
      nothing twice when there is no such blob. */
  function Delete(s: Storage, md: AzureDeleteMetadata): (r: Act<(Option<string>, Option<string>)>)
    ensures r.value.0.None? <==> BlobAt(s, md.container, md.ImageName()).None?
    ensures r.value.0.None? ==> r.value.1.None? && r.storage == s
    ensures r.value.0.Some? ==>
      r.value == (Some(md.ImageName()), Some(md.container + "/" + md.ImageName()))
    ensures BlobAt(r.storage, md.container, md.ImageName()).None?
    ensures Writes(r.trace) == if r.value.0.Some? then [DeleteBlob(md.container, md.ImageName(), true)] else []
  {
    var name := md.ImageName();
    var got := GetObject(s, md.container, name);
    if got.value.None? then Act((None, None), s, got.trace)
    else
      WritesConcat(got.trace, [DeleteBlob(md.container, name, true)]);
      WritesOne(DeleteBlob(md.container, name, true));
      Act((Some(name), Some(md.container + "/" + name)), RemoveBlob(s, md.container, name),
          got.trace + [DeleteBlob(md.container, name, true)])
  }

  // How publishing resolves the blob.

  /** The account-wide tag search over the publishing tags. */
  function TagHit(s: Storage, md: AzurePublishingMetadata): Option<BlobRef> {
    FilterObjectByTags(s, md.tags).value
  }

  /** A blob under the object name is answered at once: no tag search, no
      write. */
  lemma LocateByName(s: Storage, md: AzurePublishingMetadata, env: Env)
    requires BlobAt(s, md.container, md.ObjectName()).Some?
    ensures var r := Locate(s, md, env);
      && r.out == Ok(Some(BlobRef(md.container, md.ObjectName())))
      && r.storage == s
      && r.trace == GetObject(s, md.container, md.ObjectName()).trace
  {
  }

  /** No blob under the name but a tagged one: the first tagged blob is
      answered, and nothing is written. */
  lemma LocateByTags(s: Storage, md: AzurePublishingMetadata, env: Env)
    requires BlobAt(s, md.container, md.ObjectName()).None? && TagHit(s, md).Some?
    ensures var r := Locate(s, md, env);
      && r.out == Ok(TagHit(s, md))
      && r.storage == s
      && Writes(r.trace) == []
  {
    var byName := GetObject(s, md.container, md.ObjectName());
    var byTags := FilterObjectByTags(s, md.tags);
    FilterHitExists(s, md.tags);
    var ref := byTags.value.value;
    var got := GetObject(s, ref.container, ref.name);
    WritesConcat(byName.trace, byTags.trace);
    WritesConcat(byName.trace + byTags.trace, got.trace);
  }

  /** Both searches miss: the blob stage is the upload. */
  lemma LocateUploads(s: Storage, md: AzurePublishingMetadata, env: Env)
    requires BlobAt(s, md.container, md.ObjectName()).None? && TagHit(s, md).None?
    ensures var r := Locate(s, md, env);
      var up := Upload(s, md.base.imagePath, md.container, md.ObjectName(), md.tags, env);
      && r.out == up.out
      && r.storage == up.storage
      && Writes(r.trace) == Writes(up.trace)
  {
    var byName := GetObject(s, md.container, md.ObjectName());
    var byTags := FilterObjectByTags(s, md.tags);
    var up := Upload(s, md.base.imagePath, md.container, md.ObjectName(), md.tags, env);
    WritesConcat(byName.trace, byTags.trace);
    WritesConcat(byName.trace + byTags.trace, up.trace);
  }

  /** The properties step: the located blob's properties, no write. */
  lemma FinishAnswers(loc: Step<Option<BlobRef>>)
    ensures var r := Finish(loc);
      && r.storage == loc.storage
      && Writes(r.trace) == Writes(loc.trace)
      && (loc.out.Fail? ==> r.out == Fail(loc.out.error))
      && (loc.out == Ok(None) ==> r.out == Fail(NoneAttribute("container_name")))
      && (loc.out.Ok? && loc.out.value.Some? ==> r.out == Properties(loc.storage, loc.out.value.value))
  {
    if loc.out.Ok? && loc.out.value.Some? {
      var ref := loc.out.value.value;
      WritesConcat(loc.trace, [GetBlobProperties(ref.container, ref.name)]);
      WritesOne(GetBlobProperties(ref.container, ref.name));
    }
  }

  /** Found by name: the blob's properties, nothing written, and only the
      two lookups of the name and the properties query made. */
  lemma PublishFoundByName(s: Storage, md: AzurePublishingMetadata, env: Env)
    requires BlobAt(s, md.container, md.ObjectName()).Some?
    ensures var r := Publish(s, md, env);
      && r.out == Ok(BlobProperties(md.container, md.ObjectName(), BlobAt(s, md.container, md.ObjectName()).value))
      && r.storage == s
      && Writes(r.trace) == []
      && r.trace == GetObject(s, md.container, md.ObjectName()).trace + [GetBlobProperties(md.container, md.ObjectName())]
  {
    LocateByName(s, md, env);
    FinishAnswers(Locate(s, md, env));
  }

  /** Found by tags: the properties of the first listed container's first
      tagged blob, nothing written. */
  lemma PublishFoundByTags(s: Storage, md: AzurePublishingMetadata, env: Env)
    requires BlobAt(s, md.container, md.ObjectName()).None? && TagHit(s, md).Some?
    ensures TagHit(s, md) == FirstTagged(s, s.listing, md.tags)
    ensures var ref := TagHit(s, md).value;
      var r := Publish(s, md, env);
      && BlobAt(s, ref.container, ref.name).Some?
      && r.out == Ok(BlobProperties(ref.container, ref.name, BlobAt(s, ref.container, ref.name).value))
      && r.storage == s
      && Writes(r.trace) == []
  {
    LocateByTags(s, md, env);
    FinishAnswers(Locate(s, md, env));
    FilterObjectByTagsFinds(s, md.tags);
  }

  /** Both miss and the destination container holds no tagged blob: a local
      image is uploaded as a page blob carrying the tags, and its properties
      are answered. */
  lemma PublishUploadsFile(s: Storage, md: AzurePublishingMetadata, env: Env)
    requires BlobAt(s, md.container, md.ObjectName()).None? && TagHit(s, md).None?
    requires TaggedIn(s, md.container, md.tags).None? && !IsUrl(md.base.imagePath)
    ensures var path := md.base.imagePath;
      var decompress := EndsWith(path, ".xz");
      var b := UploadedBlob(md.ObjectName(), md.tags, env.fileLength(path, decompress), decompress);
      var r := Publish(s, md, env);
      && r.out == Ok(BlobProperties(md.container, md.ObjectName(), b))
      && r.storage == AddBlob(Prepared(s, md.container), md.container, b)
      && BlobAt(r.storage, md.container, md.ObjectName()) == Some(b)
      && Writes(r.trace) == Creates(s, md.container) + [UploadBlob(md.container, md.ObjectName(), b.content.length, decompress, md.tags)]
  {
    LocateUploads(s, md, env);
    UploadWritesFile(s, md.base.imagePath, md.container, md.ObjectName(), md.tags, env);
    FinishAnswers(Locate(s, md, env));
  }

  /** Both miss, no tagged blob in the container, and a URL: the image is
      copied server-side; the untagged copy stays whatever the poll
      reports, and publishing succeeds exactly when the poll does. */
  lemma PublishCopies(s: Storage, md: AzurePublishingMetadata, env: Env)
    requires BlobAt(s, md.container, md.ObjectName()).None? && TagHit(s, md).None?
    requires TaggedIn(s, md.container, md.tags).None? && IsUrl(md.base.imagePath)
    ensures var b := CopiedBlob(md.ObjectName(), md.base.imagePath);
      var r := Publish(s, md, env);
      && r.storage == AddBlob(Prepared(s, md.container), md.container, b)
      && BlobAt(r.storage, md.container, md.ObjectName()) == Some(b)
      && (r.out.Ok? <==> PollCopy(env.probes).out.Ok?)
      && (r.out.Ok? ==> r.out.value == BlobProperties(md.container, md.ObjectName(), b))
      && (r.out.Fail? ==> r.out.error == PollCopy(env.probes).out.error)
      && Writes(r.trace) == Creates(s, md.container) + [StartCopy(md.container, md.ObjectName(), md.base.imagePath)]
  {
    LocateUploads(s, md, env);
    UploadCopies(s, md.base.imagePath, md.container, md.ObjectName(), md.tags, env);
    FinishAnswers(Locate(s, md, env));
  }

  /** Both miss although the destination container holds a tagged blob (it
      is not among the listed containers): the upload's own tag search comes
      back empty and publishing fails on the absent result, writing
      nothing. */
  lemma PublishUnlistedTagged(s: Storage, md: AzurePublishingMetadata, env: Env)
    requires BlobAt(s, md.container, md.ObjectName()).None? && TagHit(s, md).None?
    requires TaggedIn(s, md.container, md.tags).Some?
    ensures md.container !in s.listing
    ensures var r := Publish(s, md, env);
      r.out == Fail(NoneAttribute("container_name")) && r.storage == s && Writes(r.trace) == []
  {
    LocateUploads(s, md, env);
    UploadReusesTagged(s, md.base.imagePath, md.container, md.ObjectName(), md.tags, env);
    FinishAnswers(Locate(s, md, env));
  }

  // Publishing again.

  /** Publishing is idempotent: once it has succeeded, publishing the same
      metadata again answers the same properties, leaves the account as it
      is and writes nothing, whatever the environment. */
  lemma PublishIdempotent(s: Storage, md: AzurePublishingMetadata, env: Env, env2: Env)
    requires Publish(s, md, env).out.Ok?
    ensures var r := Publish(s, md, env);
      var again := Publish(r.storage, md, env2);
      again.out == r.out && again.storage == r.storage && Writes(again.trace) == []
  {
    var c := md.container;
    var n := md.ObjectName();
    var r := Publish(s, md, env);
    if BlobAt(s, c, n).Some? {
      PublishFoundByName(s, md, env);
      PublishFoundByName(s, md, env2);
    } else if TagHit(s, md).Some? {
      PublishFoundByTags(s, md, env);
      PublishFoundByTags(s, md, env2);
    } else if TaggedIn(s, c, md.tags).Some? {
      PublishUnlistedTagged(s, md, env);
      assert false;
    } else if IsUrl(md.base.imagePath) {
      PublishCopies(s, md, env);
      PublishFoundByName(r.storage, md, env2);
    } else {
      PublishUploadsFile(s, md, env);
      PublishFoundByName(r.storage, md, env2);
    }
  }

  /** A copy whose poll fails still leaves its blob behind, and publishing
      again takes that blob for the published image without copying
      anything. */
  lemma RepublishAfterFailedCopy(s: Storage, md: AzurePublishingMetadata, env: Env, env2: Env)
    requires BlobAt(s, md.container, md.ObjectName()).None? && TagHit(s, md).None?
    requires TaggedIn(s, md.container, md.tags).None? && IsUrl(md.base.imagePath)
    requires PollCopy(env.probes).out.Fail?
    ensures var r := Publish(s, md, env);
      var again := Publish(r.storage, md, env2);
      && r.out.Fail?
      && again.out == Ok(BlobProperties(md.container, md.ObjectName(), CopiedBlob(md.ObjectName(), md.base.imagePath)))
      && again.storage == r.storage
      && Writes(again.trace) == []
  {
    PublishCopies(s, md, env);
    PublishFoundByName(Publish(s, md, env).storage, md, env2);
  }

  // The tags the published blob carries.

  /** A copy carries no tags, so it answers no non-empty tag query. */
  lemma CopyCarriesNoTags(name: string, url: string, tags: Dict)
    requires |tags| > 0
    ensures !Carries(CopiedBlob(name, url), tags)
  {
    assert Get([], tags[0].0).None?;
  }

  /** A blob that does not carry the tags, added to a container holding none
      that does, leaves the container's tag query empty. */
  lemma AddedBlobUntagged(s: Storage, c: string, b: Blob, tags: Dict)
    requires c in s.containers && TaggedIn(s, c, tags).None? && !Carries(b, tags)
    ensures TaggedIn(AddBlob(s, c, b), c, tags).None?
  {
    var bs := BlobsOf(AddBlob(s, c, b), c);
    assert bs == s.containers[c] + [b];
    forall j | 0 <= j < |bs|
      ensures !Carries(bs[j], tags)
    {
      if j < |s.containers[c]| {
        assert bs[j] == BlobsOf(s, c)[j];
      }
    }
  }

  /** A published local image carries the publishing tags, so the
      destination container's tag query finds it. */
  lemma PublishedFileTagged(s: Storage, md: AzurePublishingMetadata, env: Env)
    requires BlobAt(s, md.container, md.ObjectName()).None? && TagHit(s, md).None?
    requires TaggedIn(s, md.container, md.tags).None? && !IsUrl(md.base.imagePath)
    ensures TaggedIn(Publish(s, md, env).storage, md.container, md.tags).Some?
  {
    var c := md.container;
    if c !in s.containers {
      PreparedNew(s, c, md.ObjectName(), md.tags);
    }
    PublishUploadsFile(s, md, env);
    var path := md.base.imagePath;
    var decompress := EndsWith(path, ".xz");
    var b := UploadedBlob(md.ObjectName(), md.tags, env.fileLength(path, decompress), decompress);
    CarriesOwnTags(b);
    AddedBlobTagged(Prepared(s, c), c, b, md.tags);
  }

  /** A published copy carries no tags, so the same query in the same
      container still finds nothing: a later publish of the same tags under
      another object name does not find the copy by its tags. */
  lemma PublishedCopyUntagged(s: Storage, md: AzurePublishingMetadata, env: Env)
    requires BlobAt(s, md.container, md.ObjectName()).None? && TagHit(s, md).None?
    requires TaggedIn(s, md.container, md.tags).None? && IsUrl(md.base.imagePath)
    requires |md.tags| > 0
    ensures TaggedIn(Publish(s, md, env).storage, md.container, md.tags).None?
  {
    var c := md.container;
    if c !in s.containers {
      PreparedNew(s, c, md.ObjectName(), md.tags);
    }
    PublishCopies(s, md, env);
    CopyCarriesNoTags(md.ObjectName(), md.base.imagePath, md.tags);
    AddedBlobUntagged(Prepared(s, c), c, CopiedBlob(md.ObjectName(), md.base.imagePath), md.tags);
  }

  // Tagging and deleting.

  /** After tagging, the destination container's tag query for the new tags
      finds a blob. */
  lemma TagImageFindable(s: Storage, props: BlobProperties, tags: Dict)
    requires BlobAt(s, props.container, props.name).Some?
    ensures AreTagsPresent(TagImage(s, props, tags).storage, props.container, tags).value
  {
    var r := TagImage(s, props, tags);
    var b := BlobAt(r.storage, props.container, props.name).value;
    CarriesOwnTags(b);
    assert b.tags == tags;
    var j :| 0 <= j < |BlobsOf(r.storage, props.container)| && BlobsOf(r.storage, props.container)[j] == b;
  }

  /** Retagging is idempotent. */
  lemma RetagTwice(s: Storage, c: string, name: string, tags: Dict)
    requires c in s.containers
    ensures Retag(Retag(s, c, name, tags), c, name, tags) == Retag(s, c, name, tags)
  {
    var once := Retag(s, c, name, tags);
    var twice := Retag(once, c, name, tags);
    assert twice.containers[c] == once.containers[c];
    assert twice.containers == once.containers;
  }

  /** Tagging twice with the same tags leaves the account as tagging once. */
  lemma TagImageTwice(s: Storage, props: BlobProperties, tags: Dict)
    requires BlobAt(s, props.container, props.name).Some?
    ensures var once := TagImage(s, props, tags).storage;
      TagImage(once, props, tags).out.Ok? && TagImage(once, props, tags).storage == once
  {
    RetagTwice(s, props.container, props.name, tags);
  }

  /** Deleting again finds nothing, answers nothing and writes nothing. */
  lemma DeleteTwice(s: Storage, md: AzureDeleteMetadata)
    ensures var r := Delete(s, md);
      var again := Delete(r.storage, md);
      again.value == (None, None) && again.storage == r.storage && Writes(again.trace) == []
  {
    var r := Delete(s, md);
    assert BlobAt(r.storage, md.container, md.ImageName()).None?;
  }

  /** An image published by upload is deleted by its container and name. */
  lemma PublishThenDelete(s: Storage, md: AzurePublishingMetadata, env: Env, dm: AzureDeleteMetadata)
    requires BlobAt(s, md.container, md.ObjectName()).None? && TagHit(s, md).None?
    requires TaggedIn(s, md.container, md.tags).None? && !IsUrl(md.base.imagePath)
    requires dm.container == md.container && dm.ImageName() == md.ObjectName()
    ensures var r := Publish(s, md, env);
      var d := Delete(r.storage, dm);
      && d.value == (Some(md.ObjectName()), Some(md.container + "/" + md.ObjectName()))
      && BlobAt(d.storage, md.container, md.ObjectName()).None?
  {
    PublishUploadsFile(s, md, env);
  }
}
