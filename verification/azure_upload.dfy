/** `upload_to_container` of `cloudimg/ms_azure.py`: make sure the container
    exists, reuse a blob that already carries the tags or the name, and
    otherwise copy the image server-side (when its path is a URL) or upload
    the local file as a page blob (decompressing a ".xz" file on the way). */
module AzureUpload {
  import opened Outcomes
  import opened Strings
  import opened Dicts
  import opened Seqs
  import opened AzureTags
  import opened AzureModel
  import opened AzureLookup
  import opened AzureCopy

  // Recognising a URL: a scheme and a network location, as `urlparse` splits
  // them.

  predicate AsciiLetter(c: char) {
    'a' <= c <= 'z' || 'A' <= c <= 'Z'
  }

  /** A character a URL scheme may hold. */
  predicate SchemeChar(c: char) {
    AsciiLetter(c) || '0' <= c <= '9' || c == '+' || c == '-' || c == '.'
  }

  /** Where the scheme ends: the first ':' when what precedes it is a valid
      scheme (starting with a letter), and 0 when the path has no scheme. */
  function SchemeEnd(path: string): (i: nat)
    ensures i > 0 ==> i < |path| && path[i] == ':' && AsciiLetter(path[0])
    ensures i > 0 ==> forall k :: 0 <= k < i ==> SchemeChar(path[k])
  {
    var i := Find(path, ':');
    if 0 < i < |path| && AsciiLetter(path[0]) && forall k :: 0 <= k < i ==> SchemeChar(path[k]) then i
    else 0
  }

  /** The scheme of a path; empty when it has none. */
  function Scheme(path: string): (r: string)
    ensures r == "" || (|r| < |path| && path[|r|] == ':')
  {
    path[..SchemeEnd(path)]
  }

  /** A character that ends the network location. */
  predicate NetlocEnd(c: char) {
    c == '/' || c == '?' || c == '#'
  }

  /** The network location of what follows the scheme: after a leading "//",
      up to the next '/', '?' or '#'. */
  function Netloc(rest: string): (r: string)
    ensures r != "" <==> |rest| > 2 && rest[..2] == "//" && !NetlocEnd(rest[2])
  {
    if |rest| >= 2 && rest[..2] == "//" then
      var tail := rest[2..];
      tail[..FirstIndex(tail, NetlocEnd)]
    else ""
  }

  /** What follows the scheme and its ':' (the whole path when it has no
      scheme). */
  function AfterScheme(path: string): string {
    var s := Scheme(path);
    if s == "" then path else path[|s| + 1..]
  }

  /** The path names a remote image: both its scheme and its network
      location are non-empty. */
  predicate IsUrl(path: string) {
    Scheme(path) != "" && Netloc(AfterScheme(path)) != ""
  }

  /** A path without ':' has no scheme, so it is a local path. */
  lemma NoColonIsLocal(path: string)
    requires Free(path, ':')
    ensures !IsUrl(path)
  {
  }

  /** `scheme://host...` is a URL whenever the scheme is valid and the host
      part does not start with '/', '?' or '#'. */
  lemma UrlOfParts(scheme: string, host: string)
    requires |scheme| > 0 && AsciiLetter(scheme[0])
    requires forall k :: 0 <= k < |scheme| ==> SchemeChar(scheme[k])
    requires |host| > 0 && !NetlocEnd(host[0])
    ensures IsUrl(scheme + "://" + host)
  {
    var path := scheme + "://" + host;
    assert path[|scheme|] == ':';
    assert Find(path, ':') == |scheme| by {
      assert forall j :: 0 <= j < |scheme| ==> path[j] == scheme[j];
    }
    assert Scheme(path) == scheme;
    assert AfterScheme(path) == "//" + host;
  }

  /** `scheme:///...` has an empty host, so it is taken for a local path. */
  lemma EmptyHostIsLocal(scheme: string, rest: string)
    requires |scheme| > 0 && AsciiLetter(scheme[0])
    requires forall k :: 0 <= k < |scheme| ==> SchemeChar(scheme[k])
    ensures !IsUrl(scheme + ":///" + rest)
  {
    var path := scheme + ":///" + rest;
    assert path == scheme + [':'] + ("///" + rest);
    FindAfterPrefix(scheme, ':', "///" + rest);
    assert Scheme(path) == scheme;
    assert AfterScheme(path) == "///" + rest;
  }

  /** An "https" address with a host is a URL, the tests' copy source
      among them. */
  lemma HttpsIsUrl(host: string)
    requires |host| > 0 && !NetlocEnd(host[0])
    ensures IsUrl("https://" + host)
  {
    assert forall k :: 0 <= k < 5 ==> SchemeChar("https"[k]);
    UrlOfParts("https", host);
    assert "https" + "://" + host == "https://" + host;
  }

  /** A "file" URL without a host, such as "file:///var/tmp/image.vhd", is
      not. */
  lemma FileUrlIsLocal(rest: string)
    ensures !IsUrl("file:///" + rest)
  {
    assert forall k :: 0 <= k < 4 ==> SchemeChar("file"[k]);
    EmptyHostIsLocal("file", rest);
    assert "file" + ":///" + rest == "file:///" + rest;
  }

  /** What the model needs from outside the account: the size of the local
      file as read (after decompression when asked), and the answers the
      copy's property queries get. */
  datatype Env = Env(fileLength: (string, bool) -> nat, probes: nat -> Probe)

  /** `n` copies of one call. */
  function Repeat(c: Call, n: nat): (t: seq<Call>)
    ensures |t| == n && forall i :: 0 <= i < n ==> t[i] == c
  {
    seq(n, _ => c)
  }

  /** The account once `upload_to_container` has looked up (and, when
      missing, created) the destination container. */
  function Prepared(s: Storage, container: string): (r: Storage)
    ensures container in r.containers
  {
    GetContainer(s, container, true).storage
  }

  /** The blob a server-side copy creates: the source URL's content under
      the object name, without tags. */
  function CopiedBlob(name: string, url: string): Blob {
    Blob(name, [], CopyOf(url))
  }

  /** The blob a local upload creates: the file's pages, with the tags. */
  function UploadedBlob(name: string, tags: Dict, length: nat, decompress: bool): Blob {
    Blob(name, tags, Pages(length, decompress))
  }

  /** `upload_to_container`. The answer is the blob client (absent only when
      a lookup of a blob that vanished finds nothing). */
  function Upload(s: Storage, path: string, container: string, name: string, tags: Dict, env: Env): (r: Step<Option<BlobRef>>)
    ensures container in r.storage.containers
  {
    var cont := GetContainer(s, container, true);
    var head := cont.trace + [FindBlobsByTags(container, FilterExpression(tags))];
    if AreTagsPresent(cont.storage, container, tags).value then Reuse(cont.storage, tags, head)
    else Place(cont.storage, path, container, name, tags, env, head + [BlobExists(container, name)])
  }

  /** The tags are already in the destination container: answer the blob the
      account-wide tag search finds, after the calls `head`. */
  function Reuse(s: Storage, tags: Dict, head: seq<Call>): (r: Step<Option<BlobRef>>)
    ensures r.storage == s
  {
    var hit := FilterObjectByTags(s, tags);
    if hit.value.None? then Step(Fail(NoneAttribute("container_name")), s, head + hit.trace)
    else
      var got := GetObject(s, hit.value.value.container, hit.value.value.name);
      Step(Ok(got.value), s, head + hit.trace + got.trace)
  }

  /** The tags are not in the container: answer the blob of that name when
      there is one, and otherwise transfer the image, after the calls
      `probe`. */
  function Place(s: Storage, path: string, container: string, name: string, tags: Dict, env: Env, probe: seq<Call>): (r: Step<Option<BlobRef>>)
    requires container in s.containers
    ensures container in r.storage.containers
  {
    if BlobAt(s, container, name).Some? then
      var got := GetObject(s, container, name);
      Step(Ok(got.value), s, probe + got.trace)
    else Transfer(s, path, container, name, tags, env, probe)
  }

  /** The transfer of the image into a new blob: a server-side copy of a
      URL, polled to its end, or an upload of the local file. */
  function Transfer(s: Storage, path: string, container: string, name: string, tags: Dict, env: Env, probe: seq<Call>): (r: Step<Option<BlobRef>>)
    requires container in s.containers
    ensures container in r.storage.containers
  {
    if IsUrl(path) then
      var poll := PollCopy(env.probes);
      var t := probe + [StartCopy(container, name, path)] + Repeat(GetBlobProperties(container, name), poll.attempts);
      var s2 := AddBlob(s, container, CopiedBlob(name, path));
      Step(if poll.out.Ok? then Ok(Some(BlobRef(container, name))) else Fail(poll.out.error), s2, t)
    else
      var decompress := EndsWith(path, ".xz");
      var length := env.fileLength(path, decompress);
      var s2 := AddBlob(s, container, UploadedBlob(name, tags, length, decompress));
      Step(Ok(Some(BlobRef(container, name))), s2, probe + [UploadBlob(container, name, length, decompress, tags)])
  }

  // What each branch of the upload does.

  /** The write the container setup makes: a create when it was missing. */
  function Creates(s: Storage, container: string): seq<Call> {
    if container in s.containers then [] else [CreateContainer(container)]
  }

  /** The setup leaves an existing container's account as it was. */
  lemma PreparedExisting(s: Storage, container: string)
    requires container in s.containers
    ensures Prepared(s, container) == s
  {
  }

  /** A container the setup creates starts empty, so it holds neither a
      tagged nor a named blob. */
  lemma PreparedNew(s: Storage, container: string, name: string, tags: Dict)
    requires container !in s.containers
    ensures BlobsOf(Prepared(s, container), container) == []
    ensures TaggedIn(Prepared(s, container), container, tags).None?
    ensures BlobAt(Prepared(s, container), container, name).None?
  {
  }

  /** A blob added under a name the container does not hold yet is the one
      found by that name. */
  lemma AddedBlobFound(s: Storage, container: string, b: Blob)
    requires container in s.containers && BlobAt(s, container, b.name).None?
    ensures BlobAt(AddBlob(s, container, b), container, b.name) == Some(b)
  {
    FirstAfterMisses(s.containers[container], b, NamedAs(b.name));
  }

  /** A blob carrying the tags, added to a container holding none that does,
      is the one the tag query finds. */
  lemma AddedBlobTagged(s: Storage, container: string, b: Blob, tags: Dict)
    requires container in s.containers && TaggedIn(s, container, tags).None? && Carries(b, tags)
    ensures TaggedIn(AddBlob(s, container, b), container, tags) == Some(b)
  {
    FirstAfterMisses(s.containers[container], b, CarriesAll(tags));
  }

  /** The calls `upload_to_container` makes before it decides to write:
      the container setup, the tag query and the existence check. */
  function Checks(s: Storage, container: string, name: string, tags: Dict): seq<Call> {
    GetContainer(s, container, true).trace + [FindBlobsByTags(container, FilterExpression(tags))]
    + [BlobExists(container, name)]
  }

  /** Those calls write nothing besides a possible create. */
  lemma ChecksWrites(s: Storage, container: string, name: string, tags: Dict)
    ensures Writes(Checks(s, container, name, tags)) == Creates(s, container)
  {
    var t := GetContainer(s, container, true).trace;
    WritesConcat(t, [FindBlobsByTags(container, FilterExpression(tags))]);
    WritesConcat(t + [FindBlobsByTags(container, FilterExpression(tags))], [BlobExists(container, name)]);
    WritesOne(FindBlobsByTags(container, FilterExpression(tags)));
    WritesOne(BlobExists(container, name));
  }

  /** The upload's first decision: reuse when the container's tag query
      lists a blob, otherwise place the image. */
  lemma UploadDecides(s: Storage, path: string, container: string, name: string, tags: Dict, env: Env)
    ensures TaggedIn(Prepared(s, container), container, tags).Some? ==>
      Upload(s, path, container, name, tags, env) ==
      Reuse(Prepared(s, container), tags, GetContainer(s, container, true).trace + [FindBlobsByTags(container, FilterExpression(tags))])
    ensures TaggedIn(Prepared(s, container), container, tags).None? ==>
      Upload(s, path, container, name, tags, env) ==
      Place(Prepared(s, container), path, container, name, tags, env, Checks(s, container, name, tags))
  {
  }

  /** The server-side copy: the URL's untagged blob is added whatever the
      poll reports; the transfer succeeds exactly when the poll does. */
  lemma TransferCopies(s: Storage, path: string, container: string, name: string, tags: Dict, env: Env, probe: seq<Call>)
    requires container in s.containers && BlobAt(s, container, name).None?
    requires IsUrl(path)
    ensures var r := Transfer(s, path, container, name, tags, env, probe);
      && r.storage == AddBlob(s, container, CopiedBlob(name, path))
      && BlobAt(r.storage, container, name) == Some(CopiedBlob(name, path))
      && (r.out.Ok? <==> PollCopy(env.probes).out.Ok?)
      && (r.out.Ok? ==> r.out.value == Some(BlobRef(container, name)))
      && (r.out.Fail? ==> r.out.error == PollCopy(env.probes).out.error)
      && Writes(r.trace) == Writes(probe) + [StartCopy(container, name, path)]
  {
    AddedBlobFound(s, container, CopiedBlob(name, path));
    var polls := Repeat(GetBlobProperties(container, name), PollCopy(env.probes).attempts);
    WritesConcat(probe, [StartCopy(container, name, path)]);
    WritesOne(StartCopy(container, name, path));
    WritesConcat(probe + [StartCopy(container, name, path)], polls);
    WritesNone(polls);
  }

  /** The local upload: the file's pages are added under the name, with the
      tags, decompressed when the path ends in ".xz". */
  lemma TransferWritesFile(s: Storage, path: string, container: string, name: string, tags: Dict, env: Env, probe: seq<Call>)
    requires container in s.containers && BlobAt(s, container, name).None?
    requires !IsUrl(path)
    ensures var decompress := EndsWith(path, ".xz");
      var b := UploadedBlob(name, tags, env.fileLength(path, decompress), decompress);
      var r := Transfer(s, path, container, name, tags, env, probe);
      && r.storage == AddBlob(s, container, b)
      && BlobAt(r.storage, container, name) == Some(b)
      && r.out == Ok(Some(BlobRef(container, name)))
      && Writes(r.trace) == Writes(probe) + [UploadBlob(container, name, b.content.length, decompress, tags)]
  {
    var decompress := EndsWith(path, ".xz");
    var b := UploadedBlob(name, tags, env.fileLength(path, decompress), decompress);
    AddedBlobFound(s, container, b);
    WritesConcat(probe, [UploadBlob(container, name, b.content.length, decompress, tags)]);
    WritesOne(UploadBlob(container, name, b.content.length, decompress, tags));
  }

  /** Reusing a tagged blob writes nothing beyond `head` and answers the
      account-wide search's hit; only an empty search fails. */
  lemma ReuseAnswersHit(s: Storage, tags: Dict, head: seq<Call>)
    ensures var r := Reuse(s, tags, head);
      && Writes(r.trace) == Writes(head)
      && r.out == (if FilterObjectByTags(s, tags).value.None? then Fail(NoneAttribute("container_name"))
                   else Ok(FilterObjectByTags(s, tags).value))
  {
    var hit := FilterObjectByTags(s, tags);
    WritesConcat(head, hit.trace);
    if hit.value.Some? {
      FilterHitExists(s, tags);
      var ref := hit.value.value;
      var got := GetObject(s, ref.container, ref.name);
      assert got.value == Some(ref);
      WritesConcat(head + hit.trace, got.trace);
      assert Reuse(s, tags, head) == Step(Ok(Some(ref)), s, head + hit.trace + got.trace);
    }
  }

  /** A listed container holding a tagged blob makes the tag search hit. */
  lemma ListedTaggedFound(s: Storage, container: string, tags: Dict)
    requires container in s.listing && TaggedIn(s, container, tags).Some?
    ensures FilterObjectByTags(s, tags).value.Some?
  {
    FilterObjectByTagsFinds(s, tags);
    var j :| 0 <= j < |s.listing| && s.listing[j] == container;
    assert Holds(s, tags)(s.listing[j]);
  }

  /** Blob tags already in the destination container: the upload answers the
      tag search's hit and writes nothing. When the container is not among
      the listed ones the search can come back empty, and then the lookup of
      its attributes fails. */
  lemma UploadReusesTagged(s: Storage, path: string, container: string, name: string, tags: Dict, env: Env)
    requires TaggedIn(s, container, tags).Some?
    ensures var r := Upload(s, path, container, name, tags, env);
      && r.storage == s
      && Writes(r.trace) == []
      && r.out == (if FilterObjectByTags(s, tags).value.None? then Fail(NoneAttribute("container_name"))
                   else Ok(FilterObjectByTags(s, tags).value))
      && (container in s.listing ==> r.out.Ok?)
  {
    PreparedExisting(s, container);
    UploadDecides(s, path, container, name, tags, env);
    var head := GetContainer(s, container, true).trace + [FindBlobsByTags(container, FilterExpression(tags))];
    WritesConcat(GetContainer(s, container, true).trace, [FindBlobsByTags(container, FilterExpression(tags))]);
    WritesOne(FindBlobsByTags(container, FilterExpression(tags)));
    ReuseAnswersHit(s, tags, head);
    if container in s.listing {
      ListedTaggedFound(s, container, tags);
    }
  }

  /** A blob of that name already in the container (and no tagged one): the
      upload answers it and writes nothing. */
  lemma UploadReusesNamed(s: Storage, path: string, container: string, name: string, tags: Dict, env: Env)
    requires TaggedIn(s, container, tags).None? && BlobAt(s, container, name).Some?
    ensures var r := Upload(s, path, container, name, tags, env);
      r.storage == s && Writes(r.trace) == [] && r.out == Ok(Some(BlobRef(container, name)))
  {
    PreparedExisting(s, container);
    UploadDecides(s, path, container, name, tags, env);
    ChecksWrites(s, container, name, tags);
    WritesConcat(Checks(s, container, name, tags), GetObject(s, container, name).trace);
  }

  /** Neither a tagged nor a named blob, and a URL: the upload starts a
      server-side copy of the URL, which leaves an untagged blob behind
      whatever the poll reports; the upload succeeds exactly when the poll
      does. */
  lemma UploadCopies(s: Storage, path: string, container: string, name: string, tags: Dict, env: Env)
    requires TaggedIn(s, container, tags).None? && BlobAt(s, container, name).None?
    requires IsUrl(path)
    ensures var r := Upload(s, path, container, name, tags, env);
      && r.storage == AddBlob(Prepared(s, container), container, CopiedBlob(name, path))
      && BlobAt(r.storage, container, name) == Some(CopiedBlob(name, path))
      && (r.out.Ok? <==> PollCopy(env.probes).out.Ok?)
      && (r.out.Ok? ==> r.out.value == Some(BlobRef(container, name)))
      && (r.out.Fail? ==> r.out.error == PollCopy(env.probes).out.error)
      && Writes(r.trace) == Creates(s, container) + [StartCopy(container, name, path)]
  {
    if container in s.containers {
      PreparedExisting(s, container);
    } else {
      PreparedNew(s, container, name, tags);
    }
    UploadDecides(s, path, container, name, tags, env);
    ChecksWrites(s, container, name, tags);
    TransferCopies(Prepared(s, container), path, container, name, tags, env, Checks(s, container, name, tags));
  }

  /** Neither a tagged nor a named blob, and a local path: the upload writes
      the file's pages under the object name with the tags, decompressing a
      ".xz" file, and answers the new blob. */
  lemma UploadWritesFile(s: Storage, path: string, container: string, name: string, tags: Dict, env: Env)
    requires TaggedIn(s, container, tags).None? && BlobAt(s, container, name).None?
    requires !IsUrl(path)
    ensures var decompress := EndsWith(path, ".xz");
      var b := UploadedBlob(name, tags, env.fileLength(path, decompress), decompress);
      var r := Upload(s, path, container, name, tags, env);
      && r.storage == AddBlob(Prepared(s, container), container, b)
      && BlobAt(r.storage, container, name) == Some(b)
      && r.out == Ok(Some(BlobRef(container, name)))
      && Writes(r.trace) == Creates(s, container) + [UploadBlob(container, name, b.content.length, decompress, tags)]
  {
    if container in s.containers {
      PreparedExisting(s, container);
    } else {
      PreparedNew(s, container, name, tags);
    }
    UploadDecides(s, path, container, name, tags, env);
    ChecksWrites(s, container, name, tags);
    TransferWritesFile(Prepared(s, container), path, container, name, tags, env, Checks(s, container, name, tags));
  }
}
