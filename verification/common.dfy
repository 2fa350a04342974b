/** The provider-independent request records of `cloudimg/common.py`: the
    publishing metadata, with the object and snapshot names it derives from
    the image path, and the delete metadata. */
module Common {
  import opened Outcomes
  import opened Strings
  import opened Dicts

  /** `os.path.basename`: the text after the last '/'. */
  function Basename(path: string): (r: string)
    ensures Free(r, '/')
    ensures EndsWith(path, r)
    ensures |r| == |path| || path[|path| - |r| - 1] == '/'
  {
    path[RFind(path, '/') + 1..]
  }

  /** `s.rstrip(chars)`: drops every trailing character that belongs to the
      SET `chars`, however many there are and in whatever order. */
  function RStrip(s: string, chars: set<char>): (r: string)
    ensures |r| <= |s| && r == s[..|r|]
    ensures r == [] || r[|r| - 1] !in chars
    ensures forall k :: |r| <= k < |s| ==> s[k] in chars
  {
    if |s| == 0 || s[|s| - 1] !in chars then s
    else RStrip(s[..|s| - 1], chars)
  }

  /** The characters `rstrip(".xz")` removes: a set, not a suffix. */
  const XzChars: set<char> := {'.', 'x', 'z'}

  /** `PublishingMetadata.object_name`: the basename of the image path with
      every trailing '.', 'x' and 'z' removed. */
  function ObjectNameOf(imagePath: string): (r: string)
    ensures |r| <= |Basename(imagePath)| && r == Basename(imagePath)[..|r|]
    ensures r == [] || r[|r| - 1] !in XzChars
    ensures forall k :: |r| <= k < |Basename(imagePath)| ==> Basename(imagePath)[k] in XzChars
    ensures var b := Basename(imagePath); b != [] && b[|b| - 1] !in XzChars ==> r == b
  {
    RStrip(Basename(imagePath), XzChars)
  }

  /** Every character of `s` is a '.'. */
  predicate AllDots(s: string) {
    forall i :: 0 <= i < |s| ==> s[i] == '.'
  }

  /** `e` is a file extension: a '.' followed by neither a '.' nor a '/'. */
  predicate IsExtension(e: string) {
    |e| > 0 && e[0] == '.' && Free(e[1..], '.') && Free(e, '/')
  }

  /** Every '.' of the final path component of `p` has only dots before it
      within the component, so `p` has no extension. */
  predicate NoExtension(p: string) {
    var sep := RFind(p, '/');
    forall k :: sep < k < |p| && p[k] == '.' ==> AllDots(p[sep + 1..k])
  }

  /** `os.path.splitext` with POSIX rules: the extension starts at the last
      '.' of the final path component, unless only dots precede that '.'
      within the component (".bashrc" and "..." have no extension). */
  function SplitExt(p: string): (r: (string, string))
    ensures r.0 + r.1 == p
    ensures r.1 != [] ==> IsExtension(r.1) && !AllDots(Basename(r.0))
    ensures r.1 == [] ==> NoExtension(p)
  {
    var sep := RFind(p, '/');
    var dot := RFind(p, '.');
    if dot > sep && !AllDots(p[sep + 1..dot]) then
      ExtensionFacts(p, sep, dot);
      (p[..dot], p[dot..])
    else
      NoExtensionFacts(p, sep, dot);
      (p, [])
  }

  lemma ExtensionFacts(p: string, sep: int, dot: int)
    requires sep == RFind(p, '/') && dot == RFind(p, '.')
    requires dot > sep && !AllDots(p[sep + 1..dot])
    ensures p[..dot] + p[dot..] == p
    ensures IsExtension(p[dot..])
    ensures Basename(p[..dot]) == p[sep + 1..dot]
  {
    assert p[..dot] + p[dot..] == p;
    var e := p[dot..];
    assert forall j :: 0 <= j < |e| ==> e[j] == p[dot + j];
    assert Free(e[1..], '.');
    assert Free(e, '/');
    RFindPrefix(p, '/', dot);
    assert p[..dot][sep + 1..] == p[sep + 1..dot];
  }

  lemma NoExtensionFacts(p: string, sep: int, dot: int)
    requires sep == RFind(p, '/') && dot == RFind(p, '.')
    requires !(dot > sep && !AllDots(p[sep + 1..dot]))
    ensures NoExtension(p)
  {
    forall k | sep < k < |p| && p[k] == '.'
      ensures AllDots(p[sep + 1..k])
    {
      assert k <= dot;
      assert p[sep + 1..k] == p[sep + 1..dot][..k - sep - 1];
    }
  }

  /** The last `c` of `s` lies before `n`; so it is also the last `c` of
      `s[..n]`. */
  lemma RFindPrefix(s: string, c: char, n: nat)
    requires RFind(s, c) < n <= |s|
    ensures RFind(s[..n], c) == RFind(s, c)
  {
    RFindUnique(s[..n], c, RFind(s, c));
  }

  /** `_default_snapshot_name`: the object name without its extension. */
  function DefaultSnapshotName(imagePath: string): (r: string)
    ensures |r| <= |ObjectNameOf(imagePath)| && r == ObjectNameOf(imagePath)[..|r|]
  {
    SplitExt(ObjectNameOf(imagePath)).0
  }

  /** Everything a publishing request carries besides the path, the image
      name and the snapshot name. `accounts` and `groups` keep a `None`
      argument apart from the empty list, because `share_image` iterates
      them; `snapshot_account_ids` is only tested for truth, so a `None`
      there is the empty list, and a `None` tag dictionary is the empty one.
      Every list default is a fresh empty list here, not one shared between
      calls. */
  datatype Details = Details(
    description: Option<string>,
    container: Option<string>,
    arch: Option<string>,
    virtType: Option<string>,
    rootDeviceName: Option<string>,
    volumeType: Option<string>,
    uefiSupport: Option<bool>,
    accounts: Option<seq<string>>,
    groups: Option<seq<string>>,
    snapshotAccountIds: seq<string>,
    tags: Dict)

  /** `PublishingMetadata`. The snapshot name is settled when the record is
      built; the object name is recomputed from whatever the image path is
      at the time it is asked for. */
  datatype PublishingMetadata = PublishingMetadata(
    imagePath: string,
    imageName: string,
    snapshotName: string,
    details: Details)
  {
    function ObjectName(): string {
      ObjectNameOf(imagePath)
    }

    /** Assigning `metadata.image_path` after construction. */
    function WithImagePath(path: string): (m: PublishingMetadata)
      ensures m.imagePath == path
      ensures m.snapshotName == snapshotName
      ensures m.imageName == imageName && m.details == details
    {
      this.(imagePath := path)
    }
  }

  /** `PublishingMetadata.__init__`: a missing or empty snapshot name is
      replaced by the default derived from the image path. */
  function NewPublishingMetadata(imagePath: string, imageName: string,
                                 snapshotName: Option<string>, details: Details): (m: PublishingMetadata)
    ensures m.imagePath == imagePath && m.imageName == imageName && m.details == details
    ensures !Blank(snapshotName) ==> m.snapshotName == snapshotName.value
    ensures Blank(snapshotName) ==> m.snapshotName == SplitExt(ObjectNameOf(imagePath)).0
  {
    var name := if Blank(snapshotName) then DefaultSnapshotName(imagePath) else snapshotName.value;
    PublishingMetadata(imagePath, imageName, name, details)
  }

  /** `DeleteMetadata`: the arguments, stored as given. */
  datatype DeleteMetadata = DeleteMetadata(
    imageId: string,
    imageName: Option<string>,
    snapshotId: Option<string>,
    snapshotName: Option<string>,
    skipSnapshot: bool)

  /** `DeleteMetadata(image_id)` with every optional argument left out. */
  function DefaultDeleteMetadata(imageId: string): (m: DeleteMetadata)
    ensures m.imageId == imageId
    ensures m.imageName.None? && m.snapshotId.None? && m.snapshotName.None?
    ensures !m.skipSnapshot
  {
    DeleteMetadata(imageId, None, None, None, false)
  }

  // Properties of the derived names.

  /** The facts `RStrip` promises determine its answer. */
  lemma RStripUnique(s: string, chars: set<char>, n: nat)
    requires n <= |s|
    requires n == 0 || s[n - 1] !in chars
    requires forall k :: n <= k < |s| ==> s[k] in chars
    ensures RStrip(s, chars) == s[..n]
  {
  }

  /** The basename of a path ending in "/name" is "name". */
  lemma BasenameAfterSlash(dir: string, name: string)
    requires Free(name, '/')
    ensures Basename(dir + "/" + name) == name
  {
    var p := dir + "/" + name;
    RFindUnique(p, '/', |dir|);
    assert p[|dir| + 1..] == name;
  }

  /** `rstrip(".xz")` eats a trailing "x" that is part of the name: a file
      called "matrix" becomes "matri". */
  lemma ObjectNameEatsNameCharacters()
    ensures ObjectNameOf("/images/matrix") == "matri"
  {
    var name := "matrix";
    BasenameAfterSlash("/images", name);
    assert "/images/matrix" == "/images" + "/" + name;
    assert name[4] == 'i' && name[5] == 'x';
    RStripUnique(name, XzChars, 5);
    assert name[..5] == "matri";
  }

  /** A ".xz" suffix is dropped. */
  lemma ObjectNameDropsXzSuffix()
    ensures ObjectNameOf("/images/disk.raw.xz") == "disk.raw"
  {
    var name := "disk.raw.xz";
    BasenameAfterSlash("/images", name);
    assert "/images/disk.raw.xz" == "/images" + "/" + name;
    assert name[7] == 'w' && name[8] == '.' && name[9] == 'x' && name[10] == 'z';
    RStripUnique(name, XzChars, 8);
    assert name[..8] == "disk.raw";
  }

  /** A name that does not end in '.', 'x' or 'z' is kept whole. */
  lemma ObjectNameKeepsRaw()
    ensures ObjectNameOf("/somedir/some-image.raw") == "some-image.raw"
  {
    var name := "some-image.raw";
    BasenameAfterSlash("/somedir", name);
    assert "/somedir/some-image.raw" == "/somedir" + "/" + name;
    assert name[13] !in XzChars;
  }

  /** The snapshot name derived for '/somedir/some-image.raw' is
      'some-image'. */
  lemma DefaultSnapshotNameExample()
    ensures DefaultSnapshotName("/somedir/some-image.raw") == "some-image"
  {
    ObjectNameKeepsRaw();
    var o := "some-image.raw";
    RFindUnique(o, '/', -1);
    RFindUnique(o, '.', 10);
    assert !AllDots(o[..10]) by {
      assert o[0] == 's';
    }
    assert o[..10] == "some-image";
  }

  /** Reassigning the image path leaves the snapshot name as it was built,
      while the object name follows the new path. */
  lemma SnapshotNameFixedAtConstruction(imagePath: string, imageName: string,
                                        snapshotName: Option<string>, details: Details, path: string)
    ensures var m := NewPublishingMetadata(imagePath, imageName, snapshotName, details).WithImagePath(path);
      && m.snapshotName == NewPublishingMetadata(imagePath, imageName, snapshotName, details).snapshotName
      && m.ObjectName() == ObjectNameOf(path)
  {
  }

  /** An explicit, non-empty snapshot name survives unchanged, whatever the
      path. */
  lemma ExplicitSnapshotNameKept(imagePath: string, imageName: string, name: string, details: Details)
    requires name != ""
    ensures NewPublishingMetadata(imagePath, imageName, Some(name), details).snapshotName == name
  {
  }
}
