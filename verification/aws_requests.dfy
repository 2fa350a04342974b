/** The pure request builders of `cloudimg/aws.py`: describe filters, tag
    records and merges, permission lists, the block device mapping, the
    register and import requests, and the bucket location constraint. */
module AwsRequests {
  import opened Outcomes
  import opened Strings
  import opened Dicts
  import opened Common
  import opened AwsModel
  import opened AwsMetadata

  /** The filter of `get_image_by_name`. */
  function NameFilters(name: string): seq<Filter> {
    [Filter("name", [name])]
  }

  /** The filter of `get_image_by_id`. */
  function ImageIdFilters(id: string): seq<Filter> {
    [Filter("image-id", [id])]
  }

  /** The filter of `get_snapshot_by_name`: snapshots are named by tag. */
  function SnapshotNameFilters(name: string): seq<Filter> {
    [Filter("tag:Name", [name])]
  }

  /** The filter of `get_snapshot_by_id`. */
  function SnapshotIdFilters(id: string): seq<Filter> {
    [Filter("snapshot-id", [id])]
  }

  /** The filters of `get_image_by_tags`: one `tag:<k>` → `[v]` per tag, in
      the dictionary's order. */
  function TagFilters(tags: Dict): (fs: seq<Filter>)
    ensures |fs| == |tags|
    ensures forall i :: 0 <= i < |tags| ==> fs[i] == Filter("tag:" + tags[i].0, [tags[i].1])
  {
    seq(|tags|, i requires 0 <= i < |tags| => Filter("tag:" + tags[i].0, [tags[i].1]))
  }

  /** An image passes every tag filter exactly when it carries every tag of
      the dictionary with the same value. */
  lemma TagFiltersMatch(tags: Dict, img: Image)
    ensures (forall f :: f in TagFilters(tags) ==> ImageMatches(f, img)) <==>
            (forall i :: 0 <= i < |tags| ==> Get(img.tags, tags[i].0) == Some(tags[i].1))
  {
    var fs := TagFilters(tags);
    forall i | 0 <= i < |tags|
      ensures ImageMatches(fs[i], img) <==> Get(img.tags, tags[i].0) == Some(tags[i].1)
    {
      var name := "tag:" + tags[i].0;
      assert StartsWith(name, "tag:");
      assert name[0] == 't' && name != "name" && name != "image-id";
      assert name[4..] == tags[i].0;
    }
    if forall f :: f in fs ==> ImageMatches(f, img) {
      forall i | 0 <= i < |tags| ensures Get(img.tags, tags[i].0) == Some(tags[i].1) {
        assert fs[i] in fs;
      }
    }
  }

  /** The `Add` list of `share_image`: every account, then every group. */
  function LaunchPermissions(accounts: seq<string>, groups: seq<string>): (ps: seq<Permission>)
    ensures |ps| == |accounts| + |groups|
    ensures forall i :: 0 <= i < |accounts| ==> ps[i] == UserId(accounts[i])
    ensures forall j :: 0 <= j < |groups| ==> ps[|accounts| + j] == Group(groups[j])
  {
    seq(|accounts|, i requires 0 <= i < |accounts| => UserId(accounts[i])) +
    seq(|groups|, j requires 0 <= j < |groups| => Group(groups[j]))
  }

  /** Every account and every group is granted. */
  lemma LaunchPermissionsCover(accounts: seq<string>, groups: seq<string>)
    ensures forall a :: a in accounts ==> UserId(a) in LaunchPermissions(accounts, groups)
    ensures forall g :: g in groups ==> Group(g) in LaunchPermissions(accounts, groups)
  {
    var ps := LaunchPermissions(accounts, groups);
    forall a | a in accounts ensures UserId(a) in ps {
      var i :| 0 <= i < |accounts| && accounts[i] == a;
      assert ps[i] == UserId(a);
    }
    forall g | g in groups ensures Group(g) in ps {
      var j :| 0 <= j < |groups| && groups[j] == g;
      assert ps[|accounts| + j] == Group(g);
    }
  }

  /** The accounts and groups can be read back from the list. */
  function AccountsOf(ps: seq<Permission>): seq<string> {
    if |ps| == 0 then []
    else (if ps[0].UserId? then [ps[0].account] else []) + AccountsOf(ps[1..])
  }

  function GroupsOf(ps: seq<Permission>): seq<string> {
    if |ps| == 0 then []
    else (if ps[0].Group? then [ps[0].group] else []) + GroupsOf(ps[1..])
  }

  lemma {:induction false} LaunchPermissionsRoundTrip(accounts: seq<string>, groups: seq<string>)
    ensures AccountsOf(LaunchPermissions(accounts, groups)) == accounts
    ensures GroupsOf(LaunchPermissions(accounts, groups)) == groups
    decreases |accounts| + |groups|
  {
    var ps := LaunchPermissions(accounts, groups);
    if |accounts| > 0 {
      LaunchPermissionsRoundTrip(accounts[1..], groups);
      assert ps[1..] == LaunchPermissions(accounts[1..], groups);
      assert accounts == [accounts[0]] + accounts[1..];
    } else if |groups| > 0 {
      LaunchPermissionsRoundTrip(accounts, groups[1..]);
      assert ps[1..] == LaunchPermissions(accounts, groups[1..]);
      assert groups == [groups[0]] + groups[1..];
    }
  }

  /** The tags `import_snapshot` applies: `snapshot_tags`, overridden by
      `tags`, and finally `Name` set to the snapshot name. The source builds
      this by updating the caller's dictionaries in place; here the merge is
      a fresh value and no input dictionary changes. */
  function SnapshotTags(snapshotTags: Dict, tags: Dict, snapshotName: string): (r: Dict)
    ensures Get(r, "Name") == Some(snapshotName)
    ensures forall k :: k != "Name" ==>
      Get(r, k) == if k in Keys(tags) then Get(tags, k) else Get(snapshotTags, k)
  {
    var merged := Update(snapshotTags, tags);
    forall k | k != "Name"
      ensures Get(Put(merged, "Name", snapshotName), k) ==
              if k in Keys(tags) then Get(tags, k) else Get(snapshotTags, k)
    {
      GetUpdate(snapshotTags, tags, k);
    }
    Put(merged, "Name", snapshotName)
  }

  /** The tags `register_image` applies to the AMI: `tags` overridden by
      `ami_tags`. */
  function ImageTags(tags: Dict, amiTags: Dict): (r: Dict)
    ensures forall k :: Get(r, k) == if k in Keys(amiTags) then Get(amiTags, k) else Get(tags, k)
    ensures |r| == 0 <==> |tags| == 0 && |amiTags| == 0
  {
    forall k ensures Get(Update(tags, amiTags), k) == if k in Keys(amiTags) then Get(amiTags, k) else Get(tags, k) {
      GetUpdate(tags, amiTags, k);
    }
    KeysUpdate(tags, amiTags);
    assert |amiTags| > 0 ==> amiTags[0].0 in Keys(amiTags);
    Update(tags, amiTags)
  }

  /** `create_container`'s `LocationConstraint`: the region, except in
      us-east-1, which rejects one. */
  function LocationConstraint(region: string): (r: Option<string>)
    ensures r.None? <==> region == "us-east-1"
    ensures r.Some? ==> r.value == region
  {
    if region != "us-east-1" then Some(region) else None
  }

  /** The single root mapping `register_image` sends. */
  function RootMapping(md: AwsPublishingMetadata, snapshotId: string): (ms: seq<BlockDevice>)
    ensures |ms| == 1
    ensures ms[0].deviceName == md.base.details.rootDeviceName
    ensures ms[0].ebs == Some(Ebs(Some(snapshotId), md.base.details.volumeType, true))
  {
    [BlockDevice(md.base.details.rootDeviceName, Some(Ebs(Some(snapshotId), md.base.details.volumeType, true)))]
  }

  /** `register_image`'s request; `BootMode` is sent iff the mode is set. */
  function RegisterRequestOf(md: AwsPublishingMetadata, snapshotId: string): (q: RegisterRequest)
    ensures q.name == md.base.imageName
    ensures q.mappings == RootMapping(md, snapshotId)
    ensures q.bootMode.Some? <==> md.bootMode != NotSet
    ensures q.bootMode.Some? ==> q.bootMode == Value(md.bootMode)
    ensures q.description == md.base.details.description && q.architecture == md.base.details.arch
    ensures q.virtualizationType == md.base.details.virtType && q.rootDeviceName == md.base.details.rootDeviceName
    ensures q.enaSupport == md.enaSupport && q.sriovNetSupport == md.sriovNetSupport
    ensures q.billingProducts == md.billingProducts
  {
    var d := md.base.details;
    RegisterRequest(
      md.base.imageName, d.description, d.arch, d.virtType, d.rootDeviceName,
      RootMapping(md, snapshotId), md.enaSupport, md.sriovNetSupport,
      md.billingProducts,
      Value(md.bootMode))
  }

  /** The `import_snapshot` request for the object `bucket/key`. */
  function ImportRequestOf(bucket: string, key: string, importRole: Option<string>): (q: ImportRequest)
    ensures q.description == "cloudimg import of " + bucket + "/" + key
    ensures q.format == "raw" && q.bucket == bucket && q.key == key
    ensures q.roleName == importRole
  {
    ImportRequest("cloudimg import of " + bucket + "/" + key, "raw", bucket, key, importRole)
  }
}
