# cloudimg in Dafny

A model of the core of `cloudimg`. The library publishes a disk image to
a public cloud, and it does so idempotently. Before creating anything, each
pipeline asks whether the image, or one of the things it is built from,
already exists.

- **Amazon EC2** (`cloudimg/aws.py`): the pipeline goes from an image file,
  to an S3 object, to a snapshot import, to a registered AMI, to launch
  permissions. It also covers the deletion of an AMI and its snapshot.
- **Azure** (`cloudimg/ms_azure.py`): the pipeline goes from an image file
  or URL to a page blob in a storage account. It also covers blob tagging,
  blob deletion, parsing of connection strings and SAS addresses.
- **Common metadata** (`cloudimg/common.py`): the object name and the
  default snapshot name derived from the image path.

Every pipeline is a pure function of an abstract cloud state. It returns
an outcome (a value, or one of the exceptions the source raises, as a
datatype), the state after the call and the ordered trace of provider calls
it made. Provider answers that the code only reads come in as parameters:
- the import-task status of each poll;
- the properties read at each copy-status attempt;
- the ids the provider hands out;
- the HTTP status the image URL answers;
- the length of a local file.

The modules follow the source:

| module | models |
|---|---|
| `Outcomes`, `Strings`, `Dicts`, `Seqs` | the Python built-ins the code relies on: `Option`/`Result`, `str.lower`/`find`/`split`/`rstrip`, insertion-ordered `dict` with `update`, first match |
| `Common` | `PublishingMetadata`, `DeleteMetadata`, `object_name`, `_default_snapshot_name` (`os.path.basename`, `os.path.splitext`) |
| `AwsModel` | the EC2/S3 account, the call trace and its counting predicates, `describe_images`/`describe_snapshots` filtering, HEAD error codes, permission grants |
| `AwsMetadata` | `AWSBootMode`, `AWSPublishingMetadata` |
| `AwsRequests` | the request payloads: filters, launch permissions, tag sets, bucket location, block device mapping, register and import requests |
| `AwsLookup` | the `get_*` lookups |
| `AwsUpload` | `create_container`, `upload_to_container` |
| `AwsPoller` | `wait_for_import_snapshot_task` |
| `AwsProgress` | `UploadProgress` |
| `AwsPublish` | `share_image`, `share_snapshot`, `import_snapshot`, `register_image`, `publish` |
| `AwsDelete` | `deregister_image`, `delete_snapshot`, `delete` |
| `AzureTags` | `_get_tags_filter_expression` and a reader for it |
| `AzureModel` | the storage account, its calls, the Azure metadata classes |
| `AzureAccount` | `_get_values_from_connection_string`, the account URL, `get_blob_sas_uri` |
| `AzureProgress` | `UploadProgress`, `upload_callback` |
| `AzureLookup` | container and blob lookups, tag searches |
| `AzureCopy` | `_get_blob_copy_status` |
| `AzureUpload` | `upload_to_container` |
| `AzurePublish` | `publish`, `tag_image`, `delete` |

## Model

| member | source | states |
|---|---|---|
| Strings.Lower | cloudimg/aws.py:725-748 | lower-casing keeps the length and maps exactly the ASCII capitals to their lower case, so status and scheme comparisons are case-insensitive |
| Strings.SplitJoin | cloudimg/ms_azure.py:54-60 | `split` on a separator undoes `join` with it whenever no part contains the separator |
| Strings.RFind | cloudimg/common.py:55-61 | the last occurrence of a character: it is there, and nothing after it is that character |
| Dicts.Put | cloudimg/aws.py:683 | setting one key makes it read the new value, leaves every other key's value alone, and appends the key only when it was new |
| Dicts.GetUpdate | cloudimg/aws.py:581-586 | after `d.update(e)` a key reads `e`'s value when `e` has it and `d`'s otherwise |
| Dicts.KeysUpdate | cloudimg/aws.py:581-586 | `update` keeps `d`'s key order as a prefix and its keys are exactly those of either dictionary |
| Dicts.RecordsRoundTrip | cloudimg/aws.py:1007-1014 | turning a dictionary into `Key`/`Value` records and back gives the dictionary again |
| Common.Basename | cloudimg/common.py:59-61 | the basename is a '/'-free suffix of the path that starts at its beginning or right after a '/' |
| Common.RStrip | cloudimg/common.py:59-61 | `rstrip` treats its argument as a character set: the result is a prefix whose last character is outside the set, and every character removed is in it |
| Common.ObjectNameOf | cloudimg/common.py:59-61 | the object name is the longest prefix of the basename not ending in '.', 'x' or 'z'; a basename ending in another character is kept whole |
| Common.SplitExt | cloudimg/common.py:55-57 | `splitext`: root and extension concatenate to the input; a non-empty extension is a '.'-led tail with no other '.' or '/', after a root whose last component is not all dots; an empty one means the last component has no extension |
| Common.DefaultSnapshotName | cloudimg/common.py:55-57 | the default snapshot name is a prefix of the object name |
| Common.NewPublishingMetadata | cloudimg/common.py:35-53 | the snapshot name is the given one when it is non-empty and otherwise the object name minus its extension; every other field is stored as given |
| Common.DefaultDeleteMetadata | cloudimg/common.py:77-84 | deletion metadata defaults to no image name, no snapshot id or name, and no skipping of the snapshot |
| Common.ObjectNameEatsNameCharacters | cloudimg/common.py:59-61 | "/images/matrix" gives the object name "matri": the trailing 'x' is stripped although it is not part of a ".xz" suffix |
| Common.ObjectNameDropsXzSuffix | cloudimg/common.py:59-61 | "/images/disk.raw.xz" gives "disk.raw" |
| Common.ObjectNameKeepsRaw | tests/test_aws.py:25-34 | "/somedir/some-image.raw" keeps its full basename as the object name |
| Common.DefaultSnapshotNameExample | tests/test_aws.py:25-34 | "/somedir/some-image.raw" gives the snapshot name "some-image" |
| Common.ExplicitSnapshotNameKept | tests/test_aws.py:36-45 | an explicit non-empty snapshot name is kept |
| Common.SnapshotNameFixedAtConstruction | cloudimg/common.py:40-61 | changing the image path afterwards changes the object name but not the snapshot name, which was computed in the constructor |
| AwsModel.DescribeImagesFirst | cloudimg/aws.py:229-255 | the image a filtered `describe_images` answers is an owned image that passes every filter; none is answered only when every owned image fails some filter |
| AwsModel.DescribeImagesAfterMisses | cloudimg/aws.py:229-255 | when no image passed the filters, a newly added image that passes them is the one found |
| AwsModel.DescribeSnapshotsFirst | cloudimg/aws.py:350-382 | the same for `describe_snapshots`, over the owned snapshots |
| AwsModel.HeadFailure | cloudimg/aws.py:423-431 | a HEAD error means "absent" exactly for code 404; any other numeric code is re-raised, and a non-numeric code fails in `int()` |
| AwsModel.Grant | cloudimg/aws.py:801-845 | granting permissions adds the requested ones to the resource's set, keeps the old ones, adds nothing else and leaves other resources alone |
| AwsModel.GrantIdempotent | cloudimg/aws.py:801-845 | granting the same permissions twice is the same as granting them once |
| AwsMetadata.ByName | cloudimg/aws.py:32-45 | looking a boot mode up by member name answers the member of that name, and a `KeyError` naming the text otherwise |
| AwsMetadata.ByNameInverse | cloudimg/aws.py:32-45 | every boot mode is found again by its member name |
| AwsMetadata.ByNameFailsOnValues | cloudimg/aws.py:32-45 | lookup is by member name, not by value: "legacy-bios" and "uefi-preferred" raise `KeyError` |
| AwsMetadata.NewAwsPublishingMetadata | cloudimg/aws.py:94-113 | an unknown boot mode raises `KeyError`; a missing container fails the assertion; otherwise ENA support defaults to true and SR-IOV to "simple", an explicit boot mode is kept, and an unset one follows `uefi_support` (none → not set, true → hybrid, false → legacy) |
| AwsMetadata.BootModeNotSetIff | cloudimg/aws.py:98-111 | the boot mode ends up unset exactly when none (or "not_set") was asked for and UEFI support is unknown |
| AwsRequests.TagFilters | cloudimg/aws.py:305-326 | one `tag:<key>` filter per tag, valued with the tag's value, in the dictionary's order |
| AwsRequests.TagFiltersMatch | cloudimg/aws.py:305-326 | an image passes all tag filters exactly when it carries every requested tag with the requested value |
| AwsRequests.LaunchPermissions | cloudimg/aws.py:801-823 | one `UserId` entry per account, then one `Group` entry per group, in order |
| AwsRequests.LaunchPermissionsCover | cloudimg/aws.py:801-823 | every requested account and group is in the permission list |
| AwsRequests.LaunchPermissionsRoundTrip | cloudimg/aws.py:801-823 | the accounts and the groups can be read back from the permission list, in order |
| AwsRequests.SnapshotTags | cloudimg/aws.py:641-686 | the imported snapshot is tagged `Name` = its name, each other key from the image tags when they have it and from the snapshot tags otherwise |
| AwsRequests.ImageTags | cloudimg/aws.py:795-798 | the AMI tag set takes a key from the AMI tags when they have it and from the image tags otherwise; it is empty only when both are |
| AwsRequests.LocationConstraint | cloudimg/aws.py:468-476 | a bucket gets no location constraint exactly in us-east-1, and the service region otherwise |
| AwsRequests.RootMapping | cloudimg/aws.py:764-771 | the single root mapping names the root device, the snapshot and the volume type, and deletes on termination |
| AwsRequests.RegisterRequestOf | cloudimg/aws.py:752-794 | the register request carries the image name, the description, architecture, virtualization type and root device name, the root mapping, ENA and SR-IOV support and the billing products; its `BootMode` is present exactly when a boot mode is set, as that mode's value |
| AwsRequests.ImportRequestOf | cloudimg/aws.py:641-675 | the import request is a raw-format import of the bucket/key, described as "cloudimg import of bucket/key", with the import role when one is set |
| AwsLookup.ImageByFilters | cloudimg/aws.py:229-255 | one `describe_images` call that answers the first owned image passing the filters, changing nothing |
| AwsLookup.ImageByName | cloudimg/aws.py:283-303 | a blank name looks nothing up; otherwise the answer is an owned image of that name, and nothing only when no owned image has that name |
| AwsLookup.ImageByTags | cloudimg/aws.py:305-326 | empty tags look nothing up; otherwise the answer is an owned image carrying every tag |
| AwsLookup.ImageById | cloudimg/aws.py:328-348 | like the name lookup, by id |
| AwsLookup.SnapshotByName | cloudimg/aws.py:350-382 | snapshots are looked up by their `Name` tag; the answer carries that tag, and nothing only when no owned snapshot does |
| AwsLookup.SnapshotById | cloudimg/aws.py:384-410 | like the name lookup, by snapshot id |
| AwsLookup.ObjectByName | cloudimg/aws.py:412-431 | one HEAD on the object; it answers the object when it exists, and a failing HEAD is judged by its error code |
| AwsLookup.ContainerByName | cloudimg/aws.py:433-452 | one HEAD on the bucket, judged the same way |
| AwsLookup.ObjectAbsentOnlyOn404 | cloudimg/aws.py:424-429 | a failing HEAD reads as "absent" exactly for 404; every other failure propagates |
| AwsUpload.CreateContainer | cloudimg/aws.py:454-488 | creating a bucket adds it, with a location constraint exactly outside us-east-1 |
| AwsUpload.Dispatch | cloudimg/aws.py:517-549 | the transport is chosen from the path: an "http" prefix (case-insensitive) streams over HTTP, ".xz" decompresses with LZMA, else a plain file upload; HTTP together with ".xz" is refused as not implemented |
| AwsUpload.Route | cloudimg/aws.py:517-527 | an HTTP source whose URL answers a 4xx or 5xx status raises `HTTPError` with that status, before the ".xz" refusal; any other answer leaves the choice to the path |
| AwsUpload.UploadToContainer | cloudimg/aws.py:490-562 | the bucket HEAD comes first and its failure propagates; a missing bucket is created; an HTTP source whose URL answers an error status fails with `HTTPError`; it succeeds exactly when the HEAD and the route do, and then the object is stored with the tags; a failure stores nothing; images, snapshots and permissions are untouched |
| AwsUpload.UploadTraceShape | cloudimg/aws.py:490-562 | the trace starts with the bucket HEAD, followed by the create when the bucket is missing, and contains the upload when it is performed |
| AwsUpload.UploadCounts | cloudimg/aws.py:490-562 | at most one bucket creation, at most one upload, and one object tagging exactly when an upload happens with tags |
| AwsUpload.UploadLocalFile | cloudimg/aws.py:543-549 | a plain local file into an existing bucket is one HEAD and one file upload |
| AwsUpload.UploadXzFile | cloudimg/aws.py:532-542 | a local ".xz" file is streamed through LZMA |
| AwsUpload.UploadHttpIntoNewBucket | cloudimg/aws.py:468-560 | an HTTP source whose URL answers without an error status, into a new bucket outside us-east-1, is: HEAD, create with the region, GET, stream, tag |
| AwsUpload.UploadHttpXzRefused | cloudimg/aws.py:517-527 | an HTTP ".xz" source whose URL answers without an error status fails as not implemented after the GET has been sent, and uploads nothing |
| AwsUpload.UploadHttpErrorRaises | cloudimg/aws.py:512-527 | an HTTP source whose URL answers an error status, ".xz" or not, fails with `HTTPError` right after the GET: the trace is the HEAD, a create when the bucket was missing, and the GET; no object is stored |
| AwsPoller.PollFrom | cloudimg/aws.py:707-750 | polling stops at the first "completed" (answering its snapshot id) or "error" (raising its message, or the status when there is none) answer; after the budget of non-terminal answers it times out |
| AwsPoller.WaitForImportSnapshotTask | cloudimg/aws.py:707-750 | the query loop computes the same outcome and query count as the recursive poller |
| AwsPoller.FirstTerminalDecides | cloudimg/aws.py:725-750 | when answer n is the first terminal one, the poll makes n+1 queries and that answer decides the outcome |
| AwsPoller.NoTerminalTimesOut | cloudimg/aws.py:725-729 | without a terminal answer within the budget, the poll times out after exactly the budget of queries |
| AwsPoller.ZeroAttemptsTimeOut | cloudimg/aws.py:725-729 | a zero budget times out without querying |
| AwsProgress.NewTracker | cloudimg/aws.py:140-159 | a new tracker has seen nothing, has not logged, and is determinate exactly when the size is known |
| AwsProgress.Done | cloudimg/aws.py:168-174 | `done` asks whether every byte was seen, and fails its assertion on an indeterminate tracker |
| AwsProgress.Report | cloudimg/aws.py:176-197 | every call adds its bytes; a determinate tracker logs "seen/size" at completion or when the interval has passed, an indeterminate one logs the total when the interval has passed; a zero size fails on division; the log time moves exactly when a line is written |
| AwsProgress.CompletionAlwaysLogs | cloudimg/aws.py:176-191 | the call that completes a non-empty upload always logs "size/size", and the tracker is then done |
| AwsProgress.FeedSeen | cloudimg/aws.py:176-178 | after any run of calls, `seen` is the sum of the bytes reported |
| AwsProgress.FeedToDone | cloudimg/aws.py:161-178 | calls whose bytes add up to the size leave the tracker done |
| AwsPublish.ShareImageStep | cloudimg/aws.py:801-823 | when accounts and groups are both `None` or empty nothing is called; when one is `None` and the other is not empty it raises `TypeError` without a call; otherwise one call grants launch permission to every account and group; nothing else changes |
| AwsPublish.ShareImageNoneList | cloudimg/aws.py:810-819 | `None` next to a non-empty list raises `TypeError` in either position and calls nothing; `None` next to an empty list or `None` is a no-op |
| AwsPublish.ShareImageIdempotent | cloudimg/aws.py:801-823 | sharing an image twice leaves the account as sharing it once |
| AwsPublish.ShareSnapshotStep | cloudimg/aws.py:825-845 | without accounts (`None` or empty) nothing is called; otherwise one call grants every account permission to create volumes from the snapshot; nothing else changes |
| AwsPublish.ImportSnapshotStep | cloudimg/aws.py:641-686 | the import request comes first; the poll's failure propagates; a completed task without a snapshot id fails with the `ValueError` boto3 raises for `ec2.Snapshot(None)`; on success the snapshot is added, tagged with its name, and the tagging is the last call |
| AwsPublish.ImportSnapshotCalls | cloudimg/aws.py:641-686 | an import makes only import, task-status and snapshot-tagging calls |
| AwsPublish.RegisterImageStep | cloudimg/aws.py:752-799 | registration adds exactly one image, with the name, root mapping, id and AMI tag set, and tags it only when there are tags |
| AwsPublish.RegisterImageCalls | cloudimg/aws.py:752-799 | registration makes only register and image-tagging calls |
| AwsPublish.FindImage | cloudimg/aws.py:588-592 | the image is looked up by name, and by tags only when the name finds nothing; whatever is found is an owned image |
| AwsPublish.ObtainObject | cloudimg/aws.py:601-615 | the object stage yields the object at the container and object name, makes only object-stage calls, and touches no image, snapshot or permission |
| AwsPublish.ObtainObjectCases | cloudimg/aws.py:601-615 | the object HEAD comes first; its failure propagates; an existing object is used as is; a missing one is uploaded |
| AwsPublish.ImportAndShare | cloudimg/aws.py:619-624 | the snapshot is imported from the object with the merged tags and then shared when there are accounts; exactly one snapshot is added, and images and launch permissions are untouched |
| AwsPublish.ImportAndShareCalls | cloudimg/aws.py:619-624 | that stage makes only import calls, plus one snapshot share when there are accounts |
| AwsPublish.ObtainSnapshot | cloudimg/aws.py:594-626 | a snapshot found by name is used as is; otherwise the object stage runs and its failure propagates; otherwise the import-and-share stage runs on the object |
| AwsPublish.ObtainSnapshotCalls | cloudimg/aws.py:594-626 | the snapshot stage makes only snapshot lookups and object-stage and import-stage calls |
| AwsPublish.ObtainImage | cloudimg/aws.py:588-628 | an image that is found is used as is; otherwise the snapshot stage runs, and a snapshot is registered as a new image |
| AwsPublish.ObtainImageCalls | cloudimg/aws.py:588-628 | the image stage makes only lookups and the calls of the stages it runs |
| AwsPublish.PublishImageFound | cloudimg/aws.py:588-635 | when the image exists, publishing only looks up and shares: no upload, import or registration, and nothing but permissions changes; it answers the found id unless `share_image` raises |
| AwsPublish.PublishSnapshotFound | cloudimg/aws.py:594-635 | when only the snapshot exists, publishing registers it without touching S3 or importing |
| AwsPublish.SnapshotStageImports | cloudimg/aws.py:597-624 | without a snapshot, the snapshot stage imports the object, shares the result when asked, and adds exactly the new tagged snapshot |
| AwsPublish.ImageStageRegisters | cloudimg/aws.py:626-635 | when no image is found, a snapshot-stage failure is the outcome; otherwise the snapshot is registered under the provider's new image id, which publish answers unless `share_image` raises |
| AwsPublish.PublishObjectFoundCalls | cloudimg/aws.py:603-624 | when the object already exists, publishing never uploads and never creates a bucket |
| AwsPublish.PublishObjectFoundImports | cloudimg/aws.py:603-628 | in that case the existing object is imported and the import decides the outcome |
| AwsPublish.PublishNothingFoundUploads | cloudimg/aws.py:603-615 | when nothing exists, the image file is uploaded with the transport its path selects, and an upload failure leaves images and snapshots untouched |
| AwsPublish.PublishNothingFoundImports | cloudimg/aws.py:603-628 | after a successful upload, the uploaded object is imported and the import decides the outcome |
| AwsPublish.PublishNewSnapshot | cloudimg/aws.py:619-628 | a successful import leaves exactly one new snapshot, tagged with its name and the merged tags |
| AwsPublish.PublishSharesOnce | cloudimg/aws.py:633-635 | a successful publish shares the image exactly once when there are accounts or groups, and never otherwise |
| AwsPublish.PublishFailsWhenShareRaises | cloudimg/aws.py:630-635 | with one of accounts and groups `None` and the other non-empty, publish never succeeds: once the image is obtained it fails with `TypeError` |
| AwsPublish.PublishSharesLast | cloudimg/aws.py:633-635 | when a successful publish has accounts or groups, both lists were given and the share of every account and then every group is the last call |
| AwsPublish.PublishGrantsLaunch | cloudimg/aws.py:633-635 | after a successful publish with accounts or groups, both lists were given and every requested account and group may launch the image |
| AwsPublish.RepublishFindsFound | cloudimg/aws.py:588-592 | publishing an image that exists leaves it findable under the same id |
| AwsPublish.PublishAddsOneImage | cloudimg/aws.py:752-799 | a publish that creates an image adds exactly one, named as requested and tagged with the image tags merged with the AMI tags |
| AwsPublish.RepublishFindsRegistered | cloudimg/aws.py:588-628 | the image a publish registers is found by the next lookup by name |
| AwsPublish.PublishIdempotent | cloudimg/aws.py:565-639 | publishing again after a success answers the same image, changes nothing, and makes only lookup and share calls |
| AwsPublish.AmiTagsAsWritten | cloudimg/aws.py:795-798 | the AMI tags the source computes, with its shared dictionaries: when the snapshot tags are empty and image tags are set, `Name` carries the snapshot name unless the AMI tags set it |
| AwsPublish.NameLeaksIntoAmiTags | cloudimg/aws.py:683 | under those conditions the AMI is tagged `Name` = snapshot name, although neither the image tags nor the AMI tags contain `Name` |
| AwsDelete.MappedSnapshotId | cloudimg/aws.py:973-983 | an image maps a snapshot exactly when its first block device mapping has an EBS part with a non-empty snapshot id |
| AwsDelete.FindImageToDelete | cloudimg/aws.py:968-971 | the image is looked up by id, and by name only when the id finds nothing |
| AwsDelete.FindSnapshotToDelete | cloudimg/aws.py:973-996 | with an image, only its mapped snapshot is looked up (by id); without one, the requested id and then the requested name |
| AwsDelete.Deregister | cloudimg/aws.py:911-929 | deregistering removes every image with that id and keeps all others |
| AwsDelete.DeleteSnapshotStep | cloudimg/aws.py:931-948 | deleting removes every snapshot with that id and keeps all others |
| AwsDelete.Delete | cloudimg/aws.py:951-1005 | the answer names the image found and the snapshot found, the latter only when the snapshot is not skipped |
| AwsDelete.DeleteImageEffect | cloudimg/aws.py:998-1003 | the named image is gone and every other image stays; with no image found, the images are unchanged |
| AwsDelete.DeleteSnapshotEffect | cloudimg/aws.py:998-1003 | the same for the snapshot |
| AwsDelete.DeletedImageNotFound | cloudimg/aws.py:998-1003 | after the deletion, a lookup by the deleted image's id finds nothing |
| AwsDelete.DeletedSnapshotNotFound | cloudimg/aws.py:998-1003 | after the deletion, a lookup by the deleted snapshot's id finds nothing |
| AwsDelete.SkipKeepsSnapshots | cloudimg/aws.py:998-1003 | skipping the snapshot leaves every snapshot in place |
| AwsDelete.ImageWithoutMappingKeepsSnapshots | cloudimg/aws.py:973-996 | a found image that maps no snapshot deletes no snapshot, even when a snapshot id or name was given |
| AwsDelete.DeleteTrace | cloudimg/aws.py:951-1005 | the calls are the lookups, then the deregistration, then the snapshot deletion, each only when its target was found |
| AwsDelete.DeleteCalls | cloudimg/aws.py:998-1003 | at most one deregistration and one snapshot deletion, each exactly when reported |
| AwsDelete.DeregisterBeforeDelete | cloudimg/aws.py:998-1003 | when both are deleted, the image is deregistered before the snapshot is deleted, as the last two calls |
| AzureTags.FilterExpression | cloudimg/ms_azure.py:77-95 | the expression is empty exactly for no tags, and otherwise starts with the first tag's `"key"='value'` clause |
| AzureTags.FilterRoundTrip | cloudimg/ms_azure.py:77-95 | reading the expression back gives the tags, in order, whenever no key holds '"' and no value holds a quote |
| AzureTags.SingleTagExpression | tests/test_azure.py:370-376 | one tag `tag`=`tag` gives `"tag"='tag'` |
| AzureModel.BlobAt | cloudimg/ms_azure.py:275-290 | the blob of a name is in its container, and there is none exactly when no blob of the container has that name |
| AzureModel.TaggedIn | cloudimg/ms_azure.py:316-338 | the blob a tag query lists carries every tag; there is none exactly when no blob of the container carries them all |
| AzureModel.AddBlob | cloudimg/ms_azure.py:496-513 | a new blob is appended to its container; other containers and the listing stay |
| AzureModel.RemoveBlob | cloudimg/ms_azure.py:658-661 | deleting removes every blob of that name from its container and keeps all others |
| AzureModel.Retag | cloudimg/ms_azure.py:634 | re-tagging replaces the tags of the blobs of that name and changes nothing else |
| AzureModel.NewAzurePublishingMetadata | cloudimg/ms_azure.py:124-134 | the metadata is built exactly when a container and at least one tag are given, and the error names the first that is missing |
| AzureModel.NewAzureDeleteMetadata | cloudimg/ms_azure.py:137-148 | the image name defaults to the image id when none is given |
| AzureModel.DeleteImageNameAsWritten | cloudimg/ms_azure.py:140-146 | as written, the default reads `image_id` from the keyword arguments, so an id passed positionally leaves the name unset |
| AzureModel.PositionalIdLeavesNameUnset | cloudimg/ms_azure.py:140-146 | with the id passed positionally and no name, the as-written name is unset while the intended one is the id |
| AzureAccount.Assignment | cloudimg/ms_azure.py:54-60 | a piece is an assignment exactly when it holds '=', split at the first one |
| AzureAccount.PairsLast | cloudimg/ms_azure.py:54-60 | a key's value comes from the last piece that assigns it |
| AzureAccount.PairsAbsent | cloudimg/ms_azure.py:54-60 | a key no piece assigns is absent |
| AzureAccount.CheckKeys | cloudimg/ms_azure.py:63-72 | the mandatory keys are checked in order, and the first one missing or empty names the error |
| AzureAccount.ParseConnectionString | cloudimg/ms_azure.py:41-74 | parsing succeeds exactly when `AccountName` and `AccountKey` are both present and non-empty; otherwise it answers the matching error, and "no keyword elements" when nothing was assigned |
| AzureAccount.ConnectionStringRoundTrip | cloudimg/ms_azure.py:41-74 | a connection string written from a dictionary with both mandatory keys parses back to that dictionary |
| AzureAccount.NoAssignmentRefused | cloudimg/ms_azure.py:63-66 | a string without '=' is refused |
| AzureAccount.AccountUrl | cloudimg/ms_azure.py:240-245 | the account URL is an https address |
| AzureAccount.SasUri | cloudimg/ms_azure.py:601-609 | the SAS address lies under the account URL |
| AzureAccount.SasUriSlashes | cloudimg/ms_azure.py:601-609 | its path reads back as the account host, the container and the blob name with the token |
| AzureAccount.SasUriQuery | cloudimg/ms_azure.py:601-609 | the query after the blob name is exactly the token |
| AzureAccount.SasUriExample | tests/test_azure.py:665-680 | account "foo", container "foo", blob "bar" and token "Foo=Bar" give "https://foo.blob.core.windows.net/foo/bar?Foo=Bar" |
| AzureProgress.Percentage | cloudimg/ms_azure.py:117-121 | an unknown total shows 0; otherwise progress within the total shows between 0 and 100, and 100 at completion |
| AzureProgress.Reset | cloudimg/ms_azure.py:427-428 | before an upload the progress is zero and the last log time is the record's creation time |
| AzureProgress.Callback | cloudimg/ms_azure.py:340-364 | a report that moves the progress forward replaces the record; it logs exactly when the interval has passed, and then moves the log time to the record's time |
| AzureProgress.ReplayKeepsFurthest | cloudimg/ms_azure.py:340-364 | after any run of reports, the recorded progress is the furthest reported (or the start) and is one of the reported values |
| AzureProgress.QuarterReport | tests/test_azure.py:381-397 | a report of 1024 of 4096 bytes is recorded and shows 25 percent |
| AzureLookup.GetContainer | cloudimg/ms_azure.py:253-273 | the container is answered when it exists; a missing one is created (empty, and listed) only on request; otherwise nothing |
| AzureLookup.GetObject | cloudimg/ms_azure.py:275-290 | the blob is answered exactly when its container holds a blob of that name; the lookup never writes |
| AzureLookup.AreTagsPresent | cloudimg/ms_azure.py:316-338 | true exactly when some blob of the container carries every tag |
| AzureLookup.FilterObjectByTags | cloudimg/ms_azure.py:292-314 | the search lists the containers first and writes nothing |
| AzureLookup.FilterObjectByTagsFinds | cloudimg/ms_azure.py:292-314 | the search answers the first tagged blob of the first listed container holding one, and nothing exactly when no listed container does |
| AzureLookup.FilterHitExists | cloudimg/ms_azure.py:292-314 | the blob the search answers is found by the lookup by name |
| AzureCopy.Recorded | cloudimg/ms_azure.py:391-393 | an attempt that reads properties records them |
| AzureCopy.RecordedNone | cloudimg/ms_azure.py:386-398 | nothing is recorded exactly while every attempt so far has raised |
| AzureCopy.PollFromStops | cloudimg/ms_azure.py:366-404 | the poll stops at the first attempt that ends it and reports how it ends; it succeeds exactly when the copy reads "success" there |
| AzureCopy.Attempt | cloudimg/ms_azure.py:386-400 | one attempt records the right properties and ends the poll exactly when the recursive definition does |
| AzureCopy.GetBlobCopyStatus | cloudimg/ms_azure.py:366-404 | the retry loop computes the same outcome and attempt count as the recursive poller, waiting once between consecutive attempts |
| AzureCopy.FirstEndDecides | cloudimg/ms_azure.py:366-404 | when attempt n is the first to end the poll, the poll makes n+1 attempts and n decides the outcome |
| AzureCopy.NeverSuccessExhausts | cloudimg/ms_azure.py:386-390 | a copy that stays pending is given up after all 60 attempts, with 59 waits of 10 seconds |
| AzureCopy.SuccessOnThird | cloudimg/ms_azure.py:366-404 | two pending answers and then "success" end the poll successfully after three attempts |
| AzureCopy.StatusIsCaseSensitive | cloudimg/ms_azure.py:382-388 | "Success" is not a success: the status comparison is exact |
| AzureCopy.FirstRaiseIsUnbound | cloudimg/ms_azure.py:386-398 | a copy whose first query raises fails without reading anything |
| AzureUpload.NoColonIsLocal | cloudimg/ms_azure.py:485-489 | a path without ':' has no scheme and is uploaded as a local file |
| AzureUpload.UrlOfParts | cloudimg/ms_azure.py:485-489 | a valid scheme followed by "//" and a non-empty host is a URL |
| AzureUpload.EmptyHostIsLocal | cloudimg/ms_azure.py:485-489 | a URL with an empty host is treated as a local path |
| AzureUpload.HttpsIsUrl | cloudimg/ms_azure.py:485-489 | an https address with a host is a URL |
| AzureUpload.FileUrlIsLocal | cloudimg/ms_azure.py:485-489 | a host-less "file:///..." path is not a URL |
| AzureUpload.PreparedNew | cloudimg/ms_azure.py:438-441 | a container created for the upload is empty: no tagged blob and no blob of the name |
| AzureUpload.ChecksWrites | cloudimg/ms_azure.py:438-474 | the checks before the transfer write nothing but the container creation |
| AzureUpload.UploadDecides | cloudimg/ms_azure.py:438-470 | when the prepared container already holds a blob with the tags, the upload reuses the tag search's hit; otherwise it goes on to the name check and the transfer |
| AzureUpload.ReuseAnswersHit | cloudimg/ms_azure.py:466-470 | the reuse answers the tag search's hit, and fails on `None` when the search finds nothing |
| AzureUpload.UploadReusesTagged | cloudimg/ms_azure.py:454-470 | a container already holding a tagged blob makes the upload write nothing; the hit is answered, and is always found when the container is listed |
| AzureUpload.UploadReusesNamed | cloudimg/ms_azure.py:473-483 | an existing blob of the name is answered without writing |
| AzureUpload.TransferCopies | cloudimg/ms_azure.py:489-494 | a URL is copied server-side into an untagged blob, and the copy poll decides the outcome |
| AzureUpload.TransferWritesFile | cloudimg/ms_azure.py:496-513 | a local file is uploaded with its tags, decompressed when it ends in ".xz" |
| AzureUpload.UploadCopies | cloudimg/ms_azure.py:406-494 | from the start: when nothing matches, a URL becomes a copied blob, with a container creation first when needed |
| AzureUpload.UploadWritesFile | cloudimg/ms_azure.py:406-513 | from the start: when nothing matches, a local file becomes a tagged page blob, with a container creation first when needed |
| AzurePublish.Properties | cloudimg/ms_azure.py:571-572 | reading properties succeeds exactly for an existing blob |
| AzurePublish.TagImage | cloudimg/ms_azure.py:612-634 | tagging succeeds exactly for an existing blob and replaces its tags; a missing blob raises `BlobNotFoundError` naming it and changes nothing |
| AzurePublish.Delete | cloudimg/ms_azure.py:636-664 | a missing blob answers (None, None) and changes nothing; otherwise it answers the name and "container/name", and the blob is gone afterwards |
| AzurePublish.LocateByName | cloudimg/ms_azure.py:536-541 | a blob under the object name is answered at once, without a tag search or any write |
| AzurePublish.LocateByTags | cloudimg/ms_azure.py:545-566 | otherwise a tag search hit is answered without any write |
| AzurePublish.LocateUploads | cloudimg/ms_azure.py:547-554 | otherwise the image is uploaded |
| AzurePublish.FinishAnswers | cloudimg/ms_azure.py:571-572 | the properties of the located blob are answered; a failure propagates, and nothing located fails on `None` |
| AzurePublish.PublishFoundByName | cloudimg/ms_azure.py:515-572 | an image already in place is answered without any write |
| AzurePublish.PublishFoundByTags | cloudimg/ms_azure.py:515-572 | an image found by its tags elsewhere is answered without any write |
| AzurePublish.PublishUploadsFile | cloudimg/ms_azure.py:515-572 | a new local image is uploaded as a tagged blob under the object name |
| AzurePublish.PublishCopies | cloudimg/ms_azure.py:515-572 | a new URL image is copied under the object name, and the copy poll decides the outcome |
| AzurePublish.PublishUnlistedTagged | cloudimg/ms_azure.py:454-470 | a tagged blob in a container that the listing leaves out makes the publish fail on `None` without writing |
| AzurePublish.PublishIdempotent | cloudimg/ms_azure.py:515-572 | publishing again after a success answers the same properties and writes nothing |
| AzurePublish.RepublishAfterFailedCopy | cloudimg/ms_azure.py:485-494 | after a copy whose poll failed, the next publish answers the copied blob without writing |
| AzurePublish.PublishedFileTagged | cloudimg/ms_azure.py:496-513 | an uploaded file is found by its tags afterwards |
| AzurePublish.PublishedCopyUntagged | cloudimg/ms_azure.py:489-494 | a copied URL carries no tags, so the tag query does not find it |
| AzurePublish.TagImageFindable | cloudimg/ms_azure.py:612-634 | a tagged blob is found by those tags |
| AzurePublish.TagImageTwice | cloudimg/ms_azure.py:612-634 | tagging twice with the same tags is the same as once |
| AzurePublish.DeleteTwice | cloudimg/ms_azure.py:636-664 | a second deletion finds nothing, answers (None, None) and writes nothing |
| AzurePublish.PublishThenDelete | cloudimg/ms_azure.py:636-664 | a freshly uploaded image is removed by a deletion of its name |

## Left out

- Logging, log text and `log_request_id` (logging only).
- Sleeps, the bucket-propagation delay and `wait_until_exists`: they do not change any outcome the model states.
- The Azure upload-progress lock and the SDK's threads: the model is sequential.
- SDK and boto3 internals, client construction and `from_connection_string`/`from_storage_account` beyond the account URL.
- Exceptions are values of an `Error` datatype, not control flow.
- Provider errors of every call other than the S3 HEAD requests, the HTTP status of the GET of an image URL and the Azure copy-status probes: these calls are assumed to succeed. On AWS that is `describe_images`, `describe_snapshots`, `create_bucket`, `upload_file`/`upload_fileobj`, `import_snapshot`, `describe_import_snapshot_tasks`, `register_image`, `create_tags`, `modify_attribute`, `deregister` and `delete`. On Azure it is `create_container`, `exists`, `find_blobs_by_tags`, `upload_blob`, `start_copy_from_url`, `set_blob_tags` and `delete_blob`. The source lets each such error propagate unchanged. So every statement about a successful publish, tagging or deletion holds only on the path where these calls succeed.
- Connection errors and the 30-second timeout of the GET of an image URL (`requests.get(..., timeout=30)`): they are assumed not to happen; only the status the URL answers is modelled.
- Float formatting and rounding: percentages are exact reals.
- `copy_ami` and `get_image_from_ami_catalog`: they are not part of the publish or delete pipelines modelled here.
- Configuration and environment-variable constants other than those the modelled code reads (the 480 polls, the 60 attempts, the 600 seconds, the 10-second wait, the 15-second log interval).
- SAS token generation: the token is a parameter.
- `urlparse`'s handling of whitespace, control characters and IPv6 brackets, and the forms Python's `int()` accepts.
- The `max_concurrency` and `raw_response_hook` arguments and the chunk sizes: they do not change what is stored.
- Reading a local file: its length is a parameter of the environment, and its LZMA content is not modelled.
- Strings.Lower: lower-cases ASCII letters only, where Python lower-cases all of Unicode; every comparison in the source is against ASCII text.
- AzureUpload.Upload: its own contract states only that the container exists afterwards; the lemmas listed in the model table state the upload's behaviour case by case.
- AzureLookup.FilterObjectByTags: its own contract states only the call shape; FilterObjectByTagsFinds states the answer.

## Findings

| source | as written | input that shows it | evidently intended | confidence | as-written member | corrected member |
|---|---|---|---|---|---|---|
| cloudimg/aws.py:683 | `add_tags("tags", ...)` places the metadata's own `tags` dictionary in the keyword arguments; when `snapshot_tags` is empty, `import_snapshot` adds `Name` = snapshot name to that same dictionary, and `register_image` then tags the AMI with it | image tags `{"k": "v"}`, no snapshot tags, no AMI tags, no existing image or snapshot: the AMI is tagged `Name` = snapshot name | the AMI carries the image tags merged with the AMI tags, and `Name` only when one of them sets it | not executed | AwsPublish.NameLeaksIntoAmiTags | AwsPublish.PublishAddsOneImage |
| cloudimg/ms_azure.py:140-146 | the default image name reads `image_id` from the keyword arguments, so an id passed positionally leaves `image_name` as `None` | `AzureDeleteMetadata("container", "img-id")`: `image_name` is `None`, so `delete` raises `ValueError` from `get_blob_client(blob=None)` when the container exists, and answers `(None, None)` when it does not; the blob `img-id` is never deleted | the image name defaults to the image id however it is passed | not executed | AzureModel.PositionalIdLeavesNameUnset | AzureModel.NewAzureDeleteMetadata |
