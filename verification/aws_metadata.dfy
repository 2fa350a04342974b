/** `AWSBootMode` and `AWSPublishingMetadata` of `cloudimg/aws.py`: the
    AWS-specific publishing options and how the boot mode is settled when
    the metadata is built. */
module AwsMetadata {
  import opened Outcomes
  import opened Dicts
  import opened Common
  import opened AwsModel

  /** The members of `AWSBootMode`. */
  datatype BootMode = Uefi | Legacy | Hybrid | NotSet

  /** The member's name, as `AWSBootMode[name]` looks it up. */
  function Name(m: BootMode): string {
    match m
    case Uefi => "uefi"
    case Legacy => "legacy"
    case Hybrid => "hybrid"
    case NotSet => "not_set"
  }

  /** The member's value, the text sent as `BootMode`; `not_set` has none. */
  function Value(m: BootMode): (v: Option<string>)
    ensures v.None? <==> m == NotSet
  {
    match m
    case Uefi => Some("uefi")
    case Legacy => Some("legacy-bios")
    case Hybrid => Some("uefi-preferred")
    case NotSet => None
  }

  /** `AWSBootMode[name]`: lookup by member NAME; anything else, including a
      member's value such as "legacy-bios", raises `KeyError`. */
  function ByName(name: string): (r: Result<BootMode, Error>)
    ensures r.Ok? ==> Name(r.value) == name
    ensures r.Fail? ==> r.error == KeyError(name)
  {
    if name == "uefi" then Ok(Uefi)
    else if name == "legacy" then Ok(Legacy)
    else if name == "hybrid" then Ok(Hybrid)
    else if name == "not_set" then Ok(NotSet)
    else Fail(KeyError(name))
  }

  /** Every member is found by its name; so the lookup fails exactly on the
      strings that are not a member's name. */
  lemma ByNameInverse(m: BootMode)
    ensures ByName(Name(m)) == Ok(m)
  {
  }

  lemma ByNameFailsOnValues()
    ensures ByName("legacy-bios") == Fail(KeyError("legacy-bios"))
    ensures ByName("uefi-preferred") == Fail(KeyError("uefi-preferred"))
  {
  }

  /** The keyword arguments `AWSPublishingMetadata` takes on top of the
      common ones, before any default is applied. */
  datatype AwsOptions = AwsOptions(
    enaSupport: Option<bool>,
    sriovNetSupport: Option<Option<string>>,
    billingProducts: Option<seq<string>>,
    bootMode: Option<string>,
    snapshotTags: Dict,
    amiTags: Dict)

  datatype AwsPublishingMetadata = AwsPublishingMetadata(
    base: PublishingMetadata,
    enaSupport: bool,
    sriovNetSupport: Option<string>,
    billingProducts: Option<seq<string>>,
    bootMode: BootMode,
    snapshotTags: Dict,
    amiTags: Dict)

  /** `AWSPublishingMetadata.__init__`. The boot mode name is looked up
      first, so an unknown name fails before the container check. An
      explicit mode other than `not_set` is kept; otherwise `uefi_support`
      picks `hybrid` (true) or `legacy` (false), and without it the mode
      stays `not_set`. */
  function NewAwsPublishingMetadata(imagePath: string, imageName: string, snapshotName: Option<string>,
                                    details: Details, opts: AwsOptions): (r: Result<AwsPublishingMetadata, Error>)
    ensures var name := if Blank(opts.bootMode) then "not_set" else opts.bootMode.value;
      ByName(name).Fail? ==> r == Fail(KeyError(name))
    ensures var name := if Blank(opts.bootMode) then "not_set" else opts.bootMode.value;
      ByName(name).Ok? && Blank(details.container) ==> r == Fail(AssertionError("A container must be defined"))
    ensures r.Ok? ==> !Blank(details.container)
    ensures r.Ok? ==> r.value.base == NewPublishingMetadata(imagePath, imageName, snapshotName, details)
    ensures r.Ok? ==> r.value.enaSupport == (if opts.enaSupport.Some? then opts.enaSupport.value else true)
    ensures r.Ok? ==> r.value.sriovNetSupport == (if opts.sriovNetSupport.Some? then opts.sriovNetSupport.value else Some("simple"))
    ensures r.Ok? && !Blank(opts.bootMode) && opts.bootMode.value != "not_set" ==> Name(r.value.bootMode) == opts.bootMode.value
    ensures r.Ok? && (Blank(opts.bootMode) || opts.bootMode.value == "not_set") ==>
      r.value.bootMode == (if details.uefiSupport.None? then NotSet
                           else if details.uefiSupport.value then Hybrid else Legacy)
  {
    var explicit :- ByName(if Blank(opts.bootMode) then "not_set" else opts.bootMode.value);
    var mode :=
      if explicit == NotSet && details.uefiSupport.Some? then
        (if details.uefiSupport.value then Hybrid else Legacy)
      else explicit;
    if Blank(details.container) then Fail(AssertionError("A container must be defined"))
    else
      Ok(AwsPublishingMetadata(
        NewPublishingMetadata(imagePath, imageName, snapshotName, details),
        if opts.enaSupport.Some? then opts.enaSupport.value else true,
        if opts.sriovNetSupport.Some? then opts.sriovNetSupport.value else Some("simple"),
        opts.billingProducts,
        mode,
        opts.snapshotTags,
        opts.amiTags))
  }

  /** The boot mode settled at construction is `not_set` exactly when no
      mode was named (or `not_set` was) and `uefi_support` was not given. */
  lemma BootModeNotSetIff(imagePath: string, imageName: string, snapshotName: Option<string>,
                          details: Details, opts: AwsOptions)
    requires NewAwsPublishingMetadata(imagePath, imageName, snapshotName, details, opts).Ok?
    ensures var m := NewAwsPublishingMetadata(imagePath, imageName, snapshotName, details, opts).value;
      m.bootMode == NotSet <==>
        (Blank(opts.bootMode) || opts.bootMode.value == "not_set") && details.uefiSupport.None?
  {
  }
}
