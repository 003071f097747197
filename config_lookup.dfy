/**
 * `get_container_config`: find `vendors[vendor][container]` in the loaded
 * configuration and project it onto the four fields the handler uses.
 */
module ConfigLookup {
  import opened Wrappers
  import opened YamlValue

  const DestinationKey := "destination-container"
  const MnemonicKey := "folder-mnemonic"
  const SourceKey := "source-container"
  const FilesKey := "files"

  /** The keys of the dictionary the lookup returns: underscores, not hyphens. */
  const ProjectedKeys: set<string> :=
    {"source_container", "destination_container", "folder_mnemonic", "file_configs"}

  /** `config.get("vendors", {})`. */
  function VendorsOf(config: Yaml): Yaml
    requires config.Map?
  {
    GetOr(config.entries, "vendors", Map(map[]))
  }

  /** `config.get("vendors", {}).get(vendor_name)`. */
  function VendorEntry(config: Yaml, vendorName: Option<string>): Yaml
    requires config.Map? && VendorsOf(config).Map?
  {
    DictGet(VendorsOf(config).entries, vendorName)
  }

  /** `vendor_config.get(container_name)`. */
  function ContainerEntry(config: Yaml, vendorName: Option<string>, containerName: Option<string>): Yaml
    requires config.Map? && VendorsOf(config).Map? && VendorEntry(config, vendorName).Map?
  {
    DictGet(VendorEntry(config, vendorName).entries, containerName)
  }

  /**
   * Reading the three required keys of a container entry in source order,
   * then `files` with `{}` as default, and building the result dictionary.
   */
  function ProjectContainer(entry: map<string, Yaml>): (r: Result<map<string, Yaml>, PyError>)
    ensures r.Success? <==> DestinationKey in entry && MnemonicKey in entry && SourceKey in entry
    ensures DestinationKey !in entry ==> r == Failure(KeyError(DestinationKey))
    ensures DestinationKey in entry && MnemonicKey !in entry ==> r == Failure(KeyError(MnemonicKey))
    ensures DestinationKey in entry && MnemonicKey in entry && SourceKey !in entry ==>
              r == Failure(KeyError(SourceKey))
    ensures r.Success? ==>
              && r.value.Keys == ProjectedKeys
              && r.value["source_container"] == entry[SourceKey]
              && r.value["destination_container"] == entry[DestinationKey]
              && r.value["folder_mnemonic"] == entry[MnemonicKey]
              && (FilesKey in entry ==> r.value["file_configs"] == entry[FilesKey])
              && (FilesKey !in entry ==> r.value["file_configs"] == Map(map[]))
  {
    if DestinationKey !in entry then Failure(KeyError(DestinationKey))
    else if MnemonicKey !in entry then Failure(KeyError(MnemonicKey))
    else if SourceKey !in entry then Failure(KeyError(SourceKey))
    else
      Success(map[
        "source_container" := entry[SourceKey],
        "destination_container" := entry[DestinationKey],
        "folder_mnemonic" := entry[MnemonicKey],
        "file_configs" := GetOr(entry, FilesKey, Map(map[]))
      ])
  }

  /**
   * `get_container_config(config, vendor_name, container_name)`.
   * `Success(None)` is the function returning `None`; `Failure` is an
   * exception escaping from it.
   */
  function GetContainerConfig(config: Yaml, vendorName: Option<string>, containerName: Option<string>)
    : (r: Result<Option<map<string, Yaml>>, PyError>)
    // `None` exactly when a level of the lookup is missing or falsy
    ensures r == Success(None) <==>
              && config.Map? && VendorsOf(config).Map?
              && (|| !Truthy(VendorEntry(config, vendorName))
                  || (VendorEntry(config, vendorName).Map?
                      && !Truthy(ContainerEntry(config, vendorName, containerName))))
    // no `vendors` section at all
    ensures config.Map? && "vendors" !in config.entries ==> r == Success(None)
    // a missing vendor or container parameter never finds anything
    ensures config.Map? && VendorsOf(config).Map? && vendorName.None? ==> r == Success(None)
    ensures (config.Map? && VendorsOf(config).Map? && VendorEntry(config, vendorName).Map? &&
             containerName.None?) ==> r == Success(None)
    // a found entry is projected; a missing required key raises rather than giving `None`
    ensures r.Success? && r.value.Some? ==>
              && config.Map? && VendorsOf(config).Map? && VendorEntry(config, vendorName).Map?
              && ContainerEntry(config, vendorName, containerName).Map?
              && Success(r.value.value) == ProjectContainer(ContainerEntry(config, vendorName, containerName).entries)
    ensures (config.Map? && VendorsOf(config).Map? && VendorEntry(config, vendorName).Map? &&
             Truthy(ContainerEntry(config, vendorName, containerName)) &&
             ContainerEntry(config, vendorName, containerName).Map?) ==>
              var projected := ProjectContainer(ContainerEntry(config, vendorName, containerName).entries);
              (projected.Success? ==> r == Success(Some(projected.value))) &&
              (projected.Failure? ==> r == Failure(projected.error))
    // anything reached that is not a dictionary raises
    ensures (config.Map? && VendorsOf(config).Map? && Truthy(VendorEntry(config, vendorName)) &&
             !VendorEntry(config, vendorName).Map?) ==>
              r == Failure(AttributeError(TypeName(VendorEntry(config, vendorName)), "get"))
    ensures (config.Map? && VendorsOf(config).Map? && VendorEntry(config, vendorName).Map? &&
             Truthy(ContainerEntry(config, vendorName, containerName)) &&
             !ContainerEntry(config, vendorName, containerName).Map?) ==>
              r == Failure(TypeError(TypeName(ContainerEntry(config, vendorName, containerName))))
    ensures !config.Map? ==> r == Failure(AttributeError(TypeName(config), "get"))
    ensures config.Map? && !VendorsOf(config).Map? ==>
              r == Failure(AttributeError(TypeName(VendorsOf(config)), "get"))
  {
    if !config.Map? then Failure(AttributeError(TypeName(config), "get"))
    else
      var vendors := VendorsOf(config);
      if !vendors.Map? then Failure(AttributeError(TypeName(vendors), "get"))
      else
        var vendorConfig := VendorEntry(config, vendorName);
        if !Truthy(vendorConfig) then Success(None)
        else if !vendorConfig.Map? then Failure(AttributeError(TypeName(vendorConfig), "get"))
        else
          var containerConfig := ContainerEntry(config, vendorName, containerName);
          if !Truthy(containerConfig) then Success(None)
          else if !containerConfig.Map? then Failure(TypeError(TypeName(containerConfig)))
          else
            match ProjectContainer(containerConfig.entries)
            case Success(projected) => Success(Some(projected))
            case Failure(e) => Failure(e)
  }
}
