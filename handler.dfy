/**
 * `main`: the HTTP handler. It looks the container up, opens the two storage
 * clients, and walks the configured files, deriving a candidate blob name
 * for each and handing it to the move step. The storage calls are recorded
 * in an effect log instead of being performed.
 *
 * The source's `main` is annotated with `func.HttpRequest` while only
 * `Function` is imported from `azure.functions`, so loading the module
 * raises `NameError`; the model describes the handler as if it loaded.
 */
module Handler {
  import opened Wrappers
  import opened YamlValue
  import opened ConfigLookup
  import opened BlobMove

  const NotFoundBody := "Error: Configuration not found for vendor or container."
  const SuccessBody := "Blobs moved successfully with virtual folder structure."

  const SourceConnectionKey := "source-storage-connection-string"
  const DestinationConnectionKey := "destination-storage-connection-string"
  const FileMnemonicKey := "file-mnemonic"
  const FilePatternKey := "file-pattern"

  /** What the handler returns; an escaped exception becomes a 500 whose text embeds it. */
  datatype Response = Reply(status: int, body: string) | Raised(error: PyError)
  {
    function Status(): int
    {
      if Reply? then status else 500
    }
  }

  /** The keys the loop reads from the container configuration for each move. */
  datatype ConfigKeys = ConfigKeys(source: string, destination: string, mnemonic: string)

  /** The keys the source reads: the hyphenated names of the YAML document. */
  const AsWrittenKeys := ConfigKeys(SourceKey, DestinationKey, MnemonicKey)

  /** The keys the lookup's result actually holds. */
  const IntendedKeys := ConfigKeys("source_container", "destination_container", "folder_mnemonic")

  /**
   * `f"{file_mnemonic}*" if file_pattern else f"{file_mnemonic}.csv"`.
   * Such a name ends in `*` or `v`, never in a digit or a newline, so the
   * date check rejects it.
   */
  function CandidateName(fileMnemonic: string, hasPattern: bool): (name: string)
    ensures |name| > |fileMnemonic| && name[..|fileMnemonic|] == fileMnemonic
    ensures hasPattern <==> name[|name| - 1] == '*'
    ensures hasPattern ==> name == fileMnemonic + "*"
    ensures !hasPattern ==> name[|fileMnemonic|..] == ".csv"
    ensures DateMatch(name) == None
  {
    var name := if hasPattern then fileMnemonic + "*" else fileMnemonic + ".csv";
    assert name[|name| - 1] == if hasPattern then '*' else 'v';
    name
  }

  /**
   * `BlobServiceClient.from_connection_string` on the two connection strings,
   * source first. `connects` says whether the client constructor accepts a value.
   */
  function OpenClients(config: map<string, Yaml>, connects: Yaml -> bool): (failure: Option<PyError>)
    ensures failure.None? <==>
              && SourceConnectionKey in config && DestinationConnectionKey in config
              && connects(config[SourceConnectionKey]) && connects(config[DestinationConnectionKey])
    ensures SourceConnectionKey !in config ==> failure == Some(KeyError(SourceConnectionKey))
    ensures (SourceConnectionKey in config && !connects(config[SourceConnectionKey])) ==>
              failure == Some(ClientError)
    ensures (SourceConnectionKey in config && connects(config[SourceConnectionKey]) &&
             DestinationConnectionKey !in config) ==>
              failure == Some(KeyError(DestinationConnectionKey))
    ensures (SourceConnectionKey in config && connects(config[SourceConnectionKey]) &&
             DestinationConnectionKey in config && !connects(config[DestinationConnectionKey])) ==>
              failure == Some(ClientError)
    ensures failure.Some? ==>
              failure.value in {KeyError(SourceConnectionKey), KeyError(DestinationConnectionKey), ClientError}
  {
    if SourceConnectionKey !in config then Some(KeyError(SourceConnectionKey))
    else if !connects(config[SourceConnectionKey]) then Some(ClientError)
    else if DestinationConnectionKey !in config then Some(KeyError(DestinationConnectionKey))
    else if !connects(config[DestinationConnectionKey]) then Some(ClientError)
    else None
  }

  /** A file entry the loop body can read without raising: a dictionary with a mnemonic. */
  predicate WellFormedEntry(fileConfig: Yaml)
  {
    fileConfig.Map? && FileMnemonicKey in fileConfig.entries
  }

  /**
   * One iteration of the loop over `file_configs`: read the entry, derive
   * the candidate name, read the three container fields named by `keys`
   * (the arguments of the move call, in order) and move. `render` is
   * Python's `str` on a YAML value, used by the f-strings.
   * No iteration ever yields a storage call, because no candidate name
   * passes the date check.
   */
  function ProcessEntry(keys: ConfigKeys, containerConfig: map<string, Yaml>, fileConfig: Yaml,
                        render: Yaml -> string): (r: Result<seq<Effect>, PyError>)
    ensures r.Success? ==> r.value == []
    ensures r.Success? <==>
              && WellFormedEntry(fileConfig)
              && keys.source in containerConfig && keys.destination in containerConfig
              && keys.mnemonic in containerConfig
    ensures !fileConfig.Map? ==> r == Failure(TypeError(TypeName(fileConfig)))
    ensures fileConfig.Map? && FileMnemonicKey !in fileConfig.entries ==> r == Failure(KeyError(FileMnemonicKey))
    ensures WellFormedEntry(fileConfig) && keys.source !in containerConfig ==> r == Failure(KeyError(keys.source))
  {
    if !fileConfig.Map? then Failure(TypeError(TypeName(fileConfig)))
    else if FileMnemonicKey !in fileConfig.entries then Failure(KeyError(FileMnemonicKey))
    else
      var fileMnemonic := fileConfig.entries[FileMnemonicKey];
      var filePattern := GetOr(fileConfig.entries, FilePatternKey, Null);
      var sourceBlobName := CandidateName(render(fileMnemonic), Truthy(filePattern));
      if keys.source !in containerConfig then Failure(KeyError(keys.source))
      else if keys.destination !in containerConfig then Failure(KeyError(keys.destination))
      else if keys.mnemonic !in containerConfig then Failure(KeyError(keys.mnemonic))
      else
        Success(MoveBlob(render(containerConfig[keys.source]), sourceBlobName,
                         render(containerConfig[keys.destination]),
                         render(containerConfig[keys.mnemonic])))
  }

  /** The loop's outcome: 200 when every entry goes through, otherwise the exception of an entry that raised. */
  ghost predicate FilesServedAs(keys: ConfigKeys, containerConfig: map<string, Yaml>,
                                render: Yaml -> string, resp: Response)
    requires "file_configs" in containerConfig
  {
    var files := containerConfig["file_configs"];
    if !files.Map? then resp == Raised(AttributeError(TypeName(files), "items"))
    else
      && (resp.Reply? <==>
            forall k :: k in files.entries ==> ProcessEntry(keys, containerConfig, files.entries[k], render).Success?)
      && (resp.Reply? ==> resp == Reply(200, SuccessBody))
      && (resp.Raised? ==>
            exists k :: k in files.entries &&
              ProcessEntry(keys, containerConfig, files.entries[k], render) == Failure(resp.error))
  }

  /** The response the handler gives, step by step through the try block. */
  ghost predicate ServedAs(keys: ConfigKeys, config: Yaml, vendorName: Option<string>,
                           containerName: Option<string>, connects: Yaml -> bool,
                           render: Yaml -> string, resp: Response)
  {
    match GetContainerConfig(config, vendorName, containerName)
    case Failure(e) => resp == Raised(e)
    case Success(None) => resp == Reply(400, NotFoundBody)
    case Success(Some(containerConfig)) =>
      && config.Map?
      && match OpenClients(config.entries, connects)
         case Some(e) => resp == Raised(e)
         case None => FilesServedAs(keys, containerConfig, render, resp)
  }

  /**
   * The body of `main` after the configuration is loaded, with the per-move
   * container keys as a parameter. The entries of `file_configs` are taken
   * in some order; the model does not fix Python's insertion order.
   */
  method HandleRequest(keys: ConfigKeys, config: Yaml, vendorName: Option<string>,
                       containerName: Option<string>, connects: Yaml -> bool,
                       render: Yaml -> string)
    returns (resp: Response, log: seq<Effect>)
    ensures ServedAs(keys, config, vendorName, containerName, connects, render, resp)
    ensures log == []
  {
    log := [];
    var lookup := GetContainerConfig(config, vendorName, containerName);
    if lookup.Failure? {
      resp := Raised(lookup.error);
      return;
    }
    if lookup.value.None? {
      resp := Reply(400, NotFoundBody);
      return;
    }
    var containerConfig := lookup.value.value;
    var clients := OpenClients(config.entries, connects);
    if clients.Some? {
      resp := Raised(clients.value);
      return;
    }
    var files := containerConfig["file_configs"];
    if !files.Map? {
      resp := Raised(AttributeError(TypeName(files), "items"));
      return;
    }
    var pending := files.entries.Keys;
    while pending != {}
      invariant pending <= files.entries.Keys
      invariant forall k :: k in files.entries && k !in pending ==>
                  ProcessEntry(keys, containerConfig, files.entries[k], render).Success?
      invariant log == []
      decreases pending
    {
      var fileName :| fileName in pending;
      var step := ProcessEntry(keys, containerConfig, files.entries[fileName], render);
      match step
      case Failure(e) =>
        resp := Raised(e);
        return;
      case Success(effects) =>
        log := log + effects;
      pending := pending - {fileName};
    }
    resp := Reply(200, SuccessBody);
  }

  /** The lookup found the container and both storage clients opened. */
  ghost predicate Ready(config: Yaml, vendorName: Option<string>, containerName: Option<string>,
                        connects: Yaml -> bool)
  {
    && GetContainerConfig(config, vendorName, containerName).Success?
    && GetContainerConfig(config, vendorName, containerName).value.Some?
    && config.Map?
    && OpenClients(config.entries, connects).None?
  }

  /** `container_config["file_configs"]` of a found container. */
  ghost function FileConfigs(config: Yaml, vendorName: Option<string>, containerName: Option<string>): Yaml
    requires GetContainerConfig(config, vendorName, containerName).Success?
    requires GetContainerConfig(config, vendorName, containerName).value.Some?
  {
    GetContainerConfig(config, vendorName, containerName).value.value["file_configs"]
  }

  /** Every entry of `file_configs` is a dictionary holding a file mnemonic. */
  ghost predicate AllWellFormed(files: Yaml)
  {
    files.Map? && forall k :: k in files.entries ==> WellFormedEntry(files.entries[k])
  }

  /**
   * `main` as written. The loop reads `container_config["source-container"]`,
   * but the lookup's result is keyed `source_container`, so any entry the
   * loop reaches raises: a request succeeds only when there is nothing to
   * copy, and no storage call is ever made.
   */
  method Serve(config: Yaml, vendorName: Option<string>, containerName: Option<string>,
              connects: Yaml -> bool, render: Yaml -> string)
    returns (resp: Response, log: seq<Effect>)
    ensures log == []
    ensures resp.Status() in {200, 400, 500}
    ensures resp.Status() == 400 <==> GetContainerConfig(config, vendorName, containerName) == Success(None)
    ensures resp.Status() == 400 ==> resp == Reply(400, NotFoundBody)
    ensures resp.Status() == 200 <==>
              Ready(config, vendorName, containerName, connects) &&
              FileConfigs(config, vendorName, containerName) == Map(map[])
    ensures resp.Status() == 200 ==> resp == Reply(200, SuccessBody)
    ensures Ready(config, vendorName, containerName, connects) &&
            AllWellFormed(FileConfigs(config, vendorName, containerName)) &&
            FileConfigs(config, vendorName, containerName) != Map(map[]) ==>
              resp == Raised(KeyError(SourceKey))
  {
    resp, log := HandleRequest(AsWrittenKeys, config, vendorName, containerName, connects, render);
    var lookup := GetContainerConfig(config, vendorName, containerName);
    if lookup.Success? && lookup.value.Some? {
      assert lookup.value.value.Keys == ProjectedKeys;
      assert SourceKey !in lookup.value.value by {
        assert SourceKey[6] != "source_container"[6];
        assert SourceKey != "destination_container" && SourceKey != "folder_mnemonic";
        assert SourceKey != "file_configs";
      }
      var files := lookup.value.value["file_configs"];
      if files.Map? && files.entries != map[] {
        var k :| k in files.entries;
        assert ProcessEntry(AsWrittenKeys, lookup.value.value, files.entries[k], render).Failure?;
      }
    }
  }

  /**
   * `main` with the loop reading the keys the lookup produces. Every
   * well-formed request now answers 200, and still no blob is copied:
   * the candidate names never pass the date check.
   */
  method ServeIntended(config: Yaml, vendorName: Option<string>, containerName: Option<string>,
                      connects: Yaml -> bool, render: Yaml -> string)
    returns (resp: Response, log: seq<Effect>)
    ensures log == []
    ensures resp.Status() in {200, 400, 500}
    ensures resp.Status() == 400 <==> GetContainerConfig(config, vendorName, containerName) == Success(None)
    ensures resp.Status() == 400 ==> resp == Reply(400, NotFoundBody)
    ensures resp.Status() == 200 <==>
              Ready(config, vendorName, containerName, connects) &&
              AllWellFormed(FileConfigs(config, vendorName, containerName))
    ensures resp.Status() == 200 ==> resp == Reply(200, SuccessBody)
  {
    resp, log := HandleRequest(IntendedKeys, config, vendorName, containerName, connects, render);
    var lookup := GetContainerConfig(config, vendorName, containerName);
    if lookup.Success? && lookup.value.Some? {
      assert lookup.value.value.Keys == ProjectedKeys;
    }
  }

  /**
   * Vendor `acme`, container `orders`, one file entry with mnemonic
   * `orders` and a null pattern: as written the request fails with
   * `KeyError('source-container')`; with the intended keys it answers 200,
   * having skipped `orders.csv`.
   */
  method AcmeOrdersScenario() returns (asWritten: Response, intended: Response)
    ensures asWritten == Raised(KeyError("source-container"))
    ensures intended == Reply(200, SuccessBody)
  {
    var entry := Map(map[FileMnemonicKey := Str("orders"), FilePatternKey := Null]);
    var container := Map(map[
      SourceKey := Str("sftp-orders"),
      DestinationKey := Str("lake"),
      MnemonicKey := Str("ORD"),
      FilesKey := Map(map["orders" := entry])
    ]);
    var config := Map(map[
      SourceConnectionKey := Str("source"),
      DestinationConnectionKey := Str("destination"),
      "vendors" := Map(map["acme" := Map(map["orders" := container])])
    ]);
    var render := (y: Yaml) => if y.Str? then y.s else "";
    var connects := (y: Yaml) => true;
    var log;
    asWritten, log := Serve(config, Some("acme"), Some("orders"), connects, render);
    intended, log := ServeIntended(config, Some("acme"), Some("orders"), connects, render);
  }
}
