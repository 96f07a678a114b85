/** The installer as the snapshot `command/install-cni/main.go` has it: it picks the default
    network configuration in the (unmounted) network directory and appends the chained plugin's
    entry; it writes no kubeconfig and copies no binary. */
module InstallMain {
  import opened Wrappers
  import opened Paths
  import opened FileSystem
  import opened Json
  import opened CniConfig
  import opened Selection

  /** The flags when none is given on the command line; `-log-level` defaults to "info" here. */
  function DefaultFlags(): (f: Flags)
    ensures f.cniBinDir == DefaultCNIBinDir && f.cniNetDir == DefaultCNINetDir && f.multus == DefaultMultus
    ensures f.kubeconfig == DefaultKubeconfig && f.cniBinSourceDir == DefaultCNIBinSourceDir && f.logLevel == DefaultLogLevel
  {
    Flags(DefaultCNIBinDir, DefaultCNINetDir, false, DefaultKubeconfig, DefaultCNIBinSourceDir, DefaultLogLevel)
  }

  /** `installConfig` of this snapshot: only where to copy the binary from. */
  datatype InstallConfig = InstallConfig(cniBinSourceDir: string)

  function NewInstallConfig(flags: Flags): (ic: InstallConfig)
    ensures ic.cniBinSourceDir == flags.cniBinSourceDir
  {
    InstallConfig(flags.cniBinSourceDir)
  }

  function NoNetworksError(confDir: string): string { "No networks found in " + confDir }
  function NoValidNetworksError(confDir: string): string { "No valid networks found in " + confDir }

  /** `getDefaultCNINetwork(confDir)`: the same selection as the `command.go` snapshot, with capitalised errors. */
  method GetDefaultCNINetwork(confDir: string, listing: Result<seq<string>, string>, lib: Libcni) returns (r: Result<string, string>)
    ensures r == SelectNetwork(listing, lib, NoNetworksError(confDir), NoValidNetworksError(confDir))
  {
    r := ChooseNetwork(listing, lib, NoNetworksError(confDir), NoValidNetworksError(confDir));
  }

  /** The text this snapshot writes: as in the `command.go` one, except that an encoding error is dropped
      and only the newline is written. */
  function UpdatedConfig(cfg: CNIConfig, existing: string, codec: JsonCodec): Result<string, string>
  {
    match DecodeObject(codec, existing)
    case Failure(e) => Failure("error unmarshalling existing CNI config: " + e)
    case Success(doc) =>
      match AddEntry(doc, JObject(ConfigEntry(cfg)))
      case Failure(e) => Failure(e)
      case Success(updated) =>
        var existingJson := match codec.marshalIndent(JObject(updated)) case Success(text) => text case Failure(_) => "";
        Success(existingJson + "\n")
  }

  /** Once the entry is appended the update cannot fail: a failed encoding leaves the file a lone
      newline, which loses the whole configuration. When the encoding succeeds and the codec reads
      back what it writes, the text decodes to the document with the entry at the end of `plugins`. */
  lemma UpdatedConfigIgnoresEncodingError(cfg: CNIConfig, existing: string, codec: JsonCodec)
    ensures var r := UpdatedConfig(cfg, existing, codec);
      var d := DecodeObject(codec, existing);
      && (d.Failure? ==> r == Failure("error unmarshalling existing CNI config: " + d.error))
      && (r.Success? <==> d.Success? && AddEntry(d.value, JObject(ConfigEntry(cfg))).Success?)
      && (r.Success? && codec.marshalIndent(JObject(AddEntry(d.value, JObject(ConfigEntry(cfg))).value)).Failure? ==> r.value == "\n")
      && (r.Success? && RoundTrips(codec)
          && codec.marshalIndent(JObject(AddEntry(d.value, JObject(ConfigEntry(cfg))).value)).Success? ==>
            DecodeObject(codec, r.value)
            == Success(d.value["plugins" := JArray(d.value["plugins"].items + [JObject(ConfigEntry(cfg))])]))
  {
    var r := UpdatedConfig(cfg, existing, codec);
    if r.Success? && RoundTrips(codec) {
      var doc := DecodeObject(codec, existing).value;
      var updated := AddEntry(doc, JObject(ConfigEntry(cfg))).value;
      match codec.marshalIndent(JObject(updated))
      case Success(text) =>
        assert codec.unmarshal(text + "\n") == Success(JObject(updated));
      case Failure(_) =>
    }
  }

  /** The new file system after `appendCNIConfig(cfg, srcFile, destFile)`: the source is `srcFile`
      in `cfg.CNINetDir`, the destination is `destFile` as given. */
  function AppendEffect(cfg: CNIConfig, srcFile: string, destFile: string, files: map<string, string>, host: Host, codec: JsonCodec): Result<map<string, string>, string>
  {
    var srcFilePath := Join(cfg.cniNetDir, srcFile);
    if !Exists(files, host, srcFilePath) then
      Failure("Source cni config file " + srcFilePath + " does not exist")
    else
      match ReadResult(files, host, srcFilePath)
      case Failure(e) => Failure(e)
      case Success(existing) =>
        match UpdatedConfig(cfg, existing, codec)
        case Failure(e) => Failure(e)
        case Success(text) =>
          match WriteResult(files, host, destFile, text)
          case Failure(e) => Failure("error writing config file " + destFile + ": " + e)
          case Success(updated) => Success(updated)
  }

  /** The source is looked up in the network directory and a missing one is reported without the
      `os.Stat` error; on success only `destFile` changes and it holds the updated text. */
  lemma AppendEffectWritesDestination(cfg: CNIConfig, srcFile: string, destFile: string, files: map<string, string>, host: Host, codec: JsonCodec)
    ensures var r := AppendEffect(cfg, srcFile, destFile, files, host, codec);
      var srcFilePath := Join(cfg.cniNetDir, srcFile);
      && (!Exists(files, host, srcFilePath) ==> r == Failure("Source cni config file " + srcFilePath + " does not exist"))
      && (r.Success? <==>
            && srcFilePath in files && srcFilePath !in host.dirs && srcFilePath !in host.unreadable
            && UpdatedConfig(cfg, files[srcFilePath], codec).Success?
            && destFile !in host.unwritable && destFile !in host.dirs)
      && (r.Success? ==>
            && r.value.Keys == files.Keys + {destFile}
            && r.value[destFile] == UpdatedConfig(cfg, files[srcFilePath], codec).value
            && (forall p :: p in files && p != destFile ==> r.value[p] == files[p]))
  {
  }

  method AppendCNIConfig(fs: HostFs, cfg: CNIConfig, srcFile: string, destFile: string, codec: JsonCodec) returns (err: Option<string>)
    modifies fs
    ensures var r := AppendEffect(cfg, srcFile, destFile, old(fs.files), fs.host, codec);
      if r.Success? then err.None? && fs.files == r.value else err == Some(r.error) && fs.files == old(fs.files)
  {
    var srcFilePath := Join(cfg.cniNetDir, srcFile);
    if !fs.Stat(srcFilePath) {
      return Some("Source cni config file " + srcFilePath + " does not exist");
    }
    var existingCNIConfig := fs.ReadFile(srcFilePath);
    if existingCNIConfig.Failure? {
      return Some(existingCNIConfig.error);
    }
    var cfgMap := ConfigEntry(cfg);
    var existingMap := DecodeObject(codec, existingCNIConfig.value);
    if existingMap.Failure? {
      return Some("error unmarshalling existing CNI config: " + existingMap.error);
    }
    var updated := AddEntry(existingMap.value, JObject(cfgMap));
    if updated.Failure? {
      return Some(updated.error);
    }
    var marshalled := codec.marshalIndent(JObject(updated.value));
    var existingJson := if marshalled.Success? then marshalled.value else "";
    existingJson := existingJson + "\n";
    var writeErr := fs.WriteFile(destFile, existingJson);
    if writeErr.Some? {
      return Some("error writing config file " + destFile + ": " + writeErr.value);
    }
    return None;
  }

  /** Everything `Run` consults besides the file system. */
  datatype Node = Node(
    flags: Result<Flags, string>,
    logger: string -> Outcome<string>,
    confFiles: string -> Result<seq<string>, string>,
    lib: Libcni,
    codec: JsonCodec)

  datatype Exit = Exit(code: int, files: map<string, string>)

  function SelectedNetwork(node: Node, cfg: CNIConfig): Result<string, string>
  {
    SelectNetwork(node.confFiles(cfg.cniNetDir), node.lib, NoNetworksError(cfg.cniNetDir), NoValidNetworksError(cfg.cniNetDir))
  }

  /** `Run` of this snapshot: select, then append; the error of `getDestFile` is not checked. */
  function RunSpec(node: Node, files: map<string, string>, host: Host): Exit
  {
    if node.flags.Failure? || node.logger(node.flags.value.logLevel).Fail? then Exit(1, files)
    else
      var cfg := NewCNIConfig(node.flags.value);
      match SelectedNetwork(node, cfg)
      case Failure(_) => Exit(1, files)
      case Success(srcFile) =>
        var destFile := GetDestFile(srcFile).value;
        match AppendEffect(cfg, srcFile, destFile, files, host, node.codec)
        case Failure(_) => Exit(1, files)
        case Success(files1) => Exit(0, files1)
  }

  /** `Run` of this snapshot exits with 0 exactly when parsing, logging, selection and the append
      succeed, and with 1 otherwise; every failure leaves the files as they were, and a success
      leaves those of the append. */
  lemma RunSpecOutcome(node: Node, files: map<string, string>, host: Host)
    ensures var exit := RunSpec(node, files, host);
      && (exit.code == 0 || exit.code == 1)
      && (exit.code == 0 <==>
            && node.flags.Success? && node.logger(node.flags.value.logLevel).Pass?
            && var cfg := NewCNIConfig(node.flags.value);
            && SelectedNetwork(node, cfg).Success?
            && var name := SelectedNetwork(node, cfg).value;
            && AppendEffect(cfg, name, name, files, host, node.codec).Success?
            && exit.files == AppendEffect(cfg, name, name, files, host, node.codec).value)
      && (exit.code == 1 ==> exit.files == files)
  {
  }

  /** `Run` passes the selected name, a base name, as the destination: a successful run reads the
      configuration from the network directory but writes the updated text to that bare name, a
      path relative to the installer's working directory. The model keys files by their literal
      path and has no working directory, so there the file under a non-empty network directory
      keeps its text; on a host the two are one file when the network directory is "." or is the
      working directory. */
  lemma RunWritesBareName(node: Node, files: map<string, string>, host: Host)
    requires RunSpec(node, files, host).code == 0
    ensures node.flags.Success? && SelectedNetwork(node, NewCNIConfig(node.flags.value)).Success?
    ensures var netDir := node.flags.value.cniNetDir;
      var name := SelectedNetwork(node, NewCNIConfig(node.flags.value)).value;
      var exit := RunSpec(node, files, host);
      && exit.files.Keys == files.Keys + {name}
      && exit.files[name] == UpdatedConfig(NewCNIConfig(node.flags.value), files[Join(netDir, name)], node.codec).value
      && (netDir != "" ==> Join(netDir, name) != name && exit.files[Join(netDir, name)] == files[Join(netDir, name)])
  {
    var cfg := NewCNIConfig(node.flags.value);
    var name := SelectedNetwork(node, cfg).value;
    AppendEffectWritesDestination(cfg, name, name, files, host, node.codec);
    if cfg.cniNetDir != "" && name != "" {
      assert |Join(cfg.cniNetDir, name)| > |name|;
    }
  }

  /** `Command.Run` of this snapshot on the node's file system. */
  method Run(fs: HostFs, node: Node) returns (code: int)
    modifies fs
    ensures RunSpec(node, old(fs.files), fs.host) == Exit(code, fs.files)
  {
    if node.flags.Failure? {
      return 1;
    }
    var flags := node.flags.value;
    if node.logger(flags.logLevel).Fail? {
      return 1;
    }
    var cfg := NewCNIConfig(flags);
    var srcFile := GetDefaultCNINetwork(cfg.cniNetDir, node.confFiles(cfg.cniNetDir), node.lib);
    if srcFile.Failure? {
      return 1;
    }
    var destFile := GetDestFile(srcFile.value);
    var err := AppendCNIConfig(fs, cfg, srcFile.value, destFile.value, node.codec);
    if err.Some? {
      return 1;
    }
    return 0;
  }
}
