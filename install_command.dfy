/** The installer as `command/install-cni/command.go` has it: it picks the node's default network
    configuration under the mounted host directory, appends the chained plugin's entry to it,
    writes the kubeconfig beside it and copies the plugin binary into the host's binary directory. */
module InstallCommand {
  import opened Wrappers
  import opened Paths
  import opened FileSystem
  import opened Json
  import opened CniConfig
  import opened Selection
  import KubeConfig

  /** Where the host's root is mounted inside the installer's container. */
  const HostMount := "/host/"
  /** The default of `-log-level` in this snapshot. */
  const DefaultLogLevelFlag := "debug"
  const BinaryName := "consul-cni"

  /** The flags when none is given on the command line. */
  function DefaultFlags(): (f: Flags)
    ensures f.cniBinDir == DefaultCNIBinDir && f.cniNetDir == DefaultCNINetDir && f.multus == DefaultMultus
    ensures f.kubeconfig == DefaultKubeconfig && f.cniBinSourceDir == DefaultCNIBinSourceDir && f.logLevel == "debug"
  {
    Flags(DefaultCNIBinDir, DefaultCNINetDir, false, DefaultKubeconfig, DefaultCNIBinSourceDir, DefaultLogLevelFlag)
  }

  /** `installConfig`: the paths the installer works with from inside its container. */
  datatype InstallConfig = InstallConfig(mountedCNIBinDir: string, mountedCNINetDir: string, cniBinSourceDir: string)

  /** `newInstallConfig`: the flag directories under the host mount, by plain concatenation (the
      default network directory becomes "/host//etc/cni/net.d"); the binary source is not mounted. */
  function NewInstallConfig(flags: Flags): (ic: InstallConfig)
    ensures |ic.mountedCNINetDir| == |HostMount| + |flags.cniNetDir| && ic.mountedCNINetDir[..|HostMount|] == HostMount
    ensures ic.mountedCNINetDir[|HostMount|..] == flags.cniNetDir
    ensures |ic.mountedCNIBinDir| == |HostMount| + |flags.cniBinDir| && ic.mountedCNIBinDir[..|HostMount|] == HostMount
    ensures ic.mountedCNIBinDir[|HostMount|..] == flags.cniBinDir
    ensures ic.cniBinSourceDir == flags.cniBinSourceDir
  {
    InstallConfig(HostMount + flags.cniBinDir, HostMount + flags.cniNetDir, flags.cniBinSourceDir)
  }

  // ---------------------------------------------------------------------------------------
  // `getDefaultCNINetwork`

  function NoNetworksError(confDir: string): string { "no networks found in " + confDir }
  function NoValidNetworksError(confDir: string): string { "no valid networks found in " + confDir }

  /** `getDefaultCNINetwork(confDir)`, given what `libcni.ConfFiles(confDir, [".conf", ".conflist", ".json"])`
      returned. */
  method GetDefaultCNINetwork(confDir: string, listing: Result<seq<string>, string>, lib: Libcni) returns (r: Result<string, string>)
    ensures r == SelectNetwork(listing, lib, NoNetworksError(confDir), NoValidNetworksError(confDir))
  {
    r := ChooseNetwork(listing, lib, NoNetworksError(confDir), NoValidNetworksError(confDir));
  }

  // ---------------------------------------------------------------------------------------
  // `appendCNIConfig`

  /** The text `appendCNIConfig` writes, from the existing configuration's text: decode it as an
      object, append the entry to `plugins`, indent it with two spaces and add a final newline. */
  function UpdatedConfig(cfg: CNIConfig, existing: string, codec: JsonCodec): Result<string, string>
  {
    match DecodeObject(codec, existing)
    case Failure(e) => Failure("error unmarshalling existing CNI config: " + e)
    case Success(doc) =>
      match AddEntry(doc, JObject(ConfigEntry(cfg)))
      case Failure(e) => Failure(e)
      case Success(updated) =>
        match codec.marshalIndent(JObject(updated))
        case Failure(e) => Failure("error marshalling existing CNI config: " + e)
        case Success(text) => Success(text + "\n")
  }

  /** The update fails with the decoding error prefixed, with the plugin-list error, or with the
      encoding error prefixed, in that order; otherwise it is the encoding followed by exactly one
      newline. When the codec reads back what it writes, the new text decodes to the old document
      whose `plugins` gained the entry at its end. */
  lemma UpdatedConfigAppendsEntry(cfg: CNIConfig, existing: string, codec: JsonCodec)
    ensures var r := UpdatedConfig(cfg, existing, codec);
      var d := DecodeObject(codec, existing);
      var entry := JObject(ConfigEntry(cfg));
      && (d.Failure? ==> r == Failure("error unmarshalling existing CNI config: " + d.error))
      && (d.Success? && AddEntry(d.value, entry).Failure? ==> r == Failure(PluginListError))
      && (d.Success? && AddEntry(d.value, entry).Success? ==>
            var e := codec.marshalIndent(JObject(AddEntry(d.value, entry).value));
            && (e.Failure? ==> r == Failure("error marshalling existing CNI config: " + e.error))
            && (e.Success? ==> r == Success(e.value + "\n")))
      && (r.Success? ==> d.Success? && "plugins" in d.value && d.value["plugins"].JArray?)
      && (r.Success? && RoundTrips(codec) ==>
            DecodeObject(codec, r.value)
            == Success(d.value["plugins" := JArray(d.value["plugins"].items + [entry])]))
  {
    var r := UpdatedConfig(cfg, existing, codec);
    if r.Success? && RoundTrips(codec) {
      var doc := DecodeObject(codec, existing).value;
      var updated := AddEntry(doc, JObject(ConfigEntry(cfg))).value;
      var text := codec.marshalIndent(JObject(updated)).value;
      assert codec.unmarshal(text + "\n") == Success(JObject(updated));
    }
  }

  /** The new file system after `appendCNIConfig(cfg, srcFile, destFile)`, or its error. */
  function AppendEffect(cfg: CNIConfig, srcFile: string, destFile: string, files: map<string, string>, host: Host, codec: JsonCodec): Result<map<string, string>, string>
  {
    if !Exists(files, host, srcFile) then
      Failure("source cni config file " + srcFile + " does not exist: " + StatNotExist(srcFile))
    else
      match ReadResult(files, host, srcFile)
      case Failure(e) => Failure(e)
      case Success(existing) =>
        match UpdatedConfig(cfg, existing, codec)
        case Failure(e) => Failure(e)
        case Success(text) =>
          match WriteResult(files, host, destFile, text)
          case Failure(e) => Failure("error writing config file " + destFile + ": " + e)
          case Success(updated) => Success(updated)
  }

  /** A missing source is reported with the `os.Stat` error; otherwise the append succeeds exactly
      when the source reads, the update succeeds and the destination can be written, and then only
      the destination changes: it holds the updated text. */
  lemma AppendEffectWritesDestination(cfg: CNIConfig, srcFile: string, destFile: string, files: map<string, string>, host: Host, codec: JsonCodec)
    ensures var r := AppendEffect(cfg, srcFile, destFile, files, host, codec);
      && (!Exists(files, host, srcFile) ==>
            r == Failure("source cni config file " + srcFile + " does not exist: " + StatNotExist(srcFile)))
      && (r.Success? <==>
            && srcFile in files && srcFile !in host.dirs && srcFile !in host.unreadable
            && UpdatedConfig(cfg, files[srcFile], codec).Success?
            && destFile !in host.unwritable && destFile !in host.dirs)
      && (r.Success? ==>
            && r.value.Keys == files.Keys + {destFile}
            && r.value[destFile] == UpdatedConfig(cfg, files[srcFile], codec).value
            && (forall p :: p in files && p != destFile ==> r.value[p] == files[p]))
  {
  }

  /** Running the append on the same file twice, as a restarted installer does, leaves the entry in
      the list twice: the append neither detects nor replaces an earlier entry. */
  lemma AppendTwiceInPlace(cfg: CNIConfig, path: string, files: map<string, string>, host: Host, codec: JsonCodec)
    requires RoundTrips(codec)
    requires AppendEffect(cfg, path, path, files, host, codec).Success?
    requires AppendEffect(cfg, path, path, AppendEffect(cfg, path, path, files, host, codec).value, host, codec).Success?
    ensures var doc := DecodeObject(codec, files[path]).value;
      var twice := AppendEffect(cfg, path, path, AppendEffect(cfg, path, path, files, host, codec).value, host, codec).value;
      && "plugins" in doc && doc["plugins"].JArray?
      && DecodeObject(codec, twice[path])
         == Success(doc["plugins" := JArray(doc["plugins"].items + [JObject(ConfigEntry(cfg)), JObject(ConfigEntry(cfg))])])
  {
    var entry := JObject(ConfigEntry(cfg));
    var once := AppendEffect(cfg, path, path, files, host, codec).value;
    AppendEffectWritesDestination(cfg, path, path, files, host, codec);
    UpdatedConfigAppendsEntry(cfg, files[path], codec);
    var doc := DecodeObject(codec, files[path]).value;
    var doc1 := doc["plugins" := JArray(doc["plugins"].items + [entry])];
    assert DecodeObject(codec, once[path]) == Success(doc1);
    AppendEffectWritesDestination(cfg, path, path, once, host, codec);
    UpdatedConfigAppendsEntry(cfg, once[path], codec);
    assert doc1["plugins"].items + [entry] == doc["plugins"].items + [entry, entry];
    assert doc1["plugins" := JArray(doc1["plugins"].items + [entry])] == doc["plugins" := JArray(doc["plugins"].items + [entry, entry])];
  }

  /** `appendCNIConfig(cfg, srcFile, destFile)` on the node's file system. */
  method AppendCNIConfig(fs: HostFs, cfg: CNIConfig, srcFile: string, destFile: string, codec: JsonCodec) returns (err: Option<string>)
    modifies fs
    ensures var r := AppendEffect(cfg, srcFile, destFile, old(fs.files), fs.host, codec);
      if r.Success? then err.None? && fs.files == r.value else err == Some(r.error) && fs.files == old(fs.files)
  {
    if !fs.Stat(srcFile) {
      return Some("source cni config file " + srcFile + " does not exist: " + StatNotExist(srcFile));
    }
    var existingCNIConfig := fs.ReadFile(srcFile);
    if existingCNIConfig.Failure? {
      return Some(existingCNIConfig.error);
    }
    var cfgMap := ConfigEntry(cfg);
    var existingMap := DecodeObject(codec, existingCNIConfig.value);
    if existingMap.Failure? {
      return Some("error unmarshalling existing CNI config: " + existingMap.error);
    }
    var updated := AddEntry(existingMap.value, JObject(cfgMap));
    if updated.Failure? {
      return Some(updated.error);
    }
    var existingJSON := codec.marshalIndent(JObject(updated.value));
    if existingJSON.Failure? {
      return Some("error marshalling existing CNI config: " + existingJSON.error);
    }
    var writeErr := fs.WriteFile(destFile, existingJSON.value + "\n");
    if writeErr.Some? {
      return Some("error writing config file " + destFile + ": " + writeErr.value);
    }
    return None;
  }

  // ---------------------------------------------------------------------------------------
  // `copyCNIBinary`

  /** The new file system after `copyCNIBinary(srcDir, destDir)`, or its error. */
  function CopyEffect(srcDir: string, destDir: string, files: map<string, string>, host: Host): Result<map<string, string>, string>
  {
    var srcFile := Join(srcDir, BinaryName);
    if !Exists(files, host, srcFile) then
      Failure("source cni binary " + srcFile + " does not exist: " + StatNotExist(srcFile))
    else if !Exists(files, host, destDir) then
      Failure("destination directory " + destDir + " does not exist: " + StatNotExist(destDir))
    else
      match ReadResult(files, host, srcFile)
      case Failure(e) => Failure("could not read " + srcFile + " file: " + e)
      case Success(srcBytes) =>
        match WriteResult(files, host, Join(destDir, BinaryName), srcBytes)
        case Failure(e) => Failure("error copying consul-cni binary to " + destDir + ": " + e)
        case Success(updated) => Success(updated)
  }

  /** The copy checks the binary, then the destination directory; when it succeeds the binary's
      bytes are in `destDir/consul-cni` and no other file changes. */
  lemma CopyEffectCopiesBinary(srcDir: string, destDir: string, files: map<string, string>, host: Host)
    ensures var r := CopyEffect(srcDir, destDir, files, host);
      var srcFile := Join(srcDir, BinaryName);
      var destFile := Join(destDir, BinaryName);
      && (!Exists(files, host, srcFile) ==> r.Failure? && r.error == "source cni binary " + srcFile + " does not exist: " + StatNotExist(srcFile))
      && (Exists(files, host, srcFile) && !Exists(files, host, destDir) ==>
            r.Failure? && r.error == "destination directory " + destDir + " does not exist: " + StatNotExist(destDir))
      && (r.Success? <==>
            && srcFile in files && srcFile !in host.dirs && srcFile !in host.unreadable
            && Exists(files, host, destDir)
            && destFile !in host.unwritable && destFile !in host.dirs)
      && (r.Success? ==>
            && r.value.Keys == files.Keys + {destFile}
            && r.value[destFile] == files[srcFile]
            && (forall p :: p in files && p != destFile ==> r.value[p] == files[p]))
  {
  }

  method CopyCNIBinary(fs: HostFs, srcDir: string, destDir: string) returns (err: Option<string>)
    modifies fs
    ensures var r := CopyEffect(srcDir, destDir, old(fs.files), fs.host);
      if r.Success? then err.None? && fs.files == r.value else err == Some(r.error) && fs.files == old(fs.files)
  {
    var filename := BinaryName;
    var srcFile := Join(srcDir, filename);
    if !fs.Stat(srcFile) {
      return Some("source cni binary " + srcFile + " does not exist: " + StatNotExist(srcFile));
    }
    if !fs.Stat(destDir) {
      return Some("destination directory " + destDir + " does not exist: " + StatNotExist(destDir));
    }
    var srcBytes := fs.ReadFile(srcFile);
    if srcBytes.Failure? {
      return Some("could not read " + srcFile + " file: " + srcBytes.error);
    }
    var writeErr := fs.WriteFile(Join(destDir, filename), srcBytes.value);
    if writeErr.Some? {
      return Some("error copying consul-cni binary to " + destDir + ": " + writeErr.value);
    }
    return None;
  }

  // ---------------------------------------------------------------------------------------
  // `Command.Run`

  /** Everything `Run` consults besides the file system: the outcome of parsing the arguments,
      whether `common.Logger` accepts a log level, what `libcni` lists and parses, the JSON codec,
      and what the in-cluster client library reports. */
  datatype Node = Node(
    flags: Result<Flags, string>,
    logger: string -> Outcome<string>,
    confFiles: string -> Result<seq<string>, string>,
    lib: Libcni,
    codec: JsonCodec,
    cluster: KubeConfig.ClusterAccess)

  /** The exit code and the file system `Run` leaves. */
  datatype Exit = Exit(code: int, files: map<string, string>)

  /** The name of the chosen configuration in the mounted network directory. */
  function SelectedNetwork(node: Node, install: InstallConfig): Result<string, string>
  {
    SelectNetwork(node.confFiles(install.mountedCNINetDir), node.lib,
                  NoNetworksError(install.mountedCNINetDir), NoValidNetworksError(install.mountedCNINetDir))
  }

  /** `Run`: each step runs only when every earlier one succeeded, and the first failure exits with 1. */
  function RunSpec(node: Node, files: map<string, string>, host: Host): Exit
  {
    if node.flags.Failure? || node.logger(node.flags.value.logLevel).Fail? then Exit(1, files)
    else
      var cfg := NewCNIConfig(node.flags.value);
      var install := NewInstallConfig(node.flags.value);
      match SelectedNetwork(node, install)
      case Failure(_) => Exit(1, files)
      case Success(srcFileName) =>
        var destFileName := GetDestFile(srcFileName).value;
        var srcFile := Join(install.mountedCNINetDir, srcFileName);
        var destFile := Join(install.mountedCNINetDir, destFileName);
        match AppendEffect(cfg, srcFile, destFile, files, host, node.codec)
        case Failure(_) => Exit(1, files)
        case Success(files1) =>
          match KubeConfig.KubeConfigEffect(install.mountedCNINetDir, cfg.kubeconfig, node.cluster, files1, host)
          case Failure(_) => Exit(1, files1)
          case Success(files2) =>
            match CopyEffect(install.cniBinSourceDir, install.mountedCNIBinDir, files2, host)
            case Failure(_) => Exit(1, files2)
            case Success(files3) => Exit(0, files3)
  }

  /** `Run` exits with 0 exactly when every step succeeds, and with 1 otherwise. The chosen
      configuration is updated in place, under the mounted network directory; a failure of the
      flags or the logger, in choosing it, or in the append, changes no file. */
  lemma RunSpecOutcome(node: Node, files: map<string, string>, host: Host)
    ensures var exit := RunSpec(node, files, host);
      && (exit.code == 0 || exit.code == 1)
      && (exit.code == 0 <==>
            && node.flags.Success? && node.logger(node.flags.value.logLevel).Pass?
            && var install := NewInstallConfig(node.flags.value);
            && SelectedNetwork(node, install).Success?
            && var path := Join(install.mountedCNINetDir, SelectedNetwork(node, install).value);
            && var cfg := NewCNIConfig(node.flags.value);
            && AppendEffect(cfg, path, path, files, host, node.codec).Success?
            && var files1 := AppendEffect(cfg, path, path, files, host, node.codec).value;
            && KubeConfig.KubeConfigEffect(install.mountedCNINetDir, cfg.kubeconfig, node.cluster, files1, host).Success?
            && var files2 := KubeConfig.KubeConfigEffect(install.mountedCNINetDir, cfg.kubeconfig, node.cluster, files1, host).value;
            && CopyEffect(install.cniBinSourceDir, install.mountedCNIBinDir, files2, host).Success?
            && exit.files == CopyEffect(install.cniBinSourceDir, install.mountedCNIBinDir, files2, host).value)
      && ((|| node.flags.Failure? || node.logger(node.flags.value.logLevel).Fail?
           || var install := NewInstallConfig(node.flags.value);
              || SelectedNetwork(node, install).Failure?
              || var path := Join(install.mountedCNINetDir, SelectedNetwork(node, install).value);
                 AppendEffect(NewCNIConfig(node.flags.value), path, path, files, host, node.codec).Failure?)
          ==> exit.files == files)
  {
  }

  /** A failure after the append exits with 1 but undoes nothing: when the kubeconfig fails, the
      files are those the append left, the chosen configuration holding the updated text; when the
      copy fails, they are those the kubeconfig step left. */
  lemma RunSpecKeepsEarlierSteps(node: Node, files: map<string, string>, host: Host)
    requires node.flags.Success? && node.logger(node.flags.value.logLevel).Pass?
    requires SelectedNetwork(node, NewInstallConfig(node.flags.value)).Success?
    ensures var exit := RunSpec(node, files, host);
      var cfg := NewCNIConfig(node.flags.value);
      var install := NewInstallConfig(node.flags.value);
      var path := Join(install.mountedCNINetDir, SelectedNetwork(node, install).value);
      var a := AppendEffect(cfg, path, path, files, host, node.codec);
      a.Success? ==>
        var k := KubeConfig.KubeConfigEffect(install.mountedCNINetDir, cfg.kubeconfig, node.cluster, a.value, host);
        && (k.Failure? ==>
              && exit == Exit(1, a.value)
              && path in files && exit.files[path] == UpdatedConfig(cfg, files[path], node.codec).value)
        && (k.Success? && CopyEffect(install.cniBinSourceDir, install.mountedCNIBinDir, k.value, host).Failure? ==>
              exit == Exit(1, k.value))
  {
    var cfg := NewCNIConfig(node.flags.value);
    var install := NewInstallConfig(node.flags.value);
    var path := Join(install.mountedCNINetDir, SelectedNetwork(node, install).value);
    AppendEffectWritesDestination(cfg, path, path, files, host, node.codec);
  }

  /** `Command.Run` on the node's file system. */
  method Run(fs: HostFs, node: Node) returns (code: int)
    modifies fs
    ensures RunSpec(node, old(fs.files), fs.host) == Exit(code, fs.files)
  {
    if node.flags.Failure? {
      return 1;
    }
    var flags := node.flags.value;
    if node.logger(flags.logLevel).Fail? {
      return 1;
    }
    var cfg := NewCNIConfig(flags);
    var install := NewInstallConfig(flags);
    var srcFileName := GetDefaultCNINetwork(install.mountedCNINetDir, node.confFiles(install.mountedCNINetDir), node.lib);
    if srcFileName.Failure? {
      return 1;
    }
    var destFileName := GetDestFile(srcFileName.value);
    if destFileName.Failure? {
      return 1;
    }
    var srcFile := Join(install.mountedCNINetDir, srcFileName.value);
    var destFile := Join(install.mountedCNINetDir, destFileName.value);
    var err := AppendCNIConfig(fs, cfg, srcFile, destFile, node.codec);
    if err.Some? {
      return 1;
    }
    err := KubeConfig.CreateKubeConfig(fs, install.mountedCNINetDir, cfg.kubeconfig, node.cluster);
    if err.Some? {
      return 1;
    }
    err := CopyCNIBinary(fs, install.cniBinSourceDir, install.mountedCNIBinDir);
    if err.Some? {
      return 1;
    }
    return 0;
  }
}
