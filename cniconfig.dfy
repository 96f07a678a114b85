/** The chain entry the installer adds to the host's network configuration, and the append rule
    both installer snapshots apply to the `plugins` list. */
module CniConfig {
  import opened Wrappers
  import opened Json

  const DefaultName := "consul-cni"
  const DefaultType := "consul-cni"
  const DefaultCNIBinDir := "/opt/cni/bin"
  const DefaultCNINetDir := "/etc/cni/net.d"
  const DefaultMultus := false
  const DefaultKubeconfig := "ZZZZ-consul-cni-kubeconfig"
  const DefaultLogLevel := "info"
  const DefaultCNIBinSourceDir := "/bin"

  /** The parsed command-line flags the installer reads (`-log-json` is left out). */
  datatype Flags = Flags(
    cniBinDir: string,
    cniNetDir: string,
    multus: bool,
    kubeconfig: string,
    cniBinSourceDir: string,
    logLevel: string)

  /** `CNIConfig`: the values handed to the chained plugin. */
  datatype CNIConfig = CNIConfig(
    name: string,
    netType: string,
    cniBinDir: string,
    cniNetDir: string,
    multus: bool,
    kubeconfig: string,
    logLevel: string)

  /** The `mapstructure` tags of `CNIConfig`: the keys of the entry. */
  const EntryKeys: set<string> := {"name", "type", "cni_bin_dir", "cni_net_dir", "multus", "kubeconfig", "log_level"}

  /** `mapstructure.Decode(cfg, &cfgMap)`: the struct as a map keyed by its tags. */
  function ConfigEntry(cfg: CNIConfig): (entry: map<string, JsonValue>)
    ensures entry.Keys == EntryKeys
  {
    map[
      "name" := JString(cfg.name),
      "type" := JString(cfg.netType),
      "cni_bin_dir" := JString(cfg.cniBinDir),
      "cni_net_dir" := JString(cfg.cniNetDir),
      "multus" := JBool(cfg.multus),
      "kubeconfig" := JString(cfg.kubeconfig),
      "log_level" := JString(cfg.logLevel)]
  }

  function StringField(m: map<string, JsonValue>, key: string): Option<string>
  {
    if key in m && m[key].JString? then Some(m[key].s) else None
  }

  /** Reads a plugin entry back into a `CNIConfig`, requiring the seven keys with their JSON types. */
  function EntryToConfig(m: map<string, JsonValue>): Option<CNIConfig>
  {
    var name := StringField(m, "name");
    var netType := StringField(m, "type");
    var binDir := StringField(m, "cni_bin_dir");
    var netDir := StringField(m, "cni_net_dir");
    var kubeconfig := StringField(m, "kubeconfig");
    var logLevel := StringField(m, "log_level");
    if && name.Some? && netType.Some? && binDir.Some? && netDir.Some?
       && "multus" in m && m["multus"].JBool? && kubeconfig.Some? && logLevel.Some?
    then Some(CNIConfig(name.value, netType.value, binDir.value, netDir.value, m["multus"].b, kubeconfig.value, logLevel.value))
    else None
  }

  /** The entry carries every field of the configuration: reading it back gives the configuration. */
  lemma ConfigEntryRoundTrip(cfg: CNIConfig)
    ensures EntryToConfig(ConfigEntry(cfg)) == Some(cfg)
  {
  }

  /** `newCNIConfig` (`NewCNIConfig` in the `main.go` snapshot): the fixed name and type, everything else from the flags. */
  function NewCNIConfig(flags: Flags): (cfg: CNIConfig)
    ensures cfg.name == DefaultName && cfg.netType == DefaultType
    ensures cfg.cniBinDir == flags.cniBinDir && cfg.cniNetDir == flags.cniNetDir && cfg.multus == flags.multus
    ensures cfg.kubeconfig == flags.kubeconfig && cfg.logLevel == flags.logLevel
  {
    CNIConfig(DefaultName, DefaultType, flags.cniBinDir, flags.cniNetDir, flags.multus, flags.kubeconfig, flags.logLevel)
  }

  /** The entry written into the host's configuration carries the flag values under their tags, and
      reads back as the configuration built from them. */
  lemma NewCNIConfigEntry(flags: Flags)
    ensures var entry := ConfigEntry(NewCNIConfig(flags));
      && entry["type"] == JString("consul-cni")
      && entry["cni_bin_dir"] == JString(flags.cniBinDir) && entry["cni_net_dir"] == JString(flags.cniNetDir)
      && entry["multus"] == JBool(flags.multus) && entry["kubeconfig"] == JString(flags.kubeconfig)
      && entry["log_level"] == JString(flags.logLevel)
      && EntryToConfig(entry) == Some(NewCNIConfig(flags))
  {
    ConfigEntryRoundTrip(NewCNIConfig(flags));
  }

  /** `getDestFile`, in both snapshots: the configuration keeps its name; this never fails. */
  function GetDestFile(srcFile: string): (r: Result<string, string>)
    ensures r.Success? && r.value == srcFile
  {
    Success(srcFile)
  }

  const PluginListError := "error reading plugin list from CNI config"

  /** `existingMap["plugins"] = append(plugins, cfgMap)`, after checking that `plugins` holds an array. */
  function AddEntry(doc: map<string, JsonValue>, entry: JsonValue): Result<map<string, JsonValue>, string>
  {
    if "plugins" in doc && doc["plugins"].JArray? then
      Success(doc["plugins" := JArray(doc["plugins"].items + [entry])])
    else
      Failure(PluginListError)
  }

  /** Appending fails exactly when `plugins` is absent or not an array. On success only `plugins`
      changes: it is the old list, in order, followed by the entry; every other key keeps its value. */
  lemma AddEntryAppends(doc: map<string, JsonValue>, entry: JsonValue)
    ensures var r := AddEntry(doc, entry);
      && (r.Failure? <==> !("plugins" in doc && doc["plugins"].JArray?))
      && (r.Failure? ==> r.error == PluginListError)
      && (r.Success? ==>
            && r.value.Keys == doc.Keys
            && r.value["plugins"].JArray?
            && |r.value["plugins"].items| == |doc["plugins"].items| + 1
            && r.value["plugins"].items[..|doc["plugins"].items|] == doc["plugins"].items
            && r.value["plugins"].items[|doc["plugins"].items|] == entry
            && (forall k :: k in doc && k != "plugins" ==> r.value[k] == doc[k]))
  {
    var r := AddEntry(doc, entry);
    if r.Success? {
      var old_ := doc["plugins"].items;
      assert (old_ + [entry])[..|old_|] == old_;
    }
  }

  /** How many times `x` occurs in `s`. */
  function Occurrences<T(==)>(x: T, s: seq<T>): nat
  {
    if s == [] then 0 else (if s[0] == x then 1 else 0) + Occurrences(x, s[1..])
  }

  lemma {:induction false} OccurrencesAppend<T>(x: T, s: seq<T>, t: seq<T>)
    ensures Occurrences(x, s + t) == Occurrences(x, s) + Occurrences(x, t)
    decreases |s|
  {
    if s == [] {
      assert s + t == t;
    } else {
      assert (s + t)[1..] == s[1..] + t;
      OccurrencesAppend(x, s[1..], t);
    }
  }

  /** The append is unconditional: an entry already present is not replaced, so the list gains one
      more copy each time. Two appends give two more copies, and the result differs from one append. */
  lemma AddEntryNotIdempotent(doc: map<string, JsonValue>, entry: JsonValue)
    requires AddEntry(doc, entry).Success?
    ensures var once := AddEntry(doc, entry).value;
      && AddEntry(once, entry).Success?
      && var twice := AddEntry(once, entry).value;
      && Occurrences(entry, once["plugins"].items) == Occurrences(entry, doc["plugins"].items) + 1
      && Occurrences(entry, twice["plugins"].items) == Occurrences(entry, doc["plugins"].items) + 2
      && twice != once
  {
    var items := doc["plugins"].items;
    var once := AddEntry(doc, entry).value;
    OccurrencesAppend(entry, items, [entry]);
    OccurrencesAppend(entry, items + [entry], [entry]);
    assert once["plugins"].items == items + [entry];
    assert [entry][1..] == [];
    var twice := AddEntry(once, entry).value;
    assert |twice["plugins"].items| != |once["plugins"].items|;
  }
}
