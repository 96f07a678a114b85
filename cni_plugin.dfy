/** The chained plugin `cni/main.go`: it parses the network configuration the container runtime
    passes on standard input, validates it, and answers ADD with a result, DEL with success and
    CHECK with an error. */
module ConsulCni {
  import opened Wrappers
  import opened Json

  /** `cniv1.ImplementedSpecVersion`. */
  const ImplementedSpecVersion := "1.0.0"

  /** `cniv1.Result`: its version and its lists, kept as the JSON values they hold. */
  datatype CniResult = CniResult(cniVersion: string, interfaces: seq<JsonValue>, ips: seq<JsonValue>, routes: seq<JsonValue>)

  /** The fields of the embedded `types.NetConf` that the plugin touches. */
  datatype NetConf = NetConf(
    cniVersion: string,
    name: string,
    netType: string,
    rawPrevResult: Option<map<string, JsonValue>>,
    prevResult: Option<CniResult>)

  /** `PluginConf`: the embedded `NetConf`, then the plugin's own `RawPrevResult` and `PrevResult`,
      which redeclare the two embedded fields of the same names, and its four string settings. */
  datatype PluginConf = PluginConf(
    netConf: NetConf,
    rawPrevResult: Option<map<string, JsonValue>>,
    prevResult: Option<CniResult>,
    cniBinDir: string,
    cniNetDir: string,
    logLevel: string,
    kubeConfig: string)

  /** The libraries the plugin calls: `json.Unmarshal` of standard input into a generic value (a
      failure is malformed text; fields of the wrong type are `DecodePluginConf`'s), `version.NewResult` as `ParsePrevResult`
      uses it, and `types.PrintResult`, which converts a result to a version and gives its text. */
  datatype PluginLibrary = PluginLibrary(
    unmarshal: string -> Result<JsonValue, string>,
    newResult: (string, map<string, JsonValue>) -> Result<CniResult, string>,
    printResult: (CniResult, string) -> Result<string, string>)

  /** The Go types of the decoded fields: `string`, the `*struct{}` of `RuntimeConfig` and the
      `*map[string]interface{}` of `RawPrevResult`. */
  datatype GoType = GoString | GoStruct | GoMap

  function GoTypeName(t: GoType): string
  {
    match t
    case GoString => "string"
    case GoStruct => "struct {}"
    case GoMap => "map[string]interface {}"
  }

  /** The value under `key`, if any, can be stored in a field of type `t`: `null` always can (it
      leaves the zero value), a string only in a string, an object only in a struct or a map. */
  predicate Fits(m: map<string, JsonValue>, key: string, t: GoType)
  {
    key !in m || m[key].JNull? || (if t == GoString then m[key].JString? else m[key].JObject?)
  }

  /** The keys of `PluginConf` the model decodes, with the Go types of their fields. */
  predicate IsDecodedField(key: string, t: GoType)
  {
    || (key == "cniVersion" && t == GoString)
    || (key == "name" && t == GoString)
    || (key == "type" && t == GoString)
    || (key == "runtimeConfig" && t == GoStruct)
    || (key == "prevResult" && t == GoMap)
    || (key == "cni_bin_dir" && t == GoString)
    || (key == "cni_net_dir" && t == GoString)
    || (key == "log_level" && t == GoString)
    || (key == "kubeconfig" && t == GoString)
  }

  /** Every decoded key holds a value that fits its field. */
  predicate AllFit(m: map<string, JsonValue>)
  {
    && Fits(m, "cniVersion", GoString)
    && Fits(m, "name", GoString)
    && Fits(m, "type", GoString)
    && Fits(m, "runtimeConfig", GoStruct)
    && Fits(m, "prevResult", GoMap)
    && Fits(m, "cni_bin_dir", GoString)
    && Fits(m, "cni_net_dir", GoString)
    && Fits(m, "log_level", GoString)
    && Fits(m, "kubeconfig", GoString)
  }

  /** The `*json.UnmarshalTypeError` text for a value that does not fit its field. */
  function FieldTypeError(key: string, v: JsonValue, t: GoType): string
  {
    "json: cannot unmarshal " + KindName(v) + " into Go struct field PluginConf." + key + " of type " + GoTypeName(t)
  }

  /** The string under `key`, or Go's zero value "". */
  function Text(m: map<string, JsonValue>, key: string): string
  {
    if key in m && m[key].JString? then m[key].s else ""
  }

  /** The object under `key`, or nil. */
  function Fields(m: map<string, JsonValue>, key: string): Option<map<string, JsonValue>>
  {
    if key in m && m[key].JObject? then Some(m[key].fields) else None
  }

  /** A string field of the decoded object, or the type error of a value that is not a string. */
  function StringField(m: map<string, JsonValue>, key: string): Result<string, string>
  {
    if Fits(m, key, GoString) then Success(Text(m, key)) else Failure(FieldTypeError(key, m[key], GoString))
  }

  /** A pointer field holding a struct or a map, or the type error of a value that is not an object. */
  function ObjectField(m: map<string, JsonValue>, key: string, t: GoType): Result<Option<map<string, JsonValue>>, string>
  {
    if Fits(m, key, t) then Success(Fields(m, key)) else Failure(FieldTypeError(key, m[key], t))
  }

  const ZeroNetConf := NetConf("", "", "", None, None)
  const ZeroPluginConf := PluginConf(ZeroNetConf, None, None, "", "", "", "")

  /** `json.Unmarshal(stdin, &conf)` into `PluginConf`. The key "prevResult" is claimed by the
      shallower `PluginConf.RawPrevResult`, which dominates `NetConf.RawPrevResult` under the
      package's rules for embedded fields; `PrevResult` of either kind is tagged `-` and never decoded. */
  function DecodePluginConf(v: JsonValue): Result<PluginConf, string>
  {
    match v
    case JObject(m) =>
      var cniVersion :- StringField(m, "cniVersion");
      var name :- StringField(m, "name");
      var netType :- StringField(m, "type");
      var runtimeConfig :- ObjectField(m, "runtimeConfig", GoStruct);
      var rawPrevResult :- ObjectField(m, "prevResult", GoMap);
      var cniBinDir :- StringField(m, "cni_bin_dir");
      var cniNetDir :- StringField(m, "cni_net_dir");
      var logLevel :- StringField(m, "log_level");
      var kubeConfig :- StringField(m, "kubeconfig");
      Success(PluginConf(NetConf(cniVersion, name, netType, None, None), rawPrevResult, None,
                         cniBinDir, cniNetDir, logLevel, kubeConfig))
    case JNull => Success(ZeroPluginConf)
    case _ => Failure("json: cannot unmarshal " + KindName(v) + " into Go value of type main.PluginConf")
  }

  /** An object decodes exactly when every decoded key holds a value that fits its field; the
      error then names one decoded key whose value does not fit. */
  lemma DecodePluginConfTypes(m: map<string, JsonValue>)
    ensures var r := DecodePluginConf(JObject(m));
      && (r.Success? <==> AllFit(m))
      && (r.Failure? ==>
            exists key, t :: IsDecodedField(key, t) && !Fits(m, key, t) && r.error == FieldTypeError(key, m[key], t))
  {
    var r := DecodePluginConf(JObject(m));
    if r.Failure? {
      if !Fits(m, "cniVersion", GoString) {
        assert IsDecodedField("cniVersion", GoString) && r.error == FieldTypeError("cniVersion", m["cniVersion"], GoString);
      } else if !Fits(m, "name", GoString) {
        assert IsDecodedField("name", GoString) && r.error == FieldTypeError("name", m["name"], GoString);
      } else if !Fits(m, "type", GoString) {
        assert IsDecodedField("type", GoString) && r.error == FieldTypeError("type", m["type"], GoString);
      } else if !Fits(m, "runtimeConfig", GoStruct) {
        assert IsDecodedField("runtimeConfig", GoStruct) && r.error == FieldTypeError("runtimeConfig", m["runtimeConfig"], GoStruct);
      } else if !Fits(m, "prevResult", GoMap) {
        assert IsDecodedField("prevResult", GoMap) && r.error == FieldTypeError("prevResult", m["prevResult"], GoMap);
      } else if !Fits(m, "cni_bin_dir", GoString) {
        assert IsDecodedField("cni_bin_dir", GoString) && r.error == FieldTypeError("cni_bin_dir", m["cni_bin_dir"], GoString);
      } else if !Fits(m, "cni_net_dir", GoString) {
        assert IsDecodedField("cni_net_dir", GoString) && r.error == FieldTypeError("cni_net_dir", m["cni_net_dir"], GoString);
      } else if !Fits(m, "log_level", GoString) {
        assert IsDecodedField("log_level", GoString) && r.error == FieldTypeError("log_level", m["log_level"], GoString);
      } else if !Fits(m, "kubeconfig", GoString) {
        assert IsDecodedField("kubeconfig", GoString) && r.error == FieldTypeError("kubeconfig", m["kubeconfig"], GoString);
      }
    }
  }

  /** A decoded configuration holds each key's string (or "") in its field, and the "prevResult"
      object in the plugin's own field only. */
  lemma DecodedPluginConf(m: map<string, JsonValue>)
    ensures var r := DecodePluginConf(JObject(m));
      r.Success? ==>
        r.value == PluginConf(NetConf(Text(m, "cniVersion"), Text(m, "name"), Text(m, "type"), None, None),
                              Fields(m, "prevResult"), None, Text(m, "cni_bin_dir"), Text(m, "cni_net_dir"),
                              Text(m, "log_level"), Text(m, "kubeconfig"))
  {
  }

  /** A setting of the wrong type makes the whole parse fail, as `json.Unmarshal` does; it is not
      read as an empty setting. */
  lemma WrongTypedSettingIsParseError(lib: PluginLibrary, stdin: string)
    requires lib.unmarshal(stdin) == Success(JObject(map["log_level" := JNumber(5.0), "kubeconfig" := JString("k")]))
    ensures ParseConfig(lib, stdin)
      == Failure("consul-cni: failed to parse network configuration: " + FieldTypeError("log_level", JNumber(5.0), GoString))
  {
    var m := lib.unmarshal(stdin).value.fields;
    assert Fits(m, "cniVersion", GoString) && Fits(m, "name", GoString) && Fits(m, "type", GoString);
    assert Fits(m, "runtimeConfig", GoStruct) && Fits(m, "prevResult", GoMap);
    assert Fits(m, "cni_bin_dir", GoString) && Fits(m, "cni_net_dir", GoString) && !Fits(m, "log_level", GoString);
    assert DecodePluginConf(JObject(m)) == Failure(FieldTypeError("log_level", JNumber(5.0), GoString));
  }

  /** `version.ParsePrevResult(&netConf)`: nothing to do without a raw previous result; otherwise
      the result is built at the configuration's version. */
  function ParsePrevResult(lib: PluginLibrary, netConf: NetConf): Result<NetConf, string>
  {
    match netConf.rawPrevResult
    case None => Success(netConf)
    case Some(raw) =>
      match lib.newResult(netConf.cniVersion, raw)
      case Failure(e) => Failure(e)
      case Success(r) => Success(netConf.(prevResult := Some(r)))
  }

  /** `parseConfig` with a given decoding of the configuration object. */
  function ParseConfigWith(lib: PluginLibrary, decode: JsonValue -> Result<PluginConf, string>, stdin: string): Result<PluginConf, string>
  {
    var decoded := match lib.unmarshal(stdin) case Failure(e) => Failure(e) case Success(v) => decode(v);
    match decoded
    case Failure(e) => Failure("consul-cni: failed to parse network configuration: " + e)
    case Success(conf) =>
      match ParsePrevResult(lib, conf.netConf)
      case Failure(e) => Failure("consul-cni: could not parse prevResult: " + e)
      case Success(netConf) =>
        if conf.logLevel == "" then Failure("consul-cni: log_level must be specified")
        else if conf.kubeConfig == "" then Failure("consul-cni: kubeconfig must be specified")
        else Success(conf.(netConf := netConf))
  }

  /** `parseConfig(stdin)` as written. */
  function ParseConfig(lib: PluginLibrary, stdin: string): Result<PluginConf, string>
  {
    ParseConfigWith(lib, DecodePluginConf, stdin)
  }

  /** Each check in turn: a decoding failure, then the previous result, then an empty `log_level`
      (reported even when `kubeconfig` is empty too), then an empty `kubeconfig`; a configuration
      that passes has both settings non-empty and carries the decoded settings. */
  lemma ParseConfigChecks(lib: PluginLibrary, decode: JsonValue -> Result<PluginConf, string>, stdin: string)
    ensures var r := ParseConfigWith(lib, decode, stdin);
      var u := lib.unmarshal(stdin);
      && (u.Failure? ==> r == Failure("consul-cni: failed to parse network configuration: " + u.error))
      && (u.Success? && decode(u.value).Failure? ==>
            r == Failure("consul-cni: failed to parse network configuration: " + decode(u.value).error))
      && (u.Success? && decode(u.value).Success? ==>
            var conf := decode(u.value).value;
            && (ParsePrevResult(lib, conf.netConf).Failure? ==>
                  r == Failure("consul-cni: could not parse prevResult: " + ParsePrevResult(lib, conf.netConf).error))
            && (ParsePrevResult(lib, conf.netConf).Success? && conf.logLevel == "" ==>
                  r == Failure("consul-cni: log_level must be specified"))
            && (ParsePrevResult(lib, conf.netConf).Success? && conf.logLevel != "" && conf.kubeConfig == "" ==>
                  r == Failure("consul-cni: kubeconfig must be specified"))
            && (r.Success? ==>
                  && r.value.logLevel == conf.logLevel && conf.logLevel != ""
                  && r.value.kubeConfig == conf.kubeConfig && conf.kubeConfig != ""
                  && r.value.cniBinDir == conf.cniBinDir && r.value.cniNetDir == conf.cniNetDir
                  && r.value.rawPrevResult == conf.rawPrevResult && r.value.prevResult == conf.prevResult
                  && r.value.netConf.cniVersion == conf.netConf.cniVersion))
      && (r.Success? ==> u.Success? && decode(u.value).Success?)
  {
  }

  /** What `cmdAdd` leaves: the text on standard output and the error it returns. */
  datatype AddOutcome = AddOutcome(stdout: string, err: Option<string>)

  const FakeCodeBanner := "consul-cni: fake code"

  /** The result `cmdAdd` creates when there is no previous result to pass on. */
  const FreshResult := CniResult(ImplementedSpecVersion, [], [], [])

  /** `cmdAdd` with a given parse and a given choice of the previous result. */
  function CmdAddWith(lib: PluginLibrary, parse: string -> Result<PluginConf, string>, previous: PluginConf -> Option<CniResult>, stdin: string): AddOutcome
  {
    match parse(stdin)
    case Failure(e) => AddOutcome("", Some(e))
    case Success(conf) =>
      var result := match previous(conf) case None => FreshResult case Some(r) => r;
      match lib.printResult(result, conf.netConf.cniVersion)
      case Failure(e) => AddOutcome(FakeCodeBanner, Some(e))
      case Success(text) => AddOutcome(FakeCodeBanner + text, None)
  }

  function OuterPrevResult(conf: PluginConf): Option<CniResult> { conf.prevResult }

  /** `cmdAdd(args)` as written: the previous result it consults is `PluginConf.PrevResult`. */
  function CmdAdd(lib: PluginLibrary, stdin: string): AddOutcome
  {
    CmdAddWith(lib, s => ParseConfig(lib, s), OuterPrevResult, stdin)
  }

  /** A parse failure is returned with nothing printed; otherwise the banner is printed, then the
      chosen result (the previous one when there is one, else a fresh one at the implemented
      version) converted to the configuration's `cniVersion`. */
  lemma CmdAddResult(lib: PluginLibrary, parse: string -> Result<PluginConf, string>, previous: PluginConf -> Option<CniResult>, stdin: string)
    ensures var out := CmdAddWith(lib, parse, previous, stdin);
      && (parse(stdin).Failure? ==> out == AddOutcome("", Some(parse(stdin).error)))
      && (parse(stdin).Success? ==>
            var conf := parse(stdin).value;
            var chosen := if previous(conf).Some? then previous(conf).value else CniResult(ImplementedSpecVersion, [], [], []);
            && |out.stdout| >= |FakeCodeBanner| && out.stdout[..|FakeCodeBanner|] == FakeCodeBanner
            && (out.err.None? <==> lib.printResult(chosen, conf.netConf.cniVersion).Success?)
            && (out.err.None? ==> out.stdout == FakeCodeBanner + lib.printResult(chosen, conf.netConf.cniVersion).value)
            && (out.err.Some? ==> out == AddOutcome(FakeCodeBanner, Some(lib.printResult(chosen, conf.netConf.cniVersion).error))))
  {
    var out := CmdAddWith(lib, parse, previous, stdin);
    if parse(stdin).Success? {
      var conf := parse(stdin).value;
      var chosen := if previous(conf).Some? then previous(conf).value else FreshResult;
      match lib.printResult(chosen, conf.netConf.cniVersion)
      case Failure(_) =>
      case Success(text) =>
        assert (FakeCodeBanner + text)[..|FakeCodeBanner|] == FakeCodeBanner;
    }
  }

  /** As written, the configuration that reaches `cmdAdd` never holds a previous result: the raw
      one lands in the plugin's own field, `ParsePrevResult` sees the embedded field empty, and
      nothing sets `PluginConf.PrevResult`. So a malformed previous result is never rejected, and
      `cmdAdd` prints a fresh result even when the runtime passed one to chain. */
  lemma CmdAddIgnoresPrevResult(lib: PluginLibrary, stdin: string)
    ensures var u := lib.unmarshal(stdin);
      ParseConfig(lib, stdin).Success? <==>
        && u.Success? && DecodePluginConf(u.value).Success?
        && DecodePluginConf(u.value).value.logLevel != "" && DecodePluginConf(u.value).value.kubeConfig != ""
    ensures ParseConfig(lib, stdin).Success? ==>
      var conf := ParseConfig(lib, stdin).value;
      && conf.prevResult.None? && conf.netConf.prevResult.None?
      && CmdAdd(lib, stdin) == CmdAddWith(lib, s => ParseConfig(lib, s), _ => None, stdin)
  {
    var u := lib.unmarshal(stdin);
    if u.Success? && DecodePluginConf(u.value).Success? {
      assert DecodePluginConf(u.value).value.netConf.rawPrevResult.None?;
    }
  }

  /** The same shape of configuration carrying a previous result, as a runtime chaining the
      plugin passes it: it parses, keeps the raw previous result, and `cmdAdd` prints a fresh one. */
  lemma PrevResultDroppedExample(lib: PluginLibrary, stdin: string, prev: map<string, JsonValue>)
    requires lib.unmarshal(stdin) == Success(JObject(map[
      "cniVersion" := JString("1.0.0"), "log_level" := JString("info"),
      "kubeconfig" := JString("ZZZZ-consul-cni-kubeconfig"), "prevResult" := JObject(prev)]))
    ensures ParseConfig(lib, stdin).Success?
    ensures ParseConfig(lib, stdin).value.rawPrevResult == Some(prev)
    ensures lib.printResult(FreshResult, "1.0.0").Success? ==>
      CmdAdd(lib, stdin) == AddOutcome(FakeCodeBanner + lib.printResult(FreshResult, "1.0.0").value, None)
  {
    var m := lib.unmarshal(stdin).value.fields;
    assert AllFit(m);
    DecodePluginConfTypes(m);
    DecodedPluginConf(m);
    var conf := DecodePluginConf(JObject(m)).value;
    assert conf.logLevel == "info" && conf.kubeConfig == "ZZZZ-consul-cni-kubeconfig";
    assert conf.netConf.cniVersion == "1.0.0" && conf.rawPrevResult == Some(prev);
    assert conf.netConf.rawPrevResult.None? && conf.prevResult.None?;
    assert ParseConfig(lib, stdin) == Success(conf);
  }

  /** The decoding the source evidently relies on: without the redeclared fields, "prevResult"
      fills the embedded `NetConf.RawPrevResult`, which `ParsePrevResult` turns into `PrevResult`. */
  function DecodePluginConfEmbedded(v: JsonValue): Result<PluginConf, string>
  {
    match DecodePluginConf(v)
    case Failure(e) => Failure(e)
    case Success(conf) =>
      Success(conf.(netConf := conf.netConf.(rawPrevResult := conf.rawPrevResult), rawPrevResult := None))
  }

  function EmbeddedPrevResult(conf: PluginConf): Option<CniResult> { conf.netConf.prevResult }

  /** `cmdAdd` as intended: it passes on the previous result `ParsePrevResult` produced. */
  function CmdAddIntended(lib: PluginLibrary, stdin: string): AddOutcome
  {
    CmdAddWith(lib, s => ParseConfigWith(lib, DecodePluginConfEmbedded, s), EmbeddedPrevResult, stdin)
  }

  /** With the intended decoding, a previous result that parses at the configuration's version is
      passed on unchanged, one that does not parse is rejected, and without one a fresh result is made. */
  lemma CmdAddIntendedPassesThrough(lib: PluginLibrary, stdin: string)
    requires lib.unmarshal(stdin).Success? && DecodePluginConf(lib.unmarshal(stdin).value).Success?
    ensures var conf := DecodePluginConf(lib.unmarshal(stdin).value).value;
      var version := conf.netConf.cniVersion;
      var out := CmdAddIntended(lib, stdin);
      conf.logLevel != "" && conf.kubeConfig != "" ==>
        && (conf.rawPrevResult.Some? && lib.newResult(version, conf.rawPrevResult.value).Failure? ==>
              out.err == Some("consul-cni: could not parse prevResult: " + lib.newResult(version, conf.rawPrevResult.value).error))
        && (conf.rawPrevResult.Some? && lib.newResult(version, conf.rawPrevResult.value).Success? ==>
              var prev := lib.newResult(version, conf.rawPrevResult.value).value;
              lib.printResult(prev, version).Success? ==> out == AddOutcome(FakeCodeBanner + lib.printResult(prev, version).value, None))
        && (conf.rawPrevResult.None? ==>
              lib.printResult(FreshResult, version).Success? ==> out == AddOutcome(FakeCodeBanner + lib.printResult(FreshResult, version).value, None))
  {
  }

  /** `cmdDel`: it only parses. */
  function CmdDel(lib: PluginLibrary, stdin: string): (err: Option<string>)
    ensures err.None? <==> ParseConfig(lib, stdin).Success?
    ensures err.Some? ==> err.value == ParseConfig(lib, stdin).error
  {
    match ParseConfig(lib, stdin)
    case Failure(e) => Some(e)
    case Success(_) => None
  }

  /** `cmdCheck`: not implemented, whatever the input. */
  function CmdCheck(stdin: string): (err: Option<string>)
    ensures err == Some("consul-cni: not implemented")
  {
    Some("consul-cni: not implemented")
  }
}
