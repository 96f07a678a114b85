# consul-cni installer and chained plugin, modelled in Dafny

This project models the node-side installer of the `consul-cni` chained CNI plugin (repository
curtbushko/cni-poc), and the plugin's own input handling.

The installer runs in a container with the host's root mounted under `/host/`. It does four things:

1. It picks the node's primary network configuration. The candidates are the `.conf`,
   `.conflist` and `.json` files of the network directory. It tries them in lexicographic order and
   takes the first that parses to a non-empty plugin list, as kubelet does. A single
   configuration must also have a non-empty `type`.
2. It appends the plugin's seven-key entry to that configuration's `plugins` array and writes the
   result back.
3. It renders a kubeconfig for the plugin from the service environment, the cluster CA (in base 64,
   RFC 4648 section 4) and the service-account token.
4. It copies the plugin binary into the host's binary directory.

Two divergent snapshots of the installer exist side by side:

- `command/install-cni/command.go`, modelled by module `InstallCommand`. It works on the mounted host
  paths and has all four steps.
- `command/install-cni/main.go`, modelled by module `InstallMain`. It is a divergent snapshot: it
  works on the unmounted network directory and has no kubeconfig or copy step.

What both snapshots share lives in modules of its own:

- `CniConfig`: the configuration record, its plugin entry and the append rule.
- `Selection`: the sort order, the selection rule and its loop.
- `Paths`: `filepath.Join` and `filepath.Base`.
- `Json`: JSON values and an abstract codec.
- `FileSystem`: a `HostFs` object whose `files` map the installer's steps replace.
- `Base64` and `KubeConfig`.

The plugin `cni/main.go` is modelled by module `ConsulCni`.

Each imperative step is a module-level method that takes the `HostFs` object and changes its files
only through `HostFs.WriteFile`. Each is proved equal to a specification function of the old file
state: `AppendEffect`, `KubeConfigEffect`, `CopyEffect` or `RunSpec`. The properties are
lemmas about those functions. Libraries that cannot be seen are fields of function type. These are
the JSON codec; `libcni`'s listing and parsers; `version.NewResult` and `types.PrintResult`; and
whether `common.Logger` accepts a log level. The process environment, the in-cluster
configuration and the CA bytes are inputs. The token is read from the modelled file system.

The `main.go` snapshot's `Run` passes the selected base name to `appendCNIConfig` as the destination.
That function writes the destination path as given. So this snapshot writes the updated
configuration to a path relative to its working directory. In the model that is a file of its
own, and the file in the network directory keeps its text: `InstallMain.RunWritesBareName` states
this. On a host the two are the same file when the network directory is "." or is the working
directory, which the model does not capture (see "Left out").

The `command.go` snapshot appends unconditionally, and so does the `main.go` one. A configuration that
already holds the entry gains a second copy: see `CniConfig.AddEntryNotIdempotent` and
`InstallCommand.AppendTwiceInPlace`. The second case of `command_test.go:33-37` expects an earlier
entry to be removed before the append. That test belongs to another snapshot: it uses a
`config.CNIConfig` that this package does not have. The model follows the code.

## Model

| member | source | states |
|---|---|---|
| FileSystem.ReadResult | command/install-cni/command.go:204-207 | a read succeeds exactly when the path is a readable file, and then gives its contents; a missing path gives the "open …: no such file or directory" error |
| FileSystem.WriteResult | command/install-cni/command.go:241-244 | a write succeeds exactly when the path is writable and not a directory; it then sets that one file's contents and keeps every other file |
| FileSystem.HostFs.WriteFile | command/install-cni/command.go:241 | the object's files become the write's result, or stay as they were and the error is returned |
| Paths.Join | command/install-cni/command.go:145-146 | two non-empty parts are joined by one separator |
| Paths.Base | command/install-cni/command.go:293 | the base name is never empty, and it holds no separator unless it is "/" |
| Paths.BaseOfJoin | command/install-cni/command.go:293 | the base name of a directory joined with a plain file name is that file name |
| Json.DecodeObject | command/install-cni/command.go:218-222 | decoding into a map succeeds exactly for an object or `null`: an object gives its fields, `null` an empty map, any other value a type error |
| Selection.LexLeqTotal | command/install-cni/command.go:260 | any two names are ordered one way or the other |
| Selection.LexLeqAntisymmetric | command/install-cni/command.go:260 | two names each no greater than the other are equal |
| Selection.LexLeqTransitive | command/install-cni/command.go:260 | the order is transitive |
| Selection.SortStrings | command/install-cni/command.go:260 | the sorted list is ordered and is a permutation of the listing |
| Selection.SortedUnique | command/install-cni/command.go:260 | two ordered permutations of the same names are equal, so the sort's result is determined |
| Selection.Qualifies | command/install-cni/command.go:262-291 | a `.conflist` candidate is usable when it parses to a list with a plugin; any other when it parses as a single configuration with a non-empty `type` that converts to a list with a plugin. Its uses are stated by `Selection.FirstQualifying` and `Selection.MalformedListIsSkipped` |
| Selection.FirstQualifying | command/install-cni/command.go:261-292 | it gives no index exactly when no candidate is usable; otherwise it gives a usable index with no usable candidate before it |
| Selection.SelectNetwork | command/install-cni/command.go:251-297 | `getDefaultCNINetwork` as a function of the listing: a listing error, the no-networks error, or the first usable candidate of the sorted listing. Its properties are stated by `Selection.SelectNetworkChoosesFirstUsable` and `Selection.SelectNetworkIgnoresListingOrder`, and `Selection.ChooseNetwork` is proved equal to it |
| Selection.SelectNetworkChoosesFirstUsable | command/install-cni/command.go:251-297 | for a non-empty listing, selection either succeeds or fails with the no-valid error, and it fails exactly when no candidate is usable; on success it gives the base name of a usable candidate that is no greater than any other usable one |
| Selection.SelectNetworkIgnoresListingOrder | command/install-cni/command.go:252-260 | listings with the same names in any order give the same selection |
| Selection.MalformedListIsSkipped | command/install-cni/command.go:263-268 | a `.conflist` that does not parse is passed over, and a usable candidate after it is chosen |
| Selection.ChooseNetwork | command/install-cni/command.go:251-297 | the loop returns exactly what the selection rule gives: a listing error as is, the no-networks error for an empty listing, else the first usable candidate's base name or the no-valid error |
| CniConfig.ConfigEntry | command/install-cni/command.go:36-51 | the entry has exactly the seven keys of the `mapstructure` tags |
| CniConfig.ConfigEntryRoundTrip | command/install-cni/command.go:209-214 | the entry carries every field: reading it back gives the configuration |
| CniConfig.NewCNIConfig | command/install-cni/command.go:175-185 | name and type are "consul-cni"; the other five fields are the flag values |
| CniConfig.NewCNIConfigEntry | command/install-cni/command.go:175-185 | the appended entry holds type "consul-cni" and the flag values under their tags, and reads back as the configuration built from the flags |
| CniConfig.GetDestFile | command/install-cni/command.go:300-303 | the destination name is the source name and is never an error |
| CniConfig.AddEntry | command/install-cni/command.go:224-231 | the append of the entry to `plugins`. Its properties are stated by `CniConfig.AddEntryAppends` and `CniConfig.AddEntryNotIdempotent` |
| CniConfig.AddEntryAppends | command/install-cni/command.go:224-231 | the append fails exactly when `plugins` is absent or not an array; on success the old entries come first in order, then the new entry, and every other key keeps its value |
| CniConfig.AddEntryNotIdempotent | command/install-cni/command.go:231 | each append adds one more copy of the entry: two appends give two copies and differ from one |
| Base64.CharOf | command/install-cni/kubeconfig.go:70 | each 6-bit value maps to a character of the standard alphabet |
| Base64.IndexOfCharOf | command/install-cni/kubeconfig.go:70 | the alphabet mapping is one to one, and the inverse recovers the value |
| Base64.Encode | command/install-cni/kubeconfig.go:70 | `base64.StdEncoding.EncodeToString`. Its properties are stated by `Base64.EncodeLength`, `Base64.EncodeAlphabet`, `Base64.DecodeEncode`, `Base64.EncodeInjective` and the test-vector lemmas |
| Base64.EncodeLength | command/install-cni/kubeconfig.go:70 | n bytes encode to 4·⌈n/3⌉ characters |
| Base64.EncodeAlphabet | command/install-cni/kubeconfig.go:70 | every character is from the alphabet except the trailing padding, which is exactly the last (3 − n mod 3) mod 3 characters |
| Base64.EncodeCharacters | command/install-cni/kubeconfig.go:70 | the encoding uses only the alphabet and "=" |
| Base64.DecodeEncode | command/install-cni/kubeconfig.go:70 | decoding the encoding gives back the bytes |
| Base64.EncodeInjective | command/install-cni/kubeconfig.go:70 | different CA bytes give different CA lines |
| Base64.StandardShortVectors | command/install-cni/kubeconfig.go:70 | the empty input and the bytes of "f", "fo" and "foo" encode to "", "Zg==", "Zm8=" and "Zm9v", as section 10 of RFC 4648 gives |
| Base64.StandardLongVector | command/install-cni/kubeconfig.go:70 | the bytes of "foobar" encode to "Zm9vYmFy", as section 10 of RFC 4648 gives |
| KubeConfig.ServiceAccountToken | command/install-cni/kubeconfig.go:86-93 | the token is the file's text verbatim; a read failure is wrapped as "could not read service account token: …" |
| KubeConfig.KubernetesFields | command/install-cni/kubeconfig.go:53-84 | the fields exist exactly when the token can be read; a token failure is the only error, and the token field is the token |
| KubeConfig.KubernetesFieldsFromEnvironment | command/install-cni/kubeconfig.go:55-70 | the protocol is "https" when its variable is unset and otherwise the variable's value, even an empty one; host and port are "" when unset and otherwise the values; the CA line is "certificate-authority-data: " followed by the standard base 64 encoding of the CA, which decodes back to it |
| KubeConfig.TlsConfigIsOneLine | command/install-cni/kubeconfig.go:70 | the CA line holds no newline |
| KubeConfig.Render | command/install-cni/kubeconfig.go:97-105 | the template executed on the fields, as the 18 lines of `kubeconfigTmpl` joined with newlines. Its properties are stated by `KubeConfig.RenderSplitsIntoTemplateLines` and `KubeConfig.RenderedLines` |
| KubeConfig.SplitJoinLines | command/install-cni/kubeconfig.go:118-136 | text made of newline-terminated lines splits back into those lines |
| KubeConfig.RenderSplitsIntoTemplateLines | command/install-cni/kubeconfig.go:118-136 | with fields free of newlines, the rendered file consists of the template's lines |
| KubeConfig.RenderedLines | command/install-cni/kubeconfig.go:118-136 | with fields free of newlines, the file has 18 lines: the server line is protocol "://[" host "]:" port with the host always bracketed, the CA line is the TLS field, the token line is the token between double quotes without escaping, and every other line is fixed text |
| KubeConfig.KubeConfigEffect | command/install-cni/kubeconfig.go:24-51 | the new files after `createKubeConfig`, or its error. Its properties are stated by `KubeConfig.KubeConfigEffectWritesOneFile`, and `KubeConfig.CreateKubeConfig` is proved equal to it |
| KubeConfig.KubeConfigEffectWritesOneFile | command/install-cni/kubeconfig.go:24-51 | creating the kubeconfig succeeds exactly when the cluster configuration, the CA and the token are available and the destination is writable; every earlier failure writes nothing; on success only `mountedPath/kubeconfigFile` changes and it holds the rendered template |
| KubeConfig.WriteKubeConfig | command/install-cni/kubeconfig.go:95-114 | the rendered text is written to the destination, or the error is wrapped as "error writing kube config file …" with nothing changed |
| KubeConfig.CreateKubeConfig | command/install-cni/kubeconfig.go:24-51 | the file state afterwards and the error are those of `KubeConfigEffect` |
| InstallCommand.DefaultFlags | command/install-cni/command.go:80-93 | the flag defaults, with "debug" as the log level |
| InstallCommand.NewInstallConfig | command/install-cni/command.go:187-193 | the mounted directories are "/host/" followed by the flag directories; the binary source directory is the flag value |
| InstallCommand.GetDefaultCNINetwork | command/install-cni/command.go:251-298 | selection with the errors "no networks found in …" and "no valid networks found in …" |
| InstallCommand.UpdatedConfig | command/install-cni/command.go:216-238 | the text `appendCNIConfig` writes, or its error. Its properties are stated by `InstallCommand.UpdatedConfigAppendsEntry` |
| InstallCommand.UpdatedConfigAppendsEntry | command/install-cni/command.go:216-238 | the update fails with the prefixed decoding error, the plugin-list error or the prefixed encoding error ("error marshalling existing CNI config: …"), in that order; otherwise the text is the encoding of the updated document followed by one newline; with a codec that reads back what it writes, that text re-reads as the old document with the entry appended to `plugins` |
| InstallCommand.AppendEffect | command/install-cni/command.go:195-247 | the new files after `appendCNIConfig`, or its error. Its properties are stated by `InstallCommand.AppendEffectWritesDestination` and `InstallCommand.AppendTwiceInPlace`, and `InstallCommand.AppendCNIConfig` is proved equal to it |
| InstallCommand.AppendEffectWritesDestination | command/install-cni/command.go:195-247 | a missing source is reported with the `os.Stat` error; the append succeeds exactly when the source reads, the update succeeds and the destination is writable; then only the destination changes, and it holds the updated text |
| InstallCommand.AppendTwiceInPlace | command/install-cni/command.go:149-153 | appending twice to the same file leaves the entry in `plugins` twice |
| InstallCommand.AppendCNIConfig | command/install-cni/command.go:195-247 | the file state afterwards and the error are those of `AppendEffect` |
| InstallCommand.CopyEffect | command/install-cni/command.go:305-332 | the new files after `copyCNIBinary`, or its error. Its properties are stated by `InstallCommand.CopyEffectCopiesBinary`, and `InstallCommand.CopyCNIBinary` is proved equal to it |
| InstallCommand.CopyEffectCopiesBinary | command/install-cni/command.go:305-332 | the binary's existence is checked first, then the destination directory's; on success `destDir/consul-cni` holds the binary's bytes and nothing else changes |
| InstallCommand.CopyCNIBinary | command/install-cni/command.go:305-332 | the file state afterwards and the error are those of `CopyEffect` |
| InstallCommand.RunSpec | command/install-cni/command.go:96-173 | the exit code and files after `Run`: the steps in order, stopping at the first failure. Its properties are stated by `InstallCommand.RunSpecOutcome` and `InstallCommand.RunSpecKeepsEarlierSteps`, and `InstallCommand.Run` is proved equal to it |
| InstallCommand.RunSpecOutcome | command/install-cni/command.go:96-173 | the exit code is 0 exactly when parsing, logging, selection, the in-place append at `/host/<net dir>/<name>`, the kubeconfig and the copy all succeed in that order, and 1 otherwise; a failure of the flags, the logger, the selection or the append changes no file |
| InstallCommand.RunSpecKeepsEarlierSteps | command/install-cni/command.go:153-171 | a later failure undoes nothing: when the kubeconfig fails the exit is 1 with the files the append left, the chosen configuration holding the updated text; when the copy fails the exit is 1 with the files the kubeconfig step left |
| InstallCommand.Run | command/install-cni/command.go:96-173 | the exit code and the file state are those of `RunSpec` |
| InstallMain.DefaultFlags | command/install-cni/main.go:79-92 | the flag defaults, with "info" as the log level |
| InstallMain.NewInstallConfig | command/install-cni/main.go:150-154 | only the binary source directory, from the flag |
| InstallMain.GetDefaultCNINetwork | command/install-cni/main.go:212-258 | selection with the errors "No networks found in …" and "No valid networks found in …" |
| InstallMain.UpdatedConfig | command/install-cni/main.go:179-198 | the text this snapshot writes, or its error. Its properties are stated by `InstallMain.UpdatedConfigIgnoresEncodingError` |
| InstallMain.UpdatedConfigIgnoresEncodingError | command/install-cni/main.go:179-198 | once the entry is appended the update cannot fail; a failed encoding leaves only "\n"; a successful one re-reads as the document with the entry appended |
| InstallMain.AppendEffect | command/install-cni/main.go:156-208 | the new files after this snapshot's `appendCNIConfig`, or its error. Its properties are stated by `InstallMain.AppendEffectWritesDestination`, and `InstallMain.AppendCNIConfig` is proved equal to it |
| InstallMain.AppendEffectWritesDestination | command/install-cni/main.go:156-208 | the source is `cfg.CNINetDir` joined with the name, and if missing it is reported without the `os.Stat` error; the destination is written as given; on success only it changes |
| InstallMain.AppendCNIConfig | command/install-cni/main.go:156-208 | the file state afterwards and the error are those of this snapshot's `AppendEffect` |
| InstallMain.RunSpec | command/install-cni/main.go:94-136 | the exit code and files after this snapshot's `Run`. Its properties are stated by `InstallMain.RunSpecOutcome` and `InstallMain.RunWritesBareName`, and `InstallMain.Run` is proved equal to it |
| InstallMain.RunSpecOutcome | command/install-cni/main.go:94-136 | the exit code is 0 exactly when parsing, logging, selection and the append succeed, and then the files are those of the append; it is 1 otherwise, and then no file has changed |
| InstallMain.RunWritesBareName | command/install-cni/main.go:118-128 | a successful run writes the updated configuration to the bare selected name, a key of its own; under a non-empty network directory the file keyed by the joined path keeps its text (on a host the two can be one file, see "Left out") |
| InstallMain.Run | command/install-cni/main.go:94-136 | the exit code and the file state are those of this snapshot's `RunSpec` |
| ConsulCni.DecodePluginConf | cni/main.go:34-58 | `json.Unmarshal` of the decoded value into `PluginConf`. Its properties are stated by `ConsulCni.DecodePluginConfTypes`, `ConsulCni.DecodedPluginConf` and `ConsulCni.WrongTypedSettingIsParseError` |
| ConsulCni.DecodePluginConfTypes | cni/main.go:34-51 | an object decodes exactly when each decoded key is absent, `null` or of its field's Go type; otherwise the error is the type error of a key that does not fit |
| ConsulCni.DecodedPluginConf | cni/main.go:34-51 | a decoded configuration holds each key's string (or "") in its field, and the "prevResult" object in the plugin's own field, never in the embedded one |
| ConsulCni.WrongTypedSettingIsParseError | cni/main.go:54-58 | a `log_level` holding a number fails the parse with "failed to parse network configuration" and the type error, rather than being read as an empty setting |
| ConsulCni.ParsePrevResult | cni/main.go:65-67 | `version.ParsePrevResult`: nothing to do without a raw previous result, otherwise the result at the configuration's version or its error. Its uses are stated by `ConsulCni.CmdAddIgnoresPrevResult` and `ConsulCni.CmdAddIntendedPassesThrough` |
| ConsulCni.ParseConfig | cni/main.go:54-80 | `parseConfig` as written. Its properties are stated by `ConsulCni.ParseConfigChecks`, `ConsulCni.CmdAddIgnoresPrevResult` and `ConsulCni.CmdDel` |
| ConsulCni.ParseConfigChecks | cni/main.go:54-80 | the checks happen in order: decoding, then the previous result, then an empty `log_level` (reported even when `kubeconfig` is empty too), then an empty `kubeconfig`; a configuration that passes has both non-empty and keeps the decoded settings |
| ConsulCni.CmdAddWith | cni/main.go:83-148 | `cmdAdd` for a given parse and a given choice of the previous result. Its properties are stated by `ConsulCni.CmdAddResult` |
| ConsulCni.CmdAdd | cni/main.go:83-148 | `cmdAdd` as written, consulting `PluginConf.PrevResult`. Its properties are stated by `ConsulCni.CmdAddResult`, `ConsulCni.CmdAddIgnoresPrevResult` and `ConsulCni.PrevResultDroppedExample` |
| ConsulCni.CmdAddResult | cni/main.go:137-147 | a parse error returns with nothing printed; otherwise the banner is printed, then the previous result if there is one, else a fresh result at version 1.0.0, converted to the configuration's `cniVersion`; if printing fails, the banner is all that is printed and the print error is returned |
| ConsulCni.CmdAddIgnoresPrevResult | cni/main.go:34-67 | as written, parsing never fails on the previous result, and no parsed configuration holds one, so `cmdAdd` always prints a fresh result |
| ConsulCni.PrevResultDroppedExample | cni/main.go:44-67 | a configuration carrying a "prevResult" object keeps it as raw data, yet `cmdAdd` prints a fresh result |
| ConsulCni.CmdAddIntendedPassesThrough | cni/main.go:139-147 | with the embedded decoding, a previous result that parses is passed on unchanged, one that does not is rejected, and without one a fresh result is made |
| ConsulCni.CmdDel | cni/main.go:152-162 | DEL succeeds exactly when the configuration parses, and otherwise returns the parse error |
| ConsulCni.CmdCheck | cni/main.go:169-172 | CHECK always fails with "consul-cni: not implemented" |

## Findings

| source | as written | input that shows it | evidently intended | confidence | as-written member | corrected member |
|---|---|---|---|---|---|---|
| cni/main.go:44-45 | `PluginConf` redeclares `RawPrevResult` (tag "prevResult") and `PrevResult` beside the embedded `types.NetConf`. `encoding/json` fills the shallower field, so `version.ParsePrevResult(&conf.NetConf)` sees no raw result, and nothing assigns `conf.PrevResult` (lines 65 and 139-146) | standard input `{"cniVersion":"1.0.0","log_level":"info","kubeconfig":"ZZZZ-consul-cni-kubeconfig","prevResult":{…}}`: `cmdAdd` prints a fresh result instead of the previous one, and a malformed "prevResult" is never rejected | the previous result is parsed and passed on to the next plugin (comments at lines 42-43 and 144) | medium, not executed | ConsulCni.CmdAddIgnoresPrevResult | ConsulCni.CmdAddIntendedPassesThrough |

The corrected decoding is `ConsulCni.DecodePluginConfEmbedded` and the corrected command is
`ConsulCni.CmdAddIntended`. `ConsulCni.CmdAdd` models the code as written.

## Left out

- Flag parsing, `init`, `Help`, `Synopsis` and `sync.Once` are CLI plumbing. The parsed flags, or
  the parse failure, are an input.
- Logging is not modelled. Whether `common.Logger` accepts the log level is an input function; the
  messages the installer logs are not.
- The `-log-json` flag is left out. It only chooses the logger's output format. It is passed to
  `common.Logger` with the log level, and that call's outcome is already an input.
- `libcni.ConfFiles`, `ConfListFromFile`, `ConfFromFile` and `ConfListFromConf` are input functions.
  They give the listing and, per file, a parse outcome and a plugin count. The listing is not
  derived from the modelled files.
- JSON text is not modelled. `json.Unmarshal` and `json.MarshalIndent` are an abstract codec.
  That a written file reads back is a hypothesis (`Json.RoundTrips`), not a proved fact.
  Numbers are reals, not float64. Duplicate keys and Go's case-insensitive matching of keys to
  struct fields are not modelled.
- `mapstructure.Decode` cannot fail on this struct, so its error ("error loading Consul CNI
  config") is not modelled.
- `text/template` cannot fail on the constant template with string fields, so its parse and
  execute errors are not modelled.
- File names are Unicode strings, and `Selection.LexLeq` orders them by code point. Go's
  `sort.Strings` orders bytes; the two agree on names that are valid UTF-8, and names that are not
  are not modelled.
- Paths.Join: the lexical clean-up of `filepath.Join` is not modelled. That covers ".", "..", and
  repeated or trailing separators. The default mounted directory "/host/" + "/etc/cni/net.d" keeps
  its double separator. Paths are compared as strings, because the model has no path normalisation.
- `os.Stat` in the model is existence only. The code goes on at an error other than "does not
  exist", and the model does not have such errors.
- File modes (0644, so the copied binary is not executable) are not modelled. Neither are partial
  writes or concurrent writers.
- The model has no parent directories. A write to a path whose parent directory does not exist
  succeeds unless the path is listed as unwritable. On a host `os.WriteFile` fails there with
  "no such file or directory".
- InstallMain.RunWritesBareName: files are keyed by their literal path, and there is no working
  directory. A relative name and a path under the network directory are always different files.
  On a host they are one file when the working directory is the network directory. They are also
  one file when the network directory is ".", since `filepath.Join(".", n)` cleans to `n`.
- File contents are strings, standing for bytes. The CA is a byte sequence.
- `rest.InClusterConfig` and `rest.LoadTLSFiles` are outcomes given as inputs: the configuration,
  and the CA bytes or an error. The environment is a map. In client-go, `rest.InClusterConfig`
  itself fails when `KUBERNETES_SERVICE_HOST` or `KUBERNETES_SERVICE_PORT` is unset, and it reads
  the token file. The model does not tie the input outcome to the environment or to the token
  file. So on a real cluster the empty defaults of kubeconfig.go:61-69 and the token error may be
  unreachable once line 29 has succeeded; the model still covers them.
- `version.NewResult`, `types.PrintResult` and `skel.PluginMain` are library calls, given as
  input functions. That covers command dispatch, `CNI_ARGS`, version negotiation and the build
  string.
- `cniv1.Result` keeps its version and its interface, IP and route lists only.
- Go's decoding into `PluginConf` is modelled for nine keys. These are the three
  `types.NetConf` strings, `runtimeConfig`, `prevResult` and the four settings. A value of the
  wrong type for one of them fails the decoding with Go's type error. The other `types.NetConf`
  fields (`capabilities`, `ipam`, `dns`) are not decoded, so a wrong type there is not reported.
- ConsulCni.DecodePluginConfTypes: when several keys hold values of the wrong type, Go reports
  the first in the text. The model has no key order, so it reports the first in a fixed order.
  The lemma promises only that some key that does not fit is named.
- KubeConfig.RenderedLines: stated only for fields without newlines. The template does no escaping,
  so a value with a newline adds lines.
- The code does not implement these, so they are not properties of the model: writing to a
  temporary file and renaming it, removing an earlier `consul-cni` entry, multus wrapping,
  bracketing the host only for IPv6 addresses, and rejecting an empty host or token.
- `command/consul-cni/podexec.go` is not part of this model: it is a thin Kubernetes client wrapper.
- `subcommand/cni-install/cni-install/command.go` is not part of this model: it is a stub with no
  logic.
- `cni/plugin/plugin.go` is not part of this model: it holds constants only.
- The `copy` helper of `main_test.go` is not part of this model: it is test support.
