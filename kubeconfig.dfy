/** The kubeconfig file the installer writes for the chained plugin: the API server address,
    the cluster's CA and the service-account token, filled into a fixed template. */
module KubeConfig {
  import opened Wrappers
  import opened Paths
  import opened FileSystem
  import Base64

  const ProtocolVar := "KUBERNETES_SERVICE_PROTOCOL"
  const HostVar := "KUBERNETES_SERVICE_HOST"
  const PortVar := "KUBERNETES_SERVICE_PORT"
  const DefaultProtocol := "https"
  const CaPrefix := "certificate-authority-data: "
  const ServiceAccountTokenPath := "/var/run/secrets/kubernetes.io/serviceaccount/token"

  /** `KubeConfigFields`. */
  datatype KubeConfigFields = KubeConfigFields(
    protocol: string,
    host: string,
    port: string,
    tlsConfig: string,
    token: string)

  /** `os.LookupEnv(key)`, with a fallback for an unset variable. A variable set to "" is set. */
  function LookupOr(env: map<string, string>, key: string, fallback: string): string
  {
    if key in env then env[key] else fallback
  }

  /** `getServiceAccountToken`: the token file's contents, verbatim. */
  function ServiceAccountToken(read: Result<string, string>): (r: Result<string, string>)
    ensures read.Success? ==> r == read
    ensures read.Failure? ==> r == Failure("could not read service account token: " + read.error)
  {
    match read
    case Success(token) => Success(token)
    case Failure(e) => Failure("could not read service account token: " + e)
  }

  /** `getKubernetesFields`, given the environment and the outcome of reading the token file. */
  function KubernetesFields(caData: seq<Base64.byte>, env: map<string, string>, tokenRead: Result<string, string>): (r: Result<KubeConfigFields, string>)
    ensures r.Success? <==> tokenRead.Success?
    ensures r.Failure? ==> r.error == "could not read service account token: " + tokenRead.error
    ensures r.Success? ==> r.value.token == tokenRead.value
  {
    var protocol := LookupOr(env, ProtocolVar, DefaultProtocol);
    var serviceHost := LookupOr(env, HostVar, "");
    var servicePort := LookupOr(env, PortVar, "");
    var ca := CaPrefix + Base64.Encode(caData);
    match ServiceAccountToken(tokenRead)
    case Failure(e) => Failure(e)
    case Success(token) => Success(KubeConfigFields(protocol, serviceHost, servicePort, ca, token))
  }

  /** The protocol is "https" unless its variable is set, then its value even if empty; host and
      port are "" unless set; the TLS line is the prefix and the standard base 64 encoding of the
      CA, which decodes back to the CA. */
  lemma KubernetesFieldsFromEnvironment(caData: seq<Base64.byte>, env: map<string, string>, token: string)
    ensures var r := KubernetesFields(caData, env, Success(token));
      && r.Success?
      && (ProtocolVar !in env ==> r.value.protocol == "https")
      && (ProtocolVar in env ==> r.value.protocol == env[ProtocolVar])
      && (HostVar !in env ==> r.value.host == "") && (HostVar in env ==> r.value.host == env[HostVar])
      && (PortVar !in env ==> r.value.port == "") && (PortVar in env ==> r.value.port == env[PortVar])
      && |r.value.tlsConfig| >= |CaPrefix|
      && r.value.tlsConfig[..|CaPrefix|] == CaPrefix
      && r.value.tlsConfig[|CaPrefix|..] == Base64.Encode(caData)
      && Base64.Decode(r.value.tlsConfig[|CaPrefix|..]) == Some(caData)
  {
    var r := KubernetesFields(caData, env, Success(token));
    assert r.value.tlsConfig[|CaPrefix|..] == Base64.Encode(caData);
    Base64.DecodeEncode(caData);
  }

  // ---------------------------------------------------------------------------------------
  // The template, `kubeconfigTmpl`, as its lines; `text/template` substitutes the fields verbatim.

  function ServerUrl(f: KubeConfigFields): string
  {
    f.protocol + "://[" + f.host + "]:" + f.port
  }

  /** The lines of `kubeconfigTmpl` with the fields substituted, without escaping. */
  function TemplateLines(f: KubeConfigFields): seq<string>
  {
    [ "# Kubeconfig file for consul CNI plugin.",
      "apiVersion: v1",
      "kind: Config",
      "clusters:",
      "- name: local",
      "  cluster:",
      "    server: " + ServerUrl(f),
      "    " + f.tlsConfig,
      "users:",
      "- name: consul-cni",
      "  user:",
      "    token: \"" + f.token + "\"",
      "contexts:",
      "- name: consul-cni-context",
      "  context:",
      "    cluster: local",
      "    user: consul-cni",
      "current-context: consul-cni-context" ]
  }

  /** Each line followed by a newline. */
  function JoinLines(lines: seq<string>): string
  {
    if lines == [] then "" else lines[0] + "\n" + JoinLines(lines[1..])
  }

  /** The rendered file: the text `tmpl.Execute` leaves in the buffer. */
  function Render(f: KubeConfigFields): string
  {
    JoinLines(TemplateLines(f))
  }

  /** The position of the first newline, or the length when there is none. */
  function LineEnd(s: string): (i: nat)
    ensures i <= |s|
    ensures forall k :: 0 <= k < i ==> s[k] != '\n'
    ensures i < |s| ==> s[i] == '\n'
  {
    if s == [] || s[0] == '\n' then 0 else LineEnd(s[1..]) + 1
  }

  /** How a reader splits a file into lines: at each newline; a final line without one still counts. */
  function SplitLines(s: string): seq<string>
    decreases |s|
  {
    if s == [] then []
    else
      var i := LineEnd(s);
      if i == |s| then [s] else [s[..i]] + SplitLines(s[i + 1..])
  }

  /** A line of text: no newline inside it. */
  ghost predicate OneLine(line: string)
  {
    forall k :: 0 <= k < |line| ==> line[k] != '\n'
  }

  ghost predicate NoNewlines(lines: seq<string>)
  {
    forall i :: 0 <= i < |lines| ==> OneLine(lines[i])
  }

  lemma LineEndOfLine(line: string, rest: string)
    requires OneLine(line)
    ensures LineEnd(line + "\n" + rest) == |line|
  {
    var s := line + "\n" + rest;
    assert s[|line|] == '\n';
    assert forall k :: 0 <= k < |line| ==> s[k] == line[k];
  }

  /** Splitting what `JoinLines` produced gives back the lines, when none contains a newline. */
  lemma {:induction false} SplitJoinLines(lines: seq<string>)
    requires NoNewlines(lines)
    ensures SplitLines(JoinLines(lines)) == lines
    decreases |lines|
  {
    if lines != [] {
      var s := JoinLines(lines);
      var rest := JoinLines(lines[1..]);
      assert s == lines[0] + "\n" + rest;
      assert OneLine(lines[0]);
      LineEndOfLine(lines[0], rest);
      assert s[..|lines[0]|] == lines[0];
      assert s[|lines[0]| + 1..] == rest;
      assert NoNewlines(lines[1..]) by {
        forall i | 0 <= i < |lines[1..]| ensures OneLine(lines[1..][i]) {
          assert lines[1..][i] == lines[i + 1];
        }
      }
      SplitJoinLines(lines[1..]);
    }
  }

  ghost predicate FieldsOnOneLine(f: KubeConfigFields)
  {
    OneLine(f.protocol) && OneLine(f.host) && OneLine(f.port) && OneLine(f.tlsConfig) && OneLine(f.token)
  }

  lemma ConcatOneLine(a: string, b: string)
    requires OneLine(a) && OneLine(b)
    ensures OneLine(a + b)
  {
    forall k | 0 <= k < |a + b| ensures (a + b)[k] != '\n' {
      if k >= |a| {
        assert (a + b)[k] == b[k - |a|];
      }
    }
  }

  lemma HeaderLinesOnOneLine(f: KubeConfigFields)
    ensures forall i :: 0 <= i < 6 ==> OneLine(TemplateLines(f)[i])
  {
    assert OneLine("# Kubeconfig file for consul CNI plugin.");
    assert OneLine("apiVersion: v1");
    assert OneLine("kind: Config");
    assert OneLine("clusters:");
    assert OneLine("- name: local");
    assert OneLine("  cluster:");
  }

  lemma UserLinesOnOneLine(f: KubeConfigFields)
    ensures forall i :: 8 <= i < 11 ==> OneLine(TemplateLines(f)[i])
  {
    assert OneLine("users:");
    assert OneLine("- name: consul-cni");
    assert OneLine("  user:");
  }

  lemma ContextLinesOnOneLine(f: KubeConfigFields)
    ensures forall i :: 12 <= i < 18 ==> OneLine(TemplateLines(f)[i])
  {
    assert OneLine("contexts:");
    assert OneLine("- name: consul-cni-context");
    assert OneLine("  context:");
    assert OneLine("    cluster: local");
    assert OneLine("    user: consul-cni");
    assert OneLine("current-context: consul-cni-context");
  }

  lemma FieldLinesOnOneLine(f: KubeConfigFields)
    requires FieldsOnOneLine(f)
    ensures OneLine(TemplateLines(f)[6]) && OneLine(TemplateLines(f)[7]) && OneLine(TemplateLines(f)[11])
  {
    assert OneLine("    server: ") && OneLine("://[") && OneLine("]:") && OneLine("    ");
    assert OneLine("    token: \"") && OneLine("\"");
    ConcatOneLine("    server: ", f.protocol);
    ConcatOneLine("    server: " + f.protocol, "://[");
    ConcatOneLine("    server: " + f.protocol + "://[", f.host);
    ConcatOneLine("    server: " + f.protocol + "://[" + f.host, "]:");
    ConcatOneLine("    server: " + f.protocol + "://[" + f.host + "]:", f.port);
    ConcatOneLine("    ", f.tlsConfig);
    ConcatOneLine("    token: \"", f.token);
    ConcatOneLine("    token: \"" + f.token, "\"");
  }

  lemma TemplateLinesOnOneLine(f: KubeConfigFields)
    requires FieldsOnOneLine(f)
    ensures NoNewlines(TemplateLines(f))
  {
    HeaderLinesOnOneLine(f);
    UserLinesOnOneLine(f);
    ContextLinesOnOneLine(f);
    FieldLinesOnOneLine(f);
  }

  /** Reading the rendered file line by line gives back the template's lines. */
  lemma RenderSplitsIntoTemplateLines(f: KubeConfigFields)
    requires FieldsOnOneLine(f)
    ensures SplitLines(Render(f)) == TemplateLines(f)
  {
    TemplateLinesOnOneLine(f);
    SplitJoinLines(TemplateLines(f));
  }

  /** When no field holds a newline the file has the template's 18 lines: line 7 is the server,
      always `protocol://[host]:port` with the host in brackets, line 8 the CA line, line 12 the
      token in double quotes, and every other line is fixed text that no field can change. */
  lemma RenderedLines(f: KubeConfigFields, g: KubeConfigFields)
    requires FieldsOnOneLine(f) && FieldsOnOneLine(g)
    ensures |SplitLines(Render(f))| == |SplitLines(Render(g))| == 18
    ensures SplitLines(Render(f))[6] == "    server: " + f.protocol + "://[" + f.host + "]:" + f.port
    ensures SplitLines(Render(f))[7] == "    " + f.tlsConfig
    ensures SplitLines(Render(f))[11] == "    token: \"" + f.token + "\""
    ensures forall k :: 0 <= k < 18 && k != 6 && k != 7 && k != 11 ==> SplitLines(Render(f))[k] == SplitLines(Render(g))[k]
  {
    RenderSplitsIntoTemplateLines(f);
    RenderSplitsIntoTemplateLines(g);
    var lf, lg := TemplateLines(f), TemplateLines(g);
    assert forall k :: 0 <= k < 18 && k != 6 && k != 7 && k != 11 ==> lf[k] == lg[k];
  }

  /** The fields the installer gathers keep the CA on one line: the base 64 text has no newline. */
  lemma TlsConfigIsOneLine(caData: seq<Base64.byte>, env: map<string, string>, token: string)
    ensures OneLine(KubernetesFields(caData, env, Success(token)).value.tlsConfig)
  {
    var s := Base64.Encode(caData);
    Base64.EncodeCharacters(caData);
    assert OneLine(CaPrefix);
    ConcatOneLine(CaPrefix, s);
    assert KubernetesFields(caData, env, Success(token)).value.tlsConfig == CaPrefix + s;
  }

  // ---------------------------------------------------------------------------------------
  // `createKubeConfig` and `writeKubeConfig`.

  /** What the in-cluster client library reports: `rest.InClusterConfig`, then `rest.LoadTLSFiles`
      (the CA bytes), and the process environment. */
  datatype ClusterAccess = ClusterAccess(
    inClusterConfig: Outcome<string>,
    caData: Result<seq<Base64.byte>, string>,
    env: map<string, string>)

  /** The file state after `createKubeConfig(mountedPath, kubeconfigFile)`, or its error. */
  function KubeConfigEffect(mountedPath: string, kubeconfigFile: string, cluster: ClusterAccess,
                            files: map<string, string>, host: Host): Result<map<string, string>, string>
  {
    if cluster.inClusterConfig.Fail? then Failure(cluster.inClusterConfig.error)
    else if cluster.caData.Failure? then Failure(cluster.caData.error)
    else
      match KubernetesFields(cluster.caData.value, cluster.env, ReadResult(files, host, ServiceAccountTokenPath))
      case Failure(e) => Failure(e)
      case Success(fields) =>
        var destFile := Join(mountedPath, kubeconfigFile);
        match WriteResult(files, host, destFile, Render(fields))
        case Failure(e) => Failure("error writing kube config file " + destFile + ": " + e)
        case Success(updated) => Success(updated)
  }

  /** Any failure before the write leaves the files as they were; on success exactly one file,
      `Join(mountedPath, kubeconfigFile)`, is created or replaced, and it holds the rendered template. */
  lemma KubeConfigEffectWritesOneFile(mountedPath: string, kubeconfigFile: string, cluster: ClusterAccess,
                                      files: map<string, string>, host: Host)
    ensures var r := KubeConfigEffect(mountedPath, kubeconfigFile, cluster, files, host);
      var dest := Join(mountedPath, kubeconfigFile);
      && (r.Success? <==>
            && cluster.inClusterConfig.Pass? && cluster.caData.Success?
            && ReadResult(files, host, ServiceAccountTokenPath).Success?
            && dest !in host.unwritable && dest !in host.dirs)
      && (r.Success? ==>
            && r.value.Keys == files.Keys + {dest}
            && r.value[dest] == Render(KubernetesFields(cluster.caData.value, cluster.env, Success(files[ServiceAccountTokenPath])).value)
            && (forall p :: p in files && p != dest ==> r.value[p] == files[p]))
  {
  }

  /** `writeKubeConfig`: parsing the constant template and executing it cannot fail here; only the write can. */
  method WriteKubeConfig(fs: HostFs, fields: KubeConfigFields, destFile: string) returns (err: Option<string>)
    modifies fs
    ensures var w := WriteResult(old(fs.files), fs.host, destFile, Render(fields));
      if w.Success? then err.None? && fs.files == w.value
      else err == Some("error writing kube config file " + destFile + ": " + w.error) && fs.files == old(fs.files)
  {
    var templateBuffer := Render(fields);
    var writeErr := fs.WriteFile(destFile, templateBuffer);
    if writeErr.Some? {
      return Some("error writing kube config file " + destFile + ": " + writeErr.value);
    }
    return None;
  }

  method CreateKubeConfig(fs: HostFs, mountedPath: string, kubeconfigFile: string, cluster: ClusterAccess) returns (err: Option<string>)
    modifies fs
    ensures var r := KubeConfigEffect(mountedPath, kubeconfigFile, cluster, old(fs.files), fs.host);
      if r.Success? then err.None? && fs.files == r.value else err == Some(r.error) && fs.files == old(fs.files)
  {
    if cluster.inClusterConfig.Fail? {
      return Some(cluster.inClusterConfig.error);
    }
    if cluster.caData.Failure? {
      return Some(cluster.caData.error);
    }
    var kubeFields := KubernetesFields(cluster.caData.value, cluster.env, fs.ReadFile(ServiceAccountTokenPath));
    if kubeFields.Failure? {
      return Some(kubeFields.error);
    }
    var destFile := Join(mountedPath, kubeconfigFile);
    err := WriteKubeConfig(fs, kubeFields.value, destFile);
  }
}
