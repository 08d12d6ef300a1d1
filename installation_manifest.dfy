/** The installation manifest parser: reads a deployment manifest, decodes its `name`
    and `cloud_provider` sections, expands the SSH tunnel's private key path, builds the
    CPI properties and, when an SSH tunnel is configured, fills in the registry settings.
    The file system, the YAML decoder, the property builder and the UUID generator are
    parameters whose outcomes are data. */
module InstallationManifest {
  import opened Common

  datatype SSHTunnel = SSHTunnel(user: string, host: string, port: int, password: string, privateKey: string)

  /** The zero value of an SSH tunnel: no tunnel is configured. */
  const EmptySSHTunnel := SSHTunnel("", "", 0, "", "")

  /** The `cloud_provider.template` section. */
  datatype Template = Template(name: string, release: string)

  /** The decoded `cloud_provider` section, with its properties as the decoder left them. */
  datatype CloudProvider = CloudProvider(
    template: Template, properties: map<string, string>, sshTunnel: SSHTunnel, mbus: string)

  /** The decoded manifest file. */
  datatype ComboManifest = ComboManifest(name: string, cloudProvider: CloudProvider)

  datatype ReleaseJobRef = ReleaseJobRef(name: string, release: string)

  /** The registry settings, as handed to PopulateRegistry. */
  datatype Registry = Registry(username: string, password: string, host: string, port: int, sshTunnel: SSHTunnel)

  const EmptyRegistry := Registry("", "", "", 0, EmptySSHTunnel)

  /** The installation manifest the parser returns. */
  datatype Manifest = Manifest(
    name: string, template: ReleaseJobRef, properties: map<string, string>, registry: Registry, mbus: string)

  /** The zero value `Manifest{}` returned with every error. */
  const EmptyManifest := Manifest("", ReleaseJobRef("", ""), map[], EmptyRegistry, "")

  /** The fixed registry settings used when an SSH tunnel is configured. */
  const RegistryUsername := "registry"
  const RegistryHost := "127.0.0.1"
  const RegistryPort := 6901

  /** A cloud provider has an SSH tunnel exactly when its tunnel is not the zero value,
      that is, when at least one of its fields is set. */
  function HasSSHTunnel(i: CloudProvider): (b: bool)
    ensures b <==> (i.sshTunnel.user != "" || i.sshTunnel.host != "" || i.sshTunnel.port != 0
                    || i.sshTunnel.password != "" || i.sshTunnel.privateKey != "")
  {
    i.sshTunnel != EmptySSHTunnel
  }

  /** What the parser's collaborators do: read a file, decode YAML, expand a path, build a
      property map, render the raw properties in Go syntax, and generate a UUID. */
  datatype ParserEnv = ParserEnv(
    readFile: string -> Result<string>,
    unmarshal: string -> Result<ComboManifest>,
    expandPath: string -> Result<string>,
    buildMap: map<string, string> -> Result<map<string, string>>,
    goSyntax: map<string, string> -> string,
    generatePassword: Result<string>)

  /** A call on the file system or the UUID generator. */
  datatype ParserCall = FileRead(path: string) | PathExpanded(path: string) | PasswordGenerated

  /** The tunnel after its private key path is expanded: only a non-empty path is expanded,
      and a path that cannot be expanded is kept. */
  function ExpandedTunnel(t: SSHTunnel, expandPath: string -> Result<string>): (r: SSHTunnel)
    ensures r == t.(privateKey := r.privateKey)
    ensures t.privateKey == "" ==> r == t
    ensures t.privateKey != "" && expandPath(t.privateKey).Err? ==> r == t
    ensures t.privateKey != "" && expandPath(t.privateKey).Ok? ==> r.privateKey == expandPath(t.privateKey).value
  {
    if t.privateKey == "" then t
    else
      match expandPath(t.privateKey)
      case Ok(p) => t.(privateKey := p)
      case Err(_) => t
  }

  /** The decoded manifest, when the file can be read and decoded. */
  function Decoded(path: string, env: ParserEnv): Option<ComboManifest>
  {
    var contents := env.readFile(path);
    if contents.Err? then None
    else
      var combo := env.unmarshal(contents.value);
      if combo.Err? then None else Some(combo.value)
  }

  /** Parses the manifest at `path`. */
  method Parse(path: string, env: ParserEnv) returns (m: Manifest, err: Option<string>, calls: seq<ParserCall>)
    // reading comes first, and every error comes with the empty manifest
    ensures |calls| > 0 && calls[0] == FileRead(path)
    ensures err.Some? ==> m == EmptyManifest
    ensures env.readFile(path).Err? ==>
      err == Some(Wrap("Reading file " + path, env.readFile(path).error)) && calls == [FileRead(path)]
    ensures env.readFile(path).Ok? && env.unmarshal(env.readFile(path).value).Err? ==>
      && err == Some(Wrap("Unmarshalling installation manifest", env.unmarshal(env.readFile(path).value).error))
      && calls == [FileRead(path)]
    ensures Decoded(path, env).None? ==> err.Some?
    ensures Decoded(path, env).Some? ==>
      var cp := Decoded(path, env).value.cloudProvider;
      var tunnel := ExpandedTunnel(cp.sshTunnel, env.expandPath);
      var props := env.buildMap(cp.properties);
      var expanded := if cp.sshTunnel.privateKey == "" then [] else [PathExpanded(cp.sshTunnel.privateKey)];
      var generated := props.Ok? && HasSSHTunnel(cp.(sshTunnel := tunnel));
      // the key path is expanded only when set; a password is generated only for a tunnel
      && calls == [FileRead(path)] + expanded + (if generated then [PasswordGenerated] else [])
      && (props.Err? ==>
            err == Some(Wrap("Parsing cloud_provider manifest properties: " + env.goSyntax(cp.properties), props.error)))
      && (generated && env.generatePassword.Err? ==>
            err == Some(Wrap("Generating registry password", env.generatePassword.error)))
      && (err.None? <==> props.Ok? && (generated ==> env.generatePassword.Ok?))
      // the fields copied from the decoded manifest, and the registry settings
      && (err.None? ==>
            && m.name == Decoded(path, env).value.name
            && m.template == ReleaseJobRef(cp.template.name, cp.template.release)
            && m.mbus == cp.mbus
            && m.properties == props.value
            && m.registry == if generated then
                 Registry(RegistryUsername, env.generatePassword.value, RegistryHost, RegistryPort, tunnel)
               else EmptyRegistry)
  {
    calls := [FileRead(path)];
    var contents := env.readFile(path);
    if contents.Err? {
      return EmptyManifest, Some(Wrap("Reading file " + path, contents.error)), calls;
    }
    var decoded := env.unmarshal(contents.value);
    if decoded.Err? {
      return EmptyManifest, Some(Wrap("Unmarshalling installation manifest", decoded.error)), calls;
    }
    var combo := decoded.value;

    if combo.cloudProvider.sshTunnel.privateKey != "" {
      calls := calls + [PathExpanded(combo.cloudProvider.sshTunnel.privateKey)];
      var privateKeyPath := combo.cloudProvider.sshTunnel.privateKey;
      var expanded := env.expandPath(privateKeyPath);
      if expanded.Ok? {
        privateKeyPath := expanded.value;
      }
      combo := combo.(cloudProvider := combo.cloudProvider.(sshTunnel :=
        combo.cloudProvider.sshTunnel.(privateKey := privateKeyPath)));
    }

    m := EmptyManifest.(
      name := combo.name,
      template := ReleaseJobRef(combo.cloudProvider.template.name, combo.cloudProvider.template.release),
      mbus := combo.cloudProvider.mbus);

    var properties := env.buildMap(combo.cloudProvider.properties);
    if properties.Err? {
      return EmptyManifest,
        Some(Wrap("Parsing cloud_provider manifest properties: " + env.goSyntax(combo.cloudProvider.properties),
                  properties.error)),
        calls;
    }
    m := m.(properties := properties.value);

    if HasSSHTunnel(combo.cloudProvider) {
      calls := calls + [PasswordGenerated];
      var password := env.generatePassword;
      if password.Err? {
        return EmptyManifest, Some(Wrap("Generating registry password", password.error)), calls;
      }
      m := m.(registry := Registry(RegistryUsername, password.value, RegistryHost, RegistryPort,
                                    combo.cloudProvider.sshTunnel));
    }
    err := None;
  }
}
