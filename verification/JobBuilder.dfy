/**
 From the GitMirror spec to the sync Job and its environment (internal/jobs/builder.go) and back to
 the runner's configuration (ConfigFromEnv in sync/main.go), through the variable names of
 internal/syncenv/env.go.

 Variables and volumes are named by constructors; `EnvText` and `VolumeText` spell them, and
 the spellings are proved distinct, so looking a variable up by its string finds the right one.
 */
module JobBuilder {
  import opened Base
  import opened Commands
  import opened Metadata

  /******* The spec *******/

  datatype SecretKeyRef = SecretKeyRef(name: string, key: string)

  datatype BasicAuth = BasicAuth(username: SecretKeyRef, password: SecretKeyRef)

  datatype GitHubApp = GitHubApp(
    appID: SecretKeyRef,
    installationID: SecretKeyRef,
    privateKey: SecretKeyRef,
    apiURL: string)

  datatype AuthSpec = AuthSpec(
    kind: string,
    ssh: Option<SecretKeyRef>,
    basic: Option<BasicAuth>,
    githubApp: Option<GitHubApp>)

  datatype Endpoint = Endpoint(url: string, sshSecretRef: Option<SecretKeyRef>, auth: Option<AuthSpec>)

  /** Requests and limits as quantity texts; a section that is not given is None. */
  datatype Resources = Resources(requests: Option<map<string, string>>, limits: Option<map<string, string>>)

  datatype Settings = Settings(
    backoffLimit: Option<int>,
    ttl: Option<int>,
    deadline: Option<int>,
    serviceAccount: string,
    knownHostsName: string,
    knownHostsKey: string,
    resources: Resources)

  datatype Spec = Spec(
    source: Endpoint,
    target: Endpoint,
    mode: string,
    includeTags: bool,
    image: string,
    settings: Settings)

  const DEFAULT_API_URL := "https://api.github.com"

  /******* The Job *******/

  datatype Side = Source | Target

  datatype Suffix =
    | AuthType | SSHKeyPath | AuthUsername | AuthPassword
    | AppID | AppInstallationID | AppPrivateKeyPath | AppAPIURL

  datatype EnvName =
    | SourceURL | TargetURL | MirrorMode | IncludeTags | KnownHostsPath | Home
    | Of(side: Side, suffix: Suffix)

  datatype EnvValue = Literal(text: string) | FromSecret(ref: SecretKeyRef)

  datatype EnvVar = EnvVar(name: EnvName, value: EnvValue)

  datatype VolumeName = KnownHosts | Tmp | SSHKey(side: Side) | AppKey(side: Side)

  datatype Mount = Mount(volume: VolumeName, path: string, subPath: string)

  /** One key of a Secret or ConfigMap as the file `path` of the volume, or a directory of its own. */
  datatype VolumeSource =
    | SecretFile(secret: string, key: string, path: string)
    | ConfigMapFile(configMap: string, key: string, path: string)
    | EmptyDir

  datatype Volume = Volume(name: VolumeName, source: VolumeSource)

  datatype Pod = Pod(env: seq<EnvVar>, mounts: seq<Mount>, volumes: seq<Volume>)

  function SideText(side: Side): string { if side == Source then "SOURCE" else "TARGET" }

  function SuffixText(suffix: Suffix): string {
    match suffix
    case AuthType => "AUTH_TYPE"
    case SSHKeyPath => "SSH_KEY_PATH"
    case AuthUsername => "AUTH_USERNAME"
    case AuthPassword => "AUTH_PASSWORD"
    case AppID => "GITHUB_APP_ID"
    case AppInstallationID => "GITHUB_APP_INSTALLATION_ID"
    case AppPrivateKeyPath => "GITHUB_APP_PRIVATE_KEY_PATH"
    case AppAPIURL => "GITHUB_APP_API_URL"
  }

  function EnvText(n: EnvName): string {
    match n
    case SourceURL => "SOURCE_URL"
    case TargetURL => "TARGET_URL"
    case MirrorMode => "MIRROR_MODE"
    case IncludeTags => "INCLUDE_TAGS"
    case KnownHostsPath => "KNOWN_HOSTS_PATH"
    case Home => "HOME"
    case Of(side, suffix) => SideText(side) + "_" + SuffixText(suffix)
  }

  function PathPrefix(side: Side): string { if side == Source then "source" else "target" }

  function VolumeText(n: VolumeName): string {
    match n
    case KnownHosts => "known-hosts"
    case Tmp => "tmp"
    case SSHKey(side) => PathPrefix(side) + "-ssh-key"
    case AppKey(side) => PathPrefix(side) + "-github-app-private-key"
  }

  const KNOWN_HOSTS_FILE := "/var/run/git-mirror/known-hosts/known_hosts"

  function SSHKeyFile(side: Side): string { "/var/run/git-mirror/" + PathPrefix(side) + "/ssh_key" }
  function AppKeyFile(side: Side): string { "/var/run/git-mirror/" + PathPrefix(side) + "-github-app/private_key" }

  /******* Building *******/

  /** The auth type in force: the declared one, or ssh for a bare sshSecretRef. */
  function AuthKind(e: Endpoint): string {
    var declared := if e.auth.Some? then e.auth.value.kind else "";
    if declared == "" && e.sshSecretRef.Some? then SSH else declared
  }

  function SSHRef(e: Endpoint): Option<SecretKeyRef> {
    if e.auth.Some? && e.auth.value.ssh.Some? then e.auth.value.ssh else e.sshSecretRef
  }

  function SecretVolume(name: VolumeName, ref: SecretKeyRef): Volume {
    Volume(name, SecretFile(ref.name, ref.key, ref.key))
  }

  datatype Part = Part(env: seq<EnvVar>, mounts: seq<Mount>, volumes: seq<Volume>)

  function EndpointPart(side: Side, e: Endpoint): Option<Part> {
    var kind := AuthKind(e);
    var typeVar := EnvVar(Of(side, AuthType), Literal(kind));
    if kind == SSH && SSHRef(e).Some? then
      var ref := SSHRef(e).value;
      Some(Part([typeVar, EnvVar(Of(side, SSHKeyPath), Literal(SSHKeyFile(side)))],
                [Mount(SSHKey(side), SSHKeyFile(side), ref.key)],
                [SecretVolume(SSHKey(side), ref)]))
    else if kind == BASIC && e.auth.Some? && e.auth.value.basic.Some? then
      var basic := e.auth.value.basic.value;
      Some(Part([typeVar,
                 EnvVar(Of(side, AuthUsername), FromSecret(basic.username)),
                 EnvVar(Of(side, AuthPassword), FromSecret(basic.password))], [], []))
    else if kind == GITHUB_APP && e.auth.Some? && e.auth.value.githubApp.Some? then
      var app := e.auth.value.githubApp.value;
      Some(Part([typeVar,
                 EnvVar(Of(side, AppID), FromSecret(app.appID)),
                 EnvVar(Of(side, AppInstallationID), FromSecret(app.installationID)),
                 EnvVar(Of(side, AppPrivateKeyPath), Literal(AppKeyFile(side)))]
                + (if app.apiURL != "" then [EnvVar(Of(side, AppAPIURL), Literal(app.apiURL))] else []),
                [Mount(AppKey(side), AppKeyFile(side), app.privateKey.key)],
                [SecretVolume(AppKey(side), app.privateKey)]))
    else None
  }

  method EndpointAuthPart(side: Side, e: Endpoint) returns (part: Option<Part>)
    ensures part == EndpointPart(side, e)
  {
    var kind := "";
    if e.auth.Some? {
      kind := e.auth.value.kind;
    }
    if kind == "" && e.sshSecretRef.Some? {
      kind := SSH;
    }
    var env := [EnvVar(Of(side, AuthType), Literal(kind))];
    if kind == SSH {
      var ref := SSHRef(e);
      if ref.None? {
        return None;
      }
      env := env + [EnvVar(Of(side, SSHKeyPath), Literal(SSHKeyFile(side)))];
      assert env == EndpointPart(side, e).value.env;
      return Some(Part(env, [Mount(SSHKey(side), SSHKeyFile(side), ref.value.key)],
                       [SecretVolume(SSHKey(side), ref.value)]));
    } else if kind == BASIC {
      if e.auth.None? || e.auth.value.basic.None? {
        return None;
      }
      env := env + [EnvVar(Of(side, AuthUsername), FromSecret(e.auth.value.basic.value.username)),
                    EnvVar(Of(side, AuthPassword), FromSecret(e.auth.value.basic.value.password))];
      assert env == EndpointPart(side, e).value.env;
      return Some(Part(env, [], []));
    } else if kind == GITHUB_APP {
      if e.auth.None? || e.auth.value.githubApp.None? {
        return None;
      }
      var app := e.auth.value.githubApp.value;
      env := env + [EnvVar(Of(side, AppID), FromSecret(app.appID)),
                    EnvVar(Of(side, AppInstallationID), FromSecret(app.installationID)),
                    EnvVar(Of(side, AppPrivateKeyPath), Literal(AppKeyFile(side)))];
      if app.apiURL != "" {
        env := env + [EnvVar(Of(side, AppAPIURL), Literal(app.apiURL))];
      }
      assert env == EndpointPart(side, e).value.env;
      return Some(Part(env, [Mount(AppKey(side), AppKeyFile(side), app.privateKey.key)],
                       [SecretVolume(AppKey(side), app.privateKey)]));
    }
    return None;
  }

  function EffectiveMode(spec: Spec): string { if spec.mode == "" then "exact" else spec.mode }

  function FormatBool(b: bool): string { if b then "true" else "false" }

  function HeadEnv(spec: Spec): seq<EnvVar> {
    var mode := EffectiveMode(spec);
    [EnvVar(SourceURL, Literal(spec.source.url)),
     EnvVar(TargetURL, Literal(spec.target.url)),
     EnvVar(MirrorMode, Literal(mode))]
    + (if mode == "additive" then [EnvVar(IncludeTags, Literal(FormatBool(spec.includeTags)))] else [])
    + [EnvVar(KnownHostsPath, Literal(KNOWN_HOSTS_FILE)), EnvVar(Home, Literal("/tmp"))]
  }

  const FIXED_MOUNTS := [Mount(KnownHosts, KNOWN_HOSTS_FILE, "known_hosts"), Mount(Tmp, "/tmp", "")]

  function FixedVolumes(settings: Settings): seq<Volume> {
    var name := OrElse(settings.knownHostsName, "git-mirror-known-hosts");
    [Volume(KnownHosts, ConfigMapFile(name, OrElse(settings.knownHostsKey, "known_hosts"), "known_hosts")),
     Volume(Tmp, EmptyDir)]
  }

  function PodFor(spec: Spec, defaultImage: string): Option<Pod> {
    var mode := EffectiveMode(spec);
    var source, target := EndpointPart(Source, spec.source), EndpointPart(Target, spec.target);
    if spec.image == "" && defaultImage == "" then None
    else if (mode != "exact" && mode != "additive") || source.None? || target.None? then None
    else Some(Pod(HeadEnv(spec) + source.value.env + target.value.env,
                      source.value.mounts + target.value.mounts + FIXED_MOUNTS,
                      source.value.volumes + target.value.volumes + FixedVolumes(spec.settings)))
  }

  /** What runs the container: limits, account and image. */
  datatype Runtime = Runtime(
    image: string,
    backoffLimit: int,
    ttl: int,
    deadline: Option<int>,
    serviceAccount: string,
    resources: Resources)

  const DEFAULT_RESOURCES := Resources(
    Some(map["cpu" := "50m", "memory" := "64Mi"]),
    Some(map["cpu" := "500m", "memory" := "512Mi"]))

  function Default<T>(given: Option<T>, otherwise: T): T { if given.Some? then given.value else otherwise }

  function RuntimeFor(spec: Spec, defaultImage: string): Runtime {
    var g := spec.settings;
    Runtime(
      OrElse(spec.image, defaultImage), Default(g.backoffLimit, 1), Default(g.ttl, 3600), g.deadline,
      OrElse(g.serviceAccount, "git-mirror-sync"),
      if g.resources.requests.None? && g.resources.limits.None? then DEFAULT_RESOURCES else g.resources)
  }

  /** Every setting given is the Job's; every one left out has its default. */
  predicate MeetsSettings(r: Runtime, spec: Spec, defaultImage: string) {
    var g := spec.settings;
    && r.image != "" && (r.image == spec.image || (spec.image == "" && r.image == defaultImage))
    && (if g.backoffLimit == None then r.backoffLimit == 1 else g.backoffLimit == Some(r.backoffLimit))
    && (if g.ttl == None then r.ttl == 3600 else g.ttl == Some(r.ttl))
    && r.deadline == g.deadline
    && (if g.serviceAccount == "" then r.serviceAccount == "git-mirror-sync" else r.serviceAccount == g.serviceAccount)
    && (if g.resources.requests == g.resources.limits == None then
          && r.resources.requests == Some(map["cpu" := "50m", "memory" := "64Mi"])
          && r.resources.limits == Some(map["cpu" := "500m", "memory" := "512Mi"])
        else r.resources == g.resources)
  }

  lemma RuntimeMeetsSettings(spec: Spec, defaultImage: string)
    requires spec.image != "" || defaultImage != ""
    ensures MeetsSettings(RuntimeFor(spec, defaultImage), spec, defaultImage)
  {}

  datatype SyncJob = SyncJob(meta: JobMeta, runtime: Runtime, pod: Pod)

  /** The Job for a mirror, a trigger and a revision. */
  function JobFor(m: MirrorMeta, spec: Spec, defaultImage: string, trigger: string, revision: string,
                  hash: string -> string, lower: char -> char): Option<SyncJob> {
    var pod := PodFor(spec, defaultImage);
    if pod.None? then None
    else Some(SyncJob(MetaFor(m, trigger, revision, hash, lower), RuntimeFor(spec, defaultImage), pod.value))
  }

  method BuildSyncJob(m: MirrorMeta, spec: Spec, defaultImage: string, trigger: string, revision: string,
                      hash: string -> string, lower: char -> char) returns (job: Option<SyncJob>)
    ensures job == JobFor(m, spec, defaultImage, trigger, revision, hash, lower)
    ensures job.Some? ==> MeetsSettings(job.value.runtime, spec, defaultImage)
  {
    var image := spec.image;
    if image == "" {
      image := defaultImage;
    }
    if image == "" {
      return None;
    }
    var mode := spec.mode;
    if mode == "" {
      mode := "exact";
    }
    if mode != "exact" && mode != "additive" {
      return None;
    }
    var backoffLimit := 1;
    if spec.settings.backoffLimit.Some? {
      backoffLimit := spec.settings.backoffLimit.value;
    }
    var ttl := 3600;
    if spec.settings.ttl.Some? {
      ttl := spec.settings.ttl.value;
    }
    var resources := spec.settings.resources;
    if resources.requests.None? && resources.limits.None? {
      resources := DEFAULT_RESOURCES;
    }
    var pod := BuildPod(spec, mode);
    if pod.None? {
      return None;
    }
    var meta := BuildMeta(m, trigger, revision, hash, lower);
    RuntimeMeetsSettings(spec, defaultImage);
    return Some(SyncJob(
      meta,
      Runtime(image, backoffLimit, ttl, spec.settings.deadline,
              OrElse(spec.settings.serviceAccount, "git-mirror-sync"), resources),
      pod.value));
  }

  /** Environment, mounts and volumes. */
  method BuildPod(spec: Spec, mode: string) returns (pod: Option<Pod>)
    requires mode == EffectiveMode(spec) && (mode == "exact" || mode == "additive")
    ensures forall defaultImage :: OrElse(spec.image, defaultImage) != "" ==> pod == PodFor(spec, defaultImage)
  {
    var env := [EnvVar(SourceURL, Literal(spec.source.url)),
                EnvVar(TargetURL, Literal(spec.target.url)),
                EnvVar(MirrorMode, Literal(mode))];
    if mode == "additive" {
      env := env + [EnvVar(IncludeTags, Literal(FormatBool(spec.includeTags)))];
    }
    env := env + [EnvVar(KnownHostsPath, Literal(KNOWN_HOSTS_FILE)), EnvVar(Home, Literal("/tmp"))];
    assert env == HeadEnv(spec);
    var source := EndpointAuthPart(Source, spec.source);
    if source.None? {
      return None;
    }
    var target := EndpointAuthPart(Target, spec.target);
    if target.None? {
      return None;
    }
    env := env + source.value.env;
    env := env + target.value.env;
    var mounts := source.value.mounts + target.value.mounts;
    var volumes := source.value.volumes + target.value.volumes;
    var knownHostsName, knownHostsKey := spec.settings.knownHostsName, spec.settings.knownHostsKey;
    if knownHostsName == "" {
      knownHostsName := "git-mirror-known-hosts";
    }
    if knownHostsKey == "" {
      knownHostsKey := "known_hosts";
    }
    var fixed := [Volume(KnownHosts, ConfigMapFile(knownHostsName, knownHostsKey, "known_hosts")),
                  Volume(Tmp, EmptyDir)];
    return Some(Pod(env, mounts + FIXED_MOUNTS, volumes + fixed));
  }

  /******* The container's environment *******/

  type Secrets = SecretKeyRef -> string

  function ValueText(v: EnvValue, secrets: Secrets): string {
    match v
    case Literal(text) => text
    case FromSecret(ref) => secrets(ref)
  }

  /** os.Getenv in the container: the last variable spelled that way, or the empty string. */
  function Getenv(env: seq<EnvVar>, secrets: Secrets, name: string): string {
    if env == [] then ""
    else if EnvText(env[|env| - 1].name) == name then ValueText(env[|env| - 1].value, secrets)
    else Getenv(env[..|env| - 1], secrets, name)
  }

  function OrElse(value: string, fallback: string): string { if value != "" then value else fallback }

  function ParseBool(s: string): Option<bool> {
    if s in ["1", "t", "T", "TRUE", "true", "True"] then Some(true)
    else if s in ["0", "f", "F", "FALSE", "false", "False"] then Some(false)
    else None
  }

  function EnvBool(value: string, fallback: bool): bool {
    if value == "" || ParseBool(value).None? then fallback else ParseBool(value).value
  }

  function EndpointAuthFromEnv(env: seq<EnvVar>, secrets: Secrets, side: Side): EndpointAuth {
    var get := (suffix: Suffix) => Getenv(env, secrets, EnvText(Of(side, suffix)));
    EndpointAuth(
      if get(AuthType) == "" && get(SSHKeyPath) != "" then SSH else get(AuthType),
      get(SSHKeyPath), get(AuthUsername), get(AuthPassword), get(AppID), get(AppInstallationID),
      get(AppPrivateKeyPath), OrElse(get(AppAPIURL), DEFAULT_API_URL))
  }

  function ConfigFromEnv(env: seq<EnvVar>, secrets: Secrets): Config {
    var get := (n: EnvName) => Getenv(env, secrets, EnvText(n));
    Config(
      get(SourceURL), get(TargetURL), OrElse(get(MirrorMode), "exact"), EnvBool(get(IncludeTags), true),
      EndpointAuthFromEnv(env, secrets, Source), EndpointAuthFromEnv(env, secrets, Target),
      get(KnownHostsPath), "")
  }

  /******* Spellings are distinct *******/

  /** Length, first and thirteenth character tell all variable names apart. */
  function EnvSignature(n: EnvName): (int, char, char) {
    match n
    case SourceURL => (10, 'S', ' ')
    case TargetURL => (10, 'T', ' ')
    case MirrorMode => (11, 'M', ' ')
    case IncludeTags => (12, 'I', ' ')
    case KnownHostsPath => (16, 'K', 'P')
    case Home => (4, 'H', ' ')
    case Of(side, suffix) =>
      var c := if side == Source then 'S' else 'T';
      match suffix
      case AuthType => (16, c, 'T')
      case SSHKeyPath => (19, c, 'E')
      case AuthUsername => (20, c, 'U')
      case AuthPassword => (20, c, 'P')
      case AppID => (20, c, 'B')
      case AppInstallationID => (33, c, 'B')
      case AppPrivateKeyPath => (34, c, 'B')
      case AppAPIURL => (25, c, 'B')
  }

  lemma EnvSignatureCorrect(n: EnvName)
    ensures var s := EnvText(n);
            |s| > 0 && EnvSignature(n) == (|s|, s[0], if |s| > 12 then s[12] else ' ')
  {
    if n.Of? {
      var p, q := SideText(n.side), SuffixText(n.suffix);
      assert EnvText(n)[12] == q[5];
    }
  }

  lemma SignatureInjective(a: EnvName, b: EnvName)
    requires EnvSignature(a) == EnvSignature(b)
    ensures a == b
  {}

  lemma EnvTextInjective(a: EnvName, b: EnvName)
    requires EnvText(a) == EnvText(b)
    ensures a == b
  {
    EnvSignatureCorrect(a);
    EnvSignatureCorrect(b);
    SignatureInjective(a, b);
  }

  lemma VolumeTextInjective(a: VolumeName, b: VolumeName)
    requires VolumeText(a) == VolumeText(b)
    ensures a == b
  {
    assert VolumeText(a)[0] == VolumeText(b)[0] && |VolumeText(a)| == |VolumeText(b)|;
  }

  /******* Looking variables up *******/

  predicate NamesDistinct(env: seq<EnvVar>) {
    forall i, j :: 0 <= i < j < |env| ==> env[i].name != env[j].name
  }

  /** The same lookup by constructor instead of by spelling. */
  function Lookup(env: seq<EnvVar>, secrets: Secrets, n: EnvName): string {
    if env == [] then ""
    else if env[|env| - 1].name == n then ValueText(env[|env| - 1].value, secrets)
    else Lookup(env[..|env| - 1], secrets, n)
  }

  /** Distinct spellings make the two lookups agree. */
  lemma {:induction false} GetenvFinds(env: seq<EnvVar>, secrets: Secrets, n: EnvName)
    ensures Getenv(env, secrets, EnvText(n)) == Lookup(env, secrets, n)
    decreases |env|
  {
    if env != [] {
      var last := env[|env| - 1].name;
      if EnvText(last) == EnvText(n) {
        EnvTextInjective(last, n);
      }
      GetenvFinds(env[..|env| - 1], secrets, n);
    }
  }

  predicate Mentions(env: seq<EnvVar>, n: EnvName) {
    exists i :: 0 <= i < |env| && env[i].name == n
  }

  lemma {:induction false} LookupAt(env: seq<EnvVar>, secrets: Secrets, k: nat)
    requires k < |env| && NamesDistinct(env)
    ensures Lookup(env, secrets, env[k].name) == ValueText(env[k].value, secrets)
    decreases |env|
  {
    if k < |env| - 1 {
      LookupAt(env[..|env| - 1], secrets, k);
    }
  }

  lemma {:induction false} LookupAbsent(env: seq<EnvVar>, secrets: Secrets, n: EnvName)
    requires !Mentions(env, n)
    ensures Lookup(env, secrets, n) == ""
    decreases |env|
  {
    if env != [] {
      assert env[|env| - 1].name != n;
      LookupAbsent(env[..|env| - 1], secrets, n);
    }
  }
}
