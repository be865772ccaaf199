/**
 The cross-file contract of the pipeline: what the Job builder writes is what the sync runner
 reads, for every spec the builder accepts; and every Job it builds is well formed.
 */
module Pipeline {
  import opened Base
  import opened Commands
  import opened Credentials
  import opened CredentialUse
  import opened GitSync
  import opened JobBuilder
  import opened Metadata
  import opened Names

  /******* What a spec denotes, independently of any encoding *******/

  /** The credentials an endpoint asks the runner to use. */
  function DenotedAuth(side: Side, e: Endpoint, secrets: Secrets): EndpointAuth
    requires EndpointPart(side, e).Some?
  {
    var none := EndpointAuth(AuthKind(e), "", "", "", "", "", "", DEFAULT_API_URL);
    if AuthKind(e) == SSH then none.(sshKeyPath := SSHKeyFile(side))
    else if AuthKind(e) == BASIC then
      none.(username := secrets(e.auth.value.basic.value.username),
            password := secrets(e.auth.value.basic.value.password))
    else
      var app := e.auth.value.githubApp.value;
      none.(githubAppID := secrets(app.appID),
            githubAppInstallationID := secrets(app.installationID),
            githubAppPrivateKeyPath := AppKeyFile(side),
            githubAppAPIURL := OrElse(app.apiURL, DEFAULT_API_URL))
  }

  /** The commands the documentation gives for a spec, run in the default repository path. */
  function DenotedCommands(spec: Spec): Option<seq<Command>> {
    var repo, target := DEFAULT_REPO_PATH, spec.target.url;
    var clone := CloneCommand(spec.source.url, repo);
    if spec.source.url == "" || target == "" then None
    else if spec.mode == "additive" && spec.includeTags then
      Some([clone, PushCommand(repo, false, target, HEADS_SPEC), PushCommand(repo, false, target, TAGS_SPEC)])
    else if spec.mode == "additive" then
      Some([clone, PushCommand(repo, false, target, HEADS_SPEC)])
    else
      Some([clone, PushCommand(repo, true, target, FORCE_HEADS_SPEC), PushCommand(repo, true, target, FORCE_TAGS_SPEC)])
  }

  /******* Shape of the parts *******/

  function PartEnv(side: Side, e: Endpoint): seq<EnvVar>
    requires EndpointPart(side, e).Some?
  {
    EndpointPart(side, e).value.env
  }

  predicate OfSide(v: EnvVar, side: Side) {
    v.name.Of? && v.name.side == side
  }

  lemma PartShape(side: Side, e: Endpoint)
    requires EndpointPart(side, e).Some?
    ensures var p := EndpointPart(side, e).value;
            NamesDistinct(p.env) && forall i :: 0 <= i < |p.env| ==> OfSide(p.env[i], side)
  {}

  lemma HeadShape(spec: Spec)
    ensures NamesDistinct(HeadEnv(spec)) && forall i :: 0 <= i < |HeadEnv(spec)| ==> !HeadEnv(spec)[i].name.Of?
  {}

  /** Three stretches with distinct names, of which no two can share one. */
  lemma ConcatDistinct(h: seq<EnvVar>, s: seq<EnvVar>, t: seq<EnvVar>)
    requires NamesDistinct(h) && NamesDistinct(s) && NamesDistinct(t)
    requires forall i :: 0 <= i < |h| ==> !h[i].name.Of?
    requires forall i :: 0 <= i < |s| ==> OfSide(s[i], Source)
    requires forall i :: 0 <= i < |t| ==> OfSide(t[i], Target)
    ensures NamesDistinct(h + s + t)
  {
    var env := h + s + t;
    forall i, j | 0 <= i < j < |env| ensures env[i].name != env[j].name {
      assert i < |h| ==> env[i] == h[i];
      assert |h| <= i < |h| + |s| ==> env[i] == s[i - |h|];
      assert |h| + |s| <= i ==> env[i] == t[i - |h| - |s|];
      assert j < |h| ==> env[j] == h[j];
      assert |h| <= j < |h| + |s| ==> env[j] == s[j - |h|];
      assert |h| + |s| <= j ==> env[j] == t[j - |h| - |s|];
    }
  }

  /** The variables of every built Job have pairwise distinct names. */
  lemma JobEnvDistinct(spec: Spec, image: string)
    requires PodFor(spec, image).Some?
    ensures NamesDistinct(PodFor(spec, image).value.env)
  {
    HeadShape(spec);
    PartShape(Source, spec.source);
    PartShape(Target, spec.target);
    ConcatDistinct(HeadEnv(spec), PartEnv(Source, spec.source), PartEnv(Target, spec.target));
  }

  /******* Decoding *******/

  lemma StretchDistinct(env: seq<EnvVar>, lo: nat, part: seq<EnvVar>)
    requires NamesDistinct(env) && lo + |part| <= |env| && env[lo..lo + |part|] == part
    ensures NamesDistinct(part) && forall i :: 0 <= i < |part| ==> part[i] == env[lo + i]
  {
    assert forall i :: 0 <= i < |part| ==> part[i] == env[lo + i];
  }

  /** A lookup in the whole environment is a lookup in the stretch that can mention the name. */
  lemma LookupStretch(env: seq<EnvVar>, lo: nat, part: seq<EnvVar>, secrets: Secrets, n: EnvName)
    requires NamesDistinct(env) && lo + |part| <= |env| && env[lo..lo + |part|] == part
    requires forall i :: 0 <= i < |env| && env[i].name == n ==> lo <= i < lo + |part|
    ensures Lookup(env, secrets, n) == Lookup(part, secrets, n)
  {
    StretchDistinct(env, lo, part);
    if k :| 0 <= k < |part| && part[k].name == n {
      LookupAt(part, secrets, k);
      LookupAt(env, secrets, lo + k);
    } else {
      NotMentioned(env, lo, part, n);
      LookupAbsent(part, secrets, n);
      LookupAbsent(env, secrets, n);
    }
  }

  lemma NotMentioned(env: seq<EnvVar>, lo: nat, part: seq<EnvVar>, n: EnvName)
    requires lo + |part| <= |env| && forall i :: 0 <= i < |part| ==> part[i] == env[lo + i]
    requires forall i :: 0 <= i < |env| && env[i].name == n ==> lo <= i < lo + |part|
    requires !Mentions(part, n)
    ensures !Mentions(env, n)
  {
    forall i | 0 <= i < |env| ensures env[i].name != n {
      assert lo <= i < lo + |part| ==> part[i - lo] == env[i];
    }
  }

  /** An endpoint's credentials, read by constructor. */
  function AuthByName(env: seq<EnvVar>, secrets: Secrets, side: Side): EndpointAuth {
    var get := (suffix: Suffix) => Lookup(env, secrets, Of(side, suffix));
    EndpointAuth(
      if get(AuthType) == "" && get(SSHKeyPath) != "" then SSH else get(AuthType),
      get(SSHKeyPath), get(AuthUsername), get(AuthPassword), get(AppID), get(AppInstallationID),
      get(AppPrivateKeyPath), OrElse(get(AppAPIURL), DEFAULT_API_URL))
  }

  lemma AuthFound(env: seq<EnvVar>, secrets: Secrets, side: Side)
    ensures EndpointAuthFromEnv(env, secrets, side) == AuthByName(env, secrets, side)
  {
    GetenvFinds(env, secrets, Of(side, AuthType));
    GetenvFinds(env, secrets, Of(side, SSHKeyPath));
    GetenvFinds(env, secrets, Of(side, AuthUsername));
    GetenvFinds(env, secrets, Of(side, AuthPassword));
    GetenvFinds(env, secrets, Of(side, AppID));
    GetenvFinds(env, secrets, Of(side, AppInstallationID));
    GetenvFinds(env, secrets, Of(side, AppPrivateKeyPath));
    GetenvFinds(env, secrets, Of(side, AppAPIURL));
  }

  lemma PartDecodes(side: Side, e: Endpoint, secrets: Secrets)
    requires EndpointPart(side, e).Some?
    ensures AuthByName(EndpointPart(side, e).value.env, secrets, side) == DenotedAuth(side, e, secrets)
  {
    PartShape(side, e);
    var env := EndpointPart(side, e).value.env;
    LookupAt(env, secrets, 0);
    LookupAt(env, secrets, 1);
    if AuthKind(e) == SSH {
      LookupAbsent(env, secrets, Of(side, AuthUsername));
      LookupAbsent(env, secrets, Of(side, AuthPassword));
      LookupAbsent(env, secrets, Of(side, AppID));
      LookupAbsent(env, secrets, Of(side, AppInstallationID));
      LookupAbsent(env, secrets, Of(side, AppPrivateKeyPath));
      LookupAbsent(env, secrets, Of(side, AppAPIURL));
    } else if AuthKind(e) == BASIC {
      LookupAt(env, secrets, 2);
      LookupAbsent(env, secrets, Of(side, SSHKeyPath));
      LookupAbsent(env, secrets, Of(side, AppID));
      LookupAbsent(env, secrets, Of(side, AppInstallationID));
      LookupAbsent(env, secrets, Of(side, AppPrivateKeyPath));
      LookupAbsent(env, secrets, Of(side, AppAPIURL));
    } else {
      LookupAt(env, secrets, 2);
      LookupAt(env, secrets, 3);
      LookupAbsent(env, secrets, Of(side, SSHKeyPath));
      LookupAbsent(env, secrets, Of(side, AuthUsername));
      LookupAbsent(env, secrets, Of(side, AuthPassword));
      if |env| == 5 {
        LookupAt(env, secrets, 4);
      } else {
        LookupAbsent(env, secrets, Of(side, AppAPIURL));
      }
    }
  }

  /** The endpoint read from the whole environment is the endpoint read from its own part. */
  lemma EndpointDecodes(env: seq<EnvVar>, lo: nat, part: seq<EnvVar>, secrets: Secrets, side: Side)
    requires NamesDistinct(env) && lo + |part| <= |env| && env[lo..lo + |part|] == part
    requires forall i :: 0 <= i < |env| && OfSide(env[i], side) ==> lo <= i < lo + |part|
    ensures AuthByName(env, secrets, side) == AuthByName(part, secrets, side)
  {
    LookupStretch(env, lo, part, secrets, Of(side, AuthType));
    LookupStretch(env, lo, part, secrets, Of(side, SSHKeyPath));
    LookupStretch(env, lo, part, secrets, Of(side, AuthUsername));
    LookupStretch(env, lo, part, secrets, Of(side, AuthPassword));
    LookupStretch(env, lo, part, secrets, Of(side, AppID));
    LookupStretch(env, lo, part, secrets, Of(side, AppInstallationID));
    LookupStretch(env, lo, part, secrets, Of(side, AppPrivateKeyPath));
    LookupStretch(env, lo, part, secrets, Of(side, AppAPIURL));
  }

  lemma BoolRoundTrip(b: bool)
    ensures FormatBool(b) != "" && ParseBool(FormatBool(b)) == Some(b)
  {}

  lemma HeadDecodes(spec: Spec, secrets: Secrets)
    ensures var env := HeadEnv(spec);
            && Lookup(env, secrets, SourceURL) == spec.source.url
            && Lookup(env, secrets, TargetURL) == spec.target.url
            && Lookup(env, secrets, MirrorMode) == EffectiveMode(spec)
            && Lookup(env, secrets, KnownHostsPath) == KNOWN_HOSTS_FILE
            && EnvBool(Lookup(env, secrets, IncludeTags), true) ==
               (EffectiveMode(spec) == "additive" ==> spec.includeTags)
  {
    HeadShape(spec);
    var env := HeadEnv(spec);
    LookupAt(env, secrets, 0);
    LookupAt(env, secrets, 1);
    LookupAt(env, secrets, 2);
    LookupAt(env, secrets, |env| - 2);
    BoolRoundTrip(spec.includeTags);
    if EffectiveMode(spec) == "additive" {
      assert env[3].name == IncludeTags;
      LookupAt(env, secrets, 3);
    } else {
      LookupAbsent(env, secrets, IncludeTags);
    }
  }

  /** The whole configuration, read by constructor. */
  function ConfigByName(env: seq<EnvVar>, secrets: Secrets): Config {
    Config(
      Lookup(env, secrets, SourceURL), Lookup(env, secrets, TargetURL),
      OrElse(Lookup(env, secrets, MirrorMode), "exact"), EnvBool(Lookup(env, secrets, IncludeTags), true),
      AuthByName(env, secrets, Source), AuthByName(env, secrets, Target),
      Lookup(env, secrets, KnownHostsPath), "")
  }

  lemma ConfigFound(env: seq<EnvVar>, secrets: Secrets)
    ensures ConfigFromEnv(env, secrets) == ConfigByName(env, secrets)
  {
    GetenvFinds(env, secrets, SourceURL);
    GetenvFinds(env, secrets, TargetURL);
    GetenvFinds(env, secrets, MirrorMode);
    GetenvFinds(env, secrets, IncludeTags);
    GetenvFinds(env, secrets, KnownHostsPath);
    AuthFound(env, secrets, Source);
    AuthFound(env, secrets, Target);
  }

  /** Where the three stretches of a Job's environment lie, and which names each can mention. */
  lemma Layout(spec: Spec, image: string)
    requires PodFor(spec, image).Some?
    ensures var env := PodFor(spec, image).value.env;
            var h, s, t := HeadEnv(spec), PartEnv(Source, spec.source), PartEnv(Target, spec.target);
            && |env| == |h| + |s| + |t|
            && env[0..|h|] == h && env[|h|..|h| + |s|] == s && env[|h| + |s|..|h| + |s| + |t|] == t
            && forall i :: 0 <= i < |env| ==>
                 && (!env[i].name.Of? ==> i < |h|)
                 && (OfSide(env[i], Source) ==> |h| <= i < |h| + |s|)
                 && (OfSide(env[i], Target) ==> |h| + |s| <= i)
  {
    var h, s, t := HeadEnv(spec), PartEnv(Source, spec.source), PartEnv(Target, spec.target);
    var env := h + s + t;
    HeadShape(spec);
    PartShape(Source, spec.source);
    PartShape(Target, spec.target);
    forall i | 0 <= i < |env|
      ensures !env[i].name.Of? ==> i < |h|
      ensures OfSide(env[i], Source) ==> |h| <= i < |h| + |s|
      ensures OfSide(env[i], Target) ==> |h| + |s| <= i
    {
      assert i < |h| ==> env[i] == h[i];
      assert |h| <= i < |h| + |s| ==> env[i] == s[i - |h|];
      assert |h| + |s| <= i ==> env[i] == t[i - |h| - |s|];
    }
  }

  lemma HeadLookups(spec: Spec, image: string, secrets: Secrets)
    requires PodFor(spec, image).Some?
    ensures var env, h := PodFor(spec, image).value.env, HeadEnv(spec);
            && Lookup(env, secrets, SourceURL) == Lookup(h, secrets, SourceURL)
            && Lookup(env, secrets, TargetURL) == Lookup(h, secrets, TargetURL)
            && Lookup(env, secrets, MirrorMode) == Lookup(h, secrets, MirrorMode)
            && Lookup(env, secrets, IncludeTags) == Lookup(h, secrets, IncludeTags)
            && Lookup(env, secrets, KnownHostsPath) == Lookup(h, secrets, KnownHostsPath)
  {
    Layout(spec, image);
    JobEnvDistinct(spec, image);
    var env, h := PodFor(spec, image).value.env, HeadEnv(spec);
    LookupStretch(env, 0, h, secrets, SourceURL);
    LookupStretch(env, 0, h, secrets, TargetURL);
    LookupStretch(env, 0, h, secrets, MirrorMode);
    LookupStretch(env, 0, h, secrets, IncludeTags);
    LookupStretch(env, 0, h, secrets, KnownHostsPath);
  }

  lemma SourceLookups(spec: Spec, image: string, secrets: Secrets)
    requires PodFor(spec, image).Some?
    ensures AuthByName(PodFor(spec, image).value.env, secrets, Source) == DenotedAuth(Source, spec.source, secrets)
  {
    Layout(spec, image);
    JobEnvDistinct(spec, image);
    var env, s := PodFor(spec, image).value.env, PartEnv(Source, spec.source);
    EndpointDecodes(env, |HeadEnv(spec)|, s, secrets, Source);
    PartDecodes(Source, spec.source, secrets);
  }

  lemma TargetLookups(spec: Spec, image: string, secrets: Secrets)
    requires PodFor(spec, image).Some?
    ensures AuthByName(PodFor(spec, image).value.env, secrets, Target) == DenotedAuth(Target, spec.target, secrets)
  {
    Layout(spec, image);
    JobEnvDistinct(spec, image);
    var env, s, t := PodFor(spec, image).value.env, PartEnv(Source, spec.source), PartEnv(Target, spec.target);
    EndpointDecodes(env, |HeadEnv(spec)| + |s|, t, secrets, Target);
    PartDecodes(Target, spec.target, secrets);
  }

  /**
   Round trip: for every accepted spec, the runner reads from the Job's environment the
   spec's URLs, effective mode and tag setting and both endpoints' credentials, and so runs
   exactly the commands the spec denotes.
   */
  lemma SpecRoundTrip(spec: Spec, image: string, secrets: Secrets)
    requires PodFor(spec, image).Some?
    ensures var cfg := ConfigFromEnv(PodFor(spec, image).value.env, secrets);
            && cfg == Config(spec.source.url, spec.target.url, EffectiveMode(spec),
                             EffectiveMode(spec) == "additive" ==> spec.includeTags,
                             DenotedAuth(Source, spec.source, secrets), DenotedAuth(Target, spec.target, secrets),
                             KNOWN_HOSTS_FILE, "")
            && GitCommands(cfg) == DenotedCommands(spec)
  {
    var env := PodFor(spec, image).value.env;
    ConfigFound(env, secrets);
    HeadLookups(spec, image, secrets);
    HeadDecodes(spec, secrets);
    SourceLookups(spec, image, secrets);
    TargetLookups(spec, image, secrets);
    DenotedCommandsBuilt(spec, ConfigByName(env, secrets));
  }

  /** An endpoint whose credentials the runner will accept: what the operator has to see to. */
  predicate EndpointUsable(e: Endpoint, secrets: Secrets, p: Preparation, https: string -> bool) {
    if AuthKind(e) == SSH then p.ok && p.result != ""
    else if AuthKind(e) == BASIC && e.auth.Some? && e.auth.value.basic.Some? then
      var basic := e.auth.value.basic.value;
      https(e.url) && secrets(basic.username) != "" && secrets(basic.password) != ""
    else AuthKind(e) == GITHUB_APP && https(e.url) && p.ok && p.result != ""
  }

  lemma DenotedUsable(side: Side, e: Endpoint, secrets: Secrets, p: Preparation, https: string -> bool)
    requires EndpointPart(side, e).Some?
    ensures Usable(DenotedAuth(side, e, secrets), e.url, p, https) == EndpointUsable(e, secrets, p, https)
  {}

  /**
   The runner of an accepted spec gets past its checks exactly when both endpoints are usable,
   and then still builds the commands the spec denotes.
   */
  lemma RunnerStartsExactly(spec: Spec, image: string, secrets: Secrets,
                            source: Preparation, target: Preparation, https: string -> bool)
    requires PodFor(spec, image).Some?
    ensures var cfg := Prepared(ConfigFromEnv(PodFor(spec, image).value.env, secrets), source, target, https);
            && (cfg.Some? <==> EndpointUsable(spec.source, secrets, source, https)
                               && EndpointUsable(spec.target, secrets, target, https))
            && (cfg.Some? ==> GitCommands(cfg.value) == DenotedCommands(spec))
  {
    var cfg := ConfigFromEnv(PodFor(spec, image).value.env, secrets);
    SpecRoundTrip(spec, image, secrets);
    DenotedUsable(Source, spec.source, secrets, source, https);
    DenotedUsable(Target, spec.target, secrets, target, https);
    PreparedExactly(cfg, source, target, https);
    if Prepared(cfg, source, target, https).Some? {
      PreparedCommands(cfg, source, target, https);
    }
  }

  lemma DenotedCommandsBuilt(spec: Spec, cfg: Config)
    requires cfg.sourceURL == spec.source.url && cfg.targetURL == spec.target.url && cfg.repoPath == ""
    requires cfg.mirrorMode == EffectiveMode(spec) && (cfg.mirrorMode == "exact" || cfg.mirrorMode == "additive")
    requires cfg.includeTags == (EffectiveMode(spec) == "additive" ==> spec.includeTags)
    ensures GitCommands(cfg) == DenotedCommands(spec)
  {
    if spec.source.url != "" && spec.target.url != "" {
      assert GitCommands(cfg).value == DenotedCommands(spec).value;
    }
  }

  /** What each side's variables, given or not, say about its credentials. */
  predicate ReadsSide(auth: EndpointAuth, env: seq<EnvVar>, secrets: Secrets, side: Side) {
    var get := (suffix: Suffix) => Getenv(env, secrets, EnvText(Of(side, suffix)));
    && auth.kind == (if get(AuthType) == "" && get(SSHKeyPath) != "" then "ssh" else get(AuthType))
    && auth.sshKeyPath == get(SSHKeyPath)
    && auth.username == get(AuthUsername) && auth.password == get(AuthPassword)
    && auth.githubAppID == get(AppID) && auth.githubAppInstallationID == get(AppInstallationID)
    && auth.githubAppPrivateKeyPath == get(AppPrivateKeyPath)
    && auth.githubAppAPIURL == (if get(AppAPIURL) == "" then "https://api.github.com" else get(AppAPIURL))
  }

  lemma TagsRead(value: string)
    ensures EnvBool(value, true) <==> value !in ["0", "f", "F", "false", "FALSE", "False"]
  {}

  /** In any environment: a bare key path means ssh, no mode exact, and tags are included unless refused. */
  lemma AnyEnvironment(env: seq<EnvVar>, secrets: Secrets)
    ensures var cfg := ConfigFromEnv(env, secrets);
            var mode, tags := Getenv(env, secrets, "MIRROR_MODE"), Getenv(env, secrets, "INCLUDE_TAGS");
            var source := ReadsSide(cfg.sourceAuth, env, secrets, Source);
            var target := ReadsSide(cfg.targetAuth, env, secrets, Target);
            && source && target
            && cfg.sourceURL == Getenv(env, secrets, "SOURCE_URL")
            && cfg.targetURL == Getenv(env, secrets, "TARGET_URL")
            && cfg.knownHostsPath == Getenv(env, secrets, "KNOWN_HOSTS_PATH")
            && cfg.mirrorMode == (if mode == "" then "exact" else mode)
            && (cfg.includeTags <==> tags !in ["0", "f", "F", "false", "FALSE", "False"])
  {
    TagsRead(Getenv(env, secrets, "INCLUDE_TAGS"));
  }

  /******* Well-formed Jobs *******/

  /** The validation rules of the custom resource on one endpoint. */
  predicate EndpointValid(e: Endpoint) {
    && (e.auth.Some? || e.sshSecretRef.Some?)
    && (e.auth.Some? ==>
          var a := e.auth.value;
          && a.kind in [SSH, BASIC, GITHUB_APP]
          && (a.kind == SSH <==> a.ssh.Some?)
          && (a.kind == BASIC <==> a.basic.Some?)
          && (a.kind == GITHUB_APP <==> a.githubApp.Some?))
  }

  predicate SpecValid(spec: Spec) {
    EndpointValid(spec.source) && EndpointValid(spec.target) && spec.mode in ["", "exact", "additive"]
  }

  /** Every spec the resource validation admits is accepted, given an image. */
  lemma ValidSpecsAccepted(spec: Spec, image: string)
    requires SpecValid(spec) && (spec.image != "" || image != "")
    ensures PodFor(spec, image).Some?
  {}

  predicate EndsWith(s: string, tail: string) {
    |s| >= |tail| && s[|s| - |tail|..] == tail
  }

  /** The volume has the spelling the mount refers to. */
  predicate Refers(v: Volume, m: Mount) {
    VolumeText(v.name) == VolumeText(m.volume)
  }

  /** Exactly one volume of the Job has the spelling of the mount's volume. */
  predicate OneVolume(pod: Pod, m: Mount) {
    exists i :: 0 <= i < |pod.volumes| && Refers(pod.volumes[i], m)
                && forall j :: 0 <= j < |pod.volumes| && Refers(pod.volumes[j], m) ==> j == i
  }

  predicate IsPathVar(n: EnvName) {
    n == KnownHostsPath || (n.Of? && (n.suffix == SSHKeyPath || n.suffix == AppPrivateKeyPath))
  }

  /** The variables whose name ends in _PATH are these and no others. */
  lemma PathVars(n: EnvName)
    ensures EndsWith(EnvText(n), "_PATH") <==> IsPathVar(n)
  {
    var s := EnvText(n);
    LastLetter(n);
    assert EndsWith(s, "_PATH") ==> s[|s| - 5..][4] == s[|s| - 1];
    if IsPathVar(n) {
      if n.Of? {
        var q := SuffixText(n.suffix);
        assert s[|s| - 5..] == q[|q| - 5..] == "_PATH";
      } else {
        assert s[|s| - 5..] == "_PATH";
      }
    }
  }

  /** Only the path variables end in H. */
  lemma LastLetter(n: EnvName)
    ensures var s := EnvText(n); |s| >= 4 && (s[|s| - 1] == 'H' <==> IsPathVar(n))
  {
    if n.Of? {
      var s, q := EnvText(n), SuffixText(n.suffix);
      assert s[|s| - 1] == q[|q| - 1];
    }
  }

  predicate MountedAt(pod: Pod, path: string) {
    exists i :: 0 <= i < |pod.mounts| && pod.mounts[i].path == path
  }

  lemma PartMounts(side: Side, e: Endpoint)
    requires EndpointPart(side, e).Some?
    ensures var p := EndpointPart(side, e).value;
            && |p.mounts| == |p.volumes| <= 1
            && (forall i :: 0 <= i < |p.mounts| ==> p.mounts[i].volume == p.volumes[i].name)
            && (forall i :: 0 <= i < |p.volumes| ==>
                  p.volumes[i].name == SSHKey(side) || p.volumes[i].name == AppKey(side))
            && (forall i :: 0 <= i < |p.env| && IsPathVar(p.env[i].name) ==>
                  p.env[i].value.Literal? && |p.mounts| == 1 && p.mounts[0].path == p.env[i].value.text)
  {}

  /** The volumes of a Job have distinct spellings. */
  lemma VolumesDistinct(spec: Spec, image: string, i: nat, j: nat)
    requires PodFor(spec, image).Some?
    requires var vs := PodFor(spec, image).value.volumes;
             i < |vs| && j < |vs| && VolumeText(vs[i].name) == VolumeText(vs[j].name)
    ensures i == j
  {
    PartMounts(Source, spec.source);
    PartMounts(Target, spec.target);
    var vs := PodFor(spec, image).value.volumes;
    VolumeTextInjective(vs[i].name, vs[j].name);
  }

  /**
   Every built Job is well formed: variable names are spelled pairwise differently, each mount
   refers to exactly one volume, and every variable whose name ends in _PATH holds the path of
   a mount.
   */
  lemma JobWellFormed(spec: Spec, image: string)
    requires PodFor(spec, image).Some?
    ensures var pod := PodFor(spec, image).value;
            && (forall i, j :: 0 <= i < j < |pod.env| ==> EnvText(pod.env[i].name) != EnvText(pod.env[j].name))
            && (forall i :: 0 <= i < |pod.mounts| ==> OneVolume(pod, pod.mounts[i]))
            && (forall i :: 0 <= i < |pod.env| && EndsWith(EnvText(pod.env[i].name), "_PATH") ==>
                  pod.env[i].value.Literal? && MountedAt(pod, pod.env[i].value.text))
  {
    var pod := PodFor(spec, image).value;
    JobEnvDistinct(spec, image);
    forall i, j | 0 <= i < j < |pod.env| ensures EnvText(pod.env[i].name) != EnvText(pod.env[j].name) {
      if EnvText(pod.env[i].name) == EnvText(pod.env[j].name) {
        EnvTextInjective(pod.env[i].name, pod.env[j].name);
      }
    }
    forall i | 0 <= i < |pod.mounts| ensures OneVolume(pod, pod.mounts[i]) {
      MountHasVolume(spec, image, i);
    }
    forall i | 0 <= i < |pod.env| && EndsWith(EnvText(pod.env[i].name), "_PATH")
      ensures pod.env[i].value.Literal? && MountedAt(pod, pod.env[i].value.text)
    {
      PathVars(pod.env[i].name);
      PathMounted(spec, image, i);
    }
  }

  /** Mounts and volumes go together one by one. */
  lemma MountsAligned(spec: Spec, image: string)
    requires PodFor(spec, image).Some?
    ensures var pod := PodFor(spec, image).value;
            && |pod.mounts| == |pod.volumes|
            && forall i :: 0 <= i < |pod.mounts| ==> pod.volumes[i].name == pod.mounts[i].volume
  {
    PartMounts(Source, spec.source);
    PartMounts(Target, spec.target);
  }

  lemma MountHasVolume(spec: Spec, image: string, i: nat)
    requires PodFor(spec, image).Some? && i < |PodFor(spec, image).value.mounts|
    ensures OneVolume(PodFor(spec, image).value, PodFor(spec, image).value.mounts[i])
  {
    MountsAligned(spec, image);
    var pod := PodFor(spec, image).value;
    forall j | 0 <= j < |pod.volumes| && Refers(pod.volumes[j], pod.mounts[i]) ensures j == i {
      VolumesDistinct(spec, image, j, i);
    }
  }

  lemma PathMounted(spec: Spec, image: string, i: nat)
    requires PodFor(spec, image).Some? && i < |PodFor(spec, image).value.env|
    requires IsPathVar(PodFor(spec, image).value.env[i].name)
    ensures var pod := PodFor(spec, image).value;
            pod.env[i].value.Literal? && MountedAt(pod, pod.env[i].value.text)
  {
    var pod := PodFor(spec, image).value;
    var h, s, t := HeadEnv(spec), EndpointPart(Source, spec.source).value, EndpointPart(Target, spec.target).value;
    PartMounts(Source, spec.source);
    PartMounts(Target, spec.target);
    if i < |h| {
      assert pod.env[i] == h[i] && h[i].value == Literal(KNOWN_HOSTS_FILE);
      assert pod.mounts[|s.mounts| + |t.mounts|] == FIXED_MOUNTS[0];
    } else if i < |h| + |s.env| {
      assert pod.env[i] == s.env[i - |h|] && pod.mounts[0] == s.mounts[0];
    } else {
      assert pod.env[i] == t.env[i - |h| - |s.env|] && pod.mounts[|s.mounts|] == t.mounts[0];
    }
  }

  /******* What lies at a path of the container *******/

  type ConfigMaps = (string, string) -> Option<string>

  function FindMount(mounts: seq<Mount>, path: string): Option<Mount> {
    if mounts == [] then None
    else if mounts[0].path == path then Some(mounts[0])
    else FindMount(mounts[1..], path)
  }

  function FindVolume(volumes: seq<Volume>, name: string): Option<VolumeSource> {
    if volumes == [] then None
    else if VolumeText(volumes[0].name) == name then Some(volumes[0].source)
    else FindVolume(volumes[1..], name)
  }

  /** The content of a file of a volume. */
  function FileIn(source: VolumeSource, file: string, secrets: Secrets, maps: ConfigMaps): Option<string> {
    match source
    case SecretFile(secret, key, path) => if file == path then Some(secrets(SecretKeyRef(secret, key))) else None
    case ConfigMapFile(name, key, path) => if file == path then maps(name, key) else None
    case EmptyDir => None
  }

  /** What reading a path gives: through the mount at the path and the volume that the mount names. */
  function FileAt(pod: Pod, path: string, secrets: Secrets, maps: ConfigMaps): Option<string> {
    var mount := FindMount(pod.mounts, path);
    if mount.None? then None
    else
      var source := FindVolume(pod.volumes, VolumeText(mount.value.volume));
      if source.None? then None else FileIn(source.value, mount.value.subPath, secrets, maps)
  }

  predicate PathsDistinct(mounts: seq<Mount>) {
    forall i, j :: 0 <= i < j < |mounts| ==> mounts[i].path != mounts[j].path
  }

  lemma {:induction false} MountFound(mounts: seq<Mount>, k: nat)
    requires k < |mounts| && PathsDistinct(mounts)
    ensures FindMount(mounts, mounts[k].path) == Some(mounts[k])
    decreases k
  {
    if k > 0 {
      MountFound(mounts[1..], k - 1);
    }
  }

  lemma {:induction false} VolumeFound(volumes: seq<Volume>, k: nat)
    requires k < |volumes|
    requires forall j :: 0 <= j < k ==> VolumeText(volumes[j].name) != VolumeText(volumes[k].name)
    ensures FindVolume(volumes, VolumeText(volumes[k].name)) == Some(volumes[k].source)
    decreases k
  {
    if k > 0 {
      VolumeFound(volumes[1..], k - 1);
    }
  }

  /** Where a Job mounts something: paths told apart by their length and twenty-first character. */
  lemma PathTexts(side: Side)
    ensures |SSHKeyFile(side)| == 34 && |AppKeyFile(side)| == 49 && |KNOWN_HOSTS_FILE| == 43
    ensures SSHKeyFile(side)[20] == AppKeyFile(side)[20] == if side == Source then 's' else 't'
  {
    var a, p := "/var/run/git-mirror/", PathPrefix(side);
    assert |a| == 20 && SSHKeyFile(side)[20] == p[0] && AppKeyFile(side)[20] == p[0];
  }

  lemma PartPaths(side: Side, e: Endpoint)
    requires EndpointPart(side, e).Some?
    ensures var ms := EndpointPart(side, e).value.mounts;
            |ms| <= 1 && forall i :: 0 <= i < |ms| ==> ms[i].path == SSHKeyFile(side) || ms[i].path == AppKeyFile(side)
  {}

  /** No two mounts of a Job are at one path. */
  lemma MountPathsDistinct(spec: Spec, image: string)
    requires PodFor(spec, image).Some?
    ensures PathsDistinct(PodFor(spec, image).value.mounts)
  {
    PathTexts(Source);
    PathTexts(Target);
    PartPaths(Source, spec.source);
    PartPaths(Target, spec.target);
    var s, t := EndpointPart(Source, spec.source).value.mounts, EndpointPart(Target, spec.target).value.mounts;
    FourDistinct(s, t);
  }

  lemma FourDistinct(s: seq<Mount>, t: seq<Mount>)
    requires |s| <= 1 && |t| <= 1
    requires forall i :: 0 <= i < |s| ==> |s[i].path| in {34, 49} && s[i].path[20] == 's'
    requires forall i :: 0 <= i < |t| ==> |t[i].path| in {34, 49} && t[i].path[20] == 't'
    ensures PathsDistinct(s + t + FIXED_MOUNTS)
  {
    assert |FIXED_MOUNTS| == 2 && |FIXED_MOUNTS[0].path| == 43 && |FIXED_MOUNTS[1].path| == 4;
  }

  /** The k-th mount of a Job shows the file it names of the k-th volume. */
  lemma FileMounted(spec: Spec, image: string, k: nat, secrets: Secrets, maps: ConfigMaps)
    requires PodFor(spec, image).Some? && k < |PodFor(spec, image).value.mounts|
    ensures var pod := PodFor(spec, image).value;
            && |pod.volumes| == |pod.mounts|
            && FileAt(pod, pod.mounts[k].path, secrets, maps)
               == FileIn(pod.volumes[k].source, pod.mounts[k].subPath, secrets, maps)
  {
    var pod := PodFor(spec, image).value;
    MountsAligned(spec, image);
    MountPathsDistinct(spec, image);
    MountFound(pod.mounts, k);
    forall j | 0 <= j < k ensures VolumeText(pod.volumes[j].name) != VolumeText(pod.volumes[k].name) {
      if VolumeText(pod.volumes[j].name) == VolumeText(pod.volumes[k].name) {
        VolumesDistinct(spec, image, j, k);
      }
    }
    VolumeFound(pod.volumes, k);
  }

  /** The file an endpoint needs, if any, holds the value of the secret key that its spec declares. */
  predicate KeyDelivered(pod: Pod, auth: EndpointAuth, e: Endpoint, secrets: Secrets, maps: ConfigMaps) {
    && (auth.kind == "ssh" ==>
          var declared := if e.auth.Some? && e.auth.value.ssh.Some? then e.auth.value.ssh else e.sshSecretRef;
          declared.Some? && FileAt(pod, auth.sshKeyPath, secrets, maps) == Some(secrets(declared.value)))
    && (auth.kind == "githubApp" ==>
          && e.auth.Some? && e.auth.value.githubApp.Some?
          && FileAt(pod, auth.githubAppPrivateKeyPath, secrets, maps)
             == Some(secrets(e.auth.value.githubApp.value.privateKey)))
  }

  lemma PartFile(side: Side, e: Endpoint, secrets: Secrets, maps: ConfigMaps)
    requires EndpointPart(side, e).Some? && AuthKind(e) != BASIC
    ensures var p, auth := EndpointPart(side, e).value, DenotedAuth(side, e, secrets);
            && |p.mounts| == 1 == |p.volumes|
            && p.mounts[0].path == (if AuthKind(e) == SSH then auth.sshKeyPath else auth.githubAppPrivateKeyPath)
            && FileIn(p.volumes[0].source, p.mounts[0].subPath, secrets, maps)
               == Some(secrets(if AuthKind(e) == SSH then SSHRef(e).value else e.auth.value.githubApp.value.privateKey))
  {}

  lemma SideDelivered(spec: Spec, image: string, side: Side, secrets: Secrets, maps: ConfigMaps)
    requires PodFor(spec, image).Some?
    ensures var e := if side == Source then spec.source else spec.target;
            KeyDelivered(PodFor(spec, image).value, DenotedAuth(side, e, secrets), e, secrets, maps)
  {
    var pod := PodFor(spec, image).value;
    var s, t := EndpointPart(Source, spec.source).value, EndpointPart(Target, spec.target).value;
    var e := if side == Source then spec.source else spec.target;
    if AuthKind(e) != BASIC {
      PartFile(side, e, secrets, maps);
      PartMounts(Source, spec.source);
      var k := if side == Source then 0 else |s.mounts|;
      assert pod.mounts[k] == EndpointPart(side, e).value.mounts[0];
      assert pod.volumes[k] == EndpointPart(side, e).value.volumes[0];
      FileMounted(spec, image, k, secrets, maps);
    }
  }

  /**
   What the runner finds at the paths it reads from the environment of an accepted spec: the
   SSH key or the App's private key that the spec declares for that endpoint, and the known
   hosts of the ConfigMap that the spec names, by default that of the operator.
   */
  lemma FilesDelivered(spec: Spec, image: string, secrets: Secrets, maps: ConfigMaps)
    requires PodFor(spec, image).Some?
    ensures var pod := PodFor(spec, image).value;
            var cfg := ConfigFromEnv(pod.env, secrets);
            var name, key := spec.settings.knownHostsName, spec.settings.knownHostsKey;
            && KeyDelivered(pod, cfg.sourceAuth, spec.source, secrets, maps)
            && KeyDelivered(pod, cfg.targetAuth, spec.target, secrets, maps)
            && FileAt(pod, cfg.knownHostsPath, secrets, maps)
               == maps(if name == "" then "git-mirror-known-hosts" else name, if key == "" then "known_hosts" else key)
  {
    SpecRoundTrip(spec, image, secrets);
    SideDelivered(spec, image, Source, secrets, maps);
    SideDelivered(spec, image, Target, secrets, maps);
    KnownHostsDelivered(spec, image, secrets, maps);
  }

  lemma KnownHostsDelivered(spec: Spec, image: string, secrets: Secrets, maps: ConfigMaps)
    requires PodFor(spec, image).Some?
    ensures var g := spec.settings;
            FileAt(PodFor(spec, image).value, KNOWN_HOSTS_FILE, secrets, maps)
            == maps(OrElse(g.knownHostsName, "git-mirror-known-hosts"), OrElse(g.knownHostsKey, "known_hosts"))
  {
    var pod := PodFor(spec, image).value;
    var s, t := EndpointPart(Source, spec.source).value, EndpointPart(Target, spec.target).value;
    PartMounts(Source, spec.source);
    PartMounts(Target, spec.target);
    var k := |s.mounts| + |t.mounts|;
    assert pod.mounts[k] == FIXED_MOUNTS[0] && pod.volumes[k] == FixedVolumes(spec.settings)[0];
    FileMounted(spec, image, k, secrets, maps);
  }

  /** The home directory, in which the default clone lies too, is a writable directory of the Job's own. */
  lemma HomeWritable(spec: Spec, image: string, secrets: Secrets)
    requires PodFor(spec, image).Some?
    ensures var pod := PodFor(spec, image).value;
            var home := Getenv(pod.env, secrets, "HOME");
            && home + "/" <= DEFAULT_REPO_PATH
            && FindMount(pod.mounts, home).Some?
            && FindVolume(pod.volumes, VolumeText(FindMount(pod.mounts, home).value.volume)) == Some(EmptyDir)
  {
    var pod := PodFor(spec, image).value;
    var k := |pod.mounts| - 1;
    HomeValue(spec, image, secrets);
    MountsAligned(spec, image);
    MountPathsDistinct(spec, image);
    assert pod.mounts[k] == FIXED_MOUNTS[1] && pod.volumes[|pod.volumes| - 1] == FixedVolumes(spec.settings)[1];
    MountFound(pod.mounts, k);
    forall j | 0 <= j < k ensures VolumeText(pod.volumes[j].name) != VolumeText(pod.volumes[k].name) {
      if VolumeText(pod.volumes[j].name) == VolumeText(pod.volumes[k].name) {
        VolumesDistinct(spec, image, j, k);
      }
    }
    VolumeFound(pod.volumes, k);
  }

  lemma HomeValue(spec: Spec, image: string, secrets: Secrets)
    requires PodFor(spec, image).Some?
    ensures Getenv(PodFor(spec, image).value.env, secrets, "HOME") == "/tmp"
  {
    var env, h := PodFor(spec, image).value.env, HeadEnv(spec);
    JobEnvDistinct(spec, image);
    GetenvFinds(env, secrets, Home);
    assert env[|h| - 1] == h[|h| - 1];
    LookupAt(env, secrets, |h| - 1);
  }

  /******* From the spec to the remotes *******/

  /** The credentials of an endpoint, told from its spec, the secrets, and the copied key or token. */
  predicate Authenticates(auth: EndpointAuth, e: Endpoint, secrets: Secrets, p: Preparation) {
    && auth.kind == AuthKind(e)
    && (AuthKind(e) == SSH ==> auth.sshKeyPath == p.result)
    && (AuthKind(e) == BASIC ==>
          && e.auth.Some? && e.auth.value.basic.Some?
          && auth.username == secrets(e.auth.value.basic.value.username)
          && auth.password == secrets(e.auth.value.basic.value.password))
    && (AuthKind(e) == GITHUB_APP ==> auth.username == "x-access-token" && auth.password == p.result)
  }

  lemma DenotedAuthenticates(side: Side, e: Endpoint, secrets: Secrets, p: Preparation, auth: EndpointAuth)
    requires EndpointPart(side, e).Some? && Carries(auth, DenotedAuth(side, e, secrets), p)
    ensures Authenticates(auth, e, secrets, p)
  {}

  /**
   End to end: whatever remote the runner of an accepted spec contacts, it is the source's URL
   with the source endpoint's credentials, or the target's with the target endpoint's.
   */
  lemma SpecCredentials(spec: Spec, image: string, secrets: Secrets, source: Preparation, target: Preparation,
                        https: string -> bool, git: Git, anc: Ancestry, outs: seq<Outcome>, c: Contact)
    requires PodFor(spec, image).Some? && DenotedCommands(spec).Some? && |outs| == |DenotedCommands(spec).value|
    requires Plain(spec.source.url) && Plain(spec.target.url)
    requires var cfg := Prepared(ConfigFromEnv(PodFor(spec, image).value.env, secrets), source, target, https);
             cfg.Some? && c in Contacts([], git, cfg.value, DenotedCommands(spec).value, 0, anc, outs)
    ensures if c.clones then c.url == spec.source.url && Authenticates(c.auth, spec.source, secrets, source)
            else c.url == spec.target.url && Authenticates(c.auth, spec.target, secrets, target)
  {
    var raw := ConfigFromEnv(PodFor(spec, image).value.env, secrets);
    SpecRoundTrip(spec, image, secrets);
    CredentialsKept(git, raw, source, target, https, anc, outs, c);
    if c.clones {
      DenotedAuthenticates(Source, spec.source, secrets, source, c.auth);
    } else {
      DenotedAuthenticates(Target, spec.target, secrets, target, c.auth);
    }
  }

  /**
   Two built Jobs, the first for a trigger, of mirrors with slash-free namespaces and names,
   are named alike only for the same namespace, mirror and trigger, or by a hash collision.
   */
  lemma JobsNamedApart(m1: MirrorMeta, s1: Spec, i1: string, t1: string, r1: string,
                       m2: MirrorMeta, s2: Spec, i2: string, t2: string, r2: string,
                       hash: string -> string, lower: char -> char)
    requires IsHash(hash) && IsLower(lower) && t1 != ""
    requires '/' !in m1.namespace && '/' !in m1.name && '/' !in m2.namespace && '/' !in m2.name
    requires var j1, j2 := JobFor(m1, s1, i1, t1, r1, hash, lower), JobFor(m2, s2, i2, t2, r2, hash, lower);
             j1.Some? && j2.Some? && j1.value.meta.name == j2.value.meta.name
    ensures || (m1.namespace == m2.namespace && m1.name == m2.name && t1 == t2)
            || Collide(hash, m1.namespace + "/" + m1.name + "/" + t1, m2.namespace + "/" + m2.name + "/" + t2)
  {
    MetaNamedApart(m1, t1, r1, m2, t2, r2, hash, lower);
  }
}
