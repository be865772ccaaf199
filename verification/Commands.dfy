/**
 The git command lines of the sync runner (sync/main.go): how they are built from the
 configuration, and the scanners that later recover their parts from the argument lists.
 */
module Commands {
  import opened Base

  datatype EndpointAuth = EndpointAuth(
    kind: string,
    sshKeyPath: string,
    username: string,
    password: string,
    githubAppID: string,
    githubAppInstallationID: string,
    githubAppPrivateKeyPath: string,
    githubAppAPIURL: string)

  datatype Config = Config(
    sourceURL: string,
    targetURL: string,
    mirrorMode: string,
    includeTags: bool,
    sourceAuth: EndpointAuth,
    targetAuth: EndpointAuth,
    knownHostsPath: string,
    repoPath: string)

  const SSH := "ssh"
  const BASIC := "basic"
  const GITHUB_APP := "githubApp"

  const DEFAULT_REPO_PATH := "/tmp/repo.git"
  const HEADS_SPEC := "refs/heads/*:refs/heads/*"
  const TAGS_SPEC := "refs/tags/*:refs/tags/*"
  const FORCE_HEADS_SPEC := "+" + HEADS_SPEC
  const FORCE_TAGS_SPEC := "+" + TAGS_SPEC

  type Command = seq<string>

  /******* Building *******/

  function RepoPath(cfg: Config): string {
    if cfg.repoPath != "" then cfg.repoPath else DEFAULT_REPO_PATH
  }

  function Mode(cfg: Config): string {
    if cfg.mirrorMode == "" then "exact" else cfg.mirrorMode
  }

  function CloneCommand(source: string, repo: string): Command {
    ["git", "clone", "--bare", source, repo]
  }

  function PushCommand(repo: string, prune: bool, target: string, spec: string): Command {
    if prune then ["git", "-C", repo, "push", "--prune", target, spec]
    else ["git", "-C", repo, "push", target, spec]
  }

  /** The commands a configuration denotes, or None where building them is an error. */
  function GitCommands(cfg: Config): Option<seq<Command>> {
    var repo := RepoPath(cfg);
    var clone := CloneCommand(cfg.sourceURL, repo);
    if cfg.sourceURL == "" || cfg.targetURL == "" then None
    else if Mode(cfg) == "exact" then
      Some([clone,
            PushCommand(repo, true, cfg.targetURL, FORCE_HEADS_SPEC),
            PushCommand(repo, true, cfg.targetURL, FORCE_TAGS_SPEC)])
    else if Mode(cfg) == "additive" then
      Some([clone, PushCommand(repo, false, cfg.targetURL, HEADS_SPEC)]
           + if cfg.includeTags then [PushCommand(repo, false, cfg.targetURL, TAGS_SPEC)] else [])
    else None
  }

  method BuildGitCommands(cfg: Config) returns (commands: seq<Command>, ok: bool)
    ensures GitCommands(cfg) == if ok then Some(commands) else None
  {
    commands, ok := [], false;
    if cfg.sourceURL == "" {
      return;
    }
    if cfg.targetURL == "" {
      return;
    }
    var mode := cfg.mirrorMode;
    if mode == "" {
      mode := "exact";
    }
    var repo := RepoPath(cfg);
    commands := [["git", "clone", "--bare", cfg.sourceURL, repo]];
    if mode == "exact" {
      commands := commands + [["git", "-C", repo, "push", "--prune", cfg.targetURL, FORCE_HEADS_SPEC],
                              ["git", "-C", repo, "push", "--prune", cfg.targetURL, FORCE_TAGS_SPEC]];
    } else if mode == "additive" {
      commands := commands + [["git", "-C", repo, "push", cfg.targetURL, HEADS_SPEC]];
      if cfg.includeTags {
        commands := commands + [["git", "-C", repo, "push", cfg.targetURL, TAGS_SPEC]];
      }
    } else {
      return;
    }
    ok := true;
    assert commands == GitCommands(cfg).value;
  }

  /******* Scanning *******/

  predicate Dashed(arg: string) {
    |arg| > 0 && arg[0] == '-'
  }

  predicate TagPush(args: Command) {
    "push" in args && (TAGS_SPEC in args || FORCE_TAGS_SPEC in args)
  }

  function RepoPathOf(args: Command): Option<string> {
    if |args| < 2 then None
    else if args[0] == "-C" then Some(args[1])
    else RepoPathOf(args[1..])
  }

  function FirstPlain(args: Command): Option<string> {
    if args == [] then None
    else if Dashed(args[0]) then FirstPlain(args[1..])
    else Some(args[0])
  }

  function TargetOf(args: Command): Option<string> {
    if args == [] then None
    else if args[0] == "push" && FirstPlain(args[1..]).Some? then FirstPlain(args[1..])
    else TargetOf(args[1..])
  }

  method IsTagWildcardPush(args: Command) returns (yes: bool)
    ensures yes == TagPush(args)
  {
    if |args| == 0 {
      return false;
    }
    var hasPush, hasTagRefSpec := false, false;
    for i := 0 to |args|
      invariant hasPush == ("push" in args[..i])
      invariant hasTagRefSpec == (TAGS_SPEC in args[..i] || FORCE_TAGS_SPEC in args[..i])
    {
      assert args[..i + 1] == args[..i] + [args[i]];
      if args[i] == "push" {
        hasPush := true;
      }
      if args[i] == TAGS_SPEC || args[i] == FORCE_TAGS_SPEC {
        hasTagRefSpec := true;
      }
    }
    assert args[..|args|] == args;
    return hasPush && hasTagRefSpec;
  }

  method CommandRepoPath(args: Command) returns (path: Option<string>)
    ensures path == RepoPathOf(args)
  {
    for i := 0 to |args|
      invariant RepoPathOf(args) == RepoPathOf(args[i..])
    {
      if args[i] == "-C" && i + 1 < |args| {
        return Some(args[i + 1]);
      }
      assert args[i..][1..] == args[i + 1..];
    }
    return None;
  }

  method PushTargetURL(args: Command) returns (url: Option<string>)
    ensures url == TargetOf(args)
  {
    for i := 0 to |args|
      invariant TargetOf(args) == TargetOf(args[i..])
    {
      assert args[i..][1..] == args[i + 1..];
      if args[i] != "push" {
        continue;
      }
      for j := i + 1 to |args|
        invariant FirstPlain(args[i + 1..]) == FirstPlain(args[j..])
      {
        if Dashed(args[j]) {
          assert args[j..][1..] == args[j + 1..];
          continue;
        }
        return Some(args[j]);
      }
    }
    return None;
  }

  method AuthForCommand(cfg: Config, args: Command) returns (auth: EndpointAuth)
    ensures auth == if "clone" in args then cfg.sourceAuth else cfg.targetAuth
  {
    for i := 0 to |args|
      invariant "clone" !in args[..i]
    {
      if args[i] == "clone" {
        return cfg.sourceAuth;
      }
    }
    return cfg.targetAuth;
  }

  /******* The scanners recover what was built *******/

  predicate IsTagSpec(s: string) {
    s == TAGS_SPEC || s == FORCE_TAGS_SPEC
  }

  lemma SpecFacts(s: string)
    requires s == HEADS_SPEC || s == FORCE_HEADS_SPEC || IsTagSpec(s)
    ensures |s| >= 23 && !Dashed(s)
  {}

  /**
   Exactly when each scanner is right about a built push: the repository path always; the
   target URL iff it has no leading dash and is not hidden by a repository called "push"; the
   tag test iff neither path nor URL spells a tag refspec; the endpoint iff neither is "clone".
   */
  lemma PushScans(repo: string, prune: bool, target: string, spec: string)
    requires spec == HEADS_SPEC || spec == FORCE_HEADS_SPEC || IsTagSpec(spec)
    ensures var c := PushCommand(repo, prune, target, spec);
            && RepoPathOf(c) == Some(repo)
            && (TargetOf(c) == Some(target) <==> !Dashed(target) && (repo == "push" ==> target == "push"))
            && (TagPush(c) == IsTagSpec(spec) <==> IsTagSpec(spec) || (!IsTagSpec(repo) && !IsTagSpec(target)))
            && ("clone" !in c <==> repo != "clone" && target != "clone")
  {
    SpecFacts(spec);
    PushPaths(repo, prune, target, spec);
    PushWords(repo, prune, target, spec);
  }

  lemma PushPaths(repo: string, prune: bool, target: string, spec: string)
    requires !Dashed(spec)
    ensures var c := PushCommand(repo, prune, target, spec);
            && RepoPathOf(c) == Some(repo)
            && TargetOf(c) == Some(if repo == "push" then "push" else if Dashed(target) then spec else target)
  {
    var c := PushCommand(repo, prune, target, spec);
    assert c[1..][0] == "-C" && c[1..][1] == repo;
    var tail := if prune then ["--prune", target, spec] else [target, spec];
    assert c == ["git", "-C", repo, "push"] + tail;
    PlainTail(prune, target, spec);
    TargetPeels(repo, tail);
  }

  lemma PushWords(repo: string, prune: bool, target: string, spec: string)
    requires |spec| >= 23
    ensures var c := PushCommand(repo, prune, target, spec);
            && (TagPush(c) <==> IsTagSpec(spec) || IsTagSpec(repo) || IsTagSpec(target))
            && ("clone" in c <==> repo == "clone" || target == "clone")
  {}

  lemma TargetPeels(repo: string, tail: Command)
    requires FirstPlain(tail).Some?
    ensures TargetOf(["git", "-C", repo, "push"] + tail) ==
            if repo == "push" then Some("push") else FirstPlain(tail)
  {
    var c0, c1 := ["git", "-C", repo, "push"] + tail, ["-C", repo, "push"] + tail;
    var c2, c3 := [repo, "push"] + tail, ["push"] + tail;
    assert c0[1..] == c1 && c1[1..] == c2 && c2[1..] == c3 && c3[1..] == tail;
    assert TargetOf(c3) == FirstPlain(tail);
    assert FirstPlain(c3) == Some("push");
    assert TargetOf(c2) == if repo == "push" then Some("push") else FirstPlain(tail);
    assert TargetOf(c1) == TargetOf(c2);
  }

  lemma PlainTail(prune: bool, target: string, spec: string)
    requires !Dashed(spec)
    ensures FirstPlain(if prune then ["--prune", target, spec] else [target, spec]) ==
            Some(if Dashed(target) then spec else target)
  {
    var rest := [target, spec];
    assert rest[1..] == [spec];
    assert FirstPlain([spec]) == Some(spec);
    assert ["--prune", target, spec][1..] == rest;
  }

  /** A built clone always authenticates as the source, and is a tag push only if misspelled as one. */
  lemma CloneScans(source: string, repo: string)
    ensures var c := CloneCommand(source, repo);
            && "clone" in c
            && (TagPush(c) <==> (source == "push" && IsTagSpec(repo)) || (repo == "push" && IsTagSpec(source)))
  {}

  /** A path or URL that no scanner can mistake for something else. */
  predicate Plain(s: string) {
    !Dashed(s) && s != "push" && s != "clone" && !IsTagSpec(s)
  }

  predicate Exact(cfg: Config) { Mode(cfg) == "exact" }
  predicate WithTags(cfg: Config) { Exact(cfg) || cfg.includeTags }

  function HeadsWord(exact: bool): string { if exact then FORCE_HEADS_SPEC else HEADS_SPEC }
  function TagsWord(exact: bool): string { if exact then FORCE_TAGS_SPEC else TAGS_SPEC }

  /** The two or three commands of a configuration, one by one. */
  lemma CommandShapes(cfg: Config)
    requires GitCommands(cfg).Some?
    ensures var cmds, repo := GitCommands(cfg).value, RepoPath(cfg);
            && |cmds| == (if WithTags(cfg) then 3 else 2)
            && cmds[0] == CloneCommand(cfg.sourceURL, repo)
            && cmds[1] == PushCommand(repo, Exact(cfg), cfg.targetURL, HeadsWord(Exact(cfg)))
            && (WithTags(cfg) ==> cmds[2] == PushCommand(repo, Exact(cfg), cfg.targetURL, TagsWord(Exact(cfg))))
  {}

  /** A configuration whose paths and URLs no scanner can mistake for something else. */
  predicate PlainConfig(cfg: Config) {
    Plain(cfg.sourceURL) && Plain(cfg.targetURL) && Plain(RepoPath(cfg))
  }

  lemma PlainPush(repo: string, exact: bool, target: string, tags: bool)
    requires Plain(repo) && Plain(target)
    ensures var c := PushCommand(repo, exact, target, if tags then TagsWord(exact) else HeadsWord(exact));
            "clone" !in c && TagPush(c) == tags && RepoPathOf(c) == Some(repo) && TargetOf(c) == Some(target)
  {
    PushScans(repo, exact, target, if tags then TagsWord(exact) else HeadsWord(exact));
    HeadsAreNotTags(exact);
  }

  lemma HeadsAreNotTags(exact: bool)
    ensures IsTagSpec(TagsWord(exact)) && !IsTagSpec(HeadsWord(exact))
  {}

  /** For a configuration of plain strings every scanner is right about every built command. */
  lemma CommandsParseBack(cfg: Config, k: nat)
    requires PlainConfig(cfg) && GitCommands(cfg).Some? && k < |GitCommands(cfg).value|
    ensures var c := GitCommands(cfg).value[k];
            && ("clone" in c <==> k == 0)
            && (TagPush(c) <==> k == 2)
            && (k > 0 ==> RepoPathOf(c) == Some(RepoPath(cfg)) && TargetOf(c) == Some(cfg.targetURL))
  {
    CommandShapes(cfg);
    if k == 0 {
      CloneScans(cfg.sourceURL, RepoPath(cfg));
    } else {
      PlainPush(RepoPath(cfg), Exact(cfg), cfg.targetURL, k == 2);
    }
  }
}
