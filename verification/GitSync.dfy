/**
 What a sync does to the repositories: the command lists of `Commands`, interpreted over maps
 from ref name to object id.

 A bare clone copies branches and tags.  A push with a wildcard refspec sets every matching
 ref of the target that may be set: any with force, a branch only to a descendant, an
 existing tag not at all; with --prune it deletes matching target refs the clone lacks.

 Every command and query that talks to a remote leaves a `Contact`: the URL and the credentials
 it was given.

 An `Outcome` accompanies each command: its credentials may fail to be set up, either query of
 the empty-tag test may fail, the remote may refuse any single update, and the command may
 fail after its effects.
 */
module GitSync {
  import opened Base
  import opened Commands
  import opened Credentials

  type Oid = int
  type Refs = map<string, Oid>

  /** `ancestry(a, b)`: commit a is b or an ancestor of b. */
  type Ancestry = (Oid, Oid) -> bool

  datatype Git = Git(remotes: map<string, Refs>, local: map<string, Refs>)

  datatype Outcome = Outcome(
    noAuth: bool,
    localQueryFails: bool,
    remoteQueryFails: bool,
    failed: bool,
    refused: set<string>)

  datatype RefSpec = RefSpec(force: bool, prefix: string)

  const HEADS := "refs/heads/"
  const TAGS := "refs/tags/"

  predicate Mirrored(r: string) {
    HEADS <= r || TAGS <= r
  }

  /******* Refspecs *******/

  function Spell(spec: RefSpec): string {
    (if spec.force then "+" else "") + spec.prefix + "*:" + spec.prefix + "*"
  }

  /** Reads [+]prefix*:prefix*, the only shape the runner writes; the length settles the sign. */
  function ParseRefSpec(s: string): Option<RefSpec> {
    var force := |s| % 2 == 0;
    var lead := if force then 1 else 0;
    if |s| < 3 + lead then None
    else
      var spec := RefSpec(force, s[lead..lead + (|s| - 3 - lead) / 2]);
      if s == Spell(spec) then Some(spec) else None
  }

  lemma RefSpecRoundTrip(spec: RefSpec)
    ensures ParseRefSpec(Spell(spec)) == Some(spec)
  {
    var s := Spell(spec);
    var lead := if spec.force then 1 else 0;
    assert |s| == lead + 2 * |spec.prefix| + 3;
    assert s[lead..lead + |spec.prefix|] == spec.prefix;
  }

  lemma HeadsSpelled()
    ensures Spell(RefSpec(false, HEADS)) == HEADS_SPEC
  {}

  lemma TagsSpelled()
    ensures Spell(RefSpec(false, TAGS)) == TAGS_SPEC
  {}

  lemma ForceSpelled(prefix: string)
    ensures Spell(RefSpec(true, prefix)) == "+" + Spell(RefSpec(false, prefix))
  {}

  /** The four refspecs of the runner mean branches or tags, with or without force. */
  lemma RunnerSpecs()
    ensures ParseRefSpec(HEADS_SPEC) == Some(RefSpec(false, HEADS))
    ensures ParseRefSpec(TAGS_SPEC) == Some(RefSpec(false, TAGS))
    ensures ParseRefSpec(FORCE_HEADS_SPEC) == Some(RefSpec(true, HEADS))
    ensures ParseRefSpec(FORCE_TAGS_SPEC) == Some(RefSpec(true, TAGS))
  {
    HeadsSpelled();
    TagsSpelled();
    ForceSpelled(HEADS);
    ForceSpelled(TAGS);
    RefSpecRoundTrip(RefSpec(false, HEADS));
    RefSpecRoundTrip(RefSpec(false, TAGS));
    RefSpecRoundTrip(RefSpec(true, HEADS));
    RefSpecRoundTrip(RefSpec(true, TAGS));
  }

  /******* Clone and push *******/

  function BareClone(source: Refs): Refs {
    map r | r in source && Mirrored(r) :: source[r]
  }

  /** The ref may be set to `local[r]` on the target. */
  predicate MaySet(local: Refs, target: Refs, spec: RefSpec, anc: Ancestry, r: string)
    requires r in local
  {
    r !in target || target[r] == local[r] || spec.force || (!(TAGS <= r) && anc(target[r], local[r]))
  }

  predicate Sets(local: Refs, target: Refs, spec: RefSpec, anc: Ancestry, out: Outcome, r: string) {
    r in local && spec.prefix <= r && MaySet(local, target, spec, anc, r) && r !in out.refused
  }

  predicate Deletes(local: Refs, target: Refs, prune: bool, spec: RefSpec, out: Outcome, r: string) {
    prune && spec.prefix <= r && r !in local && r !in out.refused
  }

  function PushRefs(local: Refs, target: Refs, prune: bool, spec: RefSpec, anc: Ancestry, out: Outcome): Refs {
    map r | r in target.Keys + local.Keys
            && (Sets(local, target, spec, anc, out, r)
                || (r in target && !Deletes(local, target, prune, spec, out, r))) ::
      if Sets(local, target, spec, anc, out, r) then local[r] else target[r]
  }

  /** The push reports success: no failure, no ref rejected, and none refused that had to change. */
  predicate PushOk(local: Refs, target: Refs, prune: bool, spec: RefSpec, anc: Ancestry, out: Outcome) {
    && !out.failed
    && (forall r :: r in local && spec.prefix <= r && !(r in target && target[r] == local[r]) ==>
          MaySet(local, target, spec, anc, r) && r !in out.refused)
    && (prune ==> forall r :: r in target && spec.prefix <= r && r !in local ==> r !in out.refused)
  }

  /** Some ref of the target is created, moved or deleted. */
  predicate PushChanges(local: Refs, target: Refs, prune: bool, spec: RefSpec, anc: Ancestry, out: Outcome) {
    || (exists r :: r in local && spec.prefix <= r && r !in out.refused && MaySet(local, target, spec, anc, r)
                    && !(r in target && target[r] == local[r]))
    || (prune && exists r :: r in target && spec.prefix <= r && r !in out.refused && r !in local)
  }

  /******* Commands *******/

  predicate IsClone(args: Command) {
    |args| == 5 && args[..3] == ["git", "clone", "--bare"]
  }

  predicate IsPush(args: Command) {
    || (|args| == 6 && args[..2] == ["git", "-C"] && args[3] == "push")
    || (|args| == 7 && args[..2] == ["git", "-C"] && args[3] == "push" && args[4] == "--prune")
  }

  /** Runs one command. */
  function Interpret(git: Git, args: Command, anc: Ancestry, out: Outcome): (Git, bool) {
    if IsClone(args) then
      var url, repo := args[3], args[4];
      if url !in git.remotes || repo in git.local || out.failed then (git, false)
      else (git.(local := git.local[repo := BareClone(git.remotes[url])]), true)
    else if IsPush(args) && ParseRefSpec(args[|args| - 1]).Some? then
      var repo, url, prune := args[2], args[|args| - 2], |args| == 7;
      if repo !in git.local || url !in git.remotes then (git, false)
      else
        var spec := ParseRefSpec(args[|args| - 1]).value;
        var local, target := git.local[repo], git.remotes[url];
        (git.(remotes := git.remotes[url := PushRefs(local, target, prune, spec, anc, out)]),
         PushOk(local, target, prune, spec, anc, out))
    else (git, false)
  }

  predicate HasTags(refs: Refs) {
    exists r :: r in refs && TAGS <= r
  }

  /** shouldSkipEmptyTagPush: None where one of the two queries fails. */
  function SkipDecision(git: Git, args: Command, out: Outcome): Option<bool> {
    if !TagPush(args) || RepoPathOf(args).None? then Some(false)
    else if RepoPathOf(args).value !in git.local || out.localQueryFails then None
    else if HasTags(git.local[RepoPathOf(args).value]) || TargetOf(args).None? then Some(false)
    else if TargetOf(args).value !in git.remotes || out.remoteQueryFails then None
    else Some(!HasTags(git.remotes[TargetOf(args).value]))
  }

  /******* Who is contacted with what *******/

  /** One contact with a remote: to read the source, or to query or write the target. */
  datatype Contact = Contact(url: string, clones: bool, auth: EndpointAuth)

  /** The empty-tag test gets as far as asking the target for its tags. */
  predicate AsksRemote(git: Git, args: Command, out: Outcome) {
    && TagPush(args) && RepoPathOf(args).Some? && RepoPathOf(args).value in git.local && !out.localQueryFails
    && !HasTags(git.local[RepoPathOf(args).value]) && TargetOf(args).Some?
  }

  function QueryContacts(git: Git, args: Command, out: Outcome, auth: EndpointAuth): seq<Contact> {
    if AsksRemote(git, args, out) then [Contact(TargetOf(args).value, false, auth)] else []
  }

  function ExecContacts(args: Command, auth: EndpointAuth): seq<Contact> {
    if IsClone(args) then [Contact(args[3], true, auth)]
    else if IsPush(args) then [Contact(args[|args| - 2], false, auth)]
    else []
  }

  /** authForCommand: a command with the word clone is the source's, any other the target's. */
  function AuthFor(cfg: Config, args: Command): EndpointAuth {
    if "clone" in args then cfg.sourceAuth else cfg.targetAuth
  }

  /** The contacts of one turn of the loop of Run: the query of the empty-tag test, then the command. */
  function TurnContacts(git: Git, cfg: Config, args: Command, out: Outcome): seq<Contact> {
    var auth := AuthFor(cfg, args);
    if out.noAuth then []
    else
      QueryContacts(git, args, out, auth)
      + if SkipDecision(git, args, out) == Some(false) then ExecContacts(args, auth) else []
  }

  /** The repositories after one turn, and whether the loop goes on. */
  function AfterTurn(git: Git, args: Command, anc: Ancestry, out: Outcome): (Git, bool) {
    var decision := SkipDecision(git, args, out);
    if out.noAuth || decision.None? then (git, false)
    else if decision.value then (git, true)
    else Interpret(git, args, anc, out)
  }

  /** The contacts once the loop is through from command i on, `made` being those before. */
  function Contacts(made: seq<Contact>, git: Git, cfg: Config, cmds: seq<Command>, i: nat,
                    anc: Ancestry, outs: seq<Outcome>): seq<Contact>
    requires i <= |cmds| && |outs| == |cmds|
    decreases |cmds| - i
  {
    if i == |cmds| then made
    else
      var (git1, on) := AfterTurn(git, cmds[i], anc, outs[i]);
      var made1 := made + TurnContacts(git, cfg, cmds[i], outs[i]);
      if on then Contacts(made1, git1, cfg, cmds, i + 1, anc, outs) else made1
  }

  /** The loop of Run from command i on, with or without the empty-tag shortcut. */
  function RunFrom(git: Git, cmds: seq<Command>, i: nat, skipping: bool, anc: Ancestry, outs: seq<Outcome>): (Git, bool)
    requires i <= |cmds| && |outs| == |cmds|
    decreases |cmds| - i
  {
    if i == |cmds| then (git, true)
    else if outs[i].noAuth then (git, false)
    else if skipping && SkipDecision(git, cmds[i], outs[i]).None? then (git, false)
    else if skipping && SkipDecision(git, cmds[i], outs[i]).value then RunFrom(git, cmds, i + 1, skipping, anc, outs)
    else
      var (git1, ok) := Interpret(git, cmds[i], anc, outs[i]);
      if ok then RunFrom(git1, cmds, i + 1, skipping, anc, outs) else (git1, false)
  }

  lemma RunTurns(git: Git, cmds: seq<Command>, i: nat, anc: Ancestry, outs: seq<Outcome>)
    requires i < |cmds| == |outs|
    ensures var (git1, on) := AfterTurn(git, cmds[i], anc, outs[i]);
            RunFrom(git, cmds, i, true, anc, outs)
            == if on then RunFrom(git1, cmds, i + 1, true, anc, outs) else (git1, false)
  {}

  /** A whole sync in a fresh working directory. */
  function Sync(remotes: map<string, Refs>, cfg: Config, skipping: bool, anc: Ancestry, outs: seq<Outcome>): (Git, bool)
    requires GitCommands(cfg).Some? && |outs| == |GitCommands(cfg).value|
  {
    RunFrom(Git(remotes, map[]), GitCommands(cfg).value, 0, skipping, anc, outs)
  }

  /******* The runner *******/

  class Runner {
    var remotes: map<string, Refs>
    var local: map<string, Refs>
    /** A recorder: every contact with a remote, read by no decision. */
    var contacts: seq<Contact>

    function View(): Git
      reads this
    {
      Git(remotes, local)
    }

    /** Decides whether the empty tag push is spared; `known` is false if a query failed. */
    method ShouldSkipEmptyTagPush(args: Command, auth: EndpointAuth, out: Outcome) returns (known: bool, skip: bool)
      modifies this`contacts
      ensures contacts == old(contacts) + QueryContacts(View(), args, out, auth)
      ensures SkipDecision(View(), args, out) == if known then Some(skip) else None
    {
      var tagPush := IsTagWildcardPush(args);
      if !tagPush {
        return true, false;
      }
      var repo := CommandRepoPath(args);
      if repo.None? {
        return true, false;
      }
      if repo.value !in local || out.localQueryFails {
        return false, false;
      }
      if HasTags(local[repo.value]) {
        return true, false;
      }
      var url := PushTargetURL(args);
      if url.None? {
        return true, false;
      }
      contacts := contacts + [Contact(url.value, false, auth)];
      if url.value !in remotes || out.remoteQueryFails {
        return false, false;
      }
      return true, !HasTags(remotes[url.value]);
    }

    method Exec(args: Command, auth: EndpointAuth, anc: Ancestry, out: Outcome) returns (ok: bool)
      modifies this
      ensures (View(), ok) == Interpret(old(View()), args, anc, out)
      ensures contacts == old(contacts) + ExecContacts(args, auth)
    {
      contacts := contacts + ExecContacts(args, auth);
      var (git, done) := Interpret(View(), args, anc, out);
      remotes, local, ok := git.remotes, git.local, done;
    }

    /** One turn of the loop: an empty tag push is skipped, any other command executed. */
    method RunOne(cfg: Config, args: Command, anc: Ancestry, out: Outcome) returns (on: bool)
      modifies this
      ensures (View(), on) == AfterTurn(old(View()), args, anc, out)
      ensures contacts == old(contacts) + TurnContacts(old(View()), cfg, args, out)
    {
      if out.noAuth {
        return false;
      }
      var auth := AuthForCommand(cfg, args);
      var known, skip := ShouldSkipEmptyTagPush(args, auth, out);
      if !known {
        return false;
      }
      if skip {
        return true;
      }
      on := Exec(args, auth, anc, out);
    }

    /** Runs the commands in order until one fails. */
    method RunCommands(cfg: Config, commands: seq<Command>, anc: Ancestry, outs: seq<Outcome>) returns (ok: bool)
      requires |outs| == |commands|
      modifies this
      ensures (View(), ok) == RunFrom(old(View()), commands, 0, true, anc, outs)
      ensures contacts == Contacts(old(contacts), old(View()), cfg, commands, 0, anc, outs)
    {
      ghost var end := RunFrom(View(), commands, 0, true, anc, outs);
      ghost var all := Contacts(contacts, View(), cfg, commands, 0, anc, outs);
      for i := 0 to |commands|
        invariant RunFrom(View(), commands, i, true, anc, outs) == end
        invariant Contacts(contacts, View(), cfg, commands, i, anc, outs) == all
      {
        RunTurns(View(), commands, i, anc, outs);
        ok := RunOne(cfg, commands[i], anc, outs[i]);
        if !ok {
          return;
        }
      }
      return true;
    }

    /** Prepares and checks the credentials, builds the commands and runs them. */
    method Run(raw: Config, source: Preparation, target: Preparation, https: string -> bool,
               anc: Ancestry, outs: seq<Outcome>) returns (ok: bool)
      requires GitCommands(raw).Some? ==> |outs| == |GitCommands(raw).value|
      modifies this
      ensures var cfg := Prepared(raw, source, target, https);
              if cfg.None? || GitCommands(raw).None? then
                !ok && View() == old(View()) && contacts == old(contacts)
              else
                && (View(), ok) == RunFrom(old(View()), GitCommands(raw).value, 0, true, anc, outs)
                && contacts == Contacts(old(contacts), old(View()), cfg.value, GitCommands(raw).value, 0, anc, outs)
    {
      var prepared := Prepared(raw, source, target, https);
      if prepared.None? {
        return false;
      }
      PreparedCommands(raw, source, target, https);
      var commands, built := BuildGitCommands(prepared.value);
      if !built {
        return false;
      }
      ok := RunCommands(prepared.value, commands, anc, outs);
    }
  }
}
