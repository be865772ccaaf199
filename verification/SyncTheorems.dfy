/**
 What a sync guarantees: exact mode makes the target's branches and tags those of the source
 and is stable; additive mode never deletes, never moves a tag and moves branches only to
 descendants, whatever fails; and skipping an empty tag push changes nothing.
 */
module SyncTheorems {
  import opened Base
  import opened Commands
  import opened GitSync

  /******* The closed form of a sync *******/

  /** A query of the empty-tag test fails: the local one, or the remote one that follows it. */
  predicate QueryFails(local: Refs, out: Outcome) {
    out.localQueryFails || (!HasTags(local) && out.remoteQueryFails)
  }

  function TagForm(local: Refs, target: Refs, exact: bool, skipping: bool, anc: Ancestry, out: Outcome): (Refs, bool) {
    if out.noAuth || (skipping && QueryFails(local, out)) then (target, false)
    else if skipping && !HasTags(local) && !HasTags(target) then (target, true)
    else (PushRefs(local, target, exact, RefSpec(exact, TAGS), anc, out),
          PushOk(local, target, exact, RefSpec(exact, TAGS), anc, out))
  }

  /** The target refs and the verdict after pushing branches, then tags, from a clone. */
  function PushForm(local: Refs, target: Refs, exact: bool, withTags: bool, skipping: bool,
                    anc: Ancestry, outs: seq<Outcome>): (Refs, bool)
    requires |outs| == if withTags then 3 else 2
  {
    var t1 := PushRefs(local, target, exact, RefSpec(exact, HEADS), anc, outs[1]);
    if outs[1].noAuth then (target, false)
    else if !PushOk(local, target, exact, RefSpec(exact, HEADS), anc, outs[1]) then (t1, false)
    else if !withTags then (t1, true)
    else TagForm(local, t1, exact, skipping, anc, outs[2])
  }

  /** The same after cloning `source`. */
  function SyncForm(source: Refs, target: Refs, exact: bool, withTags: bool, skipping: bool,
                    anc: Ancestry, outs: seq<Outcome>): (Refs, bool)
    requires |outs| == if withTags then 3 else 2
  {
    if outs[0].noAuth || outs[0].failed then (target, false)
    else PushForm(BareClone(source), target, exact, withTags, skipping, anc, outs)
  }

  lemma InterpretClone(git: Git, source: string, repo: string, anc: Ancestry, out: Outcome)
    requires repo !in git.local
    ensures Interpret(git, CloneCommand(source, repo), anc, out) ==
            if source !in git.remotes || out.failed then (git, false)
            else (git.(local := git.local[repo := BareClone(git.remotes[source])]), true)
  {}

  lemma InterpretPush(git: Git, repo: string, prune: bool, target: string, word: string, spec: RefSpec,
                      anc: Ancestry, out: Outcome)
    requires repo in git.local && target in git.remotes && ParseRefSpec(word) == Some(spec)
    ensures var l, t := git.local[repo], git.remotes[target];
            Interpret(git, PushCommand(repo, prune, target, word), anc, out) ==
            (git.(remotes := git.remotes[target := PushRefs(l, t, prune, spec, anc, out)]),
             PushOk(l, t, prune, spec, anc, out))
  {}

  /** One push from `repo` to `target`: the repositories after it, and whether it succeeded. */
  function PushGit(git: Git, repo: string, target: string, exact: bool, prefix: string,
                   anc: Ancestry, out: Outcome): (Git, bool)
    requires repo in git.local && target in git.remotes
  {
    var l, t, spec := git.local[repo], git.remotes[target], RefSpec(exact, prefix);
    if out.noAuth then (git, false)
    else
      (git.(remotes := git.remotes[target := PushRefs(l, t, exact, spec, anc, out)]),
       PushOk(l, t, exact, spec, anc, out))
  }

  function TagGit(git: Git, repo: string, target: string, exact: bool, skipping: bool,
                  anc: Ancestry, out: Outcome): (Git, bool)
    requires repo in git.local && target in git.remotes
  {
    if out.noAuth || (skipping && QueryFails(git.local[repo], out)) then (git, false)
    else if skipping && !HasTags(git.local[repo]) && !HasTags(git.remotes[target]) then (git, true)
    else PushGit(git, repo, target, exact, TAGS, anc, out)
  }

  /** One command of a list, as the loop runs it, from what the scanners and git make of it. */
  lemma Turn(git: Git, cmds: seq<Command>, i: nat, repo: string, target: string, tags: bool, git1: Git, ok: bool,
             skipping: bool, anc: Ancestry, outs: seq<Outcome>)
    requires i < |cmds| == |outs| && repo in git.local && target in git.remotes
    requires RepoPathOf(cmds[i]) == Some(repo) && TargetOf(cmds[i]) == Some(target) && TagPush(cmds[i]) == tags
    requires Interpret(git, cmds[i], anc, outs[i]) == (git1, ok)
    ensures RunFrom(git, cmds, i, skipping, anc, outs) ==
            if outs[i].noAuth then (git, false)
            else if tags && skipping && QueryFails(git.local[repo], outs[i]) then (git, false)
            else if tags && skipping && !HasTags(git.local[repo]) && !HasTags(git.remotes[target])
            then RunFrom(git, cmds, i + 1, skipping, anc, outs)
            else if ok then RunFrom(git1, cmds, i + 1, skipping, anc, outs)
            else (git1, false)
  {}

  /** A branch push in a list, never skipped. */
  lemma HeadsTurn(git: Git, cmds: seq<Command>, i: nat, repo: string, target: string, exact: bool,
                  skipping: bool, anc: Ancestry, outs: seq<Outcome>)
    requires i < |cmds| == |outs| && Plain(repo) && Plain(target) && repo in git.local && target in git.remotes
    requires cmds[i] == PushCommand(repo, exact, target, HeadsWord(exact))
    ensures var (git1, ok) := PushGit(git, repo, target, exact, HEADS, anc, outs[i]);
            RunFrom(git, cmds, i, skipping, anc, outs) ==
            if ok then RunFrom(git1, cmds, i + 1, skipping, anc, outs) else (git1, false)
  {
    PlainPush(repo, exact, target, false);
    RunnerSpecs();
    InterpretPush(git, repo, exact, target, HeadsWord(exact), RefSpec(exact, HEADS), anc, outs[i]);
    var (git1, ok) := Interpret(git, cmds[i], anc, outs[i]);
    Turn(git, cmds, i, repo, target, false, git1, ok, skipping, anc, outs);
  }

  /** A tag push in a list: the push, or the shortcut around it. */
  lemma TagsTurn(git: Git, cmds: seq<Command>, i: nat, repo: string, target: string, exact: bool,
                 skipping: bool, anc: Ancestry, outs: seq<Outcome>)
    requires i < |cmds| == |outs| && Plain(repo) && Plain(target) && repo in git.local && target in git.remotes
    requires cmds[i] == PushCommand(repo, exact, target, TagsWord(exact))
    ensures var (git1, ok) := TagGit(git, repo, target, exact, skipping, anc, outs[i]);
            RunFrom(git, cmds, i, skipping, anc, outs) ==
            if ok then RunFrom(git1, cmds, i + 1, skipping, anc, outs) else (git1, false)
  {
    PlainPush(repo, exact, target, true);
    RunnerSpecs();
    InterpretPush(git, repo, exact, target, TagsWord(exact), RefSpec(exact, TAGS), anc, outs[i]);
    var (git1, ok) := Interpret(git, cmds[i], anc, outs[i]);
    Turn(git, cmds, i, repo, target, true, git1, ok, skipping, anc, outs);
  }

  /** The first command of a sync: the clone, never skipped. */
  lemma ClonePhase(git: Git, cfg: Config, skipping: bool, anc: Ancestry, outs: seq<Outcome>)
    requires PlainConfig(cfg) && GitCommands(cfg).Some? && |outs| == |GitCommands(cfg).value|
    requires cfg.sourceURL in git.remotes && RepoPath(cfg) !in git.local
    ensures var git1 := git.(local := git.local[RepoPath(cfg) := BareClone(git.remotes[cfg.sourceURL])]);
            RunFrom(git, GitCommands(cfg).value, 0, skipping, anc, outs) ==
            if outs[0].noAuth || outs[0].failed then (git, false)
            else RunFrom(git1, GitCommands(cfg).value, 1, skipping, anc, outs)
  {
    CommandShapes(cfg);
    CommandsParseBack(cfg, 0);
    InterpretClone(git, cfg.sourceURL, RepoPath(cfg), anc, outs[0]);
  }

  /** Two pushes through the repositories are the closed form on the two ref maps. */
  lemma PushesCompose(git: Git, repo: string, target: string, exact: bool, withTags: bool, skipping: bool,
                      anc: Ancestry, outs: seq<Outcome>)
    requires repo in git.local && target in git.remotes
    requires |outs| == if withTags then 3 else 2
    ensures var (git1, ok1) := PushGit(git, repo, target, exact, HEADS, anc, outs[1]);
            var (git2, ok2) := if ok1 && withTags then TagGit(git1, repo, target, exact, skipping, anc, outs[2])
                               else (git1, ok1);
            var (t, verdict) := PushForm(git.local[repo], git.remotes[target], exact, withTags, skipping, anc, outs);
            ok2 == verdict && git2.remotes == git.remotes[target := t]
  {}

  lemma PushPhases(git: Git, cfg: Config, skipping: bool, anc: Ancestry, outs: seq<Outcome>)
    requires PlainConfig(cfg) && GitCommands(cfg).Some? && |outs| == |GitCommands(cfg).value|
    requires RepoPath(cfg) in git.local && cfg.targetURL in git.remotes
    ensures |outs| == if WithTags(cfg) then 3 else 2
    ensures var (git', ok) := RunFrom(git, GitCommands(cfg).value, 1, skipping, anc, outs);
            var (t, verdict) := PushForm(git.local[RepoPath(cfg)], git.remotes[cfg.targetURL],
                                         Exact(cfg), WithTags(cfg), skipping, anc, outs);
            ok == verdict && git'.remotes == git.remotes[cfg.targetURL := t]
  {
    CommandShapes(cfg);
    var repo, target, exact, withTags := RepoPath(cfg), cfg.targetURL, Exact(cfg), WithTags(cfg);
    PushTurns(git, GitCommands(cfg).value, repo, target, exact, withTags, skipping, anc, outs);
    PushesCompose(git, repo, target, exact, withTags, skipping, anc, outs);
  }

  /** The one or two pushes of a list, as the loop runs them. */
  lemma PushTurns(git: Git, cmds: seq<Command>, repo: string, target: string, exact: bool, withTags: bool,
                  skipping: bool, anc: Ancestry, outs: seq<Outcome>)
    requires |cmds| == |outs| == (if withTags then 3 else 2)
    requires Plain(repo) && Plain(target) && repo in git.local && target in git.remotes
    requires cmds[1] == PushCommand(repo, exact, target, HeadsWord(exact))
    requires withTags ==> cmds[2] == PushCommand(repo, exact, target, TagsWord(exact))
    ensures var (git1, ok1) := PushGit(git, repo, target, exact, HEADS, anc, outs[1]);
            RunFrom(git, cmds, 1, skipping, anc, outs) ==
            if ok1 && withTags then TagGit(git1, repo, target, exact, skipping, anc, outs[2]) else (git1, ok1)
  {
    HeadsTurn(git, cmds, 1, repo, target, exact, skipping, anc, outs);
    var (git1, ok1) := PushGit(git, repo, target, exact, HEADS, anc, outs[1]);
    if ok1 && withTags {
      TagsTurn(git1, cmds, 2, repo, target, exact, skipping, anc, outs);
    }
  }

  /** A sync of two existing repositories, command by command, has the closed form. */
  lemma SyncHasForm(remotes: map<string, Refs>, cfg: Config, skipping: bool, anc: Ancestry, outs: seq<Outcome>)
    requires PlainConfig(cfg) && cfg.sourceURL in remotes && cfg.targetURL in remotes
    requires GitCommands(cfg).Some? && |outs| == |GitCommands(cfg).value|
    ensures |outs| == if WithTags(cfg) then 3 else 2
    ensures var (git, ok) := Sync(remotes, cfg, skipping, anc, outs);
            var (t, verdict) := SyncForm(remotes[cfg.sourceURL], remotes[cfg.targetURL], Exact(cfg), WithTags(cfg),
                                         skipping, anc, outs);
            ok == verdict && git.remotes == remotes[cfg.targetURL := t]
  {
    var git0 := Git(remotes, map[]);
    ClonePhase(git0, cfg, skipping, anc, outs);
    var git1 := git0.(local := git0.local[RepoPath(cfg) := BareClone(remotes[cfg.sourceURL])]);
    PushPhases(git1, cfg, skipping, anc, outs);
    assert remotes == remotes[cfg.targetURL := remotes[cfg.targetURL]];
  }

  /** Where the source or the target repository does not exist, a sync fails and changes no remote. */
  lemma MissingRemote(remotes: map<string, Refs>, cfg: Config, skipping: bool, anc: Ancestry, outs: seq<Outcome>)
    requires PlainConfig(cfg) && !(cfg.sourceURL in remotes && cfg.targetURL in remotes)
    requires GitCommands(cfg).Some? && |outs| == |GitCommands(cfg).value|
    ensures var (git, ok) := Sync(remotes, cfg, skipping, anc, outs); !ok && git.remotes == remotes
  {
    var git0, cmds, repo := Git(remotes, map[]), GitCommands(cfg).value, RepoPath(cfg);
    CommandShapes(cfg);
    if cfg.sourceURL in remotes {
      var git1 := git0.(local := git0.local[repo := BareClone(remotes[cfg.sourceURL])]);
      ClonePhase(git0, cfg, skipping, anc, outs);
      PlainPush(repo, Exact(cfg), cfg.targetURL, false);
      InterpretLostPush(git1, repo, Exact(cfg), cfg.targetURL, HeadsWord(Exact(cfg)), anc, outs[1]);
      LostTurn(git1, cmds, 1, skipping, anc, outs);
    } else {
      CommandsParseBack(cfg, 0);
      InterpretClone(git0, cfg.sourceURL, repo, anc, outs[0]);
      LostTurn(git0, cmds, 0, skipping, anc, outs);
    }
  }

  lemma LostTurn(git: Git, cmds: seq<Command>, i: nat, skipping: bool, anc: Ancestry, outs: seq<Outcome>)
    requires i < |cmds| == |outs| && !TagPush(cmds[i]) && Interpret(git, cmds[i], anc, outs[i]) == (git, false)
    ensures RunFrom(git, cmds, i, skipping, anc, outs) == (git, false)
  {}

  lemma InterpretLostPush(git: Git, repo: string, prune: bool, target: string, word: string,
                          anc: Ancestry, out: Outcome)
    requires target !in git.remotes
    ensures Interpret(git, PushCommand(repo, prune, target, word), anc, out) == (git, false)
  {}

  /******* One push *******/

  lemma NamespacesDisjoint(r: string)
    ensures !(HEADS <= r && TAGS <= r)
  {
    assert HEADS <= r ==> |r| > 5 && r[5] == HEADS[5];
    assert TAGS <= r ==> |r| > 5 && r[5] == TAGS[5];
  }

  /** Outside its namespace a push leaves every ref alone. */
  lemma PushFrame(local: Refs, target: Refs, prune: bool, spec: RefSpec, anc: Ancestry, out: Outcome, r: string)
    requires !(spec.prefix <= r)
    ensures var t := PushRefs(local, target, prune, spec, anc, out);
            (r in t <==> r in target) && (r in target ==> t[r] == target[r])
  {}

  /** A push succeeds iff nothing fails and the target then agrees with the clone. */
  lemma PushOkExact(local: Refs, target: Refs, prune: bool, spec: RefSpec, anc: Ancestry, out: Outcome)
    ensures var after := PushRefs(local, target, prune, spec, anc, out);
            PushOk(local, target, prune, spec, anc, out) <==>
            && !out.failed
            && (forall r :: r in local && spec.prefix <= r ==> r in after && after[r] == local[r])
            && (prune ==> forall r :: r in after && spec.prefix <= r ==> r in local)
  {}

  /** PushChanges says what it claims. */
  lemma PushChangesExact(local: Refs, target: Refs, prune: bool, spec: RefSpec, anc: Ancestry, out: Outcome)
    ensures PushChanges(local, target, prune, spec, anc, out) <==>
            PushRefs(local, target, prune, spec, anc, out) != target
  {}

  /** A successful pruning push leaves exactly the local refs in its namespace. */
  lemma PushExact(local: Refs, target: Refs, spec: RefSpec, anc: Ancestry, out: Outcome, r: string)
    requires PushOk(local, target, true, spec, anc, out) && spec.prefix <= r
    ensures var t := PushRefs(local, target, true, spec, anc, out);
            (r in t <==> r in local) && (r in local ==> t[r] == local[r])
  {}

  /** A push onto a target that already agrees changes nothing, whatever is refused or fails. */
  lemma PushStable(local: Refs, target: Refs, prune: bool, spec: RefSpec, anc: Ancestry, out: Outcome)
    requires forall r :: r in local && spec.prefix <= r ==> r in target && target[r] == local[r]
    requires prune ==> forall r :: r in target && spec.prefix <= r ==> r in local
    ensures PushRefs(local, target, prune, spec, anc, out) == target
    ensures PushOk(local, target, prune, spec, anc, out) == !out.failed
  {}

  /******* Exact mode *******/

  /** Branches and tags are those of the source; everything else is as before. */
  ghost predicate Mirrors(source: Refs, before: Refs, after: Refs) {
    && (forall r :: Mirrored(r) ==>
          (r in after <==> r in source) && (r in source && r in after ==> after[r] == source[r]))
    && (forall r :: !Mirrored(r) ==>
          (r in after <==> r in before) && (r in before && r in after ==> after[r] == before[r]))
  }

  lemma ExactForm(source: Refs, target: Refs, skipping: bool, anc: Ancestry, outs: seq<Outcome>)
    requires |outs| == 3 && SyncForm(source, target, true, true, skipping, anc, outs).1
    ensures Mirrors(source, target, SyncForm(source, target, true, true, skipping, anc, outs).0)
  {
    var local := BareClone(source);
    var t1 := PushRefs(local, target, true, RefSpec(true, HEADS), anc, outs[1]);
    var t2 := SyncForm(source, target, true, true, skipping, anc, outs).0;
    forall r
      ensures Mirrored(r) ==> (r in t2 <==> r in source) && (r in source && r in t2 ==> t2[r] == source[r])
      ensures !Mirrored(r) ==> (r in t2 <==> r in target) && (r in target && r in t2 ==> t2[r] == target[r])
    {
      NamespacesDisjoint(r);
      if HEADS <= r {
        PushExact(local, target, RefSpec(true, HEADS), anc, outs[1], r);
      } else {
        PushFrame(local, target, true, RefSpec(true, HEADS), anc, outs[1], r);
      }
      PushOkExact(local, target, true, RefSpec(true, HEADS), anc, outs[1]);
      PushOkExact(local, t1, true, RefSpec(true, TAGS), anc, outs[2]);
      if skipping && !HasTags(local) && !HasTags(t1) {
        assert t2 == t1;
      } else if TAGS <= r {
        PushExact(local, t1, RefSpec(true, TAGS), anc, outs[2], r);
      } else {
        PushFrame(local, t1, true, RefSpec(true, TAGS), anc, outs[2], r);
      }
    }
  }

  lemma ExactStable(source: Refs, before: Refs, target: Refs, skipping: bool, anc: Ancestry, outs: seq<Outcome>)
    requires |outs| == 3 && Mirrors(source, before, target)
    ensures SyncForm(source, target, true, true, skipping, anc, outs).0 == target
  {
    var local := BareClone(source);
    assert forall r :: HEADS <= r || TAGS <= r ==> Mirrored(r);
    PushStable(local, target, true, RefSpec(true, HEADS), anc, outs[1]);
    PushStable(local, target, true, RefSpec(true, TAGS), anc, outs[2]);
  }

  /**
   Exact mode: a successful sync leaves the target's branches and tags equal to the source's
   and every other ref of every repository untouched, and a second sync, even one that is
   refused or fails, changes nothing.
   */
  lemma ExactMode(remotes: map<string, Refs>, cfg: Config, anc: Ancestry, outs: seq<Outcome>, again: seq<Outcome>)
    requires PlainConfig(cfg) && Mode(cfg) == "exact" && GitCommands(cfg).Some?
    requires |outs| == |GitCommands(cfg).value| == |again|
    requires Sync(remotes, cfg, true, anc, outs).1
    ensures cfg.sourceURL in remotes && cfg.targetURL in remotes
    ensures var after := Sync(remotes, cfg, true, anc, outs).0.remotes;
            && after.Keys == remotes.Keys
            && (forall u :: u in remotes && u != cfg.targetURL ==> after[u] == remotes[u])
            && Mirrors(remotes[cfg.sourceURL], remotes[cfg.targetURL], after[cfg.targetURL])
            && Sync(after, cfg, true, anc, again).0.remotes == after
  {
    if !(cfg.sourceURL in remotes && cfg.targetURL in remotes) {
      MissingRemote(remotes, cfg, true, anc, outs);
      assert false;
    }
    var source, target := remotes[cfg.sourceURL], remotes[cfg.targetURL];
    SyncHasForm(remotes, cfg, true, anc, outs);
    ExactForm(source, target, true, anc, outs);
    var t := SyncForm(source, target, true, true, true, anc, outs).0;
    var after := remotes[cfg.targetURL := t];
    if cfg.sourceURL == cfg.targetURL {
      assert forall r :: (r in t <==> r in source) && (r in t ==> t[r] == source[r]) by {
        forall r ensures (r in t <==> r in source) && (r in t ==> t[r] == source[r]) {
          assert Mirrored(r) || !Mirrored(r);
        }
      }
      assert t == source;
    }
    SyncHasForm(after, cfg, true, anc, again);
    ExactStable(source, target, t, true, anc, again);
    assert after[cfg.targetURL := t] == after;
  }

  /******* Additive mode *******/

  /** Nothing is deleted, tags and other refs stay put, branches move only to descendants. */
  ghost predicate OnlyGrows(before: Refs, after: Refs, anc: Ancestry) {
    forall r :: r in before ==>
      r in after && (after[r] == before[r] || (HEADS <= r && anc(before[r], after[r])))
  }

  ghost predicate Preorder(anc: Ancestry) {
    && (forall a :: anc(a, a))
    && (forall a, b, c :: anc(a, b) && anc(b, c) ==> anc(a, c))
  }

  lemma GrowsTrans(a: Refs, b: Refs, c: Refs, anc: Ancestry)
    requires Preorder(anc) && OnlyGrows(a, b, anc) && OnlyGrows(b, c, anc)
    ensures OnlyGrows(a, c, anc)
  {}

  lemma PushGrows(local: Refs, target: Refs, prefix: string, anc: Ancestry, out: Outcome)
    requires prefix == HEADS || prefix == TAGS
    ensures OnlyGrows(target, PushRefs(local, target, false, RefSpec(false, prefix), anc, out), anc)
  {}

  /** Every pushed source ref is on the target with the source's value. */
  ghost predicate Copied(source: Refs, target: Refs, withTags: bool) {
    forall r :: r in source && (HEADS <= r || (withTags && TAGS <= r)) ==> r in target && target[r] == source[r]
  }

  lemma AdditiveGrows(source: Refs, target: Refs, withTags: bool, skipping: bool, anc: Ancestry, outs: seq<Outcome>)
    requires |outs| == if withTags then 3 else 2
    requires Preorder(anc)
    ensures OnlyGrows(target, SyncForm(source, target, false, withTags, skipping, anc, outs).0, anc)
  {
    var local := BareClone(source);
    var t1 := PushRefs(local, target, false, RefSpec(false, HEADS), anc, outs[1]);
    PushGrows(local, target, HEADS, anc, outs[1]);
    if withTags {
      PushGrows(local, t1, TAGS, anc, outs[2]);
      GrowsTrans(target, t1, PushRefs(local, t1, false, RefSpec(false, TAGS), anc, outs[2]), anc);
    }
  }

  /** A branch push leaves no mark on tags, nor a tag push on branches. */
  lemma OtherNamespace(local: Refs, target: Refs, prune: bool, prefix: string, other: string,
                       anc: Ancestry, out: Outcome, r: string)
    requires (prefix == HEADS && other == TAGS) || (prefix == TAGS && other == HEADS)
    requires other <= r
    ensures var t := PushRefs(local, target, prune, RefSpec(!prune, prefix), anc, out);
            (r in t <==> r in target) && (r in target ==> t[r] == target[r])
  {
    NamespacesDisjoint(r);
  }

  lemma AdditiveCopies(source: Refs, target: Refs, withTags: bool, skipping: bool, anc: Ancestry, outs: seq<Outcome>)
    requires |outs| == if withTags then 3 else 2
    requires SyncForm(source, target, false, withTags, skipping, anc, outs).1
    ensures Copied(source, SyncForm(source, target, false, withTags, skipping, anc, outs).0, withTags)
  {
    var local := BareClone(source);
    var t := SyncForm(source, target, false, withTags, skipping, anc, outs).0;
    var t1 := PushRefs(local, target, false, RefSpec(false, HEADS), anc, outs[1]);
    PushOkExact(local, target, false, RefSpec(false, HEADS), anc, outs[1]);
    if withTags {
      PushOkExact(local, t1, false, RefSpec(false, TAGS), anc, outs[2]);
    }
    forall r | r in source && (HEADS <= r || (withTags && TAGS <= r)) ensures r in t && t[r] == source[r] {
      assert r in local && local[r] == source[r];
      if HEADS <= r && withTags {
        OtherNamespace(local, t1, false, TAGS, HEADS, anc, outs[2], r);
      }
    }
  }

  lemma AdditiveForm(source: Refs, target: Refs, withTags: bool, skipping: bool, anc: Ancestry, outs: seq<Outcome>)
    requires |outs| == if withTags then 3 else 2
    requires Preorder(anc)
    ensures var (t, ok) := SyncForm(source, target, false, withTags, skipping, anc, outs);
            && OnlyGrows(target, t, anc)
            && (!withTags ==> forall r :: TAGS <= r ==> (r in t <==> r in target))
            && (ok ==> Copied(source, t, withTags))
  {
    AdditiveGrows(source, target, withTags, skipping, anc, outs);
    var (t, ok) := SyncForm(source, target, false, withTags, skipping, anc, outs);
    if ok {
      AdditiveCopies(source, target, withTags, skipping, anc, outs);
    }
    forall r | !withTags && TAGS <= r ensures r in t <==> r in target {
      OtherNamespace(BareClone(source), target, false, HEADS, TAGS, anc, outs[1], r);
    }
  }

  /**
   Additive mode, one sync as the runner executes it, failed or not: of all remotes only the
   target can change, it only grows, and after a success every pushed source ref is on it.
   */
  lemma AdditiveMode(remotes: map<string, Refs>, cfg: Config, anc: Ancestry, outs: seq<Outcome>)
    requires PlainConfig(cfg) && Mode(cfg) == "additive" && GitCommands(cfg).Some? && |outs| == |GitCommands(cfg).value|
    requires Preorder(anc)
    ensures var (git, ok) := Sync(remotes, cfg, true, anc, outs);
            && git.remotes.Keys == remotes.Keys
            && (forall u :: u in remotes && u != cfg.targetURL ==> git.remotes[u] == remotes[u])
            && (cfg.targetURL in remotes ==> OnlyGrows(remotes[cfg.targetURL], git.remotes[cfg.targetURL], anc))
            && (ok ==> cfg.sourceURL in remotes && cfg.targetURL in remotes
                       && Copied(remotes[cfg.sourceURL], git.remotes[cfg.targetURL], cfg.includeTags))
  {
    if cfg.sourceURL in remotes && cfg.targetURL in remotes {
      SyncHasForm(remotes, cfg, true, anc, outs);
      AdditiveForm(remotes[cfg.sourceURL], remotes[cfg.targetURL], cfg.includeTags, true, anc, outs);
    } else {
      MissingRemote(remotes, cfg, true, anc, outs);
      assert forall u :: u in remotes ==> OnlyGrows(remotes[u], remotes[u], anc);
    }
  }

  /** One sync of the archive: its configuration, the other remotes by then, what happens to each command. */
  datatype Attempt = Attempt(cfg: Config, others: map<string, Refs>, outs: seq<Outcome>)

  predicate AdditiveAttempt(a: Attempt, url: string) {
    && PlainConfig(a.cfg) && Mode(a.cfg) == "additive" && a.cfg.targetURL == url
    && GitCommands(a.cfg).Some? && |a.outs| == |GitCommands(a.cfg).value|
  }

  /** The archive at `url` after a series of additive syncs, from whatever the sources hold by then. */
  ghost function Archive(target: Refs, url: string, anc: Ancestry, attempts: seq<Attempt>): Refs
    requires Preorder(anc) && forall k :: 0 <= k < |attempts| ==> AdditiveAttempt(attempts[k], url)
    decreases |attempts|
  {
    if attempts == [] then target
    else
      var a := attempts[0];
      var remotes := a.others[url := target];
      assert AdditiveAttempt(a, url);
      AdditiveMode(remotes, a.cfg, anc, a.outs);
      Archive(Sync(remotes, a.cfg, true, anc, a.outs).0.remotes[url], url, anc, attempts[1..])
  }

  /**
   Additive mode over any series of syncs, failed or not, with any configurations and any
   source history: no target ref is ever deleted, existing tags never move, branches move
   only to descendants.
   */
  lemma {:induction false} AdditiveHistory(target: Refs, url: string, anc: Ancestry, attempts: seq<Attempt>)
    requires Preorder(anc) && forall k :: 0 <= k < |attempts| ==> AdditiveAttempt(attempts[k], url)
    ensures OnlyGrows(target, Archive(target, url, anc, attempts), anc)
    decreases |attempts|
  {
    if attempts != [] {
      var a := attempts[0];
      var remotes := a.others[url := target];
      assert AdditiveAttempt(a, url);
      AdditiveMode(remotes, a.cfg, anc, a.outs);
      var t := Sync(remotes, a.cfg, true, anc, a.outs).0.remotes[url];
      AdditiveHistory(t, url, anc, attempts[1..]);
      GrowsTrans(target, t, Archive(target, url, anc, attempts), anc);
    }
  }

  /******* The empty-tag shortcut *******/

  /** The target after the branch push. */
  function Branched(source: Refs, target: Refs, exact: bool, anc: Ancestry, outs: seq<Outcome>): Refs
    requires |outs| >= 2
  {
    PushRefs(BareClone(source), target, exact, RefSpec(exact, HEADS), anc, outs[1])
  }

  /** The sync gets as far as the tag push. */
  predicate TagsReached(source: Refs, target: Refs, exact: bool, anc: Ancestry, outs: seq<Outcome>)
    requires |outs| == 3
  {
    && !outs[0].noAuth && !outs[0].failed && !outs[1].noAuth && !outs[2].noAuth
    && PushOk(BareClone(source), target, exact, RefSpec(exact, HEADS), anc, outs[1])
  }

  /** What the tag push would do there. */
  predicate TagsChange(source: Refs, target: Refs, exact: bool, anc: Ancestry, outs: seq<Outcome>)
    requires |outs| == 3
  {
    var t1 := Branched(source, target, exact, anc, outs);
    PushChanges(BareClone(source), t1, exact, RefSpec(exact, TAGS), anc, outs[2])
  }

  predicate TagsOk(source: Refs, target: Refs, exact: bool, anc: Ancestry, outs: seq<Outcome>)
    requires |outs| == 3
  {
    var t1 := Branched(source, target, exact, anc, outs);
    PushOk(BareClone(source), t1, exact, RefSpec(exact, TAGS), anc, outs[2])
  }

  /** The tag push is spared: there are no tags on either side. */
  predicate TagsSpared(source: Refs, target: Refs, exact: bool, anc: Ancestry, outs: seq<Outcome>)
    requires |outs| == 3
  {
    !HasTags(BareClone(source)) && !HasTags(Branched(source, target, exact, anc, outs))
  }

  /** The shortcut's query fails, and ends the sync. */
  predicate Cut(source: Refs, target: Refs, exact: bool, anc: Ancestry, outs: seq<Outcome>)
    requires |outs| == 3
  {
    TagsReached(source, target, exact, anc, outs) && QueryFails(BareClone(source), outs[2])
  }

  /** The tag phase alone, with and without the shortcut. */
  lemma SkipTagsExact(local: Refs, t1: Refs, exact: bool, anc: Ancestry, out: Outcome)
    requires !out.noAuth
    ensures var (t, ok) := TagForm(local, t1, exact, true, anc, out);
            var (t', ok') := TagForm(local, t1, exact, false, anc, out);
            if QueryFails(local, out) then
              && (t == t' <==> !PushChanges(local, t1, exact, RefSpec(exact, TAGS), anc, out))
              && (ok == ok' <==> !PushOk(local, t1, exact, RefSpec(exact, TAGS), anc, out))
            else
              t == t' && (ok' ==> ok) && (ok == ok' <==> !(!HasTags(local) && !HasTags(t1) && out.failed))
  {}

  /** Exactly when the shortcut changes the resulting refs, and exactly when it changes the verdict. */
  lemma SkipFormExact(source: Refs, target: Refs, exact: bool, anc: Ancestry, outs: seq<Outcome>)
    requires |outs| == 3
    ensures var (t, ok) := SyncForm(source, target, exact, true, true, anc, outs);
            var (t', ok') := SyncForm(source, target, exact, true, false, anc, outs);
            && (t == t' <==> !(Cut(source, target, exact, anc, outs) && TagsChange(source, target, exact, anc, outs)))
            && (ok == ok' <==>
                  if Cut(source, target, exact, anc, outs) then !TagsOk(source, target, exact, anc, outs)
                  else !(TagsReached(source, target, exact, anc, outs) && TagsSpared(source, target, exact, anc, outs)
                         && outs[2].failed))
            && (!Cut(source, target, exact, anc, outs) ==> (ok' ==> ok))
  {
    if !outs[2].noAuth {
      SkipTagsExact(BareClone(source), Branched(source, target, exact, anc, outs), exact, anc, outs[2]);
    }
  }

  /** A sync of these repositories is cut short by a failing query of the shortcut. */
  predicate CutShort(remotes: map<string, Refs>, cfg: Config, anc: Ancestry, outs: seq<Outcome>) {
    && |outs| == 3 && cfg.sourceURL in remotes && cfg.targetURL in remotes
    && Cut(remotes[cfg.sourceURL], remotes[cfg.targetURL], Exact(cfg), anc, outs)
  }

  /**
   The runner, which skips an empty tag push, against the run that executes every command: the
   remotes agree unless a query of the shortcut fails and the tag push would have changed
   something; short of such a cut the verdict agrees unless the spared no-op push would itself
   have failed, and after a cut unless the tag push would have succeeded.
   */
  lemma SkipPreservesMeaning(remotes: map<string, Refs>, cfg: Config, anc: Ancestry, outs: seq<Outcome>)
    requires PlainConfig(cfg) && GitCommands(cfg).Some? && |outs| == |GitCommands(cfg).value|
    ensures var (git, ok) := Sync(remotes, cfg, true, anc, outs);
            var (git', ok') := Sync(remotes, cfg, false, anc, outs);
            if CutShort(remotes, cfg, anc, outs) then
              var source, target, exact := remotes[cfg.sourceURL], remotes[cfg.targetURL], Exact(cfg);
              && (git.remotes == git'.remotes <==> !TagsChange(source, target, exact, anc, outs))
              && (ok == ok' <==> !TagsOk(source, target, exact, anc, outs))
            else
              && git.remotes == git'.remotes && (ok' ==> ok)
              && (ok == ok' <==> !(|outs| == 3 && cfg.sourceURL in remotes && cfg.targetURL in remotes && outs[2].failed
                                   && SparedThere(remotes, cfg, anc, outs)))
  {
    if cfg.sourceURL in remotes && cfg.targetURL in remotes {
      SyncHasForm(remotes, cfg, true, anc, outs);
      SyncHasForm(remotes, cfg, false, anc, outs);
      if WithTags(cfg) {
        SkipFormExact(remotes[cfg.sourceURL], remotes[cfg.targetURL], Exact(cfg), anc, outs);
        SameRefs(remotes, cfg, anc, outs);
      }
    } else {
      MissingRemote(remotes, cfg, true, anc, outs);
      MissingRemote(remotes, cfg, false, anc, outs);
    }
  }

  /** The sync reaches a tag push that it spares. */
  predicate SparedThere(remotes: map<string, Refs>, cfg: Config, anc: Ancestry, outs: seq<Outcome>)
    requires |outs| == 3 && cfg.sourceURL in remotes && cfg.targetURL in remotes
  {
    var source, target := remotes[cfg.sourceURL], remotes[cfg.targetURL];
    TagsReached(source, target, Exact(cfg), anc, outs) && TagsSpared(source, target, Exact(cfg), anc, outs)
  }

  lemma SameRefs(remotes: map<string, Refs>, cfg: Config, anc: Ancestry, outs: seq<Outcome>)
    requires cfg.sourceURL in remotes && cfg.targetURL in remotes && |outs| == 3
    ensures var source, target, exact := remotes[cfg.sourceURL], remotes[cfg.targetURL], Exact(cfg);
            var t, t' := SyncForm(source, target, exact, true, true, anc, outs).0,
                         SyncForm(source, target, exact, true, false, anc, outs).0;
            remotes[cfg.targetURL := t] == remotes[cfg.targetURL := t'] <==> t == t'
  {
    var source, target, exact := remotes[cfg.sourceURL], remotes[cfg.targetURL], Exact(cfg);
    var t, t' := SyncForm(source, target, exact, true, true, anc, outs).0,
                 SyncForm(source, target, exact, true, false, anc, outs).0;
    assert remotes[cfg.targetURL := t][cfg.targetURL] == t && remotes[cfg.targetURL := t'][cfg.targetURL] == t';
  }

  const FINE := Outcome(false, false, false, false, {})

  /**
   A run that is cut: an exact sync of a source without tags onto a target with one.  The
   remote query fails, so the tag stays and the run fails; without the shortcut the tag would
   have been pruned and the run would have succeeded.
   */
  lemma FailingQueryKeepsTag(cfg: Config, anc: Ancestry, tag: string, oid: Oid)
    requires PlainConfig(cfg) && Mode(cfg) == "exact" && cfg.sourceURL != "" && cfg.targetURL != ""
    requires cfg.sourceURL != cfg.targetURL && TAGS <= tag
    ensures var remotes := map[cfg.sourceURL := map[], cfg.targetURL := map[tag := oid]];
            var outs := [FINE, FINE, FINE.(remoteQueryFails := true)];
            && GitCommands(cfg).Some? && |GitCommands(cfg).value| == 3
            && Sync(remotes, cfg, true, anc, outs).0.remotes == remotes && !Sync(remotes, cfg, true, anc, outs).1
            && Sync(remotes, cfg, false, anc, outs).0.remotes == remotes[cfg.targetURL := map[]]
            && Sync(remotes, cfg, false, anc, outs).1
  {
    var source: Refs, target: Refs := map[], map[tag := oid];
    var remotes := map[cfg.sourceURL := source, cfg.targetURL := target];
    var outs := [FINE, FINE, FINE.(remoteQueryFails := true)];
    SyncHasForm(remotes, cfg, true, anc, outs);
    SyncHasForm(remotes, cfg, false, anc, outs);
    assert BareClone(source) == map[];
    NamespacesDisjoint(tag);
    assert PushRefs(map[], target, true, RefSpec(true, HEADS), anc, FINE) == target;
    assert PushRefs(map[], target, true, RefSpec(true, TAGS), anc, outs[2]) == map[];
    assert remotes[cfg.targetURL := target] == remotes;
  }
}
