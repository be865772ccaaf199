/**
 Which credentials go where: whatever contact a sync makes with a remote, to clone the source,
 to ask the target for its tags or to push to it, it makes with the credentials of that side.
 */
module CredentialUse {
  import opened Base
  import opened Commands
  import opened Credentials
  import opened GitSync

  /** Cloning goes to the source with its credentials, anything else to the target with its own. */
  predicate Proper(c: Contact, cfg: Config) {
    if c.clones then c.url == cfg.sourceURL && c.auth == cfg.sourceAuth
    else c.url == cfg.targetURL && c.auth == cfg.targetAuth
  }

  predicate AllProper(cs: seq<Contact>, cfg: Config) {
    forall k :: 0 <= k < |cs| ==> Proper(cs[k], cfg)
  }

  lemma CloneProper(git: Git, cfg: Config, out: Outcome)
    requires PlainConfig(cfg)
    ensures AllProper(TurnContacts(git, cfg, CloneCommand(cfg.sourceURL, RepoPath(cfg)), out), cfg)
  {
    CloneScans(cfg.sourceURL, RepoPath(cfg));
  }

  lemma QueryProper(git: Git, cfg: Config, args: Command, out: Outcome)
    requires TargetOf(args) == Some(cfg.targetURL)
    ensures AllProper(QueryContacts(git, args, out, cfg.targetAuth), cfg)
  {}

  lemma ExecProper(cfg: Config, args: Command)
    requires !IsClone(args) && (IsPush(args) ==> args[|args| - 2] == cfg.targetURL)
    ensures AllProper(ExecContacts(args, cfg.targetAuth), cfg)
  {}

  /** What a command other than the clone contacts: its query, its push, or both. */
  lemma OtherContacts(git: Git, cfg: Config, args: Command, out: Outcome)
    requires "clone" !in args
    ensures var query, exec := QueryContacts(git, args, out, cfg.targetAuth), ExecContacts(args, cfg.targetAuth);
            TurnContacts(git, cfg, args, out) in [[], query, query + exec]
  {
    assert QueryContacts(git, args, out, cfg.targetAuth) + [] == QueryContacts(git, args, out, cfg.targetAuth);
  }

  lemma OtherProper(git: Git, cfg: Config, args: Command, out: Outcome)
    requires "clone" !in args && !IsClone(args) && (IsPush(args) ==> args[|args| - 2] == cfg.targetURL)
    requires TargetOf(args) == Some(cfg.targetURL)
    ensures AllProper(TurnContacts(git, cfg, args, out), cfg)
  {
    QueryProper(git, cfg, args, out);
    ExecProper(cfg, args);
    OtherContacts(git, cfg, args, out);
  }

  lemma TurnProper(git: Git, cfg: Config, i: nat, out: Outcome)
    requires PlainConfig(cfg) && GitCommands(cfg).Some? && i < |GitCommands(cfg).value|
    ensures AllProper(TurnContacts(git, cfg, GitCommands(cfg).value[i], out), cfg)
  {
    CommandShapes(cfg);
    CommandsParseBack(cfg, i);
    if i == 0 {
      CloneProper(git, cfg, out);
    } else {
      OtherProper(git, cfg, GitCommands(cfg).value[i], out);
    }
  }

  lemma {:induction false} LoopProper(made: seq<Contact>, git: Git, cfg: Config, i: nat,
                                      anc: Ancestry, outs: seq<Outcome>)
    requires PlainConfig(cfg) && GitCommands(cfg).Some? && i <= |GitCommands(cfg).value| == |outs|
    requires AllProper(made, cfg)
    ensures AllProper(Contacts(made, git, cfg, GitCommands(cfg).value, i, anc, outs), cfg)
    decreases |outs| - i
  {
    if i < |outs| {
      var args := GitCommands(cfg).value[i];
      TurnProper(git, cfg, i, outs[i]);
      LoopProper(made + TurnContacts(git, cfg, args, outs[i]), AfterTurn(git, args, anc, outs[i]).0, cfg, i + 1,
                 anc, outs);
    }
  }

  /**
   For all configurations whose paths and URLs no scanner can mistake: every contact is with
   the source's URL and the source's credentials, or with the target's URL and the target's,
   as they were configured and prepared for that side.
   */
  lemma CredentialsKept(git: Git, raw: Config, source: Preparation, target: Preparation, https: string -> bool,
                        anc: Ancestry, outs: seq<Outcome>, c: Contact)
    requires PlainConfig(raw) && GitCommands(raw).Some? && |outs| == |GitCommands(raw).value|
    requires Prepared(raw, source, target, https).Some?
    requires c in Contacts([], git, Prepared(raw, source, target, https).value, GitCommands(raw).value, 0, anc, outs)
    ensures c.clones ==> c.url == raw.sourceURL && Carries(c.auth, raw.sourceAuth, source)
    ensures !c.clones ==> c.url == raw.targetURL && Carries(c.auth, raw.targetAuth, target)
    ensures raw.sourceURL != raw.targetURL ==> (c.url == raw.sourceURL <==> c.clones)
  {
    var cfg := Prepared(raw, source, target, https).value;
    PreparedSides(raw, source, target, https);
    PreparedCommands(raw, source, target, https);
    LoopProper([], git, cfg, 0, anc, outs);
  }
}
