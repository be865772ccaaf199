/**
 What happens to the credentials before the first git command (sync/main.go): keys are copied
 and tokens fetched, and each endpoint is checked.  Copying a key or fetching a token is a call
 into the outside, whose result is a `Preparation`; `https` tells the URLs of that scheme.
 */
module Credentials {
  import opened Base
  import opened Commands

  /** Whether the key was copied or the token created, and the path or token. */
  datatype Preparation = Preparation(ok: bool, result: string)

  const TOKEN_USER := "x-access-token"

  function PrepareAuth(auth: EndpointAuth, p: Preparation): Option<EndpointAuth> {
    if auth.kind == "" || auth.kind == BASIC then Some(auth)
    else if auth.kind == SSH then
      if auth.sshKeyPath == "" || !p.ok then None else Some(auth.(sshKeyPath := p.result))
    else if auth.kind == GITHUB_APP then
      if !p.ok then None else Some(auth.(username := TOKEN_USER, password := p.result))
    else None
  }

  predicate AuthValid(auth: EndpointAuth, url: string, https: string -> bool) {
    if auth.kind == SSH then auth.sshKeyPath != ""
    else if auth.kind == BASIC || auth.kind == GITHUB_APP then https(url) && auth.username != "" && auth.password != ""
    else false
  }

  /** prepareCredentials and the two checks of Run; None where any of them is an error. */
  function Prepared(cfg: Config, source: Preparation, target: Preparation, https: string -> bool): Option<Config> {
    var s, t := PrepareAuth(cfg.sourceAuth, source), PrepareAuth(cfg.targetAuth, target);
    if s.None? || t.None? then None
    else if !AuthValid(s.value, cfg.sourceURL, https) || !AuthValid(t.value, cfg.targetURL, https) then None
    else Some(cfg.(sourceAuth := s.value, targetAuth := t.value))
  }

  /** Exactly when an endpoint's credentials pass, told from what is there before the preparation. */
  predicate Usable(auth: EndpointAuth, url: string, p: Preparation, https: string -> bool) {
    || (auth.kind == SSH && auth.sshKeyPath != "" && p.ok && p.result != "")
    || (auth.kind == BASIC && https(url) && auth.username != "" && auth.password != "")
    || (auth.kind == GITHUB_APP && https(url) && p.ok && p.result != "")
  }

  lemma PreparedExactly(cfg: Config, source: Preparation, target: Preparation, https: string -> bool)
    ensures Prepared(cfg, source, target, https).Some? <==>
            Usable(cfg.sourceAuth, cfg.sourceURL, source, https) && Usable(cfg.targetAuth, cfg.targetURL, target, https)
  {}

  /** What an endpoint's credentials have become: its own copied key, its own token, or themselves. */
  predicate Carries(auth: EndpointAuth, raw: EndpointAuth, p: Preparation) {
    && auth.kind == raw.kind
    && (auth.kind == SSH || auth.kind == BASIC || auth.kind == GITHUB_APP)
    && (auth.kind == SSH ==> auth == raw.(sshKeyPath := p.result))
    && (auth.kind == BASIC ==> auth == raw)
    && (auth.kind == GITHUB_APP ==> auth == raw.(username := "x-access-token", password := p.result))
  }

  /** Each side keeps its own credentials, and nothing else of the configuration changes. */
  lemma PreparedSides(cfg: Config, source: Preparation, target: Preparation, https: string -> bool)
    requires Prepared(cfg, source, target, https).Some?
    ensures var done := Prepared(cfg, source, target, https).value;
            && Carries(done.sourceAuth, cfg.sourceAuth, source) && Carries(done.targetAuth, cfg.targetAuth, target)
            && done == cfg.(sourceAuth := done.sourceAuth, targetAuth := done.targetAuth)
  {}

  /** The preparation changes no command. */
  lemma PreparedCommands(cfg: Config, source: Preparation, target: Preparation, https: string -> bool)
    requires Prepared(cfg, source, target, https).Some?
    ensures GitCommands(Prepared(cfg, source, target, https).value) == GitCommands(cfg)
  {}
}
