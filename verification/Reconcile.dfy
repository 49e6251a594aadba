// What one reconcile of a GitWatcher computes between the calls it makes to the
// outside, as functions of the object it holds and the answers it gets.
// Protocol.dfy runs these pieces interleaved; Controller.dfy has the methods
// that perform them one after the other.
module Reconcile {
  import opened Types
  import opened Text
  import opened Format
  import opened Endpoint

  // ---------- Providers ----------

  // The answer of the secret cache; any other error than "not found" is Failed.
  datatype Lookup = Found | Missing(message: string) | Failed(message: string)

  const DeprecatedDefaultSecretName := "githubtoken"

  function WebhookSecretName(o: Watcher): Result<string> {
    if o.spec.githubWebhookToken != "" then Ok(o.spec.githubWebhookToken)
    else if o.status.hookID != "" then Ok(DeprecatedDefaultSecretName)
    else Err("github webhook token not found")
  }

  predicate OnGitHub(spec: WatcherSpec) {
    EqualFold(spec.provider, "github") || HasPrefix(spec.repositoryURL, "https://github.com")
  }

  predicate GitHubSupports(o: Watcher, secret: Lookup) {
    WebhookSecretName(o).Ok? && !secret.Missing? && OnGitHub(o.spec)
  }

  predicate PollingSupports(o: Watcher) {
    o.spec.branch != ""
  }

  datatype Provider = GitHub | Polling

  // The first provider that supports the watcher.
  function ProviderFor(o: Watcher, secret: Lookup): Option<Provider> {
    if GitHubSupports(o, secret) then Some(GitHub)
    else if PollingSupports(o) then Some(Polling)
    else None
  }

  function OwnerAndRepo(cfg: Config, repoURL: string): Result<(string, string)> {
    match cfg.parsePath(repoURL)
    case None => Err("cannot parse repository URL")
    case Some(path) => Ok(Split(TrimSuffix(TrimPrefix(path, "/"), ".git"), '/'))
  }

  function Events(spec: WatcherSpec): seq<string> {
    (if spec.push then ["push"] else []) +
    (if spec.pr then ["pull_request"] else []) +
    (if spec.tag then ["create"] else [])
  }

  // ---------- GitHub's ledger of hooks ----------

  // Named: the id reached the controller. Unnamed: the call succeeded but the
  // answer had no id. Stray: the hook exists although the call was reported failed.
  datatype Report = Named | Unnamed | Stray

  datatype Hook = Hook(
    watcher: Key, url: string, secret: string, owner: string, repo: string,
    events: seq<string>, report: Report)

  datatype HookAnswer =
    | Created(id: nat)
    | CreatedUnnamed(id: nat)
    | Refused(message: string)
    | Timeout(id: nat, message: string)

  // ---------- The pieces of a reconcile ----------

  // The state of a provider's Create between two of its outside calls. obj is
  // the working copy, hook the id createHook got.
  datatype Phase =
    | Started
    | Hooked(obj: Watcher, hook: Option<nat>)
    | Fetched(obj: Watcher, hook: Option<nat>, commit: string, source: Provider)
    | Returned(obj: Watcher, hook: Option<nat>, err: Option<string>)

  datatype StartAnswers = StartAnswers(
    supports: Lookup, client: Lookup, token: string, hook: HookAnswer,
    credential: Lookup, lines: Result<seq<string>>)

  datatype Start = Start(phase: Phase, entry: Option<(nat, Hook)>)

  function WithToken(o: Watcher, token: string): Watcher {
    o.(status := o.status.(token := token))
  }

  function WithHookID(o: Watcher, hookID: string): Watcher {
    o.(status := o.status.(hookID := hookID))
  }

  function WithFirstCommit(o: Watcher, commit: string): Watcher {
    o.(status := o.status.(firstCommit := commit))
  }

  // Supports of each provider, then Create up to its first outside effect.
  function StartReconcile(cfg: Config, o: Watcher, a: StartAnswers): Start {
    match ProviderFor(o, a.supports)
    case None => Start(Returned(o, None, None), None)
    case Some(GitHub) => StartGitHub(cfg, o, a)
    case Some(Polling) => Start(StartPolling(o, a), None)
  }

  function ClientError(o: Watcher, secret: Lookup): Option<string> {
    match WebhookSecretName(o)
    case Err(m) => Some(m)
    case Ok(_) => if secret.Found? then None else Some(secret.message)
  }

  function StartGitHub(cfg: Config, o: Watcher, a: StartAnswers): Start {
    if o.status.hookID != "" then Start(Returned(o, None, None), None)
    else if ClientError(o, a.client).Some? then
      Start(Returned(o, None, ClientError(o, a.client)), None)
    else CreateHook(cfg, o, a.token, a.hook)
  }

  function CreateHook(cfg: Config, o: Watcher, token: string, answer: HookAnswer): Start {
    var o1 := WithToken(o, token);
    match OwnerAndRepo(cfg, o.spec.repositoryURL)
    case Err(m) => Start(Returned(o1, None, Some(m)), None)
    case Ok((owner, repo)) =>
      var hook := (report: Report) =>
        Hook(o.key, HookEndpoint(cfg, o), token, owner, repo, Events(o.spec), report);
      match answer
      case Created(id) => Start(Hooked(WithHookID(o1, Itoa(id)), Some(id)), Some((id, hook(Named))))
      case CreatedUnnamed(id) => Start(Hooked(o1, None), Some((id, hook(Unnamed))))
      case Refused(m) => Start(Returned(o1, None, Some(m)), None)
      case Timeout(id, m) => Start(Returned(o1, None, Some(m)), Some((id, hook(Stray))))
  }

  function StartPolling(o: Watcher, a: StartAnswers): Phase {
    if a.credential.Failed? then Returned(o, None, Some(a.credential.message))
    else
      match a.lines
      case Err(m) => Returned(o, None, Some(m))
      case Ok(lines) =>
        match FirstField(lines, "no commit for branch: " + o.spec.branch)
        case Err(m) => Returned(o, None, Some(m))
        case Ok(commit) => Fetched(o, None, commit, Polling)
  }

  // getFirstCommit up to ApplyCommit; the answer is GetRef's, without a SHA when None.
  function FetchRef(cfg: Config, o: Watcher, hook: Option<nat>, answer: Result<Option<string>>): Phase {
    if o.status.firstCommit != "" || o.spec.branch == "" then Returned(o, hook, None)
    else
      match OwnerAndRepo(cfg, o.spec.repositoryURL)
      case Err(m) => Returned(o, hook, Some(m))
      case Ok(_) =>
        match answer
        case Err(m) => Returned(o, hook, Some(m))
        case Ok(None) => Returned(o, hook, None)
        case Ok(Some(sha)) => Fetched(o, hook, sha, GitHub)
  }

  // An apply may be reported failed after it took effect.
  datatype ApplyAnswer = ApplyAnswer(stored: bool, err: Option<string>) {
    predicate Landed() {
      err.None? || stored
    }
  }

  // What each provider does after ApplyCommit. GitHub records the commit even
  // when the apply failed, polling does not.
  function AfterApply(o: Watcher, hook: Option<nat>, commit: string, source: Provider, a: ApplyAnswer): Phase {
    match source
    case GitHub => Returned(WithFirstCommit(o, commit), hook, a.err)
    case Polling =>
      if a.err.Some? then Returned(o, hook, a.err)
      else Returned(if o.status.firstCommit == "" then WithFirstCommit(o, commit) else o, hook, None)
  }

  // ---------- Conditions ----------

  const Registered := "Registered"

  // condition.SetError on a condition that is there; no message means no error.
  function Mark(c: Condition, err: Option<string>, now: string): Condition {
    var (status, message, reason) := if err.Some? then ("False", err.value, "Error") else ("True", "", "");
    var c1 := if c.status != status then c.(status := status, lastUpdateTime := now) else c;
    var c2 := if c1.message != message then c1.(message := message, lastUpdateTime := now) else c1;
    c2.(reason := reason)
  }

  function NewCondition(kind: string): Condition {
    Condition(kind, "Unknown", "", "", "", "")
  }

  // It changes the first condition of this kind, or appends one.
  function SetError(conditions: seq<Condition>, kind: string, err: Option<string>, now: string): seq<Condition> {
    if |conditions| == 0 then [Mark(NewCondition(kind), err, now)]
    else if conditions[0].kind == kind then [Mark(conditions[0], err, now)] + conditions[1..]
    else [conditions[0]] + SetError(conditions[1..], kind, err, now)
  }

  // The object onChange compares with the one it was given, and writes.
  function NewObject(o: Watcher, err: Option<string>, now: string): Watcher {
    if err.None? then o
    else o.(status := o.status.(conditions := SetError(o.status.conditions, Registered, err, now)))
  }

  // ---------- GitCommits ----------

  function Limit(s: string, n: nat): string {
    if |s| <= n then s else s[..n]
  }

  // name.SafeConcatName of two parts
  function SafeConcatName(cfg: Config, a: string, b: string): string {
    var full := a + "-" + b;
    if |full| > 63 then full[..57] + "-" + Limit(cfg.sha256Hex(full), 5) else full
  }

  function CommitName(cfg: Config, watcher: string, commit: string): string {
    SafeConcatName(cfg, watcher, Limit(cfg.md5Hex(commit), 5))
  }

  // The GitCommit that ApplyCommit asks for.
  function DesiredCommit(cfg: Config, o: Watcher, commit: string): GitCommit {
    GitCommit(
      Key(o.key.ns, CommitName(cfg, o.key.name, commit)),
      o.spec.labels,
      [OwnerRef(o.key.name, o.uid, true)],
      EmptyCommitSpec.(branch := o.spec.branch, repositoryURL := o.spec.repositoryURL,
                       commit := commit, gitWatcherName := o.key.name),
      EmptyCommitStatus)
  }

  // Apply without deletion: create the object, or overwrite the fields it names
  // in the one that is there.
  function Upsert(commits: map<Key, GitCommit>, c: GitCommit): map<Key, GitCommit> {
    if c.key in commits then commits[c.key := Merge(commits[c.key], c)] else commits[c.key := c]
  }

  function Merge(existing: GitCommit, c: GitCommit): GitCommit {
    existing.(labels := c.labels, owners := c.owners,
         spec := existing.spec.(branch := c.spec.branch, repositoryURL := c.spec.repositoryURL,
                           commit := c.spec.commit, gitWatcherName := c.spec.gitWatcherName))
  }
}
