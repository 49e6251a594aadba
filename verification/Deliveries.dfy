// What one webhook delivery, and one report of a deployment's status, computes
// between its outside calls.
module Deliveries {
  import opened Types
  import opened Text
  import opened Reconcile

  // ---------- Parsed GitHub events; None stands for an absent field ----------

  datatype Sender = Sender(login: Option<string>, email: Option<string>, avatar: Option<string>)

  datatype HeadCommit = HeadCommit(id: Option<string>, message: Option<string>, url: Option<string>)

  datatype PullRequest = PullRequest(
    id: Option<int>, number: Option<int>, title: Option<string>, body: Option<string>,
    url: Option<string>, merged: Option<bool>, headSHA: Option<string>)

  datatype Event =
    | CreateEvent(ref: Option<string>, refType: Option<string>, sender: Option<Sender>)
    | PushEvent(ref: Option<string>, sender: Option<Sender>, head: Option<HeadCommit>)
    | PullRequestEvent(action: Option<string>, number: Option<int>, sender: Option<Sender>,
                       pull: Option<PullRequest>, repoURL: Option<Option<string>>)
    | OtherEvent

  function OrEmpty(s: Option<string>): string {
    if s.Some? then s.value else ""
  }

  // ---------- Status codes and pull request actions ----------

  const OK := 200
  const Unprocessable := 422
  const InternalError := 500

  const Opened := "opened"
  const Reopened := "reopened"
  const Closed := "closed"
  const Merged := "merged"
  const Synced := "synchronize"

  const BranchPrefix := "refs/heads/"

  // ---------- handleEvent, up to the deployment ----------

  datatype DeployRequest = DeployRequest(owner: string, repo: string, ref: string, environment: string)

  // Panics: the code follows a pointer that the payload left nil.
  datatype Prepared =
    | Reject(code: int)
    | Panics
    | Ready(commit: GitCommit, deploy: Option<DeployRequest>)

  // initExecution; the key's name is the prefix from which the server makes one.
  function InitCommit(o: Watcher): GitCommit {
    GitCommit(
      Key(o.key.ns, o.key.name + "-"),
      o.spec.labels,
      [],
      EmptyCommitSpec.(gitWatcherName := o.key.name, repositoryURL := o.spec.repositoryURL),
      EmptyCommitStatus)
  }

  function WithOwner(c: GitCommit, o: Watcher): GitCommit {
    c.(owners := c.owners + [OwnerRef(o.key.name, o.uid, false)])
  }

  function WithSender(c: GitCommit, sender: Option<Sender>): GitCommit {
    match sender
    case None => c
    case Some(s) =>
      c.(spec := c.spec.(author := OrEmpty(s.login), authorEmail := OrEmpty(s.email),
                         authorAvatar := OrEmpty(s.avatar)))
  }

  // git.TagMatch returns nil
  predicate TagMatches(cfg: Config, spec: WatcherSpec, tag: string) {
    && (spec.tagInclude == "" || cfg.regexp(spec.tagInclude, tag) == Some(true))
    && (spec.tagExclude == "" || cfg.regexp(spec.tagExclude, tag) == Some(false))
  }

  function HandleEvent(cfg: Config, o: Watcher, e: Event): Prepared {
    match e
    case CreateEvent(ref, refType, sender) => HandleTag(cfg, o, ref, refType, sender)
    case PushEvent(ref, sender, head) => HandlePush(cfg, o, ref, sender, head)
    case PullRequestEvent(_, _, _, _, _) => HandlePullRequest(cfg, o, e)
    case OtherEvent => Ready(WithOwner(InitCommit(o), o), None)
  }

  function HandleTag(cfg: Config, o: Watcher, ref: Option<string>, refType: Option<string>,
                     sender: Option<Sender>): Prepared
  {
    if !o.spec.tag || ref.None? || OrEmpty(refType) != "tag" || !TagMatches(cfg, o.spec, ref.value) then
      Reject(Unprocessable)
    else
      var c := InitCommit(o);
      Ready(WithOwner(WithSender(c.(spec := c.spec.(tag := ref.value)), sender), o), None)
  }

  // createDeploymentForProduction
  function ProductionDeployment(cfg: Config, o: Watcher, c: GitCommit, commit: string): Prepared {
    if !o.spec.githubDeployment then Ready(WithOwner(c, o), None)
    else
      match OwnerAndRepo(cfg, o.spec.repositoryURL)
      case Err(_) => Reject(InternalError)
      case Ok((owner, repo)) => Ready(WithOwner(c, o), Some(DeployRequest(owner, repo, commit, "production")))
  }

  function HandlePush(cfg: Config, o: Watcher, ref: Option<string>, sender: Option<Sender>,
                      head: Option<HeadCommit>): Prepared
  {
    if ref.Some? && !HasPrefix(ref.value, BranchPrefix) then Reject(Unprocessable)
    else
      var c0 := InitCommit(o);
      var c1 := c0.(spec := c0.spec.(branch := TrimPrefix(OrEmpty(ref), BranchPrefix)));
      var c2 := WithSender(c1, sender);
      match head
      case None => Ready(WithOwner(c2, o), None)
      case Some(h) =>
        var c3 := c2.(spec := c2.spec.(message := OrEmpty(h.message), commit := OrEmpty(h.id),
                                       sourceLink := OrEmpty(h.url)));
        if c3.spec.branch == o.spec.branch then ProductionDeployment(cfg, o, c3, OrEmpty(h.id))
        else Ready(WithOwner(c3, o), None)
  }

  predicate KnownAction(action: string) {
    action == Opened || action == Reopened || action == Closed || action == Merged || action == Synced
  }

  function WithPull(c: GitCommit, pull: Option<PullRequest>): GitCommit {
    match pull
    case None => c
    case Some(p) =>
      c.(spec := c.spec.(title := OrEmpty(p.title), message := OrEmpty(p.body), sourceLink := OrEmpty(p.url),
                         merged := p.merged == Some(true), commit := OrEmpty(p.headSHA)))
  }

  function PullCommit(o: Watcher, e: Event): GitCommit
    requires e.PullRequestEvent? && e.action.Some?
  {
    var c0 := InitCommit(o);
    var c1 := WithSender(c0.(spec := c0.spec.(action := e.action.value)), e.sender);
    var c2 := if e.number.Some? then c1.(spec := c1.spec.(pr := Itoa(e.number.value))) else c1;
    var c3 := WithPull(c2, e.pull);
    var c4 := if e.action.value == Closed then c3.(spec := c3.spec.(closed := true)) else c3;
    if e.repoURL.Some? then c4.(spec := c4.spec.(repositoryURL := OrEmpty(e.repoURL.value))) else c4
  }

  // createDeploymentForPullRequest
  function PullDeployment(cfg: Config, o: Watcher, c: GitCommit, e: Event): Prepared
    requires e.PullRequestEvent? && e.action.Some?
  {
    if !o.spec.githubDeployment || (e.action.value != Opened && e.action.value != Synced) then
      Ready(WithOwner(c, o), None)
    else
      match OwnerAndRepo(cfg, o.spec.repositoryURL)
      case Err(_) => Reject(InternalError)
      case Ok((owner, repo)) =>
        if e.pull.None? || e.pull.value.id.None? then Reject(InternalError)
        else if e.pull.value.number.None? then Panics
        else
          var ref := "pull/" + Itoa(e.pull.value.number.value) + "/head";
          Ready(WithOwner(c, o), Some(DeployRequest(owner, repo, ref, "staging")))
  }

  function HandlePullRequest(cfg: Config, o: Watcher, e: Event): Prepared
    requires e.PullRequestEvent?
  {
    if !o.spec.pr then Reject(Unprocessable)
    else if e.action.None? then Panics
    else if !KnownAction(e.action.value) then Reject(Unprocessable)
    else PullDeployment(cfg, o, PullCommit(o, e), e)
  }

  // ---------- HandleHook ----------

  // An HTTP request, as far as the handler looks at it, and the answers it gets.
  // signature is the secret the payload was signed with.
  datatype Request = Request(
    receiverID: string, getFails: bool, readable: bool, signature: string,
    event: Option<Event>, client: Lookup)

  // github.ValidatePayload: without a stored token no signature is asked for.
  predicate ValidPayload(o: Watcher, req: Request) {
    req.readable && (o.status.token == "" || req.signature == o.status.token)
  }

  function ReceiverKey(req: Request): Key {
    var (ns, name) := Split(req.receiverID, ':');
    Key(ns, name)
  }

  // stored is the watcher the API server has under the receiver's key.
  function HandleHook(cfg: Config, stored: Option<Watcher>, req: Request): Prepared {
    if req.receiverID == "" then Reject(0)
    else if req.getFails || stored.None? then Reject(InternalError)
    else if !stored.value.spec.enabled then Reject(Unprocessable)
    else if !ValidPayload(stored.value, req) || req.event.None? then Reject(InternalError)
    else if ClientError(stored.value, req.client).Some? then Reject(InternalError)
    else HandleEvent(cfg, stored.value, req.event.value)
  }

  // ---------- When a delivery is accepted, and when it deploys ----------

  predicate WantsPullDeployment(o: Watcher, e: Event) {
    e.PullRequestEvent? && o.spec.githubDeployment && (e.action == Some("opened") || e.action == Some("synchronize"))
  }

  predicate PushesWatchedBranch(o: Watcher, e: Event) {
    && e.PushEvent?
    && e.head.Some?
    && (e.ref == Some("refs/heads/" + o.spec.branch) || (e.ref.None? && o.spec.branch == ""))
  }

  predicate HasPullData(e: Event) {
    e.PullRequestEvent? && e.pull.Some? && e.pull.value.id.Some?
  }

  // The event passes the watcher's filters.
  predicate Admitted(cfg: Config, o: Watcher, e: Event) {
    match e
    case CreateEvent(ref, refType, _) =>
      && o.spec.tag && ref.Some? && refType == Some("tag")
      && (o.spec.tagInclude == "" || cfg.regexp(o.spec.tagInclude, ref.value) == Some(true))
      && (o.spec.tagExclude == "" || cfg.regexp(o.spec.tagExclude, ref.value) == Some(false))
    case PushEvent(ref, _, _) => ref.None? || "refs/heads/" <= ref.value
    case PullRequestEvent(action, _, _, _, _) =>
      && o.spec.pr
      && (action == Some("opened") || action == Some("reopened") || action == Some("closed") ||
          action == Some("merged") || action == Some("synchronize"))
    case OtherEvent => true
  }

  // The deployment the event calls for, if any.
  function DeploymentFor(cfg: Config, o: Watcher, e: Event): Option<DeployRequest> {
    match OwnerAndRepo(cfg, o.spec.repositoryURL)
    case Err(_) => None
    case Ok((owner, repo)) =>
      if o.spec.githubDeployment && PushesWatchedBranch(o, e) then
        Some(DeployRequest(owner, repo, OrEmpty(e.head.value.id), "production"))
      else if Admitted(cfg, o, e) && WantsPullDeployment(o, e) && HasPullData(e) && e.pull.value.number.Some? then
        Some(DeployRequest(owner, repo, "pull/" + Itoa(e.pull.value.number.value) + "/head", "staging"))
      else None
  }

  lemma BranchOfRef(ref: string, branch: string)
    requires BranchPrefix <= ref
    ensures TrimPrefix(ref, BranchPrefix) == branch <==> ref == BranchPrefix + branch
  {
    assert ref == BranchPrefix + ref[|BranchPrefix|..];
    assert (BranchPrefix + branch)[|BranchPrefix|..] == branch;
  }

  // A deployment is requested exactly when deployments are enabled, the owner and
  // repository parse, and the event is a push with a head commit to the watched
  // branch or an accepted opened or synchronize pull request event with its data;
  // and it is the one the event calls for.
  lemma DeploymentCharacterised(cfg: Config, o: Watcher, e: Event)
    ensures var p := HandleEvent(cfg, o, e);
      (if p.Ready? then p.deploy else None) == DeploymentFor(cfg, o, e)
  {
    if e.PushEvent? {
      PushCharacterised(cfg, o, e);
    } else if e.PullRequestEvent? {
      PullCharacterised(cfg, o, e);
    }
  }

  lemma PushCharacterised(cfg: Config, o: Watcher, e: Event)
    requires e.PushEvent?
    ensures var p := HandleEvent(cfg, o, e);
      (if p.Ready? then p.deploy else None) == DeploymentFor(cfg, o, e)
  {
    if e.ref.Some? && BranchPrefix <= e.ref.value {
      BranchOfRef(e.ref.value, o.spec.branch);
    }
  }

  lemma PullCharacterised(cfg: Config, o: Watcher, e: Event)
    requires e.PullRequestEvent?
    ensures var p := HandleEvent(cfg, o, e);
      (if p.Ready? then p.deploy else None) == DeploymentFor(cfg, o, e)
  {
  }

  // A GitCommit is made ready exactly for admitted events whose deployment, when
  // one is wanted, can be asked for.
  lemma ReadyCharacterised(cfg: Config, o: Watcher, e: Event)
    ensures HandleEvent(cfg, o, e).Ready? <==>
      && Admitted(cfg, o, e)
      && ((o.spec.githubDeployment && PushesWatchedBranch(o, e)) || WantsPullDeployment(o, e) ==>
            DeploymentFor(cfg, o, e).Some?)
  {
    if e.PushEvent? && e.ref.Some? && BranchPrefix <= e.ref.value {
      BranchOfRef(e.ref.value, o.spec.branch);
    }
  }

  // The commit c was built for o, and carries a pull request number exactly when
  // numbered.
  ghost predicate BuiltFor(o: Watcher, c: GitCommit, numbered: bool) {
    && c.key == Key(o.key.ns, o.key.name + "-")
    && c.spec.gitWatcherName == o.key.name
    && c.status == EmptyCommitStatus
    && (c.spec.pr != "" <==> numbered)
  }

  lemma PullCommitBuilt(o: Watcher, e: Event)
    requires e.PullRequestEvent? && e.action.Some?
    ensures BuiltFor(o, PullCommit(o, e), e.number.Some?) && PullCommit(o, e).owners == []
  {
    var c0 := InitCommit(o);
    var c1 := WithSender(c0.(spec := c0.spec.(action := e.action.value)), e.sender);
    assert BuiltFor(o, c1, false) && c1.owners == [];
    var c2 := if e.number.Some? then c1.(spec := c1.spec.(pr := Itoa(e.number.value))) else c1;
    assert BuiltFor(o, c2, e.number.Some?) && c2.owners == [];
    var c3 := WithPull(c2, e.pull);
    assert BuiltFor(o, c3, e.number.Some?) && c3.owners == [];
  }

  // Whatever the event, the GitCommit belongs to the watcher it was delivered to, and
  // it has a pull request number exactly when the event carries one.
  lemma ReadyCommit(cfg: Config, o: Watcher, e: Event)
    requires HandleEvent(cfg, o, e).Ready?
    ensures var c := HandleEvent(cfg, o, e).commit;
      && BuiltFor(o, c, e.PullRequestEvent? && e.number.Some?)
      && c.owners == [OwnerRef(o.key.name, o.uid, false)]
  {
    if e.PullRequestEvent? {
      PullCommitBuilt(o, e);
      assert HandleEvent(cfg, o, e).commit == WithOwner(PullCommit(o, e), o);
    }
  }

  // ---------- updateGithubStatus ----------

  datatype StatusCall = StatusCall(
    deployment: nat, owner: string, repo: string, state: string, environment: string,
    autoInactive: bool, environmentURL: string, logURL: string)

  // The call made for a GitCommit, if any; watcher is what the cache has for its name.
  function StatusReport(cfg: Config, c: GitCommit, watcher: Option<Watcher>, secret: Lookup): Option<StatusCall> {
    if c.status.github.None? || watcher.None? then None
    else if ClientError(watcher.value, secret).Some? then None
    else
      var github := c.status.github.value;
      var state := if github.deploymentState == "" then c.status.buildStatus else github.deploymentState;
      match OwnerAndRepo(cfg, watcher.value.spec.repositoryURL)
      case Err(_) => None
      case Ok((owner, repo)) =>
        if state == "" then None
        else
          Some(StatusCall(
            github.deploymentID, owner, repo, state,
            if c.spec.pr != "" then "staging" else "production",
            c.spec.pr == "", github.environmentURL, github.logURL))
  }
}
