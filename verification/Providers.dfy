// The two providers as objects, in the form of the source: working copies whose
// fields are set step by step, and calls to the servers. Each method is proved to
// do what the functions of Reconcile.dfy and Deliveries.dfy say.
module Providers {
  import opened Types
  import opened Text
  import opened Endpoint
  import opened Format
  import opened Reconcile
  import opened ReconcileLaws
  import opened ReconcileProgress
  import opened Deliveries
  import opened DeliveryLaws
  import opened Servers
  import S = System

  // The store after the ApplyCommit, if any, of a Create that is in this phase.
  function CommitsAfter(cfg: Config, commits: map<Key, GitCommit>, phase: Phase, applied: ApplyAnswer)
    : map<Key, GitCommit>
  {
    if phase.Fetched? && applied.Landed() then Upsert(commits, DesiredCommit(cfg, phase.obj, phase.commit)) else commits
  }

  // ---------- pkg/provider/polling/polling.go ----------

  method ApplyCommit(cfg: Config, api: ApiServer, obj: Watcher, commit: string, answer: ApplyAnswer)
    returns (err: Option<string>)
    modifies api`commits
    ensures api.commits ==
      if answer.Landed() then Upsert(old(api.commits), DesiredCommit(cfg, obj, commit)) else old(api.commits)
    ensures err == answer.err
  {
    var gitCommit := GitCommit(
      Key(obj.key.ns, SafeConcatName(cfg, obj.key.name, Limit(cfg.md5Hex(commit), 5))),
      obj.spec.labels,
      [OwnerRef(obj.key.name, obj.uid, true)],
      EmptyCommitSpec,
      EmptyCommitStatus);
    gitCommit := gitCommit.(spec := gitCommit.spec.(branch := obj.spec.branch));
    gitCommit := gitCommit.(spec := gitCommit.spec.(repositoryURL := obj.spec.repositoryURL));
    gitCommit := gitCommit.(spec := gitCommit.spec.(commit := commit));
    gitCommit := gitCommit.(spec := gitCommit.spec.(gitWatcherName := obj.key.name));
    err := api.ApplyObject(gitCommit, answer);
  }

  class PollingProvider {
    const cfg: Config
    const api: ApiServer

    constructor (cfg: Config, api: ApiServer)
      ensures this.cfg == cfg && this.api == api
    {
      this.cfg, this.api := cfg, api;
    }

    method Create(o: Watcher, script: Script) returns (obj: Watcher, err: Option<string>)
      modifies api`commits
      ensures var phase := AfterApplied(StartPolling(o, script.answers), script.applied);
        phase == Returned(obj, None, err)
      ensures api.commits == CommitsAfter(cfg, old(api.commits), StartPolling(o, script.answers), script.applied)
    {
      obj := o;
      if script.answers.credential.Failed? {
        return obj, Some(script.answers.credential.message);
      }
      if script.answers.lines.Err? {
        return obj, Some(script.answers.lines.message);
      }
      var commit := FirstField(script.answers.lines.value, "no commit for branch: " + obj.spec.branch);
      if commit.Err? {
        return obj, Some(commit.message);
      }
      err := ApplyCommit(cfg, api, obj, commit.value, script.applied);
      if err.Some? {
        return;
      }
      if obj.status.firstCommit == "" {
        obj := obj.(status := obj.status.(firstCommit := commit.value));
      }
    }
  }

  // ---------- pkg/provider/github/github.go: Create ----------

  class GitHubProvider {
    const cfg: Config
    const api: ApiServer
    const hub: GitHubServer

    constructor (cfg: Config, api: ApiServer, hub: GitHubServer)
      ensures this.cfg == cfg && this.api == api && this.hub == hub
    {
      this.cfg, this.api, this.hub := cfg, api, hub;
    }

    // The token is in the working copy from the start, so it is there on an error too.
    method CreateHook(o: Watcher, token: string, answer: HookAnswer)
      returns (obj: Watcher, hook: Option<nat>, err: Option<string>)
      modifies hub`hooks
      ensures var s := if o.status.hookID != "" then Start(Hooked(o, None), None)
                       else Reconcile.CreateHook(cfg, o, token, answer);
        && (if s.phase.Hooked? then err.None? && s.phase == Hooked(obj, hook) else s.phase == Returned(obj, hook, err))
        && hub.hooks == (if s.entry.Some? then old(hub.hooks)[s.entry.value.0 := s.entry.value.1] else old(hub.hooks))
        && (s.entry.Some? ==>
              && s.entry.value.1.url == (if cfg.webhookURL != "" then cfg.webhookURL else o.spec.receiverURL) +
                                        "/hooks?gitwebhookId=" + o.key.ns + ":" + o.key.name
              && s.entry.value.1.secret == token)
    {
      AddressOf(cfg, o);
      obj, hook := o, None;
      if obj.status.hookID != "" {
        return obj, hook, None;
      }
      obj := obj.(status := obj.status.(token := token));
      var ownerRepo := OwnerAndRepo(cfg, obj.spec.repositoryURL);
      if ownerRepo.Err? {
        return obj, hook, Some(ownerRepo.message);
      }
      var (owner, repo) := ownerRepo.value;
      var events: seq<string> := [];
      if obj.spec.push { events := events + ["push"]; }
      if obj.spec.pr { events := events + ["pull_request"]; }
      if obj.spec.tag { events := events + ["create"]; }
      assert events == Events(o.spec);
      hook, err := hub.CreateHook(obj.key, HookEndpoint(cfg, obj), obj.status.token, owner, repo, events, answer);
      if err.Some? {
        return;
      }
      if hook.Some? {
        obj := obj.(status := obj.status.(hookID := Itoa(hook.value)));
      }
    }

    method GetFirstCommit(o: Watcher, hook: Option<nat>, ref: Result<Option<string>>, applied: ApplyAnswer)
      returns (obj: Watcher, err: Option<string>)
      modifies api`commits
      ensures AfterApplied(FetchRef(cfg, o, hook, ref), applied) == Returned(obj, hook, err)
      ensures api.commits == CommitsAfter(cfg, old(api.commits), FetchRef(cfg, o, hook, ref), applied)
      ensures var sha := FirstCommitOf(cfg, o, ref);
        && obj == (if sha.Some? then WithFirstCommit(o, sha.value) else o)
        && api.commits == (if sha.Some? && applied.Landed() then
                             Upsert(old(api.commits), DesiredCommit(cfg, o, sha.value))
                           else old(api.commits))
    {
      obj := o;
      if obj.status.firstCommit != "" || obj.spec.branch == "" {
        return obj, None;
      }
      var ownerRepo := OwnerAndRepo(cfg, obj.spec.repositoryURL);
      if ownerRepo.Err? {
        return obj, Some(ownerRepo.message);
      }
      if ref.Err? {
        return obj, Some(ref.message);
      }
      if ref.value.None? {
        return obj, None;
      }
      err := ApplyCommit(cfg, api, obj, ref.value.value, applied);
      obj := obj.(status := obj.status.(firstCommit := ref.value.value));
    }

    method Create(o: Watcher, script: Script) returns (obj: Watcher, hook: Option<nat>, err: Option<string>)
      modifies hub`hooks, api`commits
      ensures var s := StartGitHub(cfg, o, script.answers);
        && Settle(cfg, s.phase, script) == Returned(obj, hook, err)
        && hub.hooks == (if s.entry.Some? then old(hub.hooks)[s.entry.value.0 := s.entry.value.1] else old(hub.hooks))
        && api.commits == CommitsAfter(cfg, old(api.commits), AfterRef(cfg, s.phase, script.ref), script.applied)
    {
      if o.status.hookID != "" {
        return o, None, None;
      }
      err := ClientError(o, script.answers.client);
      if err.Some? {
        return o, None, err;
      }
      obj, hook, err := CreateHook(o, script.answers.token, script.answers.hook);
      if err.Some? {
        return;
      }
      obj, err := GetFirstCommit(obj, hook, script.ref, script.applied);
    }

    // ---------- Deliveries ----------

    method InitExecution(receiver: Watcher) returns (execution: GitCommit)
      ensures execution == InitCommit(receiver)
    {
      execution := GitCommit(Key("", ""), map[], [], EmptyCommitSpec, EmptyCommitStatus);
      execution := execution.(key := Key(receiver.key.ns, receiver.key.name + "-"));
      execution := execution.(spec := execution.spec.(gitWatcherName := receiver.key.name));
      execution := execution.(labels := receiver.spec.labels);
      execution := execution.(spec := execution.spec.(repositoryURL := receiver.spec.repositoryURL));
    }

    // The deployment of an event whose owner and repository parse; without an id it
    // counts as failed.
    method CreateDeployment(c: GitCommit, request: DeployRequest, numbered: bool, answer: S.DeployAnswer)
      returns (execution: GitCommit, failed: bool)
      modifies hub`deployments
      ensures failed <==> !answer.Deployed?
      ensures execution == if answer.Deployed? then S.WithDeployment(c, answer.id) else c
      ensures hub.deployments == Deployments(old(hub.deployments), Some(request), numbered, answer)
    {
      execution := c;
      var id := hub.CreateDeployment(request, numbered, answer);
      failed := id.None?;
      if id.Some? {
        execution := execution.(status := execution.status.(github := Some(GithubStatus(id.value, "", "", ""))));
      }
    }

    method HandleCreateEvent(receiver: Watcher, e: Event, c: GitCommit)
      returns (execution: GitCommit, answered: Option<S.Reply>)
      requires e.CreateEvent? && c == InitCommit(receiver)
      ensures var p := Deliveries.HandleEvent(cfg, receiver, e);
        if p.Ready? then answered.None? && WithOwner(execution, receiver) == p.commit && p.deploy.None?
        else p.Reject? && answered == Some(S.Status(p.code))
    {
      execution, answered := c, Some(S.Status(Unprocessable));
      if !receiver.spec.tag {
        return;
      }
      if e.ref.None? {
        return;
      }
      if OrEmpty(e.refType) != "tag" {
        return;
      }
      execution := execution.(spec := execution.spec.(tag := e.ref.value));
      if !TagMatches(cfg, receiver.spec, execution.spec.tag) {
        return;
      }
      execution := WithSender(execution, e.sender);
      answered := None;
    }

    method HandlePushEvent(receiver: Watcher, e: Event, c: GitCommit, answer: S.DeployAnswer)
      returns (execution: GitCommit, answered: Option<S.Reply>)
      requires e.PushEvent? && c == InitCommit(receiver)
      modifies hub`deployments
      ensures Prepares(Deliveries.HandleEvent(cfg, receiver, e), receiver, execution, answered, answer)
      ensures hub.deployments ==
        DeploymentsAfter(old(hub.deployments), Deliveries.HandleEvent(cfg, receiver, e), false, answer)
    {
      execution, answered := c, None;
      if e.ref.Some? {
        if HasPrefix(e.ref.value, BranchPrefix) {
          execution := execution.(spec := execution.spec.(branch := TrimPrefix(e.ref.value, BranchPrefix)));
        } else {
          return execution, Some(S.Status(Unprocessable));
        }
      }
      execution := WithSender(execution, e.sender);
      if e.head.Some? {
        execution := execution.(spec := execution.spec.(message := OrEmpty(e.head.value.message)));
        execution := execution.(spec := execution.spec.(commit := OrEmpty(e.head.value.id)));
        execution := execution.(spec := execution.spec.(sourceLink := OrEmpty(e.head.value.url)));
        if execution.spec.branch == receiver.spec.branch {
          execution, answered :=
            CreateDeploymentForProduction(receiver, execution, OrEmpty(e.head.value.id), answer);
        }
      }
    }

    method CreateDeploymentForProduction(receiver: Watcher, c: GitCommit, commit: string, answer: S.DeployAnswer)
      returns (execution: GitCommit, answered: Option<S.Reply>)
      modifies hub`deployments
      ensures Prepares(ProductionDeployment(cfg, receiver, c, commit), receiver, execution, answered, answer)
      ensures hub.deployments ==
        DeploymentsAfter(old(hub.deployments), ProductionDeployment(cfg, receiver, c, commit), false, answer)
    {
      execution, answered := c, None;
      if !receiver.spec.githubDeployment {
        return;
      }
      var ownerRepo := OwnerAndRepo(cfg, receiver.spec.repositoryURL);
      if ownerRepo.Err? {
        return execution, Some(S.Status(InternalError));
      }
      var (owner, repo) := ownerRepo.value;
      var request := DeployRequest(owner, repo, commit, "production");
      var failed;
      execution, failed := CreateDeployment(execution, request, false, answer);
      if failed {
        answered := Some(S.Status(InternalError));
      }
    }

    method HandlePullRequestEvent(receiver: Watcher, e: Event, c: GitCommit, answer: S.DeployAnswer)
      returns (execution: GitCommit, answered: Option<S.Reply>)
      requires e.PullRequestEvent? && c == InitCommit(receiver)
      modifies hub`deployments
      ensures Prepares(Deliveries.HandleEvent(cfg, receiver, e), receiver, execution, answered, answer)
      ensures hub.deployments ==
        DeploymentsAfter(old(hub.deployments), Deliveries.HandleEvent(cfg, receiver, e), e.number.Some?, answer)
    {
      execution, answered := c, None;
      if !receiver.spec.pr {
        return execution, Some(S.Status(Unprocessable));
      }
      if e.action.Some? && !KnownAction(e.action.value) {
        return execution, Some(S.Status(Unprocessable));
      }
      if e.action.None? {
        return execution, Some(S.Aborted);
      }
      execution := execution.(spec := execution.spec.(action := e.action.value));
      execution := WithSender(execution, e.sender);
      if e.number.Some? {
        execution := execution.(spec := execution.spec.(pr := Itoa(e.number.value)));
      }
      execution := WithPull(execution, e.pull);
      if e.action.value == Closed {
        execution := execution.(spec := execution.spec.(closed := true));
      }
      if e.repoURL.Some? {
        execution := execution.(spec := execution.spec.(repositoryURL := OrEmpty(e.repoURL.value)));
      }
      execution, answered := CreateDeploymentForPullRequest(receiver, execution, e, answer);
    }

    method CreateDeploymentForPullRequest(receiver: Watcher, c: GitCommit, e: Event, answer: S.DeployAnswer)
      returns (execution: GitCommit, answered: Option<S.Reply>)
      requires e.PullRequestEvent? && e.action.Some?
      modifies hub`deployments
      ensures Prepares(PullDeployment(cfg, receiver, c, e), receiver, execution, answered, answer)
      ensures hub.deployments ==
        DeploymentsAfter(old(hub.deployments), PullDeployment(cfg, receiver, c, e), e.number.Some?, answer)
    {
      execution, answered := c, None;
      if !receiver.spec.githubDeployment {
        return;
      }
      if e.action.value != Opened && e.action.value != Synced {
        return;
      }
      var ownerRepo := OwnerAndRepo(cfg, receiver.spec.repositoryURL);
      if ownerRepo.Err? {
        return execution, Some(S.Status(InternalError));
      }
      if e.pull.None? || e.pull.value.id.None? {
        return execution, Some(S.Status(InternalError));
      }
      if e.pull.value.number.None? {
        return execution, Some(S.Aborted);
      }
      var (owner, repo) := ownerRepo.value;
      var request := DeployRequest(owner, repo, "pull/" + Itoa(e.pull.value.number.value) + "/head", "staging");
      var failed;
      execution, failed := CreateDeployment(execution, request, e.number.Some?, answer);
      if failed {
        answered := Some(S.Status(InternalError));
      }
    }

    method HandleEvent(receiver: Watcher, e: Event, answer: S.DeployAnswer, suffix: string, create: S.CreateAnswer)
      returns (reply: S.Reply)
      modifies hub`deployments, api`commits
      ensures var p := Deliveries.HandleEvent(cfg, receiver, e);
        && hub.deployments == DeploymentsAfter(old(hub.deployments), p, e.PullRequestEvent? && e.number.Some?, answer)
        && (reply, api.commits) == Finished(old(api.commits), p, answer, suffix, create)
    {
      var execution := InitExecution(receiver);
      var answered: Option<S.Reply> := None;
      match e {
        case CreateEvent(_, _, _) => execution, answered := HandleCreateEvent(receiver, e, execution);
        case PushEvent(_, _, _) => execution, answered := HandlePushEvent(receiver, e, execution, answer);
        case PullRequestEvent(_, _, _, _, _) =>
          execution, answered := HandlePullRequestEvent(receiver, e, execution, answer);
        case OtherEvent =>
      }
      if answered.Some? {
        return answered.value;
      }
      execution := execution.(owners := execution.owners + [OwnerRef(receiver.key.name, receiver.uid, false)]);
      var err := api.CreateCommit(execution, suffix, create);
      return if err.Some? then S.Status(InternalError) else S.Status(OK);
    }

    // HandleHook, run from start to end, does what the two steps of a delivery do in
    // the system, and gives the same answer.
    method HandleHook(req: Request, answer: S.DeployAnswer, suffix: string, create: S.CreateAnswer,
                      ghost w: S.World, ghost n: nat)
      returns (reply: S.Reply)
      requires In(api, hub, w) && n !in w.d.pending
      requires answer.DeployRefused? || answer.id !in w.d.deployments
      modifies hub`deployments, api`commits
      ensures var w' := S.Run(cfg, w, [S.Deliver(n, req, answer)] + [S.Record(n, suffix, create)]);
        In(api, hub, w') && w'.d.replies == w.d.replies + [reply]
      ensures api.commits != old(api.commits) || hub.deployments != old(hub.deployments) ==>
        exists o :: Addresses(w.r, req, o) && Passes(cfg, o, req)
    {
      DeliveryEffects(cfg, w, n, req, answer, suffix, create);
      OthersChangeNothing(cfg, w, n, req, answer, suffix, create);
      if req.receiverID == "" {
        return S.Status(0);
      }
      var (ns, name) := Split(req.receiverID, ':');
      var gitwatcher := api.Get(Key(ns, name));
      if req.getFails || gitwatcher.None? {
        return S.Status(InternalError);
      }
      if !gitwatcher.value.spec.enabled {
        return S.Status(Unprocessable);
      }
      if !ValidPayload(gitwatcher.value, req) || req.event.None? {
        return S.Status(InternalError);
      }
      if ClientError(gitwatcher.value, req.client).Some? {
        return S.Status(InternalError);
      }
      reply := HandleEvent(gitwatcher.value, req.event.value, answer, suffix, create);
    }
  }

  // ---------- What a delivery changes, by its pieces ----------

  // GitHub's deployments after a delivery that asked for this one.
  function Deployments(deployments: map<nat, S.Deployment>, request: Option<DeployRequest>, numbered: bool,
                       answer: S.DeployAnswer): map<nat, S.Deployment>
  {
    if request.None? || answer.DeployRefused? then deployments
    else deployments[answer.id := S.Deployment(request.value, numbered, answer.Deployed?)]
  }

  function DeploymentsAfter(deployments: map<nat, S.Deployment>, p: Prepared, numbered: bool,
                 answer: S.DeployAnswer): map<nat, S.Deployment>
  {
    Deployments(deployments, if p.Ready? then p.deploy else None, numbered, answer)
  }

  // The GitCommit left to be created once the deployment, if any, was answered; or
  // the delivery's answer.
  function Executed(p: Prepared, answer: S.DeployAnswer): (GitCommit, Option<S.Reply>) {
    var none := GitCommit(Key("", ""), map[], [], EmptyCommitSpec, EmptyCommitStatus);
    match p
    case Reject(code) => (none, Some(S.Status(code)))
    case Panics => (none, Some(S.Aborted))
    case Ready(c, None) => (c, None)
    case Ready(c, Some(_)) =>
      if answer.Deployed? then (S.WithDeployment(c, answer.id), None) else (none, Some(S.Status(InternalError)))
  }

  ghost predicate Prepares(p: Prepared, receiver: Watcher, execution: GitCommit, answered: Option<S.Reply>,
                           answer: S.DeployAnswer)
  {
    var (c, reply) := Executed(p, answer);
    answered == reply && (reply.None? ==> WithOwner(execution, receiver) == c)
  }

  function Finished(commits: map<Key, GitCommit>, p: Prepared, answer: S.DeployAnswer, suffix: string,
                    create: S.CreateAnswer): (S.Reply, map<Key, GitCommit>)
  {
    var (c, reply) := Executed(p, answer);
    var named := S.NamedCommit(c, suffix);
    if reply.Some? then (reply.value, commits)
    else if named.key in commits || create.NotCreated? then (S.Status(InternalError), commits)
    else (S.Status(if create.Created? then OK else InternalError), commits[named.key := named])
  }

  lemma DeliveryEffects(cfg: Config, w: S.World, n: nat, req: Request, answer: S.DeployAnswer, suffix: string,
                        create: S.CreateAnswer)
    requires n !in w.d.pending && (answer.DeployRefused? || answer.id !in w.d.deployments)
    ensures var p := HandleHook(cfg, S.StoredWatcher(w.r, ReceiverKey(req)), req);
      var w' := S.Run(cfg, w, [S.Deliver(n, req, answer)] + [S.Record(n, suffix, create)]);
      var finished := Finished(w.commits, p, answer, suffix, create);
      && w'.d.replies == w.d.replies + [finished.0] && w'.commits == finished.1
      && w'.d.deployments == DeploymentsAfter(w.d.deployments, p, S.Numbered(req), answer)
      && w'.r == w.r && w'.d.statuses == w.d.statuses && w'.d.pending == w.d.pending
  {
    var p := HandleHook(cfg, S.StoredWatcher(w.r, ReceiverKey(req)), req);
    var deliver, record := S.Deliver(n, req, answer), S.Record(n, suffix, create);
    var w1 := S.Step(cfg, w, deliver);
    S.RunCons(cfg, w, deliver, [record]);
    assert [record] == [record] + [];
    S.RunCons(cfg, w1, record, []);
    DeliverEffects(w.d, n, p, S.Numbered(req), answer);
    var (c, reply) := Executed(p, answer);
    assert w.d.pending[n := c] - {n} == w.d.pending;
  }

  lemma DeliverEffects(d: S.Hub, n: nat, p: Prepared, numbered: bool, answer: S.DeployAnswer)
    requires n !in d.pending && (answer.DeployRefused? || answer.id !in d.deployments)
    ensures var d' := S.StartDelivery(d, n, p, numbered, answer); var (c, reply) := Executed(p, answer);
      && d'.deployments == DeploymentsAfter(d.deployments, p, numbered, answer)
      && d'.statuses == d.statuses
      && d'.replies == (if reply.Some? then d.replies + [reply.value] else d.replies)
      && d'.pending == (if reply.Some? then d.pending else d.pending[n := c])
  {
  }
}
