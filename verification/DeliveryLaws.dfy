// Which deliveries get in, what they leave behind, and what is reported about them,
// with the conditions written out.
module DeliveryLaws {
  import opened Types
  import opened Text
  import opened Endpoint
  import opened Reconcile
  import opened Deliveries
  import opened System
  import P = Protocol
  import PI = ProtocolInvariants
  import ReconcileTheorems

  // ---------- Who is let in ----------

  // The API server has o for the receiver that the request names.
  ghost predicate Addresses(r: P.Reconciler, req: Request, o: Watcher) {
    var k := ReceiverKey(req);
    && req.receiverID != "" && !req.getFails
    && k in r.revisions && |r.revisions[k]| > 0 && r.revisions[k][|r.revisions[k]| - 1].obj == o
  }

  // The watcher is enabled, the payload was signed with its token, if it has one, and
  // the secret for its client is there.
  ghost predicate Authentic(o: Watcher, req: Request) {
    && o.spec.enabled
    && req.readable && (o.status.token == "" || req.signature == o.status.token)
    && (o.spec.githubWebhookToken != "" || o.status.hookID != "") && req.client.Found?
  }

  ghost predicate Passes(cfg: Config, o: Watcher, req: Request) {
    Authentic(o, req) && req.event.Some? && Admitted(cfg, o, req.event.value)
  }

  ghost predicate CallsForDeployment(o: Watcher, e: Event) {
    (o.spec.githubDeployment && PushesWatchedBranch(o, e)) || WantsPullDeployment(o, e)
  }

  // The delivery goes on to create its GitCommit.
  ghost predicate GetsIn(cfg: Config, d: Hub, o: Watcher, req: Request, answer: DeployAnswer) {
    && Passes(cfg, o, req)
    && (CallsForDeployment(o, req.event.value) ==>
          DeploymentFor(cfg, o, req.event.value).Some? && answer.Deployed? && answer.id !in d.deployments)
  }

  // It makes a deployment, whether that is reported or not.
  ghost predicate MakesDeployment(cfg: Config, d: Hub, o: Watcher, req: Request, answer: DeployAnswer) {
    && Passes(cfg, o, req) && DeploymentFor(cfg, o, req.event.value).Some?
    && !answer.DeployRefused? && answer.id !in d.deployments
  }

  lemma HookPasses(cfg: Config, o: Watcher, req: Request)
    requires req.receiverID != "" && !req.getFails
    ensures var p := HandleHook(cfg, Some(o), req);
      && (p.Ready? <==>
            && Passes(cfg, o, req)
            && (CallsForDeployment(o, req.event.value) ==> DeploymentFor(cfg, o, req.event.value).Some?))
      && (Passes(cfg, o, req) ==> p == HandleEvent(cfg, o, req.event.value))
      && (p.Ready? ==> p.deploy == DeploymentFor(cfg, o, req.event.value))
  {
    if req.event.Some? {
      ReadyCharacterised(cfg, o, req.event.value);
      DeploymentCharacterised(cfg, o, req.event.value);
    }
  }

  lemma DeployedIsCalledFor(cfg: Config, o: Watcher, e: Event)
    ensures DeploymentFor(cfg, o, e).Some? ==> Admitted(cfg, o, e) && CallsForDeployment(o, e)
  {
  }

  // A delivery goes on to its GitCommit exactly when it names a stored, enabled watcher,
  // is signed with the stored token, and its event is one the watcher wants; and it makes
  // a deployment exactly when, besides, it calls for one. Otherwise neither grows.
  lemma OnlyAuthenticGetIn(cfg: Config, w: World, n: nat, req: Request, answer: DeployAnswer)
    requires n !in w.d.pending
    ensures var d' := Step(cfg, w, Deliver(n, req, answer)).d;
      && (n in d'.pending <==> exists o :: Addresses(w.r, req, o) && GetsIn(cfg, w.d, o, req, answer))
      && (n !in d'.pending ==> d'.pending == w.d.pending)
      && (d'.deployments != w.d.deployments <==>
            exists o :: Addresses(w.r, req, o) && MakesDeployment(cfg, w.d, o, req, answer))
  {
    var stored := StoredWatcher(w.r, ReceiverKey(req));
    if req.receiverID != "" && !req.getFails && stored.Some? {
      Addressed(cfg, w, n, req, answer, stored.value);
      assert Addresses(w.r, req, stored.value);
    } else {
      Started(w.d, n, HandleHook(cfg, stored, req), Numbered(req), answer);
    }
  }

  // The same for the watcher that the request names.
  lemma Addressed(cfg: Config, w: World, n: nat, req: Request, answer: DeployAnswer, o: Watcher)
    requires n !in w.d.pending && Addresses(w.r, req, o)
    ensures var d' := Step(cfg, w, Deliver(n, req, answer)).d;
      && (n in d'.pending <==> GetsIn(cfg, w.d, o, req, answer))
      && (n !in d'.pending ==> d'.pending == w.d.pending)
      && (d'.deployments != w.d.deployments <==> MakesDeployment(cfg, w.d, o, req, answer))
  {
    HookPasses(cfg, o, req);
    Started(w.d, n, HandleHook(cfg, Some(o), req), Numbered(req), answer);
    if req.event.Some? { DeployedIsCalledFor(cfg, o, req.event.value); }
    assert Step(cfg, w, Deliver(n, req, answer)).d ==
      StartDelivery(w.d, n, HandleHook(cfg, Some(o), req), Numbered(req), answer);
  }

  // A whole delivery changes something only for a watcher that it is authentic for and
  // that wants it.
  lemma OthersChangeNothing(cfg: Config, w: World, n: nat, req: Request, answer: DeployAnswer, suffix: string,
                            create: CreateAnswer)
    requires n !in w.d.pending
    ensures var w' := Run(cfg, w, [Deliver(n, req, answer)] + [Record(n, suffix, create)]);
      w'.commits != w.commits || w'.d.deployments != w.d.deployments ==>
        exists o :: Addresses(w.r, req, o) && Passes(cfg, o, req)
  {
    var w1 := Step(cfg, w, Deliver(n, req, answer));
    OnlyAuthenticGetIn(cfg, w, n, req, answer);
    RunCons(cfg, w, Deliver(n, req, answer), [Record(n, suffix, create)]);
    assert [Record(n, suffix, create)] == [Record(n, suffix, create)] + [];
    RunCons(cfg, w1, Record(n, suffix, create), []);
  }

  lemma Started(d: Hub, n: nat, p: Prepared, numbered: bool, answer: DeployAnswer)
    requires n !in d.pending
    ensures var d' := StartDelivery(d, n, p, numbered, answer);
      && (n in d'.pending <==>
            p.Ready? && (p.deploy.Some? ==> answer.Deployed? && answer.id !in d.deployments))
      && (n !in d'.pending ==> d'.pending == d.pending)
      && (d'.deployments != d.deployments <==>
            p.Ready? && p.deploy.Some? && !answer.DeployRefused? && answer.id !in d.deployments)
      && (n in d'.pending ==>
            d'.pending[n] == if p.deploy.Some? then WithDeployment(p.commit, answer.id) else p.commit)
  {
    var d' := StartDelivery(d, n, p, numbered, answer);
    if p.Ready? && p.deploy.Some? && !answer.DeployRefused? && answer.id !in d.deployments {
      assert answer.id in d'.deployments;
    }
  }

  // ---------- How the others are answered ----------

  // A pull request event without an action, which the code does not survive.
  ghost predicate Nameless(o: Watcher, e: Event) {
    e.PullRequestEvent? && o.spec.pr && e.action.None?
  }

  // The pull request event whose deployment is asked for without a number.
  ghost predicate Numberless(cfg: Config, o: Watcher, e: Event) {
    && Admitted(cfg, o, e) && WantsPullDeployment(o, e) && cfg.parsePath(o.spec.repositoryURL).Some?
    && HasPullData(e) && e.pull.value.number.None?
  }

  // A delivery that does not go on is answered at once: 422 when its watcher is disabled or
  // does not want the event, and 500 when it is not authentic or its deployment fails.
  lemma Answered(cfg: Config, w: World, n: nat, req: Request, answer: DeployAnswer, o: Watcher)
    requires n !in w.d.pending && Addresses(w.r, req, o) && !GetsIn(cfg, w.d, o, req, answer)
    requires answer.DeployRefused? || answer.id !in w.d.deployments
    ensures Step(cfg, w, Deliver(n, req, answer)).d.replies == w.d.replies + [
      if !o.spec.enabled then Status(422)
      else if !Authentic(o, req) || req.event.None? then Status(500)
      else if Nameless(o, req.event.value) || Numberless(cfg, o, req.event.value) then Aborted
      else if !Admitted(cfg, o, req.event.value) then Status(422)
      else Status(500)]
  {
    HookPasses(cfg, o, req);
    if Authentic(o, req) && req.event.Some? { EventAnswered(cfg, o, req.event.value); }
    assert Step(cfg, w, Deliver(n, req, answer)).d ==
      StartDelivery(w.d, n, HandleHook(cfg, Some(o), req), Numbered(req), answer);
  }

  lemma EventAnswered(cfg: Config, o: Watcher, e: Event)
    ensures var p := Deliveries.HandleEvent(cfg, o, e);
      && (p.Panics? <==> Nameless(o, e) || Numberless(cfg, o, e))
      && (p.Reject? ==> p.code == if Admitted(cfg, o, e) then 500 else 422)
  {
    match e
    case CreateEvent(_, _, _) =>
    case PushEvent(_, _, _) =>
    case PullRequestEvent(_, _, _, _, _) => PullAnswered(cfg, o, e);
    case OtherEvent =>
  }

  lemma PullAnswered(cfg: Config, o: Watcher, e: Event)
    requires e.PullRequestEvent?
    ensures var p := HandlePullRequest(cfg, o, e);
      && (p.Panics? <==> Nameless(o, e) || Numberless(cfg, o, e))
      && (p.Reject? ==> p.code == if Admitted(cfg, o, e) then 500 else 422)
  {
    if o.spec.pr && e.action.Some? {
      assert KnownAction(e.action.value) <==> Admitted(cfg, o, e);
      if KnownAction(e.action.value) {
        assert HandlePullRequest(cfg, o, e) == PullDeployment(cfg, o, PullCommit(o, e), e);
      }
    }
  }

  // ---------- What a delivery leaves behind ----------

  // An absent field counts as an empty one.
  function Field(s: Option<string>): string {
    if s.Some? then s.value else ""
  }

  // The author of an event is its sender.
  ghost predicate AuthoredBy(spec: CommitSpec, sender: Option<Sender>) {
    && spec.author == (if sender.Some? then Field(sender.value.login) else "")
    && spec.authorEmail == (if sender.Some? then Field(sender.value.email) else "")
    && spec.authorAvatar == (if sender.Some? then Field(sender.value.avatar) else "")
  }

  // The spec of a GitCommit has the fields of the event, each in its place.
  ghost predicate TellsOf(o: Watcher, e: Event, spec: CommitSpec) {
    match e
    case CreateEvent(ref, _, sender) =>
      && ref.Some? && AuthoredBy(spec, sender)
      && spec == CommitSpec("", "", o.key.name, "", "", ref.value, "", false, false, "", o.spec.repositoryURL,
                            "", "", spec.author, spec.authorEmail, spec.authorAvatar)
    case PushEvent(ref, sender, head) =>
      && AuthoredBy(spec, sender)
      && (if ref.Some? then ref.value == "refs/heads/" + spec.branch else spec.branch == "")
      && spec == CommitSpec("", "", o.key.name, if head.Some? then Field(head.value.id) else "", spec.branch, "", "",
                            false, false, if head.Some? then Field(head.value.url) else "", o.spec.repositoryURL,
                            "", if head.Some? then Field(head.value.message) else "",
                            spec.author, spec.authorEmail, spec.authorAvatar)
    case PullRequestEvent(action, number, sender, pull, repoURL) =>
      && action.Some? && AuthoredBy(spec, sender)
      && spec == CommitSpec(action.value, "", o.key.name, if pull.Some? then Field(pull.value.headSHA) else "", "", "",
                            if number.Some? then Itoa(number.value) else "",
                            pull.Some? && pull.value.merged == Some(true), action == Some("closed"),
                            if pull.Some? then Field(pull.value.url) else "",
                            if repoURL.Some? then Field(repoURL.value) else o.spec.repositoryURL,
                            if pull.Some? then Field(pull.value.title) else "",
                            if pull.Some? then Field(pull.value.body) else "",
                            spec.author, spec.authorEmail, spec.authorAvatar)
    case OtherEvent =>
      spec == CommitSpec("", "", o.key.name, "", "", "", "", false, false, "", o.spec.repositoryURL, "", "", "", "", "")
  }

  // The GitCommit c, before it has its name, is the one for this event at o; deployment is
  // the one made for it.
  ghost predicate DeliveredFor(o: Watcher, e: Event, deployment: Option<nat>, c: GitCommit) {
    && c.key == Key(o.key.ns, o.key.name + "-")
    && c.labels == o.spec.labels
    && c.owners == [OwnerRef(o.key.name, o.uid, false)]
    && TellsOf(o, e, c.spec)
    && c.status == CommitStatus([], "", "", "",
                                if deployment.Some? then Some(GithubStatus(deployment.value, "", "", "")) else None)
  }

  lemma ReadyTells(cfg: Config, o: Watcher, e: Event)
    requires Deliveries.HandleEvent(cfg, o, e).Ready?
    ensures DeliveredFor(o, e, None, Deliveries.HandleEvent(cfg, o, e).commit)
  {
    match e
    case CreateEvent(_, _, _) =>
    case PushEvent(_, _, _) => PushTells(cfg, o, e);
    case PullRequestEvent(_, _, _, _, _) => PullTells(cfg, o, e);
    case OtherEvent =>
  }

  lemma PushTells(cfg: Config, o: Watcher, e: Event)
    requires e.PushEvent? && Deliveries.HandleEvent(cfg, o, e).Ready?
    ensures DeliveredFor(o, e, None, Deliveries.HandleEvent(cfg, o, e).commit)
  {
    if e.ref.Some? {
      assert e.ref.value == "refs/heads/" + e.ref.value[|"refs/heads/"|..];
    }
  }

  lemma PullTells(cfg: Config, o: Watcher, e: Event)
    requires e.PullRequestEvent? && Deliveries.HandleEvent(cfg, o, e).Ready?
    ensures DeliveredFor(o, e, None, Deliveries.HandleEvent(cfg, o, e).commit)
  {
    var c := PullCommit(o, e);
    PullCommitTells(o, e);
    PullCommitBuilt(o, e);
    assert Deliveries.HandleEvent(cfg, o, e).commit == WithOwner(c, o);
  }

  lemma PullCommitTells(o: Watcher, e: Event)
    requires e.PullRequestEvent? && e.action.Some?
    ensures TellsOf(o, e, PullCommit(o, e).spec) && PullCommit(o, e).labels == o.spec.labels
  {
    var c0 := InitCommit(o);
    var c1 := WithSender(c0.(spec := c0.spec.(action := e.action.value)), e.sender);
    assert AuthoredBy(c1.spec, e.sender);
    assert AuthoredBy(PullCommit(o, e).spec, e.sender);
  }

  // What a delivery that gets in keeps for the create is the GitCommit for its event, with
  // the deployment just made.
  lemma PendingTells(cfg: Config, w: World, n: nat, req: Request, answer: DeployAnswer, o: Watcher)
    requires n !in w.d.pending && Addresses(w.r, req, o) && GetsIn(cfg, w.d, o, req, answer)
    ensures var d' := Step(cfg, w, Deliver(n, req, answer)).d; var e := req.event.value;
      && n in d'.pending
      && DeliveredFor(o, e, if DeploymentFor(cfg, o, e).Some? then Some(answer.id) else None, d'.pending[n])
  {
    HookPasses(cfg, o, req);
    ReadyTells(cfg, o, req.event.value);
    Started(w.d, n, HandleHook(cfg, Some(o), req), Numbered(req), answer);
    assert Step(cfg, w, Deliver(n, req, answer)).d ==
      StartDelivery(w.d, n, HandleHook(cfg, Some(o), req), Numbered(req), answer);
  }

  // The create stores it as it is, under its name with the server's suffix.
  lemma RecordStores(cfg: Config, w: World, n: nat, suffix: string, create: CreateAnswer)
    requires n in w.d.pending
    ensures var c := w.d.pending[n]; var key := Key(c.key.ns, c.key.name + suffix);
      var w' := Step(cfg, w, Record(n, suffix, create));
      && w'.commits ==
           (if key in w.commits || create.NotCreated? then w.commits else w.commits[key := c.(key := key)])
      && w'.d.pending == w.d.pending - {n}
      && w'.d.replies == w.d.replies + [Status(if key !in w.commits && create.Created? then 200 else 500)]
  {
  }

  // ---------- What is reported ----------

  // What a report about c finds: the cached watcher o, whose client can be made and
  // whose repository parses, and a state.
  ghost predicate Reportable(cfg: Config, r: P.Reconciler, c: GitCommit, seen: Seen, secret: Lookup, o: Watcher) {
    var k := Key(c.key.ns, c.spec.gitWatcherName);
    && c.status.github.Some?
    && k in r.cached && k in r.revisions && r.cached[k] < |r.revisions[k]| && r.revisions[k][r.cached[k]].obj == o
    && (o.spec.githubWebhookToken != "" || o.status.hookID != "") && secret.Found?
    && cfg.parsePath(o.spec.repositoryURL).Some?
    && (seen.deploymentState != "" || seen.buildStatus != "")
  }

  // The state is the deployment's, or else that of the build; everything is in its place.
  ghost predicate CallTells(cfg: Config, c: GitCommit, seen: Seen, o: Watcher, call: StatusCall)
    requires c.status.github.Some?
  {
    && call.deployment == c.status.github.value.deploymentID
    && OwnerAndRepo(cfg, o.spec.repositoryURL) == Ok((call.owner, call.repo))
    && call.state == (if seen.deploymentState != "" then seen.deploymentState else seen.buildStatus)
    && call.environment == (if c.spec.pr == "" then "production" else "staging")
    && (call.autoInactive <==> c.spec.pr == "")
    && call.environmentURL == seen.environmentURL
    && call.logURL == seen.logURL
  }

  // The calls after are those before, and one more exactly when there is a watcher to
  // report for and a state to report.
  ghost predicate Reports(cfg: Config, w: World, key: Key, seen: Seen, secret: Lookup, before: seq<StatusCall>,
                          after: seq<StatusCall>)
    requires key in w.commits
  {
    && (after != before <==> exists o :: Reportable(cfg, w.r, w.commits[key], seen, secret, o))
    && forall o :: Reportable(cfg, w.r, w.commits[key], seen, secret, o) ==>
         |after| == |before| + 1 && after[..|before|] == before &&
         CallTells(cfg, w.commits[key], seen, o, after[|before|])
  }

  // A report changes nothing but the status calls.
  lemma ReportTells(cfg: Config, w: World, key: Key, seen: Seen, secret: Lookup)
    requires key in w.commits
    ensures var w' := Step(cfg, w, Report(key, seen, secret));
      && w' == w.(d := w.d.(statuses := w'.d.statuses))
      && Reports(cfg, w, key, seen, secret, w.d.statuses, w'.d.statuses)
  {
    var c := w.commits[key];
    var watcher := CachedWatcher(w.r, Key(c.key.ns, c.spec.gitWatcherName));
    if watcher.Some? { FoundTells(cfg, w, key, seen, secret, watcher.value); }
  }

  lemma FoundTells(cfg: Config, w: World, key: Key, seen: Seen, secret: Lookup, o: Watcher)
    requires key in w.commits
    requires CachedWatcher(w.r, Key(w.commits[key].key.ns, w.commits[key].spec.gitWatcherName)) == Some(o)
    ensures var c := w.commits[key]; var call := StatusReport(cfg, SeenCommit(c, seen), Some(o), secret);
      && (call.Some? <==> Reportable(cfg, w.r, c, seen, secret, o))
      && (call.Some? ==> CallTells(cfg, c, seen, o, call.value))
      && Step(cfg, w, Report(key, seen, secret)).d.statuses ==
           if call.Some? then w.d.statuses + [call.value] else w.d.statuses
  {
  }

  // ---------- Signed deliveries and hooks ----------

  // In every run of the system a registered watcher has its hook at GitHub, and of the
  // requests that name the watcher exactly those get in that are signed with the hook's
  // secret, if it has one, and that the watcher wants.
  lemma OnlySignedGetIn(cfg: Config, actions: seq<Action>, n: nat, req: Request, answer: DeployAnswer, k: Key)
    requires var w := Run(cfg, Init, actions);
      && n !in w.d.pending && Valid(k) && req.receiverID == k.ns + ":" + k.name && !req.getFails
      && k in w.r.revisions && |w.r.revisions[k]| > 0 && P.Last(w.r.revisions[k]).status.hookID != ""
    ensures var w := Run(cfg, Init, actions); var o := P.Last(w.r.revisions[k]); var h := Atoi(o.status.hookID);
      && h in w.r.hooks && w.r.hooks[h].watcher == k && o.status.hookID == Itoa(h)
      && (n in Step(cfg, w, Deliver(n, req, answer)).d.pending <==>
            && o.spec.enabled && req.readable
            && (w.r.hooks[h].secret == "" || req.signature == w.r.hooks[h].secret)
            && req.client.Found? && req.event.Some? && Admitted(cfg, o, req.event.value)
            && (CallsForDeployment(o, req.event.value) ==>
                  && DeploymentFor(cfg, o, req.event.value).Some?
                  && answer.Deployed? && answer.id !in w.d.deployments))
  {
    var w := Run(cfg, Init, actions);
    var o := P.Last(w.r.revisions[k]);
    RunProjects(cfg, Init, actions);
    ReconcileTheorems.TokensAgree(cfg, ReconcileActions(actions), k);
    assert PI.NamesHook(w.r, k, o.status);
    NamesReceiver(k, req);
    Addressed(cfg, w, n, req, answer, o);
  }

  lemma NamesReceiver(k: Key, req: Request)
    requires Valid(k) && req.receiverID == k.ns + ":" + k.name
    ensures ReceiverKey(req) == k && req.receiverID != ""
  {
    ReceiverIDSplits(k);
  }
}
