// What holds of the whole system in every run.
module SystemTheorems {
  import opened Types
  import opened Maps
  import opened Endpoint
  import opened Reconcile
  import opened Deliveries
  import opened System
  import opened SystemInvariants
  import P = Protocol
  import PI = ProtocolInvariants

  lemma {:induction false} RunKeepsInv(cfg: Config, w: World, actions: seq<Action>)
    requires Inv(w)
    ensures Inv(Run(cfg, w, actions))
    decreases |actions|
  {
    if |actions| > 0 {
      StepKeepsInv(cfg, w, actions[0]);
      RunKeepsInv(cfg, Step(cfg, w, actions[0]), actions[1..]);
    }
  }

  lemma ReachableInv(cfg: Config, actions: seq<Action>)
    ensures Inv(Run(cfg, Init, actions))
  {
    RunKeepsInv(cfg, Init, actions);
  }

  // Provenance: every GitCommit, polled or delivered, belongs to one watcher by its
  // namespace, its watcher name and its owner; and whatever version of that name the
  // cache holds when its status is reported, it is that owner.
  lemma EveryCommitHasItsWatcher(cfg: Config, actions: seq<Action>, key: Key)
    requires key in Run(cfg, Init, actions).commits
    ensures var w := Run(cfg, Init, actions); var c := w.commits[key];
      var seen := CachedWatcher(w.r, Key(c.key.ns, c.spec.gitWatcherName));
      && c.key == key
      && Owned(w.r, c)
      && (seen.Some? ==> seen.value.key == Key(key.ns, c.owners[0].name) && seen.value.uid == c.owners[0].uid)
  {
    ReachableInv(cfg, actions);
    OwnerSeen(Run(cfg, Init, actions), key);
  }

  lemma OwnerSeen(w: World, key: Key)
    requires PI.HistoriesOK(w.r) && AllOwned(w) && key in w.commits
    ensures var c := w.commits[key]; var seen := CachedWatcher(w.r, Key(c.key.ns, c.spec.gitWatcherName));
      && c.key == key && Owned(w.r, c)
      && (seen.Some? ==> seen.value.key == Key(key.ns, c.owners[0].name) && seen.value.uid == c.owners[0].uid)
  {
    var c := w.commits[key];
    var k := Key(c.key.ns, c.spec.gitWatcherName);
    assert PI.HistoryOK(k, w.r.revisions[k]);
  }

  // Environment agreement. Every status call is about a deployment that GitHub has.
  // It uses the deployment's own environment, and asks to inactivate others exactly
  // for production ones, if and only if the deployment is a production one or the
  // pull request event that caused it carried its number.
  lemma StatusCallsAgree(cfg: Config, actions: seq<Action>, i: nat)
    requires i < |Run(cfg, Init, actions).d.statuses|
    ensures var d := Run(cfg, Init, actions).d; var call := d.statuses[i];
      && call.deployment in d.deployments
      && var dep := d.deployments[call.deployment];
      && (call.environment == dep.request.environment <==> dep.request.environment == "production" || dep.numbered)
      && ((call.autoInactive <==> dep.request.environment == "production") <==>
            dep.request.environment == "production" || dep.numbered)
      && (call.autoInactive <==> call.environment == "production")
  {
    ReachableInv(cfg, actions);
    var d := Run(cfg, Init, actions).d;
    assert CallAgrees(d, d.statuses[i]);
  }

  // ---------- A run in which they disagree ----------

  // An opened pull request whose event has no number of its own.
  const Unnumbered := PullRequestEvent(
    Some(Opened), None, None, Some(PullRequest(Some(1), Some(7), None, None, None, None, None)), None)

  function Delivery(k: Key): Request {
    Request(ReceiverID(k), false, true, "", Some(Unnumbered), Found)
  }

  // A watcher that asks for pull requests and deployments.
  ghost predicate Deploys(cfg: Config, spec: WatcherSpec) {
    && spec.enabled && spec.pr && spec.githubDeployment && spec.githubWebhookToken != ""
    && OwnerAndRepo(cfg, spec.repositoryURL).Ok?
  }

  // The watcher is created and cached, the event delivered, and success reported.
  function DeliverAndReport(k: Key, uid: string, spec: WatcherSpec): seq<Action> {
    [Reconcile(P.CreateWatcher(k, uid, spec))] + ([Reconcile(P.CatchUp(k, 0))] +
    ([Deliver(0, Delivery(k), Deployed(0))] + ([Record(0, "x", CreateAnswer.Created)] +
    ([Report(Key(k.ns, k.name + "-x"), Seen("success", "", "", ""), Found)] + []))))
  }

  lemma WatcherKnown(cfg: Config, k: Key, uid: string, spec: WatcherSpec)
    ensures var w := Step(cfg, Step(cfg, Init, Reconcile(P.CreateWatcher(k, uid, spec))), Reconcile(P.CatchUp(k, 0)));
      var o := Watcher(k, uid, 0, spec, EmptyWatcherStatus);
      StoredWatcher(w.r, k) == Some(o) && CachedWatcher(w.r, k) == Some(o) && w.d == Init.d && w.commits == map[]
  {
    var r1 := P.Step(cfg, P.Init, P.CreateWatcher(k, uid, spec));
    assert r1.revisions[k] == [P.Revision(Watcher(k, uid, 0, spec, EmptyWatcherStatus), P.User)];
  }

  lemma UnnumberedReady(cfg: Config, k: Key, o: Watcher)
    requires Valid(k) && o.key == k && Deploys(cfg, o.spec) && o.status.token == ""
    ensures ReceiverKey(Delivery(k)) == k
    ensures var p := HandleHook(cfg, Some(o), Delivery(k));
      && p.Ready? && p.deploy.Some? && p.deploy.value.environment == "staging"
      && p.commit.key == Key(k.ns, k.name + "-") && p.commit.spec.pr == "" && p.commit.spec.gitWatcherName == k.name
      && p.commit.status == EmptyCommitStatus
  {
    ReceiverIDSplits(k);
    PullCommitBuilt(o, Unnumbered);
  }

  lemma DeliveredUnnumbered(cfg: Config, w: World, k: Key, o: Watcher)
    requires Valid(k) && o.key == k && Deploys(cfg, o.spec) && o.status.token == ""
    requires StoredWatcher(w.r, k) == Some(o) && w.d == Init.d && w.commits == map[]
    ensures var w1 := Step(cfg, w, Deliver(0, Delivery(k), Deployed(0)));
      var w' := Step(cfg, w1, Record(0, "x", CreateAnswer.Created));
      var key := Key(k.ns, k.name + "-x");
      && key in w'.commits && DeploymentOf(w'.commits[key]) == Some(0) && w'.commits[key].spec.pr == ""
      && w'.commits[key].key == key && w'.commits[key].spec.gitWatcherName == k.name
      && 0 in w'.d.deployments && w'.d.deployments[0].request.environment == "staging"
      && !w'.d.deployments[0].numbered && w'.d.statuses == [] && w'.r == w.r
  {
    UnnumberedReady(cfg, k, o);
    var p := HandleHook(cfg, Some(o), Delivery(k));
    var w1 := Step(cfg, w, Deliver(0, Delivery(k), Deployed(0)));
    assert w1 == w.(d := StartDelivery(w.d, 0, p, false, Deployed(0)));
    UnnumberedRecorded(w, w1, k, p);
  }

  lemma UnnumberedRecorded(w: World, w1: World, k: Key, p: Prepared)
    requires p.Ready? && p.deploy.Some? && p.deploy.value.environment == "staging" && p.commit.spec.pr == ""
    requires p.commit.key == Key(k.ns, k.name + "-") && p.commit.spec.gitWatcherName == k.name
    requires w.d == Init.d && w.commits == map[] && w1 == w.(d := StartDelivery(w.d, 0, p, false, Deployed(0)))
    ensures var w' := RecordStep(w1, 0, "x", CreateAnswer.Created); var key := Key(k.ns, k.name + "-x");
      && key in w'.commits && DeploymentOf(w'.commits[key]) == Some(0) && w'.commits[key].spec.pr == ""
      && w'.commits[key].key == key && w'.commits[key].spec.gitWatcherName == k.name
      && 0 in w'.d.deployments && w'.d.deployments[0].request.environment == "staging"
      && !w'.d.deployments[0].numbered && w'.d.statuses == [] && w'.r == w.r
  {
    assert k.name + "-" + "x" == k.name + "-x";
    assert w1.d.pending[0] == WithDeployment(p.commit, 0);
  }

  lemma ReportedUnnumbered(cfg: Config, w: World, k: Key, o: Watcher, key: Key)
    requires CachedWatcher(w.r, k) == Some(o) && Deploys(cfg, o.spec) && w.d.statuses == []
    requires key in w.commits && DeploymentOf(w.commits[key]) == Some(0) && w.commits[key].spec.pr == ""
    requires w.commits[key].key == key && key.ns == k.ns && w.commits[key].spec.gitWatcherName == k.name
    ensures var d := Step(cfg, w, Report(key, Seen("success", "", "", ""), Found)).d;
      && d.deployments == w.d.deployments && |d.statuses| == 1
      && d.statuses[0].deployment == 0 && d.statuses[0].environment == "production" && d.statuses[0].autoInactive
  {
  }

  // The condition is needed: for every such watcher there is a run in which a staging
  // deployment is reported as a production one, inactivating others.
  lemma UnnumberedDisagrees(cfg: Config, k: Key, uid: string, spec: WatcherSpec)
    requires Valid(k) && Deploys(cfg, spec)
    ensures var d := Run(cfg, Init, DeliverAndReport(k, uid, spec)).d;
      && |d.statuses| == 1 && 0 in d.deployments && d.statuses[0].deployment == 0
      && d.deployments[0].request.environment == "staging" && !d.deployments[0].numbered
      && d.statuses[0].environment == "production" && d.statuses[0].autoInactive
  {
    var o := Watcher(k, uid, 0, spec, EmptyWatcherStatus);
    var key := Key(k.ns, k.name + "-x");
    var report := [Report(key, Seen("success", "", "", ""), Found)] + [];
    var record := [Record(0, "x", CreateAnswer.Created)] + report;
    var deliver := [Deliver(0, Delivery(k), Deployed(0))] + record;
    var catchUp := [Reconcile(P.CatchUp(k, 0))] + deliver;
    RunCons(cfg, Init, Reconcile(P.CreateWatcher(k, uid, spec)), catchUp);
    var w1 := Step(cfg, Init, Reconcile(P.CreateWatcher(k, uid, spec)));
    RunCons(cfg, w1, Reconcile(P.CatchUp(k, 0)), deliver);
    var w2 := Step(cfg, w1, Reconcile(P.CatchUp(k, 0)));
    WatcherKnown(cfg, k, uid, spec);
    DeliveredUnnumbered(cfg, w2, k, o);
    RunCons(cfg, w2, Deliver(0, Delivery(k), Deployed(0)), record);
    var w3 := Step(cfg, w2, Deliver(0, Delivery(k), Deployed(0)));
    RunCons(cfg, w3, Record(0, "x", CreateAnswer.Created), report);
    var w4 := Step(cfg, w3, Record(0, "x", CreateAnswer.Created));
    ReportedUnnumbered(cfg, w4, k, o, key);
    RunCons(cfg, w4, Report(key, Seen("success", "", "", ""), Found), []);
  }

  // ---------- Delivery conservation ----------

  ghost function Carried(w: World): map<Key, nat> {
    map key | key in w.commits && DeploymentOf(w.commits[key]).Some? :: DeploymentOf(w.commits[key]).value
  }

  ghost function Waiting(w: World): map<nat, nat> {
    map n | n in w.d.pending && DeploymentOf(w.d.pending[n]).Some? :: DeploymentOf(w.d.pending[n]).value
  }

  ghost function ReportedDeployments(w: World): set<nat> {
    set id | id in w.d.deployments && w.d.deployments[id].reported
  }

  lemma CarriedOnce(w: World)
    requires Placed(w)
    ensures Injective(Carried(w)) && Injective(Waiting(w))
  {
    forall k1, k2 | k1 in Carried(w) && k2 in Carried(w) && Carried(w)[k1] == Carried(w)[k2] ensures k1 == k2 {
      assert DeploymentOf(w.commits[k1]) == DeploymentOf(w.commits[k2]);
    }
    forall m, n | m in Waiting(w) && n in Waiting(w) && Waiting(w)[m] == Waiting(w)[n] ensures m == n {
      assert DeploymentOf(w.d.pending[m]) == DeploymentOf(w.d.pending[n]);
    }
  }

  lemma CarriedValues(w: World, id: nat)
    ensures (id in Carried(w).Values <==> OnCommit(w, id)) && (id in Waiting(w).Values <==> OnPending(w, id))
  {
    if OnCommit(w, id) {
      var key :| key in w.commits && DeploymentOf(w.commits[key]) == Some(id);
      assert key in Carried(w) && Carried(w)[key] == id;
    }
    if OnPending(w, id) {
      var n :| n in w.d.pending && DeploymentOf(w.d.pending[n]) == Some(id);
      assert n in Waiting(w) && Waiting(w)[n] == id;
    }
  }

  lemma DeploymentsPartition(w: World)
    requires DeploymentsOK(w) && Placed(w)
    ensures ReportedDeployments(w) == Carried(w).Values + Waiting(w).Values + w.d.failed
    ensures Carried(w).Values !! Waiting(w).Values
    ensures Carried(w).Values + Waiting(w).Values !! w.d.failed
  {
    forall id: nat
      ensures id in ReportedDeployments(w) <==> id in Carried(w).Values + Waiting(w).Values + w.d.failed
      ensures id in ReportedDeployments(w) ==> InOnePlace(w, id)
    {
      CarriedValues(w, id);
      if id in ReportedDeployments(w) { assert InOnePlace(w, id); }
      if OnCommit(w, id) {
        var key :| key in w.commits && DeploymentOf(w.commits[key]) == Some(id);
        assert Agrees(w.d, w.commits[key]);
      }
      if OnPending(w, id) {
        var n :| n in w.d.pending && DeploymentOf(w.d.pending[n]) == Some(id);
        assert Agrees(w.d, w.d.pending[n]);
      }
    }
    forall id: nat
      ensures (id in Carried(w).Values <==> OnCommit(w, id)) && (id in Waiting(w).Values <==> OnPending(w, id))
    {
      CarriedValues(w, id);
    }
  }

  // The deployments GitHub reported created are those on GitCommits, each on one,
  // those of deliveries under way, and those whose GitCommit was not created.
  lemma DeploymentsAddUp(w: World)
    requires DeploymentsOK(w) && Placed(w)
    ensures |ReportedDeployments(w)| == |Carried(w)| + |Waiting(w)| + |w.d.failed|
  {
    DeploymentsPartition(w);
    CarriedOnce(w);
    InjectiveSize(Carried(w));
    InjectiveSize(Waiting(w));
    var both := Carried(w).Values + Waiting(w).Values;
    assert |both| == |Carried(w).Values| + |Waiting(w).Values|;
    assert |both + w.d.failed| == |both| + |w.d.failed|;
  }

  // Delivery conservation: the GitCommits that came from deliveries are those of the
  // deliveries answered 200 and those whose create took effect although it was
  // reported failed; no two GitCommits share a deployment, and the reported deployments
  // are accounted for by GitCommits, deliveries under way and failed creates.
  lemma DeliveriesConserved(cfg: Config, actions: seq<Action>)
    ensures var w := Run(cfg, Init, actions);
      && FromDeliveries(w.d) <= w.commits.Keys
      && |FromDeliveries(w.d)| == CountOK(w.d.replies) + |w.d.unreported|
      && Carried(w).Keys <= FromDeliveries(w.d)
      && Injective(Carried(w))
      && |ReportedDeployments(w)| == |Carried(w)| + |Waiting(w)| + |w.d.failed|
  {
    ReachableInv(cfg, actions);
    var w := Run(cfg, Init, actions);
    CarriedOnce(w);
    DeploymentsAddUp(w);
  }

  // The step stores one new GitCommit and is answered 200, stores one and is not because
  // the create timed out, or stores none and is not.
  ghost predicate StoresOnSuccess(w: World, w': World, timedOut: bool) {
    && (w'.commits != w.commits <==> w'.d.replies == w.d.replies + [Status(OK)] || timedOut)
    && !(w'.d.replies == w.d.replies + [Status(OK)] && timedOut)
    && (w'.commits != w.commits ==>
          exists key :: key !in w.commits && key in w'.commits && w'.commits == w.commits[key := w'.commits[key]] &&
            FromDeliveries(w'.d) == FromDeliveries(w.d) + {key})
    && w'.r == w.r
  }

  // The create takes effect and is reported failed.
  ghost predicate TimesOut(w: World, a: Action) {
    && a.Record? && a.create.CreateTimeout?
    && a.n in w.d.pending && NamedCommit(w.d.pending[a.n], a.suffix).key !in w.commits
  }

  lemma FinishStores(w: World, n: nat, suffix: string, answer: CreateAnswer)
    requires n in w.d.pending
    ensures StoresOnSuccess(w, FinishDelivery(w, n, suffix, answer), TimesOut(w, Record(n, suffix, answer)))
  {
    var w' := FinishDelivery(w, n, suffix, answer);
    var key := NamedCommit(w.d.pending[n], suffix).key;
    if answer.Created? && key !in w.commits {
      assert w'.commits == w.commits[key := w'.commits[key]];
    } else {
      assert w'.d.replies[|w.d.replies|] == Status(InternalError);
      assert key !in w.commits && answer.CreateTimeout? ==> w'.commits == w.commits[key := w'.commits[key]];
    }
  }

  lemma StartStoresNothing(d: Hub, n: nat, p: Prepared, numbered: bool, answer: DeployAnswer)
    requires p.Reject? ==> p.code != OK
    ensures StartDelivery(d, n, p, numbered, answer).replies != d.replies + [Status(OK)]
  {
    var replies := StartDelivery(d, n, p, numbered, answer).replies;
    if |replies| == |d.replies| + 1 {
      assert replies[|d.replies|] != Status(OK);
    }
  }

  // A delivery changes the store of GitCommits exactly when it is answered 200 or its
  // create times out; it then adds one, under a name that was free.
  lemma OnlySuccessStores(cfg: Config, w: World, a: Action)
    requires !a.Reconcile?
    ensures StoresOnSuccess(w, Step(cfg, w, a), TimesOut(w, a))
  {
    if a.Deliver? && a.n !in w.d.pending {
      var stored := StoredWatcher(w.r, ReceiverKey(a.req));
      HookCodes(cfg, stored, a.req);
      StartStoresNothing(w.d, a.n, HandleHook(cfg, stored, a.req), Numbered(a.req), a.answer);
    }
    if a.Record? && a.n in w.d.pending {
      FinishStores(w, a.n, a.suffix, a.create);
    }
    assert w.d.replies != w.d.replies + [Status(OK)];
  }

  // A delivery makes at most one deployment: the one its event calls for, at the
  // watcher stored when it arrives.
  lemma DeliveryDeploysOnce(cfg: Config, w: World, n: nat, req: Request, answer: DeployAnswer)
    ensures var w' := Step(cfg, w, Deliver(n, req, answer)); var stored := StoredWatcher(w.r, ReceiverKey(req));
      || w'.d.deployments == w.d.deployments
      || (stored.Some? && req.event.Some? &&
          exists id :: id !in w.d.deployments && id in w'.d.deployments &&
            w'.d.deployments == w.d.deployments[id := w'.d.deployments[id]] &&
            DeploymentFor(cfg, stored.value, req.event.value) == Some(w'.d.deployments[id].request))
  {
    var stored := StoredWatcher(w.r, ReceiverKey(req));
    var p := HandleHook(cfg, stored, req);
    StartDeploys(w.d, n, p, Numbered(req), answer);
    if p.Ready? { HookReady(cfg, stored, req); }
  }

  lemma HookReady(cfg: Config, stored: Option<Watcher>, req: Request)
    requires HandleHook(cfg, stored, req).Ready?
    ensures stored.Some? && req.event.Some?
    ensures HandleHook(cfg, stored, req).deploy == DeploymentFor(cfg, stored.value, req.event.value)
  {
    DeploymentCharacterised(cfg, stored.value, req.event.value);
  }

  lemma StartDeploys(d: Hub, n: nat, p: Prepared, numbered: bool, answer: DeployAnswer)
    ensures var d' := StartDelivery(d, n, p, numbered, answer);
      || d'.deployments == d.deployments
      || (p.Ready? && p.deploy.Some? &&
          exists id :: id !in d.deployments && id in d'.deployments &&
            d'.deployments == d.deployments[id := d'.deployments[id]] &&
            d'.deployments[id].request == p.deploy.value)
  {
    var d' := StartDelivery(d, n, p, numbered, answer);
    if d'.deployments != d.deployments {
      assert d'.deployments == d.deployments[answer.id := d'.deployments[answer.id]];
    }
  }
}
