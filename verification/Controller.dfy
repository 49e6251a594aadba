// The webhook controller as an object. Its methods, run from start to end, do what
// runs of System.dfy do.
module Controller {
  import opened Types
  import opened Reconcile
  import opened ReconcileLaws
  import opened ReconcileProgress
  import opened Deliveries
  import opened DeliveryLaws
  import opened Servers
  import opened Providers
  import P = Protocol
  import PI = ProtocolInvariants
  import S = System

  // ---------- pkg/controllers/webhook/controller.go ----------

  class WebhookHandler {
    const cfg: Config
    const api: ApiServer
    const hub: GitHubServer
    const github: GitHubProvider
    const polling: PollingProvider

    ghost predicate Valid() {
      && github.cfg == cfg && github.api == api && github.hub == hub
      && polling.cfg == cfg && polling.api == api
    }

    constructor (cfg: Config, api: ApiServer, hub: GitHubServer)
      ensures Valid() && this.cfg == cfg && this.api == api && this.hub == hub
    {
      this.cfg, this.api, this.hub := cfg, api, hub;
      github := new GitHubProvider(cfg, api, hub);
      polling := new PollingProvider(cfg, api);
    }

    predicate Supports(provider: Provider, obj: Watcher, secret: Lookup) {
      match provider
      case GitHub => GitHubSupports(obj, secret)
      case Polling => PollingSupports(obj)
    }

    // A call of the provider that was chosen.
    method Create(provider: Provider, obj: Watcher, script: Script)
      returns (newObj: Watcher, ghost hook: Option<nat>, err: Option<string>)
      requires Valid() && ProviderFor(obj, script.answers.supports) == Some(provider)
      modifies hub`hooks, api`commits
      ensures Settled(cfg, obj, script) == Returned(newObj, hook, err)
      ensures newObj.key == obj.key && newObj.version == obj.version
      ensures var s := StartReconcile(cfg, obj, script.answers);
        && hub.hooks == (if s.entry.Some? then old(hub.hooks)[s.entry.value.0 := s.entry.value.1] else old(hub.hooks))
        && api.commits == CommitsAfter(cfg, old(api.commits), AfterRef(cfg, s.phase, script.ref), script.applied)
    {
      match provider {
        case GitHub => newObj, hook, err := github.Create(obj, script);
        case Polling =>
          newObj, err := polling.Create(obj, script);
          hook := None;
      }
      SettledIsWatcher(cfg, obj, script);
    }

    // What follows Create: the condition, the comparison and the Update.
    method Finish(obj: Watcher, created: Watcher, createErr: Option<string>, script: Script,
                  ghost r: P.Reconciler, ghost f: nat, ghost hook: Option<nat>)
      returns (result: Watcher, err: Option<string>)
      requires api.revisions == r.revisions
      requires f in r.flights && r.flights[f] == P.Flight(obj, Returned(created, hook, createErr))
      requires created.key == obj.key && created.version == obj.version
      modifies api`revisions
      ensures api.revisions == P.WriteBack(r, f, script.now, script.accepted).revisions
      ensures err.None? <==> createErr.None? && (api.revisions != r.revisions || created == obj)
      ensures result == NowStored(r.revisions, api.revisions, obj)
    {
      var newObj := created;
      if createErr.Some? {
        newObj := newObj.(status := newObj.status.(
          conditions := SetError(newObj.status.conditions, Registered, createErr, script.now)));
      }
      if obj == newObj {
        return obj, createErr;
      }
      var updated, updateErr := api.Update(newObj, createErr.None?, script.accepted);
      if updateErr.Some? {
        return obj, updateErr;
      }
      return updated, createErr;
    }

    // onChange, run from start to end, does what the steps of one reconcile do in the
    // protocol: same hooks, same GitCommits, same versions.
    method OnChange(obj: Watcher, script: Script, ghost w: S.World, ghost f: nat)
      returns (result: Watcher, err: Option<string>)
      requires Valid() && In(api, hub, w)
      requires f in w.r.flights && w.r.flights[f] == P.Flight(obj, Started)
      requires var entry := StartReconcile(cfg, obj, script.answers).entry;
        entry.Some? ==> entry.value.0 !in w.r.hooks
      modifies api, hub
      ensures In(api, hub, S.Run(cfg, w, Steps(f, script)))
      ensures var settled := Settled(cfg, obj, script);
        err.None? <==> settled.err.None? && (settled.obj == obj || api.revisions != old(api.revisions))
      ensures result == NowStored(old(api.revisions), api.revisions, obj)
      ensures hub.hooks != old(hub.hooks) <==>
        && WantsGitHub(obj, script.answers.supports) && obj.status.hookID == "" && script.answers.client.Found?
        && cfg.parsePath(obj.spec.repositoryURL).Some? && !script.answers.hook.Refused?
    {
      HandlingHooks(cfg, w, f, script);
      ghost var s := StartReconcile(cfg, obj, script.answers);
      ghost var settled := P.Advance(P.StartCall(w.r, f, s), f, Settled(cfg, obj, script));
      var providers := [GitHub, Polling];
      var i := 0;
      while i < |providers|
        invariant 0 <= i <= |providers|
        invariant In(api, hub, w)
        invariant forall j :: 0 <= j < i ==> !Supports(providers[j], obj, script.answers.supports)
      {
        if Supports(providers[i], obj, script.answers.supports) {
          assert i > 0 ==> !Supports(providers[0], obj, script.answers.supports);
          var newObj, hook, createErr := Create(providers[i], obj, script);
          result, err := Finish(obj, newObj, createErr, script, settled, f, hook);
          Reaches(w, f, script);
          return;
        }
        i := i + 1;
      }
      assert !Supports(providers[0], obj, script.answers.supports);
      assert !Supports(providers[1], obj, script.answers.supports);
      Reaches(w, f, script);
      return obj, None;
    }

    // The servers are where a reconcile that ran from start to end leaves them.
    lemma Reaches(w: S.World, f: nat, script: Script)
      requires f in w.r.flights && w.r.flights[f].phase.Started?
      requires var base := w.r.flights[f].base; var s := StartReconcile(cfg, base, script.answers);
        && (s.entry.Some? ==> s.entry.value.0 !in w.r.hooks)
        && var settled := P.Advance(P.StartCall(w.r, f, s), f, Settled(cfg, base, script));
        && api.revisions == P.WriteBack(settled, f, script.now, script.accepted).revisions
        && hub.hooks == (if s.entry.Some? then w.r.hooks[s.entry.value.0 := s.entry.value.1] else w.r.hooks)
        && api.commits == CommitsAfter(cfg, w.commits, AfterRef(cfg, s.phase, script.ref), script.applied)
      requires api.cached == w.r.cached && api.queue == w.r.queue
      requires hub.deployments == w.d.deployments && hub.statuses == w.d.statuses
      ensures In(api, hub, S.Run(cfg, w, Steps(f, script)))
    {
      HandlingEffects(cfg, w, f, script);
    }

    // One tick of start: the cached watchers without a hook id are enqueued, unless
    // the cache cannot be listed.
    method Tick(listed: bool, ghost w: S.World)
      requires In(api, hub, w) && PI.HistoriesOK(w.r)
      modifies api`queue
      ensures In(api, hub, if listed then S.Step(cfg, w, S.Reconcile(P.Tick)) else w)
    {
      if listed {
        EnqueueUnregistered(w.r);
      }
    }

    method EnqueueUnregistered(ghost r: P.Reconciler)
      requires PI.HistoriesOK(r) && api.revisions == r.revisions && api.cached == r.cached
      modifies api`queue
      ensures api.queue == old(api.queue) + P.Unregistered(r)
    {
      var modules := Listed(api.revisions, api.cached);
      ghost var unregistered, left := P.Unregistered(r), P.Unregistered(r);
      while modules != {}
        invariant modules <= Listed(r.revisions, r.cached)
        invariant left == unregistered * modules
        invariant api.queue == old(api.queue) + (unregistered - left)
        decreases modules
      {
        var k :| k in modules;
        var m := api.revisions[k][api.cached[k]].obj;
        CachedKey(r, k);
        Enqueued(unregistered, left, modules, k);
        if m.status.hookID == "" {
          api.queue := api.queue + {m.key};
          assert m.key == k && k in unregistered;
        }
        modules, left := modules - {k}, left - {k};
      }
    }

    // updateGithubStatus of what the cache holds for a GitCommit makes the status
    // call, if any, that a report step makes in the system.
    method UpdateGithubStatus(obj: GitCommit, secret: Lookup, answer: Option<string>, ghost w: S.World,
                              ghost key: Key, ghost seen: S.Seen)
      returns (err: Option<string>)
      requires In(api, hub, w) && key in w.commits && obj == S.SeenCommit(w.commits[key], seen)
      modifies hub`statuses
      ensures In(api, hub, S.Step(cfg, w, S.Report(key, seen, secret)))
      ensures Reports(cfg, w, key, seen, secret, old(hub.statuses), hub.statuses)
      ensures err.None? && obj.status.github.Some? && hub.statuses == old(hub.statuses) ==>
        obj.status.github.value.deploymentState == "" && obj.status.buildStatus == ""
      ensures obj.status.github.None? ==> err.None?
      ensures hub.statuses != old(hub.statuses) ==> err == answer
    {
      ReportTells(cfg, w, key, seen, secret);
      if obj.status.github.None? {
        return None;
      }
      var gitwatcher := api.GetCached(Key(obj.key.ns, obj.spec.gitWatcherName));
      if gitwatcher.None? {
        return Some("not found");
      }
      err := ClientError(gitwatcher.value, secret);
      if err.Some? {
        return;
      }
      var env := "production";
      if obj.spec.pr != "" {
        env := "staging";
      }
      var autoInactive := true;
      if obj.spec.pr != "" {
        autoInactive := false;
      }
      var ownerRepo := OwnerAndRepo(cfg, gitwatcher.value.spec.repositoryURL);
      if ownerRepo.Err? {
        return Some(ownerRepo.message);
      }
      var (owner, repo) := ownerRepo.value;
      var github := obj.status.github.value;
      var state := github.deploymentState;
      if state == "" {
        state := obj.status.buildStatus;
      }
      if state == "" {
        return None;
      }
      err := hub.CreateDeploymentStatus(
        StatusCall(github.deploymentID, owner, repo, state, env, autoInactive, github.environmentURL, github.logURL),
        answer);
    }
  }

  // A Create keeps the identity and the version of its object.
  lemma SettledIsWatcher(cfg: Config, o: Watcher, script: Script)
    ensures var obj := Settled(cfg, o, script).obj; obj.key == o.key && obj.version == o.version
  {
    var start := StartReconcile(cfg, o, script.answers).phase;
    StartIsWatcher(cfg, o, script.answers);
    RestIsWatcher(cfg, start, o, script);
  }

  // The working copy, where there is one, is o in a changed status.
  predicate CopyOf(o: Watcher, phase: Phase) {
    phase.Started? || (phase.obj.key == o.key && phase.obj.version == o.version)
  }

  lemma StartIsWatcher(cfg: Config, o: Watcher, answers: StartAnswers)
    ensures CopyOf(o, StartReconcile(cfg, o, answers).phase)
  {
  }

  lemma RestIsWatcher(cfg: Config, phase: Phase, o: Watcher, script: Script)
    requires CopyOf(o, phase)
    ensures CopyOf(o, Settle(cfg, phase, script))
  {
    assert CopyOf(o, AfterRef(cfg, phase, script.ref));
  }

  // The version that was written, or else the object passed in.
  function NowStored(before: map<Key, seq<P.Revision>>, after: map<Key, seq<P.Revision>>, obj: Watcher): Watcher {
    if after != before && obj.key in after && |after[obj.key]| > 0 then P.Last(after[obj.key]) else obj
  }

  // The watchers in the cache.
  function Listed(revisions: map<Key, seq<P.Revision>>, cached: map<Key, nat>): set<Key> {
    set k | k in cached && k in revisions && cached[k] < |revisions[k]|
  }

  lemma CachedKey(r: P.Reconciler, k: Key)
    requires PI.HistoriesOK(r) && k in Listed(r.revisions, r.cached)
    ensures var m := r.revisions[k][r.cached[k]].obj;
      m.key == k && (m.status.hookID == "" <==> k in P.Unregistered(r))
  {
    assert PI.HistoryOK(k, r.revisions[k]);
  }

  // One turn of the loop over the watchers, on the sets.
  lemma Enqueued(unregistered: set<Key>, left: set<Key>, modules: set<Key>, k: Key)
    requires k in modules && left == unregistered * modules
    ensures left - {k} == unregistered * (modules - {k})
    ensures unregistered - (left - {k}) == (unregistered - left) + (if k in unregistered then {k} else {})
  {
  }

  function Steps(f: nat, script: Script): seq<S.Action> {
    [S.Reconcile(P.Call(f, script.answers))] + ([S.Reconcile(P.Ref(f, script.ref))] +
    ([S.Reconcile(P.Apply(f, script.applied))] + ([S.Reconcile(P.Write(f, script.now, script.accepted))] + [])))
  }

  lemma StepsRun(cfg: Config, w: S.World, f: nat, script: Script)
    ensures S.Run(cfg, w, Steps(f, script)) ==
      S.ReconcileStep(cfg, S.ReconcileStep(cfg, S.ReconcileStep(cfg, S.ReconcileStep(cfg, w,
        P.Call(f, script.answers)), P.Ref(f, script.ref)), P.Apply(f, script.applied)),
        P.Write(f, script.now, script.accepted))
  {
    var write := [S.Reconcile(P.Write(f, script.now, script.accepted))] + [];
    var apply := [S.Reconcile(P.Apply(f, script.applied))] + write;
    var ref := [S.Reconcile(P.Ref(f, script.ref))] + apply;
    var w1 := S.ReconcileStep(cfg, w, P.Call(f, script.answers));
    var w2 := S.ReconcileStep(cfg, w1, P.Ref(f, script.ref));
    var w3 := S.ReconcileStep(cfg, w2, P.Apply(f, script.applied));
    S.RunCons(cfg, w, S.Reconcile(P.Call(f, script.answers)), ref);
    S.RunCons(cfg, w1, S.Reconcile(P.Ref(f, script.ref)), apply);
    S.RunCons(cfg, w2, S.Reconcile(P.Apply(f, script.applied)), write);
    S.RunCons(cfg, w3, S.Reconcile(P.Write(f, script.now, script.accepted)), []);
  }

  // What the four steps change, by the pieces of the reconcile.
  lemma HandlingEffects(cfg: Config, w: S.World, f: nat, script: Script)
    requires f in w.r.flights && w.r.flights[f].phase.Started?
    requires var entry := StartReconcile(cfg, w.r.flights[f].base, script.answers).entry;
      entry.Some? ==> entry.value.0 !in w.r.hooks
    ensures var base := w.r.flights[f].base;
      var s := StartReconcile(cfg, base, script.answers);
      var settled := P.Advance(P.StartCall(w.r, f, s), f, Settled(cfg, base, script));
      var w' := S.Run(cfg, w, Steps(f, script));
      && w'.r == P.WriteBack(settled, f, script.now, script.accepted)
      && w'.commits == CommitsAfter(cfg, w.commits, AfterRef(cfg, s.phase, script.ref), script.applied)
      && w'.d == w.d
  {
    StepsRun(cfg, w, f, script);
    StepsSettle(cfg, w, f, script);
    var w1 := S.ReconcileStep(cfg, w, P.Call(f, script.answers));
    var w3 := S.ReconcileStep(cfg, S.ReconcileStep(cfg, w1, P.Ref(f, script.ref)), P.Apply(f, script.applied));
    assert S.Run(cfg, w, Steps(f, script)) == S.ReconcileStep(cfg, w3, P.Write(f, script.now, script.accepted));
  }

  // A reconcile makes a hook exactly for a watcher of the GitHub provider without one,
  // when its secret is found, its repository parses and GitHub does not refuse.
  lemma HandlingHooks(cfg: Config, w: S.World, f: nat, script: Script)
    requires f in w.r.flights && w.r.flights[f].phase.Started?
    requires var entry := StartReconcile(cfg, w.r.flights[f].base, script.answers).entry;
      entry.Some? ==> entry.value.0 !in w.r.hooks
    ensures var base := w.r.flights[f].base;
      S.Run(cfg, w, Steps(f, script)).r.hooks != w.r.hooks <==>
        && WantsGitHub(base, script.answers.supports) && base.status.hookID == "" && script.answers.client.Found?
        && cfg.parsePath(base.spec.repositoryURL).Some? && !script.answers.hook.Refused?
  {
    var s := StartReconcile(cfg, w.r.flights[f].base, script.answers);
    HandlingEffects(cfg, w, f, script);
    HookRequested(cfg, w.r.flights[f].base, script.answers);
    if s.entry.Some? { assert s.entry.value.0 in w.r.hooks[s.entry.value.0 := s.entry.value.1]; }
  }

  lemma StepsSettle(cfg: Config, w: S.World, f: nat, script: Script)
    requires f in w.r.flights && w.r.flights[f].phase.Started?
    requires var entry := StartReconcile(cfg, w.r.flights[f].base, script.answers).entry;
      entry.Some? ==> entry.value.0 !in w.r.hooks
    ensures var base := w.r.flights[f].base;
      var s := StartReconcile(cfg, base, script.answers);
      var settled := P.Advance(P.StartCall(w.r, f, s), f, Settled(cfg, base, script));
      var w1 := S.ReconcileStep(cfg, w, P.Call(f, script.answers));
      var w3 := S.ReconcileStep(cfg, S.ReconcileStep(cfg, w1, P.Ref(f, script.ref)), P.Apply(f, script.applied));
      && settled.flights[f].phase.Returned?
      && w3.r == settled && w3.d == w.d
      && w3.commits == CommitsAfter(cfg, w.commits, AfterRef(cfg, s.phase, script.ref), script.applied)
  {
    var s := StartReconcile(cfg, w.r.flights[f].base, script.answers);
    var r1 := P.StartCall(w.r, f, s);
    var w1 := S.ReconcileStep(cfg, w, P.Call(f, script.answers));
    assert w1.r == r1 && w1.commits == w.commits && w1.d == w.d && r1.flights[f].phase == s.phase;
    RestSettles(cfg, w1, f, script);
  }

  lemma RestSettles(cfg: Config, w: S.World, f: nat, script: Script)
    requires f in w.r.flights
    ensures var phase := w.r.flights[f].phase;
      var w' := S.ReconcileStep(cfg, S.ReconcileStep(cfg, w, P.Ref(f, script.ref)), P.Apply(f, script.applied));
      && w'.r == P.Advance(w.r, f, Settle(cfg, phase, script)) && w'.d == w.d
      && w'.commits == CommitsAfter(cfg, w.commits, AfterRef(cfg, phase, script.ref), script.applied)
  {
    var r2 := P.Advance(w.r, f, AfterRef(cfg, w.r.flights[f].phase, script.ref));
    RefStep(cfg, w.r, f, script.ref);
    ApplyStep(cfg, r2, f, script.applied);
    assert P.Advance(r2, f, AfterApplied(r2.flights[f].phase, script.applied)) ==
      P.Advance(w.r, f, Settle(cfg, w.r.flights[f].phase, script));
  }
}
