// Whose GitCommits there are, and where the deployments are that deliveries made.
module SystemInvariants {
  import opened Types
  import opened Reconcile
  import opened Deliveries
  import opened System
  import P = Protocol
  import PI = ProtocolInvariants

  // ---------- Provenance ----------

  // A GitCommit belongs to one watcher, by namespace, name and owner reference.
  ghost predicate Owned(r: P.Reconciler, c: GitCommit) {
    var k := Key(c.key.ns, c.spec.gitWatcherName);
    && k in r.revisions && |r.revisions[k]| > 0
    && |c.owners| == 1
    && c.owners[0].name == k.name
    && c.owners[0].uid == r.revisions[k][0].obj.uid
  }

  ghost predicate AllOwned(w: World) {
    && (forall key :: key in w.commits ==> w.commits[key].key == key && Owned(w.r, w.commits[key]))
    && (forall n :: n in w.d.pending ==> Owned(w.r, w.d.pending[n]))
  }

  // ---------- Deployments ----------

  // What a GitCommit with a deployment id says agrees with GitHub's deployment.
  ghost predicate Agrees(d: Hub, c: GitCommit) {
    DeploymentOf(c).Some? ==>
      var id := DeploymentOf(c).value;
      id in d.deployments && d.deployments[id].reported && (c.spec.pr != "" <==> d.deployments[id].numbered)
  }

  ghost predicate CallAgrees(d: Hub, call: StatusCall) {
    && call.deployment in d.deployments
    && call.environment == (if d.deployments[call.deployment].numbered then "staging" else "production")
    && call.autoInactive == !d.deployments[call.deployment].numbered
  }

  // Only a staging deployment can have come from a numbered event.
  ghost predicate ProperDeployment(dep: Deployment) {
    dep.request.environment == "staging" || (dep.request.environment == "production" && !dep.numbered)
  }

  ghost predicate DeploymentsOK(w: World) {
    && (forall id :: id in w.d.deployments ==> ProperDeployment(w.d.deployments[id]))
    && (forall key :: key in w.commits ==> Agrees(w.d, w.commits[key]))
    && (forall n :: n in w.d.pending ==> Agrees(w.d, w.d.pending[n]))
    && (forall i :: 0 <= i < |w.d.statuses| ==> CallAgrees(w.d, w.d.statuses[i]))
  }

  // ---------- Each deployment is in exactly one place ----------

  ghost predicate OnCommit(w: World, id: nat) {
    exists key :: key in w.commits && DeploymentOf(w.commits[key]) == Some(id)
  }

  ghost predicate OnPending(w: World, id: nat) {
    exists n :: n in w.d.pending && DeploymentOf(w.d.pending[n]) == Some(id)
  }

  ghost predicate InOnePlace(w: World, id: nat) {
    && (OnCommit(w, id) || OnPending(w, id) || id in w.d.failed)
    && !(OnCommit(w, id) && OnPending(w, id))
    && !(OnCommit(w, id) && id in w.d.failed)
    && !(OnPending(w, id) && id in w.d.failed)
  }

  ghost predicate OneCommitEach(w: World) {
    forall k1, k2 ::
      (k1 in w.commits && k2 in w.commits && DeploymentOf(w.commits[k1]).Some? &&
       DeploymentOf(w.commits[k1]) == DeploymentOf(w.commits[k2])) ==> k1 == k2
  }

  ghost predicate OnePendingEach(w: World) {
    forall m, n ::
      (m in w.d.pending && n in w.d.pending && DeploymentOf(w.d.pending[m]).Some? &&
       DeploymentOf(w.d.pending[m]) == DeploymentOf(w.d.pending[n])) ==> m == n
  }

  ghost predicate Placed(w: World) {
    && OneCommitEach(w) && OnePendingEach(w)
    && (forall id :: id in w.d.failed ==> id in w.d.deployments && w.d.deployments[id].reported)
    && (forall id :: id in w.d.deployments && w.d.deployments[id].reported ==> InOnePlace(w, id))
  }

  // ---------- Answers ----------

  function CountOK(replies: seq<Reply>): nat {
    if |replies| == 0 then 0
    else CountOK(replies[..|replies| - 1]) + (if replies[|replies| - 1] == Status(OK) then 1 else 0)
  }

  ghost predicate AnswersOK(w: World) {
    && FromDeliveries(w.d) <= w.commits.Keys
    && w.d.delivered !! w.d.unreported
    && |w.d.delivered| == CountOK(w.d.replies)
    && forall key :: key in w.commits && DeploymentOf(w.commits[key]).Some? ==> key in FromDeliveries(w.d)
  }

  ghost predicate HubInv(w: World) {
    AllOwned(w) && DeploymentsOK(w) && Placed(w) && AnswersOK(w)
  }

  ghost predicate Inv(w: World) {
    PI.Sound(w.r) && HubInv(w)
  }

  // ---------- Reconcile steps ----------

  lemma OwnedKept(r: P.Reconciler, r': P.Reconciler, c: GitCommit)
    requires PI.Extends(r, r') && Owned(r, c)
    ensures Owned(r', c)
  {
  }

  // An applied GitCommit belongs to the watcher whose reconcile applied it.
  lemma AppliedOwned(cfg: Config, r: P.Reconciler, a: P.Action)
    requires PI.Sound(r) && P.AppliedCommit(cfg, r, a).Some?
    ensures var c := P.AppliedCommit(cfg, r, a).value;
      Owned(r, c) && c.status == EmptyCommitStatus && c.key.ns == r.flights[a.f].base.key.ns
  {
    var base := r.flights[a.f].base;
    var p := r.flights[a.f].phase;
    assert PI.Stored(r, base) && PI.PhaseOK(r, base, p);
    assert p.obj.key == base.key && p.obj.uid == base.uid;
    assert PI.HistoryOK(base.key, r.revisions[base.key]);
  }

  // An upsert changes no status and no pull request number.
  lemma UpsertKeeps(commits: map<Key, GitCommit>, c: GitCommit, key: Key)
    requires forall k :: k in commits ==> commits[k].key == k
    requires c.status == EmptyCommitStatus && key in Upsert(commits, c)
    ensures var after := Upsert(commits, c)[key];
      && after.key == key
      && (key in commits ==> after.status == commits[key].status && after.spec.pr == commits[key].spec.pr)
      && (key !in commits ==> after == c && key == c.key)
      && (key in commits && key != c.key ==> after == commits[key])
      && (key == c.key ==> after.owners == c.owners && after.spec.gitWatcherName == c.spec.gitWatcherName)
  {
  }

  lemma ReconcileKeepsOwned(cfg: Config, w: World, a: P.Action)
    requires Inv(w)
    ensures AllOwned(ReconcileStep(cfg, w, a))
  {
    var w' := ReconcileStep(cfg, w, a);
    PI.StepExtends(cfg, w.r, a);
    var applied := P.AppliedCommit(cfg, w.r, a);
    forall key | key in w'.commits ensures w'.commits[key].key == key && Owned(w'.r, w'.commits[key]) {
      if applied.Some? {
        AppliedOwned(cfg, w.r, a);
        UpsertKeeps(w.commits, applied.value, key);
        if key == applied.value.key {
          OwnedKept(w.r, w'.r, applied.value);
        }
      }
      if key in w.commits { OwnedKept(w.r, w'.r, w.commits[key]); }
    }
    forall n | n in w'.d.pending ensures Owned(w'.r, w'.d.pending[n]) {
      OwnedKept(w.r, w'.r, w.d.pending[n]);
    }
  }

  // ---------- What keeps each part ----------

  ghost predicate DeploymentsGrow(d: Hub, d': Hub) {
    forall id :: id in d.deployments ==> id in d'.deployments && d'.deployments[id] == d.deployments[id]
  }

  lemma AgreesKept(d: Hub, d': Hub, c: GitCommit)
    requires DeploymentsGrow(d, d') && Agrees(d, c)
    ensures Agrees(d', c)
  {
  }

  lemma CallAgreesKept(d: Hub, d': Hub, call: StatusCall)
    requires DeploymentsGrow(d, d') && CallAgrees(d, call)
    ensures CallAgrees(d', call)
  {
  }

  // GitHub's deployments grow, and the GitCommits and calls agree with them.
  lemma AgreementKept(w: World, w': World)
    requires DeploymentsOK(w) && DeploymentsGrow(w.d, w'.d) && w'.d.statuses == w.d.statuses
    requires forall id :: id in w'.d.deployments && id !in w.d.deployments ==> ProperDeployment(w'.d.deployments[id])
    requires forall key :: key in w'.commits ==> Agrees(w.d, w'.commits[key]) || Agrees(w'.d, w'.commits[key])
    requires forall n :: n in w'.d.pending ==> Agrees(w.d, w'.d.pending[n]) || Agrees(w'.d, w'.d.pending[n])
    ensures DeploymentsOK(w')
  {
    forall key | key in w'.commits ensures Agrees(w'.d, w'.commits[key]) {
      if Agrees(w.d, w'.commits[key]) { AgreesKept(w.d, w'.d, w'.commits[key]); }
    }
    forall n | n in w'.d.pending ensures Agrees(w'.d, w'.d.pending[n]) {
      if Agrees(w.d, w'.d.pending[n]) { AgreesKept(w.d, w'.d, w'.d.pending[n]); }
    }
    forall i | 0 <= i < |w'.d.statuses| ensures CallAgrees(w'.d, w'.d.statuses[i]) {
      assert CallAgrees(w.d, w.d.statuses[i]);
      CallAgreesKept(w.d, w'.d, w.d.statuses[i]);
    }
  }

  // No reported deployment comes, goes or moves.
  lemma PlacesKept(w: World, w': World)
    requires Placed(w) && DeploymentsGrow(w.d, w'.d) && w'.d.failed == w.d.failed
    requires forall id :: id in w'.d.deployments && id !in w.d.deployments ==> !w'.d.deployments[id].reported
    requires OneCommitEach(w') && OnePendingEach(w')
    requires forall id: nat :: (OnCommit(w', id) <==> OnCommit(w, id)) && (OnPending(w', id) <==> OnPending(w, id))
    ensures Placed(w')
  {
    forall id | id in w'.d.deployments && w'.d.deployments[id].reported ensures InOnePlace(w', id) {
      assert InOnePlace(w, id);
      assert (OnCommit(w', id) <==> OnCommit(w, id)) && (OnPending(w', id) <==> OnPending(w, id));
    }
  }

  lemma SamePlaces(w: World, w': World)
    requires Placed(w) && DeploymentsGrow(w.d, w'.d) && w'.d.failed == w.d.failed
    requires forall id :: id in w'.d.deployments && id !in w.d.deployments ==> !w'.d.deployments[id].reported
    requires w'.commits == w.commits && w'.d.pending == w.d.pending
    ensures Placed(w')
  {
    PlacesKept(w, w');
  }

  lemma AnswersKept(w: World, w': World)
    requires AnswersOK(w) && w'.commits == w.commits
    requires w'.d.delivered == w.d.delivered && w'.d.unreported == w.d.unreported
    requires
      || w'.d.replies == w.d.replies
      || exists reply :: reply != Status(OK) && w'.d.replies == w.d.replies + [reply]
    ensures AnswersOK(w')
  {
    if w'.d.replies != w.d.replies { assert w'.d.replies[..|w'.d.replies| - 1] == w.d.replies; }
  }

  // ---------- Reconcile steps, continued ----------

  // The same GitCommits carry the same deployments, with the same pull requests.
  ghost predicate SameCarrier(w: World, w': World, key: Key) {
    && (key in w.commits ==> key in w'.commits)
    && (key in w'.commits ==>
          if key in w.commits then
            w'.commits[key].status == w.commits[key].status && w'.commits[key].spec.pr == w.commits[key].spec.pr
          else DeploymentOf(w'.commits[key]).None?)
  }

  lemma ReconcileSameCarriers(cfg: Config, w: World, a: P.Action, key: Key)
    requires PI.Sound(w.r) && forall k :: k in w.commits ==> w.commits[k].key == k
    ensures SameCarrier(w, ReconcileStep(cfg, w, a), key)
  {
    var applied := P.AppliedCommit(cfg, w.r, a);
    if applied.Some? {
      AppliedOwned(cfg, w.r, a);
      if key in Upsert(w.commits, applied.value) { UpsertKeeps(w.commits, applied.value, key); }
    }
  }

  lemma SameOnCommit(w: World, w': World, id: nat)
    requires forall key :: SameCarrier(w, w', key)
    ensures OnCommit(w', id) <==> OnCommit(w, id)
  {
    if OnCommit(w, id) {
      var key :| key in w.commits && DeploymentOf(w.commits[key]) == Some(id);
      assert SameCarrier(w, w', key);
      assert key in w'.commits && DeploymentOf(w'.commits[key]) == Some(id);
    }
    if OnCommit(w', id) {
      var key :| key in w'.commits && DeploymentOf(w'.commits[key]) == Some(id);
      assert SameCarrier(w, w', key);
      assert key in w.commits && DeploymentOf(w.commits[key]) == Some(id);
    }
  }

  lemma SameCarriersAgree(w: World, w': World)
    requires DeploymentsOK(w) && w'.d == w.d && forall key :: SameCarrier(w, w', key)
    ensures DeploymentsOK(w')
  {
    forall key | key in w'.commits ensures Agrees(w.d, w'.commits[key]) {
      assert SameCarrier(w, w', key);
      if key in w.commits { assert Agrees(w.d, w.commits[key]); }
    }
    AgreementKept(w, w');
  }

  lemma SameCarriersPlaced(w: World, w': World)
    requires Placed(w) && w'.d == w.d && forall key :: SameCarrier(w, w', key)
    ensures Placed(w')
  {
    forall id: nat ensures OnCommit(w', id) <==> OnCommit(w, id) {
      SameOnCommit(w, w', id);
    }
    forall k1, k2 |
      k1 in w'.commits && k2 in w'.commits && DeploymentOf(w'.commits[k1]).Some? &&
      DeploymentOf(w'.commits[k1]) == DeploymentOf(w'.commits[k2])
      ensures k1 == k2
    {
      assert SameCarrier(w, w', k1) && SameCarrier(w, w', k2);
    }
    PlacesKept(w, w');
  }

  lemma SameCarriersAnswers(w: World, w': World)
    requires AnswersOK(w) && w'.d == w.d && forall key :: SameCarrier(w, w', key)
    ensures AnswersOK(w')
  {
    forall key | key in w.commits ensures key in w'.commits {
      assert SameCarrier(w, w', key);
    }
    forall key | key in w'.commits && DeploymentOf(w'.commits[key]).Some? ensures key in FromDeliveries(w'.d) {
      assert SameCarrier(w, w', key);
    }
  }

  lemma ReconcileKeeps(cfg: Config, w: World, a: P.Action)
    requires Inv(w)
    ensures Inv(ReconcileStep(cfg, w, a))
  {
    var w' := ReconcileStep(cfg, w, a);
    PI.StepKeepsSound(cfg, w.r, a);
    ReconcileKeepsOwned(cfg, w, a);
    forall key ensures SameCarrier(w, w', key) {
      ReconcileSameCarriers(cfg, w, a, key);
    }
    SameCarriersAgree(w, w');
    SameCarriersPlaced(w, w');
    SameCarriersAnswers(w, w');
  }

  // ---------- Deliveries ----------

  // What HandleHook makes ready, for the world it reads the watcher from.
  lemma HookCommit(cfg: Config, w: World, req: Request)
    requires Inv(w)
    ensures var p := HandleHook(cfg, StoredWatcher(w.r, ReceiverKey(req)), req);
      p.Ready? ==>
        && Owned(w.r, p.commit)
        && p.commit.status == EmptyCommitStatus
        && (p.commit.spec.pr != "" <==> Numbered(req))
        && (p.deploy.Some? ==>
              || p.deploy.value.environment == "staging"
              || (p.deploy.value.environment == "production" && !Numbered(req)))
  {
    var k := ReceiverKey(req);
    var stored := StoredWatcher(w.r, k);
    var p := HandleHook(cfg, stored, req);
    if p.Ready? {
      var o := stored.value;
      assert PI.HistoryOK(k, w.r.revisions[k]);
      assert o.key == k && o.uid == w.r.revisions[k][0].obj.uid;
      ReadyCommit(cfg, o, req.event.value);
      DeploymentCharacterised(cfg, o, req.event.value);
    }
  }

  // A delivery gets ready without a deployment.
  lemma AddPending(w: World, w': World, n: nat, c: GitCommit)
    requires HubInv(w) && n !in w.d.pending
    requires w' == w.(d := w.d.(pending := w.d.pending[n := c]))
    requires Owned(w.r, c) && DeploymentOf(c).None?
    ensures HubInv(w')
  {
    AgreementKept(w, w');
    forall id: nat ensures OnPending(w', id) <==> OnPending(w, id) {
      PendingGains(w, w', n, c, id);
    }
    PlacesKept(w, w');
    AnswersKept(w, w');
  }

  lemma PendingGains(w: World, w': World, n: nat, c: GitCommit, id: nat)
    requires n !in w.d.pending && w'.d.pending == w.d.pending[n := c]
    ensures OnPending(w', id) <==> OnPending(w, id) || DeploymentOf(c) == Some(id)
  {
    if OnPending(w, id) {
      var m :| m in w.d.pending && DeploymentOf(w.d.pending[m]) == Some(id);
      assert m in w'.d.pending && DeploymentOf(w'.d.pending[m]) == Some(id);
    }
    if DeploymentOf(c) == Some(id) { assert w'.d.pending[n] == c; }
  }

  // A reported deployment goes to the delivery that asked for it, and nowhere else.
  lemma AddDeployed(w: World, w': World, n: nat, c: GitCommit, id: nat, dep: Deployment)
    requires HubInv(w) && n !in w.d.pending && id !in w.d.deployments
    requires w' == w.(d := w.d.(pending := w.d.pending[n := WithDeployment(c, id)],
                                deployments := w.d.deployments[id := dep]))
    requires Owned(w.r, c) && dep.reported && (c.spec.pr != "" <==> dep.numbered) && ProperDeployment(dep)
    ensures HubInv(w')
  {
    assert Owned(w.r, WithDeployment(c, id));
    assert Agrees(w'.d, WithDeployment(c, id));
    AgreementKept(w, w');
    DeployedPlaces(w, w', n, WithDeployment(c, id), id);
    AnswersKept(w, w');
  }

  lemma NotPlaced(w: World, id: nat)
    requires DeploymentsOK(w) && id !in w.d.deployments
    ensures !OnCommit(w, id) && !OnPending(w, id)
  {
    forall key | key in w.commits ensures DeploymentOf(w.commits[key]) != Some(id) {
      assert Agrees(w.d, w.commits[key]);
    }
    forall n | n in w.d.pending ensures DeploymentOf(w.d.pending[n]) != Some(id) {
      assert Agrees(w.d, w.d.pending[n]);
    }
  }

  lemma DeployedPlaces(w: World, w': World, n: nat, c: GitCommit, id: nat)
    requires DeploymentsOK(w) && Placed(w) && n !in w.d.pending && id !in w.d.deployments
    requires w'.commits == w.commits && w'.d.failed == w.d.failed
    requires w'.d.pending == w.d.pending[n := c] && DeploymentOf(c) == Some(id)
    requires id in w'.d.deployments && w'.d.deployments == w.d.deployments[id := w'.d.deployments[id]]
    ensures Placed(w')
  {
    NotPlaced(w, id);
    DeployedOnce(w, w', n, c, id);
    forall i | i in w'.d.deployments && w'.d.deployments[i].reported ensures InOnePlace(w', i) {
      PendingGains(w, w', n, c, i);
      assert OnCommit(w', i) <==> OnCommit(w, i);
      if i != id { assert InOnePlace(w, i); }
    }
  }

  lemma DeployedOnce(w: World, w': World, n: nat, c: GitCommit, id: nat)
    requires OnePendingEach(w) && !OnPending(w, id) && n !in w.d.pending
    requires w'.d.pending == w.d.pending[n := c] && DeploymentOf(c) == Some(id)
    ensures OnePendingEach(w')
  {
  }

  // An answer other than 200, with or without a deployment GitHub made unreported.
  lemma OnlyAnswered(w: World, w': World, reply: Reply)
    requires HubInv(w) && reply != Status(OK)
    requires w' == w.(d := AnswerWith(w.d.(deployments := w'.d.deployments), reply))
    requires DeploymentsGrow(w.d, w'.d)
    requires forall id :: id in w'.d.deployments && id !in w.d.deployments ==>
      !w'.d.deployments[id].reported && ProperDeployment(w'.d.deployments[id])
    ensures HubInv(w')
  {
    AgreementKept(w, w');
    SamePlaces(w, w');
    AnswersKept(w, w');
  }

  // A rejection is never a success.
  lemma HookCodes(cfg: Config, stored: Option<Watcher>, req: Request)
    ensures var p := HandleHook(cfg, stored, req);
      p.Reject? ==> p.code == 0 || p.code == Unprocessable || p.code == InternalError
  {
  }

  lemma StartKeeps(w: World, n: nat, p: Prepared, numbered: bool, answer: DeployAnswer)
    requires HubInv(w) && n !in w.d.pending
    requires p.Reject? ==> p.code != OK
    requires p.Ready? ==>
      && Owned(w.r, p.commit)
      && p.commit.status == EmptyCommitStatus
      && (p.commit.spec.pr != "" <==> numbered)
      && (p.deploy.Some? ==>
            || p.deploy.value.environment == "staging"
            || (p.deploy.value.environment == "production" && !numbered))
    ensures HubInv(w.(d := StartDelivery(w.d, n, p, numbered, answer)))
  {
    var w' := w.(d := StartDelivery(w.d, n, p, numbered, answer));
    match p
    case Reject(code) => OnlyAnswered(w, w', Status(code));
    case Panics => OnlyAnswered(w, w', Aborted);
    case Ready(c, None) => AddPending(w, w', n, c);
    case Ready(c, Some(request)) =>
      match answer
      case Deployed(id) =>
        if id !in w.d.deployments { AddDeployed(w, w', n, c, id, Deployment(request, numbered, true)); }
      case DeployRefused => OnlyAnswered(w, w', Status(InternalError));
      case DeployTimeout(id) => if id !in w.d.deployments { OnlyAnswered(w, w', Status(InternalError)); }
  }

  // ---------- The end of a delivery ----------

  // The deployment of a delivery that is over has left the pending ones.
  lemma EndedPending(w: World, w': World, n: nat, id: nat)
    requires OnePendingEach(w) && n in w.d.pending && w'.d.pending == w.d.pending - {n}
    ensures OnPending(w', id) <==> OnPending(w, id) && DeploymentOf(w.d.pending[n]) != Some(id)
  {
    if OnPending(w, id) && DeploymentOf(w.d.pending[n]) != Some(id) {
      var m :| m in w.d.pending && DeploymentOf(w.d.pending[m]) == Some(id);
      assert m in w'.d.pending;
    }
  }

  // When its GitCommit was created, it is there.
  lemma CreatedPlaces(w: World, w': World, n: nat, c: GitCommit)
    requires DeploymentsOK(w) && Placed(w) && n in w.d.pending && c.key !in w.commits
    requires DeploymentOf(c) == DeploymentOf(w.d.pending[n])
    requires w'.commits == w.commits[c.key := c] && w'.d.pending == w.d.pending - {n}
    requires w'.d.deployments == w.d.deployments && w'.d.failed == w.d.failed
    ensures Placed(w')
  {
    OneCommitMore(w, w', n, c);
    forall id | id in w'.d.deployments && w'.d.deployments[id].reported ensures InOnePlace(w', id) {
      assert InOnePlace(w, id);
      EndedPending(w, w', n, id);
      CommitGains(w, w', c, id);
      if DeploymentOf(c) == Some(id) { assert OnPending(w, id); }
    }
  }

  lemma CommitGains(w: World, w': World, c: GitCommit, id: nat)
    requires c.key !in w.commits && w'.commits == w.commits[c.key := c]
    ensures OnCommit(w', id) <==> OnCommit(w, id) || DeploymentOf(c) == Some(id)
  {
    if OnCommit(w, id) {
      var key :| key in w.commits && DeploymentOf(w.commits[key]) == Some(id);
      assert key in w'.commits && w'.commits[key] == w.commits[key];
    }
    if DeploymentOf(c) == Some(id) { assert w'.commits[c.key] == c; }
  }

  lemma OneCommitMore(w: World, w': World, n: nat, c: GitCommit)
    requires DeploymentsOK(w) && Placed(w) && n in w.d.pending && c.key !in w.commits
    requires DeploymentOf(c) == DeploymentOf(w.d.pending[n])
    requires w'.commits == w.commits[c.key := c]
    ensures OneCommitEach(w')
  {
    if DeploymentOf(c).Some? {
      var id := DeploymentOf(c).value;
      assert Agrees(w.d, w.d.pending[n]);
      assert OnPending(w, id) && InOnePlace(w, id);
      assert !OnCommit(w, id);
    }
  }

  // Otherwise it is among the failed ones.
  lemma FailedPlaces(w: World, w': World, n: nat)
    requires DeploymentsOK(w) && Placed(w) && n in w.d.pending
    requires w'.commits == w.commits && w'.d.pending == w.d.pending - {n}
    requires w'.d.deployments == w.d.deployments
    requires w'.d.failed == w.d.failed + IdSet(DeploymentOf(w.d.pending[n]))
    ensures Placed(w')
  {
    assert Agrees(w.d, w.d.pending[n]);
    forall id | id in w'.d.deployments && w'.d.deployments[id].reported ensures InOnePlace(w', id) {
      assert InOnePlace(w, id);
      EndedPending(w, w', n, id);
      assert OnCommit(w', id) <==> OnCommit(w, id);
      if DeploymentOf(w.d.pending[n]) == Some(id) { assert OnPending(w, id); }
    }
  }

  lemma DropKeeps(w: World, w': World, n: nat)
    requires HubInv(w) && n in w.d.pending
    requires w' == w.(d := w.d.(pending := w.d.pending - {n},
                                failed := w.d.failed + IdSet(DeploymentOf(w.d.pending[n]))))
    ensures HubInv(w')
  {
    FailedPlaces(w, w', n);
    AgreementKept(w, w');
    AnswersKept(w, w');
  }

  // The create of c took effect.
  lemma CreatedKeeps(w: World, w': World, n: nat, c: GitCommit, answer: CreateAnswer)
    requires HubInv(w) && n in w.d.pending && c.key !in w.commits
    requires c == w.d.pending[n].(key := Key(w.d.pending[n].key.ns, c.key.name))
    requires w'.r == w.r && w'.commits == w.commits[c.key := c] && w'.d.pending == w.d.pending - {n}
    requires w'.d.deployments == w.d.deployments && w'.d.failed == w.d.failed && w'.d.statuses == w.d.statuses
    requires CreateAnswered(w.d, w'.d, c.key, answer)
    ensures HubInv(w')
  {
    assert Agrees(w.d, w.d.pending[n]) && Agrees(w.d, c);
    AgreementKept(w, w');
    CreatedOwned(w, w', n, c);
    CreatedPlaces(w, w', n, c);
    if answer.Created? { ReportedAnswers(w, w', c); } else { UnreportedAnswers(w, w', c); }
  }

  ghost predicate CreateAnswered(d: Hub, d': Hub, key: Key, answer: CreateAnswer) {
    if answer.Created? then
      d'.delivered == d.delivered + {key} && d'.unreported == d.unreported && d'.replies == d.replies + [Status(OK)]
    else
      d'.delivered == d.delivered && d'.unreported == d.unreported + {key} &&
      d'.replies == d.replies + [Status(InternalError)]
  }

  lemma CreatedOwned(w: World, w': World, n: nat, c: GitCommit)
    requires AllOwned(w) && n in w.d.pending
    requires c == w.d.pending[n].(key := Key(w.d.pending[n].key.ns, c.key.name))
    requires w'.r == w.r && w'.commits == w.commits[c.key := c] && w'.d.pending == w.d.pending - {n}
    ensures AllOwned(w')
  {
    assert Owned(w.r, w.d.pending[n]) && Owned(w.r, c);
  }

  lemma ReportedAnswers(w: World, w': World, c: GitCommit)
    requires AnswersOK(w) && c.key !in w.commits && w'.commits == w.commits[c.key := c]
    requires CreateAnswered(w.d, w'.d, c.key, CreateAnswer.Created)
    ensures AnswersOK(w')
  {
    assert FromDeliveries(w'.d) == FromDeliveries(w.d) + {c.key};
    assert w'.d.replies[..|w'.d.replies| - 1] == w.d.replies;
    assert c.key !in w.d.delivered;
  }

  lemma UnreportedAnswers(w: World, w': World, c: GitCommit)
    requires AnswersOK(w) && c.key !in w.commits && w'.commits == w.commits[c.key := c]
    requires CreateAnswered(w.d, w'.d, c.key, CreateAnswer.CreateTimeout)
    ensures AnswersOK(w')
  {
    assert FromDeliveries(w'.d) == FromDeliveries(w.d) + {c.key};
    assert w'.d.replies[..|w'.d.replies| - 1] == w.d.replies;
  }

  lemma RecordKeeps(w: World, n: nat, suffix: string, answer: CreateAnswer)
    requires HubInv(w) && n in w.d.pending
    ensures HubInv(FinishDelivery(w, n, suffix, answer))
  {
    var w' := FinishDelivery(w, n, suffix, answer);
    var c := NamedCommit(w.d.pending[n], suffix);
    if c.key in w.commits || answer.NotCreated? {
      var dropped := w.(d := w.d.(pending := w.d.pending - {n},
                                  failed := w.d.failed + IdSet(DeploymentOf(w.d.pending[n]))));
      DropKeeps(w, dropped, n);
      OnlyAnswered(dropped, w', Status(InternalError));
    } else {
      CreatedKeeps(w, w', n, c, answer);
    }
  }

  // ---------- Reports ----------

  // The environment of a report is settled by the GitCommit's pull request number.
  lemma ReportAgrees(cfg: Config, d: Hub, c: GitCommit, seen: Seen, watcher: Option<Watcher>, secret: Lookup)
    requires Agrees(d, c)
    ensures var call := StatusReport(cfg, SeenCommit(c, seen), watcher, secret);
      call.Some? ==> CallAgrees(d, call.value)
  {
  }

  lemma ReportKeeps(cfg: Config, w: World, key: Key, seen: Seen, secret: Lookup)
    requires HubInv(w) && key in w.commits
    ensures HubInv(w.(d := Reported(cfg, w, SeenCommit(w.commits[key], seen), secret)))
  {
    var c := w.commits[key];
    var watcher := CachedWatcher(w.r, Key(c.key.ns, c.spec.gitWatcherName));
    assert Agrees(w.d, c);
    ReportAgrees(cfg, w.d, c, seen, watcher, secret);
    var call := StatusReport(cfg, SeenCommit(c, seen), watcher, secret);
    if call.Some? {
      CallAdded(w, w.(d := w.d.(statuses := w.d.statuses + [call.value])), call.value);
    }
  }

  lemma CallAdded(w: World, w': World, call: StatusCall)
    requires HubInv(w) && CallAgrees(w.d, call)
    requires w' == w.(d := w.d.(statuses := w.d.statuses + [call]))
    ensures HubInv(w')
  {
    CallsAgree(w, w', call);
    SamePlaces(w, w');
    AnswersKept(w, w');
  }

  lemma CallsAgree(w: World, w': World, call: StatusCall)
    requires DeploymentsOK(w) && CallAgrees(w.d, call)
    requires w' == w.(d := w.d.(statuses := w.d.statuses + [call]))
    ensures DeploymentsOK(w')
  {
    var before := w'.(d := w'.d.(statuses := w.d.statuses));
    AgreementKept(w, before);
    forall i | 0 <= i < |w'.d.statuses| ensures CallAgrees(w'.d, w'.d.statuses[i]) {
      CallAgreesKept(w.d, w'.d, if i < |w.d.statuses| then w.d.statuses[i] else call);
    }
  }

  // ---------- Every step ----------

  lemma DeliverStepKeeps(cfg: Config, w: World, n: nat, req: Request, answer: DeployAnswer)
    requires Inv(w)
    ensures Inv(DeliverStep(cfg, w, n, req, answer))
  {
    if n !in w.d.pending {
      var p := HandleHook(cfg, StoredWatcher(w.r, ReceiverKey(req)), req);
      HookCommit(cfg, w, req);
      HookCodes(cfg, StoredWatcher(w.r, ReceiverKey(req)), req);
      StartKeeps(w, n, p, Numbered(req), answer);
    }
  }

  lemma RecordStepKeeps(w: World, n: nat, suffix: string, create: CreateAnswer)
    requires Inv(w)
    ensures Inv(RecordStep(w, n, suffix, create))
  {
    if n in w.d.pending { RecordKeeps(w, n, suffix, create); }
  }

  lemma DropStepKeeps(w: World, n: nat)
    requires Inv(w)
    ensures Inv(DropStep(w, n))
  {
    if n in w.d.pending { DropKeeps(w, DropStep(w, n), n); }
  }

  lemma ReportStepKeeps(cfg: Config, w: World, key: Key, seen: Seen, secret: Lookup)
    requires Inv(w)
    ensures Inv(ReportStep(cfg, w, key, seen, secret))
  {
    if key in w.commits { ReportKeeps(cfg, w, key, seen, secret); }
  }

  lemma StepKeepsInv(cfg: Config, w: World, a: Action)
    requires Inv(w)
    ensures Inv(Step(cfg, w, a))
  {
    match a
    case Reconcile(pa) => ReconcileKeeps(cfg, w, pa);
    case Deliver(n, req, answer) => DeliverStepKeeps(cfg, w, n, req, answer);
    case Record(n, suffix, create) => RecordStepKeeps(w, n, suffix, create);
    case Drop(n) => DropStepKeeps(w, n);
    case Report(key, seen, secret) => ReportStepKeeps(cfg, w, key, seen, secret);
  }
}
