// The whole system: the reconcile protocol of Protocol.dfy, webhook deliveries,
// and the reports about deployments, over one store of GitCommits. A delivery
// stops between the call that creates its deployment and the one that creates
// its GitCommit, so deliveries overlap with each other and with reconciles.
module System {
  import opened Types
  import opened Reconcile
  import opened Deliveries
  import P = Protocol

  // reported: the id reached the handler. numbered: the event carried a pull
  // request number.
  datatype Deployment = Deployment(request: DeployRequest, numbered: bool, reported: bool)

  datatype DeployAnswer = Deployed(id: nat) | DeployRefused | DeployTimeout(id: nat)

  // The answer to the create of a GitCommit; one that timed out took effect although
  // it was reported failed.
  datatype CreateAnswer = Created | NotCreated | CreateTimeout

  // How a delivery was answered; Aborted when the handler panicked.
  datatype Reply = Status(code: int) | Aborted

  datatype Hub = Hub(
    pending: map<nat, GitCommit>,        // deliveries before the create of their GitCommit
    deployments: map<nat, Deployment>,   // GitHub's deployments
    statuses: seq<StatusCall>,           // the status calls made so far
    replies: seq<Reply>,                 // the answers given so far
    delivered: set<Key>,                 // the GitCommits that deliveries created and reported
    unreported: set<Key>,                // those whose create was reported failed
    failed: set<nat>)                    // deployments whose GitCommit was not created

  datatype World = World(r: P.Reconciler, commits: map<Key, GitCommit>, d: Hub)

  const Init := World(P.Init, map[], Hub(map[], map[], [], [], {}, {}, {}))

  // What the informer cache may hold for the parts of a status that others write.
  datatype Seen = Seen(deploymentState: string, buildStatus: string, environmentURL: string, logURL: string)

  datatype Action =
    | Reconcile(a: P.Action)
    | Deliver(n: nat, req: Request, answer: DeployAnswer)
    | Record(n: nat, suffix: string, create: CreateAnswer)
    | Drop(n: nat)
    | Report(key: Key, seen: Seen, secret: Lookup)

  function StoredWatcher(r: P.Reconciler, k: Key): Option<Watcher> {
    if k in r.revisions && |r.revisions[k]| > 0 then Some(P.Last(r.revisions[k])) else None
  }

  function CachedWatcher(r: P.Reconciler, k: Key): Option<Watcher> {
    if k in r.cached && k in r.revisions && r.cached[k] < |r.revisions[k]| then
      Some(r.revisions[k][r.cached[k]].obj)
    else None
  }

  function DeploymentOf(c: GitCommit): Option<nat> {
    if c.status.github.Some? then Some(c.status.github.value.deploymentID) else None
  }

  function WithDeployment(c: GitCommit, id: nat): GitCommit {
    c.(status := c.status.(github := Some(GithubStatus(id, "", "", ""))))
  }

  function AnswerWith(d: Hub, reply: Reply): Hub {
    d.(replies := d.replies + [reply])
  }

  // A delivery up to and including the creation of its deployment. The numbers of
  // deliveries under way differ, and GitHub gives new deployments new ids.
  function StartDelivery(d: Hub, n: nat, p: Prepared, numbered: bool, answer: DeployAnswer): Hub {
    match p
    case Reject(code) => AnswerWith(d, Status(code))
    case Panics => AnswerWith(d, Aborted)
    case Ready(c, None) => d.(pending := d.pending[n := c])
    case Ready(c, Some(request)) =>
      match answer
      case Deployed(id) =>
        if id in d.deployments then d
        else
          d.(deployments := d.deployments[id := Deployment(request, numbered, true)],
             pending := d.pending[n := WithDeployment(c, id)])
      case DeployRefused => AnswerWith(d, Status(InternalError))
      case DeployTimeout(id) =>
        if id in d.deployments then d
        else
          AnswerWith(d.(deployments := d.deployments[id := Deployment(request, numbered, false)]),
                     Status(InternalError))
  }

  function Numbered(req: Request): bool {
    req.event.Some? && req.event.value.PullRequestEvent? && req.event.value.number.Some?
  }

  function NamedCommit(c: GitCommit, suffix: string): GitCommit {
    c.(key := Key(c.key.ns, c.key.name + suffix))
  }

  function IdSet(id: Option<nat>): set<nat> {
    if id.Some? then {id.value} else {}
  }

  // The GitCommits that came from deliveries.
  function FromDeliveries(d: Hub): set<Key> {
    d.delivered + d.unreported
  }

  // The create of a delivery's GitCommit under a name that the server makes up.
  function FinishDelivery(w: World, n: nat, suffix: string, answer: CreateAnswer): World
    requires n in w.d.pending
  {
    var c := NamedCommit(w.d.pending[n], suffix);
    var done := w.d.(pending := w.d.pending - {n});
    if c.key in w.commits || answer.NotCreated? then
      w.(d := AnswerWith(done.(failed := w.d.failed + IdSet(DeploymentOf(c))), Status(InternalError)))
    else if answer.Created? then
      w.(commits := w.commits[c.key := c],
         d := AnswerWith(done.(delivered := w.d.delivered + {c.key}), Status(OK)))
    else
      w.(commits := w.commits[c.key := c],
         d := AnswerWith(done.(unreported := w.d.unreported + {c.key}), Status(InternalError)))
  }

  function SeenCommit(c: GitCommit, seen: Seen): GitCommit {
    if c.status.github.None? then c
    else
      c.(status := c.status.(
           buildStatus := seen.buildStatus,
           github := Some(GithubStatus(c.status.github.value.deploymentID, seen.deploymentState,
                                       seen.environmentURL, seen.logURL))))
  }

  function Reported(cfg: Config, w: World, c: GitCommit, secret: Lookup): Hub {
    var watcher := CachedWatcher(w.r, Key(c.key.ns, c.spec.gitWatcherName));
    match StatusReport(cfg, c, watcher, secret)
    case None => w.d
    case Some(call) => w.d.(statuses := w.d.statuses + [call])
  }

  function DeliverStep(cfg: Config, w: World, n: nat, req: Request, answer: DeployAnswer): World {
    if n in w.d.pending then w
    else
      var p := HandleHook(cfg, StoredWatcher(w.r, ReceiverKey(req)), req);
      w.(d := StartDelivery(w.d, n, p, Numbered(req), answer))
  }

  function RecordStep(w: World, n: nat, suffix: string, create: CreateAnswer): World {
    if n !in w.d.pending then w else FinishDelivery(w, n, suffix, create)
  }

  // The process ends before the create.
  function DropStep(w: World, n: nat): World {
    if n !in w.d.pending then w
    else
      w.(d := w.d.(pending := w.d.pending - {n}, failed := w.d.failed + IdSet(DeploymentOf(w.d.pending[n]))))
  }

  function ReportStep(cfg: Config, w: World, key: Key, seen: Seen, secret: Lookup): World {
    if key !in w.commits then w
    else w.(d := Reported(cfg, w, SeenCommit(w.commits[key], seen), secret))
  }

  function Step(cfg: Config, w: World, a: Action): World {
    match a
    case Reconcile(pa) => ReconcileStep(cfg, w, pa)
    case Deliver(n, req, answer) => DeliverStep(cfg, w, n, req, answer)
    case Record(n, suffix, create) => RecordStep(w, n, suffix, create)
    case Drop(n) => DropStep(w, n)
    case Report(key, seen, secret) => ReportStep(cfg, w, key, seen, secret)
  }

  function ReconcileStep(cfg: Config, w: World, a: P.Action): World {
    var applied := P.AppliedCommit(cfg, w.r, a);
    w.(r := P.Step(cfg, w.r, a),
       commits := if applied.Some? then Upsert(w.commits, applied.value) else w.commits)
  }

  function Run(cfg: Config, w: World, actions: seq<Action>): World
    decreases |actions|
  {
    if |actions| == 0 then w
    else Run(cfg, Step(cfg, w, actions[0]), actions[1..])
  }

  lemma RunCons(cfg: Config, w: World, a: Action, rest: seq<Action>)
    ensures Run(cfg, w, [a] + rest) == Run(cfg, Step(cfg, w, a), rest)
  {
    assert ([a] + rest)[1..] == rest;
  }

  function ReconcileActions(actions: seq<Action>): seq<P.Action> {
    if |actions| == 0 then []
    else if actions[0].Reconcile? then [actions[0].a] + ReconcileActions(actions[1..])
    else ReconcileActions(actions[1..])
  }

  // Seen from the reconciler, a run of the whole system is a run of the reconcile
  // protocol: all that holds of those holds in it.
  lemma {:induction false} RunProjects(cfg: Config, w: World, actions: seq<Action>)
    ensures Run(cfg, w, actions).r == P.Run(cfg, w.r, ReconcileActions(actions))
    decreases |actions|
  {
    if |actions| > 0 {
      var a := actions[0];
      RunProjects(cfg, Step(cfg, w, a), actions[1..]);
      if a.Reconcile? {
        var rest := ReconcileActions(actions[1..]);
        assert ([a.a] + rest)[1..] == rest;
      }
    }
  }
}
