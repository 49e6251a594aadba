// The API server and GitHub as objects that the controller's methods call. What
// comes back from outside is a parameter of each call.
module Servers {
  import opened Types
  import opened Reconcile
  import opened Deliveries
  import P = Protocol
  import S = System

  // The API server with its watchers, their cache and work queue, and GitCommits.
  class ApiServer {
    var revisions: map<Key, seq<P.Revision>>
    var cached: map<Key, nat>
    var queue: set<Key>
    var commits: map<Key, GitCommit>

    constructor ()
    {
      revisions, cached, queue, commits := map[], map[], {}, map[];
    }

    // The watcher as a whole is replaced, if it is still at the version given.
    method Update(obj: Watcher, clean: bool, accepted: bool) returns (updated: Watcher, err: Option<string>)
      modifies this`revisions
      ensures
        if accepted && obj.key in old(revisions) && obj.version + 1 == |old(revisions)[obj.key]| then
          var s := old(revisions)[obj.key];
          err.None? && updated == obj.(version := |s|) && revisions == old(revisions)[obj.key := s +
            [P.Revision(obj.(version := |s|), if clean then P.Clean else P.Failing)]]
        else err.Some? && revisions == old(revisions)
    {
      if accepted && obj.key in revisions && obj.version + 1 == |revisions[obj.key]| {
        var s := revisions[obj.key];
        revisions := revisions[obj.key := s + [P.Revision(obj.(version := |s|), if clean then P.Clean else P.Failing)]];
        updated, err := obj.(version := |s|), None;
      } else {
        updated, err := obj, Some("the object has been modified");
      }
    }

    method ApplyObject(c: GitCommit, answer: ApplyAnswer) returns (err: Option<string>)
      modifies this`commits
      ensures commits == if answer.Landed() then Upsert(old(commits), c) else old(commits)
      ensures err == answer.err
    {
      if answer.Landed() {
        commits := Upsert(commits, c);
      }
      err := answer.err;
    }

    method CreateCommit(c: GitCommit, suffix: string, answer: S.CreateAnswer) returns (err: Option<string>)
      modifies this`commits
      ensures var named := S.NamedCommit(c, suffix);
        && commits == (if named.key in old(commits) || answer.NotCreated? then old(commits)
                       else old(commits)[named.key := named])
        && (err.None? <==> named.key !in old(commits) && answer.Created?)
    {
      var named := S.NamedCommit(c, suffix);
      if named.key in commits || answer.NotCreated? {
        return Some("already exists");
      }
      commits := commits[named.key := named];
      err := if answer.Created? then None else Some("timeout");
    }

    // gitWatchers.Get asks the API server, not the cache.
    function Get(k: Key): Option<Watcher>
      reads this
    {
      if k in revisions && |revisions[k]| > 0 then Some(P.Last(revisions[k])) else None
    }

    function GetCached(k: Key): Option<Watcher>
      reads this
    {
      if k in cached && k in revisions && cached[k] < |revisions[k]| then Some(revisions[k][cached[k]].obj) else None
    }
  }

  class GitHubServer {
    var hooks: map<nat, Hook>
    var deployments: map<nat, S.Deployment>
    var statuses: seq<StatusCall>

    constructor ()
    {
      hooks, deployments, statuses := map[], map[], [];
    }

    // The id of the new hook, when the answer has one.
    method CreateHook(watcher: Key, url: string, secret: string, owner: string, repo: string,
                      events: seq<string>, answer: HookAnswer)
      returns (id: Option<nat>, err: Option<string>)
      modifies this`hooks
      ensures var hook := (report: Report) => Hook(watcher, url, secret, owner, repo, events, report);
        match answer
        case Created(i) => id == Some(i) && err.None? && hooks == old(hooks)[i := hook(Named)]
        case CreatedUnnamed(i) => id.None? && err.None? && hooks == old(hooks)[i := hook(Unnamed)]
        case Refused(m) => id.None? && err == Some(m) && hooks == old(hooks)
        case Timeout(i, m) => id.None? && err == Some(m) && hooks == old(hooks)[i := hook(Stray)]
    {
      match answer {
        case Created(i) =>
          hooks := hooks[i := Hook(watcher, url, secret, owner, repo, events, Named)];
          id, err := Some(i), None;
        case CreatedUnnamed(i) =>
          hooks := hooks[i := Hook(watcher, url, secret, owner, repo, events, Unnamed)];
          id, err := None, None;
        case Refused(m) => id, err := None, Some(m);
        case Timeout(i, m) =>
          hooks := hooks[i := Hook(watcher, url, secret, owner, repo, events, Stray)];
          id, err := None, Some(m);
      }
    }

    // The id of the new deployment, when the answer reports one; numbered is kept
    // with it for the record.
    method CreateDeployment(request: DeployRequest, numbered: bool, answer: S.DeployAnswer) returns (id: Option<nat>)
      modifies this`deployments
      ensures match answer
        case Deployed(i) => id == Some(i) && deployments == old(deployments)[i := S.Deployment(request, numbered, true)]
        case DeployRefused => id.None? && deployments == old(deployments)
        case DeployTimeout(i) =>
          id.None? && deployments == old(deployments)[i := S.Deployment(request, numbered, false)]
    {
      id := None;
      match answer {
        case Deployed(i) =>
          deployments := deployments[i := S.Deployment(request, numbered, true)];
          id := Some(i);
        case DeployRefused =>
        case DeployTimeout(i) => deployments := deployments[i := S.Deployment(request, numbered, false)];
      }
    }

    method CreateDeploymentStatus(call: StatusCall, answer: Option<string>) returns (err: Option<string>)
      modifies this`statuses
      ensures statuses == old(statuses) + [call] && err == answer
    {
      statuses := statuses + [call];
      err := answer;
    }
  }

  // The state of the API server and of GitHub is that of the world w.
  ghost predicate In(api: ApiServer, hub: GitHubServer, w: S.World)
    reads api, hub
  {
    && api.revisions == w.r.revisions && api.cached == w.r.cached && api.queue == w.r.queue
    && api.commits == w.commits
    && hub.hooks == w.r.hooks && hub.deployments == w.d.deployments && hub.statuses == w.d.statuses
  }
}
