// Which GitCommits reconciles apply, for which versions of which watchers, and where the
// first commits that watchers store come from.
module CommitTheorems {
  import opened Types
  import opened Text
  import opened Format
  import opened Reconcile
  import opened ReconcileLaws
  import opened ReconcileProgress
  import opened System
  import opened PollingRuns
  import opened Providers
  import Versions
  import C = Controller
  import V = Convergence
  import P = Protocol
  import PI = ProtocolInvariants
  import ST = SystemTheorems

  // ---------- What is applied was asked for by a stored version ----------

  ghost predicate AsStored(cfg: Config, r: P.Reconciler, c: GitCommit) {
    var k := Key(c.key.ns, c.spec.gitWatcherName);
    && k in r.revisions
    && exists i :: 0 <= i < |r.revisions[k]| && AppliedFor(cfg, r.revisions[k][i].obj, c.spec.commit, c)
  }

  lemma AsStoredKept(cfg: Config, r: P.Reconciler, r': P.Reconciler, c: GitCommit)
    requires PI.Extends(r, r') && AsStored(cfg, r, c)
    ensures AsStored(cfg, r', c)
  {
    var k := Key(c.key.ns, c.spec.gitWatcherName);
    var i :| 0 <= i < |r.revisions[k]| && AppliedFor(cfg, r.revisions[k][i].obj, c.spec.commit, c);
    assert r'.revisions[k][i] == r.revisions[k][i];
  }

  lemma AppliedAsStored(cfg: Config, r: P.Reconciler, a: P.Action)
    requires PI.Sound(r) && P.AppliedCommit(cfg, r, a).Some?
    ensures AsStored(cfg, r, P.AppliedCommit(cfg, r, a).value)
  {
    var base, p := r.flights[a.f].base, r.flights[a.f].phase;
    assert PI.Stored(r, base) && PI.PhaseOK(r, base, p);
    DesiredIsAppliedFor(cfg, p.obj, p.commit);
    assert AppliedFor(cfg, r.revisions[base.key][base.version].obj, p.commit, DesiredCommit(cfg, p.obj, p.commit));
  }

  // In every run each applied GitCommit is the one for its commit at some stored version
  // of its watcher: it has the branch, the repository, the labels and the owner of that.
  lemma {:induction false} AppliedAreAsStored(cfg: Config, actions: seq<Action>, c: GitCommit)
    requires c in Applied(cfg, actions)
    ensures AsStored(cfg, Run(cfg, Init, actions).r, c)
  {
    var before, a := actions[..|actions| - 1], actions[|actions| - 1];
    assert actions == before + [a];
    var w := Run(cfg, Init, before);
    RunSnoc(cfg, Init, before, a);
    if c in Applied(cfg, before) {
      AppliedAreAsStored(cfg, before, c);
    } else {
      ST.ReachableInv(cfg, before);
      AppliedAsStored(cfg, w.r, a.a);
    }
    StepExtendsReconciler(cfg, w, a);
    AsStoredKept(cfg, w.r, Step(cfg, w, a).r, c);
  }

  lemma StepExtendsReconciler(cfg: Config, w: World, a: Action)
    ensures PI.Extends(w.r, Step(cfg, w, a).r)
  {
    match a
    case Reconcile(pa) => PI.StepExtends(cfg, w.r, pa);
    case _ => assert Step(cfg, w, a).r == w.r;
  }

  // ---------- Heads that are polled ----------

  // The store has the GitCommit of this commit for o.
  ghost predicate Holds(cfg: Config, commits: map<Key, GitCommit>, o: Watcher, commit: string) {
    exists key ::
      key in commits && commits[key].key == key && AppliedFor(cfg, o, commit, PollingRuns.Named(commits[key]))
  }

  lemma AppliedIsHeld(cfg: Config, actions: seq<Action>, o: Watcher, commit: string)
    ensures var commits := Run(cfg, Init, actions).commits;
      Holds(cfg, Upsert(commits, DesiredCommit(cfg, o, commit)), o, commit)
  {
    var w := Run(cfg, Init, actions);
    var c := DesiredCommit(cfg, o, commit);
    PolledIsLatest(cfg, actions, c.key);
    UpsertNames(w.commits, c);
    DesiredIsAppliedFor(cfg, o, commit);
    assert AppliedFor(cfg, o, commit, PollingRuns.Named(Upsert(w.commits, c)[c.key]));
  }

  // A reconcile up to its apply.
  function UpToApply(before: seq<Action>, k: Key, f: nat, a: StartAnswers, applied: ApplyAnswer): seq<Action> {
    before + [Reconcile(P.Requeue(k))] + [Reconcile(P.Begin(f, k))] + [Reconcile(P.Call(f, a))] +
    [Reconcile(P.Apply(f, applied))]
  }

  lemma PolledSteps(cfg: Config, r: P.Reconciler, k: Key, f: nat, o: Watcher, a: StartAnswers, head: string,
                    applied: ApplyAnswer)
    requires f !in r.flights && CachedWatcher(r, k) == Some(o) && applied.Landed()
    requires StartReconcile(cfg, o, a) == Start(Fetched(o, None, head, Polling), None)
    ensures var r2 := P.Step(cfg, P.Step(cfg, r, P.Requeue(k)), P.Begin(f, k));
      P.AppliedCommit(cfg, P.Step(cfg, r2, P.Call(f, a)), P.Apply(f, applied)) == Some(DesiredCommit(cfg, o, head))
  {
    var r2 := P.Step(cfg, P.Step(cfg, r, P.Requeue(k)), P.Begin(f, k));
    assert r2.flights[f] == P.Flight(o, Started);
    var r3 := P.Step(cfg, r2, P.Call(f, a));
    assert r3.flights[f] == P.Flight(o, Fetched(o, None, head, Polling));
  }

  lemma PolledStart(cfg: Config, o: Watcher, a: StartAnswers, pad: string, head: string, rest: string)
    requires WantsPolling(o, a.supports) && !a.credential.Failed?
    requires a.lines.Ok? && |a.lines.value| > 0 && FirstWordAt(a.lines.value[0], pad, head, rest)
    ensures StartReconcile(cfg, o, a) == Start(Fetched(o, None, head, Polling), None)
  {
    PollFinds(cfg, o, a, head);
    HookRequested(cfg, o, a);
  }

  // From every reachable state, a reconcile of the cached version of a watcher that polling
  // serves applies the head that git reports, whether or not the credentials are there.
  lemma PolledHeadIsHeld(cfg: Config, before: seq<Action>, k: Key, f: nat, o: Watcher, a: StartAnswers,
                         applied: ApplyAnswer, pad: string, head: string, rest: string)
    requires var r := Run(cfg, Init, before).r; f !in r.flights && CachedWatcher(r, k) == Some(o)
    requires WantsPolling(o, a.supports) && !a.credential.Failed?
    requires a.lines.Ok? && |a.lines.value| > 0 && FirstWordAt(a.lines.value[0], pad, head, rest)
    requires applied.Landed()
    ensures Holds(cfg, Run(cfg, Init, UpToApply(before, k, f, a, applied)).commits, o, head)
  {
    var a1 := before + [Reconcile(P.Requeue(k))];
    var a2 := a1 + [Reconcile(P.Begin(f, k))];
    var a3 := a2 + [Reconcile(P.Call(f, a))];
    PolledStart(cfg, o, a, pad, head, rest);
    PolledSteps(cfg, Run(cfg, Init, before).r, k, f, o, a, head, applied);
    AppendReconcile(cfg, before, P.Requeue(k));
    AppendReconcile(cfg, a1, P.Begin(f, k));
    AppendReconcile(cfg, a2, P.Call(f, a));
    RunSnoc(cfg, Init, a3, Reconcile(P.Apply(f, applied)));
    AppliedIsHeld(cfg, a3, o, head);
  }

  // So a watcher whose secret is missing is polled, even one with a token name and a
  // repository at GitHub.
  lemma MissingSecretIsPolled(cfg: Config, before: seq<Action>, k: Key, f: nat, o: Watcher, a: StartAnswers,
                              applied: ApplyAnswer, pad: string, head: string, rest: string)
    requires var r := Run(cfg, Init, before).r; f !in r.flights && CachedWatcher(r, k) == Some(o)
    requires a.supports.Missing? && o.spec.branch != "" && !a.credential.Failed?
    requires a.lines.Ok? && |a.lines.value| > 0 && FirstWordAt(a.lines.value[0], pad, head, rest)
    requires applied.Landed()
    ensures Holds(cfg, Run(cfg, Init, UpToApply(before, k, f, a, applied)).commits, o, head)
  {
    PolledHeadIsHeld(cfg, before, k, f, o, a, applied, pad, head, rest);
  }

  // ---------- The first commit at registration ----------

  // The round of Convergence.dfy as actions of the system.
  function Registration(k: Key, version: nat, f: nat, script: Script): seq<Action> {
    [Reconcile(P.CatchUp(k, version))] + ([Reconcile(P.Tick)] + ([Reconcile(P.Begin(f, k))] + C.Steps(f, script)))
  }

  lemma RegistrationBegins(cfg: Config, w: World, k: Key, version: nat, f: nat, script: Script)
    ensures var r1 := P.Step(cfg, P.Step(cfg, w.r, P.CatchUp(k, version)), P.Tick);
      Run(cfg, w, Registration(k, version, f, script)) ==
        Run(cfg, w.(r := P.Step(cfg, r1, P.Begin(f, k))), C.Steps(f, script))
  {
    var begin := [Reconcile(P.Begin(f, k))] + C.Steps(f, script);
    var tick := [Reconcile(P.Tick)] + begin;
    var w1 := ReconcileStep(cfg, w, P.CatchUp(k, version));
    var w2 := ReconcileStep(cfg, w1, P.Tick);
    System.RunCons(cfg, w, Reconcile(P.CatchUp(k, version)), tick);
    System.RunCons(cfg, w1, Reconcile(P.Tick), begin);
    System.RunCons(cfg, w2, Reconcile(P.Begin(f, k)), C.Steps(f, script));
  }

  // What such a round does, in terms of the pieces of the reconcile.
  lemma RegistrationEffects(cfg: Config, w: World, k: Key, f: nat, script: Script)
    requires PI.Sound(w.r) && k in w.r.revisions && f !in w.r.flights
    requires var o := P.Last(w.r.revisions[k]);
      V.Registrable(cfg, o, script.answers) && script.answers.hook.id !in w.r.hooks
    ensures var o := P.Last(w.r.revisions[k]); var version := |w.r.revisions[k]| - 1;
      var w' := Run(cfg, w, Registration(k, version, f, script));
      && w'.r == P.Run(cfg, w.r, V.Round(k, version, f, script))
      && w'.commits ==
           CommitsAfter(cfg, w.commits, AfterRef(cfg, StartReconcile(cfg, o, script.answers).phase, script.ref),
                        script.applied)
      && w'.d == w.d
  {
    var o := P.Last(w.r.revisions[k]);
    var version := |w.r.revisions[k]| - 1;
    var begun := P.Step(cfg, P.Step(cfg, P.Step(cfg, w.r, P.CatchUp(k, version)), P.Tick), P.Begin(f, k));
    V.SettledRegistration(cfg, o, script);
    V.RoundBegins(cfg, w.r, k, f);
    V.RoundUnfolds(cfg, w.r, k, version, f, script);
    HandlingRun(cfg, begun, f, script);
    RegistrationBegins(cfg, w, k, version, f, script);
    C.HandlingEffects(cfg, w.(r := begun), f, script);
  }

  // The commit that the round applies, if any, and for which copy of the watcher.
  lemma RegistrationFetches(cfg: Config, o: Watcher, script: Script)
    requires V.Registrable(cfg, o, script.answers)
    ensures var phase := AfterRef(cfg, StartReconcile(cfg, o, script.answers).phase, script.ref);
      var sha := FirstCommitOf(cfg, o, script.ref);
      && (phase.Fetched? <==> sha.Some?)
      && (phase.Fetched? ==> phase.commit == sha.value && phase.obj == o.(status := phase.obj.status))
  {
    ProviderChosen(o, script.answers.supports);
    var copy := WithHookID(WithToken(o, script.answers.token), Itoa(script.answers.hook.id));
    assert StartReconcile(cfg, o, script.answers).phase == Hooked(copy, Some(script.answers.hook.id));
    FirstCommitFetched(cfg, copy, Some(script.answers.hook.id), script.ref);
  }

  // A watcher that is registered in any reachable state gets the head of its branch as its
  // first commit when it had none and GitHub gives one, even if the apply failed; the
  // GitCommit of that head is in the store when the apply took effect. Otherwise the store
  // stays as it is.
  lemma RegistrationApplies(cfg: Config, actions: seq<Action>, k: Key, f: nat, script: Script)
    requires var r := Run(cfg, Init, actions).r;
      && k in r.revisions && |r.revisions[k]| > 0 && f !in r.flights && script.accepted
      && V.Registrable(cfg, P.Last(r.revisions[k]), script.answers) && script.answers.hook.id !in r.hooks
    ensures var w := Run(cfg, Init, actions); var o := P.Last(w.r.revisions[k]);
      var w' := Run(cfg, w, Registration(k, |w.r.revisions[k]| - 1, f, script));
      var fetched := o.status.firstCommit == "" && o.spec.branch != "" && script.ref.Ok? && script.ref.value.Some?;
      && k in w'.r.revisions && |w'.r.revisions[k]| == |w.r.revisions[k]| + 1
      && V.RegisteredBy(cfg, o, P.Last(w'.r.revisions[k]).status, script)
      && (if fetched && (script.applied.err.None? || script.applied.stored) then
            Holds(cfg, w'.commits, o, script.ref.value.value)
          else w'.commits == w.commits)
  {
    ST.ReachableInv(cfg, actions);
    var w := Run(cfg, Init, actions);
    var o := P.Last(w.r.revisions[k]);
    RegistrationEffects(cfg, w, k, f, script);
    V.RoundRegisters(cfg, w.r, k, f, script);
    RegistrationFetches(cfg, o, script);
    var sha := FirstCommitOf(cfg, o, script.ref);
    if sha.Some? && script.applied.Landed() {
      var phase := AfterRef(cfg, StartReconcile(cfg, o, script.answers).phase, script.ref);
      AppliedIsHeld(cfg, actions, o, sha.value);
      assert DesiredCommit(cfg, phase.obj, sha.value) == DesiredCommit(cfg, o, sha.value);
    }
  }

  // ---------- Where stored first commits come from ----------

  // The first commits that the GitHub provider records in the course of a run although
  // their apply did not take effect, with their watchers.
  function Unapplied(cfg: Config, actions: seq<Action>): seq<(Key, string)> {
    if |actions| == 0 then []
    else
      var before := actions[..|actions| - 1];
      Unapplied(cfg, before) + UnappliedBy(Run(cfg, Init, before).r, actions[|actions| - 1])
  }

  function UnappliedBy(r: P.Reconciler, a: Action): seq<(Key, string)> {
    if a.Reconcile? && a.a.Apply? && a.a.f in r.flights && !a.a.applied.Landed() then
      var phase := r.flights[a.a.f].phase;
      if phase.Fetched? && phase.source == GitHub then [(phase.obj.key, phase.commit)] else []
    else []
  }

  // There is no commit, or it was applied for k, or GitHub's provider recorded it after a
  // failed apply.
  ghost predicate Sourced(k: Key, commit: string, cs: seq<GitCommit>, us: seq<(Key, string)>) {
    || commit == ""
    || (k, commit) in us
    || exists c :: c in cs && For(c, k) && c.spec.commit == commit
  }

  ghost predicate VersionsSourced(r: P.Reconciler, cs: seq<GitCommit>, us: seq<(Key, string)>) {
    forall k, i :: k in r.revisions && 0 <= i < |r.revisions[k]| ==>
      Sourced(k, r.revisions[k][i].obj.status.firstCommit, cs, us)
  }

  ghost predicate CopySourced(flight: P.Flight, cs: seq<GitCommit>, us: seq<(Key, string)>) {
    flight.phase.Started? || Sourced(flight.base.key, flight.phase.obj.status.firstCommit, cs, us)
  }

  ghost predicate CopiesSourced(r: P.Reconciler, cs: seq<GitCommit>, us: seq<(Key, string)>) {
    forall f :: f in r.flights ==> CopySourced(r.flights[f], cs, us)
  }

  lemma SourcedKept(k: Key, commit: string, cs: seq<GitCommit>, cs': seq<GitCommit>, us: seq<(Key, string)>,
                    us': seq<(Key, string)>)
    requires Sourced(k, commit, cs, us) && cs <= cs' && us <= us'
    ensures Sourced(k, commit, cs', us')
  {
  }

  // A working copy has the first commit of the version it was made from, or else of the
  // copy before, unless an apply has put it there.
  lemma CallKeepsFirst(cfg: Config, o: Watcher, answers: StartAnswers)
    ensures var phase := StartReconcile(cfg, o, answers).phase;
      !phase.Started? && phase.obj.status.firstCommit == o.status.firstCommit
  {
  }

  lemma CalledCopy(cfg: Config, r: P.Reconciler, f: nat, answers: StartAnswers, cs: seq<GitCommit>,
                   us: seq<(Key, string)>)
    requires PI.Sound(r) && VersionsSourced(r, cs, us) && CopiesSourced(r, cs, us)
    ensures CopiesSourced(P.OnCall(cfg, r, f, answers), cs, us)
  {
    if f in r.flights {
      var base := r.flights[f].base;
      assert PI.Stored(r, base);
      CallKeepsFirst(cfg, base, answers);
      assert Sourced(base.key, r.revisions[base.key][base.version].obj.status.firstCommit, cs, us);
    }
  }

  lemma FetchedCopy(cfg: Config, r: P.Reconciler, f: nat, ref: Result<Option<string>>, cs: seq<GitCommit>,
                    us: seq<(Key, string)>)
    requires CopiesSourced(r, cs, us)
    ensures CopiesSourced(P.OnRef(cfg, r, f, ref), cs, us)
  {
    if f in r.flights && r.flights[f].phase.Hooked? {
      FirstCommitFetched(cfg, r.flights[f].phase.obj, r.flights[f].phase.hook, ref);
    }
  }

  lemma CopyKept(cfg: Config, w: World, a: P.Action, f: nat, cs: seq<GitCommit>, us: seq<(Key, string)>)
    requires PI.Sound(w.r) && VersionsSourced(w.r, cs, us) && CopiesSourced(w.r, cs, us)
    requires f in P.Step(cfg, w.r, a).flights && !(a.Apply? && a.f == f)
    ensures CopySourced(P.Step(cfg, w.r, a).flights[f], cs, us)
  {
    if a.Call? {
      CalledCopy(cfg, w.r, a.f, a.answers, cs, us);
    } else if a.Ref? {
      FetchedCopy(cfg, w.r, a.f, a.ref, cs, us);
    } else if a.Apply? {
      assert CopySourced(w.r.flights[f], cs, us);
    } else {
      PI.OtherStepFlights(cfg, w.r, a);
    }
  }

  lemma ApplySourced(cfg: Config, w: World, a: P.Action, cs: seq<GitCommit>, us: seq<(Key, string)>)
    requires PI.Sound(w.r) && CopiesSourced(w.r, cs, us)
    requires a.Apply? && a.f in w.r.flights && w.r.flights[a.f].phase.Fetched?
    ensures CopySourced(P.OnApply(w.r, a.f, a.applied).flights[a.f],
                        cs + AppliedBy(cfg, w, Reconcile(a)), us + UnappliedBy(w.r, Reconcile(a)))
  {
    var base, p := w.r.flights[a.f].base, w.r.flights[a.f].phase;
    var cs', us' := cs + AppliedBy(cfg, w, Reconcile(a)), us + UnappliedBy(w.r, Reconcile(a));
    assert PI.PhaseOK(w.r, base, p) && p.obj.key == base.key;
    CommitRecorded(p.obj, p.hook, p.commit, p.source, a.applied);
    SourcedKept(base.key, p.obj.status.firstCommit, cs, cs', us, us');
    if a.applied.Landed() {
      var c := DesiredCommit(cfg, p.obj, p.commit);
      assert cs'[|cs|] == c && For(c, base.key);
    } else if p.source == GitHub {
      assert us'[|us|] == (base.key, p.commit);
    }
  }

  lemma StepSourcesCopy(cfg: Config, w: World, a: P.Action, f: nat, cs: seq<GitCommit>, us: seq<(Key, string)>)
    requires PI.Sound(w.r) && VersionsSourced(w.r, cs, us) && CopiesSourced(w.r, cs, us)
    requires f in P.Step(cfg, w.r, a).flights
    ensures CopySourced(P.Step(cfg, w.r, a).flights[f],
                        cs + AppliedBy(cfg, w, Reconcile(a)), us + UnappliedBy(w.r, Reconcile(a)))
  {
    var cs', us' := cs + AppliedBy(cfg, w, Reconcile(a)), us + UnappliedBy(w.r, Reconcile(a));
    var flight := P.Step(cfg, w.r, a).flights[f];
    if a.Apply? && a.f == f && f in w.r.flights && w.r.flights[f].phase.Fetched? {
      ApplySourced(cfg, w, a, cs, us);
    } else {
      if !(a.Apply? && a.f == f) { CopyKept(cfg, w, a, f, cs, us); }
      if !flight.phase.Started? {
        SourcedKept(flight.base.key, flight.phase.obj.status.firstCommit, cs, cs', us, us');
      }
    }
  }

  // What an action may have stored as a version.
  lemma VersionSourced(cfg: Config, w: World, a: P.Action, k: Key, i: nat, cs: seq<GitCommit>,
                       us: seq<(Key, string)>)
    requires PI.Sound(w.r) && VersionsSourced(w.r, cs, us) && CopiesSourced(w.r, cs, us)
    requires var r' := P.Step(cfg, w.r, a); k in r'.revisions && i < |r'.revisions[k]|
    ensures Sourced(k, P.Step(cfg, w.r, a).revisions[k][i].obj.status.firstCommit, cs, us)
  {
    var r' := P.Step(cfg, w.r, a);
    if k in w.r.revisions && i < |w.r.revisions[k]| {
      PI.StepExtends(cfg, w.r, a);
      assert r'.revisions[k][i] == w.r.revisions[k][i];
    } else {
      Versions.VersionAdded(cfg, w.r, a, k, i);
      if k in w.r.revisions {
        assert Sourced(k, P.Last(w.r.revisions[k]).status.firstCommit, cs, us);
        if a.Write? { assert CopySourced(w.r.flights[a.f], cs, us); }
      }
    }
  }

  lemma StepSources(cfg: Config, w: World, a: Action, cs: seq<GitCommit>, us: seq<(Key, string)>)
    requires PI.Sound(w.r) && VersionsSourced(w.r, cs, us) && CopiesSourced(w.r, cs, us)
    ensures var w' := Step(cfg, w, a); var cs', us' := cs + AppliedBy(cfg, w, a), us + UnappliedBy(w.r, a);
      VersionsSourced(w'.r, cs', us') && CopiesSourced(w'.r, cs', us')
  {
    var w' := Step(cfg, w, a);
    var cs', us' := cs + AppliedBy(cfg, w, a), us + UnappliedBy(w.r, a);
    match a
    case Reconcile(pa) =>
      forall k, i | k in w'.r.revisions && 0 <= i < |w'.r.revisions[k]|
        ensures Sourced(k, w'.r.revisions[k][i].obj.status.firstCommit, cs', us')
      {
        VersionSourced(cfg, w, pa, k, i, cs, us);
        SourcedKept(k, w'.r.revisions[k][i].obj.status.firstCommit, cs, cs', us, us');
      }
      forall f | f in w'.r.flights ensures CopySourced(w'.r.flights[f], cs', us') {
        StepSourcesCopy(cfg, w, pa, f, cs, us);
      }
    case _ => assert w'.r == w.r && cs' == cs && us' == us;
  }

  lemma {:induction false} RunSources(cfg: Config, actions: seq<Action>)
    ensures var r := Run(cfg, Init, actions).r; var cs, us := Applied(cfg, actions), Unapplied(cfg, actions);
      VersionsSourced(r, cs, us) && CopiesSourced(r, cs, us)
  {
    if |actions| > 0 {
      var before, a := actions[..|actions| - 1], actions[|actions| - 1];
      assert actions == before + [a];
      RunSnoc(cfg, Init, before, a);
      ST.ReachableInv(cfg, before);
      RunSources(cfg, before);
      StepSources(cfg, Run(cfg, Init, before), a, Applied(cfg, before), Unapplied(cfg, before));
    }
  }

  // In every run a first commit that any version of a watcher has was applied for that
  // watcher, and its name is still in the store; or else the GitHub provider recorded it
  // after its apply failed.
  lemma FirstCommitsWereApplied(cfg: Config, actions: seq<Action>, k: Key, i: nat)
    requires var r := Run(cfg, Init, actions).r;
      k in r.revisions && i < |r.revisions[k]| && r.revisions[k][i].obj.status.firstCommit != ""
    ensures var w := Run(cfg, Init, actions); var commit := w.r.revisions[k][i].obj.status.firstCommit;
      || (k, commit) in Unapplied(cfg, actions)
      || exists c :: c in Applied(cfg, actions) && For(c, k) && c.spec.commit == commit && c.key in w.commits
  {
    var w := Run(cfg, Init, actions);
    var cs, commit := Applied(cfg, actions), w.r.revisions[k][i].obj.status.firstCommit;
    RunSources(cfg, actions);
    assert Sourced(k, commit, cs, Unapplied(cfg, actions));
    if (k, commit) !in Unapplied(cfg, actions) {
      var c :| c in cs && For(c, k) && c.spec.commit == commit;
      PolledIsLatest(cfg, actions, c.key);
      LastIsApplied(cs, c.key);
    }
  }
}
