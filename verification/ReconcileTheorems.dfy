// What holds of the reconcile protocol in every run: whatever the users, the
// cache, GitHub and the API server do, and however reconciles overlap.
module ReconcileTheorems {
  import opened Types
  import opened Text
  import opened Endpoint
  import opened Reconcile
  import opened ReconcileLaws
  import opened Protocol
  import opened ProtocolInvariants
  import opened HookConservation
  import opened HookContents
  import opened Versions
  import opened ReconcileProgress
  import opened Convergence

  ghost predicate Inv(r: Reconciler) {
    Sound(r) && Accounted(r) && Progress(r)
  }

  lemma StepKeepsInv(cfg: Config, r: Reconciler, a: Action)
    requires Inv(r)
    ensures Inv(Step(cfg, r, a))
  {
    StepKeepsSound(cfg, r, a);
    StepKeepsPlaces(cfg, r, a);
    StepKeepsProgress(cfg, r, a);
  }

  lemma {:induction false} RunKeepsInv(cfg: Config, r: Reconciler, actions: seq<Action>)
    requires Inv(r)
    ensures Inv(Run(cfg, r, actions))
    decreases |actions|
  {
    if |actions| > 0 {
      StepKeepsInv(cfg, r, actions[0]);
      RunKeepsInv(cfg, Step(cfg, r, actions[0]), actions[1..]);
    }
  }

  lemma ReachableInv(cfg: Config, actions: seq<Action>)
    ensures Inv(Run(cfg, Init, actions))
  {
    RunKeepsInv(cfg, Init, actions);
  }

  // Hook conservation: the hooks that GitHub reported created for a watcher are the
  // stored one, those that reconciles under way hold, and those that were lost when
  // an Update failed or a reconcile was cut off.
  lemma HooksConserved(cfg: Config, actions: seq<Action>, k: Key)
    requires k in Run(cfg, Init, actions).revisions
    ensures var r := Run(cfg, Init, actions);
      && |r.revisions[k]| > 0
      && |ReportedHooks(r, k)| ==
           (if Last(r.revisions[k]).status.hookID != "" then 1 else 0) + |Holding(r, k)| + |LostHooks(r, k)|
      && (Holding(r, k) == {} && LostHooks(r, k) == {} ==> |ReportedHooks(r, k)| <= 1)
  {
    ReachableInv(cfg, actions);
    HooksAddUp(Run(cfg, Init, actions), k);
  }

  // Every hook at GitHub was made for its watcher as some stored version has it: with the
  // address of the environment or else that version's own, the events of its flags, and
  // its repository.
  lemma {:induction false} RunMakesHooks(cfg: Config, r: Reconciler, actions: seq<Action>)
    requires Inv(r) && AllMade(cfg, r)
    ensures AllMade(cfg, Run(cfg, r, actions))
    decreases |actions|
  {
    if |actions| > 0 {
      StepKeepsMade(cfg, r, actions[0]);
      assert Inv(Step(cfg, r, actions[0])) by { StepKeepsInv(cfg, r, actions[0]); }
      RunMakesHooks(cfg, Step(cfg, r, actions[0]), actions[1..]);
    }
  }

  lemma HooksAreMade(cfg: Config, actions: seq<Action>, h: nat)
    requires h in Run(cfg, Init, actions).hooks
    ensures Made(cfg, Run(cfg, Init, actions), Run(cfg, Init, actions).hooks[h])
  {
    RunMakesHooks(cfg, Init, actions);
  }

  // In every run the versions written after an error are those that say so, with its
  // message, in their Registered condition; nothing else changes any condition.
  lemma {:induction false} RunSaysErrors(cfg: Config, r: Reconciler, actions: seq<Action>)
    requires Inv(r) && ErrorsSaid(r)
    ensures ErrorsSaid(Run(cfg, r, actions))
    decreases |actions|
  {
    if |actions| > 0 {
      StepKeepsSaid(cfg, r, actions[0]);
      StepKeepsInv(cfg, r, actions[0]);
      RunSaysErrors(cfg, Step(cfg, r, actions[0]), actions[1..]);
    }
  }

  lemma ErrorsAreSaid(cfg: Config, actions: seq<Action>, k: Key, i: nat)
    requires var r := Run(cfg, Init, actions); k in r.revisions && i < |r.revisions[k]|
    ensures SaysErrors(Run(cfg, Init, actions).revisions[k], i)
  {
    RunSaysErrors(cfg, Init, actions);
  }

  // Token agreement: a stored hook id names a hook that GitHub has, created for this
  // watcher with the stored token as its secret, with the address and the events that a
  // stored version of it asks for; a delivery to that address is led back to the watcher
  // when its base has no query and no fragment.
  lemma TokensAgree(cfg: Config, actions: seq<Action>, k: Key)
    requires k in Run(cfg, Init, actions).revisions
    ensures var r := Run(cfg, Init, actions);
      && |r.revisions[k]| > 0
      && var status := Last(r.revisions[k]).status;
      status.hookID != "" ==>
        && NamesHook(r, k, status)
        && var hook := r.hooks[Atoi(status.hookID)];
        exists i :: 0 <= i < |r.revisions[k]| && ServedBy(cfg, r.revisions[k][i].obj, k, hook)
  {
    var r := Run(cfg, Init, actions);
    ReachableInv(cfg, actions);
    var s := r.revisions[k];
    assert s[|s| - 1].obj.status.hookID == "" || NamesHook(r, k, s[|s| - 1].obj.status);
    if Last(s).status.hookID != "" {
      var h := Atoi(Last(s).status.hookID);
      HooksAreMade(cfg, actions, h);
      var i :| 0 <= i < |s| && MadeFor(cfg, s[i].obj, r.hooks[h]);
      MadeIsServed(cfg, s[i].obj, k, r.hooks[h]);
    }
  }

  // The hook is made for o, and deliveries to it find k.
  ghost predicate ServedBy(cfg: Config, o: Watcher, k: Key, hook: Hook) {
    && MadeFor(cfg, o, hook)
    && (Plain(if cfg.webhookURL != "" then cfg.webhookURL else o.spec.receiverURL) && Valid(k) ==>
          Receiver(hook.url) == Some(k))
  }

  lemma MadeIsServed(cfg: Config, o: Watcher, k: Key, hook: Hook)
    requires MadeFor(cfg, o, hook) && hook.watcher == k
    ensures ServedBy(cfg, o, k, hook)
  {
    var base := if cfg.webhookURL != "" then cfg.webhookURL else o.spec.receiverURL;
    AddressOf(cfg, o);
    if Plain(base) && Valid(k) { EndpointRoundTrip(base, k); }
  }

  // Write-once: whatever happens later, a stored hook id keeps its value and its
  // token, and a stored first commit keeps its value, whichever provider wrote them.
  lemma StoredStatusStays(cfg: Config, actions: seq<Action>, more: seq<Action>, k: Key)
    requires k in Run(cfg, Init, actions).revisions
    ensures var r := Run(cfg, Init, actions); var r' := Run(cfg, r, more);
      && k in r'.revisions && 0 < |r.revisions[k]| <= |r'.revisions[k]|
      && Keeps(Last(r.revisions[k]).status, Last(r'.revisions[k]).status)
  {
    var r := Run(cfg, Init, actions);
    var r' := Run(cfg, r, more);
    ReachableInv(cfg, actions);
    RunKeepsInv(cfg, r, more);
    RunExtends(cfg, r, more);
    var n := |r.revisions[k]|;
    assert r'.revisions[k][n - 1] == r.revisions[k][n - 1];
    assert Keeps(r'.revisions[k][n - 1].obj.status, r'.revisions[k][|r'.revisions[k]| - 1].obj.status);
  }

  // Termination measure: when GitHub's successful answers carry ids, each Update by
  // an error-free reconcile leaves the watcher lacking less, so there are at most two.
  lemma AtMostTwoCleanUpdates(cfg: Config, actions: seq<Action>, k: Key)
    requires k in Run(cfg, Init, actions).revisions && !SawUnnamed(Run(cfg, Init, actions), k)
    ensures var r := Run(cfg, Init, actions);
      && |r.revisions[k]| > 0
      && CleanWritesProgress(r.revisions[k])
      && CountBy(r.revisions[k], Clean) + Lacking(Last(r.revisions[k])) <= 2
  {
    ReachableInv(cfg, actions);
    CleanWritesCounted(Run(cfg, Init, actions).revisions[k]);
  }

  // Both conditions are needed: updates by reconciles with an error are not bounded,
  // and neither are error-free ones when the answers carry no id.
  lemma OtherUpdatesUnbounded(cfg: Config, k: Key, uid: string, spec: WatcherSpec, n: nat)
    requires CanBeStuck(cfg, spec)
    ensures exists actions :: var r := Run(cfg, Init, actions);
      k in r.revisions && CountBy(r.revisions[k], Failing) == n && r.hooks == map[] &&
      |r.revisions[k]| == n + 1 && TokensDiffer(r.revisions[k])
    ensures exists actions :: var r := Run(cfg, Init, actions);
      k in r.revisions && CountBy(r.revisions[k], Clean) == n
  {
    StuckRun(cfg, k, uid, spec, n, false);
    StuckRun(cfg, k, uid, spec, n, true);
    RefusedHasNoHooks(cfg, k, uid, spec, n);
    var refused := StuckRounds(CreateWatcher(k, uid, spec), k, n, false);
    var unnamed := StuckRounds(CreateWatcher(k, uid, spec), k, n, true);
    var r1, r2 := Run(cfg, Init, refused), Run(cfg, Init, unnamed);
    StuckTokens(r1, k, spec, n, Failing);
    assert k in r1.revisions && CountBy(r1.revisions[k], Failing) == n && r1.hooks == map[];
    assert k in r2.revisions && CountBy(r2.revisions[k], Clean) == n;
  }

  lemma RefusedRound(cfg: Config, r: Reconciler, k: Key, spec: WatcherSpec, i: nat)
    requires CanBeStuck(cfg, spec) && Stuck(r, k, spec, i, Failing) && r.hooks == map[]
    ensures Run(cfg, r, Round(k, i, 0, StuckScript(i, false))).hooks == map[]
  {
    StuckSettles(cfg, Last(r.revisions[k]), i, false);
    if i > 0 && Itoa(i) == Itoa(i - 1) { ItoaInjective(i, i - 1); }
    RoundRun(cfg, r, k, 0, StuckScript(i, false));
  }

  lemma {:induction false} RefusedHasNoHooks(cfg: Config, k: Key, uid: string, spec: WatcherSpec, n: nat)
    requires CanBeStuck(cfg, spec)
    ensures Run(cfg, Init, StuckRounds(CreateWatcher(k, uid, spec), k, n, false)).hooks == map[]
  {
    var first := CreateWatcher(k, uid, spec);
    if n == 0 {
      RunCons(cfg, Init, first, []);
    } else {
      var before := StuckRounds(first, k, n - 1, false);
      RefusedHasNoHooks(cfg, k, uid, spec, n - 1);
      StuckRun(cfg, k, uid, spec, n - 1, false);
      RefusedRound(cfg, Run(cfg, Init, before), k, spec, n - 1);
      RunAppend(cfg, Init, before, Round(k, n - 1, 0, StuckScript(n - 1, false)));
    }
  }

  // Convergence: in any reachable state a round in which the secret is usable,
  // GitHub creates the hook and the Update is taken registers the watcher; whatever
  // follows, it stays registered and the timer never enqueues it again.
  lemma Converges(cfg: Config, actions: seq<Action>, k: Key, f: nat, script: Script, more: seq<Action>)
    requires var r := Run(cfg, Init, actions);
      && k in r.revisions && |r.revisions[k]| > 0 && f !in r.flights && script.accepted
      && Registrable(cfg, Last(r.revisions[k]), script.answers) && script.answers.hook.id !in r.hooks
    ensures var r := Run(cfg, Init, actions);
      var r1 := Run(cfg, r, Round(k, |r.revisions[k]| - 1, f, script));
      var r2 := Run(cfg, r1, more);
      && k in r2.revisions && |r2.revisions[k]| > 0
      && Last(r2.revisions[k]).status.hookID == Itoa(script.answers.hook.id)
      && NamesHook(r2, k, Last(r2.revisions[k]).status)
      && r1.lost == r.lost
      && (k in r2.cached && r2.cached[k] >= |r.revisions[k]| ==> k !in Unregistered(r2))
      && k in r1.revisions && |r1.revisions[k]| == |r.revisions[k]| + 1
      && RegisteredBy(cfg, Last(r.revisions[k]), Last(r1.revisions[k]).status, script)
      && Keeps(Last(r1.revisions[k]).status, Last(r2.revisions[k]).status)
  {
    var r := Run(cfg, Init, actions);
    ReachableInv(cfg, actions);
    var r1 := Run(cfg, r, Round(k, |r.revisions[k]| - 1, f, script));
    RoundRegisters(cfg, r, k, f, script);
    RunKeepsInv(cfg, r, Round(k, |r.revisions[k]| - 1, f, script));
    StaysRegistered(cfg, r1, k, more);
  }

  lemma StaysRegistered(cfg: Config, r: Reconciler, k: Key, more: seq<Action>)
    requires Inv(r) && k in r.revisions && Last(r.revisions[k]).status.hookID != ""
    ensures var r' := Run(cfg, r, more);
      && k in r'.revisions && |r'.revisions[k]| >= |r.revisions[k]|
      && Last(r'.revisions[k]).status.hookID == Last(r.revisions[k]).status.hookID
      && Keeps(Last(r.revisions[k]).status, Last(r'.revisions[k]).status)
      && NamesHook(r', k, Last(r'.revisions[k]).status)
      && (k in r'.cached && r'.cached[k] >= |r.revisions[k]| - 1 ==> k !in Unregistered(r'))
  {
    var r' := Run(cfg, r, more);
    RunKeepsInv(cfg, r, more);
    RunExtends(cfg, r, more);
    var n, s := |r.revisions[k]|, r'.revisions[k];
    assert s[n - 1] == r.revisions[k][n - 1];
    assert forall i :: n - 1 <= i < |s| ==> Keeps(s[n - 1].obj.status, s[i].obj.status);
    assert NamesHook(r', k, s[|s| - 1].obj.status);
  }

  // The same with other actions between those of the round: other watchers, other
  // reconciles, ticks, failing calls, as long as they add no version of this watcher and
  // leave its reconcile and its place in the queue alone.
  lemma ConvergesInterleaved(cfg: Config, actions: seq<Action>, r: Reconciler, k: Key, f: nat, gaps: Gaps,
                             script: Script, more: seq<Action>)
    requires r == Run(cfg, Init, actions) && Undisturbed(cfg, r, k, f, gaps, script)
    ensures NowRegistered(Run(cfg, Run(cfg, r, Interleaved(k, f, gaps, script)), more), k, script.answers.hook.id)
  {
    var round := Interleaved(k, f, gaps, script);
    ReachableInv(cfg, actions);
    InterleavedRegisters(cfg, r, k, f, gaps, script);
    RunKeepsInv(cfg, r, round);
    StaysRegistered(cfg, Run(cfg, r, round), k, more);
  }

  ghost predicate NowRegistered(r: Reconciler, k: Key, id: nat) {
    && k in r.revisions && |r.revisions[k]| > 0
    && Last(r.revisions[k]).status.hookID == Itoa(id)
    && NamesHook(r, k, Last(r.revisions[k]).status)
  }

  // A reconcile of a registered watcher from a cache that has its hook id leaves
  // GitHub, the API server and the other reconciles as they are, in any reachable
  // state, while the GitHub provider supports it: in particular a first commit that
  // could not be fetched is not fetched again.
  lemma RegisteredReconcileDoesNothing(cfg: Config, actions: seq<Action>, k: Key, f: nat, script: Script)
    requires var r := Run(cfg, Init, actions);
      && k in r.queue && f !in r.flights
      && k in r.cached && k in r.revisions && r.cached[k] < |r.revisions[k]|
      && var o := r.revisions[k][r.cached[k]].obj;
      o.status.hookID != "" && WantsGitHub(o, script.answers.supports)
    ensures var r := Run(cfg, Init, actions);
      Run(cfg, r, [Begin(f, k)] + Handling(f, script)) == r.(queue := r.queue - {k})
  {
    var r := Run(cfg, Init, actions);
    var begun := Step(cfg, r, Begin(f, k));
    RunCons(cfg, r, Begin(f, k), Handling(f, script));
    RegisteredIsQuiet(cfg, begun, f, script);
    assert begun.flights - {f} == r.flights;
  }

  // A reconcile of a version that is no longer the stored one cannot write: what it
  // created at GitHub is lost.
  lemma StaleHandlingLoses(cfg: Config, r: Reconciler, f: nat, script: Script)
    requires f in r.flights && r.flights[f].phase.Started?
    requires var base := r.flights[f].base;
      base.key in r.revisions && base.version + 1 != |r.revisions[base.key]|
    requires Registrable(cfg, r.flights[f].base, script.answers) && script.answers.hook.id !in r.hooks
    ensures var r' := Run(cfg, r, Handling(f, script)); var id := script.answers.hook.id;
      && r'.revisions == r.revisions && r'.lost == r.lost + {id}
      && r'.hooks.Keys == r.hooks.Keys + {id}
  {
    SettledRegistration(cfg, r.flights[f].base, script);
    HandlingRun(cfg, r, f, script);
  }

  // Why hooks can be lost. From any reachable state: a round registers the watcher, and
  // a tick before the cache has caught up enqueues it again; the next reconcile still
  // reads the unregistered version, creates a second hook and cannot store it.
  lemma LaggingCacheLosesHook(cfg: Config, actions: seq<Action>, k: Key, f: nat, s1: Script, s2: Script)
    requires CanLag(cfg, Run(cfg, Init, actions), k, f, s1, s2)
    ensures var r1 := Run(cfg, Run(cfg, Init, actions), Round(k, CacheOf(Run(cfg, Init, actions), k), f, s1));
      SecondLost(Run(cfg, r1, LateReconcile(k, f, s2)), k, s1.answers.hook.id, s2.answers.hook.id)
  {
    ReachableInv(cfg, actions);
    LagLosesHook(cfg, Run(cfg, Init, actions), k, f, s1, s2);
  }

  // Two rounds with two new hooks are possible for the stored version of k.
  ghost predicate CanLag(cfg: Config, r: Reconciler, k: Key, f: nat, s1: Script, s2: Script) {
    && k in r.revisions && |r.revisions[k]| > 0 && f !in r.flights && s1.accepted
    && Registrable(cfg, Last(r.revisions[k]), s1.answers) && Registrable(cfg, Last(r.revisions[k]), s2.answers)
    && s1.answers.hook.id !in r.hooks && s2.answers.hook.id !in r.hooks
    && s1.answers.hook.id != s2.answers.hook.id
  }

  // The number of the stored version.
  function CacheOf(r: Reconciler, k: Key): nat {
    if k in r.revisions && |r.revisions[k]| > 0 then |r.revisions[k]| - 1 else 0
  }

  // A tick, and the reconcile it causes.
  function LateReconcile(k: Key, f: nat, script: Script): seq<Action> {
    [Tick] + ([Begin(f, k)] + Handling(f, script))
  }

  // GitHub has both hooks; the first is stored and the second is lost.
  ghost predicate SecondLost(r: Reconciler, k: Key, first: nat, second: nat) {
    && first in r.hooks && second in r.hooks && second in r.lost
    && k in r.revisions && |r.revisions[k]| > 0 && Last(r.revisions[k]).status.hookID == Itoa(first)
  }

  lemma LagLosesHook(cfg: Config, r: Reconciler, k: Key, f: nat, s1: Script, s2: Script)
    requires Sound(r) && CanLag(cfg, r, k, f, s1, s2)
    ensures var r1 := Run(cfg, r, Round(k, CacheOf(r, k), f, s1));
      SecondLost(Run(cfg, r1, LateReconcile(k, f, s2)), k, s1.answers.hook.id, s2.answers.hook.id)
  {
    RoundLags(cfg, r, k, f, s1);
    LateLoses(cfg, Run(cfg, r, Round(k, CacheOf(r, k), f, s1)), k, f, s1.answers.hook.id, s2);
  }

  lemma LateLoses(cfg: Config, r: Reconciler, k: Key, f: nat, first: nat, script: Script)
    requires k in r.cached && k in r.revisions && r.cached[k] + 1 < |r.revisions[k]| && f !in r.flights
    requires var o := r.revisions[k][r.cached[k]].obj;
      Registrable(cfg, o, script.answers) && o.key == k && o.version == r.cached[k]
    requires script.answers.hook.id !in r.hooks && first in r.hooks
    requires Last(r.revisions[k]).status.hookID == Itoa(first)
    ensures SecondLost(Run(cfg, r, LateReconcile(k, f, script)), k, first, script.answers.hook.id)
  {
    RunCons(cfg, r, Tick, [Begin(f, k)] + Handling(f, script));
    RunCons(cfg, Step(cfg, r, Tick), Begin(f, k), Handling(f, script));
    LagBegins(cfg, r, k, f);
    StaleHandlingLoses(cfg, Step(cfg, Step(cfg, r, Tick), Begin(f, k)), f, script);
  }

  // A tick on a lagging cache starts a reconcile of the version the cache has.
  lemma LagBegins(cfg: Config, r: Reconciler, k: Key, f: nat)
    requires k in r.cached && k in r.revisions && r.cached[k] < |r.revisions[k]| && f !in r.flights
    requires r.revisions[k][r.cached[k]].obj.status.hookID == ""
    ensures var r' := Step(cfg, Step(cfg, r, Tick), Begin(f, k));
      && f in r'.flights && r'.flights[f] == Flight(r.revisions[k][r.cached[k]].obj, Started)
      && r'.revisions == r.revisions && r'.hooks == r.hooks && r'.lost == r.lost
  {
    assert k in Unregistered(r);
  }

  // After the round the cache still has the version before it.
  lemma RoundLags(cfg: Config, r: Reconciler, k: Key, f: nat, script: Script)
    requires Sound(r) && k in r.revisions && f !in r.flights && script.accepted
    requires Registrable(cfg, Last(r.revisions[k]), script.answers) && script.answers.hook.id !in r.hooks
    ensures var r1 := Run(cfg, r, Round(k, |r.revisions[k]| - 1, f, script)); var version := |r.revisions[k]| - 1;
      && k in r1.cached && r1.cached[k] == version && r1.flights == r.flights
      && k in r1.revisions && version + 1 < |r1.revisions[k]| && r1.revisions[k][version].obj == Last(r.revisions[k])
      && Last(r.revisions[k]).key == k && Last(r.revisions[k]).version == version
      && Last(r1.revisions[k]).status.hookID == Itoa(script.answers.hook.id)
      && r1.hooks.Keys == r.hooks.Keys + {script.answers.hook.id}
  {
    SettledRegistration(cfg, Last(r.revisions[k]), script);
    RoundRun(cfg, r, k, f, script);
  }

  // The run of the code from the start: the watcher is created, its round registers it,
  // and the lagging cache costs a second hook.
  lemma LaggingCacheFromStart(cfg: Config, k: Key, uid: string, spec: WatcherSpec, f: nat, s1: Script, s2: Script)
    requires CanBeStuck(cfg, spec) && s1.accepted && s1.answers.hook.Created? && s2.answers.hook.Created?
    requires !s1.answers.supports.Missing? && s1.answers.client.Found?
    requires !s2.answers.supports.Missing? && s2.answers.client.Found?
    requires s1.answers.hook.id != s2.answers.hook.id
    ensures var r1 := Run(cfg, Run(cfg, Init, [CreateWatcher(k, uid, spec)] + []), Round(k, 0, f, s1));
      SecondLost(Run(cfg, r1, LateReconcile(k, f, s2)), k, s1.answers.hook.id, s2.answers.hook.id)
  {
    var start := [CreateWatcher(k, uid, spec)] + [];
    NewWatcherCanLag(cfg, k, uid, spec, f, s1, s2);
    LaggingCacheLosesHook(cfg, start, k, f, s1, s2);
  }

  lemma NewWatcherCanLag(cfg: Config, k: Key, uid: string, spec: WatcherSpec, f: nat, s1: Script, s2: Script)
    requires CanBeStuck(cfg, spec) && s1.accepted && s1.answers.hook.Created? && s2.answers.hook.Created?
    requires !s1.answers.supports.Missing? && s1.answers.client.Found?
    requires !s2.answers.supports.Missing? && s2.answers.client.Found?
    requires s1.answers.hook.id != s2.answers.hook.id
    ensures var r := Run(cfg, Init, [CreateWatcher(k, uid, spec)] + []);
      CanLag(cfg, r, k, f, s1, s2) && CacheOf(r, k) == 0
  {
    RunCons(cfg, Init, CreateWatcher(k, uid, spec), []);
    assert Step(cfg, Init, CreateWatcher(k, uid, spec)).revisions[k] ==
      [Revision(Watcher(k, uid, 0, spec, EmptyWatcherStatus), User)];
  }

  // Within one process the work queue gives a key to one worker at a time. Where two
  // reconciles do read the same unregistered version, as when leadership moves while the
  // old leader is still at work, both create a hook, and the second one cannot be stored.
  lemma OverlapLosesHook(cfg: Config, r: Reconciler, k: Key, f: nat, g: nat, s1: Script, s2: Script)
    requires Sound(r) && k in r.revisions && f != g && f in r.flights && g in r.flights
    requires r.flights[f] == r.flights[g] == Flight(Last(r.revisions[k]), Started)
    requires Registrable(cfg, Last(r.revisions[k]), s1.answers) && Registrable(cfg, Last(r.revisions[k]), s2.answers)
    requires s1.answers.hook.id !in r.hooks && s2.answers.hook.id !in r.hooks
    requires s1.answers.hook.id != s2.answers.hook.id && s1.accepted
    ensures var r' := Run(cfg, Run(cfg, r, Handling(f, s1)), Handling(g, s2));
      && s1.answers.hook.id in r'.hooks && s2.answers.hook.id in r'.hooks
      && k in r'.revisions && |r'.revisions[k]| > 0
      && Last(r'.revisions[k]).status.hookID == Itoa(s1.answers.hook.id)
      && s2.answers.hook.id in r'.lost
  {
    FirstRegisters(cfg, r, k, f, s1);
    var r1 := Run(cfg, r, Handling(f, s1));
    assert r1.flights[g] == r.flights[g];
    StaleHandlingLoses(cfg, r1, g, s2);
  }

  lemma FirstRegisters(cfg: Config, r: Reconciler, k: Key, f: nat, script: Script)
    requires HistoriesOK(r) && k in r.revisions
    requires f in r.flights && r.flights[f] == Flight(Last(r.revisions[k]), Started)
    requires Registrable(cfg, Last(r.revisions[k]), script.answers)
    requires script.answers.hook.id !in r.hooks && script.accepted
    ensures var r' := Run(cfg, r, Handling(f, script));
      && k in r'.revisions && |r'.revisions[k]| == |r.revisions[k]| + 1
      && Last(r'.revisions[k]).status.hookID == Itoa(script.answers.hook.id)
      && r'.hooks.Keys == r.hooks.Keys + {script.answers.hook.id}
      && r'.flights == r.flights - {f}
  {
    SettledRegistration(cfg, Last(r.revisions[k]), script);
    HandlingWrites(cfg, r, f, script);
  }
}
