// Whole rounds of the protocol: registration succeeds when GitHub and the API
// server answer, and nothing bounds the rewriting while they do not.
module Convergence {
  import opened Types
  import opened Text
  import opened Reconcile
  import opened ReconcileLaws
  import opened Protocol
  import opened ProtocolInvariants
  import opened ReconcileProgress

  // The cache catches up, the timer ticks, a worker takes the key and the
  // reconcile runs to its end with the API server accepting the Update.
  function Round(k: Key, version: nat, f: nat, script: Script): seq<Action> {
    [CatchUp(k, version)] + ([Tick] + ([Begin(f, k)] + Handling(f, script)))
  }

  // A watcher without a hook id gets picked up by the timer.
  lemma RoundBegins(cfg: Config, r: Reconciler, k: Key, f: nat)
    requires HistoriesOK(r) && k in r.revisions && f !in r.flights
    requires Last(r.revisions[k]).status.hookID == ""
    ensures var version := |r.revisions[k]| - 1;
      var ticked := Step(cfg, Step(cfg, r, CatchUp(k, version)), Tick);
      Step(cfg, ticked, Begin(f, k)) ==
        r.(cached := r.cached[k := version],
           queue := ticked.queue - {k},
           flights := r.flights[f := Flight(Last(r.revisions[k]), Started)])
  {
    var version := |r.revisions[k]| - 1;
    var caught := Step(cfg, r, CatchUp(k, version));
    assert caught.cached == r.cached[k := version];
    assert caught.revisions == r.revisions;
    assert k in Unregistered(caught);
  }

  lemma RoundUnfolds(cfg: Config, r: Reconciler, k: Key, version: nat, f: nat, script: Script)
    ensures var ticked := Step(cfg, Step(cfg, r, CatchUp(k, version)), Tick);
      Run(cfg, r, Round(k, version, f, script)) == Run(cfg, Step(cfg, ticked, Begin(f, k)), Handling(f, script))
  {
    var caught := Step(cfg, r, CatchUp(k, version));
    RunCons(cfg, r, CatchUp(k, version), [Tick] + ([Begin(f, k)] + Handling(f, script)));
    RunCons(cfg, caught, Tick, [Begin(f, k)] + Handling(f, script));
    RunCons(cfg, Step(cfg, caught, Tick), Begin(f, k), Handling(f, script));
  }

  // What a whole onChange leaves behind when its Update is taken.
  ghost predicate Wrote(cfg: Config, r: Reconciler, r': Reconciler, base: Watcher, script: Script)
    requires base.key in r.revisions
  {
    var phase := Settled(cfg, base, script);
    var s := r.revisions[base.key];
    var entry := StartReconcile(cfg, base, script.answers).entry;
    && r'.revisions == r.revisions[base.key := s +
         [Revision(NewObject(phase.obj, phase.err, script.now).(version := |s|),
                   if phase.err.None? then Clean else Failing)]]
    && r'.hooks == (if entry.Some? then r.hooks[entry.value.0 := entry.value.1] else r.hooks)
    && r'.lost == r.lost
  }

  lemma HandlingWrites(cfg: Config, r: Reconciler, f: nat, script: Script)
    requires f in r.flights && r.flights[f].phase.Started? && script.accepted
    requires var entry := StartReconcile(cfg, r.flights[f].base, script.answers).entry;
      entry.Some? ==> entry.value.0 !in r.hooks
    requires var base := r.flights[f].base;
      base.key in r.revisions && base.version + 1 == |r.revisions[base.key]|
    requires var phase := Settled(cfg, r.flights[f].base, script);
      NewObject(phase.obj, phase.err, script.now) != r.flights[f].base
    ensures var r' := Run(cfg, r, Handling(f, script));
      && Wrote(cfg, r, r', r.flights[f].base, script)
      && r'.flights == r.flights - {f} && r'.cached == r.cached
  {
    var base := r.flights[f].base;
    HandlingRun(cfg, r, f, script);
    var settled := Advance(StartCall(r, f, StartReconcile(cfg, base, script.answers)), f, Settled(cfg, base, script));
    assert settled.flights - {f} == r.flights - {f};
  }

  lemma RoundRun(cfg: Config, r: Reconciler, k: Key, f: nat, script: Script)
    requires HistoriesOK(r) && k in r.revisions && f !in r.flights && script.accepted
    requires Last(r.revisions[k]).status.hookID == ""
    requires var entry := StartReconcile(cfg, Last(r.revisions[k]), script.answers).entry;
      entry.Some? ==> entry.value.0 !in r.hooks
    requires var phase := Settled(cfg, Last(r.revisions[k]), script);
      NewObject(phase.obj, phase.err, script.now) != Last(r.revisions[k])
    ensures Last(r.revisions[k]).key in r.revisions
    ensures var r' := Run(cfg, r, Round(k, |r.revisions[k]| - 1, f, script));
      && Wrote(cfg, r, r', Last(r.revisions[k]), script)
      && r'.flights == r.flights
      && r'.cached == r.cached[k := |r.revisions[k]| - 1]
  {
    var base := Last(r.revisions[k]);
    var version := |r.revisions[k]| - 1;
    var begun := Step(cfg, Step(cfg, Step(cfg, r, CatchUp(k, version)), Tick), Begin(f, k));
    RoundBegins(cfg, r, k, f);
    RoundUnfolds(cfg, r, k, version, f, script);
    HandlingWrites(cfg, begun, f, script);
    assert r.flights[f := Flight(base, Started)] - {f} == r.flights;
  }

  // ---------- Registration ----------

  // The watcher asks for GitHub, and the secret cache and GitHub answer well.
  ghost predicate Registrable(cfg: Config, o: Watcher, answers: StartAnswers) {
    && o.status.hookID == ""
    && o.spec.githubWebhookToken != ""
    && (NamesGitHub(o.spec.provider) || "https://github.com" <= o.spec.repositoryURL)
    && cfg.parsePath(o.spec.repositoryURL).Some?
    && !answers.supports.Missing?
    && answers.client.Found?
    && answers.hook.Created?
  }

  lemma SettledRegistration(cfg: Config, o: Watcher, script: Script)
    requires Registrable(cfg, o, script.answers)
    ensures var entry := StartReconcile(cfg, o, script.answers).entry; var phase := Settled(cfg, o, script);
      && entry.Some? && entry.value.0 == script.answers.hook.id
      && phase.hook == Some(script.answers.hook.id)
      && RegisteredBy(cfg, o, NewObject(phase.obj, phase.err, script.now).status, script)
  {
    ProviderChosen(o, script.answers.supports);
    var copy := WithHookID(WithToken(o, script.answers.token), Itoa(script.answers.hook.id));
    var hook := Some(script.answers.hook.id);
    assert StartReconcile(cfg, o, script.answers).phase == Hooked(copy, hook);
    FirstCommitFetched(cfg, copy, hook, script.ref);
    var sha := FirstCommitOf(cfg, o, script.ref);
    if sha.Some? { CommitRecorded(copy, hook, sha.value, GitHub, script.applied); }
  }

  // What a registration stores: the hook's id, its token, and the branch's head as first
  // commit when there was none and GitHub gave one, even if it could not be applied.
  ghost predicate RegisteredBy(cfg: Config, o: Watcher, status: WatcherStatus, script: Script)
    requires script.answers.hook.Created?
  {
    && status.hookID == Itoa(script.answers.hook.id)
    && status.token == script.answers.token
    && status.firstCommit ==
         if o.status.firstCommit == "" && o.spec.branch != "" && script.ref.Ok? && script.ref.value.Some? then
           script.ref.value.value
         else o.status.firstCommit
  }

  // From any sound state, one round with a usable secret, a GitHub that creates
  // the hook and an API server that takes the Update registers the watcher, whatever
  // becomes of its first commit; no other reconcile and no other watcher is disturbed.
  lemma RoundRegisters(cfg: Config, r: Reconciler, k: Key, f: nat, script: Script)
    requires Sound(r) && k in r.revisions && f !in r.flights && script.accepted
    requires Registrable(cfg, Last(r.revisions[k]), script.answers) && script.answers.hook.id !in r.hooks
    ensures var r' := Run(cfg, r, Round(k, |r.revisions[k]| - 1, f, script));
      && k in r'.revisions && |r'.revisions[k]| == |r.revisions[k]| + 1
      && RegisteredBy(cfg, Last(r.revisions[k]), Last(r'.revisions[k]).status, script)
      && script.answers.hook.id in r'.hooks
      && r'.flights == r.flights && r'.lost == r.lost
      && forall k' :: k' != k && k' in r.revisions ==> k' in r'.revisions && r'.revisions[k'] == r.revisions[k']
  {
    SettledRegistration(cfg, Last(r.revisions[k]), script);
    RoundRun(cfg, r, k, f, script);
  }

  // A reconcile by the GitHub provider of a version that has a hook id ends without
  // a call to GitHub and without a write, whatever is missing in that version.
  lemma RegisteredIsQuiet(cfg: Config, r: Reconciler, f: nat, script: Script)
    requires f in r.flights && r.flights[f].phase.Started?
    requires r.flights[f].base.status.hookID != ""
    requires WantsGitHub(r.flights[f].base, script.answers.supports)
    ensures Run(cfg, r, Handling(f, script)) == r.(flights := r.flights - {f})
  {
    var base := r.flights[f].base;
    ProviderChosen(base, script.answers.supports);
    assert StartReconcile(cfg, base, script.answers) == Start(Returned(base, None, None), None);
    HandlingRun(cfg, r, f, script);
    var settled := Advance(r, f, Returned(base, None, None));
    assert settled.flights - {f} == r.flights - {f};
  }

  // ---------- Rewriting without end ----------

  // A watcher on GitHub whose hook gets created without an id, or not at all.
  function StuckScript(i: nat, unnamed: bool): Script {
    Script(
      StartAnswers(Found, Found, Itoa(i), if unnamed then CreatedUnnamed(i) else Refused("refused"), Found, Ok([])),
      Ok(None), ApplyAnswer(true, None), "now", true)
  }

  function StuckRounds(first: Action, k: Key, n: nat, unnamed: bool): seq<Action> {
    if n == 0 then [first] + []
    else StuckRounds(first, k, n - 1, unnamed) + Round(k, n - 1, 0, StuckScript(n - 1, unnamed))
  }

  ghost predicate CanBeStuck(cfg: Config, spec: WatcherSpec) {
    && (NamesGitHub(spec.provider) || "https://github.com" <= spec.repositoryURL)
    && spec.githubWebhookToken != "" && cfg.parsePath(spec.repositoryURL).Some?
  }

  ghost predicate Stuck(r: Reconciler, k: Key, spec: WatcherSpec, i: nat, author: Author) {
    && r.flights == map[] && r.cached.Keys <= {k} && r.revisions.Keys == {k}
    && HistoriesOK(r)
    && |r.revisions[k]| == i + 1
    && Last(r.revisions[k]).spec == spec
    && Last(r.revisions[k]).status.hookID == ""
    && (forall j :: 0 <= j <= i ==> r.revisions[k][j].obj.status.token == if j == 0 then "" else Itoa(j - 1))
    && CountBy(r.revisions[k], author) == i
    && forall h :: h in r.hooks ==> h < i
  }

  lemma {:induction false} RunAppend(cfg: Config, r: Reconciler, a: seq<Action>, b: seq<Action>)
    ensures Run(cfg, r, a + b) == Run(cfg, Run(cfg, r, a), b)
    decreases |a|
  {
    if |a| == 0 {
      assert a + b == b;
    } else {
      assert (a + b)[1..] == a[1..] + b;
      RunAppend(cfg, Step(cfg, r, a[0]), a[1..], b);
    }
  }

  lemma StuckSettles(cfg: Config, o: Watcher, i: nat, unnamed: bool)
    requires CanBeStuck(cfg, o.spec) && o.status.hookID == ""
    ensures var entry := StartReconcile(cfg, o, StuckScript(i, unnamed).answers).entry;
      var phase := Settled(cfg, o, StuckScript(i, unnamed));
      && (entry.Some? <==> unnamed)
      && (entry.Some? ==> entry.value.0 == i)
      && (phase.err.None? <==> unnamed)
      && phase.obj == WithToken(o, Itoa(i))
  {
    ProviderChosen(o, Found);
  }

  lemma AddToHistory(r: Reconciler, r': Reconciler, k: Key, rev: Revision)
    requires HistoriesOK(r) && k in r.revisions
    requires r'.revisions == r.revisions[k := r.revisions[k] + [rev]]
    requires rev.obj.key == k && rev.obj.version == |r.revisions[k]| && rev.obj.uid == r.revisions[k][0].obj.uid
    requires r'.cached == r.cached[k := |r.revisions[k]| - 1]
    ensures HistoriesOK(r')
    ensures CountBy(r'.revisions[k], rev.author) == CountBy(r.revisions[k], rev.author) + 1
  {
    var s := r'.revisions[k];
    assert s[..|s| - 1] == r.revisions[k];
  }

  lemma StuckRound(cfg: Config, r: Reconciler, k: Key, spec: WatcherSpec, i: nat, unnamed: bool)
    requires CanBeStuck(cfg, spec) && Stuck(r, k, spec, i, if unnamed then Clean else Failing)
    ensures Stuck(Run(cfg, r, Round(k, i, 0, StuckScript(i, unnamed))), k, spec, i + 1,
                  if unnamed then Clean else Failing)
  {
    var base := Last(r.revisions[k]);
    var script := StuckScript(i, unnamed);
    StuckSettles(cfg, base, i, unnamed);
    if i > 0 && Itoa(i) == Itoa(i - 1) { ItoaInjective(i, i - 1); }
    RoundRun(cfg, r, k, 0, script);
    StuckNext(cfg, r, Run(cfg, r, Round(k, i, 0, script)), k, spec, i, unnamed);
  }

  lemma StuckNext(cfg: Config, r: Reconciler, r': Reconciler, k: Key, spec: WatcherSpec, i: nat, unnamed: bool)
    requires CanBeStuck(cfg, spec) && Stuck(r, k, spec, i, if unnamed then Clean else Failing)
    requires Last(r.revisions[k]).key == k && Wrote(cfg, r, r', Last(r.revisions[k]), StuckScript(i, unnamed))
    requires r'.flights == r.flights && r'.cached == r.cached[k := |r.revisions[k]| - 1]
    ensures Stuck(r', k, spec, i + 1, if unnamed then Clean else Failing)
  {
    var base := Last(r.revisions[k]);
    StuckSettles(cfg, base, i, unnamed);
    var phase := Settled(cfg, base, StuckScript(i, unnamed));
    var obj := NewObject(phase.obj, phase.err, "now").(version := i + 1);
    assert r'.revisions[k][i + 1] == Revision(obj, if unnamed then Clean else Failing);
    StuckMore(r, r', k, spec, i, Revision(obj, if unnamed then Clean else Failing));
  }

  lemma StuckMore(r: Reconciler, r': Reconciler, k: Key, spec: WatcherSpec, i: nat, rev: Revision)
    requires Stuck(r, k, spec, i, rev.author) && r'.revisions == r.revisions[k := r.revisions[k] + [rev]]
    requires rev.obj.key == k && rev.obj.version == i + 1 && rev.obj.uid == Last(r.revisions[k]).uid
    requires rev.obj.spec == spec && rev.obj.status.hookID == "" && rev.obj.status.token == Itoa(i)
    requires r'.flights == r.flights && r'.cached == r.cached[k := |r.revisions[k]| - 1]
    requires forall h :: h in r'.hooks ==> h in r.hooks || h == i
    ensures Stuck(r', k, spec, i + 1, rev.author)
  {
    assert HistoryOK(k, r.revisions[k]);
    AddToHistory(r, r', k, rev);
    var s := r'.revisions[k];
    forall j | 0 <= j <= i + 1 ensures s[j].obj.status.token == if j == 0 then "" else Itoa(j - 1) {
      if j <= i { assert s[j] == r.revisions[k][j]; }
    }
  }

  // There is no bound on how often a watcher is rewritten while GitHub refuses its
  // hook: each attempt stores a new token. Nor is there one on error-free writes
  // when GitHub's answers have no id.
  lemma {:induction false} StuckRun(cfg: Config, k: Key, uid: string, spec: WatcherSpec, n: nat, unnamed: bool)
    requires CanBeStuck(cfg, spec)
    ensures Stuck(Run(cfg, Init, StuckRounds(CreateWatcher(k, uid, spec), k, n, unnamed)),
                  k, spec, n, if unnamed then Clean else Failing)
  {
    var first := CreateWatcher(k, uid, spec);
    if n == 0 {
      StuckStart(cfg, k, uid, spec);
    } else {
      var before := StuckRounds(first, k, n - 1, unnamed);
      StuckRun(cfg, k, uid, spec, n - 1, unnamed);
      StuckRound(cfg, Run(cfg, Init, before), k, spec, n - 1, unnamed);
      RunAppend(cfg, Init, before, Round(k, n - 1, 0, StuckScript(n - 1, unnamed)));
    }
  }

  lemma StuckStart(cfg: Config, k: Key, uid: string, spec: WatcherSpec)
    ensures var r := Run(cfg, Init, [CreateWatcher(k, uid, spec)] + []);
      Stuck(r, k, spec, 0, Clean) && Stuck(r, k, spec, 0, Failing)
  {
    var first := [Revision(Watcher(k, uid, 0, spec, EmptyWatcherStatus), User)];
    RunCons(cfg, Init, CreateWatcher(k, uid, spec), []);
    assert first[..0] == [];
  }

  // No two versions of the history have the same token.
  ghost predicate TokensDiffer(s: seq<Revision>) {
    forall i, j :: 0 <= i < j < |s| ==> s[i].obj.status.token != s[j].obj.status.token
  }

  lemma StuckTokens(r: Reconciler, k: Key, spec: WatcherSpec, n: nat, author: Author)
    requires Stuck(r, k, spec, n, author)
    ensures TokensDiffer(r.revisions[k])
  {
    var s := r.revisions[k];
    forall i, j | 0 <= i < j < |s| ensures s[i].obj.status.token != s[j].obj.status.token {
      assert s[j].obj.status.token == Itoa(j - 1);
      if i == 0 {
        assert s[i].obj.status.token == "";
      } else {
        assert s[i].obj.status.token == Itoa(i - 1);
        if Itoa(i - 1) == Itoa(j - 1) { ItoaInjective(i - 1, j - 1); }
      }
    }
  }

  // ---------- Registration with other actions in between ----------

  // Some actions, and then this one.
  function Then(cfg: Config, r: Reconciler, gap: seq<Action>, a: Action): Reconciler {
    Step(cfg, Run(cfg, r, gap), a)
  }

  // The actions add no version of k and leave the reconcile f alone.
  ghost predicate Leaves(cfg: Config, r: Reconciler, gap: seq<Action>, k: Key, f: nat) {
    var r' := Run(cfg, r, gap);
    && k in r.revisions && k in r'.revisions && r'.revisions[k] == r.revisions[k]
    && (f in r'.flights <==> f in r.flights)
    && (f in r.flights ==> r'.flights[f] == r.flights[f])
  }

  // The version the cache catches up to, and what happens between the actions of a round.
  datatype Gaps = Gaps(
    version: nat, caughtUp: seq<Action>, ticked: seq<Action>, begun: seq<Action>,
    called: seq<Action>, fetched: seq<Action>, applied: seq<Action>)

  // The moments of such a round.
  function AfterBegin(cfg: Config, r: Reconciler, k: Key, f: nat, gaps: Gaps): Reconciler {
    Then(cfg, Then(cfg, Step(cfg, r, CatchUp(k, gaps.version)), gaps.caughtUp, Tick), gaps.ticked, Begin(f, k))
  }

  function AfterHook(cfg: Config, r: Reconciler, f: nat, gaps: Gaps, script: Script): Reconciler {
    Then(cfg, r, gaps.begun, Call(f, script.answers))
  }

  function AfterWrite(cfg: Config, r: Reconciler, f: nat, gaps: Gaps, script: Script): Reconciler {
    Then(cfg, Then(cfg, Then(cfg, r, gaps.called, Ref(f, script.ref)), gaps.fetched, Apply(f, script.applied)),
         gaps.applied, Write(f, script.now, script.accepted))
  }

  // Nothing in the gaps before Create disturbs the round, and k is still queued when
  // the worker looks.
  ghost predicate BeginsUndisturbed(cfg: Config, r: Reconciler, k: Key, f: nat, gaps: Gaps) {
    && k in r.revisions && |r.revisions[k]| > 0
    && var r1 := Step(cfg, r, CatchUp(k, gaps.version));
    && Leaves(cfg, r1, gaps.caughtUp, k, f)
    && var r2 := Then(cfg, r1, gaps.caughtUp, Tick);
    && Leaves(cfg, r2, gaps.ticked, k, f) && k in Run(cfg, r2, gaps.ticked).queue
  }

  // Nothing in the later gaps does.
  ghost predicate EndsUndisturbed(cfg: Config, r: Reconciler, k: Key, f: nat, gaps: Gaps, script: Script) {
    && Leaves(cfg, r, gaps.called, k, f)
    && var r1 := Then(cfg, r, gaps.called, Ref(f, script.ref));
    && Leaves(cfg, r1, gaps.fetched, k, f)
    && var r2 := Then(cfg, r1, gaps.fetched, Apply(f, script.applied));
    && Leaves(cfg, r2, gaps.applied, k, f)
  }

  lemma {:induction false} RunExtends(cfg: Config, r: Reconciler, actions: seq<Action>)
    ensures Extends(r, Run(cfg, r, actions))
    decreases |actions|
  {
    if |actions| > 0 {
      StepExtends(cfg, r, actions[0]);
      RunExtends(cfg, Step(cfg, r, actions[0]), actions[1..]);
    }
  }

  lemma StepKeepsCache(cfg: Config, r: Reconciler, a: Action, k: Key)
    requires k in r.cached && k in r.revisions && r.cached[k] == |r.revisions[k]| - 1
    requires k in Step(cfg, r, a).revisions && Step(cfg, r, a).revisions[k] == r.revisions[k]
    ensures k in Step(cfg, r, a).cached && Step(cfg, r, a).cached[k] == r.cached[k]
  {
  }

  // A cache that is up to date stays so while no version is added.
  lemma {:induction false} CacheStays(cfg: Config, r: Reconciler, gap: seq<Action>, k: Key)
    requires k in r.cached && k in r.revisions && r.cached[k] == |r.revisions[k]| - 1
    requires k in Run(cfg, r, gap).revisions && Run(cfg, r, gap).revisions[k] == r.revisions[k]
    ensures k in Run(cfg, r, gap).cached && Run(cfg, r, gap).cached[k] == r.cached[k]
    decreases |gap|
  {
    if |gap| > 0 {
      FirstStepSame(cfg, r, gap, k);
      StepKeepsCache(cfg, r, gap[0], k);
      CacheStays(cfg, Step(cfg, r, gap[0]), gap[1..], k);
    }
  }

  lemma FirstStepSame(cfg: Config, r: Reconciler, gap: seq<Action>, k: Key)
    requires |gap| > 0 && k in r.revisions
    requires k in Run(cfg, r, gap).revisions && Run(cfg, r, gap).revisions[k] == r.revisions[k]
    ensures var r1 := Step(cfg, r, gap[0]);
      && k in r1.revisions && r1.revisions[k] == r.revisions[k]
      && Run(cfg, r1, gap[1..]) == Run(cfg, r, gap)
  {
    var r1 := Step(cfg, r, gap[0]);
    StepExtends(cfg, r, gap[0]);
    RunExtends(cfg, r1, gap[1..]);
    assert r.revisions[k] <= r1.revisions[k] <= Run(cfg, r1, gap[1..]).revisions[k];
  }

  // The reconcile starts from the stored version.
  lemma BeginsFresh(cfg: Config, r: Reconciler, k: Key, f: nat, gaps: Gaps)
    requires HistoriesOK(r) && BeginsUndisturbed(cfg, r, k, f, gaps) && f !in r.flights
    requires gaps.version == |r.revisions[k]| - 1
    ensures var r' := AfterBegin(cfg, r, k, f, gaps);
      && k in r'.revisions && r'.revisions[k] == r.revisions[k]
      && f in r'.flights && r'.flights[f] == Flight(Last(r.revisions[k]), Started)
  {
    var r1 := Step(cfg, r, CatchUp(k, gaps.version));
    assert k in r1.cached && r1.cached[k] == gaps.version;
    var r2 := Then(cfg, r1, gaps.caughtUp, Tick);
    var r3 := Run(cfg, r2, gaps.ticked);
    CacheStays(cfg, r1, gaps.caughtUp, k);
    CacheStays(cfg, r2, gaps.ticked, k);
    assert r3.cached[k] == gaps.version;
  }

  lemma HookInGap(cfg: Config, r: Reconciler, k: Key, f: nat, gaps: Gaps, script: Script)
    requires f in r.flights && r.flights[f].phase.Started? && Leaves(cfg, r, gaps.begun, k, f)
    requires Registrable(cfg, r.flights[f].base, script.answers)
    requires script.answers.hook.id !in Run(cfg, r, gaps.begun).hooks
    ensures var r' := AfterHook(cfg, r, f, gaps, script); var base := r.flights[f].base;
      && k in r'.revisions && r'.revisions[k] == r.revisions[k] && f in r'.flights
      && r'.flights[f] == Flight(base, StartReconcile(cfg, base, script.answers).phase)
      && script.answers.hook.id in r'.hooks
  {
    SettledRegistration(cfg, r.flights[f].base, script);
  }

  // The rest of the reconcile, whatever else goes on.
  lemma WritesInGap(cfg: Config, r: Reconciler, k: Key, f: nat, gaps: Gaps, script: Script)
    requires f in r.flights && EndsUndisturbed(cfg, r, k, f, gaps, script) && script.accepted
    requires var Flight(base, phase) := r.flights[f];
      && base.key == k && base.version + 1 == |r.revisions[k]|
      && var settled := Settle(cfg, phase, script);
      settled.Returned? && NewObject(settled.obj, settled.err, script.now) != base
    ensures var r' := AfterWrite(cfg, r, f, gaps, script); var settled := Settle(cfg, r.flights[f].phase, script);
      && k in r'.revisions && |r'.revisions[k]| == |r.revisions[k]| + 1
      && Last(r'.revisions[k]) ==
           NewObject(settled.obj, settled.err, script.now).(version := |r.revisions[k]|)
  {
    var base := r.flights[f].base;
    var s := Run(cfg, r, gaps.called);
    RefStep(cfg, s, f, script.ref);
    var r1 := Then(cfg, r, gaps.called, Ref(f, script.ref));
    assert r1.flights[f] == Flight(base, AfterRef(cfg, r.flights[f].phase, script.ref));
    var s1 := Run(cfg, r1, gaps.fetched);
    ApplyStep(cfg, s1, f, script.applied);
    var r2 := Then(cfg, r1, gaps.fetched, Apply(f, script.applied));
    assert r2.flights[f] == Flight(base, Settle(cfg, r.flights[f].phase, script));
    WriteInGap(Run(cfg, r2, gaps.applied), k, f, script);
  }

  lemma WriteInGap(r: Reconciler, k: Key, f: nat, script: Script)
    requires f in r.flights && r.flights[f].phase.Returned? && script.accepted && k in r.revisions
    requires r.flights[f].base.key == k && r.flights[f].base.version + 1 == |r.revisions[k]|
    requires NewObject(r.flights[f].phase.obj, r.flights[f].phase.err, script.now) != r.flights[f].base
    ensures var r' := WriteBack(r, f, script.now, script.accepted); var phase := r.flights[f].phase;
      && k in r'.revisions && |r'.revisions[k]| == |r.revisions[k]| + 1
      && Last(r'.revisions[k]) == NewObject(phase.obj, phase.err, script.now).(version := |r.revisions[k]|)
  {
  }

  // The stored version can be registered, and nothing between the actions of the round
  // adds a version of k or touches this reconcile and its place in the queue.
  ghost predicate Undisturbed(cfg: Config, r: Reconciler, k: Key, f: nat, gaps: Gaps, script: Script) {
    && BeginsUndisturbed(cfg, r, k, f, gaps) && f !in r.flights && script.accepted
    && Registrable(cfg, Last(r.revisions[k]), script.answers)
    && gaps.version == |r.revisions[k]| - 1
    && var r1 := AfterBegin(cfg, r, k, f, gaps);
    && Leaves(cfg, r1, gaps.begun, k, f) && script.answers.hook.id !in Run(cfg, r1, gaps.begun).hooks
    && EndsUndisturbed(cfg, AfterHook(cfg, r1, f, gaps, script), k, f, gaps, script)
  }

  // A round registers the watcher whatever happens between its actions, as long as that
  // adds no version of k and leaves this reconcile and its place in the queue alone.
  lemma InterleavedRegisters(cfg: Config, r: Reconciler, k: Key, f: nat, gaps: Gaps, script: Script)
    requires HistoriesOK(r) && Undisturbed(cfg, r, k, f, gaps, script)
    ensures var r' := Run(cfg, r, Interleaved(k, f, gaps, script));
      && k in r'.revisions && |r'.revisions[k]| == |r.revisions[k]| + 1
      && RegisteredBy(cfg, Last(r.revisions[k]), Last(r'.revisions[k]).status, script)
  {
    var base := Last(r.revisions[k]);
    var r1 := AfterBegin(cfg, r, k, f, gaps);
    BeginsFresh(cfg, r, k, f, gaps);
    HookInGap(cfg, r1, k, f, gaps, script);
    SettledRegistration(cfg, base, script);
    WritesInGap(cfg, AfterHook(cfg, r1, f, gaps, script), k, f, gaps, script);
    InterleavedRun(cfg, r, k, f, gaps, script);
  }

  // The round with the gaps in it.
  function Interleaved(k: Key, f: nat, gaps: Gaps, script: Script): seq<Action> {
    [] + [CatchUp(k, gaps.version)] + gaps.caughtUp + [Tick] + gaps.ticked + [Begin(f, k)] +
    gaps.begun + [Call(f, script.answers)] + gaps.called + [Ref(f, script.ref)] +
    gaps.fetched + [Apply(f, script.applied)] + gaps.applied + [Write(f, script.now, script.accepted)]
  }

  lemma RunThen(cfg: Config, r: Reconciler, before: seq<Action>, gap: seq<Action>, a: Action)
    ensures Run(cfg, r, before + gap + [a]) == Then(cfg, Run(cfg, r, before), gap, a)
  {
    RunAppend(cfg, r, before + gap, [a]);
    RunAppend(cfg, r, before, gap);
    assert [a] == [a] + [];
    RunCons(cfg, Run(cfg, Run(cfg, r, before), gap), a, []);
  }

  lemma InterleavedRun(cfg: Config, r: Reconciler, k: Key, f: nat, gaps: Gaps, script: Script)
    ensures Run(cfg, r, Interleaved(k, f, gaps, script)) ==
      AfterWrite(cfg, AfterHook(cfg, AfterBegin(cfg, r, k, f, gaps), f, gaps, script), f, gaps, script)
  {
    var a0: seq<Action> := [] + [CatchUp(k, gaps.version)];
    var a1 := a0 + gaps.caughtUp + [Tick];
    var a2 := a1 + gaps.ticked + [Begin(f, k)];
    var a3 := a2 + gaps.begun + [Call(f, script.answers)];
    var a4 := a3 + gaps.called + [Ref(f, script.ref)];
    var a5 := a4 + gaps.fetched + [Apply(f, script.applied)];
    assert a0 == [CatchUp(k, gaps.version)] + [];
    RunCons(cfg, r, CatchUp(k, gaps.version), []);
    RunThen(cfg, r, a0, gaps.caughtUp, Tick);
    RunThen(cfg, r, a1, gaps.ticked, Begin(f, k));
    RunThen(cfg, r, a2, gaps.begun, Call(f, script.answers));
    RunThen(cfg, r, a3, gaps.called, Ref(f, script.ref));
    RunThen(cfg, r, a4, gaps.fetched, Apply(f, script.applied));
    RunThen(cfg, r, a5, gaps.applied, Write(f, script.now, script.accepted));
  }
}
