// What GitHub's hooks are made of, in every run.
module HookContents {
  import opened Types
  import opened Reconcile
  import opened ReconcileLaws
  import opened Protocol
  import opened ProtocolInvariants

  // The hook was made for its watcher as some stored version has it.
  ghost predicate Made(cfg: Config, r: Reconciler, hook: Hook) {
    && hook.watcher in r.revisions
    && exists i :: 0 <= i < |r.revisions[hook.watcher]| && MadeFor(cfg, r.revisions[hook.watcher][i].obj, hook)
  }

  ghost predicate AllMade(cfg: Config, r: Reconciler) {
    forall h :: h in r.hooks ==> Made(cfg, r, r.hooks[h])
  }

  lemma MadeKept(cfg: Config, r: Reconciler, r': Reconciler, hook: Hook)
    requires Extends(r, r') && Made(cfg, r, hook)
    ensures Made(cfg, r', hook)
  {
    var i :| 0 <= i < |r.revisions[hook.watcher]| && MadeFor(cfg, r.revisions[hook.watcher][i].obj, hook);
    assert r'.revisions[hook.watcher][i] == r.revisions[hook.watcher][i];
  }

  // The hook that a call of GitHub brings.
  lemma CallMakes(cfg: Config, r: Reconciler, f: nat, answers: StartAnswers)
    requires FlightsOK(r) && AllMade(cfg, r)
    ensures AllMade(cfg, OnCall(cfg, r, f, answers))
  {
    var r' := OnCall(cfg, r, f, answers);
    CallExtends(cfg, r, f, answers);
    if f in r.flights && r.flights[f].phase.Started? {
      var base := r.flights[f].base;
      HookRequested(cfg, base, answers);
      var entry := StartReconcile(cfg, base, answers).entry;
      forall h | h in r'.hooks ensures Made(cfg, r', r'.hooks[h]) {
        if h in r.hooks {
          MadeKept(cfg, r, r', r.hooks[h]);
        } else {
          assert Stored(r, base) && r'.revisions == r.revisions;
          assert MadeFor(cfg, r'.revisions[base.key][base.version].obj, r'.hooks[h]);
        }
      }
    }
  }

  lemma OtherStepsMakeNone(cfg: Config, r: Reconciler, a: Action)
    requires !a.Call?
    ensures Step(cfg, r, a).hooks == r.hooks
  {
  }

  lemma StepKeepsMade(cfg: Config, r: Reconciler, a: Action)
    requires FlightsOK(r) && AllMade(cfg, r)
    ensures AllMade(cfg, Step(cfg, r, a))
  {
    if a.Call? {
      CallMakes(cfg, r, a.f, a.answers);
    } else {
      var r' := Step(cfg, r, a);
      OtherStepsMakeNone(cfg, r, a);
      StepExtends(cfg, r, a);
      forall h | h in r'.hooks ensures Made(cfg, r', r'.hooks[h]) {
        MadeKept(cfg, r, r', r.hooks[h]);
      }
    }
  }
}
