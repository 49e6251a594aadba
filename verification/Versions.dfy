// Where the versions of a watcher come from, and what their conditions say.
module Versions {
  import opened Types
  import opened Reconcile
  import opened ReconcileLaws
  import opened Protocol
  import opened ProtocolInvariants

  // rev is the version of k that an action adds.
  ghost predicate Adds(r: Reconciler, a: Action, k: Key, rev: Revision) {
    match a
    case CreateWatcher(k', uid, spec) =>
      k == k' && k !in r.revisions && rev == Revision(Watcher(k, uid, 0, spec, EmptyWatcherStatus), User)
    case EditSpec(k', spec) =>
      && k == k' && k in r.revisions && |r.revisions[k]| > 0
      && rev == Revision(Last(r.revisions[k]).(spec := spec, version := |r.revisions[k]|), User)
    case Write(f, now, _) =>
      && f in r.flights && r.flights[f].phase.Returned? && r.flights[f].base.key == k
      && k in r.revisions && |r.revisions[k]| > 0 && Last(r.revisions[k]) == r.flights[f].base
      && var phase := r.flights[f].phase;
      rev == Revision(NewObject(phase.obj, phase.err, now).(version := |r.revisions[k]|),
                      if phase.err.None? then Clean else Failing)
    case _ => false
  }

  // A step adds at most one version to a history, at its end.
  lemma VersionAdded(cfg: Config, r: Reconciler, a: Action, k: Key, i: nat)
    requires Sound(r)
    requires var r' := Step(cfg, r, a);
      k in r'.revisions && i < |r'.revisions[k]| && !(k in r.revisions && i < |r.revisions[k]|)
    ensures Adds(r, a, k, Step(cfg, r, a).revisions[k][i])
    ensures i == if k in r.revisions then |r.revisions[k]| else 0
  {
    if a.CreateWatcher? {
      CreateGrows(cfg, r, a);
    } else if a.EditSpec? {
      if a.k in r.revisions { EditGrows(r, a.k, a.spec); }
    } else if a.Write? {
      WriteAdds(r, a, k, i);
    } else {
      QuietStep(cfg, r, a);
    }
  }

  lemma WriteAdds(r: Reconciler, a: Action, k: Key, i: nat)
    requires Sound(r) && a.Write?
    requires var r' := OnWrite(r, a.f, a.now, a.accepted);
      k in r'.revisions && i < |r'.revisions[k]| && !(k in r.revisions && i < |r.revisions[k]|)
    ensures Adds(r, a, k, OnWrite(r, a.f, a.now, a.accepted).revisions[k][i])
    ensures i == if k in r.revisions then |r.revisions[k]| else 0
  {
    assert a.f in r.flights && r.flights[a.f].phase.Returned?;
    var base := r.flights[a.f].base;
    assert Stored(r, base) && PhaseOK(r, base, r.flights[a.f].phase);
    WriteGrows(r, a.f, a.now, a.accepted);
    assert k == base.key && i == |r.revisions[k]|;
  }

  // ---------- Conditions ----------

  // A version written after an error says so in its Registered condition, and its other
  // conditions are those of the version before; every other version has all the
  // conditions of the one before.
  ghost predicate SaysErrors(s: seq<Revision>, i: nat)
    requires i < |s|
  {
    var conditions := s[i].obj.status.conditions;
    var before := if i == 0 then [] else s[i - 1].obj.status.conditions;
    if s[i].author == Failing then
      && (exists err :: SaysFailed(conditions, "Registered", err))
      && |before| <= |conditions|
      && forall j :: 0 <= j < |before| && before[j].kind != "Registered" ==> conditions[j] == before[j]
    else conditions == before
  }

  ghost predicate ErrorsSaid(r: Reconciler) {
    forall k, i :: k in r.revisions && 0 <= i < |r.revisions[k]| ==> SaysErrors(r.revisions[k], i)
  }

  lemma AddedSays(cfg: Config, r: Reconciler, a: Action, k: Key, i: nat)
    requires Sound(r)
    requires var r' := Step(cfg, r, a);
      k in r'.revisions && i < |r'.revisions[k]| && !(k in r.revisions && i < |r.revisions[k]|)
    ensures SaysErrors(Step(cfg, r, a).revisions[k], i)
  {
    var s := Step(cfg, r, a).revisions[k];
    VersionAdded(cfg, r, a, k, i);
    StepExtends(cfg, r, a);
    if k in r.revisions {
      assert HistoryOK(k, r.revisions[k]) && s[i - 1] == r.revisions[k][i - 1];
    }
    if a.Write? {
      var base, phase := r.flights[a.f].base, r.flights[a.f].phase;
      assert PhaseOK(r, base, phase);
      WrittenObject(r, base, phase, a.now);
      if phase.err.Some? { ErrorIsSaid(base.status.conditions, "Registered", phase.err.value, a.now); }
    }
  }

  lemma StepKeepsSaid(cfg: Config, r: Reconciler, a: Action)
    requires Sound(r) && ErrorsSaid(r)
    ensures ErrorsSaid(Step(cfg, r, a))
  {
    var r' := Step(cfg, r, a);
    StepExtends(cfg, r, a);
    forall k, i | k in r'.revisions && 0 <= i < |r'.revisions[k]| ensures SaysErrors(r'.revisions[k], i) {
      if k in r.revisions && i < |r.revisions[k]| {
        assert SaysErrors(r.revisions[k], i);
        assert forall j :: 0 <= j <= i ==> r'.revisions[k][j] == r.revisions[k][j];
      } else {
        AddedSays(cfg, r, a, k, i);
      }
    }
  }
}
