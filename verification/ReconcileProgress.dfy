// How far reconciles move a watcher: what each error-free Update achieves, how a
// watcher gets registered, and what keeps being rewritten.
module ReconcileProgress {
  import opened Types
  import opened Text
  import opened Reconcile
  import opened Protocol
  import opened ProtocolInvariants

  // ---------- The measure ----------

  // What a watcher still lacks.
  function Lacking(o: Watcher): nat {
    (if o.status.hookID == "" then 1 else 0) + (if o.status.firstCommit == "" then 1 else 0)
  }

  function CountBy(s: seq<Revision>, author: Author): nat {
    if |s| == 0 then 0
    else CountBy(s[..|s| - 1], author) + (if s[|s| - 1].author == author then 1 else 0)
  }

  // Every version written by an error-free reconcile lacks less than the one before.
  ghost predicate CleanWritesProgress(s: seq<Revision>) {
    forall i :: 0 < i < |s| && s[i].author == Clean ==> Lacking(s[i].obj) < Lacking(s[i - 1].obj)
  }

  ghost predicate Progress(r: Reconciler) {
    && (forall k :: k in r.revisions && !SawUnnamed(r, k) ==> CleanWritesProgress(r.revisions[k]))
    && (forall k :: k in r.revisions && |r.revisions[k]| > 0 ==> r.revisions[k][0].author == User)
  }

  // An error-free reconcile either changes nothing or fills in what was missing.
  lemma CleanReturnProgress(r: Reconciler, base: Watcher, phase: Phase)
    requires phase.Returned? && phase.err.None? && PhaseOK(r, base, phase) && !SawUnnamed(r, base.key)
    ensures phase.obj == base || Lacking(phase.obj) < Lacking(base)
  {
  }

  lemma ProgressKept(r: Reconciler, r': Reconciler, k: Key)
    requires HistoriesOK(r) && Progress(r) && GrowsAt(r, r', k) && r'.hooks == r.hooks
    requires k in r'.revisions && (k !in r.revisions || r'.revisions[k] != r.revisions[k]) ==>
      |r'.revisions[k]| > 0 &&
      var rev := r'.revisions[k][|r'.revisions[k]| - 1];
      if k !in r.revisions then rev.author == User
      else rev.author == Clean && !SawUnnamed(r, k) ==> Lacking(rev.obj) < Lacking(Last(r.revisions[k]))
    ensures Progress(r')
  {
    UnnamedSame(r, r');
    if k in r.revisions {
      var s, t := r.revisions[k], r'.revisions[k];
      assert forall i :: 0 <= i < |s| ==> t[i] == s[i];
    }
  }

  lemma WriteMakesProgress(r: Reconciler, f: nat, now: string, accepted: bool)
    requires Sound(r) && Progress(r) && f in r.flights && r.flights[f].phase.Returned?
    ensures Progress(WriteBack(r, f, now, accepted))
  {
    var r' := WriteBack(r, f, now, accepted);
    var Flight(base, phase) := r.flights[f];
    WriteGrows(r, f, now, accepted);
    if phase.err.None? && !SawUnnamed(r, base.key) {
      CleanReturnProgress(r, base, phase);
    }
    ProgressKept(r, r', base.key);
  }

  lemma UnnamedSame(r: Reconciler, r': Reconciler)
    requires r'.hooks == r.hooks
    ensures forall k :: SawUnnamed(r', k) <==> SawUnnamed(r, k)
  {
  }

  lemma StepKeepsProgress(cfg: Config, r: Reconciler, a: Action)
    requires Sound(r) && Progress(r)
    ensures Progress(Step(cfg, r, a))
  {
    var r' := Step(cfg, r, a);
    if a.Write? {
      if a.f in r.flights && r.flights[a.f].phase.Returned? { WriteMakesProgress(r, a.f, a.now, a.accepted); }
    } else if a.CreateWatcher? {
      CreateGrows(cfg, r, a);
      ProgressKept(r, r', a.k);
    } else if a.EditSpec? {
      if a.k in r.revisions {
        EditGrows(r, a.k, a.spec);
        ProgressKept(r, r', a.k);
      }
    } else {
      QuietStep(cfg, r, a);
      StepExtends(cfg, r, a);
      forall k ensures SawUnnamed(r, k) ==> SawUnnamed(r', k) { SawUnnamedKept(r, r', k); }
    }
  }

  // Versions never lack more than earlier ones, so few of them can lack less.
  lemma {:induction false} CleanWritesCounted(s: seq<Revision>)
    requires |s| > 0 && WriteOnce(s) && CleanWritesProgress(s) && s[0].author == User
    ensures CountBy(s, Clean) + Lacking(Last(s)) <= 2
  {
    if |s| == 1 {
      assert CountBy(s[..0], Clean) == 0;
    } else {
      var t := s[..|s| - 1];
      assert forall i, j :: 0 <= i <= j < |t| ==> Keeps(s[i].obj.status, s[j].obj.status);
      CleanWritesCounted(t);
      assert Keeps(s[|s| - 2].obj.status, s[|s| - 1].obj.status);
    }
  }

  // ---------- onChange run by itself ----------

  // The answers that one reconcile gets from the outside.
  datatype Script = Script(
    answers: StartAnswers, ref: Result<Option<string>>, applied: ApplyAnswer, now: string, accepted: bool)

  // The steps of one onChange, with nothing in between.
  function Handling(f: nat, script: Script): seq<Action> {
    [Call(f, script.answers)] + AfterCall(f, script)
  }

  function AfterCall(f: nat, script: Script): seq<Action> {
    [Ref(f, script.ref)] + ([Apply(f, script.applied)] + [Write(f, script.now, script.accepted)])
  }

  lemma RunCons(cfg: Config, r: Reconciler, a: Action, rest: seq<Action>)
    ensures Run(cfg, r, [a] + rest) == Run(cfg, Step(cfg, r, a), rest)
  {
    assert ([a] + rest)[1..] == rest;
  }

  // Where a Create that got past its first call ends up.
  function AfterRef(cfg: Config, p: Phase, ref: Result<Option<string>>): Phase {
    if p.Hooked? then FetchRef(cfg, p.obj, p.hook, ref) else p
  }

  function AfterApplied(p: Phase, applied: ApplyAnswer): Phase {
    if p.Fetched? then AfterApply(p.obj, p.hook, p.commit, p.source, applied) else p
  }

  function Settle(cfg: Config, phase: Phase, script: Script): Phase {
    AfterApplied(AfterRef(cfg, phase, script.ref), script.applied)
  }

  function Settled(cfg: Config, o: Watcher, script: Script): (phase: Phase)
    ensures phase.Returned?
  {
    Settle(cfg, StartReconcile(cfg, o, script.answers).phase, script)
  }

  lemma SamePhase(r: Reconciler, f: nat)
    requires f in r.flights
    ensures Advance(r, f, r.flights[f].phase) == r
  {
    assert r.flights[f := r.flights[f]] == r.flights;
  }

  lemma RefStep(cfg: Config, r: Reconciler, f: nat, ref: Result<Option<string>>)
    requires f in r.flights
    ensures Step(cfg, r, Ref(f, ref)) == Advance(r, f, AfterRef(cfg, r.flights[f].phase, ref))
  {
    SamePhase(r, f);
  }

  lemma ApplyStep(cfg: Config, r: Reconciler, f: nat, applied: ApplyAnswer)
    requires f in r.flights
    ensures Step(cfg, r, Apply(f, applied)) == Advance(r, f, AfterApplied(r.flights[f].phase, applied))
  {
    SamePhase(r, f);
  }

  lemma AfterCallRun(cfg: Config, r: Reconciler, f: nat, script: Script)
    requires f in r.flights && Settle(cfg, r.flights[f].phase, script).Returned?
    ensures var settled := Advance(r, f, Settle(cfg, r.flights[f].phase, script));
      && settled.flights[f].phase.Returned?
      && Run(cfg, r, AfterCall(f, script)) == WriteBack(settled, f, script.now, script.accepted)
  {
    var r1 := Advance(r, f, AfterRef(cfg, r.flights[f].phase, script.ref));
    var r2 := Advance(r1, f, Settle(cfg, r.flights[f].phase, script));
    var write := [Write(f, script.now, script.accepted)];
    RunCons(cfg, r, Ref(f, script.ref), [Apply(f, script.applied)] + write);
    RefStep(cfg, r, f, script.ref);
    RunCons(cfg, r1, Apply(f, script.applied), write);
    ApplyStep(cfg, r1, f, script.applied);
    assert write == write + [];
    RunCons(cfg, r2, Write(f, script.now, script.accepted), []);
    assert r2 == Advance(r, f, Settle(cfg, r.flights[f].phase, script));
  }

  // It starts, settles and writes.
  lemma HandlingRun(cfg: Config, r: Reconciler, f: nat, script: Script)
    requires f in r.flights && r.flights[f].phase.Started?
    requires var s := StartReconcile(cfg, r.flights[f].base, script.answers);
      s.entry.Some? ==> s.entry.value.0 !in r.hooks
    ensures var base := r.flights[f].base; var s := StartReconcile(cfg, base, script.answers);
      var settled := Advance(StartCall(r, f, s), f, Settled(cfg, base, script));
      Run(cfg, r, Handling(f, script)) == WriteBack(settled, f, script.now, script.accepted)
  {
    var s := StartReconcile(cfg, r.flights[f].base, script.answers);
    RunCons(cfg, r, Call(f, script.answers), AfterCall(f, script));
    assert StartCall(r, f, s).flights[f].phase == s.phase;
    assert Settle(cfg, s.phase, script) == Settled(cfg, r.flights[f].base, script);
    AfterCallRun(cfg, StartCall(r, f, s), f, script);
  }
}
