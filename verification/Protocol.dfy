// The reconcile protocol as a state machine. Any number of reconciles of any
// number of watchers are under way at once; each holds the copy it read from a
// cache that may be behind, and stops between its outside calls. A step is one
// atomic action of the code, of GitHub, of a user or of the cache; an action
// whose moment has not come leaves the state as it is, so every sequence of
// actions is a run.
module Protocol {
  import opened Types
  import opened Reconcile

  // Who wrote a revision: a user, a reconcile without error, or one with an error.
  datatype Author = User | Clean | Failing

  datatype Revision = Revision(obj: Watcher, author: Author)

  datatype Flight = Flight(base: Watcher, phase: Phase)

  datatype Reconciler = Reconciler(
    revisions: map<Key, seq<Revision>>,  // API server: all versions, the last one stored
    cached: map<Key, nat>,               // the version the informer cache holds
    queue: set<Key>,                     // the controller's work queue
    flights: map<nat, Flight>,           // reconciles under way
    hooks: map<nat, Hook>,               // GitHub's hooks
    lost: set<nat>)                      // hooks whose reconcile ended without storing them

  const Init := Reconciler(map[], map[], {}, map[], map[], {})

  datatype Action =
    | CreateWatcher(k: Key, uid: string, spec: WatcherSpec)
    | EditSpec(k: Key, spec: WatcherSpec)
    | CatchUp(k: Key, version: nat)
    | Tick
    | Requeue(k: Key)
    | Begin(f: nat, k: Key)
    | Call(f: nat, answers: StartAnswers)
    | Ref(f: nat, ref: Result<Option<string>>)
    | Apply(f: nat, applied: ApplyAnswer)
    | Write(f: nat, now: string, accepted: bool)
    | Crash(f: nat)

  function Last(s: seq<Revision>): Watcher
    requires |s| > 0
  {
    s[|s| - 1].obj
  }

  function HookOf(phase: Phase): Option<nat> {
    if phase.Started? then None else phase.hook
  }

  function HookSet(hook: Option<nat>): set<nat> {
    if hook.Some? then {hook.value} else {}
  }

  // The watchers the timer enqueues: those cached without a hook id.
  function Unregistered(r: Reconciler): set<Key> {
    set k | k in r.cached && k in r.revisions && r.cached[k] < |r.revisions[k]| &&
            r.revisions[k][r.cached[k]].obj.status.hookID == ""
  }

  function Step(cfg: Config, r: Reconciler, a: Action): Reconciler {
    match a
    case CreateWatcher(k, uid, spec) => OnCreate(r, k, uid, spec)
    case EditSpec(k, spec) => OnEdit(r, k, spec)
    case CatchUp(k, version) => OnCatchUp(r, k, version)
    case Tick => r.(queue := r.queue + Unregistered(r))
    case Requeue(k) => r.(queue := r.queue + {k})
    case Begin(f, k) => OnBegin(r, f, k)
    case Call(f, answers) => OnCall(cfg, r, f, answers)
    case Ref(f, ref) => OnRef(cfg, r, f, ref)
    case Apply(f, applied) => OnApply(r, f, applied)
    case Write(f, now, accepted) => OnWrite(r, f, now, accepted)
    case Crash(f) => OnCrash(r, f)
  }

  function OnCreate(r: Reconciler, k: Key, uid: string, spec: WatcherSpec): Reconciler {
    if k in r.revisions then r
    else r.(revisions := r.revisions[k := [Revision(Watcher(k, uid, 0, spec, EmptyWatcherStatus), User)]])
  }

  function OnEdit(r: Reconciler, k: Key, spec: WatcherSpec): Reconciler {
    if k !in r.revisions then r else EditWatcher(r, k, spec)
  }

  function OnCatchUp(r: Reconciler, k: Key, version: nat): Reconciler {
    if k !in r.revisions || version >= |r.revisions[k]| || (k in r.cached && version <= r.cached[k]) then r
    else r.(cached := r.cached[k := version], queue := r.queue + {k})
  }

  function OnBegin(r: Reconciler, f: nat, k: Key): Reconciler {
    if k !in r.queue || f in r.flights then r else BeginReconcile(r, f, k)
  }

  function OnCall(cfg: Config, r: Reconciler, f: nat, answers: StartAnswers): Reconciler {
    if f !in r.flights || !r.flights[f].phase.Started? then r
    else StartCall(r, f, StartReconcile(cfg, r.flights[f].base, answers))
  }

  function OnRef(cfg: Config, r: Reconciler, f: nat, ref: Result<Option<string>>): Reconciler {
    if f !in r.flights || !r.flights[f].phase.Hooked? then r
    else
      var p := r.flights[f].phase;
      Advance(r, f, FetchRef(cfg, p.obj, p.hook, ref))
  }

  function OnApply(r: Reconciler, f: nat, applied: ApplyAnswer): Reconciler {
    if f !in r.flights || !r.flights[f].phase.Fetched? then r
    else
      var p := r.flights[f].phase;
      Advance(r, f, AfterApply(p.obj, p.hook, p.commit, p.source, applied))
  }

  function OnWrite(r: Reconciler, f: nat, now: string, accepted: bool): Reconciler {
    if f !in r.flights || !r.flights[f].phase.Returned? then r
    else WriteBack(r, f, now, accepted)
  }

  function OnCrash(r: Reconciler, f: nat): Reconciler {
    if f !in r.flights then r
    else r.(flights := r.flights - {f}, lost := r.lost + HookSet(HookOf(r.flights[f].phase)))
  }

  function AddRevision(r: Reconciler, k: Key, obj: Watcher, author: Author): Reconciler
    requires k in r.revisions
  {
    var s := r.revisions[k];
    r.(revisions := r.revisions[k := s + [Revision(obj.(version := |s|), author)]])
  }

  function EditWatcher(r: Reconciler, k: Key, spec: WatcherSpec): Reconciler
    requires k in r.revisions
  {
    if |r.revisions[k]| == 0 then r
    else AddRevision(r, k, Last(r.revisions[k]).(spec := spec), User)
  }

  // A worker takes a key from the queue and looks the object up in the cache;
  // when the cache does not have it, onChange gets nil and does nothing.
  function BeginReconcile(r: Reconciler, f: nat, k: Key): Reconciler {
    var r1 := r.(queue := r.queue - {k});
    if k in r.cached && k in r.revisions && r.cached[k] < |r.revisions[k]| then
      r1.(flights := r.flights[f := Flight(r.revisions[k][r.cached[k]].obj, Started)])
    else r1
  }

  function Advance(r: Reconciler, f: nat, phase: Phase): Reconciler
    requires f in r.flights
  {
    r.(flights := r.flights[f := r.flights[f].(phase := phase)])
  }

  // GitHub gives a new hook an id that it has not used.
  function StartCall(r: Reconciler, f: nat, s: Start): Reconciler
    requires f in r.flights
  {
    match s.entry
    case None => Advance(r, f, s.phase)
    case Some((id, hook)) =>
      if id in r.hooks then r
      else Advance(r, f, s.phase).(hooks := r.hooks[id := hook])
  }

  // onChange after Create: no write when nothing changed; otherwise an Update
  // that the API server takes only on the version the reconcile read, and that
  // may fail for other reasons.
  function WriteBack(r: Reconciler, f: nat, now: string, accepted: bool): Reconciler
    requires f in r.flights && r.flights[f].phase.Returned?
  {
    var Flight(base, phase) := r.flights[f];
    var obj := NewObject(phase.obj, phase.err, now);
    var done := r.(flights := r.flights - {f});
    if obj == base then done
    else if accepted && base.key in r.revisions && base.version + 1 == |r.revisions[base.key]| then
      AddRevision(done, base.key, obj, if phase.err.None? then Clean else Failing)
    else done.(lost := r.lost + HookSet(phase.hook))
  }

  // The GitCommit an action puts into the cluster, if any.
  function AppliedCommit(cfg: Config, r: Reconciler, a: Action): Option<GitCommit> {
    if a.Apply? && a.f in r.flights && r.flights[a.f].phase.Fetched? && a.applied.Landed() then
      var p := r.flights[a.f].phase;
      Some(DesiredCommit(cfg, p.obj, p.commit))
    else None
  }

  function Run(cfg: Config, r: Reconciler, actions: seq<Action>): Reconciler
    decreases |actions|
  {
    if |actions| == 0 then r
    else Run(cfg, Step(cfg, r, actions[0]), actions[1..])
  }
}
