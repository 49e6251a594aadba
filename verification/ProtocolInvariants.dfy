// What every step of the reconcile protocol keeps.
module ProtocolInvariants {
  import opened Types
  import opened Text
  import opened Format
  import opened Endpoint
  import opened Reconcile
  import opened Protocol

  // ---------- The invariant ----------

  // A history is numbered from 0, and all its versions are one watcher.
  ghost predicate HistoryOK(k: Key, s: seq<Revision>) {
    && |s| > 0
    && forall i :: 0 <= i < |s| ==>
      s[i].obj.key == k && s[i].obj.version == i && s[i].obj.uid == s[0].obj.uid
  }

  ghost predicate HistoriesOK(r: Reconciler) {
    && (forall k :: k in r.revisions ==> HistoryOK(k, r.revisions[k]))
    && (forall k :: k in r.cached ==> k in r.revisions && r.cached[k] < |r.revisions[k]|)
  }

  // o is a version of its watcher that was stored at some time.
  ghost predicate Stored(r: Reconciler, o: Watcher) {
    && o.key in r.revisions
    && o.version < |r.revisions[o.key]|
    && r.revisions[o.key][o.version].obj == o
  }

  // Some successful answer to a CreateHook for k had no id.
  ghost predicate SawUnnamed(r: Reconciler, k: Key) {
    exists h :: h in r.hooks && r.hooks[h].watcher == k && r.hooks[h].report == Unnamed
  }

  // The hook a status names: GitHub has it, made for this watcher, with the
  // stored token as its secret and an address that names the watcher.
  ghost predicate NamesHook(r: Reconciler, k: Key, status: WatcherStatus) {
    var h := Atoi(status.hookID);
    && h in r.hooks
    && status.hookID == Itoa(h)
    && r.hooks[h].report == Named
    && r.hooks[h].watcher == k
    && r.hooks[h].secret == status.token
    && exists base :: r.hooks[h].url == HookURL(base, k)
  }

  // A provider changes nothing but the status, and within it only what was empty.
  ghost predicate Refines(base: Watcher, o: Watcher) {
    && o == base.(status := o.status)
    && o.status.conditions == base.status.conditions
    && (base.status.hookID != "" ==> o.status.hookID == base.status.hookID && o.status.token == base.status.token)
    && (base.status.firstCommit != "" ==> o.status.firstCommit == base.status.firstCommit)
  }

  // The id createHook got, and the working copy that carries it.
  ghost predicate HookHeld(r: Reconciler, base: Watcher, o: Watcher, hook: Option<nat>) {
    match hook
    case None => o.status.hookID == base.status.hookID
    case Some(h) =>
      base.status.hookID == "" && o.status.hookID == Itoa(h) && NamesHook(r, base.key, o.status)
  }

  ghost predicate PhaseOK(r: Reconciler, base: Watcher, phase: Phase) {
    match phase
    case Started => true
    case Hooked(o, hook) =>
      Refines(base, o) && HookHeld(r, base, o, hook) && o.status.firstCommit == base.status.firstCommit &&
      (hook.None? ==> SawUnnamed(r, base.key))
    case Fetched(o, hook, commit, GitHub) =>
      Refines(base, o) && HookHeld(r, base, o, hook) && o.status.firstCommit == "" &&
      (hook.None? ==> SawUnnamed(r, base.key))
    case Fetched(o, hook, commit, Polling) =>
      o == base && hook.None? && commit != ""
    case Returned(o, hook, err) =>
      Refines(base, o) && HookHeld(r, base, o, hook) &&
      (err.None? ==>
        || o == base
        || hook.Some?
        || (base.status.firstCommit == "" && o.status.firstCommit != "")
        || SawUnnamed(r, base.key))
  }

  ghost predicate FlightsOK(r: Reconciler) {
    forall f :: f in r.flights ==>
      Stored(r, r.flights[f].base) && PhaseOK(r, r.flights[f].base, r.flights[f].phase)
  }

  // Once non-empty, a hook id and its token, and a first commit, never change.
  ghost predicate WriteOnce(s: seq<Revision>) {
    forall i, j :: 0 <= i <= j < |s| ==> Keeps(s[i].obj.status, s[j].obj.status)
  }

  ghost predicate Keeps(before: WatcherStatus, after: WatcherStatus) {
    && (before.hookID != "" ==> after.hookID == before.hookID && after.token == before.token)
    && (before.firstCommit != "" ==> after.firstCommit == before.firstCommit)
  }

  ghost predicate StatusesOK(r: Reconciler) {
    && (forall k :: k in r.revisions ==> WriteOnce(r.revisions[k]))
    && (forall k, i :: k in r.revisions && 0 <= i < |r.revisions[k]| ==>
          r.revisions[k][i].obj.status.hookID == "" || NamesHook(r, k, r.revisions[k][i].obj.status))
  }

  // ---------- History and ledger only grow ----------

  ghost predicate Extends(r: Reconciler, r': Reconciler) {
    && (forall k :: k in r.revisions ==> k in r'.revisions && r.revisions[k] <= r'.revisions[k])
    && (forall h :: h in r.hooks ==> h in r'.hooks && r'.hooks[h] == r.hooks[h])
    && r.lost <= r'.lost
    && (forall k :: k in r.cached ==> k in r'.cached && r.cached[k] <= r'.cached[k])
  }

  lemma CallExtends(cfg: Config, r: Reconciler, f: nat, answers: StartAnswers)
    ensures Extends(r, OnCall(cfg, r, f, answers))
  {
  }

  lemma WriteExtends(r: Reconciler, f: nat, now: string, accepted: bool)
    ensures Extends(r, OnWrite(r, f, now, accepted))
  {
  }

  lemma AdvanceExtends(cfg: Config, r: Reconciler, f: nat, ref: Result<Option<string>>, applied: ApplyAnswer)
    ensures Extends(r, OnRef(cfg, r, f, ref)) && Extends(r, OnApply(r, f, applied)) && Extends(r, OnCrash(r, f))
  {
  }

  lemma UserExtends(r: Reconciler, k: Key, uid: string, spec: WatcherSpec)
    ensures Extends(r, OnCreate(r, k, uid, spec)) && Extends(r, OnEdit(r, k, spec))
  {
  }

  lemma CacheExtends(r: Reconciler, f: nat, k: Key, version: nat)
    ensures Extends(r, OnCatchUp(r, k, version)) && Extends(r, OnBegin(r, f, k))
  {
  }

  lemma QueueExtends(r: Reconciler, queue: set<Key>)
    ensures Extends(r, r.(queue := queue))
  {
  }

  lemma FlightStepExtends(cfg: Config, r: Reconciler, a: Action)
    requires a.Ref? || a.Apply? || a.Crash?
    ensures Extends(r, Step(cfg, r, a))
  {
    match a
    case Ref(f, ref) => AdvanceExtends(cfg, r, f, ref, ApplyAnswer(true, None));
    case Apply(f, applied) => AdvanceExtends(cfg, r, f, Ok(None), applied);
    case Crash(f) => AdvanceExtends(cfg, r, f, Ok(None), ApplyAnswer(true, None));
  }

  lemma StepExtends(cfg: Config, r: Reconciler, a: Action)
    ensures Extends(r, Step(cfg, r, a))
  {
    match a
    case CreateWatcher(k, uid, spec) => UserExtends(r, k, uid, spec);
    case EditSpec(k, spec) => UserExtends(r, k, "", spec);
    case CatchUp(k, version) => CacheExtends(r, 0, k, version);
    case Begin(f, k) => CacheExtends(r, f, k, 0);
    case Tick => QueueExtends(r, r.queue + Unregistered(r));
    case Requeue(k) => QueueExtends(r, r.queue + {k});
    case Call(f, answers) => CallExtends(cfg, r, f, answers);
    case Write(f, now, accepted) => WriteExtends(r, f, now, accepted);
    case _ => FlightStepExtends(cfg, r, a);
  }

  lemma StoredKept(r: Reconciler, r': Reconciler, o: Watcher)
    requires Extends(r, r') && Stored(r, o)
    ensures Stored(r', o)
  {
    assert r'.revisions[o.key][o.version] == r.revisions[o.key][o.version];
  }

  lemma PhaseKept(r: Reconciler, r': Reconciler, base: Watcher, phase: Phase)
    requires Extends(r, r') && PhaseOK(r, base, phase)
    ensures PhaseOK(r', base, phase)
  {
    SawUnnamedKept(r, r', base.key);
    if !phase.Started? && phase.hook.Some? {
      assert NamesHook(r, base.key, phase.obj.status);
      assert NamesHook(r', base.key, phase.obj.status);
    }
  }

  lemma SawUnnamedKept(r: Reconciler, r': Reconciler, k: Key)
    requires Extends(r, r')
    ensures SawUnnamed(r, k) ==> SawUnnamed(r', k)
  {
    if SawUnnamed(r, k) {
      var h :| h in r.hooks && r.hooks[h].watcher == k && r.hooks[h].report == Unnamed;
      assert h in r'.hooks && r'.hooks[h] == r.hooks[h];
    }
  }

  // ---------- The pieces of a reconcile keep PhaseOK ----------

  ghost predicate EntryRecorded(r: Reconciler, s: Start) {
    s.entry.Some? ==> s.entry.value.0 in r.hooks && r.hooks[s.entry.value.0] == s.entry.value.1
  }

  lemma StartOK(cfg: Config, r: Reconciler, base: Watcher, a: StartAnswers)
    requires EntryRecorded(r, StartReconcile(cfg, base, a))
    ensures PhaseOK(r, base, StartReconcile(cfg, base, a).phase)
  {
    var s := StartReconcile(cfg, base, a);
    match ProviderFor(base, a.supports)
    case None =>
    case Some(Polling) =>
      if a.lines.Ok? {
        FirstFieldIsFirstWord(a.lines.value, "no commit for branch: " + base.spec.branch);
      }
    case Some(GitHub) =>
      if s.entry.Some? {
        var (id, hook) := s.entry.value;
        assert hook.url == HookEndpoint(cfg, base);
        assert hook.report == Unnamed ==> SawUnnamed(r, base.key);
        ItoaRoundTrip(id);
      }
  }

  lemma FetchOK(cfg: Config, r: Reconciler, base: Watcher, phase: Phase, ref: Result<Option<string>>)
    requires phase.Hooked? && PhaseOK(r, base, phase)
    ensures PhaseOK(r, base, FetchRef(cfg, phase.obj, phase.hook, ref))
  {
    var after := FetchRef(cfg, phase.obj, phase.hook, ref);
    assert after.obj == phase.obj && after.hook == phase.hook;
  }

  lemma ApplyOK(r: Reconciler, base: Watcher, phase: Phase, applied: ApplyAnswer)
    requires phase.Fetched? && PhaseOK(r, base, phase)
    ensures PhaseOK(r, base, AfterApply(phase.obj, phase.hook, phase.commit, phase.source, applied))
  {
    var after := AfterApply(phase.obj, phase.hook, phase.commit, phase.source, applied);
    if phase.hook.Some? {
      assert after.obj.status.hookID == phase.obj.status.hookID;
      assert NamesHook(r, base.key, after.obj.status);
    }
  }

  // ---------- Histories and flights ----------

  ghost predicate Sound(r: Reconciler) {
    HistoriesOK(r) && FlightsOK(r) && StatusesOK(r)
  }

  // At most the history of k changes: it starts, or it gets one more version.
  ghost predicate GrowsAt(r: Reconciler, r': Reconciler, k: Key) {
    && (forall k' :: k' in r'.revisions && k' != k ==> k' in r.revisions && r'.revisions[k'] == r.revisions[k'])
    && (forall k' :: k' in r.revisions ==> k' in r'.revisions)
    && (k in r'.revisions ==>
          || (k in r.revisions && r'.revisions[k] == r.revisions[k])
          || (k !in r.revisions && |r'.revisions[k]| == 1)
          || (k in r.revisions && |r'.revisions[k]| == |r.revisions[k]| + 1 && r.revisions[k] <= r'.revisions[k]))
  }

  lemma HistoriesKept(r: Reconciler, r': Reconciler, k: Key)
    requires HistoriesOK(r) && GrowsAt(r, r', k) && r'.cached == r.cached
    requires k in r'.revisions ==>
      |r'.revisions[k]| > 0 &&
      var o := Last(r'.revisions[k]);
      o.key == k && o.version == |r'.revisions[k]| - 1 && o.uid == r'.revisions[k][0].obj.uid
    ensures HistoriesOK(r')
  {
    if k in r'.revisions {
      var s := r'.revisions[k];
      forall i | 0 <= i < |s|
        ensures s[i].obj.key == k && s[i].obj.version == i && s[i].obj.uid == s[0].obj.uid
      {
        if i < |s| - 1 {
          assert s[i] == r.revisions[k][i] && s[0] == r.revisions[k][0];
        }
      }
    }
  }

  // What onChange writes, seen from the version it read.
  lemma WrittenObject(r: Reconciler, base: Watcher, phase: Phase, now: string)
    requires phase.Returned? && PhaseOK(r, base, phase)
    ensures var o := NewObject(phase.obj, phase.err, now);
      && Keeps(base.status, o.status)
      && o == base.(status := o.status)
      && o.status.conditions == (if phase.err.None? then base.status.conditions
                                 else SetError(base.status.conditions, Registered, phase.err, now))
      && (phase.hook.None? ==> o.status.hookID == base.status.hookID)
      && (phase.hook.Some? ==>
            base.status.hookID == "" && o.status.hookID == Itoa(phase.hook.value) && NamesHook(r, base.key, o.status))
  {
    var o := NewObject(phase.obj, phase.err, now);
    if phase.hook.Some? {
      assert o.status.hookID == phase.obj.status.hookID && o.status.token == phase.obj.status.token;
      assert NamesHook(r, base.key, o.status);
    }
  }

  lemma WriteGrows(r: Reconciler, f: nat, now: string, accepted: bool)
    requires HistoriesOK(r) && f in r.flights && r.flights[f].phase.Returned?
    requires Stored(r, r.flights[f].base) && PhaseOK(r, r.flights[f].base, r.flights[f].phase)
    ensures var r' := WriteBack(r, f, now, accepted); var Flight(base, phase) := r.flights[f];
      && GrowsAt(r, r', base.key)
      && r'.cached == r.cached && r'.hooks == r.hooks && r'.queue == r.queue
      && r'.flights == r.flights - {f}
      && (r'.revisions == r.revisions ||
            (Last(r.revisions[base.key]) == base && base.key in r'.revisions &&
             r'.revisions[base.key] == r.revisions[base.key] +
               [Revision(NewObject(phase.obj, phase.err, now).(version := |r.revisions[base.key]|),
                         if phase.err.None? then Clean else Failing)]))
  {
  }

  lemma EditGrows(r: Reconciler, k: Key, spec: WatcherSpec)
    requires HistoriesOK(r) && k in r.revisions
    ensures var r' := EditWatcher(r, k, spec); var s := r.revisions[k];
      && GrowsAt(r, r', k)
      && r' == r.(revisions := r'.revisions)
      && r'.revisions[k] == s + [Revision(Last(s).(spec := spec, version := |s|), User)]
  {
  }

  lemma CreateGrows(cfg: Config, r: Reconciler, a: Action)
    requires a.CreateWatcher?
    ensures var r' := Step(cfg, r, a);
      && GrowsAt(r, r', a.k)
      && r' == r.(revisions := r'.revisions)
      && (a.k !in r.revisions ==>
            r'.revisions[a.k] == [Revision(Watcher(a.k, a.uid, 0, a.spec, EmptyWatcherStatus), User)])
  {
  }

  // Every other action leaves the histories alone.
  lemma QuietStep(cfg: Config, r: Reconciler, a: Action)
    requires !a.CreateWatcher? && !a.EditSpec? && !a.Write?
    ensures Step(cfg, r, a).revisions == r.revisions
    ensures !a.CatchUp? ==> Step(cfg, r, a).cached == r.cached
  {
  }

  lemma WriteKeepsHistories(r: Reconciler, f: nat, now: string, accepted: bool)
    requires HistoriesOK(r) && FlightsOK(r) && f in r.flights && r.flights[f].phase.Returned?
    ensures HistoriesOK(WriteBack(r, f, now, accepted))
  {
    var base := r.flights[f].base;
    WriteGrows(r, f, now, accepted);
    WrittenObject(r, base, r.flights[f].phase, now);
    HistoriesKept(r, WriteBack(r, f, now, accepted), base.key);
  }

  lemma EditKeepsHistories(r: Reconciler, k: Key, spec: WatcherSpec)
    requires HistoriesOK(r) && k in r.revisions
    ensures HistoriesOK(EditWatcher(r, k, spec))
  {
    EditGrows(r, k, spec);
    HistoriesKept(r, EditWatcher(r, k, spec), k);
  }

  lemma StepKeepsHistories(cfg: Config, r: Reconciler, a: Action)
    requires HistoriesOK(r) && FlightsOK(r)
    ensures HistoriesOK(Step(cfg, r, a))
  {
    if a.CreateWatcher? {
      CreateGrows(cfg, r, a);
      if a.k !in r.revisions { HistoriesKept(r, Step(cfg, r, a), a.k); }
    } else if a.EditSpec? {
      if a.k in r.revisions { EditKeepsHistories(r, a.k, a.spec); }
    } else if a.Write? {
      if a.f in r.flights && r.flights[a.f].phase.Returned? { WriteKeepsHistories(r, a.f, a.now, a.accepted); }
    } else {
      QuietStep(cfg, r, a);
    }
  }

  // The flights of r' other than f are flights of r.
  ghost predicate OnlyFlight(r: Reconciler, r': Reconciler, f: nat) {
    forall g :: g in r'.flights && g != f ==> g in r.flights && r'.flights[g] == r.flights[g]
  }

  lemma FlightsKept(r: Reconciler, r': Reconciler, f: nat)
    requires Extends(r, r') && FlightsOK(r) && OnlyFlight(r, r', f)
    requires f in r'.flights ==>
      Stored(r', r'.flights[f].base) && PhaseOK(r', r'.flights[f].base, r'.flights[f].phase)
    ensures FlightsOK(r')
  {
    forall g | g in r'.flights && g != f
      ensures Stored(r', r'.flights[g].base) && PhaseOK(r', r'.flights[g].base, r'.flights[g].phase)
    {
      StoredKept(r, r', r.flights[g].base);
      PhaseKept(r, r', r.flights[g].base, r.flights[g].phase);
    }
  }

  lemma CallKeepsFlights(r: Reconciler, r': Reconciler, cfg: Config, f: nat, answers: StartAnswers)
    requires HistoriesOK(r) && FlightsOK(r) && f in r.flights
    requires r' == StartCall(r, f, StartReconcile(cfg, r.flights[f].base, answers)) && r' != r && Extends(r, r')
    ensures FlightsOK(r')
  {
    var base := r.flights[f].base;
    StoredKept(r, r', base);
    StartOK(cfg, r', base, answers);
    FlightsKept(r, r', f);
  }

  lemma AdvanceKeepsFlights(r: Reconciler, f: nat, phase: Phase)
    requires HistoriesOK(r) && FlightsOK(r) && f in r.flights
    requires PhaseOK(r, r.flights[f].base, phase)
    ensures FlightsOK(Advance(r, f, phase))
  {
    var r' := Advance(r, f, phase);
    var base := r.flights[f].base;
    StoredKept(r, r', base);
    PhaseKept(r, r', base, phase);
    FlightsKept(r, r', f);
  }

  lemma RefKeepsFlights(cfg: Config, r: Reconciler, a: Action)
    requires HistoriesOK(r) && FlightsOK(r) && a.Ref?
    ensures FlightsOK(Step(cfg, r, a))
  {
    if a.f in r.flights && r.flights[a.f].phase.Hooked? {
      var p := r.flights[a.f].phase;
      FetchOK(cfg, r, r.flights[a.f].base, p, a.ref);
      AdvanceKeepsFlights(r, a.f, FetchRef(cfg, p.obj, p.hook, a.ref));
    }
  }

  lemma ApplyKeepsFlights(cfg: Config, r: Reconciler, a: Action)
    requires HistoriesOK(r) && FlightsOK(r) && a.Apply?
    ensures FlightsOK(Step(cfg, r, a))
  {
    if a.f in r.flights && r.flights[a.f].phase.Fetched? {
      var p := r.flights[a.f].phase;
      ApplyOK(r, r.flights[a.f].base, p, a.applied);
      AdvanceKeepsFlights(r, a.f, AfterApply(p.obj, p.hook, p.commit, p.source, a.applied));
    }
  }

  // Beginning, ending and the actions outside the reconciles add no working copy.
  lemma OtherStepFlights(cfg: Config, r: Reconciler, a: Action)
    requires HistoriesOK(r) && !a.Call? && !a.Ref? && !a.Apply?
    ensures var r' := Step(cfg, r, a);
      forall f :: f in r'.flights ==>
        || (f in r.flights && r'.flights[f] == r.flights[f])
        || (Stored(r, r'.flights[f].base) && r'.flights[f].phase == Started)
  {
  }

  lemma OthersKeepFlights(r: Reconciler, r': Reconciler)
    requires Extends(r, r') && FlightsOK(r)
    requires forall f :: f in r'.flights ==>
      || (f in r.flights && r'.flights[f] == r.flights[f])
      || (Stored(r, r'.flights[f].base) && r'.flights[f].phase == Started)
    ensures FlightsOK(r')
  {
    forall g | g in r'.flights
      ensures Stored(r', r'.flights[g].base) && PhaseOK(r', r'.flights[g].base, r'.flights[g].phase)
    {
      StoredKept(r, r', r'.flights[g].base);
      PhaseKept(r, r', r'.flights[g].base, r'.flights[g].phase);
    }
  }

  lemma StepKeepsFlights(cfg: Config, r: Reconciler, a: Action)
    requires HistoriesOK(r) && FlightsOK(r)
    ensures FlightsOK(Step(cfg, r, a))
  {
    StepExtends(cfg, r, a);
    if a.Call? {
      if Step(cfg, r, a) != r { CallKeepsFlights(r, Step(cfg, r, a), cfg, a.f, a.answers); }
    } else if a.Ref? {
      RefKeepsFlights(cfg, r, a);
    } else if a.Apply? {
      ApplyKeepsFlights(cfg, r, a);
    } else {
      OtherStepFlights(cfg, r, a);
      OthersKeepFlights(r, Step(cfg, r, a));
    }
  }

  // ---------- Statuses ----------

  lemma NamesHookKept(r: Reconciler, r': Reconciler, k: Key, status: WatcherStatus)
    requires Extends(r, r') && NamesHook(r, k, status)
    ensures NamesHook(r', k, status)
  {
  }

  // A revision added at the end, by a user or by an Update, keeps what was set.
  lemma AddedRevision(s: seq<Revision>, rev: Revision)
    requires |s| > 0 && WriteOnce(s) && Keeps(Last(s).status, rev.obj.status)
    ensures WriteOnce(s + [rev])
  {
    var t := s + [rev];
    forall i, j | 0 <= i <= j < |t| ensures Keeps(t[i].obj.status, t[j].obj.status) {
      if j == |s| && i < |s| {
        assert Keeps(s[i].obj.status, s[|s| - 1].obj.status);
      }
    }
  }

  lemma StatusesKept(r: Reconciler, r': Reconciler, k: Key)
    requires Extends(r, r') && HistoriesOK(r) && StatusesOK(r) && GrowsAt(r, r', k)
    requires k in r'.revisions && (k !in r.revisions || r'.revisions[k] != r.revisions[k]) ==>
      |r'.revisions[k]| > 0 &&
      var status := Last(r'.revisions[k]).status;
      && (k in r.revisions ==> Keeps(Last(r.revisions[k]).status, status))
      && (status.hookID == "" || NamesHook(r', k, status))
    ensures StatusesOK(r')
  {
    if k in r'.revisions && k in r.revisions && r'.revisions[k] != r.revisions[k] {
      var s := r'.revisions[k];
      assert s == r.revisions[k] + [s[|s| - 1]];
      AddedRevision(r.revisions[k], s[|s| - 1]);
    }
    forall k', i | k' in r'.revisions && 0 <= i < |r'.revisions[k']|
      ensures r'.revisions[k'][i].obj.status.hookID == "" || NamesHook(r', k', r'.revisions[k'][i].obj.status)
    {
      if k' in r.revisions && i < |r.revisions[k']| {
        assert r'.revisions[k'][i] == r.revisions[k'][i];
        if r.revisions[k'][i].obj.status.hookID != "" {
          NamesHookKept(r, r', k', r.revisions[k'][i].obj.status);
        }
      }
    }
  }

  lemma WriteKeepsStatuses(r: Reconciler, r': Reconciler, f: nat, now: string, accepted: bool)
    requires Sound(r) && f in r.flights && r.flights[f].phase.Returned?
    requires r' == WriteBack(r, f, now, accepted) && Extends(r, r')
    ensures StatusesOK(r')
  {
    var Flight(base, phase) := r.flights[f];
    WriteGrows(r, f, now, accepted);
    WrittenObject(r, base, phase, now);
    if r'.revisions != r.revisions {
      var status := NewObject(phase.obj, phase.err, now).status;
      if status.hookID != "" {
        if phase.hook.None? {
          assert NamesHook(r, base.key, base.status);
          assert NamesHook(r, base.key, status);
        }
        NamesHookKept(r, r', base.key, status);
      }
    }
    StatusesKept(r, r', base.key);
  }

  lemma EditKeepsStatuses(r: Reconciler, r': Reconciler, k: Key, spec: WatcherSpec)
    requires Sound(r) && k in r.revisions && r' == EditWatcher(r, k, spec) && Extends(r, r')
    ensures StatusesOK(r')
  {
    EditGrows(r, k, spec);
    var last := Last(r.revisions[k]).status;
    if last.hookID != "" {
      NamesHookKept(r, r', k, last);
    }
    StatusesKept(r, r', k);
  }

  lemma CreateKeepsStatuses(cfg: Config, r: Reconciler, a: Action)
    requires Sound(r) && a.CreateWatcher?
    ensures StatusesOK(Step(cfg, r, a))
  {
    CreateGrows(cfg, r, a);
    StepExtends(cfg, r, a);
    StatusesKept(r, Step(cfg, r, a), a.k);
  }

  lemma StepKeepsStatuses(cfg: Config, r: Reconciler, a: Action)
    requires Sound(r)
    ensures StatusesOK(Step(cfg, r, a))
  {
    var r' := Step(cfg, r, a);
    StepExtends(cfg, r, a);
    if a.CreateWatcher? {
      CreateKeepsStatuses(cfg, r, a);
    } else if a.EditSpec? {
      if r' != r { EditKeepsStatuses(r, r', a.k, a.spec); }
    } else if a.Write? {
      if r' != r { WriteKeepsStatuses(r, r', a.f, a.now, a.accepted); }
    } else {
      QuietStep(cfg, r, a);
      StatusesKept(r, r', Key("", ""));
    }
  }

  lemma StepKeepsSound(cfg: Config, r: Reconciler, a: Action)
    requires Sound(r)
    ensures Sound(Step(cfg, r, a))
  {
    StepKeepsHistories(cfg, r, a);
    StepKeepsFlights(cfg, r, a);
    StepKeepsStatuses(cfg, r, a);
  }
}
