// No hook is unaccounted for: where the hooks are that GitHub created.
module HookConservation {
  import opened Types
  import opened Text
  import opened Maps
  import opened Reconcile
  import opened Protocol
  import opened ProtocolInvariants

  // ---------- Each hook is in exactly one place ----------

  // The stored version of the hook's watcher names it.
  ghost predicate InStore(r: Reconciler, h: nat)
    requires h in r.hooks
  {
    var k := r.hooks[h].watcher;
    k in r.revisions && |r.revisions[k]| > 0 && Last(r.revisions[k]).status.hookID == Itoa(h)
  }

  ghost predicate InFlight(r: Reconciler, h: nat) {
    exists f :: f in r.flights && HookOf(r.flights[f].phase) == Some(h)
  }

  ghost predicate InOnePlace(r: Reconciler, h: nat)
    requires h in r.hooks
  {
    && (InStore(r, h) || InFlight(r, h) || h in r.lost)
    && !(InStore(r, h) && InFlight(r, h))
    && !(InStore(r, h) && h in r.lost)
    && !(InFlight(r, h) && h in r.lost)
  }

  ghost predicate OneHolder(r: Reconciler) {
    forall f, g ::
      (f in r.flights && g in r.flights && HookOf(r.flights[f].phase).Some? &&
       HookOf(r.flights[f].phase) == HookOf(r.flights[g].phase)) ==> f == g
  }

  ghost predicate Accounted(r: Reconciler) {
    && (forall h :: h in r.hooks ==> r.hooks[h].watcher in r.revisions)
    && (forall h :: h in r.lost ==> h in r.hooks && r.hooks[h].report == Named)
    && (forall h :: h in r.hooks && r.hooks[h].report == Named ==> InOnePlace(r, h))
    && OneHolder(r)
  }

  // ---------- Every step keeps it ----------

  // A hook that a flight holds is a reported hook of the flight's watcher.
  lemma HeldHook(r: Reconciler, f: nat)
    requires FlightsOK(r) && f in r.flights && HookOf(r.flights[f].phase).Some?
    ensures var h := HookOf(r.flights[f].phase).value; var base := r.flights[f].base;
      && h in r.hooks && r.hooks[h].report == Named && r.hooks[h].watcher == base.key
      && base.status.hookID == ""
      && r.flights[f].phase.obj.status.hookID == Itoa(h)
  {
    var h := HookOf(r.flights[f].phase).value;
    assert NamesHook(r, r.flights[f].base.key, r.flights[f].phase.obj.status);
    ItoaRoundTrip(h);
  }

  // Nothing that matters changes: same holders, same stored hook ids.
  lemma SamePlaces(r: Reconciler, r': Reconciler)
    requires HistoriesOK(r) && HistoriesOK(r') && Accounted(r)
    requires r'.hooks == r.hooks && r'.lost == r.lost
    requires forall f :: f in r.flights && HookOf(r.flights[f].phase).Some? ==>
      f in r'.flights && HookOf(r'.flights[f].phase) == HookOf(r.flights[f].phase)
    requires forall f :: f in r'.flights && HookOf(r'.flights[f].phase).Some? ==>
      f in r.flights && HookOf(r'.flights[f].phase) == HookOf(r.flights[f].phase)
    requires forall k :: k in r.revisions ==>
      k in r'.revisions && Last(r'.revisions[k]).status.hookID == Last(r.revisions[k]).status.hookID
    ensures Accounted(r')
  {
    forall h | h in r'.hooks && r'.hooks[h].report == Named ensures InOnePlace(r', h) {
      assert InOnePlace(r, h);
      assert InFlight(r, h) <==> InFlight(r', h);
    }
  }

  // createHook returns an id exactly when GitHub reported the hook.
  lemma StartHook(cfg: Config, base: Watcher, a: StartAnswers)
    ensures var s := StartReconcile(cfg, base, a); var hook := HookOf(s.phase);
      && (hook.Some? ==> s.entry.Some? && s.entry.value.0 == hook.value)
      && (s.entry.Some? ==> s.entry.value.1.watcher == base.key &&
                            (s.entry.value.1.report == Named <==> hook.Some?))
  {
  }

  // A hook that was there stays where it is when another flight moves on.
  lemma OldHookStays(r: Reconciler, r': Reconciler, f: nat, h: nat)
    requires f in r.flights && r.flights[f].phase.Started? && f in r'.flights
    requires r'.flights == r.flights[f := r'.flights[f]]
    requires r'.revisions == r.revisions && r'.lost == r.lost
    requires h in r.hooks && h in r'.hooks && r'.hooks[h] == r.hooks[h]
    requires HookOf(r'.flights[f].phase) != Some(h)
    requires InOnePlace(r, h)
    ensures InOnePlace(r', h)
  {
    if InFlight(r, h) {
      var g :| g in r.flights && HookOf(r.flights[g].phase) == Some(h);
      assert g in r'.flights && r'.flights[g] == r.flights[g];
    }
    if InFlight(r', h) {
      var g :| g in r'.flights && HookOf(r'.flights[g].phase) == Some(h);
      assert g in r.flights && r.flights[g] == r'.flights[g];
    }
  }

  // A successful CreateHook puts its new hook into the flight, and nowhere else.
  lemma NewHookPlaced(r: Reconciler, r': Reconciler, f: nat, id: nat)
    requires Sound(r) && Accounted(r) && f in r.flights && r.flights[f].phase.Started? && f in r'.flights
    requires r'.flights == r.flights[f := r'.flights[f]]
    requires r'.revisions == r.revisions && r'.lost == r.lost
    requires id !in r.hooks && id in r'.hooks && r'.hooks == r.hooks[id := r'.hooks[id]]
    requires r'.hooks[id].watcher in r.revisions
    requires HookOf(r'.flights[f].phase) == if r'.hooks[id].report == Named then Some(id) else None
    ensures Accounted(r')
  {
    forall h | h in r'.hooks && r'.hooks[h].report == Named ensures InOnePlace(r', h) {
      if h == id {
        NewHookNotStored(r, h, r'.hooks[h].watcher);
        assert HookOf(r'.flights[f].phase) == Some(h);
        assert InFlight(r', h);
      } else {
        OldHookStays(r, r', f, h);
      }
    }
    NewHolder(r, r', f);
  }

  lemma CallKeepsPlaces(cfg: Config, r: Reconciler, f: nat, answers: StartAnswers)
    requires Sound(r) && Accounted(r) && f in r.flights && r.flights[f].phase.Started?
    ensures Accounted(StartCall(r, f, StartReconcile(cfg, r.flights[f].base, answers)))
  {
    var s := StartReconcile(cfg, r.flights[f].base, answers);
    StartHook(cfg, r.flights[f].base, answers);
    MovesOn(r, f, s);
  }

  lemma MovesOn(r: Reconciler, f: nat, s: Start)
    requires Sound(r) && Accounted(r) && f in r.flights && r.flights[f].phase.Started?
    requires HookOf(s.phase).Some? ==> s.entry.Some? && s.entry.value.0 == HookOf(s.phase).value
    requires s.entry.Some? ==> s.entry.value.1.watcher == r.flights[f].base.key &&
                               (s.entry.value.1.report == Named <==> HookOf(s.phase).Some?)
    ensures Accounted(StartCall(r, f, s))
  {
    var r' := StartCall(r, f, s);
    if s.entry.None? {
      assert HistoriesOK(r');
      SamePlaces(r, r');
    } else if s.entry.value.0 !in r.hooks {
      NewHookPlaced(r, r', f, s.entry.value.0);
    }
  }

  lemma NewHookNotStored(r: Reconciler, h: nat, k: Key)
    requires HistoriesOK(r) && StatusesOK(r) && h !in r.hooks && k in r.revisions
    ensures Last(r.revisions[k]).status.hookID != Itoa(h)
  {
    var s := r.revisions[k];
    ItoaRoundTrip(h);
    assert s[|s| - 1].obj.status.hookID == "" || NamesHook(r, k, s[|s| - 1].obj.status);
  }

  lemma NewHolder(r: Reconciler, r': Reconciler, f: nat)
    requires FlightsOK(r) && OneHolder(r) && f in r.flights && f in r'.flights
    requires r'.flights == r.flights[f := r'.flights[f]]
    requires HookOf(r'.flights[f].phase).Some? ==> HookOf(r'.flights[f].phase).value !in r.hooks
    ensures OneHolder(r')
  {
    forall g | g in r.flights && HookOf(r.flights[g].phase).Some?
      ensures HookOf(r.flights[g].phase).value in r.hooks
    {
      HeldHook(r, g);
    }
  }

  // The hook of a reconcile that ends is stored when its Update is taken.
  lemma HookStored(r: Reconciler, r': Reconciler, f: nat, mine: nat)
    requires Sound(r) && HistoriesOK(r') && Accounted(r) && f in r.flights
    requires r'.hooks == r.hooks && r'.lost == r.lost && r'.flights == r.flights - {f}
    requires HookOf(r.flights[f].phase) == Some(mine)
    requires var k := r.flights[f].base.key;
      && GrowsAt(r, r', k) && k in r.revisions && Last(r.revisions[k]) == r.flights[f].base
      && Last(r'.revisions[k]).status.hookID == Itoa(mine)
    ensures Accounted(r')
  {
    HeldHook(r, f);
    forall h | h in r'.hooks && r'.hooks[h].report == Named ensures InOnePlace(r', h) {
      assert InOnePlace(r, h);
      EndedFlight(r, r', f, h);
      if h == mine {
        assert InFlight(r, h);
      } else if r.hooks[h].watcher == r.flights[f].base.key {
        if Itoa(h) == Itoa(mine) { ItoaInjective(h, mine); }
        assert !InStore(r, h) && !InStore(r', h);
      }
    }
  }

  // It stays unregistered when no hook was created.
  lemma HooklessWrite(r: Reconciler, r': Reconciler, f: nat)
    requires HistoriesOK(r) && HistoriesOK(r') && Accounted(r) && f in r.flights && HookOf(r.flights[f].phase).None?
    requires r'.hooks == r.hooks && r'.lost == r.lost && r'.flights == r.flights - {f}
    requires var k := r.flights[f].base.key;
      && GrowsAt(r, r', k) && k in r.revisions
      && Last(r'.revisions[k]).status.hookID == Last(r.revisions[k]).status.hookID
    ensures Accounted(r')
  {
    forall k | k in r.revisions
      ensures k in r'.revisions && Last(r'.revisions[k]).status.hookID == Last(r.revisions[k]).status.hookID
    {
      assert k != r.flights[f].base.key ==> k in r'.revisions && r'.revisions[k] == r.revisions[k];
    }
    SamePlaces(r, r');
  }

  lemma StoredWriteKeepsPlaces(r: Reconciler, r': Reconciler, f: nat, now: string, accepted: bool)
    requires Sound(r) && HistoriesOK(r') && Accounted(r) && f in r.flights && r.flights[f].phase.Returned?
    requires r' == WriteBack(r, f, now, accepted) && r'.revisions != r.revisions
    ensures Accounted(r')
  {
    var Flight(base, phase) := r.flights[f];
    WriteGrows(r, f, now, accepted);
    WrittenObject(r, base, phase, now);
    if phase.hook.None? {
      HooklessWrite(r, r', f);
    } else {
      HookStored(r, r', f, phase.hook.value);
    }
  }

  lemma EndedFlight(r: Reconciler, r': Reconciler, f: nat, h: nat)
    requires f in r.flights && r'.flights == r.flights - {f} && OneHolder(r)
    ensures InFlight(r', h) <==> InFlight(r, h) && HookOf(r.flights[f].phase) != Some(h)
  {
    if InFlight(r, h) && HookOf(r.flights[f].phase) != Some(h) {
      var g :| g in r.flights && HookOf(r.flights[g].phase) == Some(h);
      assert g in r'.flights;
    }
  }

  // Otherwise it is lost.
  lemma EndKeepsPlaces(r: Reconciler, r': Reconciler, f: nat)
    requires Sound(r) && Accounted(r) && f in r.flights
    requires r' == r.(flights := r.flights - {f}, lost := r.lost + HookSet(HookOf(r.flights[f].phase)))
    ensures Accounted(r')
  {
    if HookOf(r.flights[f].phase).Some? {
      HeldHook(r, f);
      assert InFlight(r, HookOf(r.flights[f].phase).value);
    }
    forall h | h in r'.hooks && r'.hooks[h].report == Named ensures InOnePlace(r', h) {
      assert InOnePlace(r, h);
      EndedFlight(r, r', f, h);
    }
  }

  lemma LostWrite(r: Reconciler, f: nat, now: string, accepted: bool)
    requires Sound(r) && f in r.flights && r.flights[f].phase.Returned?
    ensures var r' := WriteBack(r, f, now, accepted);
      r'.revisions == r.revisions ==>
        r' == r.(flights := r.flights - {f}, lost := r.lost + HookSet(HookOf(r.flights[f].phase)))
  {
    var Flight(base, phase) := r.flights[f];
    WrittenObject(r, base, phase, now);
    if NewObject(phase.obj, phase.err, now) == base {
      assert HookSet(phase.hook) == {};
      assert r.lost + {} == r.lost;
    }
    WriteGrows(r, f, now, accepted);
  }

  lemma WriteKeepsPlaces(r: Reconciler, f: nat, now: string, accepted: bool)
    requires Sound(r) && Accounted(r) && f in r.flights && r.flights[f].phase.Returned?
    ensures Accounted(WriteBack(r, f, now, accepted))
  {
    var r' := WriteBack(r, f, now, accepted);
    WriteKeepsHistories(r, f, now, accepted);
    if r'.revisions != r.revisions {
      StoredWriteKeepsPlaces(r, r', f, now, accepted);
    } else {
      LostWrite(r, f, now, accepted);
      EndKeepsPlaces(r, r', f);
    }
  }

  lemma OtherKeepsPlaces(cfg: Config, r: Reconciler, a: Action)
    requires Sound(r) && Accounted(r) && !a.Call? && !a.Write? && !a.Crash?
    ensures Accounted(Step(cfg, r, a))
  {
    var r' := Step(cfg, r, a);
    StepKeepsHistories(cfg, r, a);
    if a.CreateWatcher? {
      CreateGrows(cfg, r, a);
    } else if a.EditSpec? {
      if a.k in r.revisions { EditGrows(r, a.k, a.spec); }
    } else {
      QuietStep(cfg, r, a);
    }
    SameFlights(cfg, r, a);
    SamePlaces(r, r');
  }

  lemma SameFlights(cfg: Config, r: Reconciler, a: Action)
    requires !a.Call? && !a.Write? && !a.Crash?
    ensures var r' := Step(cfg, r, a);
      && r'.hooks == r.hooks && r'.lost == r.lost
      && (forall f :: f in r.flights && HookOf(r.flights[f].phase).Some? ==>
            f in r'.flights && HookOf(r'.flights[f].phase) == HookOf(r.flights[f].phase))
      && (forall f :: f in r'.flights && HookOf(r'.flights[f].phase).Some? ==>
            f in r.flights && HookOf(r'.flights[f].phase) == HookOf(r.flights[f].phase))
  {
  }

  lemma CallStepPlaces(cfg: Config, r: Reconciler, f: nat, answers: StartAnswers)
    requires Sound(r) && Accounted(r)
    ensures Accounted(OnCall(cfg, r, f, answers))
  {
    if f in r.flights && r.flights[f].phase.Started? { CallKeepsPlaces(cfg, r, f, answers); }
  }

  lemma WriteStepPlaces(r: Reconciler, f: nat, now: string, accepted: bool)
    requires Sound(r) && Accounted(r)
    ensures Accounted(OnWrite(r, f, now, accepted))
  {
    if f in r.flights && r.flights[f].phase.Returned? { WriteKeepsPlaces(r, f, now, accepted); }
  }

  lemma CrashStepPlaces(r: Reconciler, f: nat)
    requires Sound(r) && Accounted(r)
    ensures Accounted(OnCrash(r, f))
  {
    if f in r.flights { EndKeepsPlaces(r, OnCrash(r, f), f); }
  }

  lemma StepKeepsPlaces(cfg: Config, r: Reconciler, a: Action)
    requires Sound(r) && Accounted(r)
    ensures Accounted(Step(cfg, r, a))
  {
    match a
    case Call(f, answers) => CallStepPlaces(cfg, r, f, answers);
    case Write(f, now, accepted) => WriteStepPlaces(r, f, now, accepted);
    case Crash(f) => CrashStepPlaces(r, f);
    case _ => OtherKeepsPlaces(cfg, r, a);
  }

  // ---------- The count ----------

  // The hooks GitHub reported created for a watcher, the reconciles that hold
  // one, and the ones whose reconcile ended without storing it.
  ghost function ReportedHooks(r: Reconciler, k: Key): set<nat> {
    set h | h in r.hooks && r.hooks[h].watcher == k && r.hooks[h].report == Named
  }

  ghost function Holding(r: Reconciler, k: Key): set<nat> {
    set f | f in r.flights && r.flights[f].base.key == k && HookOf(r.flights[f].phase).Some?
  }

  ghost function LostHooks(r: Reconciler, k: Key): set<nat> {
    set h | h in r.lost && h in r.hooks && r.hooks[h].watcher == k
  }

  ghost function StoredHooks(r: Reconciler, k: Key): set<nat> {
    set h | h in r.hooks && r.hooks[h].watcher == k && r.hooks[h].report == Named && InStore(r, h)
  }

  // Which hook each reconcile of the watcher holds.
  ghost function Held(r: Reconciler, k: Key): map<nat, nat> {
    map f | f in Holding(r, k) :: HookOf(r.flights[f].phase).value
  }

  // As many hooks are held as there are reconciles holding one.
  lemma HeldCount(r: Reconciler, k: Key)
    requires OneHolder(r)
    ensures |Held(r, k).Values| == |Holding(r, k)|
  {
    var held := Held(r, k);
    assert held.Keys == Holding(r, k) && |held| == |held.Keys|;
    forall f, g | f in held && g in held && held[f] == held[g] ensures f == g {
      assert HookOf(r.flights[f].phase) == HookOf(r.flights[g].phase);
    }
    InjectiveSize(held);
  }

  lemma StoredCount(r: Reconciler, k: Key)
    requires Sound(r) && Accounted(r) && k in r.revisions
    ensures |StoredHooks(r, k)| == if Last(r.revisions[k]).status.hookID != "" then 1 else 0
  {
    var s := r.revisions[k];
    var status := s[|s| - 1].obj.status;
    if status.hookID == "" {
      assert StoredHooks(r, k) == {};
    } else {
      assert NamesHook(r, k, status);
      var h := Atoi(status.hookID);
      forall g | g in StoredHooks(r, k) ensures g == h { ItoaRoundTrip(g); }
      assert StoredHooks(r, k) == {h};
    }
  }

  // The three places of the reported hooks of a watcher.
  lemma HooksPartition(r: Reconciler, k: Key)
    requires Sound(r) && Accounted(r)
    ensures var held := Held(r, k).Values;
      && ReportedHooks(r, k) == StoredHooks(r, k) + held + LostHooks(r, k)
      && StoredHooks(r, k) !! held
      && (StoredHooks(r, k) + held) !! LostHooks(r, k)
  {
    var held := Held(r, k).Values;
    forall h ensures h in held <==> h in ReportedHooks(r, k) && InFlight(r, h) {
      if h in held {
        var f :| f in Held(r, k) && Held(r, k)[f] == h;
        HeldHook(r, f);
      }
      if h in ReportedHooks(r, k) && InFlight(r, h) {
        var f :| f in r.flights && HookOf(r.flights[f].phase) == Some(h);
        HeldHook(r, f);
        assert f in Held(r, k) && Held(r, k)[f] == h;
      }
    }
    forall h | h in ReportedHooks(r, k) ensures InOnePlace(r, h) {
    }
  }

  // The hooks GitHub reported created for a watcher are the stored one, if any,
  // the ones that reconciles under way hold, and the ones that were lost.
  lemma HooksAddUp(r: Reconciler, k: Key)
    requires Sound(r) && Accounted(r) && k in r.revisions
    ensures |ReportedHooks(r, k)| ==
      (if Last(r.revisions[k]).status.hookID != "" then 1 else 0) + |Holding(r, k)| + |LostHooks(r, k)|
  {
    var held := Held(r, k).Values;
    HooksPartition(r, k);
    HeldCount(r, k);
    StoredCount(r, k);
    assert |StoredHooks(r, k) + held| == |StoredHooks(r, k)| + |held|;
    assert |(StoredHooks(r, k) + held) + LostHooks(r, k)| == |StoredHooks(r, k) + held| + |LostHooks(r, k)|;
  }
}
