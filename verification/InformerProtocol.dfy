// The shared informer factory under every interleaving of its callers. Each step
// is one critical section of the factory's lock, except that WaitForCacheSync
// takes a snapshot under the lock and then waits without it.
module InformerProtocol {
  // A WaitForCacheSync under way: what it waits for, and what it has seen.
  datatype Wait<!I> = Wait(snapshot: map<string, I>, res: map<string, bool>)

  datatype State<!I> = State(
    informers: map<string, I>,   // by type of the watched resource
    started: set<string>,
    ran: multiset<I>,            // one entry for each call of an informer's Run
    answers: seq<(string, I)>,   // what InformerFor has returned
    waits: map<nat, Wait<I>>)

  // made is what the caller's newFunc returns, an informer not seen before.
  datatype Action<I> =
    | InformerFor(kind: string, made: I)
    | Start
    | Snapshot(w: nat)
    | WaitOne(w: nat, kind: string, synced: bool)
    | Return(w: nat)

  ghost function Init<I>(): State<I> {
    State(map[], {}, multiset{}, [], map[])
  }

  ghost function Get<I>(s: State<I>, kind: string, made: I): State<I> {
    if kind in s.informers then s.(answers := s.answers + [(kind, s.informers[kind])])
    else s.(informers := s.informers[kind := made], answers := s.answers + [(kind, made)])
  }

  ghost function Unstarted<I>(s: State<I>): set<string> {
    s.informers.Keys - s.started
  }

  ghost function StartAll<I>(s: State<I>): State<I> {
    var fresh' := set k | k in Unstarted(s) :: s.informers[k];
    s.(started := s.started + s.informers.Keys, ran := s.ran + multiset(fresh'))
  }

  ghost function Running<I>(s: State<I>): map<string, I> {
    map k | k in s.informers && k in s.started :: s.informers[k]
  }

  ghost function Step<I>(s: State<I>, a: Action<I>): State<I> {
    match a
    case InformerFor(kind, made) =>
      if kind !in s.informers && (made in s.informers.Values || made in s.ran) then s
      else Get(s, kind, made)
    case Start => StartAll(s)
    case Snapshot(w) => if w in s.waits then s else s.(waits := s.waits[w := Wait(Running(s), map[])])
    case WaitOne(w, kind, synced) =>
      if w !in s.waits || kind !in s.waits[w].snapshot then s
      else s.(waits := s.waits[w := s.waits[w].(res := s.waits[w].res[kind := synced])])
    case Return(w) =>
      if w !in s.waits || s.waits[w].res.Keys != s.waits[w].snapshot.Keys then s
      else s.(waits := s.waits - {w})
  }

  ghost function Run<I>(s: State<I>, actions: seq<Action<I>>): State<I>
    decreases |actions|
  {
    if |actions| == 0 then s else Run(Step(s, actions[0]), actions[1..])
  }

  // ---------- What every step keeps ----------

  ghost predicate Registered<I>(s: State<I>) {
    && (forall k1, k2 :: k1 in s.informers && k2 in s.informers && s.informers[k1] == s.informers[k2] ==> k1 == k2)
    && s.started <= s.informers.Keys
    && (forall k :: k in s.informers ==> s.ran[s.informers[k]] == if k in s.started then 1 else 0)
    && (forall i :: i in s.ran ==> i in s.informers.Values)
    && (forall n :: 0 <= n < |s.answers| ==>
          s.answers[n].0 in s.informers && s.informers[s.answers[n].0] == s.answers[n].1)
  }

  ghost predicate WaitsOK<I>(s: State<I>) {
    && (forall w, k :: w in s.waits && k in s.waits[w].snapshot ==>
          k in s.started && k in s.informers && s.informers[k] == s.waits[w].snapshot[k])
    && (forall w :: w in s.waits ==> s.waits[w].res.Keys <= s.waits[w].snapshot.Keys)
  }

  ghost predicate Inv<I>(s: State<I>) {
    Registered(s) && WaitsOK(s)
  }

  ghost predicate Grows<I>(s: State<I>, s': State<I>) {
    && (forall k :: k in s.informers ==> k in s'.informers && s'.informers[k] == s.informers[k])
    && s.started <= s'.started
    && s.answers <= s'.answers
  }

  lemma StartRunsEach<I>(s: State<I>)
    requires Inv(s)
    ensures forall k :: k in s.informers ==> StartAll(s).ran[s.informers[k]] == 1
  {
    var fresh' := set k | k in Unstarted(s) :: s.informers[k];
    forall k | k in s.informers ensures StartAll(s).ran[s.informers[k]] == 1 {
      if k in s.started {
        assert s.informers[k] !in fresh';
      } else {
        assert k in Unstarted(s) && s.informers[k] in fresh';
      }
    }
  }

  lemma StartKeeps<I>(s: State<I>)
    requires Inv(s)
    ensures Inv(StartAll(s))
  {
    StartRunsEach(s);
  }

  lemma GetKeeps<I>(s: State<I>, kind: string, made: I)
    requires Inv(s)
    requires kind in s.informers || (made !in s.informers.Values && made !in s.ran)
    ensures Inv(Get(s, kind, made))
  {
    var s' := Get(s, kind, made);
    if kind !in s.informers {
      assert s'.informers[kind] == made;
      forall k | k in s.informers ensures s.informers[k] != made { assert s.informers[k] in s.informers.Values; }
      forall i | i in s'.ran ensures i in s'.informers.Values {
        var k :| k in s.informers && s.informers[k] == i;
        assert k in s'.informers && s'.informers[k] == i;
      }
    }
  }

  lemma StepKeeps<I>(s: State<I>, a: Action<I>)
    requires Inv(s)
    ensures Inv(Step(s, a)) && Grows(s, Step(s, a))
  {
    match a
    case InformerFor(kind, made) => if Step(s, a) != s { GetKeeps(s, kind, made); }
    case Start => StartKeeps(s);
    case _ => WaitKeeps(s, a);
  }

  lemma WaitKeeps<I>(s: State<I>, a: Action<I>)
    requires Inv(s) && !a.InformerFor? && !a.Start?
    ensures Inv(Step(s, a)) && Grows(s, Step(s, a))
  {
    WaitsKept(s, a);
    assert Step(s, a) == s.(waits := Step(s, a).waits);
  }

  lemma WaitsKept<I>(s: State<I>, a: Action<I>)
    requires WaitsOK(s) && !a.InformerFor? && !a.Start?
    ensures WaitsOK(Step(s, a))
  {
  }

  lemma {:induction false} RunKeeps<I>(s: State<I>, actions: seq<Action<I>>)
    requires Inv(s)
    ensures Inv(Run(s, actions)) && Grows(s, Run(s, actions))
    decreases |actions|
  {
    if |actions| > 0 {
      StepKeeps(s, actions[0]);
      RunKeeps(Step(s, actions[0]), actions[1..]);
    }
  }

  // Under every interleaving each type has one informer, not shared with another
  // type; all callers for a type ever got that one; it was run at most once, and
  // exactly once if its type is marked started; and only registered types are.
  lemma OneInformerPerType<I>(actions: seq<Action<I>>)
    ensures var s := Run(Init<I>(), actions);
      && (forall m, n :: 0 <= m < n < |s.answers| && s.answers[m].0 == s.answers[n].0 ==>
            s.answers[m].1 == s.answers[n].1)
      && (forall m, n :: 0 <= m < n < |s.answers| && s.answers[m].1 == s.answers[n].1 ==>
            s.answers[m].0 == s.answers[n].0)
      && (forall i :: s.ran[i] <= 1)
      && (forall k :: k in s.informers ==> s.ran[s.informers[k]] == if k in s.started then 1 else 0)
      && s.started <= s.informers.Keys
  {
    var s := Run(Init<I>(), actions);
    RunKeeps(Init<I>(), actions);
    forall i ensures s.ran[i] <= 1 {
      if i in s.ran {
        var k :| k in s.informers && s.informers[k] == i;
      }
    }
  }

  // An informer is never replaced, and a started type stays started.
  lemma NeverReplaced<I>(actions: seq<Action<I>>, more: seq<Action<I>>, kind: string)
    requires kind in Run(Init<I>(), actions).informers
    ensures var s := Run(Init<I>(), actions); var s' := Run(s, more);
      kind in s'.informers && s'.informers[kind] == s.informers[kind] && s.started <= s'.started
  {
    RunKeeps(Init<I>(), actions);
    RunKeeps(Run(Init<I>(), actions), more);
  }

  // ---------- WaitForCacheSync ----------

  lemma {:induction false} WaitKeepsSnapshot<I>(s: State<I>, actions: seq<Action<I>>, w: nat)
    requires w in s.waits && forall n :: 0 <= n < |actions| ==> actions[n] != Return(w)
    ensures w in Run(s, actions).waits && Run(s, actions).waits[w].snapshot == s.waits[w].snapshot
    decreases |actions|
  {
    if |actions| > 0 {
      assert actions[0] != Return(w);
      WaitKeepsSnapshot(Step(s, actions[0]), actions[1..], w);
    }
  }

  lemma SnapshotTaken<I>(s: State<I>, w: nat)
    requires w !in s.waits
    ensures var s1 := Step(s, Snapshot(w));
      w in s1.waits && s1.waits[w].snapshot == Running(s)
  {
  }

  lemma MayReturn<I>(s: State<I>, w: nat)
    requires w in s.waits
    ensures w !in Step(s, Return(w)).waits <==> s.waits[w].res.Keys == s.waits[w].snapshot.Keys
  {
  }

  // What a wait knows, long after its snapshot.
  lemma WaitSees<I>(s: State<I>, s': State<I>, w: nat)
    requires Inv(s) && Inv(s') && w in s'.waits && s'.waits[w].snapshot == Running(s)
    ensures s'.waits[w].res.Keys <= s.informers.Keys * s.started
    ensures s'.waits[w].snapshot.Keys == s.informers.Keys * s.started
    ensures forall k :: k in s'.waits[w].res ==> s.ran[s.informers[k]] == 1
  {
    assert Running(s).Keys == s.informers.Keys * s.started;
  }

  // Whatever is registered or started while it waits, WaitForCacheSync has answers
  // for types of its snapshot only; it can return exactly when it has one for each
  // type that was registered and started when it took the snapshot; and the
  // informers it waits on had all been run by then.
  lemma WaitsForSnapshot<I>(before: seq<Action<I>>, w: nat, during: seq<Action<I>>)
    requires w !in Run(Init<I>(), before).waits
    requires forall n :: 0 <= n < |during| ==> during[n] != Return(w)
    ensures var s := Run(Init<I>(), before);
      var s' := Run(Step(s, Snapshot(w)), during);
      && w in s'.waits
      && s'.waits[w].res.Keys <= s.informers.Keys * s.started
      && (w !in Step(s', Return(w)).waits <==> s'.waits[w].res.Keys == s.informers.Keys * s.started)
      && forall k :: k in s'.waits[w].res ==> s.ran[s.informers[k]] == 1
  {
    var s := Run(Init<I>(), before);
    var s1 := Step(s, Snapshot(w));
    var s' := Run(s1, during);
    RunKeeps(Init<I>(), before);
    StepKeeps(s, Snapshot(w));
    SnapshotTaken(s, w);
    RunKeeps(s1, during);
    WaitKeepsSnapshot(s1, during, w);
    WaitSees(s, s', w);
    MayReturn(s', w);
  }
}
