// What reconciles leave in the store of GitCommits in the course of a run: the polls
// of all watchers, and the first commits that the GitHub provider applies.
module PollingRuns {
  import opened Types
  import opened Maps
  import opened Format
  import opened Reconcile
  import opened Deliveries
  import opened System
  import P = Protocol

  // ---------- What is applied ----------

  // The GitCommits that reconciles applied in the course of a run, in order.
  function Applied(cfg: Config, actions: seq<Action>): seq<GitCommit> {
    if |actions| == 0 then []
    else
      var before := actions[..|actions| - 1];
      Applied(cfg, before) + AppliedBy(cfg, Run(cfg, Init, before), actions[|actions| - 1])
  }

  function AppliedBy(cfg: Config, w: World, a: Action): seq<GitCommit> {
    var c := if a.Reconcile? then P.AppliedCommit(cfg, w.r, a.a) else None;
    if c.Some? then [c.value] else []
  }

  function UpsertAll(cs: seq<GitCommit>): map<Key, GitCommit> {
    if |cs| == 0 then map[]
    else Upsert(UpsertAll(cs[..|cs| - 1]), cs[|cs| - 1])
  }

  // The last GitCommit applied under a key.
  function LastApplied(cs: seq<GitCommit>, key: Key): Option<GitCommit> {
    if |cs| == 0 then None
    else if cs[|cs| - 1].key == key then Some(cs[|cs| - 1])
    else LastApplied(cs[..|cs| - 1], key)
  }

  // A GitCommit cut down to the fields that an apply names.
  function Named(c: GitCommit): GitCommit {
    GitCommit(c.key, c.labels, c.owners,
              EmptyCommitSpec.(branch := c.spec.branch, repositoryURL := c.spec.repositoryURL,
                               commit := c.spec.commit, gitWatcherName := c.spec.gitWatcherName),
              EmptyCommitStatus)
  }

  // The other fields, and the key.
  function Unnamed(c: GitCommit): GitCommit {
    GitCommit(c.key, map[], [],
              CommitSpec(c.spec.action, c.spec.payload, "", "", "", c.spec.tag, c.spec.pr, c.spec.merged, c.spec.closed,
                         c.spec.sourceLink, "", c.spec.title, c.spec.message, c.spec.author, c.spec.authorEmail,
                         c.spec.authorAvatar),
              c.status)
  }

  // What reconciles apply: named by watcher and commit, and nothing beyond those fields.
  ghost predicate Desired(cfg: Config, c: GitCommit) {
    Named(c) == c && c.key.name == CommitName(cfg, c.spec.gitWatcherName, c.spec.commit)
  }

  lemma {:induction false} RunSnoc(cfg: Config, w: World, before: seq<Action>, a: Action)
    ensures Run(cfg, w, before + [a]) == Step(cfg, Run(cfg, w, before), a)
    decreases |before|
  {
    if |before| == 0 {
      assert before + [a] == [a];
      assert Run(cfg, Step(cfg, w, a), [a][1..]) == Step(cfg, w, a);
    } else {
      assert (before + [a])[1..] == before[1..] + [a];
      RunSnoc(cfg, Step(cfg, w, before[0]), before[1..], a);
    }
  }

  lemma AppliedSnoc(cfg: Config, before: seq<Action>, a: Action)
    ensures Applied(cfg, before + [a]) == Applied(cfg, before) + AppliedBy(cfg, Run(cfg, Init, before), a)
  {
    assert (before + [a])[..|before|] == before;
  }

  lemma {:induction false} AppliedDesired(cfg: Config, actions: seq<Action>)
    ensures forall c :: c in Applied(cfg, actions) ==> Desired(cfg, c)
  {
    if |actions| > 0 {
      AppliedDesired(cfg, actions[..|actions| - 1]);
    }
  }

  lemma {:induction false} LastIsApplied(cs: seq<GitCommit>, key: Key)
    ensures LastApplied(cs, key).Some? <==> exists c :: c in cs && c.key == key
    ensures LastApplied(cs, key).Some? ==> LastApplied(cs, key).value in cs && LastApplied(cs, key).value.key == key
  {
    if |cs| > 0 {
      LastIsApplied(cs[..|cs| - 1], key);
      assert cs == cs[..|cs| - 1] + [cs[|cs| - 1]];
    }
  }

  lemma LastSnoc(cs: seq<GitCommit>, c: GitCommit, key: Key)
    ensures LastApplied(cs + [c], key) == if c.key == key then Some(c) else LastApplied(cs, key)
  {
    assert (cs + [c])[..|cs|] == cs;
  }

  // ---------- The store in a run ----------

  lemma UpsertNames(commits: map<Key, GitCommit>, c: GitCommit)
    requires Named(c) == c && (c.key in commits ==> commits[c.key].key == c.key)
    ensures var after := Upsert(commits, c);
      && after.Keys == commits.Keys + {c.key}
      && Named(after[c.key]) == c
      && (c.key in commits ==> Unnamed(after[c.key]) == Unnamed(commits[c.key]))
      && (c.key !in commits || Named(commits[c.key]) == commits[c.key] ==> after[c.key] == c)
      && (after == commits <==> c.key in commits && Named(commits[c.key]) == c)
      && Upsert(after, c) == after
  {
    var after := Upsert(commits, c);
    if c.key in commits {
      assert after == commits[c.key := Merge(commits[c.key], c)];
      assert Merge(Merge(commits[c.key], c), c) == Merge(commits[c.key], c);
      if Named(commits[c.key]) == c { assert Merge(commits[c.key], c) == commits[c.key]; }
    }
    assert Upsert(after, c) == after;
  }

  // What the store has under a key, after cs was applied.
  ghost predicate Latest(w: World, cs: seq<GitCommit>, key: Key) {
    var last := LastApplied(cs, key);
    && (key in w.commits <==> last.Some? || key in FromDeliveries(w.d))
    && (key in w.commits ==> w.commits[key].key == key)
    && (last.Some? ==> Named(w.commits[key]) == last.value)
    && (last.Some? && key !in FromDeliveries(w.d) ==> w.commits[key] == last.value)
  }

  lemma StepKeepsLatest(cfg: Config, w: World, a: Action, cs: seq<GitCommit>, key: Key)
    requires Latest(w, cs, key)
    ensures Latest(Step(cfg, w, a), cs + AppliedBy(cfg, w, a), key)
  {
    var w' := Step(cfg, w, a);
    if AppliedBy(cfg, w, a) != [] {
      var c := AppliedBy(cfg, w, a)[0];
      assert AppliedBy(cfg, w, a) == [c];
      LastSnoc(cs, c, key);
      if c.key == key { UpsertNames(w.commits, c); }
    } else {
      assert cs + [] == cs;
      match a
      case Record(n, suffix, create) => if n in w.d.pending { RecordLatest(w, n, suffix, create, cs, key); }
      case Deliver(n, req, answer) =>
        StartDelivers(w.d, n, HandleHook(cfg, StoredWatcher(w.r, ReceiverKey(req)), req), Numbered(req), answer);
      case _ =>
    }
  }

  lemma RecordLatest(w: World, n: nat, suffix: string, create: CreateAnswer, cs: seq<GitCommit>, key: Key)
    requires Latest(w, cs, key) && n in w.d.pending
    ensures Latest(FinishDelivery(w, n, suffix, create), cs, key)
  {
  }

  lemma StartDelivers(d: Hub, n: nat, p: Prepared, numbered: bool, answer: DeployAnswer)
    ensures FromDeliveries(StartDelivery(d, n, p, numbered, answer)) == FromDeliveries(d)
  {
  }

  // In every run, with spec edits, several watchers, both providers and deliveries in
  // between: a key is stored exactly when something was applied under it or it came from
  // a delivery; the fields that an apply names are those of the last GitCommit applied
  // under it, and unless it came from a delivery that is all there is.
  lemma {:induction false} PolledIsLatest(cfg: Config, actions: seq<Action>, key: Key)
    ensures Latest(Run(cfg, Init, actions), Applied(cfg, actions), key)
  {
    if |actions| > 0 {
      var before, a := actions[..|actions| - 1], actions[|actions| - 1];
      assert actions == before + [a];
      RunSnoc(cfg, Init, before, a);
      PolledIsLatest(cfg, before, key);
      StepKeepsLatest(cfg, Run(cfg, Init, before), a, Applied(cfg, before), key);
    }
  }

  ghost predicate SameAt(m1: map<Key, GitCommit>, m2: map<Key, GitCommit>, key: Key) {
    (key in m1 <==> key in m2) && (key in m1 ==> m1[key] == m2[key])
  }

  lemma {:induction false} UpsertAllIsLatest(cs: seq<GitCommit>, key: Key)
    requires forall c :: c in cs ==> Named(c) == c
    ensures key in UpsertAll(cs) <==> LastApplied(cs, key).Some?
    ensures key in UpsertAll(cs) ==> UpsertAll(cs)[key] == LastApplied(cs, key).value
  {
    if |cs| > 0 {
      var before, c := cs[..|cs| - 1], cs[|cs| - 1];
      assert cs == before + [c];
      UpsertAllIsLatest(before, key);
      LastIsApplied(before, key);
      if c.key == key { UpsertNames(UpsertAll(before), c); }
    }
  }

  // Apart from the GitCommits that came from deliveries, the store is the fold of
  // upserts, by namespace and name, over everything that reconciles applied.
  lemma StoreIsFold(cfg: Config, actions: seq<Action>)
    ensures var w := Run(cfg, Init, actions);
      forall key :: key !in FromDeliveries(w.d) ==> SameAt(w.commits, UpsertAll(Applied(cfg, actions)), key)
  {
    AppliedDesired(cfg, actions);
    forall key ensures Latest(Run(cfg, Init, actions), Applied(cfg, actions), key) {
      PolledIsLatest(cfg, actions, key);
    }
    forall key
      ensures key in UpsertAll(Applied(cfg, actions)) <==> LastApplied(Applied(cfg, actions), key).Some?
      ensures key in UpsertAll(Applied(cfg, actions)) ==>
        UpsertAll(Applied(cfg, actions))[key] == LastApplied(Applied(cfg, actions), key).value
    {
      UpsertAllIsLatest(Applied(cfg, actions), key);
    }
    var w := Run(cfg, Init, actions);
    forall key | key !in FromDeliveries(w.d) ensures SameAt(w.commits, UpsertAll(Applied(cfg, actions)), key) {
      assert Latest(w, Applied(cfg, actions), key);
    }
  }

  // An apply at any moment of any run changes nothing exactly when what it names is
  // there already; where something was applied before, or no delivery came in between,
  // exactly when it repeats the last apply under its name. Repeating it at once never
  // changes anything.
  lemma RepollChangesNothing(cfg: Config, actions: seq<Action>, a: P.Action)
    requires P.AppliedCommit(cfg, Run(cfg, Init, actions).r, a).Some?
    ensures var w := Run(cfg, Init, actions); var c := P.AppliedCommit(cfg, w.r, a).value;
      var after := Step(cfg, w, Reconcile(a)).commits; var last := LastApplied(Applied(cfg, actions), c.key);
      && (after == w.commits <==> c.key in w.commits && Named(w.commits[c.key]) == c)
      && (last.Some? || c.key !in FromDeliveries(w.d) ==> (after == w.commits <==> last == Some(c)))
      && Upsert(after, c) == after
  {
    var w := Run(cfg, Init, actions);
    var c := P.AppliedCommit(cfg, w.r, a).value;
    PolledIsLatest(cfg, actions, c.key);
    UpsertNames(w.commits, c);
  }

  // ---------- One GitCommit per head ----------

  // c was applied for the watcher k.
  ghost predicate For(c: GitCommit, k: Key) {
    c.key.ns == k.ns && c.spec.gitWatcherName == k.name
  }

  ghost predicate SameHead(c1: GitCommit, c2: GitCommit) {
    c1.spec.gitWatcherName == c2.spec.gitWatcherName && c1.spec.commit == c2.spec.commit
  }

  // No name was used for two heads.
  ghost predicate NoCollision(cs: seq<GitCommit>) {
    forall c1, c2 :: c1 in cs && c2 in cs && c1.key == c2.key ==> SameHead(c1, c2)
  }

  // Every applied head has its GitCommit.
  ghost predicate AllHeld(w: World, cs: seq<GitCommit>) {
    forall c :: c in cs ==> c.key in w.commits && SameHead(w.commits[c.key], c)
  }

  ghost function Heads(cs: seq<GitCommit>, k: Key): set<string> {
    set c | c in cs && For(c, k) :: c.spec.commit
  }

  // The stored GitCommits of k that reconciles applied.
  ghost function PolledOf(w: World, cs: seq<GitCommit>, k: Key): set<Key> {
    set key | key in w.commits && For(w.commits[key], k) && LastApplied(cs, key).Some?
  }

  // In every run each applied head of each watcher still has its own GitCommit if and
  // only if no name was used for two heads; and then each watcher has exactly as many
  // GitCommits from reconciles as distinct heads were applied for it.
  lemma OnePerHead(cfg: Config, actions: seq<Action>, k: Key)
    ensures var w := Run(cfg, Init, actions); var cs := Applied(cfg, actions);
      && (NoCollision(cs) <==> AllHeld(w, cs))
      && (NoCollision(cs) ==> |PolledOf(w, cs, k)| == |Heads(cs, k)|)
  {
    var w := Run(cfg, Init, actions);
    var cs := Applied(cfg, actions);
    forall key ensures Latest(w, cs, key) {
      PolledIsLatest(cfg, actions, key);
    }
    HeldWithoutCollision(w, cs);
    AppliedDesired(cfg, actions);
    if NoCollision(cs) { CountHeads(cfg, w, cs, k); }
  }

  lemma HeldWithoutCollision(w: World, cs: seq<GitCommit>)
    requires forall key :: Latest(w, cs, key)
    ensures NoCollision(cs) <==> AllHeld(w, cs)
  {
    forall c | c in cs
      ensures c.key in w.commits
      ensures NoCollision(cs) ==> SameHead(w.commits[c.key], c)
    {
      LastIsApplied(cs, c.key);
      var last := LastApplied(cs, c.key).value;
      assert Latest(w, cs, c.key) && Named(w.commits[c.key]) == last;
      if NoCollision(cs) { assert SameHead(last, c); }
    }
  }

  lemma CountHeads(cfg: Config, w: World, cs: seq<GitCommit>, k: Key)
    requires forall c :: c in cs ==> Desired(cfg, c)
    requires NoCollision(cs) && AllHeld(w, cs) && forall key :: Latest(w, cs, key)
    ensures |PolledOf(w, cs, k)| == |Heads(cs, k)|
  {
    var names := map h | h in Heads(cs, k) :: Key(k.ns, CommitName(cfg, k.name, h));
    InjectiveHeads(cfg, cs, k, names);
    InjectiveSize(names);
    assert names.Keys == Heads(cs, k) && |names| == |names.Keys|;
    forall key ensures key in PolledOf(w, cs, k) <==> key in names.Values {
      NameOfHead(cfg, w, cs, k, names, key);
    }
    assert PolledOf(w, cs, k) == names.Values;
  }

  lemma InjectiveHeads(cfg: Config, cs: seq<GitCommit>, k: Key, names: map<string, Key>)
    requires forall c :: c in cs ==> Desired(cfg, c)
    requires NoCollision(cs)
    requires names == map h | h in Heads(cs, k) :: Key(k.ns, CommitName(cfg, k.name, h))
    ensures Injective(names)
  {
    forall h1, h2 | h1 in names && h2 in names && names[h1] == names[h2] ensures h1 == h2 {
      var c1 :| c1 in cs && For(c1, k) && c1.spec.commit == h1;
      var c2 :| c2 in cs && For(c2, k) && c2.spec.commit == h2;
      assert Desired(cfg, c1) && Desired(cfg, c2);
      assert c1.key == names[h1] && c2.key == names[h2];
    }
  }

  lemma NameOfHead(cfg: Config, w: World, cs: seq<GitCommit>, k: Key, names: map<string, Key>, key: Key)
    requires forall c :: c in cs ==> Desired(cfg, c)
    requires AllHeld(w, cs) && Latest(w, cs, key)
    requires names == map h | h in Heads(cs, k) :: Key(k.ns, CommitName(cfg, k.name, h))
    ensures key in PolledOf(w, cs, k) <==> key in names.Values
  {
    LastIsApplied(cs, key);
    if key in PolledOf(w, cs, k) {
      var c := LastApplied(cs, key).value;
      assert Desired(cfg, c) && For(c, k);
      assert c.spec.commit in names && names[c.spec.commit] == key;
    }
    if key in names.Values {
      var h :| h in names && names[h] == key;
      var c :| c in cs && For(c, k) && c.spec.commit == h;
      assert Desired(cfg, c) && c.key == key;
      assert SameHead(w.commits[key], c);
    }
  }

  // ---------- When names collide ----------

  function ShortHash(cfg: Config, commit: string): string {
    Limit(cfg.md5Hex(commit), 5)
  }

  // With watcher names of up to 57 characters two GitCommits share a name exactly when
  // they have the same watcher name and the same short hash.
  lemma NamesFollowHashes(cfg: Config, name1: string, h1: string, name2: string, h2: string)
    requires |ShortHash(cfg, h1)| == 5 && |ShortHash(cfg, h2)| == 5 && |name1| <= 57 && |name2| <= 57
    ensures CommitName(cfg, name1, h1) == CommitName(cfg, name2, h2) <==>
      name1 == name2 && ShortHash(cfg, h1) == ShortHash(cfg, h2)
  {
    var f1, f2 := name1 + "-" + ShortHash(cfg, h1), name2 + "-" + ShortHash(cfg, h2);
    assert CommitName(cfg, name1, h1) == f1 && CommitName(cfg, name2, h2) == f2;
    assert f1[|name1| + 1..] == ShortHash(cfg, h1) && f2[|name2| + 1..] == ShortHash(cfg, h2);
    assert f1[..|name1|] == name1 && f2[..|name2|] == name2;
  }

  // For a longer name the short hash is cut off, and two heads share a name exactly when
  // the digests of the uncut names begin alike.
  lemma LongNamesFollowDigests(cfg: Config, name: string, h1: string, h2: string)
    requires |ShortHash(cfg, h1)| == 5 && |ShortHash(cfg, h2)| == 5 && |name| > 57
    ensures CommitName(cfg, name, h1) == CommitName(cfg, name, h2) <==>
      Limit(cfg.sha256Hex(name + "-" + ShortHash(cfg, h1)), 5) ==
      Limit(cfg.sha256Hex(name + "-" + ShortHash(cfg, h2)), 5)
  {
    var f1, f2 := name + "-" + ShortHash(cfg, h1), name + "-" + ShortHash(cfg, h2);
    assert f1[..57] == name[..57] && f2[..57] == name[..57];
    var s1, s2 := Limit(cfg.sha256Hex(f1), 5), Limit(cfg.sha256Hex(f2), 5);
    var n1, n2 := f1[..57] + "-" + s1, f2[..57] + "-" + s2;
    assert n1[58..] == s1 && n2[58..] == s2;
  }

  // So with such names, and short hashes that tell each watcher's applied heads apart,
  // every run keeps one GitCommit per head.
  lemma OnePerHeadByHash(cfg: Config, actions: seq<Action>, k: Key)
    requires var cs := Applied(cfg, actions);
      && (forall c :: c in cs ==> |c.spec.gitWatcherName| <= 57 && |ShortHash(cfg, c.spec.commit)| == 5)
      && (forall c1, c2 ::
            (c1 in cs && c2 in cs && For(c2, Key(c1.key.ns, c1.spec.gitWatcherName)) &&
             ShortHash(cfg, c1.spec.commit) == ShortHash(cfg, c2.spec.commit)) ==> c1.spec.commit == c2.spec.commit)
    ensures var w := Run(cfg, Init, actions); var cs := Applied(cfg, actions);
      AllHeld(w, cs) && |PolledOf(w, cs, k)| == |Heads(cs, k)|
  {
    var cs := Applied(cfg, actions);
    AppliedDesired(cfg, actions);
    forall c1, c2 | c1 in cs && c2 in cs && c1.key == c2.key ensures SameHead(c1, c2) {
      assert Desired(cfg, c1) && Desired(cfg, c2);
      NamesFollowHashes(cfg, c1.spec.gitWatcherName, c1.spec.commit, c2.spec.gitWatcherName, c2.spec.commit);
      assert For(c2, Key(c1.key.ns, c1.spec.gitWatcherName));
    }
    OnePerHead(cfg, actions, k);
  }

  // ---------- A run in which they do ----------

  function PollAnswers(head: string): StartAnswers {
    StartAnswers(Found, Found, "", Refused(""), Found, Ok([head]))
  }

  // A run, followed by a poll that finds this head and is cut off before its Update.
  function Polls(before: seq<Action>, k: Key, f: nat, head: string): seq<Action> {
    before + [Reconcile(P.Requeue(k))] + [Reconcile(P.Begin(f, k))] + [Reconcile(P.Call(f, PollAnswers(head)))] +
    [Reconcile(P.Apply(f, ApplyAnswer(true, None)))] + [Reconcile(P.Crash(f))]
  }

  // The watcher o is cached, and only polling supports it.
  ghost predicate CanPoll(r: P.Reconciler, k: Key, f: nat, o: Watcher) {
    && k in r.cached && k in r.revisions && r.cached[k] < |r.revisions[k]| && f !in r.flights
    && r.revisions[k][r.cached[k]].obj == o
    && o.spec.githubWebhookToken == "" && o.status.hookID == "" && o.spec.branch != ""
  }

  lemma PollStarts(cfg: Config, o: Watcher, head: string)
    requires o.spec.githubWebhookToken == "" && o.status.hookID == "" && o.spec.branch != "" && Word(head)
    ensures StartReconcile(cfg, o, PollAnswers(head)) == Start(Fetched(o, None, head, Polling), None)
  {
    WordIsItself(head);
  }

  lemma PollSteps(cfg: Config, r: P.Reconciler, k: Key, f: nat, o: Watcher, head: string)
    requires CanPoll(r, k, f, o) && Word(head)
    ensures var r1 := P.Step(cfg, r, P.Requeue(k)); var r2 := P.Step(cfg, r1, P.Begin(f, k));
      var r3 := P.Step(cfg, r2, P.Call(f, PollAnswers(head))); var apply := P.Apply(f, ApplyAnswer(true, None));
      && P.AppliedCommit(cfg, r3, apply) == Some(DesiredCommit(cfg, o, head))
      && CanPoll(P.Step(cfg, P.Step(cfg, r3, apply), P.Crash(f)), k, f, o)
  {
    PollStarts(cfg, o, head);
    var r2 := P.Step(cfg, P.Step(cfg, r, P.Requeue(k)), P.Begin(f, k));
    assert r2.flights[f] == P.Flight(o, Started);
    var r3 := P.Step(cfg, r2, P.Call(f, PollAnswers(head)));
    assert r3.flights[f] == P.Flight(o, Fetched(o, None, head, Polling));
  }

  lemma PollApplies(cfg: Config, before: seq<Action>, k: Key, f: nat, o: Watcher, head: string)
    requires CanPoll(Run(cfg, Init, before).r, k, f, o) && Word(head)
    ensures Applied(cfg, Polls(before, k, f, head)) == Applied(cfg, before) + [DesiredCommit(cfg, o, head)]
    ensures CanPoll(Run(cfg, Init, Polls(before, k, f, head)).r, k, f, o)
  {
    PollSteps(cfg, Run(cfg, Init, before).r, k, f, o, head);
    var a1 := before + [Reconcile(P.Requeue(k))];
    var a2 := a1 + [Reconcile(P.Begin(f, k))];
    var a3 := a2 + [Reconcile(P.Call(f, PollAnswers(head)))];
    var a4 := a3 + [Reconcile(P.Apply(f, ApplyAnswer(true, None)))];
    AppendReconcile(cfg, before, P.Requeue(k));
    AppendReconcile(cfg, a1, P.Begin(f, k));
    AppendReconcile(cfg, a2, P.Call(f, PollAnswers(head)));
    AppendReconcile(cfg, a3, P.Apply(f, ApplyAnswer(true, None)));
    AppendReconcile(cfg, a4, P.Crash(f));
  }

  lemma AppendReconcile(cfg: Config, before: seq<Action>, a: P.Action)
    ensures var w := Run(cfg, Init, before); var after := before + [Reconcile(a)];
      && Run(cfg, Init, after).r == P.Step(cfg, w.r, a)
      && Applied(cfg, after) == Applied(cfg, before) +
           (if P.AppliedCommit(cfg, w.r, a).Some? then [P.AppliedCommit(cfg, w.r, a).value] else [])
  {
    RunSnoc(cfg, Init, before, Reconcile(a));
    AppliedSnoc(cfg, before, Reconcile(a));
  }

  // The new watcher, stored and cached.
  function Begun(k: Key, uid: string, spec: WatcherSpec): seq<Action> {
    [] + [Reconcile(P.CreateWatcher(k, uid, spec))] + [Reconcile(P.CatchUp(k, 0))]
  }

  lemma NewWatcherCached(cfg: Config, k: Key, uid: string, spec: WatcherSpec, f: nat)
    requires spec.githubWebhookToken == "" && spec.branch != ""
    ensures var r := P.Step(cfg, P.Step(cfg, P.Init, P.CreateWatcher(k, uid, spec)), P.CatchUp(k, 0));
      CanPoll(r, k, f, Watcher(k, uid, 0, spec, EmptyWatcherStatus))
  {
    var r1 := P.Step(cfg, P.Init, P.CreateWatcher(k, uid, spec));
    assert r1.revisions[k] == [P.Revision(Watcher(k, uid, 0, spec, EmptyWatcherStatus), P.User)];
  }

  lemma BegunCanPoll(cfg: Config, k: Key, uid: string, spec: WatcherSpec, f: nat)
    requires spec.githubWebhookToken == "" && spec.branch != ""
    ensures CanPoll(Run(cfg, Init, Begun(k, uid, spec)).r, k, f, Watcher(k, uid, 0, spec, EmptyWatcherStatus))
    ensures Applied(cfg, Begun(k, uid, spec)) == []
  {
    var none: seq<Action> := [];
    var one := none + [Reconcile(P.CreateWatcher(k, uid, spec))];
    NewWatcherCached(cfg, k, uid, spec, f);
    AppendReconcile(cfg, none, P.CreateWatcher(k, uid, spec));
    AppendReconcile(cfg, one, P.CatchUp(k, 0));
    assert Run(cfg, Init, none) == Init;
  }

  // Any two heads that share a name end up in one GitCommit when both are polled.
  lemma CollisionLosesHead(cfg: Config, k: Key, uid: string, spec: WatcherSpec, h1: string, h2: string)
    requires spec.githubWebhookToken == "" && spec.branch != "" && Word(h1) && Word(h2) && h1 != h2
    requires CommitName(cfg, k.name, h1) == CommitName(cfg, k.name, h2)
    ensures var actions := Polls(Polls(Begun(k, uid, spec), k, 0, h1), k, 0, h2);
      var w := Run(cfg, Init, actions); var cs := Applied(cfg, actions);
      && Heads(cs, k) == {h1, h2} && !AllHeld(w, cs) && |PolledOf(w, cs, k)| == 1
  {
    var o := Watcher(k, uid, 0, spec, EmptyWatcherStatus);
    var first := Begun(k, uid, spec);
    var second := Polls(first, k, 0, h1);
    BegunCanPoll(cfg, k, uid, spec, 0);
    PollApplies(cfg, first, k, 0, o, h1);
    PollApplies(cfg, second, k, 0, o, h2);
    var actions := Polls(second, k, 0, h2);
    TwoApplied(cfg, actions, k, DesiredCommit(cfg, o, h1), DesiredCommit(cfg, o, h2));
  }

  lemma TwoApplied(cfg: Config, actions: seq<Action>, k: Key, c1: GitCommit, c2: GitCommit)
    requires Applied(cfg, actions) == [c1] + [c2] && c1.key == c2.key && For(c1, k) && For(c2, k)
    requires c1.spec.commit != c2.spec.commit
    ensures var w := Run(cfg, Init, actions); var cs := Applied(cfg, actions);
      && Heads(cs, k) == {c1.spec.commit, c2.spec.commit} && !AllHeld(w, cs) && |PolledOf(w, cs, k)| == 1
  {
    forall key ensures Latest(Run(cfg, Init, actions), Applied(cfg, actions), key) {
      PolledIsLatest(cfg, actions, key);
    }
    TwoHeld(Run(cfg, Init, actions), k, c1, c2);
  }

  lemma TwoHeld(w: World, k: Key, c1: GitCommit, c2: GitCommit)
    requires c1.key == c2.key && For(c1, k) && For(c2, k) && c1.spec.commit != c2.spec.commit
    requires forall key :: Latest(w, [c1] + [c2], key)
    ensures var cs := [c1] + [c2];
      Heads(cs, k) == {c1.spec.commit, c2.spec.commit} && !AllHeld(w, cs) && |PolledOf(w, cs, k)| == 1
  {
    var cs := [c1] + [c2];
    assert cs[0] == c1 && cs[1] == c2;
    assert c1 in cs && c2 in cs && !SameHead(c1, c2);
    HeldWithoutCollision(w, cs);
    forall key ensures key in PolledOf(w, cs, k) <==> key == c1.key {
      OnlyKey(w, c1, c2, k, key);
    }
    assert PolledOf(w, cs, k) == {c1.key};
  }

  lemma OnlyKey(w: World, c1: GitCommit, c2: GitCommit, k: Key, key: Key)
    requires c1.key == c2.key && For(c2, k) && Latest(w, [c1] + [c2], key)
    ensures key in PolledOf(w, [c1] + [c2], k) <==> key == c1.key
  {
    LastSnoc([c1], c2, key);
    assert LastApplied([c1], key) == if c1.key == key then Some(c1) else None by {
      LastSnoc([], c1, key);
      assert [] + [c1] == [c1];
    }
    if key == c1.key { assert Named(w.commits[key]) == c2; }
  }

  // Distinct short hashes are not enough: for every watcher name of more than 57
  // characters there are digests that give two heads distinct short hashes of full
  // length, and a run in which one of the two is lost.
  lemma LongNamesCollide(k: Key, uid: string, spec: WatcherSpec)
    requires |k.name| > 57 && spec.githubWebhookToken == "" && spec.branch != ""
    ensures exists cfg, actions, h1, h2 ::
      var w := Run(cfg, Init, actions); var cs := Applied(cfg, actions);
      && Heads(cs, k) == {h1, h2} && |ShortHash(cfg, h1)| == |ShortHash(cfg, h2)| == 5
      && ShortHash(cfg, h1) != ShortHash(cfg, h2)
      && !AllHeld(w, cs) && |PolledOf(w, cs, k)| == 1
  {
    var cfg, h1, h2 := CollidingDigests(k.name);
    CollisionLosesHead(cfg, k, uid, spec, h1, h2);
    var actions := Polls(Polls(Begun(k, uid, spec), k, 0, h1), k, 0, h2);
    assert Heads(Applied(cfg, actions), k) == {h1, h2};
  }

  lemma CollidingDigests(name: string) returns (cfg: Config, h1: string, h2: string)
    requires |name| > 57
    ensures Word(h1) && Word(h2) && h1 != h2 && |ShortHash(cfg, h1)| == |ShortHash(cfg, h2)| == 5
    ensures ShortHash(cfg, h1) != ShortHash(cfg, h2) && CommitName(cfg, name, h1) == CommitName(cfg, name, h2)
  {
    cfg := Config(url => None, commit => commit, name => "00000", (pattern, tag) => None, "");
    h1, h2 := "aaaaa", "bbbbb";
    assert h1[0] != h2[0];
    assert ShortHash(cfg, h1) == h1 && ShortHash(cfg, h2) == h2;
    LongNamesFollowDigests(cfg, name, h1, h2);
  }
}
