// pkg/apis/gitwatcher.cattle.io/v1/zz_generated_deepcopy.go on a heap: maps, slices
// and pointers are objects, nil is null, and a struct inside a struct is an object that
// its owner never exchanges. A copy has the value of its original and shares no storage
// with it.
module DeepCopy {
  import opened Types
  import opened Reconcile

  // ---------- Go maps, slices and pointers ----------

  class StringMap {
    var m: map<string, string>

    constructor (m: map<string, string>)
      ensures this.m == m
    {
      this.m := m;
    }
  }

  class Cell<T> {
    var value: T

    constructor (value: T)
      ensures this.value == value
    {
      this.value := value;
    }
  }

  function MapValue(p: StringMap?): Option<map<string, string>>
    reads p
  {
    if p == null then None else Some(p.m)
  }

  function SliceValue<T>(a: array?<T>): Option<seq<T>>
    reads a
  {
    if a == null then None else Some(a[..])
  }

  function CellValue<T>(p: Cell?<T>): Option<T>
    reads p
  {
    if p == null then None else Some(p.value)
  }

  ghost function One(o: object?): set<object> {
    if o == null then {} else {o}
  }

  method CopyMap(p: StringMap?) returns (q: StringMap?)
    ensures MapValue(q) == MapValue(p)
    ensures fresh(One(q))
  {
    if p == null {
      return null;
    }
    q := new StringMap(map[]);
    var left := p.m.Keys;
    while left != {}
      invariant left <= p.m.Keys
      invariant p.m == old(p.m)
      invariant q.m == map key | key in p.m && key !in left :: p.m[key]
      decreases left
    {
      var key :| key in left;
      q.m := q.m[key := p.m[key]];
      left := left - {key};
    }
    assert q.m == p.m;
  }

  method CopySlice<T>(a: array?<T>) returns (b: array?<T>)
    ensures SliceValue(b) == SliceValue(a)
    ensures fresh(One(b))
  {
    if a == null {
      return null;
    }
    b := new T[a.Length](i requires 0 <= i < a.Length reads a => a[i]);
    assert b[..] == a[..];
  }

  method CopyCell<T>(p: Cell?<T>) returns (q: Cell?<T>)
    ensures CellValue(q) == CellValue(p)
    ensures fresh(One(q))
  {
    if p == null {
      return null;
    }
    q := new Cell(p.value);
  }

  // New storage with a given value.
  method MakeMap(v: Option<map<string, string>>) returns (p: StringMap?)
    ensures MapValue(p) == v
    ensures fresh(One(p))
  {
    if v.None? {
      return null;
    }
    p := new StringMap(v.value);
  }

  method MakeSlice<T>(v: Option<seq<T>>) returns (a: array?<T>)
    ensures SliceValue(a) == v
    ensures fresh(One(a))
  {
    if v.None? {
      return null;
    }
    var s := v.value;
    a := new T[|s|](i requires 0 <= i < |s| => s[i]);
    assert a[..] == s;
  }

  method MakeCell<T>(v: Option<T>) returns (p: Cell?<T>)
    ensures CellValue(p) == v
    ensures fresh(One(p))
  {
    if v.None? {
      return null;
    }
    p := new Cell(v.value);
  }

  // ---------- ObjectMeta ----------

  datatype OwnerReference = OwnerReference(
    apiVersion: string, kind: string, name: string, uid: string,
    controller: Option<bool>, blockOwnerDeletion: Option<bool>)

  datatype MetaScalars = MetaScalars(key: Key, uid: string, version: nat)

  const ZeroScalars := MetaScalars(Key("", ""), "", 0)

  // None stands for nil.
  datatype MetaValue = MetaValue(
    scalars: MetaScalars, labels: Option<map<string, string>>, annotations: Option<map<string, string>>,
    owners: Option<seq<OwnerReference>>, finalizers: Option<seq<string>>, deleted: Option<string>)

  class ObjectMeta {
    var scalars: MetaScalars
    var labels: StringMap?
    var annotations: StringMap?
    var owners: array?<OwnerReference>
    var finalizers: array?<string>
    var deleted: Cell?<string>

    constructor ()
      ensures Footprint() == {this, null} && Separate()
    {
      scalars := ZeroScalars;
      labels, annotations, owners, finalizers, deleted := null, null, null, null, null;
    }

    constructor From(v: MetaValue)
      ensures Value() == v && Separate() && fresh(Footprint() - {null})
    {
      var labels' := MakeMap(v.labels);
      var annotations' := MakeMap(v.annotations);
      var owners' := MakeSlice(v.owners);
      var finalizers' := MakeSlice(v.finalizers);
      var deleted' := MakeCell(v.deleted);
      scalars, labels, annotations := v.scalars, labels', annotations';
      owners, finalizers, deleted := owners', finalizers', deleted';
    }

    // The objects it is made of; null stands for what is nil.
    ghost function Footprint(): set<object?>
      reads this
    {
      {this, labels, annotations, owners, finalizers, deleted}
    }

    function Value(): MetaValue
      reads this, labels, annotations, owners, finalizers, deleted
    {
      MetaValue(
        scalars,
        if labels == null then None else Some(labels.m),
        if annotations == null then None else Some(annotations.m),
        if owners == null then None else Some(owners[..]),
        if finalizers == null then None else Some(finalizers[..]),
        if deleted == null then None else Some(deleted.value))
    }

    // The two maps are not one and the same.
    ghost predicate Separate()
      reads this
    {
      labels == null || labels != annotations
    }

    // The scalars go over as they are, what is referred to is copied.
    method DeepCopyInto(out: ObjectMeta)
      requires out != this
      modifies out
      ensures out.Value() == old(Value())
      ensures fresh(out.Footprint() - {out, null}) && out.Separate()
    {
      out.scalars := scalars;
      CopyMapsInto(out);
      CopyListsInto(out);
    }

    method CopyMapsInto(out: ObjectMeta)
      requires out != this
      modifies out`labels, out`annotations
      ensures MapValue(out.labels) == old(MapValue(labels)) && MapValue(out.annotations) == old(MapValue(annotations))
      ensures fresh(One(out.labels)) && fresh(One(out.annotations)) && out.Separate()
    {
      var labels' := CopyMap(labels);
      var annotations' := CopyMap(annotations);
      out.labels, out.annotations := labels', annotations';
    }

    method CopyListsInto(out: ObjectMeta)
      requires out != this
      modifies out`owners, out`finalizers, out`deleted
      ensures SliceValue(out.owners) == old(SliceValue(owners))
      ensures SliceValue(out.finalizers) == old(SliceValue(finalizers))
      ensures CellValue(out.deleted) == old(CellValue(deleted))
      ensures fresh(One(out.owners)) && fresh(One(out.finalizers)) && fresh(One(out.deleted))
    {
      var owners' := CopySlice(owners);
      var finalizers' := CopySlice(finalizers);
      var deleted' := CopyCell(deleted);
      out.owners, out.finalizers, out.deleted := owners', finalizers', deleted';
    }

    // A change in place.
    method Edit(e: MetaEdit)
      requires Separate()
      modifies Footprint()
      ensures Value() == MetaEdited(old(Value()), e) && Separate()
      ensures fresh(Footprint() - old(Footprint()) - {null})
    {
      match e {
        case SetScalars(s) => scalars := s;
        case SetLabel(k, v) => if labels != null { labels.m := labels.m[k := v]; }
        case SetAnnotation(k, v) => if annotations != null { annotations.m := annotations.m[k := v]; }
        case ReplaceLabels(v) => var p := MakeMap(v); labels := p;
        case ReplaceAnnotations(v) => var p := MakeMap(v); annotations := p;
        case ReplaceOwners(v) => var a := MakeSlice(v); owners := a;
        case ReplaceFinalizers(v) => var a := MakeSlice(v); finalizers := a;
      }
    }
  }

  // A map that is nil cannot be written to; the edits of one do nothing then.
  datatype MetaEdit =
    | SetScalars(s: MetaScalars)
    | SetLabel(k: string, v: string)
    | SetAnnotation(k: string, v: string)
    | ReplaceLabels(labels: Option<map<string, string>>)
    | ReplaceAnnotations(annotations: Option<map<string, string>>)
    | ReplaceOwners(owners: Option<seq<OwnerReference>>)
    | ReplaceFinalizers(finalizers: Option<seq<string>>)

  function PutIn(m: Option<map<string, string>>, k: string, v: string): Option<map<string, string>> {
    if m.Some? then Some(m.value[k := v]) else None
  }

  function MetaEdited(v: MetaValue, e: MetaEdit): MetaValue {
    match e
    case SetScalars(s) => v.(scalars := s)
    case SetLabel(k, x) => v.(labels := PutIn(v.labels, k, x))
    case SetAnnotation(k, x) => v.(annotations := PutIn(v.annotations, k, x))
    case ReplaceLabels(m) => v.(labels := m)
    case ReplaceAnnotations(m) => v.(annotations := m)
    case ReplaceOwners(s) => v.(owners := s)
    case ReplaceFinalizers(s) => v.(finalizers := s)
  }

  // ---------- GitWatcher ----------

  datatype SpecScalars = SpecScalars(
    receiverURL: string, repositoryURL: string, credentialSecret: string,
    githubWebhookToken: string, provider: string, push: bool, pr: bool,
    branch: string, tag: bool, tagInclude: string, tagExclude: string,
    enabled: bool, githubDeployment: bool)

  datatype WatcherValue = WatcherValue(
    meta: MetaValue, spec: SpecScalars, executionLabels: Option<map<string, string>>,
    conditions: Option<seq<Condition>>, token: string, hookID: string, firstCommit: string)

  class GitWatcher {
    const metadata: ObjectMeta
    var spec: SpecScalars
    var executionLabels: StringMap?
    var conditions: array?<Condition>
    var token: string
    var hookID: string
    var firstCommit: string

    // new(GitWatcher): every field has its zero value.
    constructor ()
      ensures Footprint() == {this, metadata, null} && fresh(metadata) && Separate()
    {
      metadata := new ObjectMeta();
      spec := SpecScalars("", "", "", "", "", false, false, "", false, "", "", false, false);
      executionLabels, conditions := null, null;
      token, hookID, firstCommit := "", "", "";
    }

    constructor From(v: WatcherValue)
      ensures Value() == v && fresh(Footprint() - {null})
    {
      var executionLabels' := MakeMap(v.executionLabels);
      var conditions' := MakeSlice(v.conditions);
      metadata := new ObjectMeta.From(v.meta);
      spec, executionLabels, conditions := v.spec, executionLabels', conditions';
      token, hookID, firstCommit := v.token, v.hookID, v.firstCommit;
      new;
      assert fresh(metadata.Footprint() - {null}) && metadata.Value() == v.meta;
      assert MapValue(executionLabels) == v.executionLabels && SliceValue(conditions) == v.conditions;
    }

    ghost function Footprint(): set<object?>
      reads this, metadata
    {
      {this, executionLabels, conditions} + metadata.Footprint()
    }

    function Value(): WatcherValue
      reads this, metadata, metadata.labels, metadata.annotations, metadata.owners, metadata.finalizers
      reads metadata.deleted, executionLabels, conditions
    {
      WatcherValue(
        metadata.Value(), spec,
        if executionLabels == null then None else Some(executionLabels.m),
        if conditions == null then None else Some(conditions[..]),
        token, hookID, firstCommit)
    }

    // No two of the three maps are one and the same.
    ghost predicate Separate()
      reads this, metadata
    {
      metadata.Separate() &&
      (executionLabels == null || (executionLabels != metadata.labels && executionLabels != metadata.annotations))
    }

    method DeepCopyInto(out: GitWatcher)
      requires out != this && out.metadata != metadata
      modifies out, out.metadata
      ensures out.Value() == old(Value())
      ensures fresh(out.Footprint() - {out, out.metadata, null}) && out.Separate()
    {
      metadata.DeepCopyInto(out.metadata);
      CopySpecInto(out);
      CopyStatusInto(out);
    }

    // GitWatcherSpec.DeepCopyInto
    method CopySpecInto(out: GitWatcher)
      requires out != this
      modifies out`spec, out`executionLabels
      ensures out.spec == spec && MapValue(out.executionLabels) == old(MapValue(executionLabels))
      ensures fresh(One(out.executionLabels))
    {
      var executionLabels' := CopyMap(executionLabels);
      out.spec, out.executionLabels := spec, executionLabels';
    }

    // GitWatcherStatus.DeepCopyInto
    method CopyStatusInto(out: GitWatcher)
      requires out != this
      modifies out`conditions, out`token, out`hookID, out`firstCommit
      ensures SliceValue(out.conditions) == old(SliceValue(conditions)) && fresh(One(out.conditions))
      ensures out.token == token && out.hookID == hookID && out.firstCommit == firstCommit
    {
      var conditions' := CopySlice(conditions);
      out.token, out.hookID, out.firstCommit, out.conditions := token, hookID, firstCommit, conditions';
    }

    // Even an original whose maps are one gets a copy in which they are not.
    method DeepCopy() returns (out: GitWatcher)
      ensures fresh(out.Footprint() - {null}) && out.Separate()
      ensures out.Value() == Value()
    {
      out := new GitWatcher();
      assert fresh({out, out.metadata});
      DeepCopyInto(out);
    }

    // A change of one field, or of what a field refers to, in place.
    method Edit(e: WatcherEdit)
      requires Separate()
      modifies Footprint()
      ensures Value() == Edited(old(Value()), e) && Separate()
      ensures fresh(Footprint() - old(Footprint()) - {null})
    {
      match e {
        case OfMeta(m) => metadata.Edit(m);
        case OfSpec(s) => EditSpec(s);
        case OfStatus(s) => EditStatus(s);
      }
    }

    method EditSpec(e: SpecEdit)
      requires Separate()
      modifies this, executionLabels
      ensures Value() == SpecEdited(old(Value()), e) && Separate()
      ensures fresh(Footprint() - old(Footprint()) - {null})
    {
      match e {
        case SetSpec(s) => spec := s;
        case SetExecutionLabel(k, v) =>
          if executionLabels != null {
            executionLabels.m := executionLabels.m[k := v];
          }
        case ReplaceExecutionLabels(v) =>
          var p := MakeMap(v);
          executionLabels := p;
      }
    }

    method EditStatus(e: StatusEdit)
      requires Separate()
      modifies this, conditions
      ensures Value() == StatusEdited(old(Value()), e) && Separate()
      ensures fresh(Footprint() - old(Footprint()) - {null})
    {
      match e {
        case SetToken(s) => token := s;
        case SetHookID(s) => hookID := s;
        case SetFirstCommit(s) => firstCommit := s;
        case SetCondition(i, c) =>
          if conditions != null && i < conditions.Length {
            ghost var before := conditions[..];
            conditions[i] := c;
            assert conditions[..] == before[i := c];
          }
        case AppendCondition(c) =>
          var grown := MakeSlice(Some((if conditions == null then [] else conditions[..]) + [c]));
          conditions := grown;
        case ReplaceConditions(v) =>
          var a := MakeSlice(v);
          conditions := a;
      }
    }
  }

  // A new object: of this value, or without one of zero values.
  method NewWatcher(v: Option<WatcherValue>) returns (obj: GitWatcher)
    ensures fresh(obj.Footprint() - {null}) && (v.Some? ==> obj.Value() == v.value)
  {
    if v.Some? {
      obj := new GitWatcher.From(v.value);
    } else {
      obj := new GitWatcher();
    }
  }

  datatype SpecEdit =
    | SetSpec(s: SpecScalars)
    | SetExecutionLabel(k: string, v: string)
    | ReplaceExecutionLabels(labels: Option<map<string, string>>)

  datatype StatusEdit =
    | SetToken(s: string)
    | SetHookID(s: string)
    | SetFirstCommit(s: string)
    | SetCondition(i: nat, c: Condition)
    | AppendCondition(c: Condition)
    | ReplaceConditions(conditions: Option<seq<Condition>>)

  datatype WatcherEdit = OfMeta(m: MetaEdit) | OfSpec(spec: SpecEdit) | OfStatus(status: StatusEdit)

  function SpecEdited(v: WatcherValue, e: SpecEdit): WatcherValue {
    match e
    case SetSpec(s) => v.(spec := s)
    case SetExecutionLabel(k, x) => v.(executionLabels := PutIn(v.executionLabels, k, x))
    case ReplaceExecutionLabels(m) => v.(executionLabels := m)
  }

  function StatusEdited(v: WatcherValue, e: StatusEdit): WatcherValue {
    match e
    case SetToken(s) => v.(token := s)
    case SetHookID(s) => v.(hookID := s)
    case SetFirstCommit(s) => v.(firstCommit := s)
    case SetCondition(i, c) =>
      if v.conditions.Some? && i < |v.conditions.value| then v.(conditions := Some(v.conditions.value[i := c])) else v
    case AppendCondition(c) =>
      v.(conditions := Some((if v.conditions.Some? then v.conditions.value else []) + [c]))
    case ReplaceConditions(s) => v.(conditions := s)
  }

  function Edited(v: WatcherValue, e: WatcherEdit): WatcherValue {
    match e
    case OfMeta(m) => v.(meta := MetaEdited(v.meta, m))
    case OfSpec(s) => SpecEdited(v, s)
    case OfStatus(s) => StatusEdited(v, s)
  }

  function EditedAll(v: WatcherValue, edits: seq<WatcherEdit>): WatcherValue {
    if |edits| == 0 then v else Edited(EditedAll(v, edits[..|edits| - 1]), edits[|edits| - 1])
  }

  lemma EditedNext(v: WatcherValue, edits: seq<WatcherEdit>, i: nat)
    requires i < |edits|
    ensures EditedAll(v, edits[..i + 1]) == Edited(EditedAll(v, edits[..i]), edits[i])
  {
    assert edits[..i + 1][..i] == edits[..i];
  }

  method EditAll(obj: GitWatcher, edits: seq<WatcherEdit>)
    requires obj.Separate()
    modifies obj.Footprint()
    ensures obj.Value() == EditedAll(old(obj.Value()), edits) && obj.Separate()
    ensures fresh(obj.Footprint() - old(obj.Footprint()) - {null})
  {
    var i := 0;
    ghost var value := obj.Value();
    while i < |edits|
      invariant 0 <= i <= |edits|
      invariant obj.Separate() && fresh(obj.Footprint() - old(obj.Footprint()) - {null})
      invariant obj.Value() == EditedAll(value, edits[..i])
    {
      obj.Edit(edits[i]);
      EditedNext(value, edits, i);
      i := i + 1;
    }
    assert edits[..i] == edits;
  }

  // Whatever is done to the copy, step by step and in place, the original keeps its
  // value, and the copy ends up as the same changes of the value say.
  method EditCopy(obj: GitWatcher, edits: seq<WatcherEdit>) returns (copy: GitWatcher)
    ensures fresh(copy.Footprint() - {null}) && copy.Separate()
    ensures obj.Value() == old(obj.Value()) && obj.Footprint() == old(obj.Footprint())
    ensures copy.Value() == EditedAll(old(obj.Value()), edits)
  {
    copy := obj.DeepCopy();
    EditAll(copy, edits);
  }

  // ---------- GitCommit ----------

  datatype CommitValue = CommitValue(
    meta: MetaValue, spec: CommitSpec, conditions: Option<seq<Condition>>, statusURL: string,
    appliedStatus: string, buildStatus: string, github: Option<GithubStatus>)

  class GitCommitObject {
    const metadata: ObjectMeta
    var spec: CommitSpec
    var conditions: array?<Condition>
    var statusURL: string
    var appliedStatus: string
    var buildStatus: string
    var github: Cell?<GithubStatus>

    // new(GitCommit): every field has its zero value.
    constructor ()
      ensures Footprint() == {this, metadata, null} && fresh(metadata)
    {
      metadata := new ObjectMeta();
      spec := EmptyCommitSpec;
      statusURL, appliedStatus, buildStatus := "", "", "";
      conditions, github := null, null;
    }

    ghost function Footprint(): set<object?>
      reads this, metadata
    {
      {this, conditions, github} + metadata.Footprint()
    }

    function Value(): CommitValue
      reads this, metadata, metadata.labels, metadata.annotations, metadata.owners, metadata.finalizers
      reads metadata.deleted, conditions, github
    {
      CommitValue(
        metadata.Value(), spec,
        if conditions == null then None else Some(conditions[..]),
        statusURL, appliedStatus, buildStatus,
        if github == null then None else Some(github.value))
    }

    method DeepCopyInto(out: GitCommitObject)
      requires out != this && out.metadata != metadata
      modifies out, out.metadata
      ensures out.Value() == old(Value())
      ensures fresh(out.Footprint() - {out, out.metadata, null})
    {
      metadata.DeepCopyInto(out.metadata);
      out.spec := spec;
      CopyStatusInto(out);
    }

    // GitCommitStatus.DeepCopyInto
    method CopyStatusInto(out: GitCommitObject)
      requires out != this
      modifies out`conditions, out`statusURL, out`appliedStatus, out`buildStatus, out`github
      ensures SliceValue(out.conditions) == old(SliceValue(conditions)) && fresh(One(out.conditions))
      ensures CellValue(out.github) == old(CellValue(github)) && fresh(One(out.github))
      ensures out.statusURL == statusURL && out.appliedStatus == appliedStatus && out.buildStatus == buildStatus
    {
      var conditions' := CopySlice(conditions);
      var github' := CopyCell(github);
      out.statusURL, out.appliedStatus, out.buildStatus := statusURL, appliedStatus, buildStatus;
      out.conditions, out.github := conditions', github';
    }

    method DeepCopy() returns (out: GitCommitObject)
      ensures fresh(out.Footprint() - {null})
      ensures out.Value() == Value()
    {
      out := new GitCommitObject();
      assert fresh({out, out.metadata});
      DeepCopyInto(out);
    }
  }

  // ---------- Lists ----------

  // Sets of objects that have nothing but null in common, all within used.
  ghost predicate Apart(prints: seq<set<object?>>, used: set<object?>) {
    && (forall i :: 0 <= i < |prints| ==> prints[i] <= used)
    && forall i, j :: 0 <= i < j < |prints| ==> prints[i] * prints[j] <= {null}
  }

  lemma ApartNext(prints: seq<set<object?>>, used: set<object?>, next: set<object?>)
    requires Apart(prints, used) && used * next <= {null}
    ensures Apart(prints + [next], used + next)
  {
    var all := prints + [next];
    forall i, j | 0 <= i < j < |all| ensures all[i] * all[j] <= {null} {
      if j == |prints| { assert all[i] * all[j] <= used * next; }
    }
  }

  lemma WatcherValues(items: seq<GitWatcher>) returns (values: seq<WatcherValue>)
    ensures |values| == |items| && forall i :: 0 <= i < |items| ==> values[i] == items[i].Value()
  {
    values := [];
    if items != [] {
      values := WatcherValues(items[..|items| - 1]);
      values := values + [items[|items| - 1].Value()];
    }
  }

  // The copies have the first of these values, and storage of their own.
  ghost predicate WatchersCopied(copies: seq<GitWatcher>, values: seq<WatcherValue>,
                                 prints: seq<set<object?>>, used: set<object?>)
    reads *
  {
    && |copies| == |prints| <= |values|
    && Apart(prints, used)
    && forall i :: 0 <= i < |copies| ==> copies[i].Value() == values[i] && copies[i].Footprint() == prints[i]
  }

  // One turn of the loop below.
  method CopyWatcher(copies: seq<GitWatcher>, item: GitWatcher, ghost values: seq<WatcherValue>,
                     ghost prints: seq<set<object?>>, ghost used: set<object?>)
    returns (copy: GitWatcher, ghost footprint: set<object?>)
    requires WatchersCopied(copies, values, prints, used) && |copies| < |values| && item.Value() == values[|copies|]
    ensures fresh(footprint - {null})
    ensures WatchersCopied(copies + [copy], values, prints + [footprint], used + footprint)
  {
    copy := item.DeepCopy();
    footprint := copy.Footprint();
    assert used * footprint <= {null};
    ApartNext(prints, used, footprint);
  }

  // The loop of GitWatcherList.DeepCopyInto. Items of the original may share storage;
  // those of the copy do not.
  method CopyWatchers(items: seq<GitWatcher>) returns (copies: seq<GitWatcher>)
    ensures |copies| == |items|
    ensures forall i :: 0 <= i < |items| ==> copies[i].Value() == old(items[i].Value())
    ensures forall i :: 0 <= i < |copies| ==> fresh(copies[i].Footprint() - {null})
    ensures forall i, j :: 0 <= i < j < |copies| ==> copies[i].Footprint() * copies[j].Footprint() <= {null}
  {
    copies := [];
    ghost var values := WatcherValues(items);
    ghost var prints: seq<set<object?>>, used: set<object?> := [], {};
    for n := 0 to |items|
      invariant |copies| == n && WatchersCopied(copies, values, prints, used)
      invariant fresh(used - {null})
    {
      assert items[n].Value() == values[n];
      var copy, footprint := CopyWatcher(copies, items[n], values, prints, used);
      copies, prints, used := copies + [copy], prints + [footprint], used + footprint;
    }
  }

  lemma CommitValues(items: seq<GitCommitObject>) returns (values: seq<CommitValue>)
    ensures |values| == |items| && forall i :: 0 <= i < |items| ==> values[i] == items[i].Value()
  {
    values := [];
    if items != [] {
      values := CommitValues(items[..|items| - 1]);
      values := values + [items[|items| - 1].Value()];
    }
  }

  // The copies have the first of these values, and storage of their own.
  ghost predicate CommitsCopied(copies: seq<GitCommitObject>, values: seq<CommitValue>,
                                prints: seq<set<object?>>, used: set<object?>)
    reads *
  {
    && |copies| == |prints| <= |values|
    && Apart(prints, used)
    && forall i :: 0 <= i < |copies| ==> copies[i].Value() == values[i] && copies[i].Footprint() == prints[i]
  }

  // One turn of the loop below.
  method CopyCommit(copies: seq<GitCommitObject>, item: GitCommitObject, ghost values: seq<CommitValue>,
                    ghost prints: seq<set<object?>>, ghost used: set<object?>)
    returns (copy: GitCommitObject, ghost footprint: set<object?>)
    requires CommitsCopied(copies, values, prints, used) && |copies| < |values| && item.Value() == values[|copies|]
    ensures fresh(footprint - {null})
    ensures CommitsCopied(copies + [copy], values, prints + [footprint], used + footprint)
  {
    copy := item.DeepCopy();
    footprint := copy.Footprint();
    assert used * footprint <= {null};
    ApartNext(prints, used, footprint);
  }

  // The loop of GitCommitList.DeepCopyInto
  method CopyCommits(items: seq<GitCommitObject>) returns (copies: seq<GitCommitObject>)
    ensures |copies| == |items|
    ensures forall i :: 0 <= i < |items| ==> copies[i].Value() == old(items[i].Value())
    ensures forall i :: 0 <= i < |copies| ==> fresh(copies[i].Footprint() - {null})
    ensures forall i, j :: 0 <= i < j < |copies| ==> copies[i].Footprint() * copies[j].Footprint() <= {null}
  {
    copies := [];
    ghost var values := CommitValues(items);
    ghost var prints: seq<set<object?>>, used: set<object?> := [], {};
    for n := 0 to |items|
      invariant |copies| == n && CommitsCopied(copies, values, prints, used)
      invariant fresh(used - {null})
    {
      assert items[n].Value() == values[n];
      var copy, footprint := CopyCommit(copies, items[n], values, prints, used);
      copies, prints, used := copies + [copy], prints + [footprint], used + footprint;
    }
  }

  // A ListMeta without its pointer, and the lists as structs.
  datatype ListScalars = ListScalars(resourceVersion: string, next: string)

  datatype WatcherList = WatcherList(meta: ListScalars, remaining: Cell?<int>, items: Option<seq<GitWatcher>>)

  // GitWatcherList.DeepCopyInto; a nil list of items stays nil.
  method CopyWatcherList(list: WatcherList) returns (out: WatcherList)
    ensures out.meta == list.meta
    ensures CellValue(out.remaining) == CellValue(list.remaining) && fresh(One(out.remaining))
    ensures (out.items.Some? <==> list.items.Some?) && (list.items.Some? ==> |out.items.value| == |list.items.value|)
    ensures list.items.Some? ==> forall i :: 0 <= i < |list.items.value| ==>
      out.items.value[i].Value() == old(list.items.value[i].Value()) && fresh(out.items.value[i].Footprint() - {null})
    ensures list.items.Some? ==> forall i, j :: 0 <= i < j < |list.items.value| ==>
      out.items.value[i].Footprint() * out.items.value[j].Footprint() <= {null}
  {
    var items := None;
    if list.items.Some? {
      var copies := CopyWatchers(list.items.value);
      items := Some(copies);
    }
    var remaining := CopyCell(list.remaining);
    out := list.(remaining := remaining, items := items);
  }

  datatype CommitList = CommitList(meta: ListScalars, remaining: Cell?<int>, items: Option<seq<GitCommitObject>>)

  // GitCommitList.DeepCopyInto
  method CopyCommitList(list: CommitList) returns (out: CommitList)
    ensures out.meta == list.meta
    ensures CellValue(out.remaining) == CellValue(list.remaining) && fresh(One(out.remaining))
    ensures (out.items.Some? <==> list.items.Some?) && (list.items.Some? ==> |out.items.value| == |list.items.value|)
    ensures list.items.Some? ==> forall i :: 0 <= i < |list.items.value| ==>
      out.items.value[i].Value() == old(list.items.value[i].Value()) && fresh(out.items.value[i].Footprint() - {null})
    ensures list.items.Some? ==> forall i, j :: 0 <= i < j < |list.items.value| ==>
      out.items.value[i].Footprint() * out.items.value[j].Footprint() <= {null}
  {
    var items := None;
    if list.items.Some? {
      var copies := CopyCommits(list.items.value);
      items := Some(copies);
    }
    var remaining := CopyCell(list.remaining);
    out := list.(remaining := remaining, items := items);
  }

  // ---------- The value model ----------

  // The watcher of the protocol model that a heap value stands for; a nil map or
  // slice reads as an empty one.
  function AsWatcher(v: WatcherValue): Watcher {
    var s := v.spec;
    Watcher(
      v.meta.scalars.key, v.meta.scalars.uid, v.meta.scalars.version,
      WatcherSpec(s.receiverURL, s.repositoryURL, s.credentialSecret, s.githubWebhookToken, s.provider,
                  s.push, s.pr, s.branch, s.tag, s.tagInclude, s.tagExclude,
                  if v.executionLabels.Some? then v.executionLabels.value else map[],
                  s.enabled, s.githubDeployment),
      WatcherStatus(if v.conditions.Some? then v.conditions.value else [], v.token, v.hookID, v.firstCommit))
  }

  // In-place changes of the copy are the updates of the protocol model: what EditCopy
  // leaves in the copy is what createHook and getFirstCommit compute there.
  lemma EditsAreUpdates(v: WatcherValue, token: string, hookID: string, commit: string)
    ensures AsWatcher(EditedAll(v, [OfStatus(SetToken(token))])) == WithToken(AsWatcher(v), token)
    ensures AsWatcher(EditedAll(v, [OfStatus(SetToken(token)), OfStatus(SetHookID(hookID))])) ==
      WithHookID(WithToken(AsWatcher(v), token), hookID)
    ensures AsWatcher(EditedAll(v, [OfStatus(SetFirstCommit(commit))])) == WithFirstCommit(AsWatcher(v), commit)
  {
    OneEdit(v, OfStatus(SetToken(token)));
    OneEdit(v, OfStatus(SetFirstCommit(commit)));
    var two := [OfStatus(SetToken(token)), OfStatus(SetHookID(hookID))];
    assert two[..1] == [OfStatus(SetToken(token))];
  }

  lemma OneEdit(v: WatcherValue, e: WatcherEdit)
    ensures EditedAll(v, [e]) == Edited(v, e)
  {
    assert [e][..0] == [];
  }
}
