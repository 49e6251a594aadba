// pkg/generated/controllers/gitwatcher.cattle.io/v1/gitwatcher.go: the status handler
// and the deep-copy-on-change helper, over the heap of DeepCopy.dfy. A handler is
// anything that changes the object it gets in place, in any field, and then returns a
// status or an object, and perhaps an error.
module StatusHandler {
  import opened Types
  import opened Reconcile
  import opened DeepCopy

  // A GitWatcherStatus as a Go struct: its slice is shared when it is assigned.
  datatype StatusStruct = StatusStruct(
    conditions: array?<Condition>, token: string, hookID: string, firstCommit: string)

  datatype StatusValue = StatusValue(conditions: seq<Condition>, token: string, hookID: string, firstCommit: string)

  datatype HandlerError = Conflict(message: string) | OtherError(message: string)

  // The status a handler returns: with the slice of its argument, as the argument has it
  // in the end, and scalars of its own; or with any other slice.
  datatype Returned =
    | Sharing(token: string, hookID: string, firstCommit: string)
    | Apart(status: StatusValue)

  // What one call of a status handler does; without a returned status it returns that of
  // its argument.
  datatype Behaviour = Behaviour(edits: seq<WatcherEdit>, returned: Option<Returned>, err: Option<HandlerError>)

  // ---------- On values ----------

  // nil and empty slices are the same to Semantic.DeepEqual, and so are maps.
  function Elements<T>(s: Option<seq<T>>): seq<T> {
    if s.Some? then s.value else []
  }

  function Entries(m: Option<map<string, string>>): map<string, string> {
    if m.Some? then m.value else map[]
  }

  function StatusOf(v: WatcherValue): StatusValue {
    StatusValue(Elements(v.conditions), v.token, v.hookID, v.firstCommit)
  }

  predicate Has(conditions: seq<Condition>, kind: string) {
    exists i :: 0 <= i < |conditions| && conditions[i].kind == kind
  }

  // The message SetError gets: conflicts do not count as errors.
  function ConditionError(err: Option<HandlerError>): Option<string> {
    if err.Some? && err.value.OtherError? then Some(err.value.message) else None
  }

  // The status the handler returned, when s is what its argument has in the end.
  function ReturnedValue(s: StatusValue, returned: Option<Returned>): StatusValue {
    match returned
    case None => s
    case Some(Sharing(token, hookID, firstCommit)) => StatusValue(s.conditions, token, hookID, firstCommit)
    case Some(Apart(status)) => status
  }

  // The status that counts in the end, from the saved one and the one found on the
  // object after the handler. The condition is set on the object, so a returned
  // status that shares the object's conditions shows it only if it was there before.
  function Concluded(saved: StatusValue, s: StatusValue, b: Behaviour, condition: string, now: string): StatusValue {
    var returned := ReturnedValue(s, b.returned);
    if b.err.Some? then saved
    else if b.returned.Some? && b.returned.value.Apart? then returned
    else if condition != "" && Has(s.conditions, condition) then
      returned.(conditions := SetError(s.conditions, condition, ConditionError(b.err), now))
    else returned
  }

  function NewStatus(v: WatcherValue, b: Behaviour, condition: string, now: string): StatusValue {
    Concluded(StatusOf(v), StatusOf(EditedAll(v, b.edits)), b, condition, now)
  }

  // The object on which the condition has been set.
  function ConditionSet(v: WatcherValue, condition: string, err: Option<string>, now: string): WatcherValue {
    v.(conditions := Some(SetError(Elements(v.conditions), condition, err, now)))
  }

  // The object that a handler leaves, with its condition.
  function Left(v: WatcherValue, b: Behaviour, condition: string, now: string): WatcherValue {
    var edited := EditedAll(v, b.edits);
    if condition == "" then edited else ConditionSet(edited, condition, ConditionError(b.err), now)
  }

  lemma {:induction false} SetErrorInPlace(conditions: seq<Condition>, kind: string, err: Option<string>, now: string,
                                           i: nat)
    requires i < |conditions| && conditions[i].kind == kind
    requires forall j :: 0 <= j < i ==> conditions[j].kind != kind
    ensures SetError(conditions, kind, err, now) == conditions[i := Mark(conditions[i], err, now)]
  {
    if i > 0 {
      SetErrorInPlace(conditions[1..], kind, err, now, i - 1);
    }
  }

  lemma {:induction false} SetErrorAppends(conditions: seq<Condition>, kind: string, err: Option<string>, now: string)
    requires !Has(conditions, kind)
    ensures SetError(conditions, kind, err, now) == conditions + [Mark(NewCondition(kind), err, now)]
  {
    if |conditions| > 0 {
      assert !Has(conditions[1..], kind) by {
        forall i | 0 <= i < |conditions[1..]| ensures conditions[1..][i].kind != kind {
          assert conditions[i + 1].kind != kind;
        }
      }
      SetErrorAppends(conditions[1..], kind, err, now);
    }
  }

  // Setting a condition is one change in place, and what onChange writes after an error
  // is the copy with that change.
  function SetErrorEdit(conditions: seq<Condition>, kind: string, err: Option<string>, now: string): StatusEdit {
    if Has(conditions, kind) then
      var i := FirstIndex(conditions, kind);
      SetCondition(i, Mark(conditions[i], err, now))
    else AppendCondition(Mark(NewCondition(kind), err, now))
  }

  lemma SetErrorIsEdit(v: WatcherValue, err: string, now: string)
    ensures var e := OfStatus(SetErrorEdit(Elements(v.conditions), Registered, Some(err), now));
      AsWatcher(EditedAll(v, [e])) == NewObject(AsWatcher(v), Some(err), now)
  {
    var conditions := Elements(v.conditions);
    var e := SetErrorEdit(conditions, Registered, Some(err), now);
    OneEdit(v, OfStatus(e));
    assert Elements(StatusEdited(v, e).conditions) == SetError(conditions, Registered, Some(err), now) by {
      SetErrorEdits(v, Registered, Some(err), now);
    }
  }

  lemma SetErrorEdits(v: WatcherValue, kind: string, err: Option<string>, now: string)
    ensures var e := SetErrorEdit(Elements(v.conditions), kind, err, now);
      Elements(StatusEdited(v, e).conditions) == SetError(Elements(v.conditions), kind, err, now)
  {
    var conditions := Elements(v.conditions);
    if Has(conditions, kind) {
      SetErrorInPlace(conditions, kind, err, now, FirstIndex(conditions, kind));
    } else {
      SetErrorAppends(conditions, kind, err, now);
    }
  }

  ghost predicate FirstOf(conditions: seq<Condition>, kind: string, i: nat)
    requires i < |conditions|
  {
    conditions[i].kind == kind && forall j :: 0 <= j < i ==> conditions[j].kind != kind
  }

  function FirstIndex(conditions: seq<Condition>, kind: string): (i: nat)
    requires Has(conditions, kind)
    ensures i < |conditions| && FirstOf(conditions, kind, i)
  {
    if conditions[0].kind == kind then 0
    else
      assert Has(conditions[1..], kind) by {
        var k :| 0 <= k < |conditions| && conditions[k].kind == kind;
        assert conditions[1..][k - 1].kind == kind;
      }
      1 + FirstIndex(conditions[1..], kind)
  }

  // The first condition of the kind on the object that Sync is left with says how the
  // handler fared; a conflict counts as success.
  lemma ConditionSaysOutcome(v: WatcherValue, b: Behaviour, condition: string, now: string)
    requires condition != ""
    ensures var conditions := Elements(Left(v, b, condition, now).conditions);
      var failed := b.err.Some? && b.err.value.OtherError?;
      exists i ::
        && 0 <= i < |conditions| && FirstOf(conditions, condition, i)
        && conditions[i].status == (if failed then "False" else "True")
        && conditions[i].message == (if failed then b.err.value.message else "")
        && conditions[i].reason == (if failed then "Error" else "")
  {
    var before := Elements(EditedAll(v, b.edits).conditions);
    var after := Elements(Left(v, b, condition, now).conditions);
    var err := ConditionError(b.err);
    if Has(before, condition) {
      var i := FirstIndex(before, condition);
      SetErrorInPlace(before, condition, err, now, i);
      assert after[i] == Mark(before[i], err, now);
      assert FirstOf(after, condition, i);
    } else {
      SetErrorAppends(before, condition, err, now);
      assert after[|before|] == Mark(NewCondition(condition), err, now);
      assert FirstOf(after, condition, |before|);
    }
  }

  // ---------- On the heap ----------

  function ElementsOf(slice: array?<Condition>): seq<Condition>
    reads slice
  {
    if slice == null then [] else slice[..]
  }

  function StructValue(s: StatusStruct): StatusValue
    reads s.conditions
  {
    StatusValue(ElementsOf(s.conditions), s.token, s.hookID, s.firstCommit)
  }

  // The status an object has.
  function StatusIn(obj: GitWatcher): StatusValue
    reads obj, obj.conditions
  {
    StatusValue(ElementsOf(obj.conditions), obj.token, obj.hookID, obj.firstCommit)
  }

  lemma StatusInValue(obj: GitWatcher)
    ensures StatusIn(obj) == StatusOf(obj.Value())
  {
  }

  // condition.SetError on an object: in place when the condition is there, with a
  // new slice when it is not.
  method SetConditionError(obj: GitWatcher, kind: string, err: Option<string>, now: string)
    modifies obj`conditions, obj.conditions
    ensures ElementsOf(obj.conditions) == SetError(old(ElementsOf(obj.conditions)), kind, err, now)
    ensures Has(old(ElementsOf(obj.conditions)), kind) ==> obj.conditions == old(obj.conditions)
    ensures !Has(old(ElementsOf(obj.conditions)), kind) ==>
      fresh(One(obj.conditions)) && ElementsOf(old(obj.conditions)) == old(ElementsOf(obj.conditions))
    ensures obj.Value() == ConditionSet(old(obj.Value()), kind, err, now)
  {
    var slice := obj.conditions;
    ghost var before := ElementsOf(slice);
    var n := if slice == null then 0 else slice.Length;
    var i := 0;
    while i < n && slice[i].kind != kind
      invariant 0 <= i <= n
      invariant forall j :: 0 <= j < i ==> before[j].kind != kind
    {
      i := i + 1;
    }
    if i < n {
      SetErrorInPlace(before, kind, err, now, i);
      slice[i] := Mark(slice[i], err, now);
      assert slice[..] == before[i := Mark(before[i], err, now)];
    } else {
      SetErrorAppends(before, kind, err, now);
      var grown := MakeSlice(Some(ElementsOf(slice) + [Mark(NewCondition(kind), err, now)]));
      obj.conditions := grown;
    }
  }

  // A handler's call.
  method Handle(obj: GitWatcher, b: Behaviour) returns (status: StatusStruct)
    requires obj.Separate()
    modifies obj.Footprint()
    ensures obj.Value() == EditedAll(old(obj.Value()), b.edits)
    ensures fresh(obj.Footprint() - old(obj.Footprint()) - {null})
    ensures StructValue(status) == ReturnedValue(StatusIn(obj), b.returned)
    ensures if b.returned.Some? && b.returned.value.Apart? then
              fresh(One(status.conditions)) && status.conditions !in One(obj.conditions)
            else status.conditions == obj.conditions
  {
    EditAll(obj, b.edits);
    status := Return(obj, b.returned);
  }

  method Return(obj: GitWatcher, returned: Option<Returned>) returns (status: StatusStruct)
    ensures StructValue(status) == ReturnedValue(StatusIn(obj), returned)
    ensures if returned.Some? && returned.value.Apart? then
              fresh(One(status.conditions)) && status.conditions !in One(obj.conditions)
            else status.conditions == obj.conditions
  {
    match returned {
      case None => status := StatusStruct(obj.conditions, obj.token, obj.hookID, obj.firstCommit);
      case Some(Sharing(token, hookID, firstCommit)) =>
        status := StatusStruct(obj.conditions, token, hookID, firstCommit);
      case Some(Apart(s)) =>
        var slice := MakeSlice(Some(s.conditions));
        status := StatusStruct(slice, s.token, s.hookID, s.firstCommit);
    }
  }

  // The answer of the API server to a write: the object as it is stored now, or an error.
  datatype Answer = Taken(stored: WatcherValue) | Declined(err: HandlerError)

  function AnswerError(answer: Answer): Option<HandlerError> {
    if answer.Declined? then Some(answer.err) else None
  }

  // The API server's side of UpdateStatus and Update: what was written, in order. The
  // typed client makes a new object of the answer, an empty one when there is an error.
  class Client {
    var statuses: seq<StatusValue>
    var objects: seq<WatcherValue>

    constructor ()
      ensures statuses == [] && objects == []
    {
      statuses, objects := [], [];
    }

    method UpdateStatus(obj: GitWatcher, answer: Answer) returns (stored: GitWatcher, err: Option<HandlerError>)
      modifies this
      ensures statuses == old(statuses) + [StatusOf(obj.Value())] && objects == old(objects)
      ensures err == AnswerError(answer) && (answer.Taken? ==> stored.Value() == answer.stored)
    {
      statuses := statuses + [StatusValue(ElementsOf(obj.conditions), obj.token, obj.hookID, obj.firstCommit)];
      stored, err := Decode(answer);
    }

    method Update(obj: GitWatcher, answer: Answer) returns (stored: GitWatcher, err: Option<HandlerError>)
      modifies this
      ensures objects == old(objects) + [obj.Value()] && statuses == old(statuses)
      ensures err == AnswerError(answer) && (answer.Taken? ==> stored.Value() == answer.stored)
    {
      objects := objects + [obj.Value()];
      stored, err := Decode(answer);
    }

    static method Decode(answer: Answer) returns (stored: GitWatcher, err: Option<HandlerError>)
      ensures err == AnswerError(answer) && (answer.Taken? ==> stored.Value() == answer.stored)
    {
      match answer {
        case Taken(v) =>
          stored := NewWatcher(Some(v));
          err := None;
        case Declined(e) =>
          stored := NewWatcher(None);
          err := Some(e);
      }
    }
  }

  // The handler runs on a copy.
  method RunHandler(obj: GitWatcher, b: Behaviour) returns (copy: GitWatcher, status: StatusStruct)
    ensures obj.Value() == old(obj.Value())
    ensures fresh(copy.Footprint() - {null}) && fresh(One(status.conditions))
    ensures copy.Value() == EditedAll(old(obj.Value()), b.edits)
    ensures StructValue(status) == ReturnedValue(StatusIn(copy), b.returned)
    ensures if b.returned.Some? && b.returned.value.Apart? then status.conditions !in One(copy.conditions)
            else status.conditions == copy.conditions
  {
    copy := obj.DeepCopy();
    status := Handle(copy, b);
    StatusInValue(copy);
  }

  // On an error the saved status counts, and not the one the handler returned; the
  // condition is set on the object.
  method Conclude(saved: StatusStruct, copy: GitWatcher, returned: StatusStruct, b: Behaviour,
                  condition: string, now: string)
    returns (status: StatusStruct)
    requires saved.conditions == null || saved.conditions != copy.conditions
    requires StructValue(returned) == ReturnedValue(StatusIn(copy), b.returned)
    requires if b.returned.Some? && b.returned.value.Apart? then returned.conditions !in One(copy.conditions)
             else returned.conditions == copy.conditions
    modifies copy`conditions, copy.conditions
    ensures StructValue(saved) == old(StructValue(saved))
    ensures fresh(One(copy.conditions) - One(old(copy.conditions)))
    ensures StructValue(status) == Concluded(old(StructValue(saved)), old(StatusIn(copy)), b, condition, now)
    ensures copy.Value() == if condition == "" then old(copy.Value())
                            else ConditionSet(old(copy.Value()), condition, ConditionError(b.err), now)
  {
    status := returned;
    if b.err.Some? {
      var conditions := CopySlice(saved.conditions);
      status := StatusStruct(conditions, saved.token, saved.hookID, saved.firstCommit);
    }
    if condition != "" {
      SetConditionError(copy, condition, ConditionError(b.err), now);
    }
  }

  // The handler's run and what becomes of its status.
  method Outcome(obj: GitWatcher, saved: StatusStruct, b: Behaviour, condition: string, now: string)
    returns (copy: GitWatcher, status: StatusStruct)
    requires saved == StatusStruct(obj.conditions, obj.token, obj.hookID, obj.firstCommit)
    ensures obj.Value() == old(obj.Value()) && fresh(copy.Footprint() - {null})
    ensures StructValue(saved) == StatusOf(old(obj.Value()))
    ensures StructValue(status) == NewStatus(old(obj.Value()), b, condition, now)
    ensures copy.Value() == Left(old(obj.Value()), b, condition, now)
  {
    var returned;
    copy, returned := RunHandler(obj, b);
    StatusInValue(obj);
    StatusInValue(copy);
    assert fresh(One(copy.conditions) + {copy});
    status := Conclude(saved, copy, returned, b, condition, now);
  }

  class GitWatcherStatusHandler {
    const client: Client
    const condition: string

    constructor (client: Client, condition: string)
      ensures this.client == client && this.condition == condition
    {
      this.client, this.condition := client, condition;
    }

    // The object in the cache is left as it is, whatever the handler does to its
    // argument; there is one write, of the new status, exactly when that differs from
    // the old one; so there is none when the handler fails. The error is the handler's,
    // or else that of the write. Without a write the result is the copy, with the handler's
    // changes and the condition.
    method Sync(obj: GitWatcher, b: Behaviour, answer: Answer, now: string)
      returns (result: GitWatcher, err: Option<HandlerError>)
      modifies client
      ensures obj.Value() == old(obj.Value())
      ensures var before := old(obj.Value()); var after := NewStatus(before, b, condition, now);
        && client.statuses == old(client.statuses) + (if after == StatusOf(before) then [] else [after])
        && err == if b.err.Some? then b.err else if after == StatusOf(before) then None else AnswerError(answer)
      ensures b.err.Some? ==> client.statuses == old(client.statuses)
      ensures var before := old(obj.Value()); var after := NewStatus(before, b, condition, now);
        && (after == StatusOf(before) ==> result.Value() == Left(before, b, condition, now))
        && (after != StatusOf(before) && answer.Taken? ==> result.Value() == answer.stored)
      ensures client.objects == old(client.objects)
    {
      var saved := StatusStruct(obj.conditions, obj.token, obj.hookID, obj.firstCommit);
      var status;
      result, status := Outcome(obj, saved, b, condition, now);
      err := b.err;
      if StructValue(saved) != StructValue(status) {
        var newErr;
        result, newErr := WriteStatus(result, status, answer);
        if err.None? {
          err := newErr;
        }
      }
    }

    method WriteStatus(obj: GitWatcher, status: StatusStruct, answer: Answer)
      returns (stored: GitWatcher, err: Option<HandlerError>)
      modifies client, obj
      ensures client.statuses == old(client.statuses) + [old(StructValue(status))]
      ensures client.objects == old(client.objects) && err == AnswerError(answer)
      ensures answer.Taken? ==> stored.Value() == answer.stored
    {
      obj.conditions, obj.token := status.conditions, status.token;
      obj.hookID, obj.firstCommit := status.hookID, status.firstCommit;
      stored, err := client.UpdateStatus(obj, answer);
    }
  }

  // A handler that succeeds without a change of its own gets its condition stored
  // only if the condition is there already: one that is new is lost.
  lemma NewConditionIsLost(v: WatcherValue, condition: string, now: string)
    requires condition != ""
    ensures var b := Behaviour([], None, None);
      NewStatus(v, b, condition, now) != StatusOf(v) <==>
        exists i :: 0 <= i < |Elements(v.conditions)| && FirstOf(Elements(v.conditions), condition, i) &&
          Mark(Elements(v.conditions)[i], None, now) != Elements(v.conditions)[i]
  {
    var conditions := Elements(v.conditions);
    if Has(conditions, condition) {
      var i := FirstIndex(conditions, condition);
      SetErrorInPlace(conditions, condition, None, now, i);
      assert FirstOf(conditions, condition, i);
      assert conditions[i := Mark(conditions[i], None, now)][i] == Mark(conditions[i], None, now);
      forall j | 0 <= j < |conditions| && FirstOf(conditions, condition, j) ensures j == i { }
    }
  }

  // ---------- UpdateGitWatcherDeepCopyOnChange ----------

  // Semantic.DeepEqual of two watchers
  predicate SemanticallyEqual(a: WatcherValue, b: WatcherValue) {
    && SameMeta(a.meta, b.meta) && a.spec == b.spec && StatusOf(a) == StatusOf(b)
    && Entries(a.executionLabels) == Entries(b.executionLabels)
  }

  predicate SameMeta(a: MetaValue, b: MetaValue) {
    && a.scalars == b.scalars && a.deleted == b.deleted
    && Entries(a.labels) == Entries(b.labels) && Entries(a.annotations) == Entries(b.annotations)
    && Elements(a.owners) == Elements(b.owners) && Elements(a.finalizers) == Elements(b.finalizers)
  }

  // The object with empty slices and maps in place of nil ones.
  function WithoutNil(v: WatcherValue): WatcherValue {
    v.(meta := v.meta.(
         labels := if v.meta.labels.None? then Some(map[]) else v.meta.labels,
         annotations := if v.meta.annotations.None? then Some(map[]) else v.meta.annotations,
         owners := if v.meta.owners.None? then Some([]) else v.meta.owners,
         finalizers := if v.meta.finalizers.None? then Some([]) else v.meta.finalizers),
       executionLabels := if v.executionLabels.None? then Some(map[]) else v.executionLabels,
       conditions := if v.conditions.None? then Some([]) else v.conditions)
  }

  // Every difference counts but that between nil and empty, and only at the same version.
  lemma EqualUpToNil(a: WatcherValue, b: WatcherValue)
    ensures SemanticallyEqual(a, b) <==> WithoutNil(a) == WithoutNil(b)
    ensures MustWrite(a, b) <==>
      a.meta.scalars.version == b.meta.scalars.version && WithoutNil(a) != WithoutNil(b)
  {
  }

  // What one call of such a handler does: its changes in place, the object it returns if
  // that is not its argument, at whatever version, and its error.
  datatype Change = Change(edits: seq<WatcherEdit>, other: Option<WatcherValue>, err: Option<HandlerError>)

  // The object that counts after the handler.
  function Changed(v: WatcherValue, c: Change): WatcherValue {
    if c.other.Some? then c.other.value else EditedAll(v, c.edits)
  }

  // It is written when it is at the version of the object passed in and differs from it.
  // One that is at another version was written already.
  predicate MustWrite(before: WatcherValue, after: WatcherValue) {
    before.meta.scalars.version == after.meta.scalars.version && !SemanticallyEqual(before, after)
  }

  // The object passed in is left as it is; the one the handler leaves or returns is
  // written if and only if it has the same version and differs; the result and the error
  // are then those of the Update, and otherwise those of the handler.
  method UpdateDeepCopyOnChange(client: Client, obj: GitWatcher, c: Change, answer: Answer)
    returns (result: GitWatcher, err: Option<HandlerError>)
    modifies client
    ensures obj.Value() == old(obj.Value())
    ensures var before := old(obj.Value()); var after := Changed(before, c);
      if MustWrite(before, after) then
        && client.objects == old(client.objects) + [after] && err == AnswerError(answer)
        && (answer.Taken? ==> result.Value() == answer.stored)
      else client.objects == old(client.objects) && err == c.err && result.Value() == after
    ensures client.statuses == old(client.statuses)
  {
    result := CallHandler(obj, c);
    if MustWrite(obj.Value(), result.Value()) {
      result, err := client.Update(result, answer);
    } else {
      err := c.err;
    }
  }

  // The handler runs on a copy; the object it returns takes the copy's place.
  method CallHandler(obj: GitWatcher, c: Change) returns (result: GitWatcher)
    ensures obj.Value() == old(obj.Value()) && result.Value() == Changed(old(obj.Value()), c)
  {
    result := EditCopy(obj, c.edits);
    if c.other.Some? {
      result := NewWatcher(c.other);
    }
  }

  // A change of the version alone, as after a write of the handler's own, is not written
  // again.
  lemma OtherVersionNotWritten(v: WatcherValue, edits: seq<WatcherEdit>, scalars: MetaScalars,
                               err: Option<HandlerError>)
    requires scalars.version != v.meta.scalars.version
    ensures !MustWrite(v, Changed(v, Change(edits + [OfMeta(SetScalars(scalars))], None, err)))
  {
    var all := edits + [OfMeta(SetScalars(scalars))];
    assert all[..|edits|] == edits;
  }
}
