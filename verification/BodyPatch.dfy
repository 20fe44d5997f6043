/** The single-field patch recorder of Forward: when all changes to the parsed body amount to one
    set or delete of one path, the original bytes are patched instead of being serialized anew. */
module BodyPatch {
  import opened StreamEvents
  import opened Strings

  // ---- bodies and paths --------------------------------------------------------------------------

  datatype Json = Leaf(value: string) | Obj(fields: map<string, Json>)

  type Path = seq<string>

  function Get(j: Json, path: Path): Option<Json> {
    if path == [] then Some(j)
    else if j.Obj? && path[0] in j.fields then Get(j.fields[path[0]], path[1..])
    else None
  }

  function Set(j: Json, path: Path, v: Json): Json
    decreases path
  {
    if path == [] then v
    else
      var fields := if j.Obj? then j.fields else map[];
      var child := if path[0] in fields then fields[path[0]] else Obj(map[]);
      Obj(fields[path[0] := Set(child, path[1..], v)])
  }

  function Delete(j: Json, path: Path): Json {
    if path == [] || !j.Obj? || path[0] !in j.fields then j
    else if |path| == 1 then Obj(j.fields - {path[0]})
    else Obj(j.fields[path[0] := Delete(j.fields[path[0]], path[1..])])
  }

  /** Neither path runs through the other. */
  predicate Apart(p: Path, q: Path) {
    p != [] && q != [] && (p[0] != q[0] || Apart(p[1..], q[1..]))
  }

  lemma {:induction false} LastSetWins(j: Json, path: Path, a: Json, b: Json)
    ensures Set(Set(j, path, a), path, b) == Set(j, path, b)
    decreases path
  {
    if path != [] {
      var fields := if j.Obj? then j.fields else map[];
      var child := if path[0] in fields then fields[path[0]] else Obj(map[]);
      LastSetWins(child, path[1..], a, b);
      assert fields[path[0] := Set(child, path[1..], a)][path[0] := Set(child, path[1..], b)]
             == fields[path[0] := Set(child, path[1..], b)];
    }
  }

  lemma {:induction false} DeleteOnce(j: Json, path: Path)
    requires path != []
    ensures Get(Delete(j, path), path).None?
    ensures Get(j, path).None? ==> Delete(j, path) == j
    decreases path
  {
    if j.Obj? && path[0] in j.fields {
      if |path| > 1 {
        DeleteOnce(j.fields[path[0]], path[1..]);
        assert j.fields[path[0] := j.fields[path[0]]] == j.fields;
      } else {
        assert Get(j, path) == Get(j.fields[path[0]], []);
      }
    }
  }

  lemma {:induction false} SetApart(j: Json, p: Path, v: Json, q: Path)
    requires Apart(p, q)
    ensures Get(Set(j, p, v), q) == Get(j, q)
    decreases p
  {
    if p[0] == q[0] {
      var fields := if j.Obj? then j.fields else map[];
      SetApart(if p[0] in fields then fields[p[0]] else Obj(map[]), p[1..], v, q[1..]);
    }
  }

  lemma {:induction false} DeleteApart(j: Json, p: Path, q: Path)
    requires Apart(p, q)
    ensures Get(Delete(j, p), q) == Get(j, q)
    decreases p
  {
    if p[0] == q[0] && j.Obj? && p[0] in j.fields && |p| > 1 {
      DeleteApart(j.fields[p[0]], p[1..], q[1..]);
    }
  }

  lemma {:induction false} GetSet(j: Json, p: Path, v: Json)
    ensures Get(Set(j, p, v), p) == Some(v)
    decreases p
  {
    if p != [] {
      var fields := if j.Obj? then j.fields else map[];
      GetSet(if p[0] in fields then fields[p[0]] else Obj(map[]), p[1..], v);
    }
  }

  // ---- the recorder ------------------------------------------------------------------------------

  datatype Op = SetOp(path: Path, value: Json) | DeleteOp(path: Path)

  datatype Record = Record(disabled: bool, op: Option<Op>)

  function MarkSet(r: Record, path: Path, value: Json): Record {
    if path == [] then r.(disabled := true)
    else if r.disabled then r
    else if r.op.None? then r.(op := Some(SetOp(path, value)))
    else if r.op.value.DeleteOp? || r.op.value.path != path then r.(disabled := true)
    else r.(op := Some(SetOp(path, value)))
  }

  function MarkDelete(r: Record, path: Path): Record {
    if path == [] then r.(disabled := true)
    else if r.disabled then r
    else if r.op.None? then r.(op := Some(DeleteOp(path)))
    else if r.op.value.SetOp? || r.op.value.path != path then r.(disabled := true)
    else r
  }

  /** The captured variables of the source and the three closures over them. */
  class PatchRecorder {
    var patchDisabled: bool
    var patchHasOp: bool
    var patchDelete: bool
    var patchPath: Path
    var patchValue: Json

    function Recorded(): Record
      reads this
    {
      Record(patchDisabled,
             if !patchHasOp then None
             else if patchDelete then Some(DeleteOp(patchPath))
             else Some(SetOp(patchPath, patchValue)))
    }

    constructor ()
      ensures Recorded() == Record(false, None)
    {
      patchDisabled, patchHasOp, patchDelete, patchPath, patchValue := false, false, false, [], Leaf("");
    }

    method MarkPatchSet(path: Path, value: Json)
      modifies this
      ensures Recorded() == MarkSet(old(Recorded()), path, value)
    {
      if path == [] {
        patchDisabled := true;
        return;
      }
      if patchDisabled {
        return;
      }
      if !patchHasOp {
        patchHasOp, patchDelete, patchPath, patchValue := true, false, path, value;
        return;
      }
      if patchDelete || patchPath != path {
        patchDisabled := true;
        return;
      }
      patchValue := value;
    }

    method MarkPatchDelete(path: Path)
      modifies this
      ensures Recorded() == MarkDelete(old(Recorded()), path)
    {
      if path == [] {
        patchDisabled := true;
        return;
      }
      if patchDisabled {
        return;
      }
      if !patchHasOp {
        patchHasOp, patchDelete, patchPath := true, true, path;
        return;
      }
      if !patchDelete || patchPath != path {
        patchDisabled := true;
      }
    }

    method DisablePatch()
      modifies this
      ensures Recorded() == old(Recorded()).(disabled := true)
    {
      patchDisabled := true;
    }

    /** The body to send; patching may itself fail and then everything is serialized. */
    method Serialize(modified: bool, original: Json, mutated: Json, patchFails: bool) returns (body: Json)
      ensures body == Serialized(Progress(mutated, Recorded(), modified), original, patchFails)
    {
      body := original;
      if modified {
        var serializedByPatch := false;
        if !patchDisabled && patchHasOp && !patchFails {
          if patchDelete {
            body := Delete(body, patchPath);
          } else {
            body := Set(body, patchPath, patchValue);
          }
          serializedByPatch := true;
        }
        if !serializedByPatch {
          body := mutated;
        }
      }
    }
  }

  // ---- preparing a request ---------------------------------------------------------------------

  /** The changes Forward makes on its way: recorded sets and deletes, transformations that give up
      patching, and two that the recorder is told about wrongly or not at all. */
  datatype Step =
    | SetField(path: Path, value: Json)
    | DeleteField(path: Path)
    | Transform(change: Json -> Json)
    | DropVerbosity
    | RaiseFlatEffort

  datatype Progress = Progress(body: Json, record: Record, modified: bool)

  const VERBOSITY: Path := ["text", "verbosity"]
  const EFFORT: Path := ["reasoning", "effort"]
  const FLAT_EFFORT: Path := ["reasoning_effort"]

  function Take(s: Progress, step: Step): Progress {
    match step
    case SetField(path, value) => Progress(Set(s.body, path, value), MarkSet(s.record, path, value), true)
    case DeleteField(path) => Progress(Delete(s.body, path), MarkDelete(s.record, path), true)
    case Transform(change) => Progress(change(s.body), s.record.(disabled := true), true)
    case DropVerbosity => s.(body := Delete(s.body, VERBOSITY))
    case RaiseFlatEffort =>
      Progress(Set(s.body, FLAT_EFFORT, Leaf("xhigh")), MarkSet(s.record, EFFORT, Leaf("xhigh")), true)
  }

  function TakeAll(s: Progress, steps: seq<Step>): Progress {
    if steps == [] then s else Take(TakeAll(s, steps[..|steps| - 1]), steps[|steps| - 1])
  }

  function Begin(original: Json): Progress {
    Progress(original, Record(false, None), false)
  }

  function Apply(op: Op, j: Json): Json {
    match op
    case SetOp(path, value) => Set(j, path, value)
    case DeleteOp(path) => Delete(j, path)
  }

  /** Whether the changed body is serialized in full. */
  predicate InFull(s: Progress, patchFails: bool) {
    s.modified && (s.record.disabled || s.record.op.None? || patchFails)
  }

  function Serialized(s: Progress, original: Json, patchFails: bool): Json {
    if !s.modified then original
    else if InFull(s, patchFails) then s.body
    else Apply(s.record.op.value, original)
  }

  /** The recorded operation tells the whole story, as long as recording goes on. */
  ghost predicate Tells(s: Progress, original: Json) {
    && (!s.modified ==> s.body == original && s.record == Record(false, None))
    && (s.modified && !s.record.disabled ==>
          s.record.op.Some? && s.record.op.value.path != [] && s.body == Apply(s.record.op.value, original))
  }

  predicate Honest(step: Step) {
    step.SetField? || step.DeleteField? || step.Transform?
  }

  lemma HonestStepTells(s: Progress, step: Step, original: Json)
    requires Tells(s, original) && Honest(step)
    ensures Tells(Take(s, step), original)
  {
    if s.record.op.Some? && !s.record.disabled {
      match s.record.op.value
      case SetOp(path, value) => if step.SetField? { LastSetWins(original, path, value, step.value); }
      case DeleteOp(path) => DeleteOnce(original, path); DeleteOnce(s.body, path);
    }
  }

  lemma {:induction false} HonestStepsTell(original: Json, steps: seq<Step>)
    requires forall i | 0 <= i < |steps| :: Honest(steps[i])
    ensures Tells(TakeAll(Begin(original), steps), original)
  {
    hide Take;
    if steps != [] {
      HonestStepsTell(original, steps[..|steps| - 1]);
      HonestStepTells(TakeAll(Begin(original), steps[..|steps| - 1]), steps[|steps| - 1], original);
    }
  }

  /** Patching the original equals serializing the changed body, for every sequence of recorded
      changes on any paths. */
  lemma PatchRefinesMarshal(original: Json, steps: seq<Step>, patchFails: bool)
    requires forall i | 0 <= i < |steps| :: Honest(steps[i])
    ensures var s := TakeAll(Begin(original), steps); Serialized(s, original, patchFails) == s.body
  {
    HonestStepsTell(original, steps);
  }

  // ---- the two exceptions ------------------------------------------------------------------------

  /** The flat effort is raised only from a value that reads as "max". */
  predicate IsMax(j: Json) {
    j.Leaf? && Lower(TrimSpace(j.value)) == "max"
  }

  /** The changes as Forward makes them: recorded paths stay clear of the two fields, and the flat
      effort is raised only where it says so. */
  ghost predicate Plausible(s: Progress, step: Step) {
    match step
    case SetField(path, _) => Apart(path, VERBOSITY) && Apart(path, FLAT_EFFORT)
    case DeleteField(path) => Apart(path, VERBOSITY) && Apart(path, FLAT_EFFORT)
    case Transform(_) => true
    case DropVerbosity => true
    case RaiseFlatEffort => Get(s.body, FLAT_EFFORT).Some? && IsMax(Get(s.body, FLAT_EFFORT).value)
  }

  ghost predicate PlausibleRun(original: Json, steps: seq<Step>) {
    steps == []
    || (PlausibleRun(original, steps[..|steps| - 1])
        && Plausible(TakeAll(Begin(original), steps[..|steps| - 1]), steps[|steps| - 1]))
  }

  predicate Dropped(steps: seq<Step>) {
    steps != [] && (steps[|steps| - 1].DropVerbosity? || Dropped(steps[..|steps| - 1]))
  }

  predicate Raised(steps: seq<Step>) {
    steps != [] && (steps[|steps| - 1].RaiseFlatEffort? || Raised(steps[..|steps| - 1]))
  }

  /** What is known of the two fields while recording goes on. */
  ghost predicate Follows(s: Progress, original: Json, dropped: bool, raised: bool) {
    (s.record.disabled && s.modified)
    || (&& !s.record.disabled
        && (s.modified ==>
              && s.record.op.Some? && Apart(s.record.op.value.path, VERBOSITY)
              && Apart(s.record.op.value.path, FLAT_EFFORT))
        && (!s.modified ==> s.record.op.None? && !raised)
        && (if dropped then Get(s.body, VERBOSITY).None? else Get(s.body, VERBOSITY) == Get(original, VERBOSITY))
        && (if raised then Get(s.body, FLAT_EFFORT) == Some(Leaf("xhigh"))
                           && Get(original, FLAT_EFFORT) != Some(Leaf("xhigh"))
            else Get(s.body, FLAT_EFFORT) == Get(original, FLAT_EFFORT))
        && (!raised && (!dropped || Get(original, VERBOSITY).None?) ==> Tells(s, original)))
  }

  lemma StepFollows(s: Progress, step: Step, original: Json, dropped: bool, raised: bool)
    requires Follows(s, original, dropped, raised) && Plausible(s, step)
    ensures Follows(Take(s, step), original, dropped || step.DropVerbosity?, raised || step.RaiseFlatEffort?)
  {
    if !s.record.disabled {
      match step
      case SetField(path, value) =>
        SetApart(s.body, path, value, VERBOSITY);
        SetApart(s.body, path, value, FLAT_EFFORT);
        HonestIfTelling(s, step, original);
      case DeleteField(path) =>
        DeleteApart(s.body, path, VERBOSITY);
        DeleteApart(s.body, path, FLAT_EFFORT);
        HonestIfTelling(s, step, original);
      case Transform(_) =>
      case DropVerbosity =>
        DeleteOnce(s.body, VERBOSITY);
        DeleteApart(s.body, VERBOSITY, FLAT_EFFORT);
      case RaiseFlatEffort =>
        GetSet(s.body, FLAT_EFFORT, Leaf("xhigh"));
        SetApart(s.body, FLAT_EFFORT, Leaf("xhigh"), VERBOSITY);
        assert Apart(EFFORT, VERBOSITY) && Apart(EFFORT, FLAT_EFFORT);
        XhighIsNotMax();
    }
  }

  lemma HonestIfTelling(s: Progress, step: Step, original: Json)
    requires Honest(step)
    ensures Tells(s, original) ==> Tells(Take(s, step), original)
  {
    hide Take;
    if Tells(s, original) {
      HonestStepTells(s, step, original);
    }
  }

  lemma XhighIsNotMax()
    ensures !IsMax(Leaf("xhigh"))
  {
    assert |Lower(TrimSpace("xhigh"))| == 5;
  }

  lemma {:induction false} RunFollows(original: Json, steps: seq<Step>)
    requires PlausibleRun(original, steps)
    ensures Follows(TakeAll(Begin(original), steps), original, Dropped(steps), Raised(steps))
  {
    hide Take, Plausible, Follows;
    if steps == [] {
      BeginFollows(original);
    } else {
      var init, last := steps[..|steps| - 1], steps[|steps| - 1];
      RunFollows(original, init);
      StepFollows(TakeAll(Begin(original), init), last, original, Dropped(init), Raised(init));
    }
  }

  lemma BeginFollows(original: Json)
    ensures Follows(Begin(original), original, false, false)
  {
  }

  /** What is sent is the changed body exactly when it is serialized in full, or the flat effort was
      not raised and no existing verbosity was dropped: the recorder never hears of the dropped
      verbosity, and is told about the nested effort when the flat one was raised. */
  lemma PatchFaithfulExactly(original: Json, steps: seq<Step>, patchFails: bool)
    requires PlausibleRun(original, steps)
    ensures var s := TakeAll(Begin(original), steps);
            Serialized(s, original, patchFails) == s.body
            <==> InFull(s, patchFails) || (!Raised(steps) && (!Dropped(steps) || Get(original, VERBOSITY).None?))
  {
    var s := TakeAll(Begin(original), steps);
    RunFollows(original, steps);
    if s.modified && !InFull(s, patchFails) {
      match s.record.op.value
      case SetOp(path, value) =>
        SetApart(original, path, value, VERBOSITY);
        SetApart(original, path, value, FLAT_EFFORT);
      case DeleteOp(path) =>
        DeleteApart(original, path, VERBOSITY);
        DeleteApart(original, path, FLAT_EFFORT);
    }
  }

  /** A mapped model and a dropped verbosity: the upstream still receives the verbosity. */
  lemma VerbosityIsSent()
    ensures var original := Obj(map["model" := Leaf("a"), "text" := Obj(map["verbosity" := Leaf("low")])]);
            var s := TakeAll(Begin(original), [SetField(["model"], Leaf("b")), DropVerbosity]);
            Get(s.body, VERBOSITY).None? && Get(Serialized(s, original, false), VERBOSITY) == Some(Leaf("low"))
  {
  }
}
