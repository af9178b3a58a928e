/** Patches: what a client may ask to change, the changes that follow, and their effect. */
module TaskPatch {
  import opened Outcomes
  import opened Domain
  import Text

  /** A JSON member: absent (not set), null (set, not valid) or a value. */
  datatype Optional<T> = Optional(value: T, valid: bool, isSet: bool)

  datatype Patch = Patch(
    title: Optional<string>, description: Optional<string>, status: Optional<Status>,
    assignee: Optional<Id>, version: Option<int>)

  /** Decoding JSON leaves the zero value behind a null. */
  predicate Decoded(p: Patch) {
    && (!p.title.valid ==> p.title.value == "")
    && (!p.description.valid ==> p.description.value == "")
    && (!p.status.valid ==> p.status.value == Status.Unset)
  }

  function Validate(p: Patch): Check<Fault> {
    if p.title.isSet && !p.title.valid then Fail(Invalid("title cannot be null"))
    else if p.title.isSet && ValidateTitle(p.title.value).Fail? then ValidateTitle(p.title.value)
    else if p.description.isSet && !p.description.valid then Fail(Invalid("description cannot be null"))
    else if p.description.isSet && |p.description.value| > MAX_DESCRIPTION then
      Fail(Invalid("description is too long"))
    else if p.status.isSet && !p.status.valid then Fail(Invalid("status cannot be null"))
    else if p.status.isSet && !p.status.value.Valid() then Fail(Invalid("unknown status"))
    else if p.assignee.isSet && p.assignee.valid && p.assignee.value <= 0 then
      Fail(Invalid("assignee_id must be a positive integer"))
    else if p.version.Some? && p.version.value <= 0 then Fail(Invalid("version must be a positive integer"))
    else Pass
  }

  /** The task with every field the patch sets overwritten. */
  function Overwritten(task: Task, p: Patch): Task {
    task.(
      title := if p.title.isSet then Text.Trim(p.title.value) else task.title,
      description := if p.description.isSet then p.description.value else task.description,
      status := if p.status.isSet then p.status.value else task.status,
      assignee :=
        if !p.assignee.isSet then task.assignee
        else if p.assignee.valid then Some(p.assignee.value)
        else None)
  }

  /** The fields where two versions of a task differ, with both values. */
  function Difference(before: Task, after: Task): Changes {
    map f | f in ALL_FIELDS && Current(before, f) != Current(after, f) ::
      FieldChange(Current(before, f), Current(after, f))
  }

  function DiffOf(task: Task, p: Patch): Changes {
    Difference(task, Overwritten(task, p))
  }

  lemma CollectedIs(task: Task, p: Patch, changes: Changes)
    requires forall f :: f in changes <==> Current(task, f) != Current(Overwritten(task, p), f)
    requires forall f :: f in changes ==>
               changes[f] == FieldChange(Current(task, f), Current(Overwritten(task, p), f))
    ensures changes == DiffOf(task, p)
  {
    hide Overwritten, Current;
    AllFields();
  }

  lemma AllFields()
    ensures forall f: Field :: f in ALL_FIELDS
  {
    forall f: Field ensures f in ALL_FIELDS {
      match f
      case Title =>
      case Description =>
      case StatusField =>
      case Assignee =>
    }
  }

  /** Collects the changes field by field. */
  method Diff(task: Task, p: Patch) returns (changes: Changes)
    ensures changes == DiffOf(task, p)
    ensures Title in changes <==> p.title.isSet && Text.Trim(p.title.value) != task.title
    ensures Title in changes ==> changes[Title] == FieldChange(Words(task.title), Words(Text.Trim(p.title.value)))
    ensures Description in changes <==> p.description.isSet && p.description.value != task.description
    ensures Description in changes ==>
              changes[Description] == FieldChange(Words(task.description), Words(p.description.value))
    ensures StatusField in changes <==> p.status.isSet && p.status.value != task.status
    ensures StatusField in changes ==>
              changes[StatusField] == FieldChange(StatusIs(task.status), StatusIs(p.status.value))
    ensures Assignee in changes <==>
              p.assignee.isSet && (if p.assignee.valid then Some(p.assignee.value) else None) != task.assignee
    ensures Assignee in changes ==>
              changes[Assignee] == FieldChange(AssigneeIs(task.assignee),
                                               AssigneeIs(if p.assignee.valid then Some(p.assignee.value) else None))
  {
    hide DiffOf, Text.Trim;
    changes := map[];
    if p.title.isSet {
      var next := Text.Trim(p.title.value);
      if next != task.title {
        changes := changes[Title := FieldChange(Words(task.title), Words(next))];
      }
    }
    if p.description.isSet && p.description.value != task.description {
      changes := changes[Description := FieldChange(Words(task.description), Words(p.description.value))];
    }
    if p.status.isSet && p.status.value != task.status {
      changes := changes[StatusField := FieldChange(StatusIs(task.status), StatusIs(p.status.value))];
    }
    if p.assignee.isSet {
      var next := None;
      if p.assignee.valid {
        next := Some(p.assignee.value);
      }
      if !SameAssignee(task.assignee, next) {
        changes := changes[Assignee := FieldChange(AssigneeIs(task.assignee), AssigneeIs(next))];
      }
    }
    CollectedIs(task, p, changes);
  }

  predicate SameAssignee(a: Option<Id>, b: Option<Id>) {
    if a.None? && b.None? then true
    else if a.None? || b.None? then false
    else a.value == b.value
  }

  // Reading a recorded value at the wrong type yields the zero value of the type asked for.
  function AsWords(v: Value): string {
    if v.Words? then v.text else ""
  }

  function AsStatus(v: Value): Status {
    if v.StatusIs? then v.status else Status.Unset
  }

  function AsAssignee(v: Value): Option<Id> {
    if v.AssigneeIs? then v.user else None
  }

  function Applied(task: Task, changes: Changes): Task {
    task.(
      title := if Title in changes then AsWords(changes[Title].to) else task.title,
      description := if Description in changes then AsWords(changes[Description].to) else task.description,
      status := if StatusField in changes then AsStatus(changes[StatusField].to) else task.status,
      assignee := if Assignee in changes then AsAssignee(changes[Assignee].to) else task.assignee)
  }

  /** Overwrites the changed fields of a local copy, one after the other. */
  method Apply(task: Task, changes: Changes) returns (next: Task)
    ensures next == Applied(task, changes)
  {
    next := task;
    if Title in changes {
      next := next.(title := AsWords(changes[Title].to));
    }
    if Description in changes {
      next := next.(description := AsWords(changes[Description].to));
    }
    if StatusField in changes {
      next := next.(status := AsStatus(changes[StatusField].to));
    }
    if Assignee in changes {
      next := next.(assignee := AsAssignee(changes[Assignee].to));
    }
  }

  /** Reverses the direction of every recorded change. */
  function Reversed(changes: Changes): Changes {
    map f | f in changes :: FieldChange(changes[f].to, changes[f].from)
  }

  /** The two tasks agree outside the editable fields. */
  predicate SameFrame(a: Task, b: Task) {
    a == b.(title := a.title, description := a.description, status := a.status, assignee := a.assignee)
  }

  lemma DifferenceAt(before: Task, after: Task, f: Field)
    ensures f in Difference(before, after) <==> Current(before, f) != Current(after, f)
    ensures f in Difference(before, after) ==>
              Difference(before, after)[f] == FieldChange(Current(before, f), Current(after, f))
  {
    assert f in ALL_FIELDS;
  }

  /** Applying the difference reaches the second task, and applying it reversed leads back. */
  lemma ApplyDifference(before: Task, after: Task)
    requires SameFrame(before, after)
    ensures Applied(before, Difference(before, after)) == after
    ensures Applied(after, Reversed(Difference(before, after))) == before
    ensures Difference(before, after) == map[] <==> before == after
  {
    DifferenceAt(before, after, Title);
    DifferenceAt(before, after, Description);
    DifferenceAt(before, after, StatusField);
    DifferenceAt(before, after, Assignee);
    if Difference(before, after) == map[] {
      assert forall f :: f !in Difference(before, after);
    }
  }

  /** The algebra of a patch: applying the recorded changes overwrites the fields that the patch sets and no
      others, it can be undone, nothing is recorded exactly when nothing would change, every record is a real
      change that starts at the old value and ends at the new one, and the same patch has no second effect. */
  lemma PatchAlgebra(task: Task, p: Patch)
    ensures Applied(task, DiffOf(task, p)) == Overwritten(task, p)
    ensures Applied(Overwritten(task, p), Reversed(DiffOf(task, p))) == task
    ensures DiffOf(task, p) == map[] <==> Overwritten(task, p) == task
    ensures forall f :: f in DiffOf(task, p) ==>
              && DiffOf(task, p)[f].from != DiffOf(task, p)[f].to
              && DiffOf(task, p)[f].from == Current(task, f)
              && DiffOf(task, p)[f].to == Current(Applied(task, DiffOf(task, p)), f)
    ensures DiffOf(Applied(task, DiffOf(task, p)), p) == map[]
    ensures var next := Applied(task, DiffOf(task, p));
            && next.title == (if p.title.isSet then Text.Trim(p.title.value) else task.title)
            && next.description == (if p.description.isSet then p.description.value else task.description)
            && next.status == (if p.status.isSet then p.status.value else task.status)
            && next.assignee ==
               (if !p.assignee.isSet then task.assignee
                else if p.assignee.valid then Some(p.assignee.value)
                else None)
  {
    ApplyDifference(task, Overwritten(task, p));
    assert Overwritten(Overwritten(task, p), p) == Overwritten(task, p);
    ApplyDifference(Overwritten(task, p), Overwritten(task, p));
  }

  lemma AppliedIsOverwritten(task: Task, p: Patch)
    ensures Applied(task, DiffOf(task, p)) == Overwritten(task, p)
  {
    PatchAlgebra(task, p);
  }

  /** Validation is exact: a decoded patch passes if and only if it turns every storable task into a
      storable one, does not null the description, and names a positive assignee and version. */
  lemma ValidateExact(task: Task, p: Patch)
    requires Presentable(task.title, task.description, task.status)
    ensures var next := Overwritten(task, p);
            var acceptable :=
              && Presentable(next.title, next.description, next.status)
              && (p.description.isSet ==> p.description.valid)
              && (p.assignee.isSet && p.assignee.valid ==> p.assignee.value > 0)
              && (p.version.Some? ==> p.version.value > 0);
            && (Validate(p).Pass? ==> acceptable)
            && (Decoded(p) && acceptable ==> Validate(p).Pass?)
  {
    Text.TrimFixedPoint(p.title.value);
    if Decoded(p) && p.title.isSet && !p.title.valid {
      assert Overwritten(task, p).title == "";
    }
  }
}
