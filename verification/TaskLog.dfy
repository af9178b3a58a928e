/** The change log of one task, and what it says about the task's current row. */
module TaskLog {
  import opened Outcomes
  import opened Domain
  import opened TaskPatch

  /** A row of task_history. The clock is a model variable: the application's clock reading
      with which the writing request stamped closing times. */
  datatype HistoryEntry = HistoryEntry(
    id: Id, taskId: Id, changedBy: Id, changes: Changes, createdAt: Time, clock: Time)

  const BLANK_TASK: Task := Task(0, 0, "", "", Status.Unset, 0, None, 0, 0, None, 0)

  /** Folds the recorded changes, oldest first, from a task with no content. */
  function Replay(log: seq<HistoryEntry>): Task {
    if log == [] then BLANK_TASK
    else Applied(Replay(log[..|log| - 1]), log[|log| - 1].changes)
  }

  predicate SameContent(a: Task, b: Task) {
    a.title == b.title && a.description == b.description && a.status == b.status && a.assignee == b.assignee
  }

  /** What field f held before entry k: nothing at the creation, the replayed value later. */
  function Earlier(log: seq<HistoryEntry>, k: nat, f: Field): Value
    requires k <= |log|
  {
    if k == 0 then Null else Current(Replay(log[..k]), f)
  }

  /** Entry k records, for each of its fields, exactly the step the replay takes there. */
  predicate Chained(log: seq<HistoryEntry>, k: nat)
    requires k < |log|
  {
    forall f :: f in log[k].changes ==>
      && log[k].changes[f].from == Earlier(log, k, f)
      && log[k].changes[f].to == Current(Replay(log[..k + 1]), f)
      && log[k].changes[f].from != log[k].changes[f].to
  }

  /** After every entry from k on the task is closed, and it was not closed before entry k. */
  predicate ClosingRun(log: seq<HistoryEntry>, k: nat) {
    && k < |log|
    && (k == 0 || !Replay(log[..k]).status.Terminal())
    && forall j :: k < j <= |log| ==> Replay(log[..j]).status.Terminal()
  }

  /** closed_at is the stamp of the write that began the current unbroken closed run. */
  ghost predicate StampedByRun(task: Task, log: seq<HistoryEntry>) {
    if task.status.Terminal()
    then exists k: nat :: ClosingRun(log, k) && task.closedAt == Some(log[k].clock)
    else task.closedAt.None?
  }

  ghost predicate Logged(task: Task, log: seq<HistoryEntry>) {
    && log != []
    && task.version == |log|
    && SameContent(task, Replay(log))
    && (forall k: nat :: k < |log| ==> Chained(log, k))
    && log[0].changedBy == task.createdBy
    && log[0].changes == CreationDiff(Replay(log[..1]))
    && Presentable(task.title, task.description, task.status)
    && StampedByRun(task, log)
  }

  lemma PrefixOfAppend(log: seq<HistoryEntry>, e: HistoryEntry, k: nat)
    requires k <= |log|
    ensures (log + [e])[..k] == log[..k]
    ensures (log + [e])[..|log| + 1] == log + [e]
    ensures Replay(log + [e]) == Applied(Replay(log), e.changes)
  {
    assert (log + [e])[..|log|] == log;
  }

  /** A closed task has exactly one closing run, so its stamp is determined. */
  lemma ClosingRunUnique(log: seq<HistoryEntry>, j: nat, k: nat)
    requires ClosingRun(log, j) && ClosingRun(log, k)
    ensures j == k
  {
  }

  /** The first entry of a created task logs it. */
  lemma LogCreation(task: Task, e: HistoryEntry)
    requires task.version == 1 && e.changedBy == task.createdBy && e.changes == CreationDiff(task)
    requires Presentable(task.title, task.description, task.status)
    requires task.closedAt == if task.status.Terminal() then Some(e.clock) else None
    ensures Logged(task, [e])
  {
    var log := [e];
    assert log[..0] == [] && log[..1] == log;
    assert Title in ALL_FIELDS && Description in ALL_FIELDS && StatusField in ALL_FIELDS && Assignee in ALL_FIELDS;
    assert SameContent(task, Replay(log));
    assert CreationDiff(Replay(log)) == CreationDiff(task);
    assert task.status.Terminal() ==> ClosingRun(log, 0);
  }

  /** The row that an update leaves behind when it replaced this row. */
  ghost predicate Replaces(before: Task, after: Task, e: HistoryEntry) {
    && after == before.(title := after.title, description := after.description, status := after.status,
                        assignee := after.assignee, updatedAt := after.updatedAt,
                        closedAt := CloseTimestamp(before, after.status, e.clock),
                        version := before.version + 1)
    && e.changes == Difference(before, after)
  }

  lemma ReplayDifference(before: Task, after: Task, r: Task)
    requires SameContent(before, r)
    ensures SameContent(after, Applied(r, Difference(before, after)))
  {
    DifferenceAt(before, after, Title);
    DifferenceAt(before, after, Description);
    DifferenceAt(before, after, StatusField);
    DifferenceAt(before, after, Assignee);
  }

  lemma ChainKept(log: seq<HistoryEntry>, e: HistoryEntry, k: nat)
    requires k < |log| && Chained(log, k)
    ensures Chained(log + [e], k)
  {
    PrefixOfAppend(log, e, k);
    PrefixOfAppend(log, e, k + 1);
  }

  lemma ChangeSteps(before: Task, after: Task, r: Task, r': Task, f: Field)
    requires SameContent(before, r) && SameContent(after, r')
    requires f in Difference(before, after)
    ensures Difference(before, after)[f] == FieldChange(Current(r, f), Current(r', f))
    ensures Current(r, f) != Current(r', f)
  {
    DifferenceAt(before, after, f);
  }

  lemma ChainExtended(task: Task, log: seq<HistoryEntry>, after: Task, e: HistoryEntry)
    requires log != [] && SameContent(task, Replay(log)) && e.changes == Difference(task, after)
    ensures SameContent(after, Replay(log + [e]))
    ensures Chained(log + [e], |log|)
  {
    var grown := log + [e];
    PrefixOfAppend(log, e, |log|);
    ReplayDifference(task, after, Replay(log));
    assert grown[..|log|] == log && grown[..|log| + 1] == grown && grown[|log|] == e;
    var r, r' := Replay(log), Replay(grown);
    forall f | f in e.changes
      ensures e.changes[f] == FieldChange(Current(r, f), Current(r', f))
      ensures Current(r, f) != Current(r', f)
    {
      ChangeSteps(task, after, r, r', f);
    }
  }

  /** The run goes on when a closed task stays closed. */
  lemma RunGoesOn(log: seq<HistoryEntry>, e: HistoryEntry, k: nat)
    requires ClosingRun(log, k) && Replay(log + [e]).status.Terminal()
    ensures ClosingRun(log + [e], k) && (log + [e])[k] == log[k]
  {
    forall j: nat | j <= |log| ensures (log + [e])[..j] == log[..j] {
      PrefixOfAppend(log, e, j);
    }
    assert (log + [e])[..|log| + 1] == log + [e];
  }

  /** A run begins when an open task is closed. */
  lemma RunBegins(log: seq<HistoryEntry>, e: HistoryEntry)
    requires !Replay(log).status.Terminal() && Replay(log + [e]).status.Terminal()
    ensures ClosingRun(log + [e], |log|) && (log + [e])[|log|] == e
  {
    PrefixOfAppend(log, e, |log|);
    assert log[..|log|] == log;
  }

  lemma StampKept(task: Task, log: seq<HistoryEntry>, after: Task, e: HistoryEntry)
    requires StampedByRun(task, log) && SameContent(task, Replay(log))
    requires after.closedAt == CloseTimestamp(task, after.status, e.clock)
    requires SameContent(after, Replay(log + [e]))
    ensures StampedByRun(after, log + [e])
  {
    if after.status.Terminal() {
      if task.status.Terminal() {
        var k: nat :| ClosingRun(log, k) && task.closedAt == Some(log[k].clock);
        RunGoesOn(log, e, k);
      } else {
        RunBegins(log, e);
      }
    }
  }

  /** An update that replaces a logged row and appends its difference leaves a logged row. */
  lemma LogUpdate(task: Task, log: seq<HistoryEntry>, after: Task, e: HistoryEntry)
    requires Logged(task, log) && Replaces(task, after, e)
    requires Presentable(after.title, after.description, after.status)
    ensures Logged(after, log + [e])
  {
    ChainExtended(task, log, after, e);
    forall k: nat | k < |log| ensures Chained(log + [e], k) {
      ChainKept(log, e, k);
    }
    StampKept(task, log, after, e);
    PrefixOfAppend(log, e, 1);
  }
}
