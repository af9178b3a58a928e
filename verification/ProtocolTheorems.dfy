/** What holds in every state of every run, read off the invariant of ProtocolSafety. */
module ProtocolTheorems {
  import opened Domain
  import opened TaskLog
  import opened Database
  import opened Protocol
  import opened ProtocolSafety
  import Statistics

  lemma LoggedAt(events: seq<Event>, i: nat, id: Id)
    requires i < |Run(events).trace| && id in Run(events).trace[i].tasks
    ensures Logged(Run(events).trace[i].tasks[id], LogOf(Run(events).trace[i].history, id))
  {
    RunKeeps(events);
    assert Sound(Run(events).trace[i]);
  }

  lemma StampOf(task: Task, log: seq<HistoryEntry>)
    requires Logged(task, log)
    ensures task.closedAt.Some? <==> task.status.Terminal()
    ensures StampedByRun(task, log)
  {
  }

  /** In every state of every run, replaying a task's history in order rebuilds its content, every
      recorded From is what the earlier entries left and every To what the replay reaches, and the
      version counts the entries. */
  lemma HistoryReplay(events: seq<Event>, i: nat, id: Id)
    requires i < |Run(events).trace| && id in Run(events).trace[i].tasks
    ensures var db := Run(events).trace[i];
            var log := LogOf(db.history, id);
            && db.tasks[id].version == |log| > 0
            && SameContent(db.tasks[id], Replay(log))
            && (forall k: nat :: k < |log| ==> Chained(log, k))
            && log[0].changes == CreationDiff(Replay(log[..1]))
  {
    LoggedAt(events, i, id);
  }

  /** closed_at is set exactly for the terminal statuses, to the clock of the write that began the
      current unbroken closed run, although the service computes it from a row it loaded earlier. */
  lemma ClosingTime(events: seq<Event>, i: nat, id: Id)
    requires i < |Run(events).trace| && id in Run(events).trace[i].tasks
    ensures var task := Run(events).trace[i].tasks[id];
            var log := LogOf(Run(events).trace[i].history, id);
            && (task.closedAt.Some? <==> task.status.Done? || task.status.Cancelled?)
            && StampedByRun(task, log)
  {
    LoggedAt(events, i, id);
    StampOf(Run(events).trace[i].tasks[id], LogOf(Run(events).trace[i].history, id));
  }

  /** Every stored task has a trimmed title of 1 to 255 characters, a bounded description and a status. */
  lemma StoredTasksPresentable(events: seq<Event>, i: nat, id: Id)
    requires i < |Run(events).trace| && id in Run(events).trace[i].tasks
    ensures var task := Run(events).trace[i].tasks[id];
            Presentable(task.title, task.description, task.status)
  {
    LoggedAt(events, i, id);
  }

  /** Every team has exactly one owner in every state, and it is the team's creator. */
  lemma OneOwner(events: seq<Event>, i: nat, team: Id, user: Id)
    requires i < |Run(events).trace| && team in Run(events).trace[i].teams
    ensures var db := Run(events).trace[i];
            (team, user) in db.members && db.members[(team, user)].Owner? <==> user == db.teams[team].createdBy
  {
    RunKeeps(events);
    assert Owned(Run(events).trace[i]);
  }

  /** Creators, assignees and history authors belong to the task's team, in every state. */
  lemma TeamClosure(events: seq<Event>, i: nat, id: Id, k: nat)
    requires i < |Run(events).trace| && id in Run(events).trace[i].tasks
    ensures var db := Run(events).trace[i];
            && (db.tasks[id].teamId, db.tasks[id].createdBy) in db.members
            && (db.tasks[id].assignee.Some? ==> (db.tasks[id].teamId, db.tasks[id].assignee.value) in db.members)
            && (k < |db.history| && db.history[k].taskId == id ==>
                  (db.tasks[id].teamId, db.history[k].changedBy) in db.members)
  {
    RunKeeps(events);
    assert Closed(Run(events).trace[i]);
  }

  /** In every reachable state, from whatever the report query may answer, the right report is made. */
  lemma ReportInRuns(events: seq<Event>, i: nat, team: Id, cutoff: Time, row: Statistics.Answer)
    requires i < |Run(events).trace| && Statistics.AnswerOf(Run(events).trace[i], team, cutoff, row)
    ensures Statistics.ReportOf(Run(events).trace[i], team, cutoff, row.byStatus, Statistics.Sorted(row.assignees))
  {
    hide Run, Sound, Evolving, AllReqsOk, AllAccounted, Statistics.AnswerOf, Statistics.ReportOf;
    RunKeeps(events);
    assert Sound(Run(events).trace[i]);
    Statistics.ReportRight(Run(events).trace[i], team, cutoff, row);
  }

  /** A planned update fails at its transaction exactly when the row has changed since it was loaded;
      then somebody else's update has moved the version on. */
  lemma ConflictExact(events: seq<Event>, r: nat, redisOk: bool, clock: Time, now: Time)
    requires r in Run(events).reqs && Run(events).reqs[r].Swap?
    ensures SwapVerdict(Run(events), r, AdvanceUpdate(Run(events), r, Run(events).reqs[r], clock, now))
    ensures Do(Run(events), Advance(r, redisOk, clock, now)) ==
            AdvanceUpdate(Run(events), r, Run(events).reqs[r], clock, now)
  {
    RunKeeps(events);
    ReadyToSwap(Run(events), r);
    SwapDecides(Run(events), r, clock, now);
    SwapAdvance(Run(events), r, redisOk, clock, now);
  }

  lemma SwapAdvance(s: Sys, r: nat, redisOk: bool, clock: Time, now: Time)
    requires s.trace != [] && r in s.reqs && s.reqs[r].Swap?
    ensures Do(s, Advance(r, redisOk, clock, now)) == AdvanceUpdate(s, r, s.reqs[r], clock, now)
  {
  }

  /** The transaction succeeds if the row is still the loaded one; otherwise the answer is a conflict
      and the row's version is past the loaded one. */
  predicate SwapVerdict(s: Sys, r: nat, t: Sys)
    requires s.trace != [] && r in s.reqs && s.reqs[r].Swap?
  {
    var task := s.reqs[r].task;
    && task.id in Now(s).tasks
    && (if Now(s).tasks[task.id] == task then r in t.reqs && t.reqs[r].Flush?
        else t == Fails(s, r, LostRace) && Now(s).tasks[task.id].version > task.version)
  }

  lemma Decided(s: Sys, r: nat, t: Sys)
    requires s.trace != [] && r in s.reqs && s.reqs[r].Swap?
    requires var task := s.reqs[r].task;
             && task.id in Now(s).tasks && Descends(task, Now(s).tasks[task.id])
             && (if Now(s).tasks[task.id].version == task.version then r in t.reqs && t.reqs[r].Flush?
                 else t == Fails(s, r, LostRace))
    ensures SwapVerdict(s, r, t)
  {
  }

  lemma SwapDecides(s: Sys, r: nat, clock: Time, now: Time)
    requires SwapReady(s, r)
    ensures SwapVerdict(s, r, AdvanceUpdate(s, r, s.reqs[r], clock, now))
  {
    if Now(s).tasks[s.reqs[r].task.id].version == s.reqs[r].task.version {
      var _, _, _ := SwapCommits(s, r, clock, now);
    } else {
      LostSwapStep(s, r, clock, now);
    }
    Decided(s, r, AdvanceUpdate(s, r, s.reqs[r], clock, now));
  }

  /** The step that appended an entry of the history. */
  lemma EntryOrigin(trace: seq<DB>, k: nat) returns (i: nat)
    requires trace != [] && trace[0].history == []
    requires forall j :: 0 <= j < |trace| ==> trace[j].history <= trace[|trace| - 1].history
    requires k < |trace[|trace| - 1].history|
    ensures 0 < i < |trace|
    ensures |trace[i - 1].history| <= k < |trace[i].history|
    ensures trace[i].history[k] == trace[|trace| - 1].history[k]
  {
    i := |trace| - 1;
    while k < |trace[i - 1].history|
      invariant 0 < i < |trace| && k < |trace[i].history|
      decreases i
    {
      i := i - 1;
    }
  }

  lemma HistoriesGrow(trace: seq<DB>)
    requires TraceOk(trace)
    ensures trace[0].history == []
    ensures forall j :: 0 <= j < |trace| ==> trace[j].history <= trace[|trace| - 1].history
  {
    forall j | 0 <= j < |trace| ensures trace[j].history <= trace[|trace| - 1].history {
      assert Evolves(trace[j], trace[|trace| - 1]);
    }
  }
}
