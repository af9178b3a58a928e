/** The store: tables that its methods update in place, each method doing what the corresponding function
    of Database says. Statements and transactions succeed or fail as a whole; the clock of the application
    and that of the database are parameters. */
module Storage {
  import opened Outcomes
  import opened Domain
  import opened TaskLog
  import opened Database
  import opened Execution
  import opened Listings
  import Promises
  import Statistics

  /** One condition of a WHERE clause. */
  datatype Condition = OfTeam(team: Id) | OfStatus(status: Status) | OfAssignee(user: Id)

  predicate Holds(c: Condition, task: Task) {
    match c
    case OfTeam(team) => task.teamId == team
    case OfStatus(status) => task.status == status
    case OfAssignee(user) => task.assignee == Some(user)
  }

  predicate AllHold(where: seq<Condition>, task: Task) {
    forall k :: 0 <= k < |where| ==> Holds(where[k], task)
  }

  method BuildWhere(f: TaskFilter) returns (where: seq<Condition>)
    ensures forall task :: AllHold(where, task) <==>
              && task.teamId == f.teamId
              && (f.status.Some? ==> task.status == f.status.value)
              && (f.assignee.Some? ==> task.assignee == Some(f.assignee.value))
  {
    where := [OfTeam(f.teamId)];
    ghost var w0 := where;
    assert forall task :: AllHold(w0, task) <==> Holds(w0[0], task);
    if f.status.Some? {
      where := where + [OfStatus(f.status.value)];
    }
    ghost var w1 := where;
    forall task ensures AllHold(w1, task) <==>
      AllHold(w0, task) && (f.status.Some? ==> task.status == f.status.value)
    {
      if f.status.Some? {
        HoldAppended(w0, OfStatus(f.status.value), task);
      }
    }
    if f.assignee.Some? {
      where := where + [OfAssignee(f.assignee.value)];
    }
    forall task ensures AllHold(where, task) <==>
      AllHold(w1, task) && (f.assignee.Some? ==> task.assignee == f.assignee)
    {
      if f.assignee.Some? {
        HoldAppended(w1, OfAssignee(f.assignee.value), task);
      }
    }
  }

  lemma HoldAppended(where: seq<Condition>, c: Condition, task: Task)
    ensures AllHold(where + [c], task) <==> AllHold(where, task) && Holds(c, task)
  {
    var more := where + [c];
    assert more[|where|] == c;
    assert forall k :: 0 <= k < |where| ==> more[k] == where[k];
  }

  /** The window over a listing, once the first part of it has been read. */
  lemma WindowRead<T>(seen: seq<T>, rest: seq<T>, offset: nat, limit: nat)
    requires |seen| <= offset + limit && (rest == [] || |seen| == offset + limit)
    ensures Window(seen + rest, offset, limit) == seen[Least(offset, |seen|)..]
  {
  }

  /** Reading one more entry backwards. */
  lemma NewestStep(rows: seq<HistoryEntry>, k: nat, task: Id, seen: seq<HistoryEntry>)
    requires k < |rows|
    ensures seen + NewestFirst(rows[..k + 1], task) ==
            (if rows[k].taskId == task then seen + [rows[k]] else seen) + NewestFirst(rows[..k], task)
  {
    hide NewestFirst;
    assert rows[..k + 1] == rows[..k] + [rows[k]];
    NewestAppended(rows[..k], rows[k], task);
  }

  class Store {
    var users: map<Id, User>
    var emails: map<string, Id>
    var teams: map<Id, Team>
    var members: map<(Id, Id), Role>
    var tasks: map<Id, Task>
    var history: seq<HistoryEntry>
    var nextTeam: nat
    var nextTask: nat
    var nextEntry: nat

    /** The primary key of tasks, and the foreign keys of members. */
    ghost predicate Valid()
      reads this
    {
      && (forall id :: id in tasks ==> tasks[id].id == id)
      && (forall m :: m in members ==> m.0 in teams && m.1 in users)
    }

    constructor ()
      ensures Valid() && View() == EMPTY_DB
    {
      users, emails, teams, members, tasks, history := map[], map[], map[], map[], map[], [];
      nextTeam, nextTask, nextEntry := 1, 1, 1;
    }

    function View(): DB
      reads this
    {
      DB(users, emails, teams, members, tasks, history, nextTeam, nextTask, nextEntry)
    }

    method UserByID(id: Id) returns (res: Result<User, StoreError>)
      ensures res == SelectUser(View(), id)
    {
      res := if id in users then Ok(users[id]) else Err(NotFound);
    }

    method UserByEmail(address: string) returns (res: Result<User, StoreError>)
      ensures res == SelectEmail(View(), address)
    {
      if address !in emails {
        return Err(NotFound);
      }
      res := UserByID(emails[address]);
    }

    method TaskByID(id: Id) returns (res: Result<Task, StoreError>)
      ensures res == SelectTask(View(), id)
    {
      res := if id in tasks then Ok(tasks[id]) else Err(NotFound);
    }

    method Membership(team: Id, user: Id) returns (res: Result<Role, StoreError>)
      ensures res == SelectRole(View(), team, user)
    {
      res := if (team, user) in members && user in users then Ok(members[(team, user)]) else Err(NotFound);
    }

    /** INSERT INTO task_history; the author must exist. */
    method InsertHistory(task: Id, author: Id, changes: Changes, clock: Time, now: Time) returns (ok: bool)
      modifies this`history, this`nextEntry
      ensures ok == (author in users)
      ensures View() ==
              if ok then
                old(View()).(history := old(history) + [Entry(old(View()), task, author, changes, clock, now)],
                             nextEntry := old(nextEntry) + 1)
              else old(View())
    {
      if author !in users {
        return false;
      }
      history := history + [HistoryEntry(nextEntry, task, author, changes, now, clock)];
      nextEntry := nextEntry + 1;
      return true;
    }

    /** Inserts the row and its first history entry in one transaction. */
    method CreateTask(t: NewTask, clock: Time, now: Time) returns (res: Result<Task, StoreError>)
      requires Valid()
      modifies this
      ensures Valid()
      ensures (View(), res) == InsertTask(old(View()), t, clock, now)
    {
      var closedAt := None;
      if t.status.Terminal() {
        closedAt := Some(clock);
      }
      if t.teamId !in teams || t.createdBy !in users || (t.assignee.Some? && t.assignee.value !in users) {
        return Err(UnknownId);
      }
      var id := nextTask;
      nextTask := nextTask + 1;
      tasks := tasks[id := Task(id, t.teamId, t.title, t.description, t.status, t.createdBy, t.assignee,
                                now, now, closedAt, 1)];
      var task := tasks[id];
      var changes := CreationChanges(task);
      var _ := InsertHistory(id, t.createdBy, changes, clock, now);
      return Ok(task);
    }

    /** Updates the row if it still has the expected version, and appends to its history, in one
        transaction that is rolled back when either fails. */
    method UpdateTask(id: Id, expected: int, upd: TaskUpdate, author: Id, changes: Changes, clock: Time, now: Time)
      returns (res: Result<Task, StoreError>)
      requires Valid()
      modifies this
      ensures Valid()
      ensures (View(), res) == CompareAndSwap(old(View()), id, expected, upd, author, changes, clock, now)
    {
      var before := tasks;
      var affected := 0;
      if id in tasks && tasks[id].version == expected {
        if upd.assignee.Some? && upd.assignee.value !in users {
          return Err(UnknownId);
        }
        var row := tasks[id];
        row := row.(title := upd.title, description := upd.description, status := upd.status);
        row := row.(assignee := upd.assignee, closedAt := upd.closedAt);
        row := row.(updatedAt := now, version := row.version + 1);
        tasks, affected := tasks[id := row], 1;
      }
      if affected == 0 {
        return Err(VersionConflict);
      }
      var logged := InsertHistory(id, author, changes, clock, now);
      if !logged {
        tasks := before;
        return Err(UnknownId);
      }
      assert tasks == before[id := UpdatedRow(before[id], upd, now)];
      return Ok(tasks[id]);
    }

    /** Scans the rows by descending id, skips the offset, and stops at the limit. */
    method ListTasks(f: TaskFilter) returns (res: Result<seq<Task>, StoreError>)
      ensures f.limit < 0 || f.offset < 0 ==> res == Err(BadQuery)
      ensures f.limit >= 0 && f.offset >= 0 ==> res == Ok(Query(View(), f))
      ensures res.Ok? && Keyed(View()) ==> Promises.RowsAs(tasks, f, f.offset, f.limit, res.value)
    {
      hide Keyed;
      if f.limit < 0 || f.offset < 0 {
        return Err(BadQuery);
      }
      var where := BuildWhere(f);
      var rows, skipped := [], 0;
      var n: nat := if nextTask == 0 then 0 else nextTask - 1;
      ghost var seen: seq<Task> := [];
      while n > 0 && |rows| < f.limit
        invariant Listing(View(), f) == seen + Rows(tasks, f, n)
        invariant skipped == Least(f.offset, |seen|)
        invariant rows == seen[skipped..] && |rows| <= f.limit
        decreases n
      {
        ghost var rest := Rows(tasks, f, n);
        if n in tasks && AllHold(where, tasks[n]) {
          assert rest == [tasks[n]] + Rows(tasks, f, n - 1);
          seen := seen + [tasks[n]];
          if skipped < f.offset {
            skipped := skipped + 1;
          } else {
            rows := rows + [tasks[n]];
          }
        } else {
          assert rest == Rows(tasks, f, n - 1);
        }
        n := n - 1;
      }
      if |rows| == 0 && f.limit == 0 {
        assert Query(View(), f) == [];
      } else {
        WindowRead(seen, Rows(tasks, f, n), f.offset, f.limit);
      }
      assert rows == Query(View(), f);
      hide Promises.RowsAs;
      if Keyed(View()) {
        QueryExact(View(), f);
      }
      return Ok(rows);
    }

    /** Collects the entries of the task by descending id. */
    method TaskHistory(task: Id) returns (entries: seq<HistoryEntry>)
      ensures entries == NewestFirst(history, task)
    {
      entries := [];
      var rows := history;
      var k := |rows|;
      assert rows[..k] == rows;
      while k > 0
        invariant 0 <= k <= |rows|
        invariant NewestFirst(rows, task) == entries + NewestFirst(rows[..k], task)
      {
        hide NewestFirst;
        k := k - 1;
        NewestStep(rows, k, task, entries);
        if rows[k].taskId == task {
          entries := entries + [rows[k]];
        }
      }
    }

    /** Inserts the team and its owner in one transaction. */
    method CreateTeam(name: string, author: Id, now: Time) returns (res: Result<Team, StoreError>)
      requires Valid()
      modifies this
      ensures Valid()
      ensures (View(), res) == InsertTeam(old(View()), name, author, now)
    {
      if author !in users {
        return Err(UnknownId);
      }
      var id := nextTeam;
      nextTeam := nextTeam + 1;
      teams := teams[id := Team(id, name, author, now)];
      members := members[(id, author) := Role.Owner];
      return Ok(teams[id]);
    }

    method AddMember(team: Id, user: Id, role: Role) returns (res: Result<(), StoreError>)
      requires Valid()
      modifies this`members
      ensures Valid()
      ensures (View(), res) == InsertMember(old(View()), team, user, role)
    {
      if (team, user) in members {
        return Err(AlreadyExists);
      }
      if team !in teams || user !in users {
        return Err(UnknownId);
      }
      members := members[(team, user) := role];
      return Ok(());
    }

    /** No affected row means that there is no such member, or that the role is the same already. */
    method UpdateMemberRole(team: Id, user: Id, role: Role) returns (res: Result<(), StoreError>)
      requires Valid()
      modifies this`members
      ensures Valid()
      ensures (View(), res) == SetRole(old(View()), team, user, role)
    {
      var affected := 0;
      if (team, user) in members && members[(team, user)] != role {
        members, affected := members[(team, user) := role], 1;
      }
      if affected == 0 {
        var row := Membership(team, user);
        if row.Err? {
          return Err(row.error);
        }
        assert members == members[(team, user) := role];
      }
      return Ok(());
    }

    /** The teams of a user by ascending id. */
    method TeamsForUser(user: Id) returns (rows: seq<(Team, Role)>)
      ensures rows == TeamsOf(View(), user)
    {
      rows := [];
      var last := if nextTeam == 0 then 0 else nextTeam - 1;
      for n := 0 to last
        invariant rows == TeamRows(View(), user, n)
      {
        if n + 1 in teams && (n + 1, user) in members {
          rows := rows + [(teams[n + 1], members[(n + 1, user)])];
        }
      }
    }

    /** Runs the report query, which is answered with the row, and makes the report of it. */
    method TeamStats(team: Id, cutoff: Time, row: Statistics.Answer) returns (report: Statistics.Report)
      requires Statistics.AnswerOf(View(), team, cutoff, row)
      ensures fresh(report) && report.teamId == team
      ensures Sound(View()) ==>
                Statistics.ReportOf(View(), team, cutoff, report.tasksByStatus, report.top[..])
      ensures report.avgCloseSeconds == row.avgSeconds && report.commentsTotal == row.comments
    {
      hide Sound, Statistics.ReportOf, Statistics.AnswerOf;
      if Sound(View()) {
        Statistics.ReportRight(View(), team, cutoff, row);
      }
      report := new Statistics.Report(team, row);
    }
  }
}
