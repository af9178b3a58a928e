/** The relational state as a value, one function per SQL statement or transaction, the invariant that
    every reachable state satisfies and the relation between an earlier and a later state. */
module Database {
  import opened Outcomes
  import opened Domain
  import opened TaskPatch
  import opened TaskLog

  datatype StoreError = NotFound | AlreadyExists | UnknownId | VersionConflict | BadQuery

  /** The tables; emails is the unique index on the users' addresses. */
  datatype DB = DB(
    users: map<Id, User>,
    emails: map<string, Id>,
    teams: map<Id, Team>,
    members: map<(Id, Id), Role>,
    tasks: map<Id, Task>,
    history: seq<HistoryEntry>,
    nextTeam: nat,
    nextTask: nat,
    nextEntry: nat)

  const EMPTY_DB := DB(map[], map[], map[], map[], map[], [], 1, 1, 1)

  /** The entries of one task, oldest first. */
  function LogOf(history: seq<HistoryEntry>, task: Id): seq<HistoryEntry> {
    if history == [] then []
    else
      var last := history[|history| - 1];
      var earlier := LogOf(history[..|history| - 1], task);
      if last.taskId == task then earlier + [last] else earlier
  }

  lemma LogOfAppend(history: seq<HistoryEntry>, e: HistoryEntry, task: Id)
    ensures LogOf(history + [e], task) ==
            if e.taskId == task then LogOf(history, task) + [e] else LogOf(history, task)
  {
    assert (history + [e])[..|history|] == history;
  }

  lemma {:induction false} LogOfFresh(history: seq<HistoryEntry>, task: Id)
    requires forall k :: 0 <= k < |history| ==> history[k].taskId != task
    ensures LogOf(history, task) == []
  {
    if history != [] {
      LogOfFresh(history[..|history| - 1], task);
    }
  }

  // ---------- reads ----------

  function SelectTask(db: DB, id: Id): Result<Task, StoreError> {
    if id in db.tasks then Ok(db.tasks[id]) else Err(NotFound)
  }

  function SelectUser(db: DB, id: Id): Result<User, StoreError> {
    if id in db.users then Ok(db.users[id]) else Err(NotFound)
  }

  function SelectEmail(db: DB, address: string): Result<User, StoreError> {
    if address in db.emails && db.emails[address] in db.users then Ok(db.users[db.emails[address]]) else Err(NotFound)
  }

  function SelectRole(db: DB, team: Id, user: Id): Result<Role, StoreError> {
    if (team, user) in db.members && user in db.users then Ok(db.members[(team, user)]) else Err(NotFound)
  }

  predicate Matches(task: Task, f: TaskFilter) {
    && task.teamId == f.teamId
    && (f.status.Some? ==> task.status == f.status.value)
    && (f.assignee.Some? ==> task.assignee == f.assignee)
  }

  /** The matching rows with ids up to n, by descending id. */
  function Rows(tasks: map<Id, Task>, f: TaskFilter, n: nat): seq<Task> {
    if n == 0 then []
    else (if n in tasks && Matches(tasks[n], f) then [tasks[n]] else []) + Rows(tasks, f, n - 1)
  }

  function Least(a: int, b: int): int {
    if a <= b then a else b
  }

  /** LIMIT and OFFSET. */
  function Window<T>(s: seq<T>, offset: nat, limit: nat): seq<T> {
    s[Least(offset, |s|)..Least(offset + limit, |s|)]
  }

  function Listing(db: DB, f: TaskFilter): seq<Task> {
    Rows(db.tasks, f, if db.nextTask == 0 then 0 else db.nextTask - 1)
  }

  /** The answer of the list query. */
  function Query(db: DB, f: TaskFilter): seq<Task>
    requires f.limit >= 0 && f.offset >= 0
  {
    Window(Listing(db, f), f.offset, f.limit)
  }

  // ---------- writes ----------

  function WithUser(db: DB, user: User): DB {
    db.(users := db.users[user.id := user], emails := db.emails[user.email := user.id])
  }

  function InsertUser(db: DB, user: User): DB {
    if user.id in db.users || user.email in db.emails then db else WithUser(db, user)
  }

  function WithTeam(db: DB, team: Team): DB {
    db.(teams := db.teams[team.id := team], members := db.members[(team.id, team.createdBy) := Role.Owner],
        nextTeam := db.nextTeam + 1)
  }

  function InsertTeam(db: DB, name: string, author: Id, now: Time): (DB, Result<Team, StoreError>) {
    if author !in db.users then (db, Err(UnknownId))
    else
      var team := Team(db.nextTeam, name, author, now);
      (WithTeam(db, team), Ok(team))
  }

  function InsertMember(db: DB, team: Id, user: Id, role: Role): (DB, Result<(), StoreError>) {
    if (team, user) in db.members then (db, Err(AlreadyExists))
    else if team !in db.teams || user !in db.users then (db, Err(UnknownId))
    else (db.(members := db.members[(team, user) := role]), Ok(()))
  }

  function SetRole(db: DB, team: Id, user: Id, role: Role): (DB, Result<(), StoreError>) {
    if (team, user) !in db.members then (db, Err(NotFound))
    else (db.(members := db.members[(team, user) := role]), Ok(()))
  }

  predicate Known(db: DB, assignee: Option<Id>) {
    assignee.Some? ==> assignee.value in db.users
  }

  /** A created row; the primary key is the next automatic id. */
  function CreatedRow(id: Id, t: NewTask, clock: Time, now: Time): Task {
    Task(id, t.teamId, t.title, t.description, t.status, t.createdBy, t.assignee, now, now,
         if t.status.Terminal() then Some(clock) else None, 1)
  }

  /** The row that a successful update leaves. */
  function UpdatedRow(task: Task, upd: TaskUpdate, now: Time): Task {
    task.(title := upd.title, description := upd.description, status := upd.status,
          assignee := upd.assignee, closedAt := upd.closedAt, updatedAt := now, version := task.version + 1)
  }

  /** The state after a task write: one row set, one entry appended, the counters moved. */
  function TaskWritten(db: DB, task: Task, e: HistoryEntry, nextTask: nat): DB {
    db.(tasks := db.tasks[task.id := task], history := db.history + [e],
        nextTask := nextTask, nextEntry := db.nextEntry + 1)
  }

  function Entry(db: DB, task: Id, author: Id, changes: Changes, clock: Time, now: Time): HistoryEntry {
    HistoryEntry(db.nextEntry, task, author, changes, now, clock)
  }

  /** The transaction that creates a task: the row, then its first history entry. */
  function InsertTask(db: DB, t: NewTask, clock: Time, now: Time): (DB, Result<Task, StoreError>) {
    if t.teamId !in db.teams || t.createdBy !in db.users || !Known(db, t.assignee) then (db, Err(UnknownId))
    else
      var task := CreatedRow(db.nextTask, t, clock, now);
      var e := Entry(db, task.id, t.createdBy, CreationDiff(task), clock, now);
      (TaskWritten(db, task, e, db.nextTask + 1), Ok(task))
  }

  /** The transaction that updates a task only at the expected version, and logs the changes. */
  function CompareAndSwap(db: DB, id: Id, expected: int, upd: TaskUpdate, author: Id, changes: Changes,
                          clock: Time, now: Time): (DB, Result<Task, StoreError>) {
    if id !in db.tasks || db.tasks[id].version != expected then (db, Err(VersionConflict))
    else if !Known(db, upd.assignee) || author !in db.users then (db, Err(UnknownId))
    else
      var task := UpdatedRow(db.tasks[id], upd, now);
      (TaskWritten(db, task, Entry(db, id, author, changes, clock, now), db.nextTask), Ok(task))
  }

  // ---------- the invariant ----------

  predicate IsMember(db: DB, team: Id, user: Id) {
    (team, user) in db.members
  }

  predicate Indexed(db: DB, address: string, user: Id) {
    address in db.emails && db.emails[address] == user
  }

  ghost predicate Keyed(db: DB) {
    && db.nextTeam > 0 && db.nextTask > 0
    && (forall u :: u in db.users ==> db.users[u].id == u && Indexed(db, db.users[u].email, u))
    && (forall a :: a in db.emails ==> db.emails[a] in db.users && db.users[db.emails[a]].email == a)
    && (forall t :: t in db.teams ==> db.teams[t].id == t && 0 < t < db.nextTeam)
    && (forall t :: t in db.tasks ==> db.tasks[t].id == t && 0 < t < db.nextTask)
    && (forall k :: 0 <= k < |db.history| ==> db.history[k].taskId in db.tasks)
    && (forall k :: 0 <= k < |db.history| ==> db.history[k].id < db.nextEntry)
    && (forall j, k :: 0 <= j < k < |db.history| ==> db.history[j].id < db.history[k].id)
  }

  /** Every team has exactly one owner, its creator. */
  ghost predicate Owned(db: DB) {
    && (forall m :: m in db.members ==> m.0 in db.teams && m.1 in db.users && db.members[m].Valid())
    && (forall m :: m in db.members ==> (db.members[m].Owner? <==> m.1 == db.teams[m.0].createdBy))
    && (forall t :: t in db.teams ==> (t, db.teams[t].createdBy) in db.members)
  }

  /** Everybody a task or its history mentions belongs to the task's team. */
  ghost predicate Closed(db: DB) {
    && (forall t :: t in db.tasks ==>
          && IsMember(db, db.tasks[t].teamId, db.tasks[t].createdBy)
          && (db.tasks[t].assignee.Some? ==> IsMember(db, db.tasks[t].teamId, db.tasks[t].assignee.value)))
    && (forall k :: 0 <= k < |db.history| ==>
          && db.history[k].taskId in db.tasks
          && IsMember(db, db.tasks[db.history[k].taskId].teamId, db.history[k].changedBy))
  }

  ghost predicate AllLogged(db: DB) {
    forall t :: t in db.tasks ==> Logged(db.tasks[t], LogOf(db.history, t))
  }

  ghost predicate Sound(db: DB) {
    Keyed(db) && Owned(db) && Closed(db) && AllLogged(db)
  }

  // ---------- how states evolve ----------

  /** A later row of the same task: identity is kept, and equal versions mean equal rows. */
  predicate Descends(a: Task, b: Task) {
    && a.teamId == b.teamId && a.createdBy == b.createdBy && a.createdAt == b.createdAt
    && a.version <= b.version
    && (a.version == b.version ==> a == b)
  }

  /** What every run keeps between an earlier state a and a later state b. */
  ghost predicate Evolves(a: DB, b: DB) {
    && (forall u :: u in a.users ==> u in b.users && b.users[u] == a.users[u])
    && (forall t :: t in a.teams ==> t in b.teams && b.teams[t] == a.teams[t])
    && (forall m :: m in a.members ==> m in b.members && (a.members[m].Owner? <==> b.members[m].Owner?))
    && (forall t :: t in a.tasks ==> t in b.tasks && Descends(a.tasks[t], b.tasks[t]))
    && (forall t :: t in b.tasks && t !in a.tasks ==> a.nextTask <= t)
    && a.history <= b.history
    && a.nextTask <= b.nextTask && a.nextTeam <= b.nextTeam
  }

  lemma EvolvesTransitive(a: DB, b: DB, c: DB)
    requires Evolves(a, b) && Evolves(b, c)
    ensures Evolves(a, c)
  {
    forall t | t in a.tasks ensures t in c.tasks && Descends(a.tasks[t], c.tasks[t]) {
      assert Descends(a.tasks[t], b.tasks[t]) && Descends(b.tasks[t], c.tasks[t]);
    }
    forall t | t in c.tasks && t !in a.tasks ensures a.nextTask <= t {
      if t in b.tasks {}
    }
  }

  // A state invariant, apart from the logs, that each write below is shown to keep.
  ghost predicate Shaped(db: DB) {
    Keyed(db) && Owned(db) && Closed(db)
  }

  lemma UserKeyed(db: DB, user: User)
    requires Keyed(db) && user.id !in db.users && user.email !in db.emails
    ensures Keyed(WithUser(db, user))
  {
  }

  lemma UserWrite(db: DB, user: User)
    requires Shaped(db) && user.id !in db.users && user.email !in db.emails
    ensures Shaped(WithUser(db, user))
    ensures Evolves(db, WithUser(db, user))
  {
    hide Keyed;
    UserKeyed(db, user);
  }

  lemma MemberWrite(db: DB, team: Id, user: Id, role: Role)
    requires Shaped(db) && role.Assignable() && team in db.teams && user in db.users
    requires db.teams[team].createdBy != user
    ensures Shaped(db.(members := db.members[(team, user) := role]))
    ensures Evolves(db, db.(members := db.members[(team, user) := role]))
  {
  }

  // Only the creator of a team has no room for a plain role.
  lemma NotTheCreator(db: DB, team: Id, user: Id)
    requires Owned(db) && team in db.teams
    requires (team, user) in db.members ==> !db.members[(team, user)].Owner?
    ensures db.teams[team].createdBy != user
  {
    assert (team, db.teams[team].createdBy) in db.members;
  }

  lemma TeamKeyed(db: DB, team: Team)
    requires Keyed(db) && team.id == db.nextTeam
    ensures Keyed(WithTeam(db, team))
  {
  }

  lemma TeamOwned(db: DB, team: Team)
    requires Keyed(db) && Owned(db) && team.createdBy in db.users && team.id == db.nextTeam
    ensures Owned(WithTeam(db, team))
  {
    assert forall m :: m in db.members ==> m.0 != db.nextTeam;
  }

  lemma TeamWriteShaped(db: DB, team: Team)
    requires Shaped(db) && team.createdBy in db.users && team.id == db.nextTeam
    ensures Shaped(WithTeam(db, team))
  {
    hide Keyed, Owned;
    TeamKeyed(db, team);
    TeamOwned(db, team);
  }

  lemma TeamWriteEvolves(db: DB, team: Team)
    requires Owned(db) && Keyed(db) && team.id == db.nextTeam
    ensures Evolves(db, WithTeam(db, team))
  {
    assert forall m :: m in db.members ==> m.0 != db.nextTeam;
  }

  lemma EvolvesSelf(db: DB)
    requires Sound(db)
    ensures Evolves(db, db)
  {
  }

  lemma InsertUserKeeps(db: DB, user: User)
    requires Sound(db)
    ensures Sound(InsertUser(db, user)) && Evolves(db, InsertUser(db, user))
  {
    if user.id !in db.users && user.email !in db.emails {
      UserWrite(db, user);
    } else {
      EvolvesSelf(db);
    }
  }

  lemma InsertTeamKeeps(db: DB, name: string, author: Id, now: Time)
    requires Sound(db)
    ensures Sound(InsertTeam(db, name, author, now).0) && Evolves(db, InsertTeam(db, name, author, now).0)
  {
    if author in db.users {
      var team := Team(db.nextTeam, name, author, now);
      TeamWriteShaped(db, team);
      TeamWriteEvolves(db, team);
    }
  }

  lemma MemberSound(db: DB, team: Id, user: Id, role: Role)
    requires Sound(db) && role.Assignable() && team in db.teams && user in db.users
    requires (team, user) in db.members ==> !db.members[(team, user)].Owner?
    ensures Sound(db.(members := db.members[(team, user) := role]))
    ensures Evolves(db, db.(members := db.members[(team, user) := role]))
  {
    NotTheCreator(db, team, user);
    MemberWrite(db, team, user, role);
  }

  lemma InsertMemberKeeps(db: DB, team: Id, user: Id, role: Role)
    requires Sound(db) && role.Assignable()
    ensures Sound(InsertMember(db, team, user, role).0) && Evolves(db, InsertMember(db, team, user, role).0)
  {
    if InsertMember(db, team, user, role).1.Ok? {
      MemberSound(db, team, user, role);
    } else {
      EvolvesSelf(db);
    }
  }

  lemma SetRoleKeeps(db: DB, team: Id, user: Id, role: Role)
    requires Sound(db) && role.Assignable()
    requires (team, user) in db.members ==> !db.members[(team, user)].Owner?
    ensures Sound(SetRole(db, team, user, role).0) && Evolves(db, SetRole(db, team, user, role).0)
  {
    if (team, user) in db.members {
      MemberSound(db, team, user, role);
    } else {
      EvolvesSelf(db);
    }
  }

  /** Writing one task row and one entry for it, when the entry continues the row's log. */
  lemma LoggedWrite(db: DB, e: HistoryEntry, task: Task)
    requires AllLogged(db) && task.id == e.taskId
    requires Logged(task, LogOf(db.history, task.id) + [e])
    ensures AllLogged(db.(tasks := db.tasks[task.id := task], history := db.history + [e]))
  {
    forall t | t in db.tasks || t == task.id
      ensures LogOf(db.history + [e], t) ==
              if t == task.id then LogOf(db.history, t) + [e] else LogOf(db.history, t)
    {
      LogOfAppend(db.history, e, t);
    }
  }

  ghost predicate Writable(db: DB, task: Task, e: HistoryEntry, nextTask: nat) {
    && 0 < task.id < nextTask && db.nextTask <= nextTask
    && e.taskId == task.id && e.id == db.nextEntry
    && IsMember(db, task.teamId, task.createdBy) && IsMember(db, task.teamId, e.changedBy)
    && (task.assignee.Some? ==> IsMember(db, task.teamId, task.assignee.value))
    && (if task.id in db.tasks then Descends(db.tasks[task.id], task) else db.nextTask <= task.id)
  }

  lemma TaskWriteKeyed(db: DB, task: Task, e: HistoryEntry, nextTask: nat)
    requires Keyed(db) && Writable(db, task, e, nextTask)
    ensures Keyed(TaskWritten(db, task, e, nextTask))
  {
  }

  lemma TaskWriteClosed(db: DB, task: Task, e: HistoryEntry, nextTask: nat)
    requires Closed(db) && Writable(db, task, e, nextTask)
    ensures Closed(TaskWritten(db, task, e, nextTask))
  {
  }

  lemma TaskWriteEvolves(db: DB, task: Task, e: HistoryEntry, nextTask: nat)
    requires Writable(db, task, e, nextTask)
    ensures Evolves(db, TaskWritten(db, task, e, nextTask))
  {
  }

  lemma TaskWrite(db: DB, task: Task, e: HistoryEntry, nextTask: nat)
    requires Sound(db) && Writable(db, task, e, nextTask)
    requires Logged(task, LogOf(db.history, task.id) + [e])
    ensures Sound(TaskWritten(db, task, e, nextTask)) && Evolves(db, TaskWritten(db, task, e, nextTask))
  {
    TaskWriteKeyed(db, task, e, nextTask);
    TaskWriteClosed(db, task, e, nextTask);
    TaskWriteEvolves(db, task, e, nextTask);
    LoggedWrite(db, e, task);
  }

  lemma CreatedLogged(db: DB, t: NewTask, clock: Time, now: Time)
    requires Keyed(db) && Presentable(t.title, t.description, t.status)
    ensures var task := CreatedRow(db.nextTask, t, clock, now);
            var e := Entry(db, task.id, t.createdBy, CreationDiff(task), clock, now);
            Logged(task, LogOf(db.history, task.id) + [e])
  {
    var task := CreatedRow(db.nextTask, t, clock, now);
    var e := Entry(db, task.id, t.createdBy, CreationDiff(task), clock, now);
    LogOfFresh(db.history, task.id);
    LogCreation(task, e);
    assert LogOf(db.history, task.id) + [e] == [e];
  }

  lemma MemberKnown(db: DB, team: Id, user: Id)
    requires Owned(db) && IsMember(db, team, user)
    ensures team in db.teams && user in db.users
  {
  }

  lemma CreatedWritable(db: DB, t: NewTask, clock: Time, now: Time)
    requires Keyed(db) && Owned(db)
    requires IsMember(db, t.teamId, t.createdBy)
    requires t.assignee.Some? ==> IsMember(db, t.teamId, t.assignee.value)
    ensures var task := CreatedRow(db.nextTask, t, clock, now);
            Writable(db, task, Entry(db, task.id, t.createdBy, CreationDiff(task), clock, now), db.nextTask + 1)
    ensures InsertTask(db, t, clock, now).1.Ok?
  {
    MemberKnown(db, t.teamId, t.createdBy);
    if t.assignee.Some? {
      MemberKnown(db, t.teamId, t.assignee.value);
    }
  }

  /** Creating a task for members of an existing team keeps the invariant. */
  lemma InsertTaskKeeps(db: DB, t: NewTask, clock: Time, now: Time)
    requires Sound(db)
    requires Presentable(t.title, t.description, t.status)
    requires IsMember(db, t.teamId, t.createdBy)
    requires t.assignee.Some? ==> IsMember(db, t.teamId, t.assignee.value)
    ensures InsertTask(db, t, clock, now).1.Ok?
    ensures Sound(InsertTask(db, t, clock, now).0) && Evolves(db, InsertTask(db, t, clock, now).0)
  {
    var task := CreatedRow(db.nextTask, t, clock, now);
    var e := Entry(db, task.id, t.createdBy, CreationDiff(task), clock, now);
    CreatedLogged(db, t, clock, now);
    CreatedWritable(db, t, clock, now);
    TaskWrite(db, task, e, db.nextTask + 1);
  }

  /** The values that the service sends with an update: the changes applied to the row it loaded. */
  function UpdateFor(task: Task, changes: Changes, clock: Time): TaskUpdate {
    var next := Applied(task, changes);
    TaskUpdate(next.title, next.description, next.status, next.assignee,
               CloseTimestamp(task, next.status, clock))
  }

  /** What a patch makes of a row: the overwritten row, closing time and version moved on. */
  lemma PatchedRow(task: Task, p: Patch, clock: Time, now: Time)
    ensures UpdatedRow(task, UpdateFor(task, DiffOf(task, p), clock), now) ==
            Overwritten(task, p).(updatedAt := now, version := task.version + 1,
                                  closedAt := CloseTimestamp(task, Overwritten(task, p).status, clock))
  {
    PatchAlgebra(task, p);
  }

  lemma UpdatedLogged(task: Task, log: seq<HistoryEntry>, p: Patch, e: HistoryEntry, now: Time)
    requires Logged(task, log) && Validate(p).Pass? && e.changes == DiffOf(task, p)
    ensures Logged(UpdatedRow(task, UpdateFor(task, DiffOf(task, p), e.clock), now), log + [e])
  {
    hide Logged;
    var next := UpdatedRow(task, UpdateFor(task, DiffOf(task, p), e.clock), now);
    PatchReplaces(task, p, e, now);
    assert Presentable(task.title, task.description, task.status) by { LoggedPresentable(task, log); }
    PatchPresentable(task, p, e.clock, now);
    LogUpdate(task, log, next, e);
  }

  lemma LoggedPresentable(task: Task, log: seq<HistoryEntry>)
    requires Logged(task, log)
    ensures Presentable(task.title, task.description, task.status)
  {
  }

  lemma PatchReplaces(task: Task, p: Patch, e: HistoryEntry, now: Time)
    requires e.changes == DiffOf(task, p)
    ensures Replaces(task, UpdatedRow(task, UpdateFor(task, DiffOf(task, p), e.clock), now), e)
  {
    PatchedRow(task, p, e.clock, now);
    assert e.changes == Difference(task, UpdatedRow(task, UpdateFor(task, DiffOf(task, p), e.clock), now));
  }

  lemma PatchPresentable(task: Task, p: Patch, clock: Time, now: Time)
    requires Presentable(task.title, task.description, task.status) && Validate(p).Pass?
    ensures var next := UpdatedRow(task, UpdateFor(task, DiffOf(task, p), clock), now);
            Presentable(next.title, next.description, next.status)
  {
    PatchedRow(task, p, clock, now);
    ValidateExact(task, p);
  }

  lemma UpdatedWritable(db: DB, id: Id, upd: TaskUpdate, author: Id, changes: Changes, clock: Time, now: Time)
    requires Keyed(db) && Owned(db) && Closed(db) && id in db.tasks
    requires IsMember(db, db.tasks[id].teamId, author)
    requires upd.assignee.Some? ==> IsMember(db, db.tasks[id].teamId, upd.assignee.value)
    ensures Writable(db, UpdatedRow(db.tasks[id], upd, now), Entry(db, id, author, changes, clock, now), db.nextTask)
    ensures CompareAndSwap(db, id, db.tasks[id].version, upd, author, changes, clock, now) ==
            (TaskWritten(db, UpdatedRow(db.tasks[id], upd, now), Entry(db, id, author, changes, clock, now),
                         db.nextTask),
             Ok(UpdatedRow(db.tasks[id], upd, now)))
  {
    MemberKnown(db, db.tasks[id].teamId, author);
    if upd.assignee.Some? {
      MemberKnown(db, db.tasks[id].teamId, upd.assignee.value);
    }
  }

  /** The update transaction for a patch, at the version that the current row has. */
  function SwapPatch(db: DB, id: Id, p: Patch, author: Id, clock: Time, now: Time): (DB, Result<Task, StoreError>)
    requires id in db.tasks
  {
    var changes := DiffOf(db.tasks[id], p);
    CompareAndSwap(db, id, db.tasks[id].version, UpdateFor(db.tasks[id], changes, clock), author, changes, clock, now)
  }

  /** An update computed from the very row it replaces succeeds and keeps the invariant. */
  lemma SwapPatchKeeps(db: DB, id: Id, p: Patch, author: Id, clock: Time, now: Time)
    requires Sound(db) && id in db.tasks
    requires Validate(p).Pass?
    requires IsMember(db, db.tasks[id].teamId, author)
    requires var next := Overwritten(db.tasks[id], p);
             next.assignee.Some? ==> IsMember(db, next.teamId, next.assignee.value)
    ensures SwapPatch(db, id, p, author, clock, now).1.Ok?
    ensures Sound(SwapPatch(db, id, p, author, clock, now).0)
    ensures Evolves(db, SwapPatch(db, id, p, author, clock, now).0)
  {
    var task := db.tasks[id];
    var changes := DiffOf(task, p);
    var upd := UpdateFor(task, changes, clock);
    var e := Entry(db, id, author, changes, clock, now);
    PatchAlgebra(task, p);
    UpdatedWritable(db, id, upd, author, changes, clock, now);
    UpdatedLogged(task, LogOf(db.history, id), p, e, now);
    TaskWrite(db, UpdatedRow(task, upd, now), e, db.nextTask);
  }
}
