/** What the service promises, field by field: what was sent against what is stored and answered. Nothing here
    uses a function that computes an answer, so the functions that do have something to be measured against. */
module Promises {
  import opened Outcomes
  import opened Domain
  import opened TaskPatch
  import opened TaskLog
  import opened Database
  import opened Operations
  import Text

  // ---------- texts ----------

  /** t is the value without its blank ends. */
  ghost predicate Cut(value: string, t: string) {
    exists i: nat, j: nat :: Text.CutAt(value, i, j) && t == value[i..j]
  }

  /** Without its blank ends the value has 1 to 255 characters. */
  ghost predicate Fits(value: string) {
    exists i: nat, j: nat :: Text.CutAt(value, i, j) && 1 <= j - i <= 255
  }

  lemma CutExact(value: string, t: string)
    ensures Cut(value, t) <==> t == Text.Trim(value)
  {
    var i, j := Text.TrimCuts(value);
    forall i: nat, j: nat | Text.CutAt(value, i, j) ensures value[i..j] == Text.Trim(value) {
      Text.TrimExact(value, i, j);
    }
  }

  lemma FitsExact(value: string)
    ensures Fits(value) <==> 1 <= |Text.Trim(value)| <= 255
  {
    var i, j := Text.TrimCuts(value);
    forall i: nat, j: nat | Text.CutAt(value, i, j) ensures value[i..j] == Text.Trim(value) {
      Text.TrimExact(value, i, j);
    }
  }

  // ---------- what may be sent ----------

  ghost predicate GoodPatch(patch: Patch) {
    && (patch.title.isSet ==> patch.title.valid && Fits(patch.title.value))
    && (patch.description.isSet ==> patch.description.valid && |patch.description.value| <= 10000)
    && (patch.status.isSet ==> patch.status.valid && KnownStatus(patch.status.value))
    && (patch.assignee.isSet && patch.assignee.valid ==> patch.assignee.value > 0)
    && (patch.version.Some? ==> patch.version.value > 0)
  }

  predicate KnownStatus(status: Status) {
    status.Todo? || status.InProgress? || status.Done? || status.Cancelled?
  }

  ghost predicate GoodTask(request: NewTaskRequest) {
    && request.teamId > 0 && Fits(request.title) && |request.description| <= 10000
    && (request.status.Unset? || KnownStatus(request.status))
  }

  // ---------- tasks ----------

  /** The closing time of a row that replaces prior: the one it has, or else the clock's; none if it is open. */
  predicate ClosedAs(prior: Option<Time>, status: Status, clock: Time, closedAt: Option<Time>) {
    if status.Done? || status.Cancelled? then closedAt == (if prior.Some? then prior else Some(clock))
    else closedAt == None
  }

  /** The editable fields of task are those of prior with the patch as sent. */
  ghost predicate PatchedAs(prior: Task, task: Task, patch: Patch) {
    && (if patch.title.isSet then Cut(patch.title.value, task.title) else task.title == prior.title)
    && task.description == (if patch.description.isSet then patch.description.value else prior.description)
    && task.status == (if patch.status.isSet then patch.status.value else prior.status)
    && task.assignee ==
       (if !patch.assignee.isSet then prior.assignee
        else if patch.assignee.valid then Some(patch.assignee.value)
        else None)
  }

  /** The record names exactly the fields that differ, with the value before and the value after. */
  predicate RecordsChange(changes: Changes, prior: Task, task: Task) {
    && (Title in changes <==> task.title != prior.title)
    && (Title in changes ==> changes[Title] == FieldChange(Words(prior.title), Words(task.title)))
    && (Description in changes <==> task.description != prior.description)
    && (Description in changes ==>
          changes[Description] == FieldChange(Words(prior.description), Words(task.description)))
    && (StatusField in changes <==> task.status != prior.status)
    && (StatusField in changes ==> changes[StatusField] == FieldChange(StatusIs(prior.status), StatusIs(task.status)))
    && (Assignee in changes <==> task.assignee != prior.assignee)
    && (Assignee in changes ==>
          changes[Assignee] == FieldChange(AssigneeIs(prior.assignee), AssigneeIs(task.assignee)))
  }

  predicate RecordsCreation(changes: Changes, task: Task) {
    && changes.Keys == {Title, Description, StatusField} + (if task.assignee.Some? then {Assignee} else {})
    && changes[Title] == FieldChange(Null, Words(task.title))
    && changes[Description] == FieldChange(Null, Words(task.description))
    && changes[StatusField] == FieldChange(Null, StatusIs(task.status))
    && (task.assignee.Some? ==> changes[Assignee] == FieldChange(Null, AssigneeIs(task.assignee)))
  }

  /** One task is written with one entry of its history, and nothing else is touched. */
  predicate TaskStored(before: DB, after: DB, task: Task, author: Id, clock: Time, now: Time) {
    && after.tasks == before.tasks[task.id := task]
    && |after.history| == |before.history| + 1 && after.history[..|before.history|] == before.history
    && var e := after.history[|before.history|];
       && e.taskId == task.id && e.changedBy == author && e.createdAt == now && e.clock == clock
       && after.users == before.users && after.emails == before.emails
       && after.teams == before.teams && after.members == before.members
  }

  function LastEntry(db: DB): HistoryEntry
    requires db.history != []
  {
    db.history[|db.history| - 1]
  }

  /** The creation stores and answers the task that was sent. */
  ghost predicate CreatedAs(before: DB, after: DB, actor: Id, request: NewTaskRequest, task: Task,
                            clock: Time, now: Time) {
    && Cut(request.title, task.title) && task.description == request.description
    && task.teamId == request.teamId && task.assignee == request.assignee && task.createdBy == actor
    && task.status == (if request.status.Unset? then Todo else request.status)
    && task.version == 1 && task.createdAt == now && task.updatedAt == now
    && ClosedAs(None, task.status, clock, task.closedAt)
    && task.id !in before.tasks && TaskStored(before, after, task, actor, clock, now)
    && RecordsCreation(LastEntry(after).changes, task)
  }

  /** The update replaces the stored row by the row with the patch as sent, at the version that the patch
      names, and answers it. */
  ghost predicate UpdatedAs(before: DB, after: DB, actor: Id, id: Id, patch: Patch, task: Task,
                            clock: Time, now: Time) {
    && id in before.tasks
    && var prior := before.tasks[id];
       && (patch.version.Some? ==> patch.version.value == prior.version)
       && PatchedAs(prior, task, patch) && ClosedAs(prior.closedAt, task.status, clock, task.closedAt)
       && (task.id, task.teamId, task.createdBy, task.createdAt) == (id, prior.teamId, prior.createdBy, prior.createdAt)
       && task.version == prior.version + 1 && task.updatedAt == now
       && TaskStored(before, after, task, actor, clock, now)
       && RecordsChange(LastEntry(after).changes, prior, task)
  }

  /** The update changes nothing: it answers the stored row, whose every field is as the patch asks already. */
  ghost predicate KeptAs(db: DB, id: Id, patch: Patch, task: Task) {
    id in db.tasks && task == db.tasks[id] && PatchedAs(task, task, patch)
  }

  // ---------- rights ----------

  /** The actor is owner or admin of the team. */
  predicate Manages(db: DB, team: Id, actor: Id) {
    (team, actor) in db.members && (db.members[(team, actor)].Owner? || db.members[(team, actor)].Admin?)
  }

  /** The patch changes the status of the task and nothing else. */
  ghost predicate OnlyMoves(task: Task, patch: Patch) {
    && patch.status.isSet && patch.status.value != task.status
    && PatchedAs(task, task.(status := patch.status.value), patch)
  }

  /** In this state the actor may carry out the patch: as owner or admin of the task's team, as the member who
      created the task, or as its assignee if only the status changes. */
  ghost predicate MayChange(db: DB, actor: Id, id: Id, patch: Patch) {
    && id in db.tasks
    && var task := db.tasks[id];
       && (task.teamId, actor) in db.members
       && (|| Manages(db, task.teamId, actor)
           || task.createdBy == actor
           || (task.assignee == Some(actor) && OnlyMoves(task, patch)))
  }

  // ---------- teams ----------

  predicate TasksUntouched(before: DB, after: DB) {
    && after.users == before.users && after.emails == before.emails
    && after.tasks == before.tasks && after.history == before.history
  }

  ghost predicate FoundedAs(before: DB, after: DB, actor: Id, name: string, team: Team, now: Time) {
    && Cut(name, team.name) && 1 <= |team.name| <= 255
    && team.createdBy == actor && team.createdAt == now && team.id !in before.teams
    && after.teams == before.teams[team.id := team]
    && after.members == before.members[(team.id, actor) := Role.Owner]
    && TasksUntouched(before, after)
  }

  /** The user is the one whom the invitation names, by id or else by address. */
  predicate Invites(db: DB, invite: InviteRequest, user: Id) {
    && user in db.users
    && (if invite.userId > 0 then user == invite.userId else invite.address == Some(db.users[user].email))
  }

  /** The invited user becomes a member with the role that was sent, or as a plain member if none was. */
  predicate InvitedAs(before: DB, after: DB, team: Id, invite: InviteRequest, user: Id, role: Role) {
    && role == (if invite.role.Unset? then Role.Member else invite.role) && (role.Admin? || role.Member?)
    && Invites(before, invite, user) && (team, user) !in before.members
    && after.members == before.members[(team, user) := role]
    && after.teams == before.teams && TasksUntouched(before, after)
  }

  predicate RoleChangedAs(before: DB, after: DB, team: Id, user: Id, role: Role) {
    && (role.Admin? || role.Member?)
    && (team, user) in before.members && !before.members[(team, user)].Owner?
    && after.members == before.members[(team, user) := role]
    && after.teams == before.teams && TasksUntouched(before, after)
  }

  // ---------- lists ----------

  /** The stored tasks of the team, status and assignee that were sent. */
  function Wanted(tasks: map<Id, Task>, filter: TaskFilter): set<Id> {
    set id | id in tasks
             && tasks[id].teamId == filter.teamId
             && (filter.status.Some? ==> tasks[id].status == filter.status.value)
             && (filter.assignee.Some? ==> tasks[id].assignee == Some(filter.assignee.value))
  }

  /** The rows are the wanted tasks from the offset on, by descending id, as many as the limit allows. */
  ghost predicate RowsAs(tasks: map<Id, Task>, filter: TaskFilter, offset: nat, limit: nat, rows: seq<Task>) {
    var wanted := Wanted(tasks, filter);
    && |rows| == (if |wanted| <= offset then 0 else if |wanted| - offset < limit then |wanted| - offset else limit)
    && forall j :: 0 <= j < |rows| ==>
         && rows[j].id in wanted && tasks[rows[j].id] == rows[j]
         && |set id | id in wanted && id > rows[j].id| == offset + j
  }

  /** The page that was asked for. */
  ghost predicate PageAs(tasks: map<Id, Task>, filter: TaskFilter, page: TaskPage) {
    && page.limit == (if filter.limit <= 0 then 20 else if filter.limit > 100 then 100 else filter.limit)
    && page.offset == (if filter.offset < 0 then 0 else filter.offset)
    && RowsAs(tasks, filter, page.offset, page.limit, page.items)
  }

  /** The whole history of a task, newest first. */
  ghost predicate HistoryAs(history: seq<HistoryEntry>, task: Id, entries: seq<HistoryEntry>) {
    && (forall e :: e in entries <==> e in history && e.taskId == task)
    && (forall i, j :: 0 <= i < j < |entries| ==> entries[i].id > entries[j].id)
  }

  /** All the teams of a user with the user's role, by ascending id. */
  ghost predicate TeamsAs(db: DB, user: Id, rows: seq<(Team, Role)>) {
    && (forall row :: row in rows <==>
          && row.0.id in db.teams && db.teams[row.0.id] == row.0
          && (row.0.id, user) in db.members && db.members[(row.0.id, user)] == row.1)
    && (forall i, j :: 0 <= i < j < |rows| ==> rows[i].0.id < rows[j].0.id)
  }

  /** The rows of the team. */
  predicate ScopeAs(db: DB, team: Id, rows: map<Id, Task>) {
    && (forall id :: id in rows ==> id in db.tasks && rows[id] == db.tasks[id])
    && (forall id :: id in db.tasks ==> (id in rows <==> db.tasks[id].teamId == team))
  }

  // ---------- answers ----------

  // What an answer other than an error means for the state before and the state after the request.

  ghost predicate CreationAnswered(before: DB, after: DB, actor: Id, request: NewTaskRequest, response: Response,
                                   clock: Time, now: Time) {
    response.TaskIs? ==> CreatedAs(before, after, actor, request, response.task, clock, now)
  }

  ghost predicate UpdateAnswered(before: DB, after: DB, actor: Id, id: Id, patch: Patch, response: Response,
                                 clock: Time, now: Time) {
    response.TaskIs? ==>
      || (after == before && KeptAs(before, id, patch, response.task))
      || UpdatedAs(before, after, actor, id, patch, response.task, clock, now)
  }

  ghost predicate ListAnswered(db: DB, filter: TaskFilter, response: Response) {
    response.PageIs? ==> PageAs(db.tasks, filter, response.page)
  }

  ghost predicate InvitationAnswered(before: DB, after: DB, actor: Id, team: Id, invite: InviteRequest,
                                     response: Response) {
    response.MemberIs? ==>
      && response.teamId == team && Manages(before, team, actor)
      && InvitedAs(before, after, team, invite, response.user, response.role)
  }
}
