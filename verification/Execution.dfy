/** What one request does when no other request interferes and no cache is involved. */
module Execution {
  import opened Outcomes
  import opened Domain
  import opened TaskPatch
  import opened TaskLog
  import opened Database
  import opened Operations

  /** The entries of a task, newest first. */
  function NewestFirst(history: seq<HistoryEntry>, task: Id): seq<HistoryEntry> {
    if history == [] then []
    else
      var last := history[|history| - 1];
      (if last.taskId == task then [last] else []) + NewestFirst(history[..|history| - 1], task)
  }

  lemma NewestAppended(history: seq<HistoryEntry>, e: HistoryEntry, task: Id)
    ensures NewestFirst(history + [e], task) == (if e.taskId == task then [e] else []) + NewestFirst(history, task)
  {
    assert (history + [e])[..|history|] == history;
  }

  /** The history answer is the task's log backwards. */
  lemma {:induction false} HistoryIsLogReversed(history: seq<HistoryEntry>, task: Id)
    ensures var log := LogOf(history, task);
            && |NewestFirst(history, task)| == |log|
            && forall k :: 0 <= k < |log| ==> NewestFirst(history, task)[k] == log[|log| - 1 - k]
  {
    if history != [] {
      HistoryIsLogReversed(history[..|history| - 1], task);
    }
  }

  /** The teams with ids up to n in which the user has a role, by ascending id. */
  function TeamRows(db: DB, user: Id, n: nat): seq<(Team, Role)> {
    if n == 0 then []
    else TeamRows(db, user, n - 1) +
         (if n in db.teams && (n, user) in db.members then [(db.teams[n], db.members[(n, user)])] else [])
  }

  function TeamsOf(db: DB, user: Id): seq<(Team, Role)> {
    TeamRows(db, user, if db.nextTeam == 0 then 0 else db.nextTeam - 1)
  }

  /** The rows that the team report aggregates. */
  function ScopeOf(db: DB, team: Id): map<Id, Task> {
    map id | id in db.tasks && db.tasks[id].teamId == team :: db.tasks[id]
  }

  // ---------- stages ----------

  // What is left of a request from one of its database calls on, when nobody interferes. The names are
  // those of the places of Protocol.Req.

  function FromTeamInsert(db: DB, actor: Id, name: string, now: Time): (DB, Response) {
    match InsertTeam(db, name, actor, now)
    case (after, Ok(team)) => (after, TeamIs(team))
    case (_, Err(_)) => (db, Failed(Unauthorized))
  }

  function FromInviteInsert(db: DB, team: Id, user: Id, role: Role): (DB, Response) {
    match InsertMember(db, team, user, role)
    case (after, Ok(_)) => (after, MemberIs(team, user, role))
    case (_, Err(AlreadyExists)) => (db, Failed(AlreadyMember(user, team)))
    case (_, Err(_)) => (db, Failed(Internal))
  }

  function FromInviteUser(db: DB, team: Id, invite: InviteRequest): (DB, Response) {
    match ResolveInvitee(db, invite)
    case Err(f) => (db, Failed(f))
    case Ok(user) => FromInviteInsert(db, team, user.id, invite.role)
  }

  function FromInviteActor(db: DB, actor: Id, team: Id, invite: InviteRequest): (DB, Response) {
    match Membership(db, team, actor)
    case Err(f) => (db, Failed(f))
    case Ok(member) =>
      match AuthorizeInvite(member, invite.role)
      case Fail(f) => (db, Failed(f))
      case Pass => FromInviteUser(db, team, invite)
  }

  function FromRoleWrite(db: DB, team: Id, user: Id, role: Role): (DB, Response) {
    match SetRole(db, team, user, role)
    case (after, Ok(_)) => (after, MemberIs(team, user, role))
    case (_, Err(_)) => (db, Failed(Internal))
  }

  function FromRoleTarget(db: DB, member: Actor, team: Id, user: Id, role: Role): (DB, Response) {
    match SelectRole(db, team, user)
    case Err(_) => (db, Failed(MemberNotFound(user, team)))
    case Ok(target) =>
      match AuthorizeRoleChange(member, target, role)
      case Fail(f) => (db, Failed(f))
      case Pass => FromRoleWrite(db, team, user, role)
  }

  function FromRoleActor(db: DB, actor: Id, team: Id, user: Id, role: Role): (DB, Response) {
    match Membership(db, team, actor)
    case Err(f) => (db, Failed(f))
    case Ok(member) => FromRoleTarget(db, member, team, user, role)
  }

  function FromNewInsert(db: DB, row: NewTask, clock: Time, now: Time): (DB, Response) {
    match InsertTask(db, row, clock, now)
    case (after, Ok(task)) => (after, TaskIs(task))
    case (_, Err(_)) => (db, Failed(Internal))
  }

  function FromNewAssignee(db: DB, row: NewTask, clock: Time, now: Time): (DB, Response) {
    match AssigneeInTeam(db, row.teamId, row.assignee)
    case Fail(f) => (db, Failed(f))
    case Pass => FromNewInsert(db, row, clock, now)
  }

  function FromNewActor(db: DB, row: NewTask, clock: Time, now: Time): (DB, Response) {
    match Membership(db, row.teamId, row.createdBy)
    case Err(f) => (db, Failed(f))
    case Ok(_) => FromNewAssignee(db, row, clock, now)
  }

  /** The state and the answer after an update transaction. */
  function SwapAnswer(db: DB, swap: (DB, Result<Task, StoreError>)): (DB, Response) {
    match swap
    case (after, Ok(saved)) => (after, TaskIs(saved))
    case (_, Err(VersionConflict)) => (db, Failed(LostRace))
    case (_, Err(_)) => (db, Failed(Internal))
  }

  function FromSwap(db: DB, actor: Id, changes: Changes, task: Task, clock: Time, now: Time): (DB, Response) {
    SwapAnswer(db, CompareAndSwap(db, task.id, task.version, UpdateFor(task, changes, clock), actor, changes,
                                  clock, now))
  }

  function FromCheckAssignee(db: DB, actor: Id, changes: Changes, task: Task, clock: Time, now: Time): (DB, Response) {
    match AssigneeInTeam(db, task.teamId, Applied(task, changes).assignee)
    case Fail(f) => (db, Failed(f))
    case Pass => FromSwap(db, actor, changes, task, clock, now)
  }

  function FromPlan(db: DB, member: Actor, patch: Patch, task: Task, clock: Time, now: Time): (DB, Response) {
    match PlanUpdate(member, task, patch)
    case Err(f) => (db, Failed(f))
    case Ok(changes) =>
      if changes == map[] then (db, TaskIs(task))
      else FromCheckAssignee(db, member.userId, changes, task, clock, now)
  }

  function FromLoad(db: DB, actor: Id, id: Id, patch: Patch, clock: Time, now: Time): (DB, Response) {
    match TaskForMember(db, id, actor)
    case Err(f) => (db, Failed(f))
    case Ok((task, member)) => FromPlan(db, member, patch, task, clock, now)
  }

  // ---------- requests ----------

  function ExecCreateTeam(db: DB, actor: Id, name: string, now: Time): (DB, Response) {
    match NormalizeTeamName(name)
    case Err(f) => (db, Failed(f))
    case Ok(n) => FromTeamInsert(db, actor, n, now)
  }

  function ExecInvite(db: DB, actor: Id, team: Id, invite: InviteRequest): (DB, Response) {
    match ValidateInvite(invite)
    case Fail(f) => (db, Failed(f))
    case Pass => FromInviteActor(db, actor, team, invite)
  }

  function ExecRoleChange(db: DB, actor: Id, team: Id, user: Id, role: Role): (DB, Response) {
    if !role.Valid() then (db, Failed(Invalid("unknown role"))) else FromRoleActor(db, actor, team, user, role)
  }

  function ExecCreateTask(db: DB, actor: Id, request: NewTaskRequest, clock: Time, now: Time): (DB, Response) {
    match ValidateCreation(request)
    case Fail(f) => (db, Failed(f))
    case Pass => FromNewActor(db, RowFor(actor, request), clock, now)
  }

  function ExecUpdateTask(db: DB, actor: Id, id: Id, patch: Patch, clock: Time, now: Time): (DB, Response) {
    match Validate(patch)
    case Fail(f) => (db, Failed(f))
    case Pass => FromLoad(db, actor, id, patch, clock, now)
  }

  function ExecListTasks(db: DB, actor: Id, filter: TaskFilter): Response {
    match ValidateFilter(filter)
    case Fail(f) => Failed(f)
    case Pass =>
      var f := NormalizeFilter(filter);
      match Membership(db, f.teamId, actor)
      case Err(e) => Failed(e)
      case Ok(_) => PageIs(TaskPage(Query(db, f), f.limit, f.offset))
  }

  function ExecHistory(db: DB, actor: Id, task: Id): Response {
    match TaskForMember(db, task, actor)
    case Err(f) => Failed(f)
    case Ok(_) => HistoryIs(NewestFirst(db.history, task))
  }

  function ExecStats(db: DB, actor: Id, team: Id): Response {
    match Membership(db, team, actor)
    case Err(f) => Failed(f)
    case Ok(member) =>
      match AuthorizeStatsAccess(member)
      case Fail(f) => Failed(f)
      case Pass => ScopeIs(ScopeOf(db, team))
  }

  /** The new state and the answer. */
  function Exec(db: DB, op: Op, clock: Time, now: Time): (DB, Response) {
    match op
    case CreateTeam(actor, name) => ExecCreateTeam(db, actor, name, now)
    case InviteMember(actor, team, invite) => ExecInvite(db, actor, team, WithRole(invite))
    case ChangeMemberRole(actor, team, user, role) => ExecRoleChange(db, actor, team, user, role)
    case CreateTask(actor, request) => ExecCreateTask(db, actor, request, clock, now)
    case UpdateTask(actor, task, patch) => ExecUpdateTask(db, actor, task, patch, clock, now)
    case ListTasks(actor, filter) => (db, ExecListTasks(db, actor, filter))
    case TaskHistory(actor, task) => (db, ExecHistory(db, actor, task))
    case ListTeams(actor) => (db, TeamsAre(TeamsOf(db, actor)))
    case TeamStats(actor, team) => (db, ExecStats(db, actor, team))
  }

  // ---------- what a request keeps ----------

  // Each kind of request either leaves the state alone or is its one transaction, under the conditions
  // that make the transaction safe.

  lemma InviteCases(db: DB, actor: Id, team: Id, invite: InviteRequest) returns (user: Id)
    ensures var after := ExecInvite(db, actor, team, invite).0;
            after == db || (invite.role.Assignable() && after == InsertMember(db, team, user, invite.role).0)
  {
    user := if ResolveInvitee(db, invite).Ok? then ResolveInvitee(db, invite).value.id else 0;
  }

  lemma RoleChangeCases(db: DB, actor: Id, team: Id, user: Id, role: Role)
    ensures var after := ExecRoleChange(db, actor, team, user, role).0;
            || after == db
            || (role.Assignable() && (team, user) in db.members && !db.members[(team, user)].Owner?
                && after == SetRole(db, team, user, role).0)
  {
  }

  /** A creation may go ahead: by a member, for a member, with presentable content. */
  predicate Insertable(db: DB, row: NewTask) {
    && Presentable(row.title, row.description, row.status) && IsMember(db, row.teamId, row.createdBy)
    && (row.assignee.Some? ==> IsMember(db, row.teamId, row.assignee.value))
  }

  lemma CreateTaskCases(db: DB, actor: Id, request: NewTaskRequest, clock: Time, now: Time)
    ensures var after := ExecCreateTask(db, actor, request, clock, now).0;
            || after == db
            || (Insertable(db, RowFor(actor, request)) && after == InsertTask(db, RowFor(actor, request), clock, now).0)
  {
    ValidateNewTaskExact(request.title, request.description, DefaultStatus(request.status));
  }

  lemma InviteKeeps(db: DB, actor: Id, team: Id, invite: InviteRequest)
    requires Sound(db)
    ensures var after := ExecInvite(db, actor, team, invite).0; Sound(after) && Evolves(db, after)
  {
    EvolvesSelf(db);
    var user := InviteCases(db, actor, team, invite);
    if invite.role.Assignable() {
      InsertMemberKeeps(db, team, user, invite.role);
    }
  }

  lemma RoleChangeKeeps(db: DB, actor: Id, team: Id, user: Id, role: Role)
    requires Sound(db)
    ensures var after := ExecRoleChange(db, actor, team, user, role).0; Sound(after) && Evolves(db, after)
  {
    EvolvesSelf(db);
    RoleChangeCases(db, actor, team, user, role);
    if role.Assignable() && (team, user) in db.members && !db.members[(team, user)].Owner? {
      SetRoleKeeps(db, team, user, role);
    }
  }

  lemma CreateTaskKeeps(db: DB, actor: Id, request: NewTaskRequest, clock: Time, now: Time)
    requires Sound(db)
    ensures var after := ExecCreateTask(db, actor, request, clock, now).0; Sound(after) && Evolves(db, after)
  {
    EvolvesSelf(db);
    CreateTaskCases(db, actor, request, clock, now);
    if Insertable(db, RowFor(actor, request)) {
      InsertTaskKeeps(db, RowFor(actor, request), clock, now);
    }
  }

  /** A request that passes every check ends in the update transaction. */
  lemma UpdateReachesStore(db: DB, actor: Id, id: Id, patch: Patch, task: Task, member: Actor, clock: Time, now: Time)
    requires Validate(patch).Pass? && TaskForMember(db, id, actor) == Ok((task, member))
    requires PlanUpdate(member, task, patch).Ok? && DiffOf(task, patch) != map[]
    requires AssigneeInTeam(db, task.teamId, Applied(task, DiffOf(task, patch)).assignee).Pass?
    ensures ExecUpdateTask(db, actor, id, patch, clock, now) ==
            SwapAnswer(db, CompareAndSwap(db, task.id, task.version, UpdateFor(task, DiffOf(task, patch), clock), actor,
                                          DiffOf(task, patch), clock, now))
  {
  }

  /** An update may go ahead: validated, by a member, with an assignee who is a member. */
  predicate Swappable(db: DB, actor: Id, id: Id, patch: Patch) {
    && id in db.tasks && Validate(patch).Pass? && IsMember(db, db.tasks[id].teamId, actor)
    && var next := Overwritten(db.tasks[id], patch);
       next.assignee.Some? ==> IsMember(db, next.teamId, next.assignee.value)
  }

  /** The update passes every check before its transaction. */
  predicate Passes(db: DB, actor: Id, id: Id, patch: Patch) {
    && Validate(patch).Pass? && TaskForMember(db, id, actor).Ok?
    && var (task, member) := TaskForMember(db, id, actor).value;
       var plan := PlanUpdate(member, task, patch);
       && plan.Ok? && plan.value != map[]
       && AssigneeInTeam(db, task.teamId, Applied(task, plan.value).assignee).Pass?
  }

  lemma RefusedUpdate(db: DB, actor: Id, id: Id, patch: Patch, clock: Time, now: Time)
    requires !Passes(db, actor, id, patch)
    ensures ExecUpdateTask(db, actor, id, patch, clock, now).0 == db
    ensures ExecUpdateTask(db, actor, id, patch, clock, now).1 != Failed(LostRace)
  {
    hide PlanUpdate, Applied, FromSwap;
    if TaskForMember(db, id, actor).Ok? {
      var (task, member) := TaskForMember(db, id, actor).value;
      PlanNeverRaces(member, task, patch);
    }
  }

  lemma PlanNeverRaces(member: Actor, task: Task, patch: Patch)
    ensures PlanUpdate(member, task, patch) != Err(LostRace)
  {
    hide DiffOf;
  }

  lemma PassedUpdate(db: DB, actor: Id, id: Id, patch: Patch, clock: Time, now: Time)
    requires Passes(db, actor, id, patch) && db.tasks[id].id == id
    ensures Swappable(db, actor, id, patch)
    ensures ExecUpdateTask(db, actor, id, patch, clock, now) ==
            SwapAnswer(db, SwapPatch(db, id, patch, actor, clock, now))
  {
    var (task, member) := TaskForMember(db, id, actor).value;
    PlannedUpdate(member, task, patch);
    AppliedIsOverwritten(task, patch);
    UpdateReachesStore(db, actor, id, patch, task, member, clock, now);
  }

  /** An update changes nothing, or is the transaction for its patch. */
  lemma UpdateCases(db: DB, actor: Id, id: Id, patch: Patch, clock: Time, now: Time)
    requires id in db.tasks ==> db.tasks[id].id == id
    ensures var result := ExecUpdateTask(db, actor, id, patch, clock, now);
            || (result.0 == db && result.1 != Failed(LostRace))
            || (Swappable(db, actor, id, patch)
                && result == SwapAnswer(db, SwapPatch(db, id, patch, actor, clock, now)))
  {
    if Passes(db, actor, id, patch) {
      PassedUpdate(db, actor, id, patch, clock, now);
    } else {
      RefusedUpdate(db, actor, id, patch, clock, now);
    }
  }

  lemma UpdateTaskKeeps(db: DB, actor: Id, id: Id, patch: Patch, clock: Time, now: Time)
    requires Sound(db)
    ensures var after := ExecUpdateTask(db, actor, id, patch, clock, now).0; Sound(after) && Evolves(db, after)
    ensures ExecUpdateTask(db, actor, id, patch, clock, now).1 != Failed(LostRace)
  {
    EvolvesSelf(db);
    UpdateCases(db, actor, id, patch, clock, now);
    if Swappable(db, actor, id, patch) {
      SwapPatchKeeps(db, id, patch, actor, clock, now);
    }
  }

  lemma CreateTeamKeeps(db: DB, actor: Id, name: string, now: Time)
    requires Sound(db)
    ensures var after := ExecCreateTeam(db, actor, name, now).0; Sound(after) && Evolves(db, after)
  {
    EvolvesSelf(db);
    if NormalizeTeamName(name).Ok? {
      InsertTeamKeeps(db, NormalizeTeamName(name).value, actor, now);
    }
  }

  predicate Reads(op: Op) {
    op.ListTasks? || op.TaskHistory? || op.ListTeams? || op.TeamStats?
  }

  lemma OnlyUpdatesRace(db: DB, op: Op, clock: Time, now: Time)
    ensures !op.UpdateTask? ==> Exec(db, op, clock, now).1 != Failed(LostRace)
    ensures Reads(op) ==> Exec(db, op, clock, now).0 == db
  {
    hide ExecUpdateTask, Query, NewestFirst, TeamsOf, ScopeOf, RowFor;
  }

  /** Every request keeps the invariant, and undisturbed no update loses a race. */
  lemma ExecKeeps(db: DB, op: Op, clock: Time, now: Time)
    requires Sound(db)
    ensures Sound(Exec(db, op, clock, now).0) && Evolves(db, Exec(db, op, clock, now).0)
    ensures Exec(db, op, clock, now).1 != Failed(LostRace)
  {
    hide Sound, Evolves, ExecCreateTeam, ExecInvite, ExecRoleChange, ExecCreateTask, ExecUpdateTask, ExecListTasks,
      ExecHistory, ExecStats, TeamsOf;
    OnlyUpdatesRace(db, op, clock, now);
    match op
    case CreateTeam(actor, name) => CreateTeamKeeps(db, actor, name, now);
    case InviteMember(actor, team, invite) => InviteKeeps(db, actor, team, WithRole(invite));
    case ChangeMemberRole(actor, team, user, role) => RoleChangeKeeps(db, actor, team, user, role);
    case CreateTask(actor, request) => CreateTaskKeeps(db, actor, request, clock, now);
    case UpdateTask(actor, task, patch) => UpdateTaskKeeps(db, actor, task, patch, clock, now);
    case _ => EvolvesSelf(db);
  }
}
