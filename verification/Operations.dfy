/** The requests the service answers, and the decisions it takes between its database calls. */
module Operations {
  import opened Outcomes
  import opened Domain
  import opened TaskPatch
  import opened TaskLog
  import opened Database
  import Text

  datatype NewTaskRequest = NewTaskRequest(
    teamId: Id, title: string, description: string, status: Status, assignee: Option<Id>)

  /** Whom to invite: by id or by email. Lower-casing and the grammar of addresses are not modelled;
      address is what they make of the email, if it is one. */
  datatype InviteRequest = InviteRequest(userId: Id, email: string, address: Option<string>, role: Role)

  datatype Op =
    | CreateTeam(actor: Id, name: string)
    | InviteMember(actor: Id, team: Id, invite: InviteRequest)
    | ChangeMemberRole(actor: Id, team: Id, user: Id, role: Role)
    | CreateTask(actor: Id, request: NewTaskRequest)
    | UpdateTask(actor: Id, task: Id, patch: Patch)
    | ListTasks(actor: Id, filter: TaskFilter)
    | TaskHistory(actor: Id, task: Id)
    | ListTeams(actor: Id)
    | TeamStats(actor: Id, team: Id)

  datatype Response =
    | Failed(fault: Fault)
    | TeamIs(team: Team)
    | MemberIs(teamId: Id, user: Id, role: Role)
    | TaskIs(task: Task)
    | PageIs(page: TaskPage)
    | HistoryIs(entries: seq<HistoryEntry>)
    | TeamsAre(teams: seq<(Team, Role)>)
    | ScopeIs(rows: map<Id, Task>)

  function DefaultStatus(status: Status): Status {
    if status.Unset? then Todo else status
  }

  function DefaultRole(role: Role): Role {
    if role.Unset? then Member else role
  }

  function NormalizeFilter(f: TaskFilter): TaskFilter {
    f.(limit := NormalizeLimit(f.limit), offset := NormalizeOffset(f.offset))
  }

  function WithRole(request: InviteRequest): InviteRequest {
    request.(role := DefaultRole(request.role))
  }

  function ValidateInvite(request: InviteRequest): Check<Fault> {
    var hasEmail := Text.Trim(request.email) != "";
    if !request.role.Valid() then Fail(Invalid("unknown role"))
    else if request.userId <= 0 && !hasEmail then Fail(Invalid("user_id or email is required"))
    else if request.userId > 0 && hasEmail then Fail(Invalid("provide user_id or email, not both"))
    else Pass
  }

  function ValidateCreation(request: NewTaskRequest): Check<Fault> {
    if request.teamId <= 0 then Fail(Invalid("team_id is required"))
    else ValidateNewTask(request.title, request.description, DefaultStatus(request.status))
  }

  function ValidateFilter(f: TaskFilter): Check<Fault> {
    if f.teamId <= 0 then Fail(Invalid("team_id is required"))
    else if f.status.Some? && !f.status.value.Valid() then Fail(Invalid("unknown status"))
    else Pass
  }

  /** The row values a validated creation asks for. */
  function RowFor(actor: Id, request: NewTaskRequest): NewTask {
    NewTask(request.teamId, Text.Trim(request.title), request.description, DefaultStatus(request.status),
            actor, request.assignee)
  }

  function Membership(db: DB, team: Id, user: Id): Result<Actor, Fault> {
    match SelectRole(db, team, user)
    case Ok(role) => Ok(Actor(user, role))
    case Err(_) => Err(TeamNotFound(team))
  }

  /** A task of a foreign team is reported as missing. */
  function TaskForMember(db: DB, task: Id, actor: Id): Result<(Task, Actor), Fault> {
    match SelectTask(db, task)
    case Err(_) => Err(TaskNotFound(task))
    case Ok(row) =>
      match Membership(db, row.teamId, actor)
      case Err(_) => Err(TaskNotFound(task))
      case Ok(member) => Ok((row, member))
  }

  const NOT_AN_ADDRESS := "email is not a valid address"

  function ResolveInvitee(db: DB, request: InviteRequest): Result<User, Fault> {
    if request.userId > 0 then
      match SelectUser(db, request.userId)
      case Ok(user) => Ok(user)
      case Err(_) => Err(UserNotFound(request.userId))
    else
      match request.address
      case None => Err(Invalid(NOT_AN_ADDRESS))
      case Some(address) =>
        match SelectEmail(db, address)
        case Ok(user) => Ok(user)
        case Err(_) => Err(EmailNotFound)
  }

  /** The user is the one that the request names. */
  predicate Named(db: DB, request: InviteRequest, user: Id) {
    && user in db.users
    && (if request.userId > 0 then user == request.userId else request.address == Some(db.users[user].email))
  }

  /** Resolving finds the named user if and only if there is one; nobody else has the name. */
  lemma ResolvesExactly(db: DB, request: InviteRequest, user: Id)
    requires Keyed(db)
    ensures ResolveInvitee(db, request).Ok? && ResolveInvitee(db, request).value.id == user <==>
            Named(db, request, user)
  {
    assert user in db.users ==> db.users[user].id == user && Indexed(db, db.users[user].email, user);
    if request.address.Some? && request.address.value in db.emails {
      var found := db.emails[request.address.value];
      assert db.users[found].id == found;
    }
  }

  function AssigneeInTeam(db: DB, team: Id, assignee: Option<Id>): Check<Fault> {
    if assignee.None? then Pass
    else if SelectRole(db, team, assignee.value).Err? then Fail(AssigneeOutside(assignee.value, team))
    else Pass
  }

  /** What an update decides once it has the row and the actor's role: refuse, or these changes. */
  function PlanUpdate(actor: Actor, task: Task, patch: Patch): Result<Changes, Fault> {
    if patch.version.Some? && patch.version.value != task.version then Err(StaleVersion(task.version))
    else
      var changes := DiffOf(task, patch);
      match AuthorizeTaskUpdate(actor, task, changes)
      case Fail(fault) => Err(fault)
      case Pass => Ok(changes)
  }

  /** A planned, non-empty update is one the actor may make, at the version the patch named. */
  lemma PlannedUpdate(actor: Actor, task: Task, patch: Patch)
    requires PlanUpdate(actor, task, patch).Ok?
    ensures patch.version.Some? ==> patch.version.value == task.version
    ensures PlanUpdate(actor, task, patch).value == DiffOf(task, patch)
    ensures DiffOf(task, patch) != map[] ==> MayEdit(actor, task, DiffOf(task, patch))
  {
    AuthorizeTaskUpdateExact(actor, task, DiffOf(task, patch));
  }
}
