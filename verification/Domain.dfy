/** Entities of the task service and the rules that need no storage. */
module Domain {
  import opened Outcomes
  import Text

  type Id = int
  type Time = int

  /** A status text: the four known values, the empty text, or any other text. */
  datatype Status = Unset | Todo | InProgress | Done | Cancelled | Unknown(text: string) {
    predicate Valid() {
      Todo? || InProgress? || Done? || Cancelled?
    }

    predicate Terminal() {
      Done? || Cancelled?
    }

    function Name(): string {
      match this
      case Unset => ""
      case Todo => "todo"
      case InProgress => "in_progress"
      case Done => "done"
      case Cancelled => "cancelled"
      case Unknown(text) => text
    }
  }

  /** A role text: the three known values, the empty text, or any other text. */
  datatype Role = Unset | Owner | Admin | Member | Unknown(text: string) {
    predicate Valid() {
      Owner? || Admin? || Member?
    }

    predicate Assignable() {
      Admin? || Member?
    }

    // The source tests the same two roles under three names: managing members,
    // editing any task and viewing the statistics.
    predicate Privileged() {
      Owner? || Admin?
    }
  }

  datatype User = User(id: Id, email: string, name: string)

  datatype Team = Team(id: Id, name: string, createdBy: Id, createdAt: Time)

  datatype Actor = Actor(userId: Id, role: Role)

  datatype Task = Task(
    id: Id, teamId: Id, title: string, description: string, status: Status,
    createdBy: Id, assignee: Option<Id>,
    createdAt: Time, updatedAt: Time, closedAt: Option<Time>, version: int)

  datatype NewTask = NewTask(
    teamId: Id, title: string, description: string, status: Status,
    createdBy: Id, assignee: Option<Id>)

  datatype TaskUpdate = TaskUpdate(
    title: string, description: string, status: Status, assignee: Option<Id>, closedAt: Option<Time>)

  datatype Field = Title | Description | StatusField | Assignee

  /** What a recorded change may hold; Null is the absent earlier value of a creation. */
  datatype Value = Null | Words(text: string) | StatusIs(status: Status) | AssigneeIs(user: Option<Id>)

  datatype FieldChange = FieldChange(from: Value, to: Value)

  type Changes = map<Field, FieldChange>

  datatype TaskFilter = TaskFilter(
    teamId: Id, status: Option<Status>, assignee: Option<Id>, limit: int, offset: int)

  datatype TaskPage = TaskPage(items: seq<Task>, limit: int, offset: int)

  /** The failures a request can answer with; the arguments are what the message mentions. */
  datatype Fault =
    | Invalid(reason: string)
    | Unauthorized
    | Forbidden(reason: string)
    | TaskNotFound(task: Id)
    | TeamNotFound(team: Id)
    | MemberNotFound(user: Id, team: Id)
    | UserNotFound(user: Id)
    | EmailNotFound
    | AssigneeOutside(user: Id, team: Id)
    | AlreadyMember(user: Id, team: Id)
    | StaleVersion(current: int)
    | LostRace
    | Internal

  const MAX_TITLE := 255
  const MAX_DESCRIPTION := 10000
  const ALL_FIELDS: set<Field> := {Title, Description, StatusField, Assignee}

  /** The value of one editable field of a task. */
  function Current(task: Task, field: Field): Value {
    match field
    case Title => Words(task.title)
    case Description => Words(task.description)
    case StatusField => StatusIs(task.status)
    case Assignee => AssigneeIs(task.assignee)
  }

  /** What every stored row satisfies. */
  predicate Presentable(title: string, description: string, status: Status) {
    && 1 <= |title| <= 255 && Text.Trimmed(title)
    && |description| <= 10000
    && (status.Todo? || status.InProgress? || status.Done? || status.Cancelled?)
  }

  function ValidateTitle(title: string): Check<Fault> {
    var trimmed := Text.Trim(title);
    if trimmed == "" then Fail(Invalid("title must not be empty"))
    else if |trimmed| > MAX_TITLE then Fail(Invalid("title is too long"))
    else Pass
  }

  function ValidateNewTask(title: string, description: string, status: Status): Check<Fault> {
    if ValidateTitle(title).Fail? then ValidateTitle(title)
    else if |description| > MAX_DESCRIPTION then Fail(Invalid("description is too long"))
    else if !status.Unset? && !status.Valid() then Fail(Invalid("unknown status"))
    else Pass
  }

  /** Validation accepts exactly the requests whose trimmed, defaulted form may be stored. */
  lemma ValidateNewTaskExact(title: string, description: string, status: Status)
    ensures ValidateNewTask(title, description, status).Pass? <==>
            Presentable(Text.Trim(title), description, if status.Unset? then Todo else status)
  {
    Text.TrimFixedPoint(title);
  }

  /** When a task moves to status next at the given clock reading, the closing time it gets. */
  function CloseTimestamp(current: Task, next: Status, clock: Time): Option<Time> {
    if !next.Terminal() then None
    else if current.closedAt.Some? then current.closedAt
    else Some(clock)
  }

  /** The entries the creation of a task records: every field that has a value. */
  function CreationDiff(task: Task): Changes {
    map f | f in ALL_FIELDS && (f.Assignee? ==> task.assignee.Some?) :: FieldChange(Null, Current(task, f))
  }

  method CreationChanges(task: Task) returns (changes: Changes)
    ensures changes == CreationDiff(task)
  {
    changes := map[
      Title := FieldChange(Null, Words(task.title)),
      StatusField := FieldChange(Null, StatusIs(task.status)),
      Description := FieldChange(Null, Words(task.description))
    ];
    if task.assignee.Some? {
      changes := changes[Assignee := FieldChange(Null, AssigneeIs(task.assignee))];
    }
  }

  const CREATOR_FIELDS: seq<Field> := [Title, Description, StatusField, Assignee]
  const ASSIGNEE_FIELDS: seq<Field> := [StatusField]

  /** Looks for a changed field outside the allowed ones, in an arbitrary order. */
  method RequireFields(changes: Changes, allowed: seq<Field>) returns (rejected: Option<Field>)
    ensures rejected.None? <==> forall f :: f in changes ==> f in allowed
    ensures rejected.Some? ==> rejected.value in changes && rejected.value !in allowed
  {
    var todo := changes.Keys;
    while todo != {}
      invariant todo <= changes.Keys
      invariant forall f :: f in changes && f !in todo ==> f in allowed
      decreases |todo|
    {
      var field :| field in todo;
      if field !in allowed {
        return Some(field);
      }
      todo := todo - {field};
    }
    return None;
  }

  const CREATOR_LIMIT := "task creators can change title, description, status and assignee only"
  const ASSIGNEE_LIMIT := "assignees can change status only and cannot reassign task"
  const NO_PART := "only task creator, its assignee or a team admin can edit this task"

  function FieldsCheck(changes: Changes, allowed: seq<Field>, reason: string): Check<Fault> {
    if forall f :: f in changes ==> f in allowed then Pass else Fail(Forbidden(reason))
  }

  function AuthorizeTaskUpdate(actor: Actor, task: Task, changes: Changes): Check<Fault> {
    if |changes| == 0 then Pass
    else if actor.role.Privileged() then Pass
    else if task.createdBy == actor.userId then
      FieldsCheck(changes, CREATOR_FIELDS, CREATOR_LIMIT)
    else if task.assignee == Some(actor.userId) then
      FieldsCheck(changes, ASSIGNEE_FIELDS, ASSIGNEE_LIMIT)
    else Fail(Forbidden(NO_PART))
  }

  /** Who may make these changes: owners and admins, the creator, or the assignee for a bare status move. */
  predicate MayEdit(actor: Actor, task: Task, changes: Changes) {
    || actor.role.Owner? || actor.role.Admin?
    || task.createdBy == actor.userId
    || (task.assignee == Some(actor.userId) && changes.Keys == {StatusField})
  }

  lemma FieldLists(f: Field)
    ensures f in CREATOR_FIELDS
    ensures f in ASSIGNEE_FIELDS <==> f == StatusField
  {
    assert CREATOR_FIELDS[0] == Title && CREATOR_FIELDS[1] == Description;
    assert CREATOR_FIELDS[2] == StatusField && CREATOR_FIELDS[3] == Assignee;
    assert ASSIGNEE_FIELDS[0] == StatusField;
  }

  lemma OnlyStatus(changes: Changes)
    requires changes != map[]
    ensures (forall f :: f in changes ==> f in CREATOR_FIELDS)
    ensures (forall f :: f in changes ==> f in ASSIGNEE_FIELDS) <==> changes.Keys == {StatusField}
  {
    forall f: Field ensures f in CREATOR_FIELDS && (f in ASSIGNEE_FIELDS <==> f == StatusField) {
      FieldLists(f);
    }
    assert changes.Keys != {};
    var f :| f in changes.Keys;
  }

  /** The guard lets through exactly the empty change and the changes the actor may make. */
  lemma FieldsCheckExact(changes: Changes, allowed: seq<Field>, reason: string)
    ensures FieldsCheck(changes, allowed, reason).Pass? <==> forall f :: f in changes ==> f in allowed
  {
  }

  lemma AuthorizeTaskUpdateExact(actor: Actor, task: Task, changes: Changes)
    ensures AuthorizeTaskUpdate(actor, task, changes).Pass? <==>
            changes == map[] || MayEdit(actor, task, changes)
  {
    hide FieldsCheck;
    FieldsCheckExact(changes, CREATOR_FIELDS, CREATOR_LIMIT);
    FieldsCheckExact(changes, ASSIGNEE_FIELDS, ASSIGNEE_LIMIT);
    if changes != map[] {
      OnlyStatus(changes);
      assert changes.Keys != {} && |changes| != 0;
    } else {
      assert |changes| == 0;
    }
  }

  const INVITE_RIGHT := "only the team owner or an admin may invite members"
  const INVITE_ROLE := "role cannot be assigned through an invite"
  const ROLE_RIGHT := "only the team owner may change member roles"
  const OWNER_STAYS := "the team owner's role cannot be changed"
  const ROLE_ASSIGNED := "role cannot be assigned"
  const STATS_RIGHT := "only the team owner or an admin may view team analytics"

  function AuthorizeInvite(actor: Actor, role: Role): Check<Fault> {
    if !actor.role.Privileged() then Fail(Forbidden(INVITE_RIGHT))
    else if !role.Assignable() then Fail(Invalid(INVITE_ROLE))
    else Pass
  }

  function AuthorizeRoleChange(actor: Actor, target: Role, role: Role): Check<Fault> {
    if !actor.role.Owner? then Fail(Forbidden(ROLE_RIGHT))
    else if target.Owner? then Fail(Forbidden(OWNER_STAYS))
    else if !role.Assignable() then Fail(Invalid(ROLE_ASSIGNED))
    else Pass
  }

  function AuthorizeStatsAccess(actor: Actor): Check<Fault> {
    if !actor.role.Privileged() then Fail(Forbidden(STATS_RIGHT))
    else Pass
  }

  function NormalizeTeamName(name: string): Result<string, Fault> {
    var trimmed := Text.Trim(name);
    if trimmed == "" then Err(Invalid("name must not be empty"))
    else if |trimmed| > MAX_TITLE then Err(Invalid("name is too long"))
    else Ok(trimmed)
  }

  const DEFAULT_LIMIT := 20
  const MAX_LIMIT := 100

  function NormalizeLimit(limit: int): (n: int)
    ensures 1 <= n <= MAX_LIMIT
    ensures 1 <= limit <= MAX_LIMIT ==> n == limit
    ensures limit <= 0 ==> n == 20
    ensures limit > 100 ==> n == 100
  {
    if limit <= 0 then DEFAULT_LIMIT else if limit > MAX_LIMIT then MAX_LIMIT else limit
  }

  function NormalizeOffset(offset: int): (n: int)
    ensures n >= 0
    ensures offset >= 0 ==> n == offset
    ensures offset < 0 ==> n == 0
  {
    if offset < 0 then 0 else offset
  }
}
