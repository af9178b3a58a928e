/** For each request on a sound database: exactly when it goes through, what it then does and answers, and
    which error it gets otherwise. Nobody interferes; SoloRuns and Requests speak of interleaved requests. */
module Verdicts {
  import opened Outcomes
  import opened Domain
  import opened TaskPatch
  import opened TaskLog
  import opened Database
  import opened Operations
  import opened Execution
  import opened Listings
  import opened Promises
  import Text

  // ---------- teams ----------

  /** A team is founded if and only if its name has 1 to 255 characters without blank ends and its author is a
      known user. */
  lemma FoundingVerdict(db: DB, actor: Id, name: string, clock: Time, now: Time)
    requires Sound(db)
    ensures var (after, response) := Exec(db, CreateTeam(actor, name), clock, now);
            if !Fits(name) then after == db && response.Failed? && response.fault.Invalid?
            else if actor !in db.users then after == db && response == Failed(Unauthorized)
            else response.TeamIs? && FoundedAs(db, after, actor, name, response.team, now)
  {
    hide Owned, Closed, AllLogged, Text.Trim;
    FitsExact(name);
    CutExact(name, Text.Trim(name));
  }

  lemma Resolved(db: DB, invite: InviteRequest)
    requires Keyed(db)
    ensures match ResolveInvitee(db, invite)
            case Ok(user) => Invites(db, invite, user.id)
            case Err(f) =>
              && (forall user :: !Invites(db, invite, user))
              && f == (if invite.userId > 0 then UserNotFound(invite.userId)
                       else if invite.address.None? then Invalid(NOT_AN_ADDRESS)
                       else EmailNotFound)
  {
    forall user ensures Named(db, invite, user) <==> Invites(db, invite, user) {
    }
    forall user ensures ResolveInvitee(db, invite).Ok? && ResolveInvitee(db, invite).value.id == user <==>
                        Invites(db, invite, user) {
      ResolvesExactly(db, invite, user);
    }
  }

  /** An invitation names a known role, and a user by id or by email but not by both. */
  predicate GoodInvite(invite: InviteRequest) {
    && (invite.role.Unset? || invite.role.Owner? || invite.role.Admin? || invite.role.Member?)
    && (invite.userId > 0 <==> Text.Blank(invite.email))
  }

  lemma RolesOf(invite: InviteRequest)
    ensures GoodInvite(invite) ==>
              invite.role.Unset? || invite.role.Owner? || invite.role.Admin? || invite.role.Member?
  {
  }

  lemma BlankTrims(s: string)
    ensures Text.Trim(s) == "" <==> Text.Blank(s)
  {
    var i, j := Text.TrimCuts(s);
    Text.BlankEnds(s, i, j);
    if Text.Blank(s) {
      assert Text.CutAt(s, |s|, |s|);
      Text.TrimExact(s, |s|, |s|);
    }
  }

  lemma InviteChecked(invite: InviteRequest)
    ensures ValidateInvite(WithRole(invite)).Pass? <==> GoodInvite(invite)
    ensures ValidateInvite(WithRole(invite)).Fail? ==> ValidateInvite(WithRole(invite)).error.Invalid?
  {
    BlankTrims(invite.email);
  }

  lemma Enrolled(db: DB, team: Id, invite: InviteRequest, user: Id)
    requires Owned(db) && team in db.teams && Invites(db, invite, user)
    requires invite.role.Unset? || invite.role.Admin? || invite.role.Member?
    ensures var (after, response) := FromInviteInsert(db, team, user, WithRole(invite).role);
            if (team, user) in db.members then after == db && response == Failed(AlreadyMember(user, team))
            else response.MemberIs? && (response.teamId, response.user) == (team, user)
                 && InvitedAs(db, after, team, invite, user, response.role)
  {
  }

  /** An invitation goes through if and only if it is well formed, its actor is owner or admin of the team, the
      role is not that of an owner, the user is found and is no member yet. */
  lemma InviteVerdict(db: DB, actor: Id, team: Id, invite: InviteRequest, clock: Time, now: Time)
    requires Sound(db)
    ensures var (after, response) := Exec(db, InviteMember(actor, team, invite), clock, now);
            if !GoodInvite(invite) then after == db && response.Failed? && response.fault.Invalid?
            else if (team, actor) !in db.members then after == db && response == Failed(TeamNotFound(team))
            else if !Manages(db, team, actor) then after == db && response.Failed? && response.fault.Forbidden?
            else if invite.role.Owner? then after == db && response.Failed? && response.fault.Invalid?
            else if forall user :: !Invites(db, invite, user) then
              && after == db
              && response == Failed(if invite.userId > 0 then UserNotFound(invite.userId)
                                    else if invite.address.None? then Invalid(NOT_AN_ADDRESS)
                                    else EmailNotFound)
            else exists user :: Invites(db, invite, user) &&
                   if (team, user) in db.members then after == db && response == Failed(AlreadyMember(user, team))
                   else response.MemberIs? && (response.teamId, response.user) == (team, user)
                        && InvitedAs(db, after, team, invite, user, response.role)
  {
    hide Closed, AllLogged, ValidateInvite, ResolveInvitee, FromInviteInsert, InvitedAs, GoodInvite;
    assert GoodInvite(invite) ==> invite.role.Unset? || invite.role.Owner? || invite.role.Admin? || invite.role.Member?
    by { RolesOf(invite); }
    InviteChecked(invite);
    Resolved(db, WithRole(invite));
    assert forall user :: Invites(db, WithRole(invite), user) <==> Invites(db, invite, user);
    assert (team, actor) in db.members ==> actor in db.users && team in db.teams;
    if ResolveInvitee(db, WithRole(invite)).Ok? {
      var user := ResolveInvitee(db, WithRole(invite)).value.id;
      assert Invites(db, invite, user);
      if GoodInvite(invite) && Manages(db, team, actor) && !invite.role.Owner? {
        Enrolled(db, team, invite, user);
      }
    }
  }

  /** A role change goes through if and only if the role is admin or member, its actor is the owner of the team,
      and it concerns another member. */
  lemma RoleChangeVerdict(db: DB, actor: Id, team: Id, user: Id, role: Role, clock: Time, now: Time)
    requires Sound(db)
    ensures var (after, response) := Exec(db, ChangeMemberRole(actor, team, user, role), clock, now);
            if role.Unset? || role.Unknown? then after == db && response.Failed? && response.fault.Invalid?
            else if (team, actor) !in db.members then after == db && response == Failed(TeamNotFound(team))
            else if (team, user) !in db.members then after == db && response == Failed(MemberNotFound(user, team))
            else if !db.members[(team, actor)].Owner? || user == actor then
              after == db && response.Failed? && response.fault.Forbidden?
            else if role.Owner? then after == db && response.Failed? && response.fault.Invalid?
            else response == MemberIs(team, user, role) && RoleChangedAs(db, after, team, user, role)
  {
    hide Closed, AllLogged;
    assert (team, actor) in db.members ==> actor in db.users;
    assert (team, user) in db.members ==> user in db.users;
  }

  // ---------- creations ----------

  lemma CreationChecked(request: NewTaskRequest)
    ensures ValidateCreation(request).Pass? <==> GoodTask(request)
    ensures ValidateCreation(request).Fail? ==> ValidateCreation(request).error.Invalid?
  {
    FitsExact(request.title);
  }

  /** An inserted row is the task that was sent. */
  lemma InsertedAs(db: DB, actor: Id, request: NewTaskRequest, clock: Time, now: Time)
    requires Keyed(db)
    ensures var (after, res) := InsertTask(db, RowFor(actor, request), clock, now);
            res.Ok? ==> CreatedAs(db, after, actor, request, res.value, clock, now)
  {
    CutExact(request.title, Text.Trim(request.title));
    hide Text.Trim, Cut;
    var (after, res) := InsertTask(db, RowFor(actor, request), clock, now);
    if res.Ok? {
      var e := Entry(db, res.value.id, actor, CreationDiff(res.value), clock, now);
      assert after.history == db.history + [e];
      RecordedCreation(res.value);
    }
  }

  lemma RecordedCreation(task: Task)
    ensures RecordsCreation(CreationDiff(task), task)
  {
    AllFields();
    var changes := CreationDiff(task);
    assert Title in changes && Description in changes && StatusField in changes;
    assert Assignee in changes <==> task.assignee.Some?;
    forall f ensures f in changes.Keys <==>
                     f in {Title, Description, StatusField} + (if task.assignee.Some? then {Assignee} else {})
    {
      match f
      case Title =>
      case Description =>
      case StatusField =>
      case Assignee =>
    }
  }

  /** A creation goes through if and only if it is well formed, its actor is a member of the team, and so is the
      assignee if there is one. */
  lemma CreationVerdict(db: DB, actor: Id, request: NewTaskRequest, clock: Time, now: Time)
    requires Sound(db)
    ensures var (after, response) := Exec(db, CreateTask(actor, request), clock, now);
            if !GoodTask(request) then after == db && response.Failed? && response.fault.Invalid?
            else if (request.teamId, actor) !in db.members then
              after == db && response == Failed(TeamNotFound(request.teamId))
            else if request.assignee.Some? && (request.teamId, request.assignee.value) !in db.members then
              after == db && response == Failed(AssigneeOutside(request.assignee.value, request.teamId))
            else response.TaskIs? && CreatedAs(db, after, actor, request, response.task, clock, now)
  {
    hide Closed, AllLogged, ValidateCreation, CreatedAs, GoodTask;
    CreationChecked(request);
    InsertedAs(db, actor, request, clock, now);
    assert (request.teamId, actor) in db.members ==> actor in db.users && request.teamId in db.teams;
    assert request.assignee.Some? && (request.teamId, request.assignee.value) in db.members ==>
        request.assignee.value in db.users;
  }

  // ---------- updates ----------

  lemma PatchChecked(patch: Patch)
    ensures Validate(patch).Pass? <==> GoodPatch(patch)
    ensures Validate(patch).Fail? ==> Validate(patch).error.Invalid?
  {
    FitsExact(patch.title.value);
  }

  lemma OverwrittenAs(prior: Task, patch: Patch)
    ensures PatchedAs(prior, Overwritten(prior, patch), patch)
    ensures forall task :: PatchedAs(prior, task, patch) ==> SameContent(task, Overwritten(prior, patch))
  {
    CutExact(patch.title.value, Text.Trim(patch.title.value));
    forall task | PatchedAs(prior, task, patch) ensures SameContent(task, Overwritten(prior, patch)) {
      CutExact(patch.title.value, task.title);
    }
  }

  lemma RecordedChange(prior: Task, task: Task)
    ensures RecordsChange(Difference(prior, task), prior, task)
  {
    DifferenceAt(prior, task, Title);
    DifferenceAt(prior, task, Description);
    DifferenceAt(prior, task, StatusField);
    DifferenceAt(prior, task, Assignee);
  }

  lemma NothingChanges(prior: Task, patch: Patch)
    ensures DiffOf(prior, patch) == map[] <==> PatchedAs(prior, prior, patch)
  {
    OverwrittenAs(prior, patch);
    PatchAlgebra(prior, patch);
  }

  lemma OnlyStatusDiffers(prior: Task, task: Task)
    ensures Difference(prior, task).Keys == {StatusField} <==>
            && task.title == prior.title && task.description == prior.description
            && task.assignee == prior.assignee && task.status != prior.status
  {
    RecordedChange(prior, task);
    var changes := Difference(prior, task);
    forall f ensures f in changes.Keys <==> f in changes {
    }
    if changes.Keys == {StatusField} {
      assert Title !in changes.Keys && Description !in changes.Keys && Assignee !in changes.Keys;
      assert StatusField in changes.Keys;
    } else if StatusField in changes && Title !in changes && Description !in changes && Assignee !in changes {
      forall f ensures f in changes.Keys <==> f in {StatusField} {
        match f
        case Title =>
        case Description =>
        case StatusField =>
        case Assignee =>
      }
    }
  }

  lemma OnlyStatusChanges(task: Task, patch: Patch)
    ensures DiffOf(task, patch).Keys == {StatusField} <==> OnlyMoves(task, patch)
  {
    var next := Overwritten(task, patch);
    OverwrittenAs(task, patch);
    OnlyStatusDiffers(task, next);
    hide PatchedAs, Difference;
    if OnlyMoves(task, patch) {
      assert SameContent(task.(status := patch.status.value), next);
    }
    if DiffOf(task, patch).Keys == {StatusField} {
      assert next == task.(status := next.status);
    }
  }

  lemma ChangeAllowed(db: DB, actor: Id, id: Id, patch: Patch)
    requires id in db.tasks && (db.tasks[id].teamId, actor) in db.members
    ensures var task := db.tasks[id];
            MayEdit(Actor(actor, db.members[(task.teamId, actor)]), task, DiffOf(task, patch)) <==>
            MayChange(db, actor, id, patch)
  {
    hide OnlyMoves, DiffOf;
    OnlyStatusChanges(db.tasks[id], patch);
  }

  /** The update transaction stores the row with the patch as sent. */
  lemma SwappedAs(db: DB, actor: Id, id: Id, patch: Patch, clock: Time, now: Time)
    requires id in db.tasks && db.tasks[id].id == id
    requires patch.version.Some? ==> patch.version.value == db.tasks[id].version
    ensures var (after, res) := SwapPatch(db, id, patch, actor, clock, now);
            res.Ok? ==> UpdatedAs(db, after, actor, id, patch, res.value, clock, now)
  {
    var prior := db.tasks[id];
    var (after, res) := SwapPatch(db, id, patch, actor, clock, now);
    if res.Ok? {
      PatchedRow(prior, patch, clock, now);
      OverwrittenAs(prior, patch);
      var e := Entry(db, id, actor, DiffOf(prior, patch), clock, now);
      assert after.history == db.history + [e];
      RecordedChange(prior, Overwritten(prior, patch));
      SameRow(prior, Overwritten(prior, patch), res.value, patch);
    }
  }

  lemma SameRow(prior: Task, next: Task, task: Task, patch: Patch)
    requires SameContent(task, next) && PatchedAs(prior, next, patch)
    requires RecordsChange(DiffOf(prior, patch), prior, next)
    ensures PatchedAs(prior, task, patch) && RecordsChange(DiffOf(prior, patch), prior, task)
  {
    hide DiffOf;
  }

  /** The assignee that the patch names, if it names another one than the task has. */
  predicate Reassigns(task: Task, patch: Patch) {
    patch.assignee.isSet && patch.assignee.valid && task.assignee != Some(patch.assignee.value)
  }

  lemma ReassignsToMember(db: DB, id: Id, patch: Patch)
    requires Sound(db) && id in db.tasks
    ensures var task := db.tasks[id];
            var next := Overwritten(task, patch).assignee;
            AssigneeInTeam(db, task.teamId, next) ==
            if Reassigns(task, patch) && (task.teamId, patch.assignee.value) !in db.members
            then Fail(AssigneeOutside(patch.assignee.value, task.teamId)) else Pass
  {
    hide AllLogged;
    var task := db.tasks[id];
    var next := Overwritten(task, patch).assignee;
    assert task.assignee.Some? ==> (task.teamId, task.assignee.value) in db.members;
    assert next.Some? && (task.teamId, next.value) in db.members ==> next.value in db.users;
  }

  /** An update goes through if and only if it is well formed, the task exists and its actor is a member of its
      team, the version is the current one if it names one, its actor may make the change, and the assignee it
      names is a member. One that changes nothing is answered with the task as it is. */
  lemma UpdateVerdict(db: DB, actor: Id, id: Id, patch: Patch, clock: Time, now: Time)
    requires Sound(db)
    ensures var (after, response) := Exec(db, UpdateTask(actor, id, patch), clock, now);
            if !GoodPatch(patch) then after == db && response.Failed? && response.fault.Invalid?
            else if id !in db.tasks || (db.tasks[id].teamId, actor) !in db.members then
              after == db && response == Failed(TaskNotFound(id))
            else
              var task := db.tasks[id];
              if patch.version.Some? && patch.version.value != task.version then
                after == db && response == Failed(StaleVersion(task.version))
              else if PatchedAs(task, task, patch) then after == db && response == TaskIs(task)
              else if !MayChange(db, actor, id, patch) then
                after == db && response.Failed? && response.fault.Forbidden?
              else if Reassigns(task, patch) && (task.teamId, patch.assignee.value) !in db.members then
                after == db && response == Failed(AssigneeOutside(patch.assignee.value, task.teamId))
              else response.TaskIs? && UpdatedAs(db, after, actor, id, patch, response.task, clock, now)
  {
    hide Sound, GoodPatch, Validate, PatchedAs, MayChange, UpdatedAs, DiffOf, Applied, Overwritten, AssigneeInTeam,
      AuthorizeTaskUpdate, MayEdit, CompareAndSwap, Reassigns, FromSwap;
    PatchChecked(patch);
    Loads(db, actor, id);
    if id in db.tasks && (db.tasks[id].teamId, actor) in db.members && GoodPatch(patch) {
      LoadedVerdict(db, actor, id, patch, clock, now);
    }
  }

  lemma Loads(db: DB, actor: Id, id: Id)
    requires Sound(db)
    ensures TaskForMember(db, id, actor) ==
            if id in db.tasks && (db.tasks[id].teamId, actor) in db.members
            then Ok((db.tasks[id], Actor(actor, db.members[(db.tasks[id].teamId, actor)])))
            else Err(TaskNotFound(id))
    ensures id in db.tasks ==> db.tasks[id].id == id
  {
    hide AllLogged, Closed;
  }

  lemma ForbiddenOnly(actor: Actor, task: Task, changes: Changes)
    ensures AuthorizeTaskUpdate(actor, task, changes).Fail? ==>
              AuthorizeTaskUpdate(actor, task, changes).error.Forbidden?
  {
  }

  lemma LoadedVerdict(db: DB, actor: Id, id: Id, patch: Patch, clock: Time, now: Time)
    requires Sound(db) && id in db.tasks && (db.tasks[id].teamId, actor) in db.members && Validate(patch).Pass?
    ensures var task := db.tasks[id];
            var member := Actor(actor, db.members[(task.teamId, actor)]);
            var (after, response) := FromPlan(db, member, patch, task, clock, now);
            if patch.version.Some? && patch.version.value != task.version then
              after == db && response == Failed(StaleVersion(task.version))
            else if PatchedAs(task, task, patch) then after == db && response == TaskIs(task)
            else if !MayChange(db, actor, id, patch) then
              after == db && response.Failed? && response.fault.Forbidden?
            else if Reassigns(task, patch) && (task.teamId, patch.assignee.value) !in db.members then
              after == db && response == Failed(AssigneeOutside(patch.assignee.value, task.teamId))
            else response.TaskIs? && UpdatedAs(db, after, actor, id, patch, response.task, clock, now)
  {
    hide Sound, Validate, PatchedAs, MayChange, UpdatedAs, DiffOf, Applied, Overwritten, AssigneeInTeam,
      AuthorizeTaskUpdate, MayEdit, CompareAndSwap, Reassigns;
    var task := db.tasks[id];
    var member := Actor(actor, db.members[(task.teamId, actor)]);
    Loads(db, actor, id);
    NothingChanges(task, patch);
    ChangeAllowed(db, actor, id, patch);
    AuthorizeTaskUpdateExact(member, task, DiffOf(task, patch));
    ForbiddenOnly(member, task, DiffOf(task, patch));
    AppliedIsOverwritten(task, patch);
    ReassignsToMember(db, id, patch);
    if patch.version.Some? ==> patch.version.value == task.version {
      SwappedAs(db, actor, id, patch, clock, now);
      if !(Reassigns(task, patch) && (task.teamId, patch.assignee.value) !in db.members) {
        SwapGoesThrough(db, actor, id, patch, clock, now);
      }
    }
  }

  lemma SwapGoesThrough(db: DB, actor: Id, id: Id, patch: Patch, clock: Time, now: Time)
    requires Sound(db) && id in db.tasks && (db.tasks[id].teamId, actor) in db.members && Validate(patch).Pass?
    requires AssigneeInTeam(db, db.tasks[id].teamId, Overwritten(db.tasks[id], patch).assignee).Pass?
    ensures SwapPatch(db, id, patch, actor, clock, now).1.Ok?
  {
    hide Sound, Validate;
    SwapPatchKeeps(db, id, patch, actor, clock, now);
  }

  // ---------- reads ----------

  /** A list request goes through if and only if it names a team, a known status or none, and comes from a
      member of the team. */
  lemma ListVerdict(db: DB, actor: Id, filter: TaskFilter, clock: Time, now: Time)
    requires Sound(db)
    ensures var (after, response) := Exec(db, ListTasks(actor, filter), clock, now);
            && after == db
            && if filter.teamId <= 0 || (filter.status.Some? && !KnownStatus(filter.status.value)) then
                 response.Failed? && response.fault.Invalid?
               else if (filter.teamId, actor) !in db.members then response == Failed(TeamNotFound(filter.teamId))
               else response.PageIs? && PageAs(db.tasks, filter, response.page)
  {
    hide Closed, AllLogged, PageAs, Query;
    PageExact(db, filter);
    assert (filter.teamId, actor) in db.members ==> actor in db.users;
  }

  lemma {:induction false} NewestExact(history: seq<HistoryEntry>, task: Id)
    requires forall i, j :: 0 <= i < j < |history| ==> history[i].id < history[j].id
    ensures HistoryAs(history, task, NewestFirst(history, task))
  {
    if history != [] {
      var n := |history| - 1;
      NewestExact(history[..n], task);
      assert forall e :: e in history <==> e in history[..n] || e == history[n];
    }
  }

  /** The history of a task is answered, whole and newest first, if and only if the actor is a member of the
      task's team. */
  lemma HistoryVerdict(db: DB, actor: Id, id: Id, clock: Time, now: Time)
    requires Sound(db)
    ensures var (after, response) := Exec(db, TaskHistory(actor, id), clock, now);
            && after == db
            && if id !in db.tasks || (db.tasks[id].teamId, actor) !in db.members then
                 response == Failed(TaskNotFound(id))
               else response.HistoryIs? && HistoryAs(db.history, id, response.entries)
  {
    hide HistoryAs, NewestFirst, TaskForMember;
    Loads(db, actor, id);
    NewestExact(db.history, id);
  }

  lemma {:induction false} TeamRowsExact(db: DB, user: Id, n: nat)
    requires forall t :: t in db.teams ==> db.teams[t].id == t
    ensures forall row :: row in TeamRows(db, user, n) <==>
              && 0 < row.0.id <= n && row.0.id in db.teams && db.teams[row.0.id] == row.0
              && (row.0.id, user) in db.members && db.members[(row.0.id, user)] == row.1
    ensures forall i, j :: 0 <= i < j < |TeamRows(db, user, n)| ==>
              TeamRows(db, user, n)[i].0.id < TeamRows(db, user, n)[j].0.id
  {
    if n != 0 {
      TeamRowsExact(db, user, n - 1);
      var rows, front := TeamRows(db, user, n), TeamRows(db, user, n - 1);
      if n in db.teams && (n, user) in db.members {
        var last := (db.teams[n], db.members[(n, user)]);
        assert rows == front + [last];
        assert forall row :: row in rows <==> row in front || row == last;
      } else {
        assert rows == front;
      }
    }
  }

  /** Everybody gets all their teams, with their roles. */
  lemma TeamsVerdict(db: DB, actor: Id, clock: Time, now: Time)
    requires Sound(db)
    ensures var (after, response) := Exec(db, ListTeams(actor), clock, now);
            after == db && response.TeamsAre? && TeamsAs(db, actor, response.teams)
  {
    hide Owned, Closed, AllLogged, TeamRows;
    TeamRowsExact(db, actor, db.nextTeam - 1);
  }

  /** The report is for the owner and the admins of the team, and it is on all the team's rows. */
  lemma StatsVerdict(db: DB, actor: Id, team: Id, clock: Time, now: Time)
    requires Sound(db)
    ensures var (after, response) := Exec(db, TeamStats(actor, team), clock, now);
            && after == db
            && if (team, actor) !in db.members then response == Failed(TeamNotFound(team))
               else if !Manages(db, team, actor) then response.Failed? && response.fault.Forbidden?
               else response.ScopeIs? && ScopeAs(db, team, response.rows)
  {
    hide Closed, AllLogged;
    assert (team, actor) in db.members ==> actor in db.users;
  }

  // ---------- effects ----------

  // What the successful requests do, on any state with sane keys.

  lemma CreationEffect(db: DB, actor: Id, request: NewTaskRequest, clock: Time, now: Time)
    requires Keyed(db)
    ensures var (after, response) := Exec(db, CreateTask(actor, request), clock, now);
            CreationAnswered(db, after, actor, request, response, clock, now)
  {
    hide Keyed, CreatedAs, ValidateCreation, InsertTask;
    InsertedAs(db, actor, request, clock, now);
  }

  lemma UpdateEffect(db: DB, actor: Id, id: Id, patch: Patch, clock: Time, now: Time)
    requires id in db.tasks ==> db.tasks[id].id == id
    ensures var (after, response) := Exec(db, UpdateTask(actor, id, patch), clock, now);
            UpdateAnswered(db, after, actor, id, patch, response, clock, now)
  {
    hide Validate, PatchedAs, UpdatedAs, DiffOf, Applied, AssigneeInTeam, AuthorizeTaskUpdate, CompareAndSwap;
    if id in db.tasks {
      NothingChanges(db.tasks[id], patch);
      if patch.version.Some? ==> patch.version.value == db.tasks[id].version {
        SwappedAs(db, actor, id, patch, clock, now);
      }
    }
  }

  lemma FoundingEffect(db: DB, actor: Id, name: string, clock: Time, now: Time)
    requires Keyed(db)
    ensures var (after, response) := Exec(db, CreateTeam(actor, name), clock, now);
            response.TeamIs? ==> FoundedAs(db, after, actor, name, response.team, now)
  {
    CutExact(name, Text.Trim(name));
  }

  lemma InviteEffect(db: DB, actor: Id, team: Id, invite: InviteRequest, clock: Time, now: Time)
    requires Keyed(db)
    ensures var (after, response) := Exec(db, InviteMember(actor, team, invite), clock, now);
            InvitationAnswered(db, after, actor, team, invite, response)
  {
    hide Keyed, ValidateInvite, ResolveInvitee;
    Resolved(db, WithRole(invite));
    assert forall user :: Invites(db, WithRole(invite), user) <==> Invites(db, invite, user);
  }

  lemma RoleChangeEffect(db: DB, actor: Id, team: Id, user: Id, role: Role, clock: Time, now: Time)
    ensures var (after, response) := Exec(db, ChangeMemberRole(actor, team, user, role), clock, now);
            response.MemberIs? ==>
              && response == MemberIs(team, user, role) && RoleChangedAs(db, after, team, user, role)
              && (team, actor) in db.members && db.members[(team, actor)].Owner?
  {
  }
}
