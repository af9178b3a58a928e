/** The service as the code runs it: a sequence of calls on the store and the cache, each request shown
    to have exactly the effect and the answer that Coherence.Serve gives it. */
module Service {
  import opened Outcomes
  import opened Domain
  import opened TaskPatch
  import opened TaskLog
  import opened Database
  import opened Operations
  import opened Execution
  import opened Storage
  import opened TaskCache
  import opened Coherence
  import Promises
  import Statistics
  import Text
  import Verdicts

  class TaskService {
    const db: Store
    const cache: PageCache

    constructor (enabled: bool)
      ensures Valid() && fresh(db) && fresh(cache) && cache.enabled == enabled
      ensures db.View() == EMPTY_DB && cache.redis == map[]
    {
      db := new Store();
      cache := new PageCache(enabled);
    }

    // That the stored data stays sound follows from the effect of each request (Coherence.TurnsSteady).
    ghost predicate Valid()
      reads this, db
    {
      db.Valid()
    }

    method Member(team: Id, user: Id) returns (res: Result<Actor, Fault>)
      ensures res == Membership(db.View(), team, user)
    {
      var row := db.Membership(team, user);
      match row
      case Ok(role) => res := Ok(Actor(user, role));
      case Err(_) => res := Err(TeamNotFound(team));
    }

    method LoadForMember(task: Id, actor: Id) returns (res: Result<(Task, Actor), Fault>)
      ensures res == TaskForMember(db.View(), task, actor)
    {
      var row := db.TaskByID(task);
      if row.Err? {
        return Err(TaskNotFound(task));
      }
      var member := Member(row.value.teamId, actor);
      if member.Err? {
        return Err(TaskNotFound(task));
      }
      return Ok((row.value, member.value));
    }

    method CheckAssignee(team: Id, assignee: Option<Id>) returns (res: Check<Fault>)
      ensures res == AssigneeInTeam(db.View(), team, assignee)
    {
      if assignee.None? {
        return Pass;
      }
      var row := db.Membership(team, assignee.value);
      res := if row.Err? then Fail(AssigneeOutside(assignee.value, team)) else Pass;
    }

    method CreateTask(actor: Id, request: NewTaskRequest, clock: Time, now: Time, calls: Calls)
      returns (res: Result<Task, Fault>)
      requires Valid()
      modifies db, cache
      ensures Valid()
      ensures (db.View(), cache.redis, Answer(res)) ==
              Serve(old(db.View()), old(cache.redis), cache.enabled, Op.CreateTask(actor, request), clock, now, calls)
    {
      hide AssigneeInTeam, Membership, ValidateNewTask, Invalidated;
      if request.teamId <= 0 {
        return Err(Invalid("team_id is required"));
      }
      var req := request;
      if req.status.Unset? {
        req := req.(status := Todo);
      }
      var valid := ValidateNewTask(req.title, req.description, req.status);
      if valid.Fail? {
        return Err(valid.error);
      }
      var member := Member(req.teamId, actor);
      if member.Err? {
        return Err(member.error);
      }
      var assignee := CheckAssignee(req.teamId, req.assignee);
      if assignee.Fail? {
        return Err(assignee.error);
      }
      var row := NewTask(req.teamId, Text.Trim(req.title), req.description, req.status, actor, req.assignee);
      var created := db.CreateTask(row, clock, now);
      if created.Err? {
        return Err(Internal);
      }
      cache.Invalidate(created.value.teamId, calls);
      return Ok(created.value);
    }

    method UpdateTask(actor: Id, id: Id, patch: Patch, clock: Time, now: Time, calls: Calls)
      returns (res: Result<Task, Fault>)
      requires Valid()
      modifies db, cache
      ensures Valid()
      ensures (db.View(), cache.redis, Answer(res)) ==
              Serve(old(db.View()), old(cache.redis), cache.enabled, Op.UpdateTask(actor, id, patch), clock, now, calls)
    {
      hide DiffOf, Applied, Validate, AuthorizeTaskUpdate, AssigneeInTeam, TaskForMember, Invalidated;
      ghost var before, redis := db.View(), cache.redis;
      var valid := Validate(patch);
      if valid.Fail? {
        return Err(valid.error);
      }
      var loaded := LoadForMember(id, actor);
      if loaded.Err? {
        return Err(loaded.error);
      }
      var (task, member) := loaded.value;
      if patch.version.Some? && patch.version.value != task.version {
        return Err(StaleVersion(task.version));
      }
      var changes := Diff(task, patch);
      var allowed := Authorize(member, task, changes);
      if allowed.Fail? {
        return Err(allowed.error);
      }
      if changes == map[] {
        return Ok(task);
      }
      var next := Apply(task, changes);
      var assignee := CheckAssignee(task.teamId, next.assignee);
      if assignee.Fail? {
        return Err(assignee.error);
      }
      var upd := TaskUpdate(next.title, next.description, next.status, next.assignee,
                            CloseTimestamp(task, next.status, clock));
      UpdateReachesStore(before, actor, id, patch, task, member, clock, now);
      var saved := db.UpdateTask(task.id, task.version, upd, actor, changes, clock, now);
      if saved == Err(VersionConflict) {
        return Err(LostRace);
      }
      if saved.Err? {
        return Err(Internal);
      }
      WriteServed(before, redis, cache.enabled, Op.UpdateTask(actor, id, patch), clock, now, calls,
                  db.View(), TaskIs(saved.value));
      cache.Invalidate(saved.value.teamId, calls);
      return Ok(saved.value);
    }

    method Authorize(member: Actor, task: Task, changes: Changes) returns (res: Check<Fault>)
      ensures res == AuthorizeTaskUpdate(member, task, changes)
    {
      if |changes| == 0 || member.role.Privileged() {
        return Pass;
      }
      if task.createdBy == member.userId {
        var rejected := RequireFields(changes, CREATOR_FIELDS);
        return if rejected.None? then Pass
               else Fail(Forbidden(CREATOR_LIMIT));
      }
      if task.assignee == Some(member.userId) {
        var rejected := RequireFields(changes, ASSIGNEE_FIELDS);
        return if rejected.None? then Pass
               else Fail(Forbidden(ASSIGNEE_LIMIT));
      }
      return Fail(Forbidden(NO_PART));
    }

    method ListTasks(actor: Id, request: TaskFilter, clock: Time, now: Time, calls: Calls)
      returns (res: Result<TaskPage, Fault>)
      requires Valid()
      modifies cache
      ensures Valid()
      ensures (db.View(), cache.redis, PageAnswer(res)) ==
              Serve(old(db.View()), old(cache.redis), cache.enabled, Op.ListTasks(actor, request), clock, now, calls)
    {
      if request.teamId <= 0 {
        return Err(Invalid("team_id is required"));
      }
      if request.status.Some? && !request.status.value.Valid() {
        return Err(Invalid("unknown status"));
      }
      var filter := request;
      filter := filter.(limit := NormalizeLimit(filter.limit));
      filter := filter.(offset := NormalizeOffset(filter.offset));
      var member := Member(filter.teamId, actor);
      if member.Err? {
        return Err(member.error);
      }
      var hit := cache.Get(filter, calls);
      if hit.Some? {
        return Ok(hit.value);
      }
      var tasks := db.ListTasks(filter);
      if tasks.Err? {
        assert false;
        return Err(Internal);
      }
      var page := TaskPage(tasks.value, filter.limit, filter.offset);
      cache.Set(filter, page, calls);
      return Ok(page);
    }

    method TaskHistory(actor: Id, task: Id) returns (res: Result<seq<HistoryEntry>, Fault>)
      ensures (match res case Ok(entries) => HistoryIs(entries) case Err(f) => Failed(f)) ==
              ExecHistory(db.View(), actor, task)
      ensures res.Ok? && Sound(db.View()) ==> Promises.HistoryAs(db.history, task, res.value)
    {
      hide Sound, Promises.HistoryAs;
      if Sound(db.View()) {
        Verdicts.HistoryVerdict(db.View(), actor, task, 0, 0);
      }
      var loaded := LoadForMember(task, actor);
      if loaded.Err? {
        return Err(loaded.error);
      }
      var entries := db.TaskHistory(task);
      return Ok(entries);
    }

    /** The report, for owners and admins. The row is what the database answers to the query on its current
        state; the report is the right one for the rows that Execution.ExecStats names. */
    method TeamStats(actor: Id, team: Id, cutoff: Time, row: Statistics.Answer)
      returns (res: Result<Statistics.Report, Fault>)
      requires Statistics.AnswerOf(db.View(), team, cutoff, row)
      ensures ExecStats(db.View(), actor, team) ==
              (match res case Ok(_) => ScopeIs(ScopeOf(db.View(), team)) case Err(f) => Failed(f))
      ensures res.Ok? ==> res.value.teamId == team && Promises.Manages(db.View(), team, actor)
      ensures res.Ok? && Sound(db.View()) ==>
                Statistics.ReportOf(db.View(), team, cutoff, res.value.tasksByStatus, res.value.top[..])
    {
      hide Sound, Statistics.ReportOf, Statistics.AnswerOf;
      var member := Member(team, actor);
      if member.Err? {
        return Err(member.error);
      }
      var allowed := AuthorizeStatsAccess(member.value);
      if allowed.Fail? {
        return Err(allowed.error);
      }
      var report := db.TeamStats(team, cutoff, row);
      return Ok(report);
    }

    method CreateTeam(actor: Id, name: string, now: Time) returns (res: Result<Team, Fault>)
      requires Valid()
      modifies db
      ensures Valid()
      ensures (db.View(), match res case Ok(team) => TeamIs(team) case Err(f) => Failed(f)) ==
              ExecCreateTeam(old(db.View()), actor, name, now)
      ensures res.Ok? && Keyed(old(db.View())) ==>
                Promises.FoundedAs(old(db.View()), db.View(), actor, name, res.value, now)
    {
      hide Keyed, Promises.FoundedAs;
      if Keyed(db.View()) {
        Verdicts.FoundingEffect(db.View(), actor, name, 0, now);
      }
      var teamName := NormalizeTeamName(name);
      if teamName.Err? {
        return Err(teamName.error);
      }
      var team := db.CreateTeam(teamName.value, actor, now);
      if team.Err? {
        return Err(Unauthorized);
      }
      return Ok(team.value);
    }

    method InviteMember(actor: Id, team: Id, request: InviteRequest) returns (res: Result<TeamMember, Fault>)
      requires Valid()
      modifies db
      ensures Valid()
      ensures (db.View(), MemberAnswer(res)) == ExecInvite(old(db.View()), actor, team, WithRole(request))
      ensures Keyed(old(db.View())) ==>
                Promises.InvitationAnswered(old(db.View()), db.View(), actor, team, request, MemberAnswer(res))
    {
      hide Keyed, Promises.InvitationAnswered;
      InvitationMeans(db.View(), actor, team, request);
      hide ResolveInvitee, Membership, AuthorizeInvite;
      var req := request;
      if req.role.Unset? {
        req := req.(role := Role.Member);
      }
      if !req.role.Valid() {
        return Err(Invalid("unknown role"));
      }
      var hasId := req.userId > 0;
      var hasEmail := Text.Trim(req.email) != "";
      if !hasId && !hasEmail {
        return Err(Invalid("user_id or email is required"));
      }
      if hasId && hasEmail {
        return Err(Invalid("provide user_id or email, not both"));
      }
      var member := Member(team, actor);
      if member.Err? {
        return Err(member.error);
      }
      var allowed := AuthorizeInvite(member.value, req.role);
      if allowed.Fail? {
        return Err(allowed.error);
      }
      var invitee := Invitee(req);
      if invitee.Err? {
        return Err(invitee.error);
      }
      var added := db.AddMember(team, invitee.value.id, req.role);
      if added == Err(AlreadyExists) {
        return Err(AlreadyMember(invitee.value.id, team));
      }
      if added.Err? {
        return Err(Internal);
      }
      return Ok(TeamMember(team, invitee.value.id, req.role));
    }

    method Invitee(request: InviteRequest) returns (res: Result<User, Fault>)
      ensures res == ResolveInvitee(db.View(), request)
    {
      if request.userId > 0 {
        var row := db.UserByID(request.userId);
        return if row.Ok? then Ok(row.value) else Err(UserNotFound(request.userId));
      }
      if request.address.None? {
        return Err(Invalid(NOT_AN_ADDRESS));
      }
      var row := db.UserByEmail(request.address.value);
      return if row.Ok? then Ok(row.value) else Err(EmailNotFound);
    }

    method ChangeMemberRole(actor: Id, team: Id, user: Id, role: Role) returns (res: Result<TeamMember, Fault>)
      requires Valid()
      modifies db
      ensures Valid()
      ensures (db.View(), MemberAnswer(res)) == ExecRoleChange(old(db.View()), actor, team, user, role)
      ensures res.Ok? ==>
                && res.value == TeamMember(team, user, role)
                && Promises.RoleChangedAs(old(db.View()), db.View(), team, user, role)
                && old((team, actor) in db.members && db.members[(team, actor)].Owner?)
    {
      hide Promises.RoleChangedAs;
      Verdicts.RoleChangeEffect(db.View(), actor, team, user, role, 0, 0);
      if !role.Valid() {
        return Err(Invalid("unknown role"));
      }
      var member := Member(team, actor);
      if member.Err? {
        return Err(member.error);
      }
      var row := db.Membership(team, user);
      if row.Err? {
        return Err(MemberNotFound(user, team));
      }
      var target := TeamMember(team, user, row.value);
      var allowed := AuthorizeRoleChange(member.value, target.role, role);
      if allowed.Fail? {
        return Err(allowed.error);
      }
      var updated := db.UpdateMemberRole(team, user, role);
      if updated.Err? {
        return Err(Internal);
      }
      target := target.(role := role);
      return Ok(target);
    }
  }

  datatype TeamMember = TeamMember(team: Id, user: Id, role: Role)

  function MemberAnswer(res: Result<TeamMember, Fault>): Response {
    match res
    case Ok(m) => MemberIs(m.team, m.user, m.role)
    case Err(fault) => Failed(fault)
  }

  function Answer(res: Result<Task, Fault>): Response {
    match res
    case Ok(task) => TaskIs(task)
    case Err(fault) => Failed(fault)
  }

  function PageAnswer(res: Result<TaskPage, Fault>): Response {
    match res
    case Ok(page) => PageIs(page)
    case Err(fault) => Failed(fault)
  }

  /** A request that wrote a task goes on to invalidate the pages of its team. */
  lemma WriteServed(db: DB, redis: Pages, enabled: bool, op: Op, clock: Time, now: Time, calls: Calls,
                    after: DB, response: Response)
    requires !op.ListTasks? && Exec(db, op, clock, now) == (after, response)
    requires after.history != db.history && response.TaskIs?
    ensures Serve(db, redis, enabled, op, clock, now, calls) ==
            (after, Invalidated(redis, enabled, response.task.teamId, calls), response)
  {
  }

  // What the served requests do and answer, in terms of what was sent. By their contracts the methods above do
  // exactly this.

  lemma ServedCreation(db: DB, redis: Pages, enabled: bool, actor: Id, request: NewTaskRequest, clock: Time, now: Time,
                       calls: Calls)
    ensures var (after, _, response) := Serve(db, redis, enabled, Op.CreateTask(actor, request), clock, now, calls);
            Keyed(db) ==> Promises.CreationAnswered(db, after, actor, request, response, clock, now)
  {
    hide Keyed, Exec, Promises.CreationAnswered;
    if Keyed(db) {
      Verdicts.CreationEffect(db, actor, request, clock, now);
    }
  }

  lemma ServedUpdate(db: DB, redis: Pages, enabled: bool, actor: Id, id: Id, patch: Patch, clock: Time, now: Time,
                     calls: Calls)
    requires id in db.tasks ==> db.tasks[id].id == id
    ensures var (after, _, response) := Serve(db, redis, enabled, Op.UpdateTask(actor, id, patch), clock, now, calls);
            Promises.UpdateAnswered(db, after, actor, id, patch, response, clock, now)
  {
    hide Exec, Promises.UpdateAnswered;
    Verdicts.UpdateEffect(db, actor, id, patch, clock, now);
  }

  lemma ServedList(db: DB, redis: Pages, enabled: bool, actor: Id, filter: TaskFilter, clock: Time, now: Time,
                   calls: Calls)
    ensures var (_, _, response) := Serve(db, redis, enabled, Op.ListTasks(actor, filter), clock, now, calls);
            Sound(db) && (enabled ==> Coherent(db, redis)) ==> Promises.ListAnswered(db, filter, response)
  {
    hide Exec, Serve, Sound, Coherent, Promises.PageAs;
    if Sound(db) && (enabled ==> Coherent(db, redis)) {
      ServeCoherent(db, redis, enabled, Op.ListTasks(actor, filter), clock, now, calls);
      Verdicts.ListVerdict(db, actor, filter, clock, now);
    }
  }

  lemma InvitationMeans(db: DB, actor: Id, team: Id, invite: InviteRequest)
    ensures var (after, response) := ExecInvite(db, actor, team, WithRole(invite));
            Keyed(db) ==> Promises.InvitationAnswered(db, after, actor, team, invite, response)
  {
    hide Keyed, ExecInvite, Promises.InvitationAnswered;
    if Keyed(db) {
      Verdicts.InviteEffect(db, actor, team, invite, 0, 0);
    }
  }
}
