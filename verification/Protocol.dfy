/** Requests of any number of clients, interleaved: every SQL statement outside a transaction, every
    transaction and every Redis command is one step. */
module Protocol {
  import opened Outcomes
  import opened Domain
  import opened TaskPatch
  import opened Database
  import opened Operations
  import opened Redis

  /** Where a cached page comes from (model variables): the request and generation it was stored
      under, the database state it was read from, and the writes of its team after that state that
      had been invalidated when Set read the generation. */
  datatype Origin = Origin(filter: TaskFilter, gen: int, readAt: nat, late: set<nat>)

  datatype Stored = Stored(page: TaskPage, origin: Origin)

  // What a committed write read and did, for the record: positions of the trace at which a row or role
  // was read, and the position that the write led to.

  datatype Founding = Founding(actor: Id, name: string, at: nat, now: Time)

  datatype Enrolment = Enrolment(
    actor: Id, team: Id, user: Id, role: Role, invited: bool, roleAt: nat, at: nat)

  datatype Creation = Creation(row: NewTask, at: nat, clock: Time, now: Time)

  datatype Commit = Commit(
    actor: Id, task: Id, patch: Patch, loadedAt: nat, roleAt: nat, at: nat, clock: Time, now: Time)

  /** How a request ended, for the record. */
  datatype Note =
    | Plain
    | Founded(founding: Founding)
    | Enrolled(change: Enrolment)
    | Created(creation: Creation)
    | Updated(commit: Commit)
    | Unchanged(patch: Patch, loadedAt: nat)
    | Served(filter: TaskFilter, origin: Origin, probedAt: nat, servedAt: nat, dirty: set<nat>)
    | Queried(filter: TaskFilter, readAt: nat)

  /** An in-flight request, waiting to take its next step. */
  datatype Req =
    | TeamInsert(actor: Id, name: string)
    | InviteActor(actor: Id, team: Id, invite: InviteRequest)
    | InviteUser(actor: Id, team: Id, invite: InviteRequest, roleAt: nat)
    | InviteInsert(actor: Id, team: Id, invite: InviteRequest, user: Id, roleAt: nat)
    | RoleActor(actor: Id, team: Id, user: Id, role: Role)
    | RoleTarget(actor: Id, team: Id, user: Id, role: Role, actorRole: Role, roleAt: nat)
    | RoleWrite(actor: Id, team: Id, user: Id, role: Role, roleAt: nat)
    | NewActor(row: NewTask)
    | NewAssignee(row: NewTask)
    | NewInsert(row: NewTask)
    | Load(actor: Id, taskId: Id, patch: Patch)
    | LoadRole(actor: Id, patch: Patch, loadedAt: nat, task: Task)
    | CheckAssignee(actor: Id, patch: Patch, loadedAt: nat, roleAt: nat, task: Task)
    | Swap(actor: Id, patch: Patch, loadedAt: nat, roleAt: nat, task: Task)
    | Flush(teamId: Id, at: nat, response: Response, note: Note)
    | ListRole(actor: Id, filter: TaskFilter)
    | GetGeneration(filter: TaskFilter)
    | GetPage(filter: TaskFilter, gen: int, probedAt: nat, dirty: set<nat>)
    | RunQuery(filter: TaskFilter, captured: Option<int>)
    | SetGeneration(filter: TaskFilter, page: TaskPage, readAt: nat)
    | SetPage(filter: TaskFilter, page: TaskPage, origin: Origin)
    | Finished(response: Response, note: Note)

  /** The whole system. The trace holds every database state so far, the last one being current;
      writes maps the trace positions of task writes to their teams, and flushed holds those whose
      Invalidate has succeeded. The code has captures false; true stands for a variant that is not the
      code, in which Set uses the generation that Get has read instead of reading it again. */
  datatype Sys = Sys(
    trace: seq<DB>, redis: Keyspace<Stored>, reqs: map<nat, Req>, writes: map<nat, Id>, flushed: set<nat>,
    captures: bool)

  datatype Event =
    | Register(user: User)
    | Start(r: nat, op: Op)
    | Advance(r: nat, redisOk: bool, clock: Time, now: Time)
    | Lapse(key: string)

  const INITIAL := Sys([EMPTY_DB], map[], map[], map[], {}, false)
  const VARIANT := INITIAL.(captures := true)

  function Now(s: Sys): DB
    requires s.trace != []
  {
    s.trace[|s.trace| - 1]
  }

  function Goto(s: Sys, r: nat, q: Req): Sys {
    s.(reqs := s.reqs[r := q])
  }

  function Fails(s: Sys, r: nat, fault: Fault): Sys {
    Goto(s, r, Finished(Failed(fault), Plain))
  }

  function Commits(s: Sys, r: nat, db: DB, q: Req): Sys {
    Goto(s, r, q).(trace := s.trace + [db])
  }

  /** Commits a task write of the team; the request goes on to invalidate the team's pages. */
  function CommitsTask(s: Sys, r: nat, db: DB, team: Id, response: Response, note: Note): Sys {
    var at := |s.trace|;
    Commits(s, r, db, Flush(team, at, response, note)).(writes := s.writes[at := team])
  }

  /** The writes of a team up to now that no Invalidate has followed yet. */
  function Dirty(writes: map<nat, Id>, flushed: set<nat>, team: Id): set<nat> {
    set w | w in writes && writes[w] == team && w !in flushed
  }

  /** The writes of a team after a position that an Invalidate has followed already. */
  function Late(writes: map<nat, Id>, flushed: set<nat>, team: Id, readAt: nat): set<nat> {
    set w | w in writes && writes[w] == team && w > readAt && w in flushed
  }

  /** The first step of a validated request. */
  function Opening(op: Op): Option<Req> {
    match op
    case CreateTeam(actor, name) =>
      (match NormalizeTeamName(name)
       case Ok(n) => Some(TeamInsert(actor, n))
       case Err(f) => Some(Finished(Failed(f), Plain)))
    case InviteMember(actor, team, invite) =>
      (match ValidateInvite(WithRole(invite))
       case Pass => Some(InviteActor(actor, team, WithRole(invite)))
       case Fail(f) => Some(Finished(Failed(f), Plain)))
    case ChangeMemberRole(actor, team, user, role) =>
      if role.Valid() then Some(RoleActor(actor, team, user, role))
      else Some(Finished(Failed(Invalid("unknown role")), Plain))
    case CreateTask(actor, request) =>
      (match ValidateCreation(request)
       case Pass => Some(NewActor(RowFor(actor, request)))
       case Fail(f) => Some(Finished(Failed(f), Plain)))
    case UpdateTask(actor, task, patch) =>
      (match Validate(patch)
       case Pass => Some(Load(actor, task, patch))
       case Fail(f) => Some(Finished(Failed(f), Plain)))
    case ListTasks(actor, filter) =>
      (match ValidateFilter(filter)
       case Pass => Some(ListRole(actor, NormalizeFilter(filter)))
       case Fail(f) => Some(Finished(Failed(f), Plain)))
    case _ => None
  }

  /** What a step on teams leads to: perhaps a new database state, and the request's next place. The
      step runs on the state at trace position pos. */
  datatype Outcome = Stay(next: Req) | Write(db: DB, next: Req)

  function Refuse(fault: Fault): Outcome {
    Stay(Finished(Failed(fault), Plain))
  }

  function TeamOutcome(db: DB, q: Req, pos: nat, now: Time): Outcome {
    match q
    case TeamInsert(actor, name) =>
      (match InsertTeam(db, name, actor, now)
       case (after, Ok(team)) => Write(after, Finished(TeamIs(team), Founded(Founding(actor, name, pos + 1, now))))
       case (_, Err(_)) => Refuse(Unauthorized))
    case InviteActor(actor, team, invite) =>
      (match Membership(db, team, actor)
       case Err(f) => Refuse(f)
       case Ok(member) =>
         match AuthorizeInvite(member, invite.role)
         case Fail(f) => Refuse(f)
         case Pass => Stay(InviteUser(actor, team, invite, pos)))
    case InviteUser(actor, team, invite, roleAt) =>
      (match ResolveInvitee(db, invite)
       case Err(f) => Refuse(f)
       case Ok(user) => Stay(InviteInsert(actor, team, invite, user.id, roleAt)))
    case InviteInsert(actor, team, invite, user, roleAt) =>
      (match InsertMember(db, team, user, invite.role)
       case (after, Ok(_)) =>
         Write(after, Finished(MemberIs(team, user, invite.role),
                               Enrolled(Enrolment(actor, team, user, invite.role, true, roleAt, pos + 1))))
       case (_, Err(AlreadyExists)) => Refuse(AlreadyMember(user, team))
       case (_, Err(_)) => Refuse(Internal))
    case RoleActor(actor, team, user, role) =>
      (match Membership(db, team, actor)
       case Err(f) => Refuse(f)
       case Ok(member) => Stay(RoleTarget(actor, team, user, role, member.role, pos)))
    case RoleTarget(actor, team, user, role, actorRole, roleAt) =>
      (match SelectRole(db, team, user)
       case Err(_) => Refuse(MemberNotFound(user, team))
       case Ok(target) =>
         match AuthorizeRoleChange(Actor(actor, actorRole), target, role)
         case Fail(f) => Refuse(f)
         case Pass => Stay(RoleWrite(actor, team, user, role, roleAt)))
    case RoleWrite(actor, team, user, role, roleAt) =>
      (match SetRole(db, team, user, role)
       case (after, Ok(_)) =>
         Write(after, Finished(MemberIs(team, user, role),
                               Enrolled(Enrolment(actor, team, user, role, false, roleAt, pos + 1))))
       case (_, Err(_)) => Refuse(Internal))
    case _ => Stay(q)
  }

  function AdvanceTeams(s: Sys, r: nat, q: Req, now: Time): (t: Sys)
    requires s.trace != []
    ensures s.trace <= t.trace
  {
    match TeamOutcome(Now(s), q, |s.trace| - 1, now)
    case Stay(next) => Goto(s, r, next)
    case Write(after, next) => Commits(s, r, after, next)
  }

  function AdvanceCreation(s: Sys, r: nat, q: Req, clock: Time, now: Time): (t: Sys)
    requires s.trace != []
    ensures s.trace <= t.trace
  {
    var db := Now(s);
    match q
    case NewActor(row) =>
      (match Membership(db, row.teamId, row.createdBy)
       case Err(f) => Fails(s, r, f)
       case Ok(_) => Goto(s, r, if row.assignee.Some? then NewAssignee(row) else NewInsert(row)))
    case NewAssignee(row) =>
      (match AssigneeInTeam(db, row.teamId, row.assignee)
       case Fail(f) => Fails(s, r, f)
       case Pass => Goto(s, r, NewInsert(row)))
    case NewInsert(row) =>
      (match InsertTask(db, row, clock, now)
       case (after, Ok(task)) =>
         CommitsTask(s, r, after, task.teamId, TaskIs(task), Created(Creation(row, |s.trace|, clock, now)))
       case (_, Err(_)) => Fails(s, r, Internal))
    case _ => s
  }

  /** Where an update goes once it knows the actor's role. */
  function AfterPlan(member: Actor, patch: Patch, loadedAt: nat, roleAt: nat, task: Task): Req {
    match PlanUpdate(member, task, patch)
    case Err(f) => Finished(Failed(f), Plain)
    case Ok(changes) =>
      if changes == map[] then Finished(TaskIs(task), Unchanged(patch, loadedAt))
      else if Applied(task, changes).assignee.Some? then
        CheckAssignee(member.userId, patch, loadedAt, roleAt, task)
      else Swap(member.userId, patch, loadedAt, roleAt, task)
  }

  function AdvanceUpdate(s: Sys, r: nat, q: Req, clock: Time, now: Time): (t: Sys)
    requires s.trace != []
    ensures s.trace <= t.trace
  {
    var db := Now(s);
    match q
    case Load(actor, taskId, patch) =>
      (match SelectTask(db, taskId)
       case Err(_) => Fails(s, r, TaskNotFound(taskId))
       case Ok(task) => Goto(s, r, LoadRole(actor, patch, |s.trace| - 1, task)))
    case LoadRole(actor, patch, loadedAt, task) =>
      (match Membership(db, task.teamId, actor)
       case Err(_) => Fails(s, r, TaskNotFound(task.id))
       case Ok(member) => Goto(s, r, AfterPlan(member, patch, loadedAt, |s.trace| - 1, task)))
    case CheckAssignee(actor, patch, loadedAt, roleAt, task) =>
      (match AssigneeInTeam(db, task.teamId, Applied(task, DiffOf(task, patch)).assignee)
       case Fail(f) => Fails(s, r, f)
       case Pass => Goto(s, r, Swap(actor, patch, loadedAt, roleAt, task)))
    case Swap(actor, patch, loadedAt, roleAt, task) =>
      var changes := DiffOf(task, patch);
      (match CompareAndSwap(db, task.id, task.version, UpdateFor(task, changes, clock), actor, changes, clock, now)
       case (after, Ok(saved)) =>
         CommitsTask(s, r, after, saved.teamId, TaskIs(saved),
                     Updated(Commit(actor, task.id, patch, loadedAt, roleAt, |s.trace|, clock, now)))
       case (_, Err(VersionConflict)) => Fails(s, r, LostRace)
       case (_, Err(_)) => Fails(s, r, Internal))
    case _ => s
  }

  /** INCR of the team's generation; if Redis fails the error is only logged. */
  function AdvanceFlush(s: Sys, r: nat, q: Req, redisOk: bool): (t: Sys)
    ensures s.trace == t.trace
  {
    match q
    case Flush(teamId, at, response, note) =>
      var done := Goto(s, r, Finished(response, note));
      if redisOk then done.(redis := Increment(s.redis, teamId), flushed := s.flushed + {at}) else done
    case _ => s
  }

  /** Where a list request goes with the page it has read now. */
  function AfterQuery(s: Sys, filter: TaskFilter, page: TaskPage, captured: Option<int>): Req
    requires s.trace != []
  {
    var readAt := |s.trace| - 1;
    if !s.captures then SetGeneration(filter, page, readAt)
    else if captured.Some? then SetPage(filter, page, Origin(filter, captured.value, readAt, {}))
    else Finished(PageIs(page), Queried(filter, readAt))
  }

  function AdvanceList(s: Sys, r: nat, q: Req, redisOk: bool): (t: Sys)
    requires s.trace != []
    ensures s.trace <= t.trace
  {
    match q
    case ListRole(actor, filter) =>
      (match Membership(Now(s), filter.teamId, actor)
       case Err(f) => Fails(s, r, f)
       case Ok(_) => Goto(s, r, GetGeneration(filter)))
    case GetGeneration(filter) =>
      (match Generation(s.redis, filter.teamId)
       case Ok(gen) =>
         if redisOk then Goto(s, r, GetPage(filter, gen, |s.trace| - 1, Dirty(s.writes, s.flushed, filter.teamId)))
         else Goto(s, r, RunQuery(filter, None))
       case Err(_) => Goto(s, r, RunQuery(filter, None)))
    case GetPage(filter, gen, probedAt, dirty) =>
      var miss := RunQuery(filter, if s.captures then Some(gen) else None);
      (match Lookup(s.redis, filter, gen)
       case Some(hit) =>
         if redisOk then
           Goto(s, r, Finished(PageIs(hit.page), Served(filter, hit.origin, probedAt, |s.trace| - 1, dirty)))
         else Goto(s, r, miss)
       case None => Goto(s, r, miss))
    case RunQuery(filter, captured) =>
      if filter.limit < 0 || filter.offset < 0 then Fails(s, r, Internal)
      else
        var page := TaskPage(Query(Now(s), filter), filter.limit, filter.offset);
        Goto(s, r, AfterQuery(s, filter, page, captured))
    case SetGeneration(filter, page, readAt) =>
      (match Generation(s.redis, filter.teamId)
       case Ok(gen) =>
         if redisOk then
           var late := Late(s.writes, s.flushed, filter.teamId, readAt);
           Goto(s, r, SetPage(filter, page, Origin(filter, gen, readAt, late)))
         else Goto(s, r, Finished(PageIs(page), Queried(filter, readAt)))
       case Err(_) => Goto(s, r, Finished(PageIs(page), Queried(filter, readAt))))
    case SetPage(filter, page, origin) =>
      var done := Goto(s, r, Finished(PageIs(page), Queried(filter, origin.readAt)));
      if redisOk then done.(redis := Redis.Store(s.redis, filter, origin.gen, Stored(page, origin))) else done
    case _ => s
  }

  predicate ListStep(q: Req) {
    q.ListRole? || q.GetGeneration? || q.GetPage? || q.RunQuery? || q.SetGeneration? || q.SetPage?
  }

  /** One event. An event that is not possible in the state changes nothing. */
  function Do(s: Sys, e: Event): (t: Sys)
    requires s.trace != []
    ensures s.trace <= t.trace
  {
    match e
    case Register(user) => s.(trace := s.trace + [InsertUser(Now(s), user)])
    case Start(r, op) =>
      if r in s.reqs || Opening(op).None? then s else Goto(s, r, Opening(op).value)
    case Advance(r, redisOk, clock, now) =>
      if r !in s.reqs then s
      else
        var q := s.reqs[r];
        if q.NewActor? || q.NewAssignee? || q.NewInsert? then AdvanceCreation(s, r, q, clock, now)
        else if q.Load? || q.LoadRole? || q.CheckAssignee? || q.Swap? then AdvanceUpdate(s, r, q, clock, now)
        else if q.Flush? then AdvanceFlush(s, r, q, redisOk)
        else if ListStep(q) then AdvanceList(s, r, q, redisOk)
        else AdvanceTeams(s, r, q, now)
    case Lapse(key) => s.(redis := Expire(s.redis, key))
  }

  /** The state after a run of events. */
  function RunFrom(start: Sys, events: seq<Event>): (s: Sys)
    requires start.trace != []
    ensures s.trace != []
  {
    if events == [] then start
    else Do(RunFrom(start, events[..|events| - 1]), events[|events| - 1])
  }

  /** The state after a run of the code. */
  function Run(events: seq<Event>): (s: Sys)
    ensures s.trace != []
  {
    RunFrom(INITIAL, events)
  }
}
