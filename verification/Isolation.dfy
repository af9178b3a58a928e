/** Outsiders cannot tell: for users who do not belong to a team, every request does and answers what it
    would if the team, its members, tasks and history did not exist. */
module Isolation {
  import opened Outcomes
  import opened Domain
  import opened TaskPatch
  import opened TaskLog
  import opened Database
  import opened Operations
  import opened Execution
  import opened Listings

  predicate Hidden(tasks: map<Id, Task>, team: Id, task: Id) {
    task in tasks && tasks[task].teamId == team
  }

  function VisibleHistory(history: seq<HistoryEntry>, tasks: map<Id, Task>, team: Id): seq<HistoryEntry> {
    if history == [] then []
    else
      var e := history[|history| - 1];
      VisibleHistory(history[..|history| - 1], tasks, team) + (if Hidden(tasks, team, e.taskId) then [] else [e])
  }

  function VisibleMembers(members: map<(Id, Id), Role>, team: Id): map<(Id, Id), Role> {
    map m | m in members && m.0 != team :: members[m]
  }

  function VisibleTasks(tasks: map<Id, Task>, team: Id): map<Id, Task> {
    map t | t in tasks && tasks[t].teamId != team :: tasks[t]
  }

  /** The database without a team; the counters of the automatic ids stay. */
  function Without(db: DB, team: Id): DB {
    db.(teams := db.teams - {team}, members := VisibleMembers(db.members, team),
        tasks := VisibleTasks(db.tasks, team), history := VisibleHistory(db.history, db.tasks, team))
  }

  lemma {:induction false} VisibleExact(history: seq<HistoryEntry>, tasks: map<Id, Task>, team: Id)
    requires forall i, j :: 0 <= i < j < |history| ==> history[i].id < history[j].id
    ensures var seen := VisibleHistory(history, tasks, team);
            && (forall e :: e in seen <==>
                  e in history && !(e.taskId in tasks && tasks[e.taskId].teamId == team))
            && (forall i, j :: 0 <= i < j < |seen| ==> seen[i].id < seen[j].id)
  {
    if history != [] {
      var n := |history| - 1;
      VisibleExact(history[..n], tasks, team);
      assert forall e :: e in history <==> e in history[..n] || e == history[n];
      assert forall e :: e in history[..n] ==> e.id < history[n].id;
    }
  }

  /** What is removed with a team, and that nothing else is: the team, its members, its tasks and their history. */
  lemma WithoutExact(db: DB, team: Id)
    requires Keyed(db)
    ensures var rest := Without(db, team);
            && (forall t :: t in rest.teams <==> t in db.teams && t != team)
            && (forall t :: t in rest.teams ==> rest.teams[t] == db.teams[t])
            && (forall m :: m in rest.members <==> m in db.members && m.0 != team)
            && (forall m :: m in rest.members ==> rest.members[m] == db.members[m])
            && (forall id :: id in rest.tasks <==> id in db.tasks && db.tasks[id].teamId != team)
            && (forall id :: id in rest.tasks ==> rest.tasks[id] == db.tasks[id])
            && (forall e :: e in rest.history <==>
                  e in db.history && !(e.taskId in db.tasks && db.tasks[e.taskId].teamId == team))
            && (forall i, j :: 0 <= i < j < |rest.history| ==> rest.history[i].id < rest.history[j].id)
            && rest.users == db.users && rest.emails == db.emails
            && (rest.nextTeam, rest.nextTask, rest.nextEntry) == (db.nextTeam, db.nextTask, db.nextEntry)
  {
    VisibleExact(db.history, db.tasks, team);
  }

  /** The user does not belong to the team, and the team's id is not still to be given out. */
  predicate Outsider(db: DB, team: Id, user: Id) {
    !IsMember(db, team, user) && team < db.nextTeam
  }

  function ActorOf(op: Op): Id {
    match op
    case CreateTeam(actor, _) => actor
    case InviteMember(actor, _, _) => actor
    case ChangeMemberRole(actor, _, _, _) => actor
    case CreateTask(actor, _) => actor
    case UpdateTask(actor, _, _) => actor
    case ListTasks(actor, _) => actor
    case TaskHistory(actor, _) => actor
    case ListTeams(actor) => actor
    case TeamStats(actor, _) => actor
  }

  // ---------- reads ----------

  lemma SameRole(db: DB, team: Id, other: Id, user: Id)
    requires other != team
    ensures SelectRole(Without(db, team), other, user) == SelectRole(db, other, user)
  {
  }

  lemma SameMembership(db: DB, team: Id, other: Id, user: Id)
    requires other != team || !IsMember(db, team, user)
    ensures Membership(Without(db, team), other, user) == Membership(db, other, user)
    ensures other == team ==> Membership(db, other, user).Err?
  {
    if other != team {
      SameRole(db, team, other, user);
    }
  }

  /** A task of the team is as missing for an outsider as one that does not exist. */
  lemma SameTask(db: DB, team: Id, task: Id, user: Id)
    requires !IsMember(db, team, user)
    ensures TaskForMember(Without(db, team), task, user) == TaskForMember(db, task, user)
    ensures TaskForMember(db, task, user).Ok? ==> task in db.tasks && db.tasks[task].teamId != team
  {
    if task in db.tasks {
      SameMembership(db, team, db.tasks[task].teamId, user);
    }
  }

  lemma SameAssignee(db: DB, team: Id, other: Id, assignee: Option<Id>)
    requires other != team
    ensures AssigneeInTeam(Without(db, team), other, assignee) == AssigneeInTeam(db, other, assignee)
  {
    if assignee.Some? {
      SameRole(db, team, other, assignee.value);
    }
  }

  lemma SameListing(db: DB, team: Id, f: TaskFilter)
    requires f.teamId != team && f.limit >= 0 && f.offset >= 0
    ensures Query(Without(db, team), f) == Query(db, f)
  {
    assert SameTable(Without(db, team), db, f.teamId);
    SameRows(Without(db, team), db, f, if db.nextTask == 0 then 0 else db.nextTask - 1);
  }

  lemma {:induction false} SameHistory(history: seq<HistoryEntry>, tasks: map<Id, Task>, team: Id, task: Id)
    requires !Hidden(tasks, team, task)
    ensures NewestFirst(VisibleHistory(history, tasks, team), task) == NewestFirst(history, task)
  {
    if history != [] {
      var e, past := history[|history| - 1], history[..|history| - 1];
      SameHistory(past, tasks, team, task);
      assert history == past + [e];
      NewestAppended(past, e, task);
      NewestAppended(VisibleHistory(past, tasks, team), e, task);
      if Hidden(tasks, team, e.taskId) {
        assert VisibleHistory(history, tasks, team) == VisibleHistory(past, tasks, team);
      }
    }
  }

  lemma {:induction false} SameTeams(db: DB, team: Id, user: Id, n: nat)
    requires !IsMember(db, team, user)
    ensures TeamRows(Without(db, team), user, n) == TeamRows(db, user, n)
  {
    if n != 0 {
      SameTeams(db, team, user, n - 1);
    }
  }

  lemma SameScope(db: DB, team: Id, other: Id)
    requires other != team
    ensures ScopeOf(Without(db, team), other) == ScopeOf(db, other)
  {
  }

  // ---------- writes ----------

  lemma {:induction false} HistoryUnmoved(history: seq<HistoryEntry>, a: map<Id, Task>, b: map<Id, Task>, team: Id)
    requires forall k :: 0 <= k < |history| ==>
               (Hidden(a, team, history[k].taskId) <==> Hidden(b, team, history[k].taskId))
    ensures VisibleHistory(history, a, team) == VisibleHistory(history, b, team)
  {
    if history != [] {
      HistoryUnmoved(history[..|history| - 1], a, b, team);
    }
  }

  /** Writing a task of another team commutes with hiding the team. */
  lemma WriteElsewhere(db: DB, team: Id, task: Task, e: HistoryEntry, nextTask: nat)
    requires task.teamId != team && e.taskId == task.id
    requires task.id in db.tasks ==> db.tasks[task.id].teamId != team
    ensures TaskWritten(Without(db, team), task, e, nextTask) == Without(TaskWritten(db, task, e, nextTask), team)
  {
    var after := db.tasks[task.id := task];
    HistoryUnmoved(db.history, db.tasks, after, team);
    assert (db.history + [e])[..|db.history|] == db.history;
    assert VisibleTasks(after, team) == VisibleTasks(db.tasks, team)[task.id := task];
  }

  lemma MemberElsewhere(db: DB, team: Id, other: Id, user: Id, role: Role)
    requires other != team
    ensures VisibleMembers(db.members[(other, user) := role], team) ==
            VisibleMembers(db.members, team)[(other, user) := role]
  {
  }

  lemma InsertMemberElsewhere(db: DB, team: Id, other: Id, user: Id, role: Role)
    requires other != team
    ensures var (after, res) := InsertMember(db, other, user, role);
            InsertMember(Without(db, team), other, user, role) == (Without(after, team), res)
  {
    MemberElsewhere(db, team, other, user, role);
  }

  lemma SetRoleElsewhere(db: DB, team: Id, other: Id, user: Id, role: Role)
    requires other != team
    ensures var (after, res) := SetRole(db, other, user, role);
            SetRole(Without(db, team), other, user, role) == (Without(after, team), res)
  {
    MemberElsewhere(db, team, other, user, role);
  }

  lemma InsertTeamElsewhere(db: DB, team: Id, name: string, author: Id, now: Time)
    requires team < db.nextTeam
    ensures var (after, res) := InsertTeam(db, name, author, now);
            InsertTeam(Without(db, team), name, author, now) == (Without(after, team), res)
  {
    MemberElsewhere(db, team, db.nextTeam, author, Role.Owner);
    var created := Team(db.nextTeam, name, author, now);
    assert db.teams[created.id := created] - {team} == (db.teams - {team})[created.id := created];
  }

  lemma InsertTaskElsewhere(db: DB, team: Id, t: NewTask, clock: Time, now: Time)
    requires db.nextTask !in db.tasks && t.teamId != team
    ensures var (after, res) := InsertTask(db, t, clock, now);
            InsertTask(Without(db, team), t, clock, now) == (Without(after, team), res)
  {
    if InsertTask(db, t, clock, now).1.Ok? {
      var task := CreatedRow(db.nextTask, t, clock, now);
      WriteElsewhere(db, team, task, Entry(db, task.id, t.createdBy, CreationDiff(task), clock, now), db.nextTask + 1);
    }
  }

  lemma SwapElsewhere(db: DB, team: Id, id: Id, expected: int, upd: TaskUpdate, author: Id, changes: Changes,
                      clock: Time, now: Time)
    requires id in db.tasks && db.tasks[id].id == id && db.tasks[id].teamId != team
    ensures var (after, res) := CompareAndSwap(db, id, expected, upd, author, changes, clock, now);
            CompareAndSwap(Without(db, team), id, expected, upd, author, changes, clock, now) ==
            (Without(after, team), res)
  {
    var task := UpdatedRow(db.tasks[id], upd, now);
    WriteElsewhere(db, team, task, Entry(db, id, author, changes, clock, now), db.nextTask);
  }

  // ---------- requests ----------

  /** The request does and answers the same whether or not the team exists. */
  predicate Blind(db: DB, team: Id, op: Op, clock: Time, now: Time) {
    var (after, response) := Exec(db, op, clock, now);
    Exec(Without(db, team), op, clock, now) == (Without(after, team), response)
  }

  lemma InviteElsewhere(db: DB, team: Id, actor: Id, other: Id, invite: InviteRequest)
    requires other != team
    ensures var (after, response) := ExecInvite(db, actor, other, invite);
            ExecInvite(Without(db, team), actor, other, invite) == (Without(after, team), response)
  {
    hide Membership, InsertMember, ValidateInvite, AuthorizeInvite;
    SameMembership(db, team, other, actor);
    assert ResolveInvitee(Without(db, team), invite) == ResolveInvitee(db, invite);
    if ResolveInvitee(db, invite).Ok? {
      InsertMemberElsewhere(db, team, other, ResolveInvitee(db, invite).value.id, invite.role);
    }
  }

  lemma InviteBlind(db: DB, team: Id, actor: Id, other: Id, invite: InviteRequest)
    requires Outsider(db, team, actor)
    ensures var (after, response) := ExecInvite(db, actor, other, invite);
            ExecInvite(Without(db, team), actor, other, invite) == (Without(after, team), response)
  {
    hide ResolveInvitee, InsertMember, ValidateInvite, AuthorizeInvite;
    if other != team {
      InviteElsewhere(db, team, actor, other, invite);
    } else {
      SameMembership(db, team, other, actor);
    }
  }

  lemma RoleChangeBlind(db: DB, team: Id, actor: Id, other: Id, user: Id, role: Role)
    requires Outsider(db, team, actor)
    ensures var (after, response) := ExecRoleChange(db, actor, other, user, role);
            ExecRoleChange(Without(db, team), actor, other, user, role) == (Without(after, team), response)
  {
    SameMembership(db, team, other, actor);
    if other != team {
      SameRole(db, team, other, user);
      SetRoleElsewhere(db, team, other, user, role);
    }
  }

  lemma CreateTaskBlind(db: DB, team: Id, actor: Id, request: NewTaskRequest, clock: Time, now: Time)
    requires Keyed(db) && Outsider(db, team, actor)
    ensures var (after, response) := ExecCreateTask(db, actor, request, clock, now);
            ExecCreateTask(Without(db, team), actor, request, clock, now) == (Without(after, team), response)
  {
    SameMembership(db, team, request.teamId, actor);
    if request.teamId != team {
      SameAssignee(db, team, request.teamId, request.assignee);
      InsertTaskElsewhere(db, team, RowFor(actor, request), clock, now);
    }
  }

  lemma SwapBlind(db: DB, team: Id, actor: Id, id: Id, patch: Patch, task: Task, member: Actor, clock: Time, now: Time)
    requires Validate(patch).Pass? && TaskForMember(db, id, actor) == Ok((task, member))
    requires TaskForMember(Without(db, team), id, actor) == Ok((task, member))
    requires id in db.tasks && db.tasks[id].id == id && db.tasks[id].teamId != team
    requires PlanUpdate(member, task, patch).Ok? && DiffOf(task, patch) != map[]
    requires AssigneeInTeam(db, task.teamId, Applied(task, DiffOf(task, patch)).assignee).Pass?
    ensures var (after, response) := ExecUpdateTask(db, actor, id, patch, clock, now);
            ExecUpdateTask(Without(db, team), actor, id, patch, clock, now) == (Without(after, team), response)
  {
    var changes := DiffOf(task, patch);
    var upd := UpdateFor(task, changes, clock);
    SameAssignee(db, team, task.teamId, Applied(task, changes).assignee);
    UpdateReachesStore(db, actor, id, patch, task, member, clock, now);
    UpdateReachesStore(Without(db, team), actor, id, patch, task, member, clock, now);
    SwapElsewhere(db, team, id, task.version, upd, actor, changes, clock, now);
    SameSwapAnswer(db, team, CompareAndSwap(db, id, task.version, upd, actor, changes, clock, now));
  }

  lemma SameSwapAnswer(db: DB, team: Id, swap: (DB, Result<Task, StoreError>))
    ensures var (after, response) := SwapAnswer(db, swap);
            SwapAnswer(Without(db, team), (Without(swap.0, team), swap.1)) == (Without(after, team), response)
  {
  }

  /** An update that is refused before its transaction changes nothing, and is refused alike. */
  lemma RefusalBlind(db: DB, team: Id, actor: Id, id: Id, patch: Patch, clock: Time, now: Time)
    requires TaskForMember(Without(db, team), id, actor) == TaskForMember(db, id, actor)
    requires TaskForMember(db, id, actor).Ok? ==>
               var (task, member) := TaskForMember(db, id, actor).value;
               var plan := PlanUpdate(member, task, patch);
               plan.Err? || plan.value == map[]
               || (AssigneeInTeam(db, task.teamId, Applied(task, plan.value).assignee).Fail?
                   && AssigneeInTeam(Without(db, team), task.teamId, Applied(task, plan.value).assignee) ==
                      AssigneeInTeam(db, task.teamId, Applied(task, plan.value).assignee))
    ensures var response := ExecUpdateTask(db, actor, id, patch, clock, now).1;
            && ExecUpdateTask(db, actor, id, patch, clock, now).0 == db
            && ExecUpdateTask(Without(db, team), actor, id, patch, clock, now) == (Without(db, team), response)
  {
  }

  lemma UpdateTaskBlind(db: DB, team: Id, actor: Id, id: Id, patch: Patch, clock: Time, now: Time)
    requires id in db.tasks ==> db.tasks[id].id == id
    requires Outsider(db, team, actor)
    ensures var (after, response) := ExecUpdateTask(db, actor, id, patch, clock, now);
            ExecUpdateTask(Without(db, team), actor, id, patch, clock, now) == (Without(after, team), response)
  {
    SameTask(db, team, id, actor);
    if Validate(patch).Pass? && TaskForMember(db, id, actor).Ok? {
      var (task, member) := TaskForMember(db, id, actor).value;
      if PlanUpdate(member, task, patch).Ok? {
        PlannedUpdate(member, task, patch);
        var assignee := Applied(task, DiffOf(task, patch)).assignee;
        SameAssignee(db, team, task.teamId, assignee);
        if DiffOf(task, patch) != map[] && AssigneeInTeam(db, task.teamId, assignee).Pass? {
          SwapBlind(db, team, actor, id, patch, task, member, clock, now);
        } else {
          RefusalBlind(db, team, actor, id, patch, clock, now);
        }
      }
    }
  }

  lemma ListBlind(db: DB, team: Id, actor: Id, filter: TaskFilter)
    requires Outsider(db, team, actor)
    ensures ExecListTasks(Without(db, team), actor, filter) == ExecListTasks(db, actor, filter)
  {
    SameMembership(db, team, filter.teamId, actor);
    if filter.teamId != team {
      SameListing(db, team, NormalizeFilter(filter));
    }
  }

  lemma HistoryBlind(db: DB, team: Id, actor: Id, task: Id)
    requires Outsider(db, team, actor)
    ensures ExecHistory(Without(db, team), actor, task) == ExecHistory(db, actor, task)
  {
    SameTask(db, team, task, actor);
    if TaskForMember(db, task, actor).Ok? {
      SameHistory(db.history, db.tasks, team, task);
    }
  }

  lemma StatsBlind(db: DB, team: Id, actor: Id, other: Id)
    requires Outsider(db, team, actor)
    ensures ExecStats(Without(db, team), actor, other) == ExecStats(db, actor, other)
  {
    SameMembership(db, team, other, actor);
    if other != team {
      SameScope(db, team, other);
    }
  }

  lemma TeamsBlind(db: DB, team: Id, actor: Id)
    requires Outsider(db, team, actor)
    ensures TeamsOf(Without(db, team), actor) == TeamsOf(db, actor)
  {
    SameTeams(db, team, actor, if db.nextTeam == 0 then 0 else db.nextTeam - 1);
  }

  lemma ReadBlind(db: DB, team: Id, op: Op, clock: Time, now: Time)
    requires Outsider(db, team, ActorOf(op)) && Reads(op)
    ensures Blind(db, team, op, clock, now)
  {
    match op
    case ListTasks(actor, filter) => ListBlind(db, team, actor, filter);
    case TaskHistory(actor, task) => HistoryBlind(db, team, actor, task);
    case ListTeams(actor) => TeamsBlind(db, team, actor);
    case TeamStats(actor, other) => StatsBlind(db, team, actor, other);
  }

  /** Every request of an outsider, whatever it addresses, is answered as if the team, its members, its
      tasks and their history did not exist, and changes nothing of them. */
  lemma OutsiderCannotTell(db: DB, team: Id, op: Op, clock: Time, now: Time)
    requires Keyed(db) && Outsider(db, team, ActorOf(op))
    ensures Blind(db, team, op, clock, now)
  {
    match op
    case CreateTeam(actor, name) =>
      if NormalizeTeamName(name).Ok? {
        InsertTeamElsewhere(db, team, NormalizeTeamName(name).value, actor, now);
      }
    case InviteMember(actor, other, invite) => InviteBlind(db, team, actor, other, WithRole(invite));
    case ChangeMemberRole(actor, other, user, role) => RoleChangeBlind(db, team, actor, other, user, role);
    case CreateTask(actor, request) => CreateTaskBlind(db, team, actor, request, clock, now);
    case UpdateTask(actor, task, patch) => UpdateTaskBlind(db, team, actor, task, patch, clock, now);
    case _ => ReadBlind(db, team, op, clock, now);
  }

  // ---------- whole runs ----------

  datatype Call = Call(op: Op, clock: Time, now: Time)

  function AfterAll(db: DB, calls: seq<Call>): DB
    decreases |calls|
  {
    if calls == [] then db
    else AfterAll(Exec(db, calls[0].op, calls[0].clock, calls[0].now).0, calls[1..])
  }

  function Responses(db: DB, calls: seq<Call>): seq<Response>
    decreases |calls|
  {
    if calls == [] then []
    else
      var (after, response) := Exec(db, calls[0].op, calls[0].clock, calls[0].now);
      [response] + Responses(after, calls[1..])
  }

  lemma InviteLeavesMembers(db: DB, team: Id, actor: Id, other: Id, invite: InviteRequest, u: Id)
    requires Outsider(db, team, actor)
    ensures IsMember(ExecInvite(db, actor, other, invite).0, team, u) <==> IsMember(db, team, u)
  {
  }

  lemma RoleChangeLeavesMembers(db: DB, team: Id, actor: Id, other: Id, user: Id, role: Role, u: Id)
    requires Outsider(db, team, actor)
    ensures IsMember(ExecRoleChange(db, actor, other, user, role).0, team, u) <==> IsMember(db, team, u)
  {
  }

  lemma TaskRequestsLeaveMembers(db: DB, op: Op, clock: Time, now: Time)
    requires op.CreateTask? || op.UpdateTask?
    ensures Exec(db, op, clock, now).0.members == db.members
  {
    match op
    case CreateTask(actor, request) => CreationLeavesMembers(db, actor, request, clock, now);
    case UpdateTask(actor, task, patch) => UpdateLeavesMembers(db, actor, task, patch, clock, now);
  }

  lemma CreationLeavesMembers(db: DB, actor: Id, request: NewTaskRequest, clock: Time, now: Time)
    ensures ExecCreateTask(db, actor, request, clock, now).0.members == db.members
  {
    hide ValidateCreation, RowFor, AssigneeInTeam, Membership, CreationDiff;
  }

  lemma UpdateLeavesMembers(db: DB, actor: Id, id: Id, patch: Patch, clock: Time, now: Time)
    ensures ExecUpdateTask(db, actor, id, patch, clock, now).0.members == db.members
  {
    hide Validate, TaskForMember, PlanUpdate, AssigneeInTeam, Applied, UpdateFor;
  }

  /** An outsider's request brings nobody into the team. */
  lemma OutsiderStays(db: DB, team: Id, op: Op, clock: Time, now: Time, u: Id)
    requires Sound(db) && Outsider(db, team, ActorOf(op)) && !IsMember(db, team, u)
    ensures Sound(Exec(db, op, clock, now).0) && Outsider(Exec(db, op, clock, now).0, team, u)
  {
    ExecKeeps(db, op, clock, now);
    NobodyJoins(db, team, op, clock, now, u);
  }

  lemma NobodyJoins(db: DB, team: Id, op: Op, clock: Time, now: Time, u: Id)
    requires Outsider(db, team, ActorOf(op)) && !IsMember(db, team, u)
    ensures !IsMember(Exec(db, op, clock, now).0, team, u)
  {
    match op
    case InviteMember(actor, other, invite) => InviteLeavesMembers(db, team, actor, other, WithRole(invite), u);
    case ChangeMemberRole(actor, other, user, role) => RoleChangeLeavesMembers(db, team, actor, other, user, role, u);
    case CreateTask(_, _) => TaskRequestsLeaveMembers(db, op, clock, now);
    case UpdateTask(_, _, _) => TaskRequestsLeaveMembers(db, op, clock, now);
    case _ =>
  }

  /** All the calls come from users who are outsiders at the start. */
  predicate FromOutside(db: DB, team: Id, calls: seq<Call>) {
    team < db.nextTeam && forall k :: 0 <= k < |calls| ==> !IsMember(db, team, ActorOf(calls[k].op))
  }

  lemma FirstCall(db: DB, team: Id, calls: seq<Call>)
    requires Sound(db) && FromOutside(db, team, calls) && calls != []
    ensures var c := calls[0];
            var after := Exec(db, c.op, c.clock, c.now).0;
            Blind(db, team, c.op, c.clock, c.now) && Sound(after) && FromOutside(after, team, calls[1..])
  {
    var c := calls[0];
    var after := Exec(db, c.op, c.clock, c.now).0;
    OutsiderCannotTell(db, team, c.op, c.clock, c.now);
    OutsiderStays(db, team, c.op, c.clock, c.now, ActorOf(c.op));
    forall k | 0 <= k < |calls[1..]| ensures !IsMember(after, team, ActorOf(calls[1..][k].op)) {
      NobodyJoins(db, team, c.op, c.clock, c.now, ActorOf(calls[k + 1].op));
    }
  }

  /** Whole runs of requests by outsiders get the same answers on both databases, and leave them related
      in the same way. */
  lemma {:induction false} OutsidersCannotTell(db: DB, team: Id, calls: seq<Call>)
    requires Sound(db) && FromOutside(db, team, calls)
    ensures Responses(Without(db, team), calls) == Responses(db, calls)
    ensures AfterAll(Without(db, team), calls) == Without(AfterAll(db, calls), team)
    decreases |calls|
  {
    if calls != [] {
      FirstCall(db, team, calls);
      OutsidersCannotTell(Exec(db, calls[0].op, calls[0].clock, calls[0].now).0, team, calls[1..]);
    }
  }
}
