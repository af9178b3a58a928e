/** What every interleaving keeps: sound states, requests whose stale knowledge still holds, and a record
    of every write with the request that made it. */
module ProtocolSafety {
  import opened Outcomes
  import opened Domain
  import opened TaskPatch
  import opened Database
  import opened Operations
  import opened Protocol

  /** The task is the row that the state at the given position holds. */
  predicate Snapshot(trace: seq<DB>, at: nat, task: Task) {
    at < |trace| && task.id in trace[at].tasks && trace[at].tasks[task.id] == task
  }

  /** The actor's role in the team at the given position. */
  function RoleAt(trace: seq<DB>, at: nat, team: Id, user: Id): Role
    requires at < |trace| && IsMember(trace[at], team, user)
  {
    trace[at].members[(team, user)]
  }

  /** An update was planned on a row loaded at one position with a role read at a later one: validated, at
      the version that the patch names, not empty, and one that the role entitles to. */
  predicate Planned(trace: seq<DB>, actor: Id, patch: Patch, loadedAt: nat, roleAt: nat, task: Task) {
    && loadedAt <= roleAt < |trace|
    && Snapshot(trace, loadedAt, task)
    && IsMember(trace[roleAt], task.teamId, actor)
    && Entitled(Actor(actor, RoleAt(trace, roleAt, task.teamId, actor)), patch, task)
  }

  predicate Entitled(member: Actor, patch: Patch, task: Task) {
    && Validate(patch).Pass?
    && (patch.version.Some? ==> patch.version.value == task.version)
    && DiffOf(task, patch) != map[] && MayEdit(member, task, DiffOf(task, patch))
  }

  /** The row that the update c makes of the row it replaces. */
  function NewRow(prior: Task, c: Commit): Task {
    var next := Overwritten(prior, c.patch);
    next.(version := prior.version + 1, updatedAt := c.now, closedAt := CloseTimestamp(prior, next.status, c.clock))
  }

  /** The update c leads from one state to the other: it replaces one row, appends one entry with the exact
      changes, and leaves everything else alone. */
  predicate SwapsTo(before: DB, after: DB, c: Commit) {
    && c.task in before.tasks && before.tasks[c.task].id == c.task
    && var prior := before.tasks[c.task];
       && after.tasks == before.tasks[c.task := NewRow(prior, c)]
       && after.history == before.history + [Entry(before, c.task, c.actor, DiffOf(prior, c.patch), c.clock, c.now)]
       && after.users == before.users && after.emails == before.emails
       && after.teams == before.teams && after.members == before.members
       && after.nextTask == before.nextTask
  }

  /** The step to position c.at is the update c: the row it replaced is the very row it had loaded, the
      plan was made on that row, and the new state is the patch applied to that row, at the next version. */
  predicate UpdateCommitted(trace: seq<DB>, c: Commit) {
    && c.roleAt < c.at < |trace|
    && SwapsTo(trace[c.at - 1], trace[c.at], c)
    && PlannedOn(trace, trace[c.at - 1], c)
  }

  predicate PlannedOn(trace: seq<DB>, before: DB, c: Commit)
    requires c.task in before.tasks
  {
    Planned(trace, c.actor, c.patch, c.loadedAt, c.roleAt, before.tasks[c.task])
  }

  predicate AssigneeBelongs(db: DB, team: Id, assignee: Option<Id>) {
    assignee.Some? ==> IsMember(db, team, assignee.value)
  }

  /** A creation by a member, for a member, with presentable content. */
  predicate Insertable(db: DB, row: NewTask) {
    && Presentable(row.title, row.description, row.status) && IsMember(db, row.teamId, row.createdBy)
    && AssigneeBelongs(db, row.teamId, row.assignee)
  }

  /** The step to position c.at is the creation c. */
  predicate CreationCommitted(trace: seq<DB>, c: Creation) {
    && 0 < c.at < |trace|
    && Insertable(trace[c.at - 1], c.row)
    && InsertTask(trace[c.at - 1], c.row, c.clock, c.now) ==
       (trace[c.at], Ok(CreatedRow(trace[c.at - 1].nextTask, c.row, c.clock, c.now)))
  }

  /** The actor could invite members, or change their roles, at the given position. */
  predicate MayEnrol(trace: seq<DB>, actor: Id, team: Id, invites: bool, roleAt: nat) {
    && roleAt < |trace| && IsMember(trace[roleAt], team, actor)
    && var role := RoleAt(trace, roleAt, team, actor);
       role.Owner? || (invites && role.Admin?)
  }

  /** The change of one member's role leads from one state to the other. */
  predicate Enrols(before: DB, after: DB, c: Enrolment) {
    && (c.role.Admin? || c.role.Member?) && c.team in before.teams && c.user in before.users
    && (if c.invited then !IsMember(before, c.team, c.user)
        else IsMember(before, c.team, c.user) && !before.members[(c.team, c.user)].Owner?)
    && after == before.(members := before.members[(c.team, c.user) := c.role])
  }

  /** The step to position c.at is the invitation or role change c, by somebody who could make it at an
      earlier position. */
  predicate EnrolmentCommitted(trace: seq<DB>, c: Enrolment) {
    && c.roleAt < c.at < |trace|
    && MayEnrol(trace, c.actor, c.team, c.invited, c.roleAt)
    && Enrols(trace[c.at - 1], trace[c.at], c)
  }

  /** The step to position c.at creates this team with its owner. */
  predicate FoundingCommitted(trace: seq<DB>, c: Founding, team: Team) {
    && 0 < c.at < |trace|
    && var before, after := trace[c.at - 1], trace[c.at];
       && team.id !in before.teams && team.name == c.name && team.createdBy == c.actor
       && after.teams == before.teams[team.id := team]
       && after.members == before.members[(team.id, c.actor) := Role.Owner]
       && team.createdAt == c.now && after.users == before.users && after.emails == before.emails
       && after.tasks == before.tasks && after.history == before.history
  }

  // ---------- the invariant ----------

  ghost predicate Sounds(trace: seq<DB>) {
    forall i :: 0 <= i < |trace| ==> Sound(trace[i])
  }

  ghost predicate Evolving(trace: seq<DB>) {
    forall i, j :: 0 <= i <= j < |trace| ==> Evolves(trace[i], trace[j])
  }

  ghost predicate TraceOk(trace: seq<DB>) {
    trace != [] && trace[0] == EMPTY_DB && Sounds(trace) && Evolving(trace)
  }

  /** The row of a creation, as the answer shows it. */
  function CreatedTask(trace: seq<DB>, c: Creation): Task
    requires 0 < c.at < |trace|
  {
    CreatedRow(trace[c.at - 1].nextTask, c.row, c.clock, c.now)
  }

  /** A record is true, and the answer fits it. */
  predicate NoteOk(trace: seq<DB>, response: Response, note: Note) {
    match note
    case Founded(c) => response.TeamIs? && FoundingCommitted(trace, c, response.team)
    case Enrolled(c) => EnrolmentCommitted(trace, c) && response == MemberIs(c.team, c.user, c.role)
    case Created(c) => CreationCommitted(trace, c) && response == TaskIs(CreatedTask(trace, c))
    case Updated(c) => UpdateCommitted(trace, c) && response == TaskIs(trace[c.at].tasks[c.task])
    case Unchanged(patch, loadedAt) =>
      && response.TaskIs? && Snapshot(trace, loadedAt, response.task)
      && Overwritten(response.task, patch) == response.task
    case _ => true
  }

  /** What a waiting request may rely on, whatever the others did meanwhile. */
  predicate ReqOk(trace: seq<DB>, q: Req)
    requires trace != []
  {
    var db := trace[|trace| - 1];
    match q
    case InviteUser(actor, team, invite, roleAt) =>
      invite.role.Assignable() && MayEnrol(trace, actor, team, true, roleAt)
    case InviteInsert(actor, team, invite, user, roleAt) =>
      && invite.role.Assignable() && MayEnrol(trace, actor, team, true, roleAt)
      && Named(db, invite, user)
    case RoleTarget(actor, team, _, _, actorRole, roleAt) =>
      roleAt < |trace| && IsMember(trace[roleAt], team, actor) && RoleAt(trace, roleAt, team, actor) == actorRole
    case RoleWrite(actor, team, user, role, roleAt) =>
      && role.Assignable() && IsMember(db, team, user) && !db.members[(team, user)].Owner?
      && MayEnrol(trace, actor, team, false, roleAt)
    case NewActor(row) => Presentable(row.title, row.description, row.status)
    case NewAssignee(row) =>
      Presentable(row.title, row.description, row.status) && IsMember(db, row.teamId, row.createdBy)
    case NewInsert(row) => Insertable(db, row)
    case Load(_, _, patch) => Validate(patch).Pass?
    case LoadRole(_, patch, loadedAt, task) => Validate(patch).Pass? && Snapshot(trace, loadedAt, task)
    case CheckAssignee(actor, patch, loadedAt, roleAt, task) =>
      Planned(trace, actor, patch, loadedAt, roleAt, task)
    case Swap(actor, patch, loadedAt, roleAt, task) =>
      && Planned(trace, actor, patch, loadedAt, roleAt, task)
      && AssigneeBelongs(db, task.teamId, Overwritten(task, patch).assignee)
    case Flush(_, _, response, note) => NoteOk(trace, response, note)
    case Finished(response, note) => NoteOk(trace, response, note)
    case _ => true
  }

  ghost predicate AllReqsOk(trace: seq<DB>, reqs: map<nat, Req>)
    requires trace != []
  {
    forall r :: r in reqs ==> ReqOk(trace, reqs[r])
  }

  function RecordOf(q: Req): Note {
    if q.Flush? || q.Finished? then q.note else Plain
  }

  /** The trace position that the request's write led to, if it has written. */
  function WroteAt(q: Req): Option<nat> {
    match RecordOf(q)
    case Founded(c) => Some(c.at)
    case Enrolled(c) => Some(c.at)
    case Created(c) => Some(c.at)
    case Updated(c) => Some(c.at)
    case _ => None
  }

  predicate Silent(a: DB, b: DB) {
    a.teams == b.teams && a.members == b.members && a.tasks == b.tasks && a.history == b.history
  }

  /** The step to position i registers a user, or some request wrote it. */
  ghost predicate Accounted(trace: seq<DB>, reqs: map<nat, Req>, i: nat)
    requires 0 < i < |trace|
  {
    Silent(trace[i - 1], trace[i]) || exists r :: r in reqs && WroteAt(reqs[r]) == Some(i)
  }

  ghost predicate AllAccounted(trace: seq<DB>, reqs: map<nat, Req>) {
    forall i :: 0 < i < |trace| ==> Accounted(trace, reqs, i)
  }

  ghost predicate AllOk(s: Sys) {
    TraceOk(s.trace) && AllReqsOk(s.trace, s.reqs) && AllAccounted(s.trace, s.reqs)
  }

  // ---------- extending the trace ----------

  lemma CommittedGrows(trace: seq<DB>, db: DB, c: Commit)
    requires UpdateCommitted(trace, c)
    ensures UpdateCommitted(trace + [db], c)
  {
    var grown, before := trace + [db], trace[c.at - 1];
    assert grown[c.at - 1] == before && grown[c.at] == trace[c.at];
    PlannedOnGrows(trace, db, before, c);
  }

  lemma PlannedOnGrows(trace: seq<DB>, db: DB, before: DB, c: Commit)
    requires c.task in before.tasks && PlannedOn(trace, before, c)
    ensures PlannedOn(trace + [db], before, c)
  {
    PlannedGrows(trace, db, c.actor, c.patch, c.loadedAt, c.roleAt, before.tasks[c.task]);
  }

  lemma PlannedGrows(trace: seq<DB>, db: DB, actor: Id, patch: Patch, loadedAt: nat, roleAt: nat, task: Task)
    requires Planned(trace, actor, patch, loadedAt, roleAt, task)
    ensures Planned(trace + [db], actor, patch, loadedAt, roleAt, task)
  {
    assert (trace + [db])[loadedAt] == trace[loadedAt] && (trace + [db])[roleAt] == trace[roleAt];
  }

  lemma CreationGrows(trace: seq<DB>, db: DB, c: Creation)
    requires CreationCommitted(trace, c)
    ensures CreationCommitted(trace + [db], c) && CreatedTask(trace + [db], c) == CreatedTask(trace, c)
  {
    assert (trace + [db])[c.at - 1] == trace[c.at - 1] && (trace + [db])[c.at] == trace[c.at];
  }

  lemma EnrolmentGrows(trace: seq<DB>, db: DB, c: Enrolment)
    requires EnrolmentCommitted(trace, c)
    ensures EnrolmentCommitted(trace + [db], c)
  {
    var grown := trace + [db];
    assert grown[c.at - 1] == trace[c.at - 1] && grown[c.at] == trace[c.at] && grown[c.roleAt] == trace[c.roleAt];
  }

  lemma FoundingGrows(trace: seq<DB>, db: DB, c: Founding, team: Team)
    requires FoundingCommitted(trace, c, team)
    ensures FoundingCommitted(trace + [db], c, team)
  {
    assert (trace + [db])[c.at - 1] == trace[c.at - 1] && (trace + [db])[c.at] == trace[c.at];
  }

  lemma NoteOkGrows(trace: seq<DB>, db: DB, response: Response, note: Note)
    requires NoteOk(trace, response, note)
    ensures NoteOk(trace + [db], response, note)
  {
    match note
    case Founded(c) => FoundingGrows(trace, db, c, response.team);
    case Enrolled(c) => EnrolmentGrows(trace, db, c);
    case Created(c) => CreationGrows(trace, db, c);
    case Updated(c) => CommittedGrows(trace, db, c);
    case _ =>
  }

  lemma UpdateReqGrows(trace: seq<DB>, db: DB, q: Req)
    requires trace != [] && Evolves(trace[|trace| - 1], db) && ReqOk(trace, q)
    requires q.LoadRole? || q.CheckAssignee? || q.Swap?
    ensures ReqOk(trace + [db], q)
  {
    if q.CheckAssignee? || q.Swap? {
      PlannedGrows(trace, db, q.actor, q.patch, q.loadedAt, q.roleAt, q.task);
    }
  }

  lemma TeamReqGrows(trace: seq<DB>, db: DB, q: Req)
    requires trace != [] && Evolves(trace[|trace| - 1], db) && ReqOk(trace, q)
    requires q.InviteUser? || q.InviteInsert? || q.RoleTarget? || q.RoleWrite?
    ensures ReqOk(trace + [db], q)
  {
    assert (trace + [db])[q.roleAt] == trace[q.roleAt];
  }

  lemma ReqOkGrows(trace: seq<DB>, db: DB, q: Req)
    requires trace != [] && Evolves(trace[|trace| - 1], db) && ReqOk(trace, q)
    ensures ReqOk(trace + [db], q)
  {
    if q.Flush? || q.Finished? {
      NoteOkGrows(trace, db, q.response, q.note);
    } else if q.LoadRole? || q.CheckAssignee? || q.Swap? {
      UpdateReqGrows(trace, db, q);
    } else if q.InviteUser? || q.InviteInsert? || q.RoleTarget? || q.RoleWrite? {
      TeamReqGrows(trace, db, q);
    }
  }

  lemma ReqsOkGrow(trace: seq<DB>, db: DB, reqs: map<nat, Req>)
    requires trace != [] && Evolves(trace[|trace| - 1], db) && AllReqsOk(trace, reqs)
    ensures AllReqsOk(trace + [db], reqs)
  {
    forall r | r in reqs ensures ReqOk(trace + [db], reqs[r]) {
      ReqOkGrows(trace, db, reqs[r]);
    }
  }

  lemma EvolvingGrows(trace: seq<DB>, db: DB)
    requires trace != [] && Evolves(trace[|trace| - 1], db) && Evolves(db, db) && Evolving(trace)
    ensures Evolving(trace + [db])
  {
    var grown := trace + [db];
    forall i, j | 0 <= i <= j < |grown| ensures Evolves(grown[i], grown[j]) {
      if i < j == |trace| {
        EvolvesTransitive(trace[i], trace[|trace| - 1], db);
      }
    }
  }

  lemma SoundsGrow(trace: seq<DB>, db: DB)
    requires Sounds(trace) && Sound(db)
    ensures Sounds(trace + [db])
  {
  }

  lemma TraceGrows(trace: seq<DB>, db: DB)
    requires TraceOk(trace)
    requires Sound(db) && Evolves(trace[|trace| - 1], db)
    ensures TraceOk(trace + [db])
  {
    EvolvesSelf(db);
    SoundsGrow(trace, db);
    EvolvingGrows(trace, db);
  }

  /** A moved request keeps the record of its write. */
  predicate KeepsRecord(reqs: map<nat, Req>, r: nat, q: Req) {
    r in reqs && WroteAt(reqs[r]).Some? ==> WroteAt(q) == WroteAt(reqs[r])
  }

  lemma AccountedMoves(trace: seq<DB>, reqs: map<nat, Req>, r: nat, q: Req)
    requires AllAccounted(trace, reqs) && KeepsRecord(reqs, r, q)
    ensures AllAccounted(trace, reqs[r := q])
  {
    var moved := reqs[r := q];
    forall i | 0 < i < |trace| ensures Accounted(trace, moved, i) {
      assert Accounted(trace, reqs, i);
      if x :| x in reqs && WroteAt(reqs[x]) == Some(i) {
        assert x in moved && WroteAt(moved[x]) == Some(i);
      }
    }
  }

  lemma AccountedGrows(trace: seq<DB>, db: DB, reqs: map<nat, Req>)
    requires trace != [] && AllAccounted(trace, reqs)
    requires Silent(trace[|trace| - 1], db) || exists r :: r in reqs && WroteAt(reqs[r]) == Some(|trace|)
    ensures AllAccounted(trace + [db], reqs)
  {
    forall i | 0 < i < |trace + [db]| ensures Accounted(trace + [db], reqs, i) {
      if i < |trace| {
        assert Accounted(trace, reqs, i);
      }
    }
  }

  /** From s, request r moved on to a sound place, and if it wrote, one sound state was appended. */
  ghost predicate StepsTo(s: Sys, r: nat, t: Sys) {
    && s.trace != [] && t.trace != []
    && r in t.reqs && t.reqs == s.reqs[r := t.reqs[r]]
    && ReqOk(t.trace, t.reqs[r]) && KeepsRecord(s.reqs, r, t.reqs[r])
    && (t.trace == s.trace || (Appended(s.trace, t.trace) && WroteAt(t.reqs[r]) == Some(|s.trace|)))
  }

  ghost predicate Appended(trace: seq<DB>, grown: seq<DB>) {
    && trace != [] && |grown| == |trace| + 1 && grown == trace + [grown[|trace|]]
    && Sound(grown[|trace|])
    && Evolves(trace[|trace| - 1], grown[|trace|])
  }

  lemma StepsToAccounts(s: Sys, r: nat, t: Sys)
    requires AllAccounted(s.trace, s.reqs) && StepsTo(s, r, t)
    ensures AllAccounted(t.trace, t.reqs)
  {
    AccountedMoves(s.trace, s.reqs, r, t.reqs[r]);
    if t.trace != s.trace {
      AccountedGrows(s.trace, t.trace[|s.trace|], t.reqs);
    }
  }

  lemma StepsToKeeps(s: Sys, r: nat, t: Sys)
    requires AllOk(s) && StepsTo(s, r, t)
    ensures AllOk(t)
  {
    StepsToAccounts(s, r, t);
    if t.trace != s.trace {
      TraceGrows(s.trace, t.trace[|s.trace|]);
      ReqsOkGrow(s.trace, t.trace[|s.trace|], s.reqs);
    }
  }

  // ---------- the steps ----------

  lemma GotoSteps(s: Sys, r: nat, q: Req)
    requires s.trace != [] && ReqOk(s.trace, q) && KeepsRecord(s.reqs, r, q)
    ensures StepsTo(s, r, Goto(s, r, q))
  {
  }

  lemma NotedOk(trace: seq<DB>, response: Response, note: Note, team: Id, at: nat)
    requires trace != [] && NoteOk(trace, response, note)
    ensures ReqOk(trace, Finished(response, note)) && ReqOk(trace, Flush(team, at, response, note))
    ensures WroteAt(Flush(team, at, response, note)) == WroteAt(Finished(response, note))
  {
  }

  lemma WriteSteps(s: Sys, r: nat, t: Sys, db: DB, q: Req)
    requires Appended(s.trace, s.trace + [db]) && r in s.reqs && WroteAt(s.reqs[r]).None?
    requires ReqOk(s.trace + [db], q) && WroteAt(q) == Some(|s.trace|)
    requires t.trace == s.trace + [db] && t.reqs == s.reqs[r := q]
    ensures StepsTo(s, r, t)
  {
  }

  /** A transaction on teams that answers at once. */
  lemma TeamWriteSteps(s: Sys, r: nat, db: DB, response: Response, note: Note)
    requires Appended(s.trace, s.trace + [db]) && r in s.reqs && WroteAt(s.reqs[r]).None?
    requires NoteOk(s.trace + [db], response, note) && WroteAt(Finished(response, note)) == Some(|s.trace|)
    ensures StepsTo(s, r, Commits(s, r, db, Finished(response, note)))
  {
    NotedOk(s.trace + [db], response, note, 0, 0);
    WriteSteps(s, r, Commits(s, r, db, Finished(response, note)), db, Finished(response, note));
  }

  /** A transaction on a task, after which the request goes on to Invalidate. */
  lemma TaskWriteSteps(s: Sys, r: nat, db: DB, team: Id, response: Response, note: Note)
    requires Appended(s.trace, s.trace + [db]) && r in s.reqs && WroteAt(s.reqs[r]).None?
    requires NoteOk(s.trace + [db], response, note) && WroteAt(Finished(response, note)) == Some(|s.trace|)
    ensures StepsTo(s, r, CommitsTask(s, r, db, team, response, note))
  {
    NotedOk(s.trace + [db], response, note, team, |s.trace|);
    WriteSteps(s, r, CommitsTask(s, r, db, team, response, note), db, Flush(team, |s.trace|, response, note));
  }

  lemma TeamFounded(trace: seq<DB>, name: string, author: Id, now: Time)
    requires trace != [] && Keyed(trace[|trace| - 1]) && author in trace[|trace| - 1].users
    ensures var (after, res) := InsertTeam(trace[|trace| - 1], name, author, now);
            FoundingCommitted(trace + [after], Founding(author, name, |trace|, now), res.value)
  {
    var after := InsertTeam(trace[|trace| - 1], name, author, now).0;
    assert (trace + [after])[|trace|] == after;
  }

  lemma TeamInsertStep(s: Sys, r: nat, now: Time)
    requires s.trace != [] && Sound(Now(s)) && r in s.reqs && s.reqs[r].TeamInsert?
    ensures StepsTo(s, r, AdvanceTeams(s, r, s.reqs[r], now))
  {
    hide Owned, Closed, AllLogged, Evolves, UpdateCommitted, CreationCommitted, EnrolmentCommitted, FoundingCommitted;
    var TeamInsert(actor, name) := s.reqs[r];
    var (after, res) := InsertTeam(Now(s), name, actor, now);
    if res.Ok? {
      InsertTeamKeeps(Now(s), name, actor, now);
      TeamFounded(s.trace, name, actor, now);
      TeamWriteSteps(s, r, after, TeamIs(res.value), Founded(Founding(actor, name, |s.trace|, now)));
    }
  }

  /** An invitation or role change is on record with a position at which its actor could make it. */
  lemma EnrolmentRecorded(trace: seq<DB>, after: DB, c: Enrolment)
    requires trace != [] && c.at == |trace| && c.roleAt < |trace|
    requires MayEnrol(trace, c.actor, c.team, c.invited, c.roleAt) && Enrols(trace[|trace| - 1], after, c)
    ensures EnrolmentCommitted(trace + [after], c)
  {
    var grown := trace + [after];
    assert grown[c.at - 1] == trace[|trace| - 1] && grown[c.at] == after && grown[c.roleAt] == trace[c.roleAt];
  }

  lemma EnrolStep(s: Sys, r: nat, after: DB, c: Enrolment)
    requires s.trace != [] && Sound(after) && Evolves(Now(s), after) && r in s.reqs && WroteAt(s.reqs[r]).None?
    requires c.at == |s.trace| && MayEnrol(s.trace, c.actor, c.team, c.invited, c.roleAt) && Enrols(Now(s), after, c)
    ensures StepsTo(s, r, Commits(s, r, after, Finished(MemberIs(c.team, c.user, c.role), Enrolled(c))))
  {
    hide Sound, Evolves, EnrolmentCommitted, Enrols;
    EnrolmentRecorded(s.trace, after, c);
    TeamWriteSteps(s, r, after, MemberIs(c.team, c.user, c.role), Enrolled(c));
  }

  lemma InviteInsertStep(s: Sys, r: nat, now: Time)
    requires s.trace != [] && Sound(Now(s)) && r in s.reqs && s.reqs[r].InviteInsert? && ReqOk(s.trace, s.reqs[r])
    ensures StepsTo(s, r, AdvanceTeams(s, r, s.reqs[r], now))
  {
    hide Owned, Closed, AllLogged, Evolves, UpdateCommitted, CreationCommitted, EnrolmentCommitted, FoundingCommitted;
    var InviteInsert(actor, team, invite, user, roleAt) := s.reqs[r];
    var (after, res) := InsertMember(Now(s), team, user, invite.role);
    if res.Ok? {
      InsertMemberKeeps(Now(s), team, user, invite.role);
      EnrolStep(s, r, after, Enrolment(actor, team, user, invite.role, true, roleAt, |s.trace|));
    }
  }

  lemma RoleWriteStep(s: Sys, r: nat, now: Time)
    requires s.trace != [] && Sound(Now(s)) && r in s.reqs && s.reqs[r].RoleWrite? && ReqOk(s.trace, s.reqs[r])
    ensures StepsTo(s, r, AdvanceTeams(s, r, s.reqs[r], now))
  {
    hide Keyed, Closed, AllLogged, Evolves, UpdateCommitted, CreationCommitted, EnrolmentCommitted, FoundingCommitted;
    var RoleWrite(actor, team, user, role, roleAt) := s.reqs[r];
    var (after, res) := SetRole(Now(s), team, user, role);
    if res.Ok? {
      SetRoleKeeps(Now(s), team, user, role);
      MemberKnown(Now(s), team, user);
      EnrolStep(s, r, after, Enrolment(actor, team, user, role, false, roleAt, |s.trace|));
    }
  }

  predicate TeamRead(q: Req) {
    q.InviteActor? || q.InviteUser? || q.RoleActor? || q.RoleTarget?
  }

  lemma InviteActorOk(trace: seq<DB>, q: Req, now: Time)
    requires trace != [] && q.InviteActor?
    ensures var o := TeamOutcome(trace[|trace| - 1], q, |trace| - 1, now); o.Stay? && ReqOk(trace, o.next)
  {
    hide UpdateCommitted, CreationCommitted, EnrolmentCommitted, FoundingCommitted, Planned, Named, Insertable,
      Snapshot;
  }

  lemma InviteUserOk(trace: seq<DB>, q: Req, now: Time)
    requires trace != [] && Keyed(trace[|trace| - 1]) && ReqOk(trace, q) && q.InviteUser?
    ensures var o := TeamOutcome(trace[|trace| - 1], q, |trace| - 1, now); o.Stay? && ReqOk(trace, o.next)
  {
    hide UpdateCommitted, CreationCommitted, EnrolmentCommitted, FoundingCommitted, Planned, Keyed, MayEnrol,
      ResolveInvitee, Insertable, Snapshot, Named;
    var db := trace[|trace| - 1];
    if ResolveInvitee(db, q.invite).Ok? {
      ResolvesExactly(db, q.invite, ResolveInvitee(db, q.invite).value.id);
    }
  }

  lemma RoleReadOk(trace: seq<DB>, q: Req, now: Time)
    requires trace != [] && ReqOk(trace, q) && (q.RoleActor? || q.RoleTarget?)
    ensures var o := TeamOutcome(trace[|trace| - 1], q, |trace| - 1, now); o.Stay? && ReqOk(trace, o.next)
  {
    hide UpdateCommitted, CreationCommitted, EnrolmentCommitted, FoundingCommitted, Planned;
  }

  lemma TeamReadStep(s: Sys, r: nat, now: Time)
    requires s.trace != [] && Keyed(Now(s)) && r in s.reqs && ReqOk(s.trace, s.reqs[r]) && TeamRead(s.reqs[r])
    ensures StepsTo(s, r, AdvanceTeams(s, r, s.reqs[r], now))
  {
    hide ReqOk, Keyed;
    var q := s.reqs[r];
    if q.InviteActor? {
      InviteActorOk(s.trace, q, now);
    } else if q.InviteUser? {
      InviteUserOk(s.trace, q, now);
    } else {
      RoleReadOk(s.trace, q, now);
    }
    GotoSteps(s, r, TeamOutcome(Now(s), q, |s.trace| - 1, now).next);
  }

  lemma CreationReadStep(s: Sys, r: nat, clock: Time, now: Time)
    requires s.trace != [] && r in s.reqs && ReqOk(s.trace, s.reqs[r])
    requires s.reqs[r].NewActor? || s.reqs[r].NewAssignee?
    ensures StepsTo(s, r, AdvanceCreation(s, r, s.reqs[r], clock, now))
  {
    hide Evolves, Sound, UpdateCommitted, CreationCommitted, EnrolmentCommitted, FoundingCommitted;
  }

  lemma CreationRecorded(trace: seq<DB>, row: NewTask, clock: Time, now: Time)
    requires trace != [] && Sound(trace[|trace| - 1]) && Insertable(trace[|trace| - 1], row)
    ensures var (after, res) := InsertTask(trace[|trace| - 1], row, clock, now);
            && res == Ok(CreatedRow(trace[|trace| - 1].nextTask, row, clock, now))
            && CreationCommitted(trace + [after], Creation(row, |trace|, clock, now))
  {
    var db := trace[|trace| - 1];
    var after := InsertTask(db, row, clock, now).0;
    CreatedWritable(db, row, clock, now);
    assert (trace + [after])[|trace|] == after && (trace + [after])[|trace| - 1] == db;
  }

  lemma CreationSteps(s: Sys, r: nat, after: DB, c: Creation)
    requires s.trace != [] && Sound(after) && Evolves(Now(s), after) && r in s.reqs && WroteAt(s.reqs[r]).None?
    requires c.at == |s.trace| && CreationCommitted(s.trace + [after], c)
    ensures var task := CreatedRow(Now(s).nextTask, c.row, c.clock, c.now);
            StepsTo(s, r, CommitsTask(s, r, after, task.teamId, TaskIs(task), Created(c)))
  {
    hide Sound, Evolves;
    assert (s.trace + [after])[c.at - 1] == Now(s);
    var task := CreatedRow(Now(s).nextTask, c.row, c.clock, c.now);
    TaskWriteSteps(s, r, after, task.teamId, TaskIs(task), Created(c));
  }

  lemma NewInsertStep(s: Sys, r: nat, clock: Time, now: Time)
    requires s.trace != [] && Sound(Now(s)) && r in s.reqs && s.reqs[r].NewInsert? && ReqOk(s.trace, s.reqs[r])
    ensures StepsTo(s, r, AdvanceCreation(s, r, s.reqs[r], clock, now))
  {
    hide Sound, Evolves, UpdateCommitted, CreationCommitted, EnrolmentCommitted, FoundingCommitted;
    var row := s.reqs[r].row;
    InsertTaskKeeps(Now(s), row, clock, now);
    CreationRecorded(s.trace, row, clock, now);
    CreationSteps(s, r, InsertTask(Now(s), row, clock, now).0, Creation(row, |s.trace|, clock, now));
  }

  /** The heart of the optimistic protocol: if the version still matches, the row is the snapshot. */
  lemma MatchingVersion(trace: seq<DB>, loadedAt: nat, task: Task)
    requires TraceOk(trace) && Snapshot(trace, loadedAt, task)
    ensures var db := trace[|trace| - 1];
            && task.id in db.tasks
            && Descends(task, db.tasks[task.id])
            && (db.tasks[task.id].version == task.version <==> db.tasks[task.id] == task)
  {
    assert Evolves(trace[loadedAt], trace[|trace| - 1]);
  }

  lemma PlannerBelongs(trace: seq<DB>, actor: Id, patch: Patch, loadedAt: nat, roleAt: nat, task: Task)
    requires TraceOk(trace) && Planned(trace, actor, patch, loadedAt, roleAt, task)
    ensures IsMember(trace[|trace| - 1], task.teamId, actor)
  {
    assert Evolves(trace[roleAt], trace[|trace| - 1]);
  }

  lemma SwapsToSwapped(db: DB, c: Commit)
    requires c.task in db.tasks && db.tasks[c.task].id == c.task
    requires SwapPatch(db, c.task, c.patch, c.actor, c.clock, c.now).1.Ok?
    ensures var (after, res) := SwapPatch(db, c.task, c.patch, c.actor, c.clock, c.now);
            SwapsTo(db, after, c) && res == Ok(NewRow(db.tasks[c.task], c))
  {
    PatchedRow(db.tasks[c.task], c.patch, c.clock, c.now);
  }

  lemma CommitRecorded(trace: seq<DB>, before: DB, after: DB, c: Commit, task: Task)
    requires 0 < |trace| == c.at && trace[c.at - 1] == before
    requires SwapsTo(before, after, c) && before.tasks[c.task] == task
    requires Planned(trace, c.actor, c.patch, c.loadedAt, c.roleAt, task)
    ensures UpdateCommitted(trace + [after], c)
    ensures NoteOk(trace + [after], TaskIs(NewRow(task, c)), Updated(c))
  {
    PlannedGrows(trace, after, c.actor, c.patch, c.loadedAt, c.roleAt, task);
    var grown := trace + [after];
    assert grown[c.at - 1] == before && grown[c.at] == after;
  }

  /** An update planned on the current row goes through, keeps what states keep, and is recorded. */
  lemma SwapAppends(trace: seq<DB>, before: DB, c: Commit, task: Task) returns (after: DB)
    requires 0 < |trace| == c.at && trace[c.at - 1] == before && Sound(before)
    requires c.task == task.id && task.id in before.tasks && before.tasks[task.id] == task
    requires Planned(trace, c.actor, c.patch, c.loadedAt, c.roleAt, task)
    requires IsMember(before, task.teamId, c.actor)
    requires AssigneeBelongs(before, task.teamId, Overwritten(task, c.patch).assignee)
    ensures SwapPatch(before, task.id, c.patch, c.actor, c.clock, c.now) == (after, Ok(NewRow(task, c)))
    ensures Appended(trace, trace + [after]) && UpdateCommitted(trace + [after], c)
    ensures NoteOk(trace + [after], TaskIs(NewRow(task, c)), Updated(c))
  {
    after := SwapPatch(before, task.id, c.patch, c.actor, c.clock, c.now).0;
    SwapPatchKeeps(before, task.id, c.patch, c.actor, c.clock, c.now);
    SwapsToSwapped(before, c);
    CommitRecorded(trace, before, after, c, task);
  }

  lemma SwapOutcome(s: Sys, r: nat, clock: Time, now: Time, after: DB, saved: Task)
    requires s.trace != [] && r in s.reqs && s.reqs[r].Swap?
    requires var Swap(actor, patch, _, _, task) := s.reqs[r];
             && task.id in Now(s).tasks && Now(s).tasks[task.id] == task
             && SwapPatch(Now(s), task.id, patch, actor, clock, now) == (after, Ok(saved))
    ensures var Swap(actor, patch, loadedAt, roleAt, task) := s.reqs[r];
            AdvanceUpdate(s, r, s.reqs[r], clock, now) ==
            CommitsTask(s, r, after, saved.teamId, TaskIs(saved),
                        Updated(Commit(actor, task.id, patch, loadedAt, roleAt, |s.trace|, clock, now)))
  {
  }

  /** What a request about to swap knows, with the state in which it swaps. */
  ghost predicate SwapReady(s: Sys, r: nat) {
    && s.trace != [] && r in s.reqs && s.reqs[r].Swap? && Sound(Now(s))
    && var Swap(actor, patch, loadedAt, roleAt, task) := s.reqs[r];
       && Planned(s.trace, actor, patch, loadedAt, roleAt, task)
       && AssigneeBelongs(Now(s), task.teamId, Overwritten(task, patch).assignee)
       && IsMember(Now(s), task.teamId, actor)
       && task.id in Now(s).tasks && Descends(task, Now(s).tasks[task.id])
  }

  /** An update whose row is still the loaded one commits. */
  lemma SwapCommits(s: Sys, r: nat, clock: Time, now: Time) returns (after: DB, saved: Task, c: Commit)
    requires SwapReady(s, r) && Now(s).tasks[s.reqs[r].task.id] == s.reqs[r].task
    ensures AdvanceUpdate(s, r, s.reqs[r], clock, now) ==
            CommitsTask(s, r, after, saved.teamId, TaskIs(saved), Updated(c))
    ensures Appended(s.trace, s.trace + [after]) && c.at == |s.trace|
    ensures NoteOk(s.trace + [after], TaskIs(saved), Updated(c))
  {
    hide Sound, Evolves, NoteOk, UpdateCommitted, Planned;
    var Swap(actor, patch, loadedAt, roleAt, task) := s.reqs[r];
    c := Commit(actor, task.id, patch, loadedAt, roleAt, |s.trace|, clock, now);
    saved := NewRow(task, c);
    after := SwapAppends(s.trace, Now(s), c, task);
    SwapOutcome(s, r, clock, now, after, saved);
  }

  lemma LostSwapStep(s: Sys, r: nat, clock: Time, now: Time)
    requires s.trace != [] && r in s.reqs && s.reqs[r].Swap?
    requires var task := s.reqs[r].task;
             task.id in Now(s).tasks && Now(s).tasks[task.id].version != task.version
    ensures AdvanceUpdate(s, r, s.reqs[r], clock, now) == Fails(s, r, LostRace)
  {
  }

  lemma LoadStep(s: Sys, r: nat, clock: Time, now: Time)
    requires s.trace != [] && Keyed(Now(s)) && r in s.reqs && s.reqs[r].Load? && ReqOk(s.trace, s.reqs[r])
    ensures StepsTo(s, r, AdvanceUpdate(s, r, s.reqs[r], clock, now))
  {
    hide UpdateCommitted, CreationCommitted, EnrolmentCommitted, FoundingCommitted, Planned, Validate;
  }

  lemma AfterPlanOk(trace: seq<DB>, member: Actor, patch: Patch, loadedAt: nat, roleAt: nat, task: Task)
    requires trace != [] && loadedAt <= roleAt < |trace|
    requires Snapshot(trace, loadedAt, task) && Validate(patch).Pass?
    requires IsMember(trace[roleAt], task.teamId, member.userId)
    requires member.role == RoleAt(trace, roleAt, task.teamId, member.userId)
    ensures ReqOk(trace, AfterPlan(member, patch, loadedAt, roleAt, task))
  {
    AppliedIsOverwritten(task, patch);
    if PlanUpdate(member, task, patch).Ok? {
      PlannedUpdate(member, task, patch);
    }
  }

  lemma PlanStep(s: Sys, r: nat, clock: Time, now: Time)
    requires s.trace != [] && r in s.reqs && ReqOk(s.trace, s.reqs[r]) && s.reqs[r].LoadRole?
    ensures StepsTo(s, r, AdvanceUpdate(s, r, s.reqs[r], clock, now))
  {
    hide Validate, UpdateCommitted, CreationCommitted, EnrolmentCommitted, FoundingCommitted;
    var LoadRole(actor, patch, loadedAt, task) := s.reqs[r];
    var member := Membership(Now(s), task.teamId, actor);
    if member.Ok? {
      AfterPlanOk(s.trace, member.value, patch, loadedAt, |s.trace| - 1, task);
    }
  }

  lemma AssigneeRead(s: Sys, r: nat, clock: Time, now: Time)
    requires s.trace != [] && r in s.reqs && s.reqs[r].CheckAssignee?
    ensures var CheckAssignee(actor, patch, loadedAt, roleAt, task) := s.reqs[r];
            var t := AdvanceUpdate(s, r, s.reqs[r], clock, now);
            var verdict := AssigneeInTeam(Now(s), task.teamId, Applied(task, DiffOf(task, patch)).assignee);
            if verdict.Pass? then t == Goto(s, r, Swap(actor, patch, loadedAt, roleAt, task))
            else t == Fails(s, r, verdict.error)
  {
  }

  lemma AssigneeChecked(s: Sys, r: nat, clock: Time, now: Time)
    requires s.trace != [] && r in s.reqs && ReqOk(s.trace, s.reqs[r]) && s.reqs[r].CheckAssignee?
    ensures StepsTo(s, r, AdvanceUpdate(s, r, s.reqs[r], clock, now))
  {
    hide UpdateCommitted, CreationCommitted, EnrolmentCommitted, FoundingCommitted, Planned, AdvanceUpdate, DiffOf,
      Applied, Overwritten;
    var CheckAssignee(actor, patch, loadedAt, roleAt, task) := s.reqs[r];
    AppliedIsOverwritten(task, patch);
    AssigneeRead(s, r, clock, now);
    var verdict := AssigneeInTeam(Now(s), task.teamId, Applied(task, DiffOf(task, patch)).assignee);
    if verdict.Pass? {
      GotoSteps(s, r, Swap(actor, patch, loadedAt, roleAt, task));
    } else {
      GotoSteps(s, r, Finished(Failed(verdict.error), Plain));
    }
  }

  lemma PartsOf(s: Sys, r: nat)
    requires AllOk(s) && r in s.reqs
    ensures TraceOk(s.trace) && ReqOk(s.trace, s.reqs[r]) && Sound(Now(s))
  {
  }

  lemma SwapKnows(trace: seq<DB>, q: Req)
    requires trace != [] && q.Swap? && ReqOk(trace, q)
    ensures Planned(trace, q.actor, q.patch, q.loadedAt, q.roleAt, q.task)
    ensures AssigneeBelongs(trace[|trace| - 1], q.task.teamId, Overwritten(q.task, q.patch).assignee)
  {
  }

  lemma SwapIsReady(s: Sys, r: nat)
    requires TraceOk(s.trace) && Sound(Now(s)) && r in s.reqs && s.reqs[r].Swap?
    requires var Swap(actor, patch, loadedAt, roleAt, task) := s.reqs[r];
             && Planned(s.trace, actor, patch, loadedAt, roleAt, task)
             && AssigneeBelongs(Now(s), task.teamId, Overwritten(task, patch).assignee)
    ensures SwapReady(s, r)
  {
    var Swap(actor, patch, loadedAt, roleAt, task) := s.reqs[r];
    MatchingVersion(s.trace, loadedAt, task);
    PlannerBelongs(s.trace, actor, patch, loadedAt, roleAt, task);
  }

  lemma ReadyToSwap(s: Sys, r: nat)
    requires AllOk(s) && r in s.reqs && s.reqs[r].Swap?
    ensures SwapReady(s, r)
  {
    PartsOf(s, r);
    SwapKnows(s.trace, s.reqs[r]);
    SwapIsReady(s, r);
  }

  lemma TaskWriteKeeps(s: Sys, r: nat, after: DB, saved: Task, c: Commit)
    requires AllOk(s) && r in s.reqs && s.reqs[r].Swap?
    requires Appended(s.trace, s.trace + [after]) && c.at == |s.trace|
    requires NoteOk(s.trace + [after], TaskIs(saved), Updated(c))
    ensures AllOk(CommitsTask(s, r, after, saved.teamId, TaskIs(saved), Updated(c)))
  {
    hide NoteOk, ReqOk, Sound, Evolves, Accounted;
    TaskWriteSteps(s, r, after, saved.teamId, TaskIs(saved), Updated(c));
    StepsToKeeps(s, r, CommitsTask(s, r, after, saved.teamId, TaskIs(saved), Updated(c)));
  }

  lemma LostSwapKeeps(s: Sys, r: nat)
    requires AllOk(s) && r in s.reqs && s.reqs[r].Swap?
    ensures AllOk(Fails(s, r, LostRace))
  {
    GotoSteps(s, r, Finished(Failed(LostRace), Plain));
    StepsToKeeps(s, r, Fails(s, r, LostRace));
  }

  lemma SwapKeeps(s: Sys, r: nat, clock: Time, now: Time)
    requires AllOk(s) && r in s.reqs && s.reqs[r].Swap?
    ensures AllOk(AdvanceUpdate(s, r, s.reqs[r], clock, now))
  {
    var task := s.reqs[r].task;
    ReadyToSwap(s, r);
    if Now(s).tasks[task.id].version == task.version {
      var after, saved, c := SwapCommits(s, r, clock, now);
      TaskWriteKeeps(s, r, after, saved, c);
    } else {
      LostSwapStep(s, r, clock, now);
      LostSwapKeeps(s, r);
    }
  }

  lemma UpdateReadKeeps(s: Sys, r: nat, clock: Time, now: Time)
    requires AllOk(s) && r in s.reqs
    requires s.reqs[r].Load? || s.reqs[r].LoadRole? || s.reqs[r].CheckAssignee?
    ensures AllOk(AdvanceUpdate(s, r, s.reqs[r], clock, now))
  {
    assert ReqOk(s.trace, s.reqs[r]) && Sound(Now(s));
    if s.reqs[r].Load? {
      LoadStep(s, r, clock, now);
    } else if s.reqs[r].LoadRole? {
      PlanStep(s, r, clock, now);
    } else {
      AssigneeChecked(s, r, clock, now);
    }
    StepsToKeeps(s, r, AdvanceUpdate(s, r, s.reqs[r], clock, now));
  }

  lemma CreationStep(s: Sys, r: nat, clock: Time, now: Time)
    requires AllOk(s) && r in s.reqs
    requires s.reqs[r].NewActor? || s.reqs[r].NewAssignee? || s.reqs[r].NewInsert?
    ensures AllOk(AdvanceCreation(s, r, s.reqs[r], clock, now))
  {
    assert ReqOk(s.trace, s.reqs[r]) && Sound(Now(s));
    if s.reqs[r].NewInsert? {
      NewInsertStep(s, r, clock, now);
    } else {
      CreationReadStep(s, r, clock, now);
    }
    StepsToKeeps(s, r, AdvanceCreation(s, r, s.reqs[r], clock, now));
  }

  lemma TeamStep(s: Sys, r: nat, now: Time)
    requires AllOk(s) && r in s.reqs
    ensures AllOk(AdvanceTeams(s, r, s.reqs[r], now))
  {
    hide ReqOk, Evolves, Accounted, Owned, Closed, AllLogged;
    var q := s.reqs[r];
    assert ReqOk(s.trace, q) && Sound(Now(s));
    if q.TeamInsert? {
      TeamInsertStep(s, r, now);
    } else if q.InviteInsert? {
      InviteInsertStep(s, r, now);
    } else if q.RoleWrite? {
      RoleWriteStep(s, r, now);
    } else if TeamRead(q) {
      TeamReadStep(s, r, now);
    } else {
      assert StepsTo(s, r, s);
    }
    StepsToKeeps(s, r, AdvanceTeams(s, r, q, now));
  }

  lemma FlushStep(s: Sys, r: nat, redisOk: bool)
    requires s.trace != [] && r in s.reqs && s.reqs[r].Flush? && ReqOk(s.trace, s.reqs[r])
    ensures StepsTo(s, r, AdvanceFlush(s, r, s.reqs[r], redisOk))
  {
  }

  predicate ListNote(note: Note) {
    note.Plain? || note.Served? || note.Queried?
  }

  /** A list request moves without writing. */
  predicate ListMove(s: Sys, r: nat, t: Sys) {
    && t.trace == s.trace && r in t.reqs && t.reqs == s.reqs[r := t.reqs[r]]
    && (ListStep(t.reqs[r]) || (t.reqs[r].Finished? && ListNote(t.reqs[r].note)))
  }

  lemma LookupEffect(s: Sys, r: nat, redisOk: bool)
    requires s.trace != [] && r in s.reqs
    requires var q := s.reqs[r]; q.GetGeneration? || q.GetPage?
    ensures ListMove(s, r, AdvanceList(s, r, s.reqs[r], redisOk))
  {
  }

  lemma FillEffect(s: Sys, r: nat, redisOk: bool)
    requires s.trace != [] && r in s.reqs
    requires var q := s.reqs[r]; q.SetGeneration? || q.SetPage?
    ensures ListMove(s, r, AdvanceList(s, r, s.reqs[r], redisOk))
  {
  }

  lemma QueryEffect(s: Sys, r: nat, redisOk: bool)
    requires s.trace != [] && r in s.reqs
    requires var q := s.reqs[r]; q.ListRole? || q.RunQuery?
    ensures ListMove(s, r, AdvanceList(s, r, s.reqs[r], redisOk))
  {
  }

  lemma ListReadStep(s: Sys, r: nat, redisOk: bool)
    requires s.trace != [] && r in s.reqs && ListStep(s.reqs[r])
    ensures StepsTo(s, r, AdvanceList(s, r, s.reqs[r], redisOk))
  {
    var q := s.reqs[r];
    if q.GetGeneration? || q.GetPage? {
      LookupEffect(s, r, redisOk);
    } else if q.SetGeneration? || q.SetPage? {
      FillEffect(s, r, redisOk);
    } else {
      QueryEffect(s, r, redisOk);
    }
    MoveSteps(s, r, AdvanceList(s, r, q, redisOk));
  }

  lemma MoveSteps(s: Sys, r: nat, t: Sys)
    requires s.trace != [] && r in s.reqs && ListStep(s.reqs[r]) && ListMove(s, r, t)
    ensures StepsTo(s, r, t)
  {
  }

  lemma CacheKeeps(s: Sys, r: nat, redisOk: bool)
    requires AllOk(s) && r in s.reqs
    ensures s.reqs[r].Flush? ==> AllOk(AdvanceFlush(s, r, s.reqs[r], redisOk))
    ensures ListStep(s.reqs[r]) ==> AllOk(AdvanceList(s, r, s.reqs[r], redisOk))
  {
    var q := s.reqs[r];
    assert ReqOk(s.trace, q);
    if q.Flush? {
      FlushStep(s, r, redisOk);
      StepsToKeeps(s, r, AdvanceFlush(s, r, q, redisOk));
    } else if ListStep(q) {
      ListReadStep(s, r, redisOk);
      StepsToKeeps(s, r, AdvanceList(s, r, q, redisOk));
    }
  }

  lemma OpeningOk(trace: seq<DB>, op: Op)
    requires trace != [] && Opening(op).Some?
    ensures ReqOk(trace, Opening(op).value)
  {
    if op.CreateTask? {
      ValidateNewTaskExact(op.request.title, op.request.description, DefaultStatus(op.request.status));
    }
  }

  lemma RegisterAppends(s: Sys, user: User)
    requires s.trace != [] && Sound(Now(s))
    ensures Appended(s.trace, s.trace + [InsertUser(Now(s), user)])
  {
    InsertUserKeeps(Now(s), user);
  }

  lemma SilentKeeps(s: Sys, db: DB)
    requires AllOk(s) && Appended(s.trace, s.trace + [db]) && Silent(Now(s), db)
    ensures AllOk(s.(trace := s.trace + [db]))
  {
    hide Sound, Evolves, Sounds, Evolving, ReqOk, Accounted, AllReqsOk, AllAccounted, Silent;
    TraceGrows(s.trace, db);
    ReqsOkGrow(s.trace, db, s.reqs);
    AccountedGrows(s.trace, db, s.reqs);
  }

  lemma RegisterKeeps(s: Sys, user: User)
    requires AllOk(s)
    ensures AllOk(Do(s, Register(user)))
  {
    hide Sound, AllReqsOk, AllAccounted, Evolving;
    RegisterAppends(s, user);
    SilentKeeps(s, InsertUser(Now(s), user));
  }

  lemma StartKeeps(s: Sys, r: nat, op: Op)
    requires AllOk(s)
    ensures AllOk(Do(s, Start(r, op)))
  {
    hide ReqOk, Evolves, Sound, Accounted;
    if r !in s.reqs && Opening(op).Some? {
      OpeningOk(s.trace, op);
      GotoSteps(s, r, Opening(op).value);
      StepsToKeeps(s, r, Goto(s, r, Opening(op).value));
    }
  }

  lemma AdvanceKeeps(s: Sys, r: nat, redisOk: bool, clock: Time, now: Time)
    requires AllOk(s)
    ensures AllOk(Do(s, Advance(r, redisOk, clock, now)))
  {
    hide AllOk, AdvanceList, AdvanceUpdate, AdvanceCreation, AdvanceTeams, AdvanceFlush;
    if r in s.reqs {
      var q := s.reqs[r];
      if q.NewActor? || q.NewAssignee? || q.NewInsert? {
        CreationStep(s, r, clock, now);
      } else if q.Swap? {
        SwapKeeps(s, r, clock, now);
      } else if q.Load? || q.LoadRole? || q.CheckAssignee? {
        UpdateReadKeeps(s, r, clock, now);
      } else if q.Flush? || ListStep(q) {
        CacheKeeps(s, r, redisOk);
      } else {
        TeamStep(s, r, now);
      }
    }
  }

  lemma DoKeeps(s: Sys, e: Event)
    requires AllOk(s)
    ensures AllOk(Do(s, e))
  {
    match e
    case Register(user) => RegisterKeeps(s, user);
    case Start(r, op) => StartKeeps(s, r, op);
    case Advance(r, redisOk, clock, now) => AdvanceKeeps(s, r, redisOk, clock, now);
    case Lapse(_) =>
  }

  lemma EmptySound()
    ensures Sound(EMPTY_DB) && Evolves(EMPTY_DB, EMPTY_DB)
  {
  }

  /** Every run, of the code and of the variant, keeps the invariant. */
  lemma {:induction false} RunFromKeeps(start: Sys, events: seq<Event>)
    requires start == INITIAL || start == VARIANT
    ensures AllOk(RunFrom(start, events))
  {
    if events == [] {
      EmptySound();
    } else {
      RunFromKeeps(start, events[..|events| - 1]);
      DoKeeps(RunFrom(start, events[..|events| - 1]), events[|events| - 1]);
    }
  }

  lemma RunKeeps(events: seq<Event>)
    ensures AllOk(Run(events))
  {
    RunFromKeeps(INITIAL, events);
  }
}
