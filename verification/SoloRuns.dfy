/** A request that runs without interference does, step by step, what Coherence.Serve says in one go,
    whichever of its Redis commands fail. */
module SoloRuns {
  import opened Outcomes
  import opened Domain
  import opened TaskPatch
  import opened Database
  import opened Operations
  import opened Execution
  import opened Redis
  import opened TaskCache
  import opened Protocol
  import Coherence

  // ---------- the keyspace without its model variables ----------

  function ItemOf(item: Item<Stored>): Item<TaskPage> {
    match item
    case Counter(n) => Counter(n)
    case Payload(stored) => Payload(stored.page)
  }

  /** What Redis holds in fact: pages without a record of where they come from. */
  function PagesOf(redis: Keyspace<Stored>): Pages {
    map k | k in redis :: ItemOf(redis[k])
  }

  lemma PagesRead(redis: Keyspace<Stored>, f: TaskFilter, gen: int)
    ensures Generation(PagesOf(redis), f.teamId) == Generation(redis, f.teamId)
    ensures Lookup(PagesOf(redis), f, gen) ==
            match Lookup(redis, f, gen) case Some(stored) => Some(stored.page) case None => None
  {
  }

  lemma PagesWritten(redis: Keyspace<Stored>, f: TaskFilter, gen: int, stored: Stored)
    ensures PagesOf(Increment(redis, f.teamId)) == Increment(PagesOf(redis), f.teamId)
    ensures PagesOf(Redis.Store(redis, f, gen, stored)) == Redis.Store(PagesOf(redis), f, gen, stored.page)
  {
  }

  // ---------- what a waiting request will still do, if nobody interferes ----------

  function FromLoadRole(db: DB, actor: Id, patch: Patch, task: Task, clock: Time, now: Time): (DB, Response) {
    match Membership(db, task.teamId, actor)
    case Err(_) => (db, Failed(TaskNotFound(task.id)))
    case Ok(member) => FromPlan(db, member, patch, task, clock, now)
  }

  /** The database part of what is left of a request that is not about lists. */
  function FromPlace(db: DB, q: Req, clock: Time, now: Time): (DB, Response) {
    match q
    case TeamInsert(actor, name) => FromTeamInsert(db, actor, name, now)
    case InviteActor(actor, team, invite) => FromInviteActor(db, actor, team, invite)
    case InviteUser(_, team, invite, _) => FromInviteUser(db, team, invite)
    case InviteInsert(_, team, invite, user, _) => FromInviteInsert(db, team, user, invite.role)
    case RoleActor(actor, team, user, role) => FromRoleActor(db, actor, team, user, role)
    case RoleTarget(actor, team, user, role, actorRole, _) =>
      FromRoleTarget(db, Actor(actor, actorRole), team, user, role)
    case RoleWrite(_, team, user, role, _) => FromRoleWrite(db, team, user, role)
    case NewActor(row) => FromNewActor(db, row, clock, now)
    case NewAssignee(row) => FromNewAssignee(db, row, clock, now)
    case NewInsert(row) => FromNewInsert(db, row, clock, now)
    case Load(actor, id, patch) => FromLoad(db, actor, id, patch, clock, now)
    case LoadRole(actor, patch, _, task) => FromLoadRole(db, actor, patch, task, clock, now)
    case CheckAssignee(actor, patch, _, _, task) => FromCheckAssignee(db, actor, DiffOf(task, patch), task, clock, now)
    case Swap(actor, patch, _, _, task) => FromSwap(db, actor, DiffOf(task, patch), task, clock, now)
    case _ => (db, Failed(Internal))
  }

  predicate Paged(q: Req) {
    ListStep(q) && q.filter.limit >= 0 && q.filter.offset >= 0
  }

  /** What is left of a list request. */
  function FromListPlace(db: DB, redis: Pages, q: Req, calls: Calls): (Pages, Response)
    requires Paged(q)
  {
    match q
    case ListRole(actor, f) =>
      (match Membership(db, f.teamId, actor)
       case Err(e) => (redis, Failed(e))
       case Ok(_) => Coherence.FromLookup(db, redis, true, f, calls))
    case GetGeneration(f) => Coherence.FromLookup(db, redis, true, f, calls)
    case GetPage(f, gen, _, _) =>
      if calls.getPage && Lookup(redis, f, gen).Some? then (redis, PageIs(Lookup(redis, f, gen).value))
      else Coherence.FromQuery(db, redis, true, f, calls)
    case RunQuery(f, _) => Coherence.FromQuery(db, redis, true, f, calls)
    case SetGeneration(f, page, _) => (Filled(redis, true, f, page, calls), PageIs(page))
    case SetPage(f, page, o) => (if calls.setPage then Redis.Store(redis, f, o.gen, page) else redis, PageIs(page))
  }

  /** The state, the keyspace and the answer that the request leads to from its place. */
  function Meaning(db: DB, redis: Pages, q: Req, calls: Calls, clock: Time, now: Time): (DB, Pages, Response)
    requires ListStep(q) ==> Paged(q)
  {
    if q.Finished? then (db, redis, q.response)
    else if q.Flush? then (db, Invalidated(redis, true, q.teamId, calls), q.response)
    else if ListStep(q) then
      var (after, response) := FromListPlace(db, redis, q, calls);
      (db, after, response)
    else Coherence.Flushed(db, redis, true, FromPlace(db, q, clock, now), calls)
  }

  /** How many more steps a request can take. */
  function Steps(q: Req): nat {
    match q
    case Finished(_, _) => 0
    case TeamInsert(_, _) | InviteInsert(_, _, _, _, _) | RoleWrite(_, _, _, _, _) => 1
    case Flush(_, _, _, _) | SetPage(_, _, _) => 1
    case InviteUser(_, _, _, _) | RoleTarget(_, _, _, _, _, _) => 2
    case NewInsert(_) | Swap(_, _, _, _, _) | SetGeneration(_, _, _) => 2
    case InviteActor(_, _, _) | RoleActor(_, _, _, _) => 3
    case NewAssignee(_) | CheckAssignee(_, _, _, _, _) | RunQuery(_, _) => 3
    case NewActor(_) | LoadRole(_, _, _, _) | GetPage(_, _, _, _) => 4
    case Load(_, _, _) | GetGeneration(_) => 5
    case ListRole(_, _) => 6
  }

  // ---------- one step ----------

  /** The calls of a request whose next command takes effect or not, and later ones as in calls. */
  function With(q: Req, effective: bool, calls: Calls): Calls {
    match q
    case GetGeneration(_) => calls.(getGeneration := effective)
    case GetPage(_, _, _, _) => calls.(getPage := effective)
    case SetGeneration(_, _, _) => calls.(setGeneration := effective)
    case SetPage(_, _, _) => calls.(setPage := effective)
    case Flush(_, _, _, _) => calls.(incr := effective)
    case _ => calls
  }

  /** A request that waits at some place of the code's protocol. */
  predicate Ready(s: Sys, r: nat) {
    && s.trace != [] && !s.captures && r in s.reqs
    && (ListStep(s.reqs[r]) ==> Paged(s.reqs[r]))
    && (s.reqs[r].Load? && s.reqs[r].taskId in Now(s).tasks ==>
          Now(s).tasks[s.reqs[r].taskId].id == s.reqs[r].taskId)
  }

  /** What request r of the state s leads to. */
  function Leads(s: Sys, r: nat, calls: Calls, clock: Time, now: Time): (DB, Pages, Response)
    requires Ready(s, r)
  {
    Meaning(Now(s), PagesOf(s.redis), s.reqs[r], calls, clock, now)
  }

  /** From s to t, request r came nearer to its end and kept its meaning. */
  predicate Progress(s: Sys, r: nat, t: Sys, effective: bool, calls: Calls, clock: Time, now: Time) {
    && Ready(s, r) && Ready(t, r)
    && (t.reqs[r].Finished? || Steps(t.reqs[r]) < Steps(s.reqs[r]))
    && Leads(s, r, With(s.reqs[r], effective, calls), clock, now) == Leads(t, r, calls, clock, now)
  }

  /** What is left after a step, on the database that the step leaves. */
  predicate Continues(db: DB, q: Req, after: DB, next: Req, clock: Time, now: Time) {
    && !ListStep(q) && !q.Flush? && !q.Finished? && !ListStep(next) && !next.Load?
    && (next.Finished? || Steps(next) < Steps(q))
    && FromPlace(db, q, clock, now) ==
       (if next.Finished? || next.Flush? then (after, next.response) else FromPlace(after, next, clock, now))
    && (if next.Flush? then after != db && next.response.TaskIs? && next.teamId == next.response.task.teamId
        else after == db || (next.Finished? && !next.response.TaskIs?))
  }

  lemma ContinuesMeans(db: DB, redis: Pages, q: Req, after: DB, next: Req, calls: Calls, clock: Time, now: Time)
    requires Continues(db, q, after, next, clock, now)
    ensures Meaning(db, redis, q, calls, clock, now) == Meaning(after, redis, next, calls, clock, now)
  {
    hide FromPlace;
  }

  lemma StepContinues(s: Sys, r: nat, t: Sys, effective: bool, calls: Calls, clock: Time, now: Time)
    requires Ready(s, r) && t.trace != [] && !t.captures && t.redis == s.redis && r in t.reqs
    requires Continues(Now(s), s.reqs[r], Now(t), t.reqs[r], clock, now)
    ensures Progress(s, r, t, effective, calls, clock, now)
  {
    hide FromPlace, Meaning;
    ContinuesMeans(Now(s), PagesOf(s.redis), s.reqs[r], Now(t), t.reqs[r], calls, clock, now);
  }

  predicate InvitePlace(q: Req) {
    q.InviteActor? || q.InviteUser? || q.InviteInsert?
  }

  predicate RolePlace(q: Req) {
    q.TeamInsert? || q.RoleActor? || q.RoleTarget? || q.RoleWrite?
  }

  lemma InviteContinues(db: DB, q: Req, pos: nat, clock: Time, now: Time)
    requires InvitePlace(q)
    ensures var o := TeamOutcome(db, q, pos, now);
            Continues(db, q, if o.Write? then o.db else db, o.next, clock, now)
  {
    hide AuthorizeInvite, ResolveInvitee;
  }

  lemma RoleContinues(db: DB, q: Req, pos: nat, clock: Time, now: Time)
    requires RolePlace(q)
    ensures var o := TeamOutcome(db, q, pos, now);
            Continues(db, q, if o.Write? then o.db else db, o.next, clock, now)
  {
    hide AuthorizeRoleChange;
  }

  lemma TeamsProgress(s: Sys, r: nat, effective: bool, calls: Calls, clock: Time, now: Time)
    requires Ready(s, r) && (InvitePlace(s.reqs[r]) || RolePlace(s.reqs[r]))
    ensures Progress(s, r, AdvanceTeams(s, r, s.reqs[r], now), effective, calls, clock, now)
  {
    hide Continues, Progress, TeamOutcome;
    var q := s.reqs[r];
    if InvitePlace(q) {
      InviteContinues(Now(s), q, |s.trace| - 1, clock, now);
    } else {
      RoleContinues(Now(s), q, |s.trace| - 1, clock, now);
    }
    StepContinues(s, r, AdvanceTeams(s, r, q, now), effective, calls, clock, now);
  }

  lemma MemberReads(s: Sys, r: nat, clock: Time, now: Time)
    requires Ready(s, r) && s.reqs[r].NewActor?
    ensures var t := AdvanceCreation(s, r, s.reqs[r], clock, now);
            && t == Goto(s, r, t.reqs[r])
            && Continues(Now(s), s.reqs[r], Now(s), t.reqs[r], clock, now)
  {
    hide FromNewInsert, SelectRole, InsertTask;
  }

  lemma AssigneeReads(s: Sys, r: nat, clock: Time, now: Time)
    requires Ready(s, r) && s.reqs[r].NewAssignee?
    ensures var t := AdvanceCreation(s, r, s.reqs[r], clock, now);
            && t == Goto(s, r, t.reqs[r])
            && Continues(Now(s), s.reqs[r], Now(s), t.reqs[r], clock, now)
  {
    hide FromNewInsert, InsertTask, AssigneeInTeam;
  }

  lemma InsertChanges(db: DB, row: NewTask, clock: Time, now: Time)
    ensures InsertTask(db, row, clock, now).1.Ok? ==> InsertTask(db, row, clock, now).0 != db
  {
    var after := InsertTask(db, row, clock, now).0;
    assert InsertTask(db, row, clock, now).1.Ok? ==> |after.history| == |db.history| + 1;
  }

  lemma CreationWrites(s: Sys, r: nat, clock: Time, now: Time)
    requires Ready(s, r) && s.reqs[r].NewInsert?
    ensures var t := AdvanceCreation(s, r, s.reqs[r], clock, now);
            && t.trace != [] && t.redis == s.redis && t.captures == s.captures && r in t.reqs
            && Continues(Now(s), s.reqs[r], Now(t), t.reqs[r], clock, now)
  {
    hide InsertTask;
    InsertChanges(Now(s), s.reqs[r].row, clock, now);
  }

  lemma LoadReads(s: Sys, r: nat, clock: Time, now: Time)
    requires Ready(s, r) && s.reqs[r].Load?
    ensures var t := AdvanceUpdate(s, r, s.reqs[r], clock, now);
            && t == Goto(s, r, t.reqs[r])
            && Continues(Now(s), s.reqs[r], Now(s), t.reqs[r], clock, now)
  {
    hide FromPlan;
  }

  lemma CheckReads(s: Sys, r: nat, clock: Time, now: Time)
    requires Ready(s, r) && s.reqs[r].CheckAssignee?
    ensures var t := AdvanceUpdate(s, r, s.reqs[r], clock, now);
            && t == Goto(s, r, t.reqs[r])
            && Continues(Now(s), s.reqs[r], Now(s), t.reqs[r], clock, now)
  {
    hide FromSwap, DiffOf, Applied, AssigneeInTeam;
  }

  lemma PlanContinues(db: DB, member: Actor, patch: Patch, loadedAt: nat, roleAt: nat, task: Task,
                      clock: Time, now: Time)
    requires Membership(db, task.teamId, member.userId) == Ok(member)
    ensures var q := LoadRole(member.userId, patch, loadedAt, task);
            Continues(db, q, db, AfterPlan(member, patch, loadedAt, roleAt, task), clock, now)
  {
    hide FromSwap, DiffOf, AuthorizeTaskUpdate, Applied, PlanUpdate;
    if PlanUpdate(member, task, patch).Ok? {
      PlannedUpdate(member, task, patch);
    }
  }

  lemma PlanReads(s: Sys, r: nat, clock: Time, now: Time)
    requires Ready(s, r) && s.reqs[r].LoadRole?
    ensures var t := AdvanceUpdate(s, r, s.reqs[r], clock, now);
            && t == Goto(s, r, t.reqs[r])
            && Continues(Now(s), s.reqs[r], Now(s), t.reqs[r], clock, now)
  {
    hide AfterPlan, FromPlan;
    var LoadRole(actor, patch, loadedAt, task) := s.reqs[r];
    var member := Membership(Now(s), task.teamId, actor);
    if member.Ok? {
      PlanContinues(Now(s), member.value, patch, loadedAt, |s.trace| - 1, task, clock, now);
    }
  }

  lemma SwapChanges(db: DB, id: Id, expected: int, upd: TaskUpdate, author: Id, changes: Changes,
                    clock: Time, now: Time)
    ensures var (after, res) := CompareAndSwap(db, id, expected, upd, author, changes, clock, now);
            res.Ok? ==> after != db
  {
    var (after, res) := CompareAndSwap(db, id, expected, upd, author, changes, clock, now);
    assert res.Ok? ==> |after.history| == |db.history| + 1;
  }

  /** Where an update goes after its transaction. */
  predicate SwapEnds(q: Req, swap: (DB, Result<Task, StoreError>), next: Req) {
    match swap.1
    case Ok(saved) => next.Flush? && next.teamId == saved.teamId && next.response == TaskIs(saved)
    case Err(e) => next.Finished? && next.response == Failed(if e.VersionConflict? then LostRace else Internal)
  }

  lemma SwapContinues(db: DB, q: Req, swap: (DB, Result<Task, StoreError>), next: Req, clock: Time, now: Time)
    requires q.Swap? && SwapEnds(q, swap, next) && (swap.1.Ok? ==> swap.0 != db)
    requires var Swap(actor, patch, _, _, task) := q;
             var changes := DiffOf(task, patch);
             swap == CompareAndSwap(db, task.id, task.version, UpdateFor(task, changes, clock), actor, changes, clock, now)
    ensures Continues(db, q, if swap.1.Ok? then swap.0 else db, next, clock, now)
  {
    hide DiffOf, UpdateFor, CompareAndSwap;
  }

  lemma SwapGoes(s: Sys, r: nat, swap: (DB, Result<Task, StoreError>), clock: Time, now: Time)
    requires Ready(s, r) && s.reqs[r].Swap?
    requires var Swap(actor, patch, _, _, task) := s.reqs[r];
             var changes := DiffOf(task, patch);
             swap == CompareAndSwap(Now(s), task.id, task.version, UpdateFor(task, changes, clock), actor, changes,
                                    clock, now)
    ensures var t := AdvanceUpdate(s, r, s.reqs[r], clock, now);
            && t.trace == (if swap.1.Ok? then s.trace + [swap.0] else s.trace)
            && t.redis == s.redis && t.captures == s.captures && r in t.reqs && SwapEnds(s.reqs[r], swap, t.reqs[r])
  {
    hide DiffOf, UpdateFor, CompareAndSwap, AfterPlan, SelectRole, SelectTask, AssigneeInTeam, Applied;
  }

  lemma SwapWrites(s: Sys, r: nat, clock: Time, now: Time)
    requires Ready(s, r) && s.reqs[r].Swap?
    ensures var t := AdvanceUpdate(s, r, s.reqs[r], clock, now);
            && t.trace != [] && t.redis == s.redis && t.captures == s.captures && r in t.reqs
            && Continues(Now(s), s.reqs[r], Now(t), t.reqs[r], clock, now)
  {
    hide DiffOf, UpdateFor, CompareAndSwap, AdvanceUpdate, Continues, SwapEnds;
    var Swap(actor, patch, _, _, task) := s.reqs[r];
    var changes := DiffOf(task, patch);
    var swap := CompareAndSwap(Now(s), task.id, task.version, UpdateFor(task, changes, clock), actor, changes, clock, now);
    SwapChanges(Now(s), task.id, task.version, UpdateFor(task, changes, clock), actor, changes, clock, now);
    SwapGoes(s, r, swap, clock, now);
    SwapContinues(Now(s), s.reqs[r], swap, AdvanceUpdate(s, r, s.reqs[r], clock, now).reqs[r], clock, now);
  }

  lemma TasksProgress(s: Sys, r: nat, effective: bool, calls: Calls, clock: Time, now: Time)
    requires Ready(s, r)
    ensures var q := s.reqs[r];
            && (q.NewActor? || q.NewAssignee? || q.NewInsert? ==>
                  Progress(s, r, AdvanceCreation(s, r, q, clock, now), effective, calls, clock, now))
            && (q.Load? || q.LoadRole? || q.CheckAssignee? || q.Swap? ==>
                  Progress(s, r, AdvanceUpdate(s, r, q, clock, now), effective, calls, clock, now))
  {
    hide Continues, Progress, AdvanceCreation, AdvanceUpdate;
    var q := s.reqs[r];
    if q.NewActor? || q.NewAssignee? || q.NewInsert? {
      if q.NewInsert? {
        CreationWrites(s, r, clock, now);
      } else if q.NewActor? {
        MemberReads(s, r, clock, now);
      } else {
        AssigneeReads(s, r, clock, now);
      }
      StepContinues(s, r, AdvanceCreation(s, r, q, clock, now), effective, calls, clock, now);
    } else if q.Load? || q.LoadRole? || q.CheckAssignee? || q.Swap? {
      if q.Swap? {
        SwapWrites(s, r, clock, now);
      } else if q.LoadRole? {
        PlanReads(s, r, clock, now);
      } else if q.Load? {
        LoadReads(s, r, clock, now);
      } else {
        CheckReads(s, r, clock, now);
      }
      StepContinues(s, r, AdvanceUpdate(s, r, q, clock, now), effective, calls, clock, now);
    }
  }

  lemma FlushProgress(s: Sys, r: nat, effective: bool, calls: Calls, clock: Time, now: Time)
    requires Ready(s, r) && s.reqs[r].Flush?
    ensures Progress(s, r, AdvanceFlush(s, r, s.reqs[r], effective), effective, calls, clock, now)
  {
    hide PagesOf, Increment;
    var f := TaskFilter(s.reqs[r].teamId, None, None, 0, 0);
    PagesWritten(s.redis, f, 0, Stored(TaskPage([], 0, 0), Origin(f, 0, 0, {})));
  }

  lemma AdmissionGoes(s: Sys, r: nat, effective: bool) returns (next: Req)
    requires Ready(s, r) && s.reqs[r].ListRole?
    ensures AdvanceList(s, r, s.reqs[r], effective) == Goto(s, r, next)
    ensures match Membership(Now(s), s.reqs[r].filter.teamId, s.reqs[r].actor)
            case Err(e) => next == Finished(Failed(e), Plain)
            case Ok(_) => next == GetGeneration(s.reqs[r].filter)
  {
    hide SelectRole;
    next := match Membership(Now(s), s.reqs[r].filter.teamId, s.reqs[r].actor)
      case Err(e) => Finished(Failed(e), Plain)
      case Ok(_) => GetGeneration(s.reqs[r].filter);
  }

  lemma AdmissionProgress(s: Sys, r: nat, effective: bool, calls: Calls, clock: Time, now: Time)
    requires Ready(s, r) && s.reqs[r].ListRole?
    ensures Progress(s, r, AdvanceList(s, r, s.reqs[r], effective), effective, calls, clock, now)
  {
    hide PagesOf, AdvanceList, Progress, Membership, Coherence.FromLookup, Coherence.Flushed, FromPlace;
    var next := AdmissionGoes(s, r, effective);
    ListStays(s, r, next, effective, calls, clock, now);
  }

  /** A list request moved on without a write. */
  lemma ListStays(s: Sys, r: nat, next: Req, effective: bool, calls: Calls, clock: Time, now: Time)
    requires Ready(s, r) && (next.Finished? || (Paged(next) && Steps(next) < Steps(s.reqs[r])))
    requires Meaning(Now(s), PagesOf(s.redis), s.reqs[r], With(s.reqs[r], effective, calls), clock, now) ==
             Meaning(Now(s), PagesOf(s.redis), next, calls, clock, now)
    ensures Progress(s, r, Goto(s, r, next), effective, calls, clock, now)
  {
    hide Meaning, PagesOf;
  }

  lemma ProbeMeans(db: DB, redis: Pages, q: Req, next: Req, effective: bool, calls: Calls, clock: Time, now: Time)
    requires q.GetGeneration? && Paged(q) && (next.GetPage? || next.RunQuery?) && next.filter == q.filter
    requires var gen := Generation(redis, q.filter.teamId);
             if effective && gen.Ok? then next.GetPage? && next.gen == gen.value else next.RunQuery?
    ensures Meaning(db, redis, q, With(q, effective, calls), clock, now) == Meaning(db, redis, next, calls, clock, now)
  {
    hide Generation, Lookup, Query, Coherence.Flushed, FromPlace, Redis.Store;
  }

  lemma ProbeGoes(s: Sys, r: nat, effective: bool) returns (next: Req)
    requires Ready(s, r) && s.reqs[r].GetGeneration?
    ensures var f, gen := s.reqs[r].filter, Generation(s.redis, s.reqs[r].filter.teamId);
            && AdvanceList(s, r, s.reqs[r], effective) == Goto(s, r, next)
            && (next.GetPage? || next.RunQuery?) && next.filter == f
            && if effective && gen.Ok? then next.GetPage? && next.gen == gen.value else next.RunQuery?
  {
    hide Generation, Dirty;
    var f, gen := s.reqs[r].filter, Generation(s.redis, s.reqs[r].filter.teamId);
    next := if effective && gen.Ok? then GetPage(f, gen.value, |s.trace| - 1, Dirty(s.writes, s.flushed, f.teamId))
            else RunQuery(f, None);
  }

  lemma ProbeProgress(s: Sys, r: nat, effective: bool, calls: Calls, clock: Time, now: Time)
    requires Ready(s, r) && s.reqs[r].GetGeneration?
    ensures Progress(s, r, AdvanceList(s, r, s.reqs[r], effective), effective, calls, clock, now)
  {
    hide PagesOf, Generation, Lookup, AdvanceList, Meaning, Progress;
    PagesRead(s.redis, s.reqs[r].filter, 0);
    var next := ProbeGoes(s, r, effective);
    ProbeMeans(Now(s), PagesOf(s.redis), s.reqs[r], next, effective, calls, clock, now);
    ListStays(s, r, next, effective, calls, clock, now);
  }

  lemma LookupMeans(db: DB, redis: Pages, q: Req, next: Req, effective: bool, calls: Calls, clock: Time, now: Time)
    requires q.GetPage? && Paged(q)
    requires var hit := Lookup(redis, q.filter, q.gen);
             if effective && hit.Some? then next.Finished? && next.response == PageIs(hit.value)
             else next.RunQuery? && next.filter == q.filter
    ensures Meaning(db, redis, q, With(q, effective, calls), clock, now) == Meaning(db, redis, next, calls, clock, now)
  {
    hide Generation, Lookup, Query, Coherence.Flushed, FromPlace, Redis.Store;
  }

  lemma LookupGoes(s: Sys, r: nat, effective: bool) returns (next: Req)
    requires Ready(s, r) && s.reqs[r].GetPage?
    ensures var hit := Lookup(s.redis, s.reqs[r].filter, s.reqs[r].gen);
            && AdvanceList(s, r, s.reqs[r], effective) == Goto(s, r, next)
            && if effective && hit.Some? then next.Finished? && next.response == PageIs(hit.value.page)
               else next.RunQuery? && next.filter == s.reqs[r].filter
  {
    hide Lookup;
    var GetPage(f, gen, probedAt, dirty) := s.reqs[r];
    var hit := Lookup(s.redis, f, gen);
    next := if effective && hit.Some? then
              Finished(PageIs(hit.value.page), Served(f, hit.value.origin, probedAt, |s.trace| - 1, dirty))
            else RunQuery(f, None);
  }

  lemma LookupProgress(s: Sys, r: nat, effective: bool, calls: Calls, clock: Time, now: Time)
    requires Ready(s, r) && s.reqs[r].GetPage?
    ensures Progress(s, r, AdvanceList(s, r, s.reqs[r], effective), effective, calls, clock, now)
  {
    hide PagesOf, Generation, Lookup, AdvanceList, Meaning, Progress;
    PagesRead(s.redis, s.reqs[r].filter, s.reqs[r].gen);
    var next := LookupGoes(s, r, effective);
    LookupMeans(Now(s), PagesOf(s.redis), s.reqs[r], next, effective, calls, clock, now);
    ListStays(s, r, next, effective, calls, clock, now);
  }

  lemma QueryProgress(s: Sys, r: nat, effective: bool, calls: Calls, clock: Time, now: Time)
    requires Ready(s, r) && s.reqs[r].RunQuery?
    ensures Progress(s, r, AdvanceList(s, r, s.reqs[r], effective), effective, calls, clock, now)
  {
    hide PagesOf, Query, Generation, Lookup;
  }

  lemma FillMeans(db: DB, redis: Pages, q: Req, next: Req, effective: bool, calls: Calls, clock: Time, now: Time)
    requires q.SetGeneration? && Paged(q)
    requires var gen := Generation(redis, q.filter.teamId);
             if effective && gen.Ok? then
               next.SetPage? && (next.filter, next.page, next.origin.gen) == (q.filter, q.page, gen.value)
             else next.Finished? && next.response == PageIs(q.page)
    ensures Meaning(db, redis, q, With(q, effective, calls), clock, now) == Meaning(db, redis, next, calls, clock, now)
  {
    hide Generation, Lookup, Query, Coherence.Flushed, FromPlace, Redis.Store;
  }

  lemma FillGoes(s: Sys, r: nat, effective: bool) returns (next: Req)
    requires Ready(s, r) && s.reqs[r].SetGeneration?
    ensures var q, gen := s.reqs[r], Generation(s.redis, s.reqs[r].filter.teamId);
            && AdvanceList(s, r, s.reqs[r], effective) == Goto(s, r, next)
            && if effective && gen.Ok? then
                 next.SetPage? && (next.filter, next.page, next.origin.gen) == (q.filter, q.page, gen.value)
               else next.Finished? && next.response == PageIs(q.page)
  {
    hide Generation, Late;
    var SetGeneration(f, page, readAt) := s.reqs[r];
    var gen := Generation(s.redis, f.teamId);
    next := if effective && gen.Ok? then
              SetPage(f, page, Origin(f, gen.value, readAt, Late(s.writes, s.flushed, f.teamId, readAt)))
            else Finished(PageIs(page), Queried(f, readAt));
  }

  lemma FillProgress(s: Sys, r: nat, effective: bool, calls: Calls, clock: Time, now: Time)
    requires Ready(s, r) && s.reqs[r].SetGeneration?
    ensures Progress(s, r, AdvanceList(s, r, s.reqs[r], effective), effective, calls, clock, now)
  {
    hide PagesOf, Generation, Lookup, AdvanceList, Meaning, Progress;
    PagesRead(s.redis, s.reqs[r].filter, 0);
    var next := FillGoes(s, r, effective);
    FillMeans(Now(s), PagesOf(s.redis), s.reqs[r], next, effective, calls, clock, now);
    ListStays(s, r, next, effective, calls, clock, now);
  }

  lemma StoreProgress(s: Sys, r: nat, effective: bool, calls: Calls, clock: Time, now: Time)
    requires Ready(s, r) && s.reqs[r].SetPage?
    ensures Progress(s, r, AdvanceList(s, r, s.reqs[r], effective), effective, calls, clock, now)
  {
    hide PagesOf, Redis.Store, Coherence.Flushed, Coherence.FromLookup, Coherence.FromQuery, FromPlace;
    var SetPage(f, page, o) := s.reqs[r];
    PagesWritten(s.redis, f, o.gen, Stored(page, o));
  }

  lemma ListProgress(s: Sys, r: nat, effective: bool, calls: Calls, clock: Time, now: Time)
    requires Ready(s, r) && ListStep(s.reqs[r])
    ensures Progress(s, r, AdvanceList(s, r, s.reqs[r], effective), effective, calls, clock, now)
  {
    hide Progress, AdvanceList;
    match s.reqs[r]
    case ListRole(_, _) => AdmissionProgress(s, r, effective, calls, clock, now);
    case GetGeneration(_) => ProbeProgress(s, r, effective, calls, clock, now);
    case GetPage(_, _, _, _) => LookupProgress(s, r, effective, calls, clock, now);
    case RunQuery(_, _) => QueryProgress(s, r, effective, calls, clock, now);
    case SetGeneration(_, _, _) => FillProgress(s, r, effective, calls, clock, now);
    case SetPage(_, _, _) => StoreProgress(s, r, effective, calls, clock, now);
  }

  lemma FinishedProgress(s: Sys, r: nat, effective: bool, calls: Calls, clock: Time, now: Time)
    requires Ready(s, r) && s.reqs[r].Finished?
    ensures Progress(s, r, AdvanceTeams(s, r, s.reqs[r], now), effective, calls, clock, now)
  {
    hide PagesOf;
  }

  /** Every step of a request keeps what it leads to, if the command of the step counts as it went. */
  lemma StepProgress(s: Sys, r: nat, effective: bool, calls: Calls, clock: Time, now: Time)
    requires Ready(s, r)
    ensures Progress(s, r, Do(s, Advance(r, effective, clock, now)), effective, calls, clock, now)
  {
    hide Progress, AdvanceList, AdvanceFlush, AdvanceTeams, AdvanceCreation, AdvanceUpdate;
    var q := s.reqs[r];
    if ListStep(q) {
      ListProgress(s, r, effective, calls, clock, now);
    } else if q.Flush? {
      FlushProgress(s, r, effective, calls, clock, now);
    } else if q.Finished? {
      FinishedProgress(s, r, effective, calls, clock, now);
    } else if InvitePlace(q) || RolePlace(q) {
      TeamsProgress(s, r, effective, calls, clock, now);
    } else {
      TasksProgress(s, r, effective, calls, clock, now);
    }
  }

  // ---------- all the steps ----------

  /** Request r takes one step after the other; flags says whether the Redis command of a step, if it has
      one, takes effect. */
  function Alone(s: Sys, r: nat, flags: seq<bool>, clock: Time, now: Time): Sys
    requires s.trace != []
    decreases |flags|
  {
    if flags == [] then s else Alone(Do(s, Advance(r, flags[0], clock, now)), r, flags[1..], clock, now)
  }

  const NO_CALLS := Calls(false, false, false, false, false)

  /** Which of its Redis calls took effect meanwhile. */
  function CallsOf(s: Sys, r: nat, flags: seq<bool>, clock: Time, now: Time): Calls
    requires s.trace != []
    decreases |flags|
  {
    if flags == [] || r !in s.reqs then NO_CALLS
    else With(s.reqs[r], flags[0], CallsOf(Do(s, Advance(r, flags[0], clock, now)), r, flags[1..], clock, now))
  }

  /** The request is over, with this state, keyspace and answer. */
  predicate Ended(s: Sys, r: nat, result: (DB, Pages, Response)) {
    && s.trace != [] && r in s.reqs && s.reqs[r].Finished?
    && (Now(s), PagesOf(s.redis), s.reqs[r].response) == result
  }

  lemma FinishedLeads(s: Sys, r: nat, calls: Calls, clock: Time, now: Time)
    requires Ready(s, r) && Steps(s.reqs[r]) == 0
    ensures s.reqs[r].Finished?
    ensures Leads(s, r, calls, clock, now) == (Now(s), PagesOf(s.redis), s.reqs[r].response)
  {
  }

  lemma {:induction false} AloneEnds(s: Sys, r: nat, flags: seq<bool>, clock: Time, now: Time)
    requires Ready(s, r) && Steps(s.reqs[r]) <= |flags|
    ensures Ended(Alone(s, r, flags, clock, now), r, Leads(s, r, CallsOf(s, r, flags, clock, now), clock, now))
    decreases |flags|
  {
    hide Do, Leads, With, PagesOf;
    if flags == [] {
      FinishedLeads(s, r, NO_CALLS, clock, now);
    } else {
      var t := Do(s, Advance(r, flags[0], clock, now));
      StepProgress(s, r, flags[0], CallsOf(t, r, flags[1..], clock, now), clock, now);
      AloneEnds(t, r, flags[1..], clock, now);
    }
  }

  lemma StartsThere(s: Sys, r: nat, op: Op)
    requires s.trace != [] && r !in s.reqs && Opening(op).Some?
    ensures Do(s, Start(r, op)) == Goto(s, r, Opening(op).value)
  {
  }

  lemma KeyedRow(db: DB)
    requires Keyed(db)
    ensures forall id :: id in db.tasks ==> db.tasks[id].id == id
  {
  }

  // ---------- the sequential meaning ----------

  lemma OpeningMeans(db: DB, redis: Pages, op: Op, calls: Calls, clock: Time, now: Time)
    requires Opening(op).Some?
    ensures var q := Opening(op).value;
            && Steps(q) <= 6 && (ListStep(q) ==> Paged(q)) && (q.Load? ==> op.UpdateTask? && q.taskId == op.task)
            && Meaning(db, redis, q, calls, clock, now) == Coherence.Serve(db, redis, true, op, clock, now, calls)
  {
    hide Validate, ValidateInvite, ValidateCreation, ValidateFilter, NormalizeTeamName, RowFor, Coherence.FromLookup,
      FromLoad, FromNewActor, FromInviteActor, FromRoleActor, FromTeamInsert;
  }

  /** A request that takes all its steps in a row, from whatever state of the system and whichever of its
      Redis calls fail, is finished after six of them, and database, keyspace and answer are those of
      Coherence.Serve, with the calls that took effect. */
  lemma SoloRequest(s: Sys, r: nat, flags: seq<bool>, op: Op, clock: Time, now: Time)
    requires |flags| >= 6 && s.trace != [] && !s.captures && r !in s.reqs && Opening(op).Some? && Keyed(Now(s))
    ensures var t := Do(s, Start(r, op));
            var calls := CallsOf(t, r, flags, clock, now);
            Ended(Alone(t, r, flags, clock, now), r,
                  Coherence.Serve(Now(s), PagesOf(s.redis), true, op, clock, now, calls))
  {
    hide CallsOf, Alone, Opening, Do, PagesOf, Meaning, Keyed, Coherence.Serve;
    var t := Do(s, Start(r, op));
    var calls := CallsOf(t, r, flags, clock, now);
    StartsThere(s, r, op);
    assert op.UpdateTask? && op.task in Now(s).tasks ==> Now(s).tasks[op.task].id == op.task by { KeyedRow(Now(s)); }
    OpeningMeans(Now(s), PagesOf(s.redis), op, calls, clock, now);
    AloneEnds(t, r, flags, clock, now);
  }

  lemma {:induction false} NothingEffective(s: Sys, r: nat, flags: seq<bool>, clock: Time, now: Time)
    requires s.trace != [] && forall k :: 0 <= k < |flags| ==> !flags[k]
    ensures CallsOf(s, r, flags, clock, now) == NO_CALLS
    decreases |flags|
  {
    if flags != [] && r in s.reqs {
      NothingEffective(Do(s, Advance(r, flags[0], clock, now)), r, flags[1..], clock, now);
    }
  }

  lemma ServedWithoutRedis(db: DB, redis: Pages, op: Op, clock: Time, now: Time)
    ensures var (after, response) := Exec(db, op, clock, now);
            Coherence.Serve(db, redis, true, op, clock, now, NO_CALLS) == (after, redis, response)
  {
  }

  /** With Redis out of reach, the effect and the answer are the plain ones of Execution.Exec. */
  lemma SoloWithoutRedis(s: Sys, r: nat, flags: seq<bool>, op: Op, clock: Time, now: Time)
    requires |flags| >= 6 && s.trace != [] && !s.captures && r !in s.reqs && Opening(op).Some? && Keyed(Now(s))
    requires forall k :: 0 <= k < |flags| ==> !flags[k]
    ensures var (after, response) := Exec(Now(s), op, clock, now);
            Ended(Alone(Do(s, Start(r, op)), r, flags, clock, now), r, (after, PagesOf(s.redis), response))
  {
    SoloRequest(s, r, flags, op, clock, now);
    NothingEffective(Do(s, Start(r, op)), r, flags, clock, now);
    ServedWithoutRedis(Now(s), PagesOf(s.redis), op, clock, now);
  }

  /** On a coherent cache, the effect and the answer are the plain ones whichever Redis calls fail, and the
      cache stays coherent unless the request wrote a task and the call that failed is Invalidate's. */
  lemma SoloCoherent(s: Sys, r: nat, flags: seq<bool>, op: Op, clock: Time, now: Time)
    requires |flags| >= 6 && s.trace != [] && !s.captures && r !in s.reqs && Opening(op).Some?
    requires Sound(Now(s)) && Coherence.Coherent(Now(s), PagesOf(s.redis))
    ensures var t := Alone(Do(s, Start(r, op)), r, flags, clock, now);
            && t.trace != [] && r in t.reqs && t.reqs[r].Finished?
            && (Now(t), t.reqs[r].response) == Exec(Now(s), op, clock, now)
    ensures (CallsOf(Do(s, Start(r, op)), r, flags, clock, now).incr || !Coherence.WritesTask(Now(s), op, clock, now))
            ==> var t := Alone(Do(s, Start(r, op)), r, flags, clock, now);
                t.trace != [] && Coherence.Coherent(Now(t), PagesOf(t.redis))
  {
    var calls := CallsOf(Do(s, Start(r, op)), r, flags, clock, now);
    SoloRequest(s, r, flags, op, clock, now);
    Coherence.ServeCoherent(Now(s), PagesOf(s.redis), true, op, clock, now, calls);
  }
}
