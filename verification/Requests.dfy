/** What the answer to a request has to do with the request that the client sent, and with the states that
    were current from the moment it was sent. */
module Requests {
  import opened Outcomes
  import opened Domain
  import opened TaskPatch
  import opened TaskLog
  import opened Database
  import opened Operations
  import opened Listings
  import opened Redis
  import opened Protocol
  import opened ProtocolSafety
  import opened ProtocolTheorems
  import opened CacheStaleness
  import opened Promises
  import opened Verdicts

  // ---------- the request that was sent ----------

  /** The n-th event is the start of request r, which is to carry out op. */
  predicate StartedAt(events: seq<Event>, n: nat, r: nat, op: Op) {
    && n < |events| && events[n] == Start(r, op)
    && r !in Run(events[..n]).reqs && Opening(op).Some?
  }

  /** The trace position that is current when the n-th event takes place. */
  function PositionAt(events: seq<Event>, n: nat): nat
    requires n <= |events|
  {
    |Run(events[..n]).trace| - 1
  }

  /** The change of a role is the one that was asked for, judged on a role held since position from. */
  predicate EnrolsAsSent(trace: seq<DB>, op: Op, from: nat, c: Enrolment) {
    && from <= c.roleAt && c.at < |trace|
    && match op
       case InviteMember(actor, team, invite) =>
         && c.invited && (c.actor, c.team, c.role) == (actor, team, WithRole(invite).role)
         && Named(trace[c.at], WithRole(invite), c.user)
       case ChangeMemberRole(actor, team, user, role) =>
         !c.invited && (c.actor, c.team, c.user, c.role) == (actor, team, user, role)
       case _ => false
  }

  predicate ListsAsSent(op: Op, f: TaskFilter) {
    op.ListTasks? && f == NormalizeFilter(op.filter)
  }

  /** The answer belongs to op, and rests on nothing read before position from, the page of the cache aside. */
  predicate Answered(trace: seq<DB>, op: Op, from: nat, response: Response, note: Note) {
    match note
    case Plain => response.Failed?
    case Founded(c) =>
      op.CreateTeam? && c.actor == op.actor && NormalizeTeamName(op.name) == Ok(c.name) && from < c.at
    case Enrolled(c) => EnrolsAsSent(trace, op, from, c)
    case Created(c) => op.CreateTask? && c.row == RowFor(op.actor, op.request) && from < c.at
    case Updated(c) => op == UpdateTask(c.actor, c.task, c.patch) && from <= c.loadedAt
    case Unchanged(patch, loadedAt) =>
      && response.TaskIs? && op.UpdateTask? && (op.task, op.patch) == (response.task.id, patch)
      && from <= loadedAt
    case Served(f, _, probedAt, _, _) => response.PageIs? && ListsAsSent(op, f) && from <= probedAt
    case Queried(f, readAt) => response.PageIs? && ListsAsSent(op, f) && from <= readAt
  }

  // ---------- every place of a request belongs to it ----------

  predicate TeamPlace(q: Req, op: Op, from: nat) {
    match q
    case TeamInsert(actor, name) => op.CreateTeam? && op.actor == actor && NormalizeTeamName(op.name) == Ok(name)
    case InviteActor(actor, team, invite) =>
      op.InviteMember? && (actor, team, invite) == (op.actor, op.team, WithRole(op.invite))
    case InviteUser(actor, team, invite, roleAt) =>
      op.InviteMember? && (actor, team, invite) == (op.actor, op.team, WithRole(op.invite)) && from <= roleAt
    case InviteInsert(actor, team, invite, _, roleAt) =>
      op.InviteMember? && (actor, team, invite) == (op.actor, op.team, WithRole(op.invite)) && from <= roleAt
    case RoleActor(actor, team, user, role) => op == ChangeMemberRole(actor, team, user, role)
    case RoleTarget(actor, team, user, role, _, roleAt) =>
      op == ChangeMemberRole(actor, team, user, role) && from <= roleAt
    case RoleWrite(actor, team, user, role, roleAt) =>
      op == ChangeMemberRole(actor, team, user, role) && from <= roleAt
    case _ => false
  }

  predicate CreationPlace(q: Req, op: Op) {
    (q.NewActor? || q.NewAssignee? || q.NewInsert?) && op.CreateTask? && q.row == RowFor(op.actor, op.request)
  }

  predicate UpdatePlace(q: Req, op: Op, from: nat) {
    match q
    case Load(actor, id, patch) => op == UpdateTask(actor, id, patch)
    case LoadRole(actor, patch, loadedAt, task) => op == UpdateTask(actor, task.id, patch) && from <= loadedAt
    case CheckAssignee(actor, patch, loadedAt, _, task) => op == UpdateTask(actor, task.id, patch) && from <= loadedAt
    case Swap(actor, patch, loadedAt, _, task) => op == UpdateTask(actor, task.id, patch) && from <= loadedAt
    case _ => false
  }

  predicate ListPlace(q: Req, op: Op, from: nat) {
    match q
    case ListRole(actor, f) => ListsAsSent(op, f) && actor == op.actor
    case GetGeneration(f) => ListsAsSent(op, f)
    case GetPage(f, _, probedAt, _) => ListsAsSent(op, f) && from <= probedAt
    case RunQuery(f, _) => ListsAsSent(op, f)
    case SetGeneration(f, _, readAt) => ListsAsSent(op, f) && from <= readAt
    case SetPage(f, _, o) => ListsAsSent(op, f) && from <= o.readAt
    case _ => false
  }

  /** The answer is known. */
  predicate Ending(q: Req) {
    q.Flush? || q.Finished?
  }

  /** The place is one of a request that was sent as op when the position from was current. */
  predicate Belongs(trace: seq<DB>, q: Req, op: Op, from: nat) {
    if Ending(q) then
      Answered(trace, op, from, q.response, q.note) && (q.Flush? ==> q.note.Created? || q.note.Updated?)
    else TeamPlace(q, op, from) || CreationPlace(q, op) || UpdatePlace(q, op, from) || ListPlace(q, op, from)
  }

  lemma BelongsGrows(trace: seq<DB>, grown: seq<DB>, q: Req, op: Op, from: nat)
    requires trace <= grown && Belongs(trace, q, op, from)
    ensures Belongs(grown, q, op, from)
  {
    hide NormalizeTeamName, NormalizeFilter, RowFor, Named, WithRole;
  }

  // ---------- one step ----------

  /** Request r, and no other, has moved on, to a place that belongs to it if its last one did. */
  predicate Moved(s: Sys, r: nat, t: Sys, op: Op, from: nat) {
    && r in s.reqs && r in t.reqs && t.reqs == s.reqs[r := t.reqs[r]]
    && (Belongs(s.trace, s.reqs[r], op, from) ==> Belongs(t.trace, t.reqs[r], op, from))
  }

  lemma InviteMoved(trace: seq<DB>, q: Req, now: Time, op: Op, from: nat)
    requires trace != [] && from < |trace| && ReqOk(trace, q)
    requires (q.InviteActor? || q.InviteUser? || q.InviteInsert?) && TeamPlace(q, op, from)
    ensures var o := TeamOutcome(trace[|trace| - 1], q, |trace| - 1, now);
            Belongs(if o.Write? then trace + [o.db] else trace, o.next, op, from)
  {
    hide ReqOk, AuthorizeInvite, ResolveInvitee, WithRole;
    if q.InviteInsert? {
      assert Named(trace[|trace| - 1], q.invite, q.user) by { InviteKnows(trace, q); }
    }
  }

  lemma InviteKnows(trace: seq<DB>, q: Req)
    requires trace != [] && ReqOk(trace, q) && q.InviteInsert?
    ensures Named(trace[|trace| - 1], q.invite, q.user)
  {
  }

  lemma RoleMoved(trace: seq<DB>, q: Req, now: Time, op: Op, from: nat)
    requires trace != [] && from < |trace|
    requires (q.TeamInsert? || q.RoleActor? || q.RoleTarget? || q.RoleWrite?) && TeamPlace(q, op, from)
    ensures var o := TeamOutcome(trace[|trace| - 1], q, |trace| - 1, now);
            Belongs(if o.Write? then trace + [o.db] else trace, o.next, op, from)
  {
    hide AuthorizeRoleChange, NormalizeTeamName;
  }

  lemma TeamBelongs(trace: seq<DB>, q: Req, op: Op, from: nat)
    requires OnTeams(q)
    ensures Belongs(trace, q, op, from) <==> TeamPlace(q, op, from)
  {
    hide TeamPlace;
  }

  lemma OutcomeMoved(s: Sys, r: nat, now: Time, op: Op, from: nat)
    requires s.trace != [] && r in s.reqs
    requires var o := TeamOutcome(Now(s), s.reqs[r], |s.trace| - 1, now);
             Belongs(s.trace, s.reqs[r], op, from) ==>
               Belongs(if o.Write? then s.trace + [o.db] else s.trace, o.next, op, from)
    ensures Moved(s, r, AdvanceTeams(s, r, s.reqs[r], now), op, from)
  {
    hide TeamOutcome, Belongs;
  }

  lemma TeamsMoved(s: Sys, r: nat, now: Time, op: Op, from: nat)
    requires s.trace != [] && from < |s.trace| && r in s.reqs && ReqOk(s.trace, s.reqs[r]) && OnTeams(s.reqs[r])
    ensures Moved(s, r, AdvanceTeams(s, r, s.reqs[r], now), op, from)
  {
    hide ReqOk, TeamOutcome, TeamPlace, Belongs, AdvanceTeams, Moved;
    var q := s.reqs[r];
    TeamBelongs(s.trace, q, op, from);
    if TeamPlace(q, op, from) {
      if q.InviteActor? || q.InviteUser? || q.InviteInsert? {
        InviteMoved(s.trace, q, now, op, from);
      } else {
        RoleMoved(s.trace, q, now, op, from);
      }
    }
    OutcomeMoved(s, r, now, op, from);
  }

  lemma CreationBelongs(trace: seq<DB>, q: Req, op: Op, from: nat)
    requires q.NewActor? || q.NewAssignee? || q.NewInsert?
    ensures Belongs(trace, q, op, from) <==> CreationPlace(q, op)
  {
    hide CreationPlace;
  }

  lemma CreationReadMoved(s: Sys, r: nat, clock: Time, now: Time, op: Op, from: nat)
    requires s.trace != [] && r in s.reqs && (s.reqs[r].NewActor? || s.reqs[r].NewAssignee?)
    ensures Moved(s, r, AdvanceCreation(s, r, s.reqs[r], clock, now), op, from)
  {
    hide RowFor, AssigneeInTeam, Membership, TeamPlace, UpdatePlace, ListPlace;
    CreationBelongs(s.trace, s.reqs[r], op, from);
  }

  lemma CreationWriteMoved(s: Sys, r: nat, clock: Time, now: Time, op: Op, from: nat)
    requires s.trace != [] && from < |s.trace| && r in s.reqs && s.reqs[r].NewInsert?
    ensures Moved(s, r, AdvanceCreation(s, r, s.reqs[r], clock, now), op, from)
  {
    hide RowFor, InsertTask, TeamPlace, UpdatePlace, ListPlace;
    CreationBelongs(s.trace, s.reqs[r], op, from);
  }

  lemma AfterPlanBelongs(trace: seq<DB>, member: Actor, patch: Patch, loadedAt: nat, roleAt: nat, task: Task, from: nat)
    requires from <= loadedAt
    ensures Belongs(trace, AfterPlan(member, patch, loadedAt, roleAt, task),
                    UpdateTask(member.userId, task.id, patch), from)
  {
    hide PlanUpdate, Applied;
  }

  lemma UpdateBelongs(trace: seq<DB>, q: Req, op: Op, from: nat)
    requires q.Load? || q.LoadRole? || q.CheckAssignee? || q.Swap?
    ensures Belongs(trace, q, op, from) <==> UpdatePlace(q, op, from)
  {
    hide UpdatePlace;
  }

  lemma LoadMoved(s: Sys, r: nat, clock: Time, now: Time, op: Op, from: nat)
    requires s.trace != [] && Keyed(Now(s)) && from < |s.trace| && r in s.reqs && s.reqs[r].Load?
    ensures Moved(s, r, AdvanceUpdate(s, r, s.reqs[r], clock, now), op, from)
  {
    hide AfterPlan, TeamPlace, CreationPlace, ListPlace;
    UpdateBelongs(s.trace, s.reqs[r], op, from);
  }

  lemma PlanMoved(s: Sys, r: nat, clock: Time, now: Time, op: Op, from: nat)
    requires s.trace != [] && r in s.reqs && s.reqs[r].LoadRole?
    ensures Moved(s, r, AdvanceUpdate(s, r, s.reqs[r], clock, now), op, from)
  {
    hide AfterPlan, TeamPlace, CreationPlace, ListPlace;
    UpdateBelongs(s.trace, s.reqs[r], op, from);
    var LoadRole(actor, patch, loadedAt, task) := s.reqs[r];
    var member := Membership(Now(s), task.teamId, actor);
    if member.Ok? && from <= loadedAt {
      AfterPlanBelongs(s.trace, member.value, patch, loadedAt, |s.trace| - 1, task, from);
    }
  }

  lemma SwapMoved(s: Sys, r: nat, clock: Time, now: Time, op: Op, from: nat)
    requires s.trace != [] && r in s.reqs && (s.reqs[r].CheckAssignee? || s.reqs[r].Swap?)
    ensures Moved(s, r, AdvanceUpdate(s, r, s.reqs[r], clock, now), op, from)
  {
    hide CompareAndSwap, UpdateFor, DiffOf, Applied, AssigneeInTeam, TeamPlace, CreationPlace, ListPlace;
    UpdateBelongs(s.trace, s.reqs[r], op, from);
  }

  lemma FlushMoved(s: Sys, r: nat, redisOk: bool, op: Op, from: nat)
    requires s.trace != [] && r in s.reqs && s.reqs[r].Flush?
    ensures Moved(s, r, AdvanceFlush(s, r, s.reqs[r], redisOk), op, from)
  {
    hide Answered, Increment;
  }

  lemma ListBelongs(trace: seq<DB>, q: Req, op: Op, from: nat)
    requires ListStep(q)
    ensures Belongs(trace, q, op, from) <==> ListPlace(q, op, from)
  {
    hide ListPlace;
  }

  /** What a place of a list request has to satisfy. */
  lemma NextBelongs(t: Sys, r: nat, op: Op, from: nat)
    requires r in t.reqs
    ensures var q := t.reqs[r];
            && (ListStep(q) && ListPlace(q, op, from) ==> Belongs(t.trace, q, op, from))
            && (q.Finished? && Answered(t.trace, op, from, q.response, q.note) ==> Belongs(t.trace, q, op, from))
  {
    hide ListPlace, Answered;
  }

  lemma AdmissionBelongs(s: Sys, r: nat, redisOk: bool, op: Op, from: nat)
    requires s.trace != [] && from < |s.trace| && r in s.reqs && s.reqs[r].ListRole? && ListPlace(s.reqs[r], op, from)
    ensures var t := AdvanceList(s, r, s.reqs[r], redisOk); r in t.reqs && Belongs(t.trace, t.reqs[r], op, from)
  {
    hide SelectRole, ListsAsSent, EnrolsAsSent, Belongs;
    NextBelongs(AdvanceList(s, r, s.reqs[r], redisOk), r, op, from);
  }

  lemma ProbeBelongs(s: Sys, r: nat, redisOk: bool, op: Op, from: nat)
    requires s.trace != [] && from < |s.trace|
    requires r in s.reqs && s.reqs[r].GetGeneration? && ListPlace(s.reqs[r], op, from)
    ensures var t := AdvanceList(s, r, s.reqs[r], redisOk); r in t.reqs && Belongs(t.trace, t.reqs[r], op, from)
  {
    hide Generation, Dirty, ListsAsSent, EnrolsAsSent, Belongs;
    NextBelongs(AdvanceList(s, r, s.reqs[r], redisOk), r, op, from);
  }

  lemma LookupBelongs(s: Sys, r: nat, redisOk: bool, op: Op, from: nat)
    requires s.trace != [] && from < |s.trace| && r in s.reqs && s.reqs[r].GetPage? && ListPlace(s.reqs[r], op, from)
    ensures var t := AdvanceList(s, r, s.reqs[r], redisOk); r in t.reqs && Belongs(t.trace, t.reqs[r], op, from)
  {
    hide Lookup, ListsAsSent, EnrolsAsSent, Belongs;
    NextBelongs(AdvanceList(s, r, s.reqs[r], redisOk), r, op, from);
  }

  lemma QueryBelongs(s: Sys, r: nat, redisOk: bool, op: Op, from: nat)
    requires s.trace != [] && from < |s.trace| && r in s.reqs && s.reqs[r].RunQuery? && ListPlace(s.reqs[r], op, from)
    ensures var t := AdvanceList(s, r, s.reqs[r], redisOk); r in t.reqs && Belongs(t.trace, t.reqs[r], op, from)
  {
    hide Query, ListsAsSent, EnrolsAsSent, Belongs;
    NextBelongs(AdvanceList(s, r, s.reqs[r], redisOk), r, op, from);
  }

  lemma FillBelongs(s: Sys, r: nat, redisOk: bool, op: Op, from: nat)
    requires s.trace != [] && from < |s.trace|
    requires r in s.reqs && s.reqs[r].SetGeneration? && ListPlace(s.reqs[r], op, from)
    ensures var t := AdvanceList(s, r, s.reqs[r], redisOk); r in t.reqs && Belongs(t.trace, t.reqs[r], op, from)
  {
    hide Generation, Late, ListsAsSent, EnrolsAsSent, Belongs;
    NextBelongs(AdvanceList(s, r, s.reqs[r], redisOk), r, op, from);
  }

  lemma StoreBelongs(s: Sys, r: nat, redisOk: bool, op: Op, from: nat)
    requires s.trace != [] && from < |s.trace| && r in s.reqs && s.reqs[r].SetPage? && ListPlace(s.reqs[r], op, from)
    ensures var t := AdvanceList(s, r, s.reqs[r], redisOk); r in t.reqs && Belongs(t.trace, t.reqs[r], op, from)
  {
    hide Redis.Store, ListsAsSent, EnrolsAsSent, Belongs;
    NextBelongs(AdvanceList(s, r, s.reqs[r], redisOk), r, op, from);
  }

  lemma PlaceBelongs(s: Sys, r: nat, redisOk: bool, op: Op, from: nat)
    requires s.trace != [] && from < |s.trace| && r in s.reqs && ListStep(s.reqs[r]) && ListPlace(s.reqs[r], op, from)
    ensures var t := AdvanceList(s, r, s.reqs[r], redisOk); r in t.reqs && Belongs(t.trace, t.reqs[r], op, from)
  {
    hide AdvanceList, ListPlace, Belongs;
    match s.reqs[r]
    case ListRole(_, _) => AdmissionBelongs(s, r, redisOk, op, from);
    case GetGeneration(_) => ProbeBelongs(s, r, redisOk, op, from);
    case GetPage(_, _, _, _) => LookupBelongs(s, r, redisOk, op, from);
    case RunQuery(_, _) => QueryBelongs(s, r, redisOk, op, from);
    case SetGeneration(_, _, _) => FillBelongs(s, r, redisOk, op, from);
    case SetPage(_, _, _) => StoreBelongs(s, r, redisOk, op, from);
  }

  lemma ListMoved(s: Sys, r: nat, redisOk: bool, op: Op, from: nat)
    requires s.trace != [] && from < |s.trace| && r in s.reqs && ListStep(s.reqs[r])
    ensures Moved(s, r, AdvanceList(s, r, s.reqs[r], redisOk), op, from)
  {
    hide AdvanceList, ListPlace, Belongs;
    var q := s.reqs[r];
    ListBelongs(s.trace, q, op, from);
    if q.GetGeneration? || q.GetPage? {
      LookupEffect(s, r, redisOk);
    } else if q.SetGeneration? || q.SetPage? {
      FillEffect(s, r, redisOk);
    } else {
      QueryEffect(s, r, redisOk);
    }
    if ListPlace(q, op, from) {
      PlaceBelongs(s, r, redisOk, op, from);
    }
  }

  lemma UpdateMoved(s: Sys, r: nat, clock: Time, now: Time, op: Op, from: nat)
    requires s.trace != [] && Keyed(Now(s)) && from < |s.trace| && r in s.reqs
    requires s.reqs[r].Load? || s.reqs[r].LoadRole? || s.reqs[r].CheckAssignee? || s.reqs[r].Swap?
    ensures Moved(s, r, AdvanceUpdate(s, r, s.reqs[r], clock, now), op, from)
  {
    hide Moved, AdvanceUpdate, Keyed;
    if s.reqs[r].Load? {
      LoadMoved(s, r, clock, now, op, from);
    } else if s.reqs[r].LoadRole? {
      PlanMoved(s, r, clock, now, op, from);
    } else {
      SwapMoved(s, r, clock, now, op, from);
    }
  }

  lemma Unmoved(s: Sys, r: nat, op: Op, from: nat)
    requires r in s.reqs
    ensures Moved(s, r, s, op, from)
  {
    hide Belongs;
    assert s.reqs[r := s.reqs[r]] == s.reqs;
  }

  lemma AdvanceMoved(s: Sys, r: nat, redisOk: bool, clock: Time, now: Time, op: Op, from: nat)
    requires AllOk(s) && from < |s.trace| && r in s.reqs
    ensures Moved(s, r, Do(s, Advance(r, redisOk, clock, now)), op, from)
  {
    hide Moved, TraceOk, ReqOk, Sound, AllOk, Keyed, AdvanceList, AdvanceUpdate, AdvanceCreation, AdvanceTeams,
      AdvanceFlush;
    PartsOf(s, r);
    KeyedNow(s);
    var q := s.reqs[r];
    if q.NewActor? || q.NewAssignee? || q.NewInsert? {
      if q.NewInsert? {
        CreationWriteMoved(s, r, clock, now, op, from);
      } else {
        CreationReadMoved(s, r, clock, now, op, from);
      }
    } else if q.Load? || q.LoadRole? || q.CheckAssignee? || q.Swap? {
      UpdateMoved(s, r, clock, now, op, from);
    } else if q.Flush? {
      FlushMoved(s, r, redisOk, op, from);
    } else if ListStep(q) {
      ListMoved(s, r, redisOk, op, from);
    } else if OnTeams(q) {
      TeamsMoved(s, r, now, op, from);
    } else {
      FinishedIdle(s, r, redisOk, clock, now);
      Unmoved(s, r, op, from);
    }
  }

  lemma DoBelongs(s: Sys, e: Event, r: nat, op: Op, from: nat)
    requires AllOk(s) && from < |s.trace| && r in s.reqs && Belongs(s.trace, s.reqs[r], op, from)
    ensures r in Do(s, e).reqs && Belongs(Do(s, e).trace, Do(s, e).reqs[r], op, from)
  {
    hide Belongs, AllOk;
    var t := Do(s, e);
    if e.Advance? && e.r in s.reqs {
      AdvanceMoved(s, e.r, e.redisOk, e.clock, e.now, op, from);
    }
    if !(e.Advance? && e.r == r) {
      BelongsGrows(s.trace, t.trace, s.reqs[r], op, from);
    }
  }

  // ---------- over a run ----------

  lemma OpeningBelongs(trace: seq<DB>, op: Op, from: nat)
    requires Opening(op).Some?
    ensures Belongs(trace, Opening(op).value, op, from)
  {
    hide ValidateInvite, ValidateCreation, ValidateFilter, Validate, NormalizeTeamName, NormalizeFilter, RowFor,
      WithRole;
  }

  lemma Begins(s: Sys, r: nat, op: Op)
    requires s.trace != [] && r !in s.reqs && Opening(op).Some?
    ensures Do(s, Start(r, op)) == Goto(s, r, Opening(op).value)
  {
    hide Opening;
  }

  /** From its start on, a request stays known and keeps to what was sent. */
  lemma {:induction false} KeepsToIt(events: seq<Event>, n: nat, r: nat, op: Op)
    requires StartedAt(events, n, r, op)
    ensures r in Run(events).reqs && PositionAt(events, n) < |Run(events).trace|
    ensures Belongs(Run(events).trace, Run(events).reqs[r], op, PositionAt(events, n))
  {
    hide Belongs, AllOk, Do, Opening;
    var last := |events| - 1;
    var past := events[..last];
    if n == last {
      Begins(Run(past), r, op);
      OpeningBelongs(Run(past).trace, op, PositionAt(events, n));
    } else {
      assert past[..n] == events[..n];
      KeepsToIt(past, n, r, op);
      RunKeeps(past);
      DoBelongs(Run(past), events[last], r, op, PositionAt(events, n));
    }
  }

  lemma NewRequest(s: Sys, e: Event, r: nat)
    requires AllOk(s) && r !in s.reqs && r in Do(s, e).reqs
    ensures e.Start? && e.r == r && Opening(e.op).Some?
  {
    hide AllOk;
    if e.Advance? && e.r in s.reqs {
      PartsOf(s, e.r);
      AdvanceMoved(s, e.r, e.redisOk, e.clock, e.now, ListTeams(0), 0);
    }
  }

  /** Every known request was started, once. */
  lemma {:induction false} WasStarted(events: seq<Event>, r: nat) returns (n: nat, op: Op)
    requires r in Run(events).reqs
    ensures StartedAt(events, n, r, op)
    ensures forall m: nat, o :: StartedAt(events, m, r, o) ==> m == n && o == op
  {
    hide AllOk;
    var last := |events| - 1;
    var past := events[..last];
    if r in Run(past).reqs {
      n, op := WasStarted(past, r);
      assert events[..n] == past[..n];
    } else {
      RunKeeps(past);
      NewRequest(Run(past), events[last], r);
      n, op := last, events[last].op;
    }
    forall m: nat, o | StartedAt(events, m, r, o) ensures m == n && o == op {
      if m < n {
        StillThere(events, m, n, r, o);
      } else if n < m {
        StillThere(events, n, m, r, op);
      }
    }
  }

  lemma StillThere(events: seq<Event>, m: nat, n: nat, r: nat, op: Op)
    requires m < n <= |events| && StartedAt(events, m, r, op)
    ensures r in Run(events[..n]).reqs
  {
    assert events[..n][..m] == events[..m];
    KeepsToIt(events[..n], m, r, op);
  }

  // ---------- answers ----------

  predicate Done(events: seq<Event>, r: nat, response: Response, note: Note) {
    r in Run(events).reqs && Run(events).reqs[r] == Finished(response, note)
  }

  /** Whatever was interleaved: a request that has its answer, or is about to give it after Invalidate, has
      a true record of what it did, and the record is one of the operation it was started with. */
  lemma AnsweredAsAsked(events: seq<Event>, n: nat, r: nat, op: Op)
    requires StartedAt(events, n, r, op)
    ensures r in Run(events).reqs
    ensures var q := Run(events).reqs[r];
            Ending(q) ==>
              && Answered(Run(events).trace, op, PositionAt(events, n), q.response, q.note)
              && NoteOk(Run(events).trace, q.response, q.note)
              && (q.response.PageIs? ==> q.note.Served? || q.note.Queried?)
              && (q.response.TaskIs? ==> q.note.Created? || q.note.Updated? || q.note.Unchanged?)
  {
    hide AllOk, TraceOk;
    RunKeeps(events);
    KeepsToIt(events, n, r, op);
    PartsOf(Run(events), r);
    EndingFits(Run(events).trace, Run(events).reqs[r], op, PositionAt(events, n));
  }

  lemma EndingFits(trace: seq<DB>, q: Req, op: Op, from: nat)
    requires trace != [] && ReqOk(trace, q) && Belongs(trace, q, op, from)
    ensures Ending(q) ==>
              && Answered(trace, op, from, q.response, q.note) && NoteOk(trace, q.response, q.note)
              && (q.response.PageIs? ==> q.note.Served? || q.note.Queried?)
              && (q.response.TaskIs? ==> q.note.Created? || q.note.Updated? || q.note.Unchanged?)
  {
    hide UpdateCommitted, CreationCommitted, EnrolmentCommitted, FoundingCommitted, EnrolsAsSent, ListsAsSent;
  }

  // ---------- rights ----------

  /** In the state at this position the actor of op may make the write that op asks for. */
  ghost predicate MayWrite(trace: seq<DB>, p: nat, op: Op) {
    && p < |trace|
    && match op
       case CreateTeam(_, _) => true
       case InviteMember(actor, team, _) => Manages(trace[p], team, actor)
       case ChangeMemberRole(actor, team, _, _) =>
         (team, actor) in trace[p].members && trace[p].members[(team, actor)].Owner?
       case CreateTask(actor, request) => (request.teamId, actor) in trace[p].members
       case UpdateTask(actor, task, patch) => MayChange(trace[p], actor, task, patch)
       case _ => false
  }

  /** When an update read its actor's role, the row was the one that it had loaded and later replaced. */
  lemma RowBetween(trace: seq<DB>, c: Commit)
    requires TraceOk(trace) && UpdateCommitted(trace, c)
    ensures Snapshot(trace, c.roleAt, trace[c.at - 1].tasks[c.task])
    ensures MayChange(trace[c.roleAt], c.actor, c.task, c.patch)
  {
    hide Sound, Validate, DiffOf, NewRow, MayChange;
    assert Evolves(trace[c.loadedAt], trace[c.roleAt]) && Evolves(trace[c.roleAt], trace[c.at - 1]);
    var prior := trace[c.at - 1].tasks[c.task];
    assert Descends(prior, trace[c.roleAt].tasks[c.task]) && Descends(trace[c.roleAt].tasks[c.task], prior);
    ChangeAllowed(trace[c.roleAt], c.actor, c.task, c.patch);
  }

  lemma RecordEntitled(trace: seq<DB>, op: Op, from: nat, response: Response, note: Note) returns (p: nat)
    requires TraceOk(trace) && NoteOk(trace, response, note) && Answered(trace, op, from, response, note)
    requires WroteAt(Finished(response, note)).Some?
    ensures from <= p < WroteAt(Finished(response, note)).value && MayWrite(trace, p, op)
  {
    hide TraceOk, MayChange, Enrols, SwapsTo, Named, WithRole;
    match note
    case Founded(c) => p := from;
    case Enrolled(c) => p := c.roleAt;
    case Created(c) => p := c.at - 1;
    case Updated(c) =>
      RowBetween(trace, c);
      p := c.roleAt;
  }

  lemma RecordIs(q: Req)
    requires WroteAt(q).Some?
    ensures Ending(q) && WroteAt(q) == WroteAt(Finished(q.response, q.note))
  {
  }

  /** Every write was made by a request whose actor was entitled to it in some state between the start of the
      request and the write. */
  lemma WriterEntitled(events: seq<Event>, n: nat, r: nat, op: Op) returns (p: nat)
    requires StartedAt(events, n, r, op) && r in Run(events).reqs && WroteAt(Run(events).reqs[r]).Some?
    ensures PositionAt(events, n) <= p < WroteAt(Run(events).reqs[r]).value
    ensures MayWrite(Run(events).trace, p, op)
  {
    hide AllOk, NoteOk, Answered, MayWrite, TraceOk, WroteAt, Run;
    var q := Run(events).reqs[r];
    RunKeeps(events);
    PartsOf(Run(events), r);
    AnsweredAsAsked(events, n, r, op);
    RecordIs(q);
    p := RecordEntitled(Run(events).trace, op, PositionAt(events, n), q.response, q.note);
  }

  /** A request whose actor is entitled in no state from its start on writes nothing: a right that was lost
      before the start is of no use. */
  lemma NoRightNoWrite(events: seq<Event>, n: nat, r: nat, op: Op)
    requires StartedAt(events, n, r, op)
    requires forall p: nat :: PositionAt(events, n) <= p < |Run(events).trace| ==> !MayWrite(Run(events).trace, p, op)
    ensures r in Run(events).reqs && WroteAt(Run(events).reqs[r]).None?
  {
    AnsweredAsAsked(events, n, r, op);
    if WroteAt(Run(events).reqs[r]).Some? {
      var _ := WriterEntitled(events, n, r, op);
    }
  }

  // ---------- what was written ----------

  lemma CommitAsSent(trace: seq<DB>, c: Commit)
    requires UpdateCommitted(trace, c)
    ensures UpdatedAs(trace[c.at - 1], trace[c.at], c.actor, c.task, c.patch, trace[c.at].tasks[c.task], c.clock, c.now)
  {
    var before, after := trace[c.at - 1], trace[c.at];
    var prior := before.tasks[c.task];
    var next := Overwritten(prior, c.patch);
    OverwrittenAs(prior, c.patch);
    RecordedChange(prior, next);
    SameRow(prior, next, NewRow(prior, c), c.patch);
    hide PatchedAs, RecordsChange, DiffOf, Overwritten, Planned;
    var e := Entry(before, c.task, c.actor, DiffOf(prior, c.patch), c.clock, c.now);
    assert after.history == before.history + [e];
    VersionNamed(trace, before, c);
  }

  lemma VersionNamed(trace: seq<DB>, before: DB, c: Commit)
    requires c.task in before.tasks && PlannedOn(trace, before, c)
    ensures c.patch.version.Some? ==> c.patch.version.value == before.tasks[c.task].version
  {
  }

  lemma CreationAsSent(trace: seq<DB>, c: Creation, actor: Id, request: NewTaskRequest)
    requires CreationCommitted(trace, c) && Keyed(trace[c.at - 1]) && c.row == RowFor(actor, request)
    ensures CreatedAs(trace[c.at - 1], trace[c.at], actor, request, CreatedTask(trace, c), c.clock, c.now)
  {
    hide CreatedAs, InsertTask, CreatedRow, Keyed;
    InsertedAs(trace[c.at - 1], actor, request, c.clock, c.now);
  }

  lemma EnrolmentAsSent(trace: seq<DB>, op: Op, from: nat, c: Enrolment)
    requires EnrolmentCommitted(trace, c) && EnrolsAsSent(trace, op, from, c)
    ensures op.InviteMember? || op.ChangeMemberRole?
    ensures op.InviteMember? ==>
              && Manages(trace[c.roleAt], op.team, op.actor)
              && InvitedAs(trace[c.at - 1], trace[c.at], op.team, op.invite, c.user, c.role)
    ensures op.ChangeMemberRole? ==>
              && (c.user, c.role) == (op.user, op.role)
              && (op.team, op.actor) in trace[c.roleAt].members
              && trace[c.roleAt].members[(op.team, op.actor)].Owner?
              && RoleChangedAs(trace[c.at - 1], trace[c.at], op.team, op.user, op.role)
  {
  }

  lemma FoundingAsSent(trace: seq<DB>, c: Founding, team: Team, actor: Id, name: string)
    requires FoundingCommitted(trace, c, team) && c.actor == actor && NormalizeTeamName(name) == Ok(c.name)
    ensures FoundedAs(trace[c.at - 1], trace[c.at], actor, name, team, c.now)
  {
    CutExact(name, team.name);
  }

  // ---------- updates and creations ----------

  /** An update that changed nothing: the answer is a row that was stored at some moment since the start, and
      whose every field is as the patch asks already. */
  ghost predicate NothingToDo(trace: seq<DB>, id: Id, patch: Patch, from: nat, loadedAt: nat, response: Response) {
    && from <= loadedAt < |trace| && response.TaskIs? && response.task.id == id
    && Snapshot(trace, loadedAt, response.task) && PatchedAs(response.task, response.task, patch)
  }

  /** The update c loaded a row no earlier than at position from and replaced exactly that row, by the row with
      the patch as sent. */
  ghost predicate NothingLost(trace: seq<DB>, c: Commit, actor: Id, id: Id, patch: Patch, from: nat,
                              response: Response) {
    && from <= c.loadedAt <= c.roleAt < c.at < |trace| && id in trace[c.at - 1].tasks
    && Snapshot(trace, c.loadedAt, trace[c.at - 1].tasks[id])
    && response.TaskIs?
    && UpdatedAs(trace[c.at - 1], trace[c.at], actor, id, patch, response.task, c.clock, c.now)
  }

  lemma UpdateExact(trace: seq<DB>, c: Commit, from: nat, response: Response)
    requires UpdateCommitted(trace, c) && from <= c.loadedAt && response == TaskIs(trace[c.at].tasks[c.task])
    ensures NothingLost(trace, c, c.actor, c.task, c.patch, from, response)
  {
    hide UpdatedAs;
    CommitAsSent(trace, c);
  }

  lemma UnchangedExact(trace: seq<DB>, id: Id, patch: Patch, from: nat, loadedAt: nat, response: Response)
    requires response.TaskIs? && Snapshot(trace, loadedAt, response.task) && from <= loadedAt
    requires response.task.id == id && Overwritten(response.task, patch) == response.task
    ensures NothingToDo(trace, id, patch, from, loadedAt, response)
  {
    OverwrittenAs(response.task, patch);
  }

  /** No lost update, whatever was interleaved: an update request that is answered with a task did exactly
      what the client sent, on the row that it replaced. */
  lemma NoLostUpdate(events: seq<Event>, n: nat, r: nat, actor: Id, id: Id, patch: Patch,
                     response: Response, note: Note)
    requires StartedAt(events, n, r, UpdateTask(actor, id, patch))
    requires Done(events, r, response, note) && response.TaskIs?
    ensures var from, trace := PositionAt(events, n), Run(events).trace;
            match note
            case Updated(c) => NothingLost(trace, c, actor, id, patch, from, response)
            case Unchanged(_, loadedAt) => NothingToDo(trace, id, patch, from, loadedAt, response)
            case _ => false
  {
    hide UpdateCommitted, NothingLost, NothingToDo, Overwritten, Run, CreationCommitted;
    AnsweredAsAsked(events, n, r, UpdateTask(actor, id, patch));
    if note.Updated? {
      UpdateExact(Run(events).trace, note.commit, PositionAt(events, n), response);
    } else if note.Unchanged? {
      UnchangedExact(Run(events).trace, id, patch, PositionAt(events, n), note.loadedAt, response);
    }
  }

  /** A creation that is answered with a task stored, after its start, the task that was sent, by a member of
      the team and for a member of the team. */
  lemma CreatedAsAsked(events: seq<Event>, n: nat, r: nat, actor: Id, request: NewTaskRequest,
                       response: Response, note: Note)
    requires StartedAt(events, n, r, CreateTask(actor, request))
    requires Done(events, r, response, note) && response.TaskIs?
    ensures note.Created?
    ensures var c, trace := note.creation, Run(events).trace;
            && PositionAt(events, n) < c.at < |trace|
            && CreatedAs(trace[c.at - 1], trace[c.at], actor, request, response.task, c.clock, c.now)
            && (request.teamId, actor) in trace[c.at - 1].members
            && (request.assignee.Some? ==> (request.teamId, request.assignee.value) in trace[c.at - 1].members)
  {
    hide UpdateCommitted, Run, CreatedAs, AllOk, TraceOk, CreatedRow, InsertTask;
    AnsweredAsAsked(events, n, r, CreateTask(actor, request));
    StatesKeyed(events, note.creation.at - 1);
    CreationAsSent(Run(events).trace, note.creation, actor, request);
  }

  lemma StatesKeyed(events: seq<Event>, i: nat)
    requires i < |Run(events).trace|
    ensures Keyed(Run(events).trace[i])
  {
    hide Run, AllReqsOk, AllAccounted, Evolving;
    RunKeeps(events);
    assert Sound(Run(events).trace[i]);
  }

  // ---------- teams ----------

  /** A founded team has the name that was sent, without blank ends, and the actor as its one owner. */
  lemma FoundedAsAsked(events: seq<Event>, n: nat, r: nat, actor: Id, name: string, response: Response, note: Note)
    requires StartedAt(events, n, r, CreateTeam(actor, name))
    requires Done(events, r, response, note) && !response.Failed?
    ensures note.Founded? && response.TeamIs?
    ensures var c, trace := note.founding, Run(events).trace;
            && PositionAt(events, n) < c.at < |trace|
            && FoundedAs(trace[c.at - 1], trace[c.at], actor, name, response.team, c.now)
  {
    hide UpdateCommitted, Run, CreationCommitted, FoundedAs, NormalizeTeamName;
    AnsweredAsAsked(events, n, r, CreateTeam(actor, name));
    FoundingAsSent(Run(events).trace, note.founding, response.team, actor, name);
  }

  /** An invitation or role change that goes through did what was sent, and its actor was owner or admin (to
      invite) or owner (to change a role) in some state between the start of the request and the write. */
  lemma EnrolmentAuthorized(events: seq<Event>, n: nat, r: nat, op: Op, response: Response, note: Note)
    requires StartedAt(events, n, r, op) && Done(events, r, response, note)
    requires (op.InviteMember? || op.ChangeMemberRole?) && !response.Failed?
    ensures note.Enrolled? && response.MemberIs? && response.teamId == op.team
    ensures var c, trace := note.change, Run(events).trace;
            && PositionAt(events, n) <= c.roleAt < c.at < |trace|
            && match op
               case InviteMember(actor, team, invite) =>
                 && Manages(trace[c.roleAt], team, actor)
                 && InvitedAs(trace[c.at - 1], trace[c.at], team, invite, response.user, response.role)
               case ChangeMemberRole(actor, team, user, role) =>
                 && (response.user, response.role) == (user, role)
                 && (team, actor) in trace[c.roleAt].members && trace[c.roleAt].members[(team, actor)].Owner?
                 && RoleChangedAs(trace[c.at - 1], trace[c.at], team, user, role)
  {
    hide UpdateCommitted, CreationCommitted, FoundingCommitted, Run, InvitedAs, RoleChangedAs, Enrols, MayEnrol;
    AnsweredAsAsked(events, n, r, op);
    EnrolmentAsSent(Run(events).trace, op, PositionAt(events, n), note.change);
  }

  lemma WriterOf(events: seq<Event>, i: nat) returns (r: nat, n: nat, op: Op)
    requires 0 < i < |Run(events).trace| && !Silent(Run(events).trace[i - 1], Run(events).trace[i])
    ensures StartedAt(events, n, r, op) && r in Run(events).reqs && WroteAt(Run(events).reqs[r]) == Some(i)
    ensures Ending(Run(events).reqs[r])
  {
    hide Silent, TraceOk, AllReqsOk, WroteAt, StartedAt, Run;
    RunKeeps(events);
    assert Accounted(Run(events).trace, Run(events).reqs, i);
    r :| r in Run(events).reqs && WroteAt(Run(events).reqs[r]) == Some(i);
    n, op := WasStarted(events, r);
    RecordIs(Run(events).reqs[r]);
  }

  lemma OnlyTeamsChangeMembers(trace: seq<DB>, i: nat, response: Response, note: Note)
    requires 0 < i < |trace| && NoteOk(trace, response, note) && WroteAt(Finished(response, note)) == Some(i)
    requires trace[i].members != trace[i - 1].members
    ensures note.Founded? || note.Enrolled?
  {
  }

  /** Nothing else changes who is in a team: if memberships differ from one state to the next, the step is the
      write of a started request, which founds a team as sent, with its actor as owner, or invites or changes a
      role as sent. EnrolmentAuthorized says who may. */
  lemma MembersChangeOnlySo(events: seq<Event>, i: nat) returns (r: nat, n: nat, op: Op, response: Response, note: Note)
    requires 0 < i < |Run(events).trace| && Run(events).trace[i].members != Run(events).trace[i - 1].members
    ensures StartedAt(events, n, r, op) && Done(events, r, response, note) && !response.Failed?
    ensures var before, after := Run(events).trace[i - 1], Run(events).trace[i];
            match op
            case CreateTeam(actor, name) =>
              && note.Founded? && note.founding.at == i
              && response.TeamIs? && FoundedAs(before, after, actor, name, response.team, note.founding.now)
            case InviteMember(_, team, invite) =>
              && note.Enrolled? && note.change.at == i
              && response.MemberIs? && InvitedAs(before, after, team, invite, response.user, response.role)
            case ChangeMemberRole(_, team, user, role) =>
              note.Enrolled? && note.change.at == i && RoleChangedAs(before, after, team, user, role)
            case _ => false
  {
    hide FoundingCommitted, EnrolmentCommitted, StartedAt, Run, AllOk, FoundedAs, InvitedAs, RoleChangedAs, Manages,
      NormalizeTeamName, CreationCommitted, UpdateCommitted;
    r, n, op := WriterOf(events, i);
    AnsweredAsAsked(events, n, r, op);
    var q := Run(events).reqs[r];
    response, note := q.response, q.note;
    RecordIs(q);
    OnlyTeamsChangeMembers(Run(events).trace, i, response, note);
    if q.Flush? {
      TeamsFinish(events, n, r, op);
    }
    if op.CreateTeam? {
      FoundedAsAsked(events, n, r, op.actor, op.name, response, note);
    } else {
      EnrolmentAuthorized(events, n, r, op, response, note);
    }
  }

  lemma TeamsFinish(events: seq<Event>, n: nat, r: nat, op: Op)
    requires StartedAt(events, n, r, op) && r in Run(events).reqs
    requires Run(events).reqs[r].Flush?
    ensures !Run(events).reqs[r].note.Founded? && !Run(events).reqs[r].note.Enrolled?
  {
    hide Run, Answered, StartedAt;
    KeepsToIt(events, n, r, op);
  }

  // ---------- history ----------

  lemma KeyedAt(trace: seq<DB>, i: nat)
    requires TraceOk(trace) && i < |trace|
    ensures Keyed(trace[i])
  {
    assert Sound(trace[i]);
  }

  /** The step to position i is the creation that was sent, by a member of the team. */
  ghost predicate CreationBehind(trace: seq<DB>, i: nat, e: HistoryEntry, request: NewTaskRequest, response: Response) {
    && 0 < i < |trace| && response.TaskIs? && (request.teamId, e.changedBy) in trace[i - 1].members
    && CreatedAs(trace[i - 1], trace[i], e.changedBy, request, response.task, e.clock, e.createdAt)
    && e == LastEntry(trace[i])
  }

  /** The step to position i is the update that was sent, by somebody who could make it: judged on the very row
      that it replaced, in a state between the load of that row and the write. */
  ghost predicate UpdateBehind(trace: seq<DB>, i: nat, e: HistoryEntry, patch: Patch, loadedAt: nat, roleAt: nat,
                               response: Response) {
    && loadedAt <= roleAt < i < |trace| && response.TaskIs? && e.taskId in trace[i - 1].tasks
    && Snapshot(trace, loadedAt, trace[i - 1].tasks[e.taskId]) && Snapshot(trace, roleAt, trace[i - 1].tasks[e.taskId])
    && MayChange(trace[roleAt], e.changedBy, e.taskId, patch)
    && UpdatedAs(trace[i - 1], trace[i], e.changedBy, e.taskId, patch, response.task, e.clock, e.createdAt)
    && e == LastEntry(trace[i])
  }

  lemma StoredEntry(before: DB, after: DB, task: Task, author: Id, clock: Time, now: Time, k: nat)
    requires TaskStored(before, after, task, author, clock, now) && |before.history| <= k < |after.history|
    ensures var e := after.history[k];
            e == LastEntry(after) && (e.taskId, e.changedBy, e.clock, e.createdAt) == (task.id, author, clock, now)
  {
  }

  lemma CreationAppends(trace: seq<DB>, c: Creation, actor: Id, request: NewTaskRequest, k: nat)
    requires TraceOk(trace) && CreationCommitted(trace, c) && c.row == RowFor(actor, request)
    requires |trace[c.at - 1].history| <= k < |trace[c.at].history|
    ensures trace[c.at].history[k].changedBy == actor
    ensures CreationBehind(trace, c.at, trace[c.at].history[k], request, TaskIs(CreatedTask(trace, c)))
  {
    hide TraceOk, Keyed, CreatedRow, InsertTask, RecordsCreation;
    KeyedAt(trace, c.at - 1);
    CreationAsSent(trace, c, actor, request);
    StoredEntry(trace[c.at - 1], trace[c.at], CreatedTask(trace, c), actor, c.clock, c.now, k);
  }

  lemma UpdateAppends(trace: seq<DB>, c: Commit, k: nat)
    requires TraceOk(trace) && UpdateCommitted(trace, c)
    requires |trace[c.at - 1].history| <= k < |trace[c.at].history|
    ensures var e := trace[c.at].history[k];
            && (e.changedBy, e.taskId) == (c.actor, c.task)
            && UpdateBehind(trace, c.at, e, c.patch, c.loadedAt, c.roleAt, TaskIs(trace[c.at].tasks[c.task]))
  {
    hide TraceOk, MayChange, NewRow, DiffOf, Entitled, PatchedAs, RecordsChange;
    RowBetween(trace, c);
    CommitAsSent(trace, c);
    StoredEntry(trace[c.at - 1], trace[c.at], trace[c.at].tasks[c.task], c.actor, c.clock, c.now, k);
  }

  /** What a request that wrote an entry has to do with it. */
  ghost predicate Behind(trace: seq<DB>, i: nat, e: HistoryEntry, op: Op, from: nat, loadedAt: nat, roleAt: nat,
                         response: Response) {
    match op
    case CreateTask(actor, request) =>
      actor == e.changedBy && from < i && CreationBehind(trace, i, e, request, response)
    case UpdateTask(actor, id, patch) =>
      && actor == e.changedBy && id == e.taskId && from <= loadedAt
      && UpdateBehind(trace, i, e, patch, loadedAt, roleAt, response)
    case _ => false
  }

  lemma EntryOf(trace: seq<DB>, i: nat, k: nat, op: Op, from: nat, response: Response, note: Note)
    returns (loadedAt: nat, roleAt: nat)
    requires TraceOk(trace) && NoteOk(trace, response, note) && Answered(trace, op, from, response, note)
    requires WroteAt(Finished(response, note)) == Some(i)
    requires 0 < i < |trace| && |trace[i - 1].history| <= k < |trace[i].history|
    ensures Behind(trace, i, trace[i].history[k], op, from, loadedAt, roleAt, response)
  {
    hide TraceOk, CreationBehind, UpdateBehind, UpdateCommitted, CreationCommitted, RowFor;
    loadedAt, roleAt := 0, 0;
    match note
    case Created(c) =>
      CreationAppends(trace, c, op.actor, op.request, k);
    case Updated(c) =>
      loadedAt, roleAt := c.loadedAt, c.roleAt;
      UpdateAppends(trace, c, k);
    case _ =>
  }

  /** Authorization over whole concurrent runs: behind every entry of the history stands a request, started
      before, whose write is the step that appended the entry: a creation by its author, or an update which its
      author, who is the actor of the request, was entitled to in a state since its start. */
  lemma AuthorizedHistory(events: seq<Event>, k: nat)
    returns (i: nat, r: nat, n: nat, op: Op, loadedAt: nat, roleAt: nat)
    requires k < |Now(Run(events)).history|
    ensures StartedAt(events, n, r, op) && r in Run(events).reqs && Ending(Run(events).reqs[r])
    ensures WroteAt(Run(events).reqs[r]) == Some(i) && 0 < i < |Run(events).trace|
    ensures Behind(Run(events).trace, i, Now(Run(events)).history[k], op, PositionAt(events, n), loadedAt, roleAt,
                   Run(events).reqs[r].response)
  {
    hide Behind, NoteOk, Answered, Run, AllAccounted, AllReqsOk, Evolving, Sounds, Sound;
    var trace := Run(events).trace;
    RunKeeps(events);
    HistoriesGrow(trace);
    i := EntryOrigin(trace, k);
    r, n, op := WriterOf(events, i);
    AnsweredAsAsked(events, n, r, op);
    var q := Run(events).reqs[r];
    RecordIs(q);
    loadedAt, roleAt := EntryOf(trace, i, k, op, PositionAt(events, n), q.response, q.note);
  }

  // ---------- pages ----------

  /** Every page is exact: the answer to the very list request that the client sent, on some state of the
      run; and on a state current since the start of the request, unless the page came from the cache and
      misses a write (CacheStaleness.MissedWritesExact says which). */
  lemma ServedPagesExact(events: seq<Event>, n: nat, r: nat, actor: Id, filter: TaskFilter, page: TaskPage, note: Note)
    returns (k: nat)
    requires StartedAt(events, n, r, ListTasks(actor, filter)) && Done(events, r, PageIs(page), note)
    ensures k < |Run(events).trace| && PageAs(Run(events).trace[k].tasks, filter, page)
    ensures note.Queried? || (note.Served? && forall w: nat :: !Missed(Run(events), note, w)) ==>
              PositionAt(events, n) <= k
  {
    hide Run, AllReqsOk, AllAccounted, Evolving, Sounds, NoteOk, Missed, NormalizeFilter, PageAs, Query;
    var s := Run(events);
    RunKeeps(events);
    RunKeepsCache(events);
    AnsweredAsAsked(events, n, r, ListTasks(actor, filter));
    PageRead(s, r);
    if note.Queried? {
      k := note.readAt;
    } else if forall w: nat :: !Missed(s, note, w) {
      k := FreshAt(s, r);
    } else {
      k := note.origin.readAt;
    }
    StatesKeyed(events, k);
    PageExact(s.trace[k], filter);
  }

  lemma PageRead(s: Sys, r: nat)
    requires CacheOk(s) && r in s.reqs && s.reqs[r].Finished?
    ensures ServedOk(s, s.reqs[r].response, s.reqs[r].note)
  {
    assert ListReqOk(s, s.reqs[r]);
  }
}
