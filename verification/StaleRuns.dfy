/** Two runs, with every Redis call succeeding, in which a list request is answered with a page that was
    current at no moment of the request: the two exceptions of CacheStaleness do occur. */
module StaleRuns {
  import opened Outcomes
  import opened Domain
  import opened TaskPatch
  import opened Database
  import opened Operations
  import opened Redis
  import opened Protocol
  import opened CacheStaleness
  import Text

  /** A property of states of the code that every event keeps. */
  ghost predicate Closed(p: Sys -> bool) {
    && (forall s: Sys, e :: s.trace != [] && p(s) ==> p(Do(s, e)))
    && (forall s: Sys :: p(s) ==> !s.captures)
  }

  ghost predicate Reachable(s: Sys) {
    exists events :: Run(events) == s
  }

  lemma StillCode(s: Sys, e: Event)
    requires s.trace != [] && !s.captures
    ensures !Do(s, e).captures
  {
    hide TeamOutcome, InsertTask, CompareAndSwap, AfterPlan, DiffOf, Applied, UpdateFor, Query, Opening, Generation,
      Lookup, Late, Dirty, SelectRole, AssigneeInTeam, SelectTask, InsertUser, Increment, Expire, Redis.Store;
  }

  lemma {:induction false} RunsTheCode(events: seq<Event>)
    ensures !Run(events).captures
  {
    if events != [] {
      RunsTheCode(events[..|events| - 1]);
      StillCode(Run(events[..|events| - 1]), events[|events| - 1]);
    }
  }

  lemma ReachableClosed()
    ensures Closed((s: Sys) => Reachable(s))
  {
    forall s: Sys | Reachable(s) ensures !s.captures {
      var events :| Run(events) == s;
      RunsTheCode(events);
    }
    forall s: Sys, e | s.trace != [] && Reachable(s) ensures Reachable(Do(s, e)) {
      var events :| Run(events) == s;
      assert (events + [e])[..|events|] == events;
      assert Run(events + [e]) == Do(s, e);
    }
  }

  function Step(r: nat): Event {
    Advance(r, true, 0, 0)
  }

  // ---------- the stage: one user, one team, one task ----------

  const F: TaskFilter := TaskFilter(1, None, None, 20, 0)
  const T0: Task := Task(1, 1, "x", "", Todo, 1, None, 0, 0, None, 1)
  const T1: Task := T0.(status := InProgress, version := 2)

  predicate OneTask(db: DB, task: Task) {
    && 1 in db.users && (1, 1) in db.members && db.members[(1, 1)] == Role.Owner
    && db.nextTask == 2 && 1 in db.tasks && db.tasks[1] == task
  }

  predicate Ready(s: Sys) {
    && s.trace != [] && OneTask(Now(s), T0)
    && Generation(s.redis, 1) == Ok(1) && Lookup(s.redis, F, 1).None?
    && 2 !in s.reqs && 3 !in s.reqs && 4 !in s.reqs
    && (forall w :: w in s.writes ==> w < |s.trace| && w in s.flushed)
    && (forall w :: w in s.flushed ==> w < |s.trace|)
  }

  lemma Letter(s: string)
    requires |s| == 1 && !Text.IsSpace(s[0])
    ensures Text.Trim(s) == s && NormalizeTeamName(s) == Ok(s) && ValidateTitle(s).Pass?
  {
    Text.TrimFixedPoint(s);
  }

  lemma GotoTwice(s: Sys, r: nat, a: Req, b: Req)
    ensures Goto(Goto(s, r, a), r, b) == Goto(s, r, b)
  {
    assert s.reqs[r := a][r := b] == s.reqs[r := b];
  }

  lemma TeamDone(s: Sys, r: nat)
    requires s.trace != [] && r in s.reqs && OnTeams(s.reqs[r])
    ensures Do(s, Step(r)) == AdvanceTeams(s, r, s.reqs[r], 0)
  {
    hide AdvanceTeams, AdvanceList, AdvanceUpdate, AdvanceCreation, AdvanceFlush;
  }

  lemma TeamTaken(p: Sys -> bool, s: Sys, r: nat)
    requires Closed(p) && p(s) && s.trace != [] && r in s.reqs && OnTeams(s.reqs[r])
    ensures p(AdvanceTeams(s, r, s.reqs[r], 0))
  {
    hide AdvanceTeams, Do;
    TeamDone(s, r);
    assert p(Do(s, Step(r)));
  }

  lemma CreationTaken(p: Sys -> bool, s: Sys, r: nat)
    requires Closed(p) && p(s) && s.trace != [] && r in s.reqs && (s.reqs[r].NewActor? || s.reqs[r].NewInsert?)
    ensures p(AdvanceCreation(s, r, s.reqs[r], 0, 0))
  {
    assert p(Do(s, Step(r)));
  }

  lemma UpdateTaken(p: Sys -> bool, s: Sys, r: nat)
    requires Closed(p) && p(s) && s.trace != [] && r in s.reqs
    requires s.reqs[r].Load? || s.reqs[r].LoadRole? || s.reqs[r].Swap?
    ensures p(AdvanceUpdate(s, r, s.reqs[r], 0, 0))
  {
    assert p(Do(s, Step(r)));
  }

  lemma FlushTaken(p: Sys -> bool, s: Sys, r: nat)
    requires Closed(p) && p(s) && s.trace != [] && r in s.reqs && s.reqs[r].Flush?
    ensures p(AdvanceFlush(s, r, s.reqs[r], true))
  {
    assert p(Do(s, Step(r)));
  }

  lemma ListTaken(p: Sys -> bool, s: Sys, r: nat)
    requires Closed(p) && p(s) && s.trace != [] && r in s.reqs && ListStep(s.reqs[r])
    ensures p(AdvanceList(s, r, s.reqs[r], true))
  {
    assert p(Do(s, Step(r)));
  }

  // Each of these takes one step.

  lemma Registered(p: Sys -> bool) returns (s: Sys)
    requires Closed(p) && p(INITIAL)
    ensures p(s) && s.trace != [] && s.reqs == map[] && s.redis == map[]
    ensures s.writes == map[] && s.flushed == {}
    ensures Now(s) == WithUser(EMPTY_DB, User(1, "", ""))
  {
    s := Do(INITIAL, Register(User(1, "", "")));
  }

  lemma Begins(p: Sys -> bool, s: Sys, r: nat, op: Op)
    requires Closed(p) && p(s) && s.trace != [] && r !in s.reqs && Opening(op).Some?
    ensures p(Goto(s, r, Opening(op).value))
  {
    assert p(Do(s, Start(r, op)));
  }

  lemma TeamCreated(p: Sys -> bool, s: Sys) returns (after: DB)
    requires Closed(p) && p(s) && s.trace != [] && 0 in s.reqs && s.reqs[0] == TeamInsert(1, "t")
    requires Now(s) == WithUser(EMPTY_DB, User(1, "", ""))
    ensures after == InsertTeam(Now(s), "t", 1, 0).0
    ensures p(Commits(s, 0, after, Finished(TeamIs(Team(1, "t", 1, 0)), Founded(Founding(1, "t", |s.trace|, 0)))))
  {
    after := InsertTeam(Now(s), "t", 1, 0).0;
    TeamTaken(p, s, 0);
  }

  lemma TeamStage(p: Sys -> bool) returns (s: Sys)
    requires Closed(p) && p(INITIAL)
    ensures p(s)
    ensures s.trace != [] && Now(s).nextTask == 1 && Now(s).tasks == map[] && Now(s).nextEntry == 1
    ensures 1 in Now(s).users && 1 in Now(s).teams && Now(s).members == map[(1, 1) := Role.Owner]
    ensures s.redis == map[] && s.reqs.Keys == {0} && s.writes == map[] && s.flushed == {}
  {
    Letter("t");
    s := Registered(p);
    Begins(p, s, 0, CreateTeam(1, "t"));
    s := Goto(s, 0, TeamInsert(1, "t"));
    var after := TeamCreated(p, s);
    s := Commits(s, 0, after, Finished(TeamIs(Team(1, "t", 1, 0)), Founded(Founding(1, "t", |s.trace|, 0))));
  }

  const ROW: NewTask := NewTask(1, "x", "", Todo, 1, None)

  lemma CreatorAdmitted(p: Sys -> bool, s: Sys)
    requires Closed(p) && p(s) && s.trace != [] && 1 in s.reqs && s.reqs[1] == NewActor(ROW)
    requires 1 in Now(s).users && (1, 1) in Now(s).members
    ensures p(Goto(s, 1, NewInsert(ROW)))
  {
    CreationTaken(p, s, 1);
  }

  lemma TaskInserted(p: Sys -> bool, s: Sys) returns (after: DB)
    requires Closed(p) && p(s) && s.trace != [] && 1 in s.reqs && s.reqs[1] == NewInsert(ROW)
    requires Now(s).nextTask == 1 && Now(s).tasks == map[] && 1 in Now(s).users && 1 in Now(s).teams
    requires Now(s).members == map[(1, 1) := Role.Owner]
    ensures OneTask(after, T0)
    ensures p(CommitsTask(s, 1, after, 1, TaskIs(T0), Created(Creation(ROW, |s.trace|, 0, 0))))
  {
    after := InsertTask(Now(s), ROW, 0, 0).0;
    CreationTaken(p, s, 1);
  }

  lemma Flushed(p: Sys -> bool, s: Sys, r: nat, at: nat, response: Response, note: Note)
    requires Closed(p) && p(s) && s.trace != [] && r in s.reqs && s.reqs[r] == Flush(1, at, response, note)
    ensures p(Goto(s, r, Finished(response, note)).(
              redis := Increment(s.redis, 1), flushed := s.flushed + {at}))
  {
    FlushTaken(p, s, r);
  }

  lemma TaskRequested(p: Sys -> bool, s: Sys)
    requires Closed(p) && p(s) && s.trace != [] && 1 !in s.reqs
    requires 1 in Now(s).users && (1, 1) in Now(s).members
    ensures p(Goto(s, 1, NewInsert(ROW)))
  {
    Letter("x");
    Begins(p, s, 1, CreateTask(1, NewTaskRequest(1, "x", "", Todo, None)));
    CreatorAdmitted(p, Goto(s, 1, NewActor(ROW)));
    GotoTwice(s, 1, NewActor(ROW), NewInsert(ROW));
  }

  lemma TaskCommitted(p: Sys -> bool) returns (s: Sys, at: nat)
    requires Closed(p) && p(INITIAL)
    ensures p(s) && s.trace != [] && OneTask(Now(s), T0) && s.reqs.Keys == {0, 1}
    ensures s.redis == map[] && s.writes == map[at := 1] && s.flushed == {} && at < |s.trace|
    ensures s.reqs[1] == Flush(1, at, TaskIs(T0), Created(Creation(ROW, at, 0, 0)))
  {
    s := TeamStage(p);
    TaskRequested(p, s);
    s := Goto(s, 1, NewInsert(ROW));
    var after := TaskInserted(p, s);
    at := |s.trace|;
    s := CommitsTask(s, 1, after, 1, TaskIs(T0), Created(Creation(ROW, at, 0, 0)));
  }

  lemma TaskStage(p: Sys -> bool) returns (s: Sys)
    requires Closed(p) && p(INITIAL)
    ensures p(s) && Ready(s)
  {
    var at;
    s, at := TaskCommitted(p);
    var note := Created(Creation(ROW, at, 0, 0));
    Flushed(p, s, 1, at, TaskIs(T0), note);
    s := Goto(s, 1, Finished(TaskIs(T0), note)).(redis := Increment(s.redis, 1), flushed := s.flushed + {at});
    KeysDisjoint(F, 1, 1);
  }

  lemma Admitted(p: Sys -> bool, s: Sys, r: nat)
    requires Closed(p) && p(s) && s.trace != [] && r in s.reqs && s.reqs[r] == ListRole(1, F)
    requires 1 in Now(s).users && (1, 1) in Now(s).members
    ensures p(Goto(s, r, GetGeneration(F)))
  {
    ListTaken(p, s, r);
  }

  lemma Probed(p: Sys -> bool, s: Sys, r: nat, gen: int)
    requires Closed(p) && p(s) && s.trace != [] && r in s.reqs && s.reqs[r] == GetGeneration(F)
    requires Generation(s.redis, 1) == Ok(gen)
    ensures p(Goto(s, r, GetPage(F, gen, |s.trace| - 1, Dirty(s.writes, s.flushed, 1))))
  {
    ListTaken(p, s, r);
  }

  /** A list request up to its look for a page. */
  lemma Asks(p: Sys -> bool, s: Sys, r: nat, gen: int)
    requires Closed(p) && p(s) && s.trace != [] && r !in s.reqs
    requires 1 in Now(s).users && (1, 1) in Now(s).members && Generation(s.redis, 1) == Ok(gen)
    ensures p(Goto(s, r, GetPage(F, gen, |s.trace| - 1, Dirty(s.writes, s.flushed, 1))))
  {
    hide Dirty, Generation, Do;
    var q := GetPage(F, gen, |s.trace| - 1, Dirty(s.writes, s.flushed, 1));
    assert Opening(ListTasks(1, F)) == Some(ListRole(1, F));
    Begins(p, s, r, ListTasks(1, F));
    Admitted(p, Goto(s, r, ListRole(1, F)), r);
    GotoTwice(s, r, ListRole(1, F), GetGeneration(F));
    Probed(p, Goto(s, r, GetGeneration(F)), r, gen);
    GotoTwice(s, r, GetGeneration(F), q);
  }

  lemma OneRow(db: DB, task: Task)
    requires OneTask(db, task) && task.teamId == 1
    ensures Query(db, F) == [task]
  {
    assert Rows(db.tasks, F, 0) == [];
    assert Rows(db.tasks, F, 1) == [task] + [];
  }

  lemma NotFound(p: Sys -> bool, s: Sys, r: nat, gen: int, probedAt: nat, dirty: set<nat>)
    requires Closed(p) && p(s) && s.trace != [] && r in s.reqs && s.reqs[r] == GetPage(F, gen, probedAt, dirty)
    requires Lookup(s.redis, F, gen).None?
    ensures p(Goto(s, r, RunQuery(F, None)))
  {
    ListTaken(p, s, r);
  }

  lemma QueryRun(p: Sys -> bool, s: Sys, r: nat)
    requires Closed(p) && p(s) && s.trace != [] && r in s.reqs && s.reqs[r] == RunQuery(F, None)
    ensures p(Goto(s, r, SetGeneration(F, TaskPage(Query(Now(s), F), 20, 0), |s.trace| - 1)))
  {
    ListTaken(p, s, r);
  }

  lemma LooksInVain(p: Sys -> bool, s: Sys, r: nat, gen: int)
    requires Closed(p) && p(s) && s.trace != [] && r !in s.reqs
    requires 1 in Now(s).users && (1, 1) in Now(s).members
    requires Generation(s.redis, 1) == Ok(gen) && Lookup(s.redis, F, gen).None?
    ensures p(Goto(s, r, RunQuery(F, None)))
  {
    var probe := GetPage(F, gen, |s.trace| - 1, Dirty(s.writes, s.flushed, 1));
    Asks(p, s, r, gen);
    NotFound(p, Goto(s, r, probe), r, gen, probe.probedAt, probe.dirty);
    GotoTwice(s, r, probe, RunQuery(F, None));
  }

  /** A list request that finds no page runs its query. */
  lemma Misses(p: Sys -> bool, s: Sys, task: Task, gen: int)
    requires Closed(p) && p(s) && s.trace != [] && OneTask(Now(s), task) && 2 !in s.reqs && task.teamId == 1
    requires Generation(s.redis, 1) == Ok(gen) && Lookup(s.redis, F, gen).None?
    ensures p(Goto(s, 2, SetGeneration(F, TaskPage([task], 20, 0), |s.trace| - 1)))
  {
    OneRow(Now(s), task);
    LooksInVain(p, s, 2, gen);
    QueryRun(p, Goto(s, 2, RunQuery(F, None)), 2);
    GotoTwice(s, 2, RunQuery(F, None), SetGeneration(F, TaskPage([task], 20, 0), |s.trace| - 1));
  }

  lemma Filled(p: Sys -> bool, s: Sys, page: TaskPage, readAt: nat, gen: int)
    requires Closed(p) && p(s) && s.trace != [] && 2 in s.reqs && s.reqs[2] == SetGeneration(F, page, readAt)
    requires Generation(s.redis, 1) == Ok(gen)
    ensures p(Goto(s, 2, SetPage(F, page, Origin(F, gen, readAt, Late(s.writes, s.flushed, 1, readAt)))))
  {
    ListTaken(p, s, 2);
  }

  lemma Put(p: Sys -> bool, s: Sys, page: TaskPage, o: Origin)
    requires Closed(p) && p(s) && s.trace != [] && 2 in s.reqs && s.reqs[2] == SetPage(F, page, o)
    ensures p(Goto(s, 2, Finished(PageIs(page), Queried(F, o.readAt))).(
              redis := Redis.Store(s.redis, F, o.gen, Stored(page, o))))
  {
    ListTaken(p, s, 2);
  }

  /** The page is stored under the generation that the request reads now. */
  function AfterStore(s: Sys, page: TaskPage, readAt: nat, gen: int): Sys {
    Goto(s, 2, Finished(PageIs(page), Queried(F, readAt))).(
      redis := Redis.Store(s.redis, F, gen, StoredPage(s, page, readAt, gen)))
  }

  function StoredPage(s: Sys, page: TaskPage, readAt: nat, gen: int): Stored {
    Stored(page, Origin(F, gen, readAt, Late(s.writes, s.flushed, 1, readAt)))
  }

  lemma Stores(p: Sys -> bool, s: Sys, page: TaskPage, readAt: nat, gen: int)
    requires Closed(p) && p(s) && s.trace != [] && 2 in s.reqs && s.reqs[2] == SetGeneration(F, page, readAt)
    requires Generation(s.redis, 1) == Ok(gen)
    ensures p(AfterStore(s, page, readAt, gen))
  {
    var o := StoredPage(s, page, readAt, gen).origin;
    Filled(p, s, page, readAt, gen);
    Put(p, Goto(s, 2, SetPage(F, page, o)), page, o);
    GotoTwice(s, 2, SetPage(F, page, o), Finished(PageIs(page), Queried(F, readAt)));
  }

  const MOVES: Patch := Patch(
    Optional("", false, false), Optional("", false, false), Optional(InProgress, true, true),
    Optional(0, false, false), None)

  lemma Plans(at: nat)
    ensures AfterPlan(Actor(1, Role.Owner), MOVES, at, at, T0) == Swap(1, MOVES, at, at, T0)
  {
    assert Overwritten(T0, MOVES) == T0.(status := InProgress);
    PatchAlgebra(T0, MOVES);
    AuthorizeTaskUpdateExact(Actor(1, Role.Owner), T0, DiffOf(T0, MOVES));
  }

  lemma Loaded(p: Sys -> bool, s: Sys)
    requires Closed(p) && p(s) && s.trace != [] && OneTask(Now(s), T0) && 3 in s.reqs && s.reqs[3] == Load(1, 1, MOVES)
    ensures p(Goto(s, 3, LoadRole(1, MOVES, |s.trace| - 1, T0)))
  {
    UpdateTaken(p, s, 3);
  }

  lemma Planned(p: Sys -> bool, s: Sys, at: nat)
    requires Closed(p) && p(s) && s.trace != [] && at == |s.trace| - 1 && OneTask(Now(s), T0)
    requires 3 in s.reqs && s.reqs[3] == LoadRole(1, MOVES, at, T0)
    ensures p(Goto(s, 3, Swap(1, MOVES, at, at, T0)))
  {
    PlanStep(s, at);
    UpdateTaken(p, s, 3);
  }

  lemma PlanStep(s: Sys, at: nat)
    requires s.trace != [] && at == |s.trace| - 1 && OneTask(Now(s), T0)
    ensures AdvanceUpdate(s, 3, LoadRole(1, MOVES, at, T0), 0, 0) == Goto(s, 3, Swap(1, MOVES, at, at, T0))
  {
    hide AfterPlan;
    Plans(at);
  }

  lemma Moved(db: DB) returns (after: DB)
    requires OneTask(db, T0)
    ensures SwapPatch(db, 1, MOVES, 1, 0, 0) == (after, Ok(T1)) && OneTask(after, T1)
  {
    PatchedRow(T0, MOVES, 0, 0);
    after := SwapPatch(db, 1, MOVES, 1, 0, 0).0;
  }

  lemma Swapped(p: Sys -> bool, s: Sys, at: nat) returns (after: DB, note: Note)
    requires Closed(p) && p(s) && s.trace != [] && at == |s.trace| - 1 && OneTask(Now(s), T0)
    requires 3 in s.reqs && s.reqs[3] == Swap(1, MOVES, at, at, T0)
    ensures OneTask(after, T1) && p(CommitsTask(s, 3, after, 1, TaskIs(T1), note))
  {
    after := Moved(Now(s));
    note := Updated(Commit(1, 1, MOVES, at, at, |s.trace|, 0, 0));
    UpdateTaken(p, s, 3);
  }

  lemma LoadsRow(p: Sys -> bool, s: Sys, at: nat)
    requires Closed(p) && p(s) && s.trace != [] && at == |s.trace| - 1 && OneTask(Now(s), T0) && 3 !in s.reqs
    ensures p(Goto(s, 3, LoadRole(1, MOVES, at, T0)))
  {
    Begins(p, s, 3, UpdateTask(1, 1, MOVES));
    Loaded(p, Goto(s, 3, Load(1, 1, MOVES)));
    GotoTwice(s, 3, Load(1, 1, MOVES), LoadRole(1, MOVES, at, T0));
  }

  lemma Prepares(p: Sys -> bool, s: Sys, at: nat)
    requires Closed(p) && p(s) && s.trace != [] && at == |s.trace| - 1 && OneTask(Now(s), T0) && 3 !in s.reqs
    ensures p(Goto(s, 3, Swap(1, MOVES, at, at, T0)))
  {
    LoadsRow(p, s, at);
    Planned(p, Goto(s, 3, LoadRole(1, MOVES, at, T0)), at);
    GotoTwice(s, 3, LoadRole(1, MOVES, at, T0), Swap(1, MOVES, at, at, T0));
  }

  /** An update that moves the task on, up to and including its transaction. */
  lemma Writes(p: Sys -> bool, s: Sys) returns (after: DB, note: Note)
    requires Closed(p) && p(s) && s.trace != [] && OneTask(Now(s), T0) && 3 !in s.reqs
    ensures OneTask(after, T1) && p(CommitsTask(s, 3, after, 1, TaskIs(T1), note))
  {
    var at := |s.trace| - 1;
    var swap := Swap(1, MOVES, at, at, T0);
    Prepares(p, s, at);
    after, note := Swapped(p, Goto(s, 3, swap), at);
    GotoTwice(s, 3, swap, Flush(1, |s.trace|, TaskIs(T1), note));
  }

  lemma Found(p: Sys -> bool, s: Sys, stored: Stored, gen: int, probedAt: nat, dirty: set<nat>)
    requires Closed(p) && p(s) && s.trace != [] && 4 in s.reqs && s.reqs[4] == GetPage(F, gen, probedAt, dirty)
    requires Lookup(s.redis, F, gen) == Some(stored)
    ensures p(Goto(s, 4, Finished(PageIs(stored.page),
                        Served(F, stored.origin, probedAt, |s.trace| - 1, dirty))))
  {
    ListTaken(p, s, 4);
  }

  /** A list request that is answered from the cache. */
  lemma Hits(p: Sys -> bool, s: Sys, stored: Stored, gen: int) returns (t: Sys)
    requires Closed(p) && p(s) && s.trace != [] && 4 !in s.reqs
    requires 1 in Now(s).users && (1, 1) in Now(s).members
    requires Generation(s.redis, 1) == Ok(gen) && Lookup(s.redis, F, gen) == Some(stored)
    ensures p(t)
    ensures t == Goto(s, 4, Finished(PageIs(stored.page),
                   Served(F, stored.origin, |s.trace| - 1, |s.trace| - 1, Dirty(s.writes, s.flushed, 1))))
  {
    var probe := GetPage(F, gen, |s.trace| - 1, Dirty(s.writes, s.flushed, 1));
    Asks(p, s, 4, gen);
    Found(p, Goto(s, 4, probe), stored, gen, probe.probedAt, probe.dirty);
    var note := Served(F, stored.origin, probe.probedAt, probe.probedAt, probe.dirty);
    t := Goto(s, 4, Finished(PageIs(stored.page), note));
    GotoTwice(s, 4, probe, t.reqs[4]);
  }

  // ---------- the two runs ----------

  /** The request was answered from the cache with a page that was the answer at no moment between the
      two reads of Get. */
  ghost predicate StaleHit(s: Sys, r: nat) {
    && s.trace != [] && Hit(s, r) && s.reqs[r].note.servedAt < |s.trace|
    && forall k: nat :: s.reqs[r].note.probedAt <= k <= s.reqs[r].note.servedAt ==>
         !Answers(s, s.reqs[r].response, s.reqs[r].note.filter, k)
  }

  lemma OldPageWrong(s: Sys, at: nat)
    requires at < |s.trace| && OneTask(s.trace[at], T1)
    ensures !Answers(s, PageIs(TaskPage([T0], 20, 0)), F, at)
  {
    OneRow(s.trace[at], T1);
    assert [T0][0] != [T1][0];
  }

  lemma StaleServed(t: Sys, o: Origin, dirty: set<nat>)
    requires t.trace != [] && OneTask(Now(t), T1) && 4 in t.reqs
    requires t.reqs[4] == Finished(PageIs(TaskPage([T0], 20, 0)), Served(F, o, |t.trace| - 1, |t.trace| - 1, dirty))
    ensures StaleHit(t, 4)
  {
    OldPageWrong(t, |t.trace| - 1);
  }

  lemma StaleAnswer(p: Sys -> bool, s: Sys, gen: int, o: Origin) returns (t: Sys)
    requires Closed(p) && p(s) && s.trace != [] && OneTask(Now(s), T1) && 4 !in s.reqs
    requires Generation(s.redis, 1) == Ok(gen)
    requires Lookup(s.redis, F, gen) == Some(Stored(TaskPage([T0], 20, 0), o))
    ensures p(t) && StaleHit(t, 4)
    ensures t.reqs[4].note.origin == o && t.reqs[4].note.dirty == Dirty(s.writes, s.flushed, 1)
  {
    t := Hits(p, s, Stored(TaskPage([T0], 20, 0), o), gen);
    StaleServed(t, o, Dirty(s.writes, s.flushed, 1));
  }

  lemma StoreFacts(s: Sys, page: TaskPage, readAt: nat, gen: int)
    requires Generation(s.redis, 1) == Ok(gen)
    ensures var t := AfterStore(s, page, readAt, gen);
            && Generation(t.redis, 1) == Ok(gen)
            && Lookup(t.redis, F, gen) == Some(StoredPage(s, page, readAt, gen))
  {
    KeysDisjoint(F, gen, 1);
  }

  /** A list request has read the row, and not stored its page yet. */
  lemma RowRead(p: Sys -> bool) returns (s: Sys, readAt: nat)
    requires Closed(p) && p(INITIAL)
    ensures p(s) && s.trace != [] && OneTask(Now(s), T0) && 3 !in s.reqs && 4 !in s.reqs
    ensures Generation(s.redis, 1) == Ok(1) && readAt == |s.trace| - 1
    ensures 2 in s.reqs && s.reqs[2] == SetGeneration(F, TaskPage([T0], 20, 0), readAt)
    ensures forall w :: w in s.writes ==> w < |s.trace| && w in s.flushed
    ensures forall w :: w in s.flushed ==> w < |s.trace|
  {
    s := TaskStage(p);
    readAt := |s.trace| - 1;
    Misses(p, s, T0, 1);
    s := Goto(s, 2, SetGeneration(F, TaskPage([T0], 20, 0), readAt));
  }

  /** The page of the old row is stored before the update. */
  lemma PageCached(p: Sys -> bool) returns (s: Sys, o: Origin)
    requires Closed(p) && p(INITIAL)
    ensures p(s) && s.trace != [] && OneTask(Now(s), T0) && 3 !in s.reqs && 4 !in s.reqs
    ensures Generation(s.redis, 1) == Ok(1) && o.late == {}
    ensures Lookup(s.redis, F, 1) == Some(Stored(TaskPage([T0], 20, 0), o))
    ensures |s.trace| !in s.flushed
  {
    var readAt;
    s, readAt := RowRead(p);
    Stores(p, s, TaskPage([T0], 20, 0), readAt, 1);
    StoreFacts(s, TaskPage([T0], 20, 0), readAt, 1);
    o := StoredPage(s, TaskPage([T0], 20, 0), readAt, 1).origin;
    s := AfterStore(s, TaskPage([T0], 20, 0), readAt, 1);
  }

  /** A list request has read the old row; then the update committed and was invalidated. */
  lemma WrittenBehind(p: Sys -> bool) returns (s: Sys, readAt: nat, at: nat)
    requires Closed(p) && p(INITIAL)
    ensures p(s) && s.trace != [] && OneTask(Now(s), T1) && 4 !in s.reqs
    ensures 2 in s.reqs && s.reqs[2] == SetGeneration(F, TaskPage([T0], 20, 0), readAt)
    ensures Generation(s.redis, 1) == Ok(2)
    ensures readAt < at && at in s.writes && s.writes[at] == 1
    ensures forall w :: w in s.writes ==> w in s.flushed
  {
    s, readAt := RowRead(p);
    var after, note := Writes(p, s);
    at := |s.trace|;
    s := CommitsTask(s, 3, after, 1, TaskIs(T1), note);
    Flushed(p, s, 3, at, TaskIs(T1), note);
    s := Goto(s, 3, Finished(TaskIs(T1), note)).(redis := Increment(s.redis, 1), flushed := s.flushed + {at});
  }

  /** Exception (a): a write has committed and its Invalidate has not run. */
  lemma StaleByPendingWrite(p: Sys -> bool) returns (s: Sys)
    requires Closed(p) && p(INITIAL)
    ensures p(s) && StaleHit(s, 4)
    ensures s.reqs[4].note.origin.late == {} && s.reqs[4].note.dirty != {}
  {
    var o;
    s, o := PageCached(p);
    var at := |s.trace|;
    var after, note := Writes(p, s);
    s := CommitsTask(s, 3, after, 1, TaskIs(T1), note);
    assert at in Dirty(s.writes, s.flushed, 1);
    s := StaleAnswer(p, s, 1, o);
  }

  /** Exception (b): the write was invalidated after the fill's query and before Set read the generation. */
  lemma StaleByLateFill(p: Sys -> bool) returns (s: Sys)
    requires Closed(p) && p(INITIAL)
    ensures p(s) && StaleHit(s, 4)
    ensures s.reqs[4].note.dirty == {} && s.reqs[4].note.origin.late != {}
  {
    var readAt, at;
    s, readAt, at := WrittenBehind(p);
    Stores(p, s, TaskPage([T0], 20, 0), readAt, 2);
    StoreFacts(s, TaskPage([T0], 20, 0), readAt, 2);
    var o := StoredPage(s, TaskPage([T0], 20, 0), readAt, 2).origin;
    assert at in o.late;
    s := AfterStore(s, TaskPage([T0], 20, 0), readAt, 2);
    assert Dirty(s.writes, s.flushed, 1) == {};
    s := StaleAnswer(p, s, 2, o);
  }

  /** Freshness without the two conditions is false of the code: both kinds of stale hit are reached. */
  lemma StaleHitsReachable() returns (a: seq<Event>, b: seq<Event>)
    ensures StaleHit(Run(a), 4) && Run(a).reqs[4].note.origin.late == {}
    ensures StaleHit(Run(b), 4) && Run(b).reqs[4].note.dirty == {}
  {
    ReachableClosed();
    assert Run([]) == INITIAL;
    var s := StaleByPendingWrite((s: Sys) => Reachable(s));
    a :| Run(a) == s;
    var t := StaleByLateFill((s: Sys) => Reachable(s));
    b :| Run(b) == t;
  }
}
