/** Requests served one after the other through the cache: every list answer is the uncached one. */
module Coherence {
  import opened Outcomes
  import opened Domain
  import opened TaskPatch
  import opened Database
  import opened Operations
  import opened Execution
  import opened Listings
  import opened Redis
  import opened TaskCache

  // ---------- one request ----------

  /** The query, whose page is then stored. */
  function FromQuery(db: DB, redis: Pages, enabled: bool, f: TaskFilter, calls: Calls): (Pages, Response)
    requires f.limit >= 0 && f.offset >= 0
  {
    var page := TaskPage(Query(db, f), f.limit, f.offset);
    (Filled(redis, enabled, f, page, calls), PageIs(page))
  }

  /** The cached page if there is one, else the query. */
  function FromLookup(db: DB, redis: Pages, enabled: bool, f: TaskFilter, calls: Calls): (Pages, Response)
    requires f.limit >= 0 && f.offset >= 0
  {
    match Got(redis, enabled, f, calls)
    case Some(page) => (redis, PageIs(page))
    case None => FromQuery(db, redis, enabled, f, calls)
  }

  function ServeList(db: DB, redis: Pages, enabled: bool, actor: Id, filter: TaskFilter, calls: Calls)
    : (Pages, Response)
  {
    if ValidateFilter(filter).Fail? then (redis, Failed(ValidateFilter(filter).error))
    else
      var f := NormalizeFilter(filter);
      match Membership(db, f.teamId, actor)
      case Err(e) => (redis, Failed(e))
      case Ok(_) => FromLookup(db, redis, enabled, f, calls)
  }

  /** Invalidate follows if a task was written. */
  function Flushed(db: DB, redis: Pages, enabled: bool, result: (DB, Response), calls: Calls): (DB, Pages, Response) {
    var (after, response) := result;
    (after, if after != db && response.TaskIs? then Invalidated(redis, enabled, response.task.teamId, calls) else redis,
     response)
  }

  /** A request that writes: its effect without a cache, then Invalidate. */
  function ServeWrite(db: DB, redis: Pages, enabled: bool, op: Op, clock: Time, now: Time, calls: Calls)
    : (DB, Pages, Response)
  {
    Flushed(db, redis, enabled, Exec(db, op, clock, now), calls)
  }

  /** The whole effect of one request, served alone. */
  function Serve(db: DB, redis: Pages, enabled: bool, op: Op, clock: Time, now: Time, calls: Calls)
    : (DB, Pages, Response)
  {
    match op
    case ListTasks(actor, filter) =>
      var (after, response) := ServeList(db, redis, enabled, actor, filter, calls);
      (db, after, response)
    case _ => ServeWrite(db, redis, enabled, op, clock, now, calls)
  }

  // ---------- coherence ----------

  /** The page is the answer to the list request on this state. */
  predicate Exact(db: DB, f: TaskFilter, page: TaskPage) {
    f.limit >= 0 && f.offset >= 0 && page == TaskPage(Query(db, f), f.limit, f.offset)
  }

  ghost predicate PageOk(db: DB, redis: Pages, f: TaskFilter, gen: int) {
    Generation(redis, f.teamId).Ok? && Lookup(redis, f, gen).Some? ==>
      var current := Generation(redis, f.teamId).value;
      gen <= current && (gen == current ==> Exact(db, f, Lookup(redis, f, gen).value))
  }

  /** Under a team's current generation there are exact pages only, and no page lies under a later one. */
  ghost predicate Coherent(db: DB, redis: Pages) {
    Tidy(redis) && forall f, gen :: Askable(f) ==> PageOk(db, redis, f, gen)
  }

  lemma TidyGeneration(redis: Pages, team: Id)
    requires Tidy(redis)
    ensures Generation(redis, team).Ok?
  {
    var key := GenerationKey(team);
  }

  /** Filling with the exact page keeps coherence. */
  lemma FillCoherent(db: DB, redis: Pages, enabled: bool, f: TaskFilter, page: TaskPage, calls: Calls)
    requires Coherent(db, redis) && Askable(f) && Exact(db, f, page)
    ensures Coherent(db, Filled(redis, enabled, f, page, calls))
  {
    var current := Generation(redis, f.teamId);
    if Filled(redis, enabled, f, page, calls) != redis {
      var after := Store(redis, f, current.value, page);
      StoreTidy(redis, f, current.value, page);
      forall g, gen | Askable(g) ensures PageOk(db, after, g, gen) {
        assert PageOk(db, redis, g, gen);
        if ListKey(g, gen) == ListKey(f, current.value) {
          ListKeyInjective(g, gen, f, current.value);
        }
      }
    }
  }

  lemma LapseCoherent(db: DB, redis: Pages, key: string)
    requires Coherent(db, redis)
    ensures Coherent(db, Expire(redis, key))
  {
    ExpiryTidy(redis, key);
    forall f, gen | Askable(f) ensures PageOk(db, Expire(redis, key), f, gen) {
      assert PageOk(db, redis, f, gen);
    }
  }

  /** A write to one team followed by its Invalidate keeps coherence. */
  lemma InvalidateCoherent(db: DB, redis: Pages, after: DB, team: Id)
    requires Coherent(db, redis) && Keyed(db) && Keyed(after)
    requires forall t :: t != team ==> SameTable(db, after, t)
    ensures Coherent(after, Increment(redis, team))
  {
    IncrementTidy(redis, team);
    forall f, gen | Askable(f) ensures PageOk(after, Increment(redis, team), f, gen) {
      assert PageOk(db, redis, f, gen);
      if f.teamId != team {
        SameQuery(db, after, f);
      }
    }
  }

  /** A write that leaves the tasks alone keeps coherence. */
  lemma QuietCoherent(db: DB, redis: Pages, after: DB)
    requires Coherent(db, redis) && Keyed(db) && Keyed(after) && after.tasks == db.tasks
    ensures Coherent(after, redis)
  {
    forall f, gen | Askable(f) ensures PageOk(after, redis, f, gen) {
      assert PageOk(db, redis, f, gen);
      assert SameTable(db, after, f.teamId);
      SameQuery(db, after, f);
    }
  }

  /** Only requests that answer with a task write tasks, and they write rows of that task's team only. */
  lemma WritesOneTeam(db: DB, op: Op, clock: Time, now: Time)
    requires Keyed(db)
    ensures var (after, response) := Exec(db, op, clock, now);
            if response.TaskIs? then forall t :: t != response.task.teamId ==> SameTable(db, after, t)
            else after.tasks == db.tasks
  {
    match op
    case CreateTask(actor, request) => CreateWritesOneTeam(db, actor, request, clock, now);
    case UpdateTask(actor, task, patch) => UpdateWritesOneTeam(db, actor, task, patch, clock, now);
    case _ => OthersLeaveTasks(db, op, clock, now);
  }

  lemma OthersLeaveTasks(db: DB, op: Op, clock: Time, now: Time)
    requires !op.CreateTask? && !op.UpdateTask?
    ensures Exec(db, op, clock, now).0.tasks == db.tasks && !Exec(db, op, clock, now).1.TaskIs?
  {
    hide ExecUpdateTask, ExecCreateTask, Query, NewestFirst, TeamsOf, ScopeOf, ResolveInvitee, NormalizeTeamName;
  }

  lemma CreateWritesOneTeam(db: DB, actor: Id, request: NewTaskRequest, clock: Time, now: Time)
    requires Keyed(db)
    ensures var (after, response) := ExecCreateTask(db, actor, request, clock, now);
            if response.TaskIs? then forall t :: t != response.task.teamId ==> SameTable(db, after, t)
            else after.tasks == db.tasks
  {
    assert db.nextTask !in db.tasks;
  }

  lemma UpdateWritesOneTeam(db: DB, actor: Id, id: Id, patch: Patch, clock: Time, now: Time)
    requires Keyed(db)
    ensures var (after, response) := ExecUpdateTask(db, actor, id, patch, clock, now);
            if response.TaskIs? then forall t :: t != response.task.teamId ==> SameTable(db, after, t)
            else after.tasks == db.tasks
  {
    hide ExecUpdateTask, DiffOf, UpdateFor, Validate;
    UpdateCases(db, actor, id, patch, clock, now);
  }

  lemma UncachedList(db: DB, redis: Pages, actor: Id, filter: TaskFilter, calls: Calls)
    ensures ServeList(db, redis, false, actor, filter, calls) == (redis, ExecListTasks(db, actor, filter))
  {
  }

  /** The list answer through a coherent cache is the uncached one, whichever Redis calls fail. */
  lemma ListCoherent(db: DB, redis: Pages, actor: Id, filter: TaskFilter, calls: Calls)
    requires Coherent(db, redis)
    ensures ServeList(db, redis, true, actor, filter, calls).1 == ExecListTasks(db, actor, filter)
    ensures Coherent(db, ServeList(db, redis, true, actor, filter, calls).0)
  {
    if ValidateFilter(filter).Pass? {
      var f := NormalizeFilter(filter);
      var page := TaskPage(Query(db, f), f.limit, f.offset);
      TidyGeneration(redis, f.teamId);
      assert PageOk(db, redis, f, Generation(redis, f.teamId).value);
      FillCoherent(db, redis, true, f, page, calls);
    }
  }

  /** The request changes the state and answers with a task, so that Invalidate has to follow. */
  predicate WritesTask(db: DB, op: Op, clock: Time, now: Time) {
    Exec(db, op, clock, now).0 != db && Exec(db, op, clock, now).1.TaskIs?
  }

  lemma WriteCoherent(db: DB, redis: Pages, op: Op, clock: Time, now: Time, calls: Calls)
    requires Coherent(db, redis) && Keyed(db) && Keyed(Exec(db, op, clock, now).0)
    requires calls.incr || !WritesTask(db, op, clock, now)
    ensures var (after, redis', _) := ServeWrite(db, redis, true, op, clock, now, calls); Coherent(after, redis')
  {
    hide Exec, Keyed, Coherent;
    var (after, response) := Exec(db, op, clock, now);
    WritesOneTeam(db, op, clock, now);
    if after != db && response.TaskIs? {
      InvalidateCoherent(db, redis, after, response.task.teamId);
    } else {
      QuietCoherent(db, redis, after);
    }
  }

  lemma KeyedAfter(db: DB, op: Op, clock: Time, now: Time)
    requires Sound(db)
    ensures Keyed(db) && Keyed(Exec(db, op, clock, now).0)
  {
    ExecKeeps(db, op, clock, now);
  }

  /** One request served alone: it does and answers what it would without a cache, and if its Invalidate
      takes effect, or it writes no task, the cache stays coherent. */
  lemma ServeCoherent(db: DB, redis: Pages, enabled: bool, op: Op, clock: Time, now: Time, calls: Calls)
    requires Sound(db) && (enabled ==> Coherent(db, redis))
    ensures var (after, redis', response) := Serve(db, redis, enabled, op, clock, now, calls);
            && (after, response) == Exec(db, op, clock, now)
            && (enabled && (calls.incr || !WritesTask(db, op, clock, now)) ==> Coherent(after, redis'))
  {
    KeyedAfter(db, op, clock, now);
    if op.ListTasks? {
      if enabled {
        ListCoherent(db, redis, op.actor, op.filter, calls);
      } else {
        UncachedList(db, redis, op.actor, op.filter, calls);
      }
    } else if enabled && (calls.incr || !WritesTask(db, op, clock, now)) {
      WriteCoherent(db, redis, op, clock, now, calls);
    }
  }

  // ---------- whole runs ----------

  /** What happens one after the other: a request, a page that expires, or a new user. */
  datatype Turn =
    | Request(op: Op, clock: Time, now: Time, calls: Calls)
    | Lapse(key: string)
    | Register(user: User)

  datatype Site = Site(db: DB, redis: Pages)

  function TurnDone(s: Site, enabled: bool, t: Turn): Site {
    match t
    case Request(op, clock, now, calls) =>
      var (db, redis, _) := Serve(s.db, s.redis, enabled, op, clock, now, calls);
      Site(db, redis)
    case Lapse(key) => Site(s.db, Expire(s.redis, key))
    case Register(user) => Site(InsertUser(s.db, user), s.redis)
  }

  function TurnsDone(enabled: bool, turns: seq<Turn>): Site {
    if turns == [] then Site(EMPTY_DB, map[])
    else TurnDone(TurnsDone(enabled, turns[..|turns| - 1]), enabled, turns[|turns| - 1])
  }

  ghost predicate Steady(s: Site, enabled: bool) {
    Sound(s.db) && (enabled ==> Coherent(s.db, s.redis))
  }

  /** Every Invalidate of the run takes effect; everything else may fail. */
  predicate Flushing(turns: seq<Turn>) {
    forall k :: 0 <= k < |turns| && turns[k].Request? ==> turns[k].calls.incr
  }

  lemma TurnSteady(s: Site, enabled: bool, t: Turn)
    requires Steady(s, enabled) && (t.Request? ==> t.calls.incr)
    ensures Steady(TurnDone(s, enabled, t), enabled)
  {
    match t
    case Request(op, clock, now, calls) =>
      ServeCoherent(s.db, s.redis, enabled, op, clock, now, calls);
      ExecKeeps(s.db, op, clock, now);
    case Lapse(key) =>
      if enabled {
        LapseCoherent(s.db, s.redis, key);
      }
    case Register(user) =>
      InsertUserKeeps(s.db, user);
      if enabled {
        QuietCoherent(s.db, s.redis, InsertUser(s.db, user));
      }
  }

  lemma StartSteady(enabled: bool)
    ensures Steady(Site(EMPTY_DB, map[]), enabled)
  {
    assert forall f, gen :: Askable(f) ==> PageOk(EMPTY_DB, map[], f, gen);
  }

  lemma {:induction false} TurnsSteady(enabled: bool, turns: seq<Turn>)
    requires Flushing(turns)
    ensures Steady(TurnsDone(enabled, turns), enabled)
  {
    if turns == [] {
      StartSteady(enabled);
    } else {
      var n := |turns| - 1;
      TurnsSteady(enabled, turns[..n]);
      TurnSteady(TurnsDone(enabled, turns[..n]), enabled, turns[n]);
    }
  }

  /** When requests do not overlap and every Invalidate takes effect, every request of every run is
      answered as on the current database without a cache, whatever other Redis calls fail and whenever
      pages expire. */
  lemma SequentialCoherence(enabled: bool, turns: seq<Turn>, op: Op, clock: Time, now: Time, calls: Calls)
    requires Flushing(turns)
    ensures var s := TurnsDone(enabled, turns);
            Serve(s.db, s.redis, enabled, op, clock, now, calls).2 == Exec(s.db, op, clock, now).1
  {
    TurnsSteady(enabled, turns);
    var s := TurnsDone(enabled, turns);
    ServeCoherent(s.db, s.redis, enabled, op, clock, now, calls);
  }
}
