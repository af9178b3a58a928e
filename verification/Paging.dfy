/** Reading a list page by page: complete on a table that stands still, and never skipping a task that
    was there at the start while other requests go on. */
module Paging {
  import opened Outcomes
  import opened Domain
  import opened Database
  import opened Listings
  import opened Protocol
  import opened ProtocolSafety

  // ---------- a walk over a fixed table ----------

  function PageOf(db: DB, f: TaskFilter, limit: nat, offset: nat): seq<Task> {
    Query(db, f.(limit := limit, offset := offset))
  }

  lemma {:induction false} RowsIgnorePage(tasks: map<Id, Task>, f: TaskFilter, g: TaskFilter, n: nat)
    requires g == f.(limit := g.limit, offset := g.offset)
    ensures Rows(tasks, f, n) == Rows(tasks, g, n)
  {
    if n != 0 {
      RowsIgnorePage(tasks, f, g, n - 1);
      if n in tasks {
        assert Matches(tasks[n], f) <==> Matches(tasks[n], g);
      }
    }
  }

  lemma PageIsWindow(db: DB, f: TaskFilter, limit: nat, offset: nat)
    ensures PageOf(db, f, limit, offset) == Window(Listing(db, f), offset, limit)
  {
    RowsIgnorePage(db.tasks, f, f.(limit := limit, offset := offset), if db.nextTask == 0 then 0 else db.nextTask - 1);
  }

  /** Asks for pages at growing offsets until one comes back short. */
  function Walk(db: DB, f: TaskFilter, limit: nat, offset: nat): seq<Task>
    requires limit > 0
    decreases if |Listing(db, f)| < offset then 0 else |Listing(db, f)| - offset + 1
  {
    PageIsWindow(db, f, limit, offset);
    var page := PageOf(db, f, limit, offset);
    if |page| < limit then page else page + Walk(db, f, limit, offset + limit)
  }

  lemma {:induction false} WalkFrom(db: DB, f: TaskFilter, limit: nat, offset: nat)
    requires limit > 0 && offset <= |Listing(db, f)|
    ensures Walk(db, f, limit, offset) == Listing(db, f)[offset..]
    decreases |Listing(db, f)| - offset
  {
    PageIsWindow(db, f, limit, offset);
    if |PageOf(db, f, limit, offset)| >= limit {
      WalkFrom(db, f, limit, offset + limit);
    }
  }

  /** Walking a fixed table by offset += limit until a short page ends, and returns every matching task
      exactly once, by strictly descending id. */
  lemma WalkComplete(db: DB, f: TaskFilter, limit: nat)
    requires Keyed(db) && limit > 0
    ensures var seen := Walk(db, f, limit, 0);
            && (forall row :: row in seen <==>
                  && row.id in db.tasks && db.tasks[row.id] == row && row.teamId == f.teamId
                  && (f.status.Some? ==> row.status == f.status.value)
                  && (f.assignee.Some? ==> row.assignee == Some(f.assignee.value)))
            && (forall i, j :: 0 <= i < j < |seen| ==> seen[i].id > seen[j].id)
  {
    WalkFrom(db, f, limit, 0);
    ListingExact(db, f);
  }

  // ---------- a walk while the system runs ----------

  function AllOf(team: Id): TaskFilter {
    TaskFilter(team, None, None, 0, 0)
  }

  /** How many rows with ids above id and up to n the listing shows before the row id. */
  function Above(tasks: map<Id, Task>, team: Id, id: nat, n: nat): nat
    requires id <= n
    decreases n
  {
    if n == id then 0
    else (if n in tasks && Matches(tasks[n], AllOf(team)) then 1 else 0) + Above(tasks, team, id, n - 1)
  }

  lemma {:induction false} RowPosition(tasks: map<Id, Task>, team: Id, id: nat, n: nat)
    requires 0 < id <= n && id in tasks && tasks[id].teamId == team
    ensures var rows := Rows(tasks, AllOf(team), n);
            Above(tasks, team, id, n) < |rows| && rows[Above(tasks, team, id, n)] == tasks[id]
    decreases n
  {
    if n != id {
      RowPosition(tasks, team, id, n - 1);
    }
  }

  lemma {:induction false} AboveGrows(a: map<Id, Task>, b: map<Id, Task>, team: Id, id: nat, m: nat, n: nat)
    requires id <= m <= n
    requires forall t :: t in a ==> t in b && a[t].teamId == b[t].teamId
    ensures Above(a, team, id, m) <= Above(b, team, id, n)
    decreases n
  {
    if m < n {
      AboveGrows(a, b, team, id, m, n - 1);
    } else if id < n {
      AboveGrows(a, b, team, id, m - 1, n - 1);
    }
  }

  /** Where the listing of a team shows a task. */
  function Position(db: DB, id: Id): nat
    requires Keyed(db) && id in db.tasks
  {
    Above(db.tasks, db.tasks[id].teamId, id, db.nextTask - 1)
  }

  lemma ShownAt(db: DB, id: Id)
    requires Keyed(db) && id in db.tasks
    ensures var rows := Listing(db, AllOf(db.tasks[id].teamId));
            Position(db, id) < |rows| && rows[Position(db, id)] == db.tasks[id]
  {
    RowPosition(db.tasks, db.tasks[id].teamId, id, db.nextTask - 1);
  }

  /** As the system runs, a task only moves towards the end of its listing. */
  lemma PositionGrows(a: DB, b: DB, id: Id)
    requires Keyed(a) && Keyed(b) && Evolves(a, b) && id in a.tasks
    ensures id in b.tasks && a.tasks[id].teamId == b.tasks[id].teamId && Position(a, id) <= Position(b, id)
  {
    forall t | t in a.tasks ensures t in b.tasks && a.tasks[t].teamId == b.tasks[t].teamId {
      assert Descends(a.tasks[t], b.tasks[t]);
    }
    AboveGrows(a.tasks, b.tasks, a.tasks[id].teamId, id, a.nextTask - 1, b.nextTask - 1);
  }

  predicate ShowsTask(page: seq<Task>, id: Id) {
    exists row :: row in page && row.id == id
  }

  /** A page that starts at or before the task's position shows it, or is full and ends before it. */
  lemma PageShows(db: DB, id: Id, limit: nat, offset: nat)
    requires Keyed(db) && id in db.tasks && offset <= Position(db, id)
    ensures var page := PageOf(db, AllOf(db.tasks[id].teamId), limit, offset);
            ShowsTask(page, id) || (offset + limit <= Position(db, id) && |page| == limit)
  {
    var team, p := db.tasks[id].teamId, Position(db, id);
    ShownAt(db, id);
    PageIsWindow(db, AllOf(team), limit, offset);
    if p < offset + limit {
      assert PageOf(db, AllOf(team), limit, offset)[p - offset] == db.tasks[id];
    }
  }

  /** Page k of a walk whose k-th query ran on states[k]. */
  function WalkPage(states: seq<DB>, team: Id, limit: nat, k: nat): seq<Task>
    requires k < |states|
  {
    PageOf(states[k], AllOf(team), limit, k * limit)
  }

  /** Every page but the last was full, and the last was short. */
  predicate WalkEnded(states: seq<DB>, team: Id, limit: nat) {
    && states != []
    && (forall k :: 0 <= k < |states| - 1 ==> |WalkPage(states, team, limit, k)| == limit)
    && |WalkPage(states, team, limit, |states| - 1)| < limit
  }

  ghost predicate Along(states: seq<DB>) {
    && (forall k :: 0 <= k < |states| ==> Keyed(states[k]))
    && (forall k :: 0 < k < |states| ==> Evolves(states[k - 1], states[k]))
  }

  lemma NextPage(a: DB, b: DB, team: Id, limit: nat, id: Id, offset: nat)
    requires Keyed(a) && Keyed(b) && Evolves(a, b) && InTeam(a, id, team) && offset <= Position(a, id)
    ensures ShowsTask(PageOf(a, AllOf(team), limit, offset), id)
            || (InTeam(b, id, team) && offset + limit <= Position(b, id))
  {
    PageShows(a, id, limit, offset);
    PositionGrows(a, b, id);
  }

  lemma {:induction false} WalkShows(states: seq<DB>, team: Id, limit: nat, id: Id, k: nat) returns (j: nat)
    requires Along(states) && WalkEnded(states, team, limit) && k < |states|
    requires InTeam(states[k], id, team) && k * limit <= Position(states[k], id)
    ensures j < |states| && ShowsTask(WalkPage(states, team, limit, j), id)
    decreases |states| - k
  {
    hide Keyed, Evolves, Position, ShowsTask, PageOf;
    if ShowsTask(WalkPage(states, team, limit, k), id) {
      j := k;
    } else if k + 1 < |states| {
      NextPage(states[k], states[k + 1], team, limit, id, k * limit);
      assert (k + 1) * limit == k * limit + limit;
      j := WalkShows(states, team, limit, id, k + 1);
    } else {
      PageShows(states[k], id, limit, k * limit);
      assert false;
    }
  }

  /** The states that a client meets when it reads at successive moments of a run. */
  function StatesAt(trace: seq<DB>, at: seq<nat>): (states: seq<DB>)
    requires forall k :: 0 <= k < |at| ==> at[k] < |trace|
    ensures |states| == |at| && forall k :: 0 <= k < |at| ==> states[k] == trace[at[k]]
  {
    seq(|at|, k requires 0 <= k < |at| => trace[at[k]])
  }

  lemma RunStates(events: seq<Event>, at: seq<nat>)
    requires forall k :: 0 <= k < |at| ==> at[k] < |Run(events).trace|
    requires forall k :: 0 < k < |at| ==> at[k - 1] <= at[k]
    ensures Along(StatesAt(Run(events).trace, at))
  {
    hide AllReqsOk, AllAccounted, Run;
    var trace := Run(events).trace;
    RunKeeps(events);
    TraceStates(trace, at);
  }

  lemma TraceStates(trace: seq<DB>, at: seq<nat>)
    requires Sounds(trace) && Evolving(trace)
    requires forall k :: 0 <= k < |at| ==> at[k] < |trace|
    requires forall k :: 0 < k < |at| ==> at[k - 1] <= at[k]
    ensures Along(StatesAt(trace, at))
  {
    hide Evolves, Keyed;
    forall k | 0 <= k < |at| ensures Keyed(trace[at[k]]) {
      assert Sound(trace[at[k]]);
    }
    forall k | 0 < k < |at| ensures Evolves(trace[at[k - 1]], trace[at[k]]) {
    }
  }

  /** A walk over a team's tasks, without status or assignee filter, whose pages are read at successive
      moments of any run never skips a task that was there when it began. */
  lemma NothingSkipped(events: seq<Event>, at: seq<nat>, team: Id, limit: nat, id: Id) returns (k: nat)
    requires forall k :: 0 <= k < |at| ==> at[k] < |Run(events).trace|
    requires forall k :: 0 < k < |at| ==> at[k - 1] <= at[k]
    requires WalkEnded(StatesAt(Run(events).trace, at), team, limit)
    requires InTeam(Run(events).trace[at[0]], id, team)
    ensures k < |at| && ShowsTask(WalkPage(StatesAt(Run(events).trace, at), team, limit, k), id)
  {
    RunStates(events, at);
    k := WalkShows(StatesAt(Run(events).trace, at), team, limit, id, 0);
  }
}
