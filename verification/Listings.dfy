/** List queries: what their rows are, and what they depend on. */
module Listings {
  import opened Domain
  import opened Database
  import opened Operations
  import opened Outcomes
  import Promises
  import Redis

  /** A request that passed validation and normalization. */
  predicate Askable(f: TaskFilter) {
    Redis.Listable(f) && f.limit >= 0 && f.offset >= 0
  }

  // ---------- a list query depends on the rows of its team only ----------

  predicate InTeam(db: DB, id: Id, team: Id) {
    id in db.tasks && db.tasks[id].teamId == team
  }

  /** The two states hold the same rows of the team. */
  ghost predicate SameTable(a: DB, b: DB, team: Id) {
    forall id :: InTeam(a, id, team) || InTeam(b, id, team) ==>
      InTeam(a, id, team) && InTeam(b, id, team) && a.tasks[id] == b.tasks[id]
  }

  lemma {:induction false} SameRows(a: DB, b: DB, f: TaskFilter, n: nat)
    requires SameTable(a, b, f.teamId)
    ensures Rows(a.tasks, f, n) == Rows(b.tasks, f, n)
  {
    if n != 0 {
      SameRows(a, b, f, n - 1);
      assert InTeam(a, n, f.teamId) <==> InTeam(b, n, f.teamId);
    }
  }

  lemma {:induction false} RowsBeyond(db: DB, f: TaskFilter, n: nat)
    requires Keyed(db) && db.nextTask - 1 <= n
    ensures Rows(db.tasks, f, n) == Listing(db, f)
  {
    if n != db.nextTask - 1 {
      RowsBeyond(db, f, n - 1);
    }
  }

  lemma SameQuery(a: DB, b: DB, f: TaskFilter)
    requires Keyed(a) && Keyed(b) && SameTable(a, b, f.teamId)
    requires f.limit >= 0 && f.offset >= 0
    ensures Query(a, f) == Query(b, f)
  {
    var n := a.nextTask + b.nextTask;
    SameRows(a, b, f, n);
    RowsBeyond(a, f, n);
    RowsBeyond(b, f, n);
  }

  // ---------- what a list query answers ----------

  lemma {:induction false} RowsExact(tasks: map<Id, Task>, f: TaskFilter, n: nat)
    requires forall id :: id in tasks ==> tasks[id].id == id
    ensures forall i, j :: 0 <= i < j < |Rows(tasks, f, n)| ==> Rows(tasks, f, n)[i].id > Rows(tasks, f, n)[j].id
    ensures forall row :: row in Rows(tasks, f, n) <==>
              0 < row.id <= n && row.id in tasks && tasks[row.id] == row && Matches(row, f)
  {
    if n != 0 {
      RowsExact(tasks, f, n - 1);
      forall row: Task
        ensures row in Rows(tasks, f, n) <==>
                0 < row.id <= n && row.id in tasks && tasks[row.id] == row && Matches(row, f)
      {
        assert row in Rows(tasks, f, n) <==>
          row in Rows(tasks, f, n - 1) || (n in tasks && Matches(tasks[n], f) && row == tasks[n]);
      }
    }
  }

  /** The listing holds exactly the rows of the team, status and assignee asked for, each once, by strictly
      descending id. */
  lemma ListingExact(db: DB, f: TaskFilter)
    requires Keyed(db)
    ensures forall row :: row in Listing(db, f) <==>
              && row.id in db.tasks && db.tasks[row.id] == row && row.teamId == f.teamId
              && (f.status.Some? ==> row.status == f.status.value)
              && (f.assignee.Some? ==> row.assignee == Some(f.assignee.value))
    ensures forall i, j :: 0 <= i < j < |Listing(db, f)| ==> Listing(db, f)[i].id > Listing(db, f)[j].id
  {
    RowsExact(db.tasks, f, db.nextTask - 1);
  }

  predicate Descending(rows: seq<Task>) {
    forall i, j :: 0 <= i < j < |rows| ==> rows[i].id > rows[j].id
  }

  function Ids(rows: seq<Task>): set<Id> {
    set row | row in rows :: row.id
  }

  lemma {:induction false} IdsCount(rows: seq<Task>)
    requires Descending(rows)
    ensures |Ids(rows)| == |rows|
  {
    if rows != [] {
      var front, last := rows[..|rows| - 1], rows[|rows| - 1];
      IdsCount(front);
      assert forall row :: row in rows <==> row in front || row == last;
      assert Ids(rows) == Ids(front) + {last.id};
      assert last.id !in Ids(front);
    }
  }

  /** A row stands where as many rows stand before it as have larger ids. */
  lemma RankOf(rows: seq<Task>, p: nat)
    requires Descending(rows) && p < |rows|
    ensures |set id | id in Ids(rows) && id > rows[p].id| == p
  {
    var front := rows[..p];
    IdsCount(front);
    forall id ensures id in Ids(front) <==> id in Ids(rows) && id > rows[p].id {
      if id in Ids(front) {
        var q :| 0 <= q < p && front[q].id == id;
        assert rows[q] in rows;
      }
      if id in Ids(rows) && id > rows[p].id {
        var q :| 0 <= q < |rows| && rows[q].id == id;
        assert q < p && front[q] == rows[q];
      }
    }
    assert Ids(front) == set id | id in Ids(rows) && id > rows[p].id;
  }

  lemma WantedIds(db: DB, f: TaskFilter)
    requires Keyed(db)
    ensures Ids(Listing(db, f)) == Promises.Wanted(db.tasks, f)
  {
    ListingExact(db, f);
    forall id | id in Promises.Wanted(db.tasks, f) ensures id in Ids(Listing(db, f)) {
      assert db.tasks[id] in Listing(db, f);
    }
  }

  /** The query answers the stored tasks that were asked for, cut by offset and limit. */
  lemma QueryExact(db: DB, f: TaskFilter)
    requires Keyed(db) && f.limit >= 0 && f.offset >= 0
    ensures Promises.RowsAs(db.tasks, f, f.offset, f.limit, Query(db, f))
  {
    var rows := Listing(db, f);
    ListingExact(db, f);
    WantedIds(db, f);
    IdsCount(rows);
    hide Listing, Promises.Wanted;
    var page := Query(db, f);
    forall j | 0 <= j < |page|
      ensures page[j].id in Ids(rows) && page[j].id in db.tasks && db.tasks[page[j].id] == page[j]
      ensures |set id | id in Ids(rows) && id > page[j].id| == f.offset + j
    {
      assert page[j] == rows[f.offset + j];
      RankOf(rows, f.offset + j);
    }
  }

  /** A normalized request gets the page that was asked for. */
  lemma PageExact(db: DB, filter: TaskFilter)
    requires Keyed(db)
    ensures var f := NormalizeFilter(filter);
            Promises.PageAs(db.tasks, filter, TaskPage(Query(db, f), f.limit, f.offset))
  {
    var f := NormalizeFilter(filter);
    QueryExact(db, f);
    assert Promises.Wanted(db.tasks, f) == Promises.Wanted(db.tasks, filter);
  }
}
