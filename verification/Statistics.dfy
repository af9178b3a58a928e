/** The team report: counts by status, closing times, and the three busiest closers of the last days. */
module Statistics {
  import opened Outcomes
  import opened Domain
  import opened TaskLog
  import opened Database
  import Execution

  datatype AssigneeStat = AssigneeStat(user: Id, name: string, closed: nat)

  // ---------- what the report counts ----------

  /** The ids of the team's rows. */
  function Scope(db: DB, team: Id): set<Id> {
    set id | id in db.tasks && db.tasks[id].teamId == team
  }

  function WithStatus(db: DB, team: Id, status: Status): set<Id> {
    set id | id in Scope(db, team) && db.tasks[id].status == status
  }

  /** The rows over which the closing time is averaged. */
  function Averaged(db: DB, team: Id): set<Id> {
    set id | id in Scope(db, team) && db.tasks[id].closedAt.Some?
  }

  /** GROUP BY status: only the statuses that occur have a count. */
  function StatusCounts(db: DB, team: Id): map<Status, nat> {
    map s | s in (set id | id in Scope(db, team) :: db.tasks[id].status) :: |WithStatus(db, team, s)|
  }

  function CountOf(counts: map<Status, nat>, status: Status): nat {
    if status in counts then counts[status] else 0
  }

  lemma CountIsSize(db: DB, team: Id, status: Status)
    ensures CountOf(StatusCounts(db, team), status) == |WithStatus(db, team, status)|
  {
    var rows := WithStatus(db, team, status);
    if status !in StatusCounts(db, team) {
      forall id | id in Scope(db, team) ensures db.tasks[id].status != status {
        assert db.tasks[id].status in StatusCounts(db, team);
      }
      Vacant(rows);
    }
  }

  lemma Vacant<T(!new)>(s: set<T>)
    requires forall x :: x !in s
    ensures |s| == 0
  {
    assert s == {};
  }

  lemma TwoParts<T>(a: set<T>, b: set<T>, c: set<T>)
    requires a !! b && a + b == c
    ensures |a| + |b| == |c|
  {
  }

  lemma RowsClosed(db: DB)
    requires Sound(db)
    ensures forall id :: id in db.tasks ==> db.tasks[id].status.Valid()
    ensures forall id :: id in db.tasks ==> (db.tasks[id].closedAt.Some? <==> db.tasks[id].status.Terminal())
  {
    forall id | id in db.tasks
      ensures db.tasks[id].status.Valid() && (db.tasks[id].closedAt.Some? <==> db.tasks[id].status.Terminal())
    {
      assert Logged(db.tasks[id], LogOf(db.history, id));
    }
  }

  lemma ScopeParts(db: DB, team: Id)
    requires forall id :: id in db.tasks ==> db.tasks[id].status.Valid()
    requires forall id :: id in db.tasks ==> (db.tasks[id].closedAt.Some? <==> db.tasks[id].status.Terminal())
    ensures |WithStatus(db, team, Done)| + |WithStatus(db, team, Cancelled)| == |Averaged(db, team)|
    ensures |WithStatus(db, team, Todo)| + |WithStatus(db, team, InProgress)| + |Averaged(db, team)| ==
            |Scope(db, team)|
  {
    var todo, doing := WithStatus(db, team, Todo), WithStatus(db, team, InProgress);
    var closed, dropped := WithStatus(db, team, Done), WithStatus(db, team, Cancelled);
    RowPlaces(db, team);
    var averaged, scope := Averaged(db, team), Scope(db, team);
    hide WithStatus, Averaged, Scope;
    TwoParts(closed, dropped, averaged);
    TwoParts(todo, doing, todo + doing);
    TwoParts(todo + doing, averaged, scope);
  }

  lemma RowPlaces(db: DB, team: Id)
    requires forall id :: id in db.tasks ==> db.tasks[id].status.Valid()
    requires forall id :: id in db.tasks ==> (db.tasks[id].closedAt.Some? <==> db.tasks[id].status.Terminal())
    ensures WithStatus(db, team, Done) !! WithStatus(db, team, Cancelled)
    ensures WithStatus(db, team, Done) + WithStatus(db, team, Cancelled) == Averaged(db, team)
    ensures WithStatus(db, team, Todo) !! WithStatus(db, team, InProgress)
    ensures WithStatus(db, team, Todo) + WithStatus(db, team, InProgress) !! Averaged(db, team)
    ensures WithStatus(db, team, Todo) + WithStatus(db, team, InProgress) + Averaged(db, team) == Scope(db, team)
  {
    forall id | id in Scope(db, team)
      ensures id in WithStatus(db, team, Todo) || id in WithStatus(db, team, InProgress) || id in Averaged(db, team)
      ensures id in Averaged(db, team) <==> id in WithStatus(db, team, Done) || id in WithStatus(db, team, Cancelled)
    {
      assert db.tasks[id].status.Valid();
    }
  }

  /** There is a count for exactly the statuses that occur, and it is the number of tasks with the status. */
  ghost predicate CountsEach(db: DB, team: Id, counts: map<Status, nat>) {
    && (forall s :: s in counts <==>
          exists id :: id in db.tasks && db.tasks[id].teamId == team && db.tasks[id].status == s)
    && (forall s :: s in counts ==>
          counts[s] == |set id | id in db.tasks && db.tasks[id].teamId == team && db.tasks[id].status == s|)
  }

  /** The counts add up to the team's tasks, no other status occurs, and the tasks with a closing time are as many
      as are counted done or cancelled. */
  ghost predicate CountsAddUp(db: DB, team: Id, counts: map<Status, nat>) {
    && (forall s :: s in counts ==> s.Todo? || s.InProgress? || s.Done? || s.Cancelled?)
    && (if Todo in counts then counts[Todo] else 0) + (if InProgress in counts then counts[InProgress] else 0)
       + (if Done in counts then counts[Done] else 0) + (if Cancelled in counts then counts[Cancelled] else 0)
       == |set id | id in db.tasks && db.tasks[id].teamId == team|
    && (if Done in counts then counts[Done] else 0) + (if Cancelled in counts then counts[Cancelled] else 0)
       == |set id | id in db.tasks && db.tasks[id].teamId == team && db.tasks[id].closedAt.Some?|
  }

  ghost predicate CountsAs(db: DB, team: Id, counts: map<Status, nat>) {
    CountsEach(db, team, counts) && CountsAddUp(db, team, counts)
  }

  lemma CountsExact(db: DB, team: Id)
    ensures CountsEach(db, team, StatusCounts(db, team))
  {
    var counts := StatusCounts(db, team);
    forall s
      ensures s in counts <==>
              exists id :: id in db.tasks && db.tasks[id].teamId == team && db.tasks[id].status == s
      ensures s in counts ==>
                counts[s] == |set id | id in db.tasks && db.tasks[id].teamId == team && db.tasks[id].status == s|
    {
      var rows := set id | id in db.tasks && db.tasks[id].teamId == team && db.tasks[id].status == s;
      assert forall id :: id in rows <==> id in WithStatus(db, team, s);
      assert rows == WithStatus(db, team, s);
      if id :| id in db.tasks && db.tasks[id].teamId == team && db.tasks[id].status == s {
        assert id in Scope(db, team);
      }
    }
  }

  lemma AveragedIs(db: DB, team: Id)
    ensures Scope(db, team) == set id | id in db.tasks && db.tasks[id].teamId == team
    ensures Averaged(db, team) ==
            set id | id in db.tasks && db.tasks[id].teamId == team && db.tasks[id].closedAt.Some?
  {
    var rows := set id | id in db.tasks && db.tasks[id].teamId == team && db.tasks[id].closedAt.Some?;
    assert forall id :: id in rows <==> id in Averaged(db, team);
    assert rows == Averaged(db, team);
  }

  lemma KnownStatuses(db: DB, team: Id)
    requires forall id :: id in db.tasks ==> db.tasks[id].status.Valid()
    ensures forall s :: s in StatusCounts(db, team) ==> s.Todo? || s.InProgress? || s.Done? || s.Cancelled?
  {
  }

  lemma StatusTotals(db: DB, team: Id)
    requires Sound(db)
    ensures CountsAs(db, team, StatusCounts(db, team))
  {
    hide Sound, CountsEach;
    RowsClosed(db);
    CountIsSize(db, team, Todo);
    CountIsSize(db, team, InProgress);
    CountIsSize(db, team, Done);
    CountIsSize(db, team, Cancelled);
    ScopeParts(db, team);
    KnownStatuses(db, team);
    CountsExact(db, team);
    AveragedIs(db, team);
    hide StatusCounts, WithStatus, Averaged, Scope;
  }

  // ---------- the order of the top list ----------

  /** Code point order, the order of Go strings. */
  predicate TextBefore(a: string, b: string) {
    if b == "" then false
    else if a == "" then true
    else if a[0] != b[0] then a[0] < b[0]
    else TextBefore(a[1..], b[1..])
  }

  lemma {:induction false} TextOrder(a: string, b: string, c: string)
    ensures !TextBefore(a, a)
    ensures a == b || TextBefore(a, b) || TextBefore(b, a)
    ensures !(TextBefore(a, b) && TextBefore(b, a))
    ensures TextBefore(a, b) && TextBefore(b, c) ==> TextBefore(a, c)
  {
    if a != "" {
      TextOrder(a[1..], if b == "" then "" else b[1..], if c == "" then "" else c[1..]);
      if b != "" && a[0] == b[0] && a[1..] == b[1..] {
        assert a == [a[0]] + a[1..] && b == [b[0]] + b[1..];
      }
    }
  }

  /** In code point order, a does not come after b: where they first differ, a ends or has the smaller one. */
  ghost predicate NotAfter(a: string, b: string) {
    a == b || exists k: nat :: DiffersAt(a, b, k)
  }

  predicate DiffersAt(a: string, b: string, k: nat) {
    && k <= |a| && k < |b| && a[..k] == b[..k] && (k == |a| || a[k] < b[k])
  }

  lemma {:induction false} FirstDifference(a: string, b: string) returns (k: nat)
    requires TextBefore(a, b)
    ensures DiffersAt(a, b, k)
  {
    if a == "" || a[0] != b[0] {
      k := 0;
    } else {
      var m := FirstDifference(a[1..], b[1..]);
      k := m + 1;
      assert a[..k] == [a[0]] + a[1..][..m] && b[..k] == [b[0]] + b[1..][..m];
    }
  }

  /** The recursive comparison is the order of the code points. */
  lemma TextBeforeExact(a: string, b: string)
    ensures !TextBefore(b, a) ==> NotAfter(a, b)
  {
    TextOrder(a, b, a);
    if TextBefore(a, b) {
      var _ := FirstDifference(a, b);
    }
  }

  datatype Key = Key(closed: nat, name: string)

  function KeyOf(s: AssigneeStat): Key {
    Key(s.closed, s.name)
  }

  /** More closed tasks come first; among equals the names decide. */
  predicate KeyBefore(a: Key, b: Key) {
    a.closed > b.closed || (a.closed == b.closed && TextBefore(a.name, b.name))
  }

  predicate Before(a: AssigneeStat, b: AssigneeStat) {
    KeyBefore(KeyOf(a), KeyOf(b))
  }

  lemma KeyOrder(a: Key, b: Key, c: Key)
    ensures !KeyBefore(a, a)
    ensures a == b || KeyBefore(a, b) || KeyBefore(b, a)
    ensures !(KeyBefore(a, b) && KeyBefore(b, a))
    ensures KeyBefore(a, b) && KeyBefore(b, c) ==> KeyBefore(a, c)
  {
    TextOrder(a.name, b.name, c.name);
  }

  /** No later element belongs before an earlier one. */
  predicate Ordered(s: seq<AssigneeStat>) {
    forall i, j :: 0 <= i < j < |s| ==> !Before(s[j], s[i])
  }

  /** The elements with the given key, in the order in which they stand. */
  function Tied(s: seq<AssigneeStat>, k: Key): seq<AssigneeStat> {
    if s == [] then []
    else
      var n := |s| - 1;
      Tied(s[..n], k) + (if KeyOf(s[n]) == k then [s[n]] else [])
  }

  // ---------- the sort ----------

  /** Moves x left past the elements that belong after it. */
  function Placed(s: seq<AssigneeStat>, x: AssigneeStat): (r: seq<AssigneeStat>)
    ensures |r| == |s| + 1
  {
    if s == [] || !Before(x, s[|s| - 1]) then s + [x]
    else Placed(s[..|s| - 1], x) + [s[|s| - 1]]
  }

  function Sorted(s: seq<AssigneeStat>): (r: seq<AssigneeStat>)
    ensures |r| == |s|
  {
    if s == [] then [] else Placed(Sorted(s[..|s| - 1]), s[|s| - 1])
  }

  lemma PlacedStep(s: seq<AssigneeStat>, x: AssigneeStat, right: seq<AssigneeStat>)
    requires s != [] && Before(x, s[|s| - 1])
    ensures Placed(s, x) + right == Placed(s[..|s| - 1], x) + ([s[|s| - 1]] + right)
  {
  }

  lemma PlacedStops(s: seq<AssigneeStat>, x: AssigneeStat)
    requires s == [] || !Before(x, s[|s| - 1])
    ensures Placed(s, x) == s + [x]
  {
  }

  function Sunk(s: seq<AssigneeStat>, i: nat): seq<AssigneeStat>
    requires i < |s|
  {
    Placed(s[..i], s[i]) + s[i + 1..]
  }

  lemma SunkSorts(s: seq<AssigneeStat>, i: nat)
    requires i < |s|
    ensures Sunk(Sorted(s[..i]) + s[i..], i) == Sorted(s[..i + 1]) + s[i + 1..]
  {
    var t := Sorted(s[..i]) + s[i..];
    assert t[..i] == Sorted(s[..i]) && t[i] == s[i] && t[i + 1..] == s[i + 1..];
    assert s[..i + 1][..i] == s[..i];
  }

  lemma SwapNeighbours(front: seq<AssigneeStat>, next: AssigneeStat, x: AssigneeStat, right: seq<AssigneeStat>)
    ensures ((front + [next]) + [x] + right)[|front| := x][|front| + 1 := next] == front + [x] + ([next] + right)
  {
  }

  /** Swaps the element at i to the left until its neighbour does not belong after it. */
  method SinkLeft(a: array<AssigneeStat>, i: nat)
    requires i < a.Length
    modifies a
    ensures a[..] == Sunk(old(a[..]), i)
  {
    ghost var was := a[..];
    ghost var left, x, right := was[..i], was[i], was[i + 1..];
    assert Sunk(was, i) == Placed(left, x) + right;
    assert was == left + [x] + right;
    hide Sunk, Placed, Before;
    var j := i;
    while j > 0 && Before(a[j], a[j - 1])
      invariant 0 <= j <= i && |left| == j
      invariant a[..] == left + [x] + right
      invariant Sunk(was, i) == Placed(left, x) + right
    {
      ghost var now, front, next := a[..], left[..j - 1], left[j - 1];
      assert left == front + [next] && a[j] == x && a[j - 1] == next;
      PlacedStep(left, x, right);
      SwapNeighbours(front, next, x, right);
      a[j - 1], a[j] := a[j], a[j - 1];
      assert a[..] == now[j - 1 := x][j := next];
      left, right := front, [next] + right;
      j := j - 1;
    }
    assert a[..][j] == x && (j > 0 ==> a[..][j - 1] == left[j - 1]);
    PlacedStops(left, x);
  }

  /** The stable insertion sort that the Go library uses on short slices. */
  method SortInPlace(a: array<AssigneeStat>)
    modifies a
    ensures a[..] == Sorted(old(a[..]))
  {
    ghost var was := a[..];
    assert was[..0] == [];
    for i := 0 to a.Length
      invariant a[..] == Sorted(was[..i]) + was[i..]
    {
      SunkSorts(was, i);
      SinkLeft(a, i);
    }
    assert was[..a.Length] == was;
  }

  lemma NotBeforeLast(s: seq<AssigneeStat>, x: AssigneeStat)
    requires Ordered(s) && (s == [] || !Before(x, s[|s| - 1]))
    ensures Ordered(s + [x])
  {
    forall i | 0 <= i < |s| ensures !Before(x, s[i]) {
      KeyOrder(KeyOf(x), KeyOf(s[i]), KeyOf(s[|s| - 1]));
      KeyOrder(KeyOf(s[i]), KeyOf(s[|s| - 1]), KeyOf(x));
    }
  }

  lemma {:induction false} PlacedOrdered(s: seq<AssigneeStat>, x: AssigneeStat)
    requires Ordered(s)
    ensures multiset(Placed(s, x)) == multiset(s) + multiset{x}
    ensures Ordered(Placed(s, x))
  {
    if s == [] || !Before(x, s[|s| - 1]) {
      NotBeforeLast(s, x);
    } else {
      var front, last := s[..|s| - 1], s[|s| - 1];
      assert s == front + [last];
      PlacedOrdered(front, x);
      PlacedBelow(front, x, last);
    }
  }

  lemma TiedAppend(s: seq<AssigneeStat>, x: AssigneeStat, k: Key)
    ensures Tied(s + [x], k) == Tied(s, k) + (if KeyOf(x) == k then [x] else [])
  {
    assert (s + [x])[..|s|] == s;
  }

  /** Placing an element is like appending it, as far as the elements of one key are concerned. */
  lemma {:induction false} PlacedStable(s: seq<AssigneeStat>, x: AssigneeStat, k: Key)
    ensures Tied(Placed(s, x), k) == Tied(s + [x], k)
  {
    if s != [] && Before(x, s[|s| - 1]) {
      var front, last := s[..|s| - 1], s[|s| - 1];
      PlacedStable(front, x, k);
      TiedAppend(Placed(front, x), last, k);
      TiedAppend(front, x, k);
      TiedAppend(s, x, k);
      KeyOrder(KeyOf(x), KeyOf(last), k);
    }
  }

  /** Nothing in a sequence that does not belong after last gets there by placing x before last. */
  lemma PlacedBelow(s: seq<AssigneeStat>, x: AssigneeStat, last: AssigneeStat)
    requires forall y :: y in s ==> !Before(last, y)
    requires Before(x, last)
    requires multiset(Placed(s, x)) == multiset(s) + multiset{x}
    ensures forall y :: y in Placed(s, x) ==> !Before(last, y)
  {
    KeyOrder(KeyOf(x), KeyOf(last), KeyOf(x));
    forall y | y in Placed(s, x) ensures !Before(last, y) {
      assert y in multiset(Placed(s, x));
    }
  }

  /** The sort gives an ordered permutation, and keeps the order of elements with equal keys. */
  lemma {:induction false} SortedProperties(s: seq<AssigneeStat>, k: Key)
    ensures multiset(Sorted(s)) == multiset(s)
    ensures Ordered(Sorted(s))
    ensures Tied(Sorted(s), k) == Tied(s, k)
  {
    hide Ordered, Placed, Before;
    if s != [] {
      var n := |s| - 1;
      SortedProperties(s[..n], k);
      PlacedOrdered(Sorted(s[..n]), s[n]);
      PlacedStable(Sorted(s[..n]), s[n], k);
      TiedAppend(Sorted(s[..n]), s[n], k);
      assert s == s[..n] + [s[n]];
    } else {
      assert Ordered(s) by { NothingOrdered(); }
    }
  }

  lemma NothingOrdered()
    ensures Ordered([])
  {
  }

  lemma {:induction false} TiedMembers(s: seq<AssigneeStat>, k: Key)
    ensures forall x :: x in Tied(s, k) ==> x in s && KeyOf(x) == k
    ensures (exists x :: x in s && KeyOf(x) == k) ==> Tied(s, k) != []
  {
    if s != [] {
      TiedMembers(s[..|s| - 1], k);
    }
  }

  lemma LastIsLatest(s: seq<AssigneeStat>, x: AssigneeStat)
    requires Ordered(s) && x in s
    ensures !Before(s[|s| - 1], x)
  {
    KeyOrder(KeyOf(x), KeyOf(x), KeyOf(x));
  }

  /** Equal keys stand in the same order in both. */
  ghost predicate TiedAlike(s: seq<AssigneeStat>, t: seq<AssigneeStat>) {
    forall k :: Tied(s, k) == Tied(t, k)
  }

  lemma TiedLast(s: seq<AssigneeStat>)
    requires s != []
    ensures var k := KeyOf(s[|s| - 1]); Tied(s, k) != [] && Tied(s, k)[|Tied(s, k)| - 1] == s[|s| - 1]
  {
  }

  /** If t holds an element with the last key of s, then no key of t's end comes before it. */
  lemma NoLaterEnd(s: seq<AssigneeStat>, t: seq<AssigneeStat>, k: Key)
    requires s != [] && k == KeyOf(s[|s| - 1]) && Ordered(t) && Tied(s, k) == Tied(t, k)
    ensures t != [] && !KeyBefore(KeyOf(t[|t| - 1]), k)
  {
    TiedLast(s);
    TiedMembers(t, k);
    var x := Tied(t, k)[0];
    LastIsLatest(t, x);
  }

  lemma SameLast(s: seq<AssigneeStat>, t: seq<AssigneeStat>)
    requires Ordered(s) && Ordered(t) && s != [] && TiedAlike(s, t)
    ensures t != [] && s[|s| - 1] == t[|t| - 1]
  {
    var a := KeyOf(s[|s| - 1]);
    NoLaterEnd(s, t, a);
    var b := KeyOf(t[|t| - 1]);
    assert Tied(s, b) == Tied(t, b);
    NoLaterEnd(t, s, b);
    KeyOrder(a, b, a);
    TiedLast(s);
    TiedLast(t);
  }

  lemma TiedAlikeFront(s: seq<AssigneeStat>, t: seq<AssigneeStat>, last: AssigneeStat)
    requires TiedAlike(s + [last], t + [last])
    ensures TiedAlike(s, t)
  {
    forall k ensures Tied(s, k) == Tied(t, k) {
      TiedAppend(s, last, k);
      TiedAppend(t, last, k);
      assert Tied(s + [last], k) == Tied(t + [last], k);
      SamePrefix(Tied(s, k), Tied(t, k), if KeyOf(last) == k then [last] else []);
    }
  }

  lemma SamePrefix<T>(a: seq<T>, b: seq<T>, c: seq<T>)
    requires a + c == b + c
    ensures a == b
  {
    assert |a + c| == |b + c|;
    assert a == (a + c)[..|a|] && b == (b + c)[..|b|];
  }

  lemma NothingAlike(t: seq<AssigneeStat>)
    ensures t == [] || !TiedAlike([], t)
  {
    if t != [] {
      TiedLast(t);
      var k := KeyOf(t[|t| - 1]);
      assert Tied([], k) != Tied(t, k);
    }
  }

  lemma {:induction false} OrderedUnique(s: seq<AssigneeStat>, t: seq<AssigneeStat>)
    requires Ordered(s) && Ordered(t) && TiedAlike(s, t)
    ensures s == t
  {
    if s == [] {
      NothingAlike(t);
    } else {
      SameLast(s, t);
      var front, front', last := s[..|s| - 1], t[..|t| - 1], s[|s| - 1];
      assert s == front + [last] && t == front' + [last];
      TiedAlikeFront(front, front', last);
      OrderedUnique(front, front');
    }
  }

  /** Two deliveries of the list end up sorted alike exactly when entries with equal count and name come
      in the same order; in particular the delivery order is irrelevant when no two entries tie. */
  lemma OrderOfDelivery(s: seq<AssigneeStat>, t: seq<AssigneeStat>)
    ensures Sorted(s) == Sorted(t) <==> TiedAlike(s, t)
  {
    SortKeepsTies(s);
    SortKeepsTies(t);
    if TiedAlike(s, t) {
      TiedAlikeMeets(Sorted(s), s, t);
      TiedAlikeMeets(t, Sorted(t), Sorted(s));
      OrderedUnique(Sorted(s), Sorted(t));
    } else if Sorted(s) == Sorted(t) {
      TiedAlikeMeets(s, Sorted(s), t);
    }
  }

  lemma SortKeepsTies(s: seq<AssigneeStat>)
    ensures TiedAlike(Sorted(s), s) && Ordered(Sorted(s))
  {
    SortedProperties(s, Key(0, ""));
    forall k ensures Tied(Sorted(s), k) == Tied(s, k) {
      SortedProperties(s, k);
    }
  }

  lemma TiedAlikeMeets(s: seq<AssigneeStat>, t: seq<AssigneeStat>, u: seq<AssigneeStat>)
    requires TiedAlike(s, t) && (TiedAlike(t, u) || TiedAlike(u, t))
    ensures TiedAlike(s, u) && TiedAlike(u, s)
  {
    forall k ensures Tied(s, k) == Tied(u, k) {
      assert Tied(s, k) == Tied(t, k);
    }
  }

  // ---------- the top list ----------

  const TOP := 3

  /** The team's tasks that the user, being their assignee, has closed since the cutoff. */
  function ClosedSince(db: DB, team: Id, cutoff: Time, user: Id): set<Id> {
    set id | id in Averaged(db, team) && db.tasks[id].assignee == Some(user) && db.tasks[id].closedAt.value >= cutoff
  }

  function Closers(db: DB, team: Id, cutoff: Time): set<Id> {
    set u | u in db.users && ClosedSince(db, team, cutoff, u) != {}
  }

  function StatOf(db: DB, team: Id, cutoff: Time, user: Id): AssigneeStat
    requires user in db.users
  {
    AssigneeStat(user, db.users[user].name, |ClosedSince(db, team, cutoff, user)|)
  }

  predicate Faithful(db: DB, team: Id, cutoff: Time, s: AssigneeStat) {
    s.user in Closers(db, team, cutoff) && s == StatOf(db, team, cutoff, s.user)
  }

  predicate DistinctUsers(s: seq<AssigneeStat>) {
    forall i, j :: 0 <= i < j < |s| ==> s[i].user != s[j].user
  }

  predicate Lists(s: seq<AssigneeStat>, user: Id) {
    exists x :: x in s && x.user == user
  }

  /** All groups of the query by descending count. Ties stand in any order: by which name the database
      breaks them depends on its collation. */
  ghost predicate Leaderboard(db: DB, team: Id, cutoff: Time, all: seq<AssigneeStat>) {
    && (forall x :: x in all ==> Faithful(db, team, cutoff, x))
    && DistinctUsers(all)
    && (forall u :: u in Closers(db, team, cutoff) ==> Lists(all, u))
    && (forall i, j :: 0 <= i < j < |all| ==> all[i].closed >= all[j].closed)
  }

  /** What the query may deliver: the first three groups, aggregated in any order. */
  ghost predicate MayDeliver(db: DB, team: Id, cutoff: Time, raw: seq<AssigneeStat>) {
    exists all :: Leaderboard(db, team, cutoff, all) && multiset(raw) == multiset(FirstThree(all))
  }

  function FirstThree(all: seq<AssigneeStat>): seq<AssigneeStat> {
    if |all| <= TOP then all else all[..TOP]
  }

  function Users(s: seq<AssigneeStat>): set<Id> {
    set x | x in s :: x.user
  }

  lemma {:induction false} UsersCount(s: seq<AssigneeStat>)
    requires DistinctUsers(s)
    ensures |Users(s)| == |s|
  {
    if s != [] {
      var front, last := s[..|s| - 1], s[|s| - 1];
      UsersCount(front);
      assert last.user !in Users(front);
      assert forall x :: x in s <==> x in front || x == last;
      assert Users(s) == Users(front) + {last.user};
    }
  }

  lemma SameElements(s: seq<AssigneeStat>, t: seq<AssigneeStat>)
    requires multiset(s) == multiset(t)
    ensures |s| == |t| && (forall x :: x in s <==> x in t)
  {
    forall x ensures x in s <==> x in t {
      assert x in s <==> x in multiset(s);
    }
    assert |multiset(s)| == |s| && |multiset(t)| == |t|;
  }

  /** A permutation of faithful entries for distinct users has distinct users. */
  lemma StillDistinct(db: DB, team: Id, cutoff: Time, s: seq<AssigneeStat>, t: seq<AssigneeStat>)
    requires multiset(s) == multiset(t) && DistinctUsers(s)
    requires forall x :: x in s ==> Faithful(db, team, cutoff, x)
    ensures DistinctUsers(t)
  {
    SameElements(s, t);
    forall i, j | 0 <= i < j < |t| ensures t[i].user != t[j].user {
      if t[i].user == t[j].user {
        assert t[i] in s && t[j] in s;
        Twice(t, i, j);
        OnceIn(s, t[i]);
      }
    }
  }

  lemma Twice(t: seq<AssigneeStat>, i: nat, j: nat)
    requires i < j < |t| && t[i] == t[j]
    ensures multiset(t)[t[i]] >= 2
  {
    assert t == t[..j] + [t[j]] + t[j + 1..];
    assert t[i] in multiset(t[..j]) by { assert t[..j][i] == t[i]; }
  }

  lemma {:induction false} OnceIn(s: seq<AssigneeStat>, x: AssigneeStat)
    requires DistinctUsers(s)
    ensures multiset(s)[x] <= 1
  {
    if s != [] {
      var front, last := s[..|s| - 1], s[|s| - 1];
      assert s == front + [last];
      OnceIn(front, x);
      if x == last {
        assert x !in front;
      }
    }
  }

  /** The report's top list, whatever order the query delivered it in: sorted, at most three entries and
      all closers if there are no more, each with its exact count, nobody twice, and nobody left out who
      closed strictly more than somebody listed. */
  ghost predicate RightTop(db: DB, team: Id, cutoff: Time, top: seq<AssigneeStat>) {
    Ordered(top) && RightSelection(db, team, cutoff, top)
  }

  ghost predicate RightSelection(db: DB, team: Id, cutoff: Time, top: seq<AssigneeStat>) {
    && DistinctUsers(top)
    && |top| == (if |Closers(db, team, cutoff)| <= TOP then |Closers(db, team, cutoff)| else TOP)
    && (forall x :: x in top ==> Faithful(db, team, cutoff, x))
    && (forall u, x :: u in Closers(db, team, cutoff) && !Lists(top, u) && x in top ==>
          |ClosedSince(db, team, cutoff, u)| <= x.closed)
  }

  lemma BeyondThree(all: seq<AssigneeStat>, j: nat)
    requires j < |all|
    ensures all[j] in FirstThree(all) || TOP <= j
  {
    if j < TOP {
      assert FirstThree(all)[j] == all[j];
    }
  }

  lemma FirstThreeRight(db: DB, team: Id, cutoff: Time, all: seq<AssigneeStat>)
    requires Leaderboard(db, team, cutoff, all)
    ensures RightSelection(db, team, cutoff, FirstThree(all))
  {
    UsersCount(all);
    assert Users(all) == Closers(db, team, cutoff) by {
      forall u | u in Closers(db, team, cutoff) ensures u in Users(all) {
        assert Lists(all, u);
      }
    }
    forall u, x | u in Closers(db, team, cutoff) && !Lists(FirstThree(all), u) && x in FirstThree(all)
      ensures |ClosedSince(db, team, cutoff, u)| <= x.closed
    {
      assert Lists(all, u);
      var y :| y in all && y.user == u;
      var j :| 0 <= j < |all| && all[j] == y;
      var i :| 0 <= i < |FirstThree(all)| && FirstThree(all)[i] == x;
      assert y !in FirstThree(all);
      BeyondThree(all, j);
    }
  }

  lemma TopAssignees(db: DB, team: Id, cutoff: Time, raw: seq<AssigneeStat>)
    requires MayDeliver(db, team, cutoff, raw)
    ensures RightTop(db, team, cutoff, Sorted(raw)) && TopAs(db, team, cutoff, Sorted(raw))
  {
    hide TopAs;
    var all :| Leaderboard(db, team, cutoff, all) && multiset(raw) == multiset(FirstThree(all));
    SortedProperties(raw, Key(0, ""));
    FirstThreeRight(db, team, cutoff, all);
    RightAnyway(db, team, cutoff, FirstThree(all), Sorted(raw));
    RightTopIs(db, team, cutoff, Sorted(raw));
  }

  lemma RightAnyway(db: DB, team: Id, cutoff: Time, s: seq<AssigneeStat>, top: seq<AssigneeStat>)
    requires multiset(s) == multiset(top) && Ordered(top) && RightSelection(db, team, cutoff, s)
    ensures RightTop(db, team, cutoff, top)
  {
    SameElements(s, top);
    StillDistinct(db, team, cutoff, s, top);
  }

  // ---------- the report ----------

  /** The one row of the query. */
  datatype Answer = Answer(
    byStatus: map<Status, nat>, assignees: seq<AssigneeStat>, avgSeconds: Option<real>, comments: nat)

  /** What the query may answer on this state: the counts, the first three groups in any order, and an
      average if there is anything to average. */
  ghost predicate AnswerOf(db: DB, team: Id, cutoff: Time, row: Answer) {
    && row.byStatus == StatusCounts(db, team)
    && MayDeliver(db, team, cutoff, row.assignees)
    && (row.avgSeconds.Some? <==> Averaged(db, team) != {})
  }

  /** The top list: each entry names a user with the number of the team's tasks that the user, being their
      assignee, has closed since the cutoff; nobody twice; at most three, and whoever is left out, although there
      is something to count, has closed no more than any of three who are listed; most first, and by ascending
      names among equals. */
  ghost predicate TopAs(db: DB, team: Id, cutoff: Time, top: seq<AssigneeStat>) {
    && |top| <= 3
    && (forall x :: x in top ==>
          && x.user in db.users && x.name == db.users[x.user].name
          && 0 < x.closed == |set id | id in db.tasks && db.tasks[id].teamId == team
                                       && db.tasks[id].assignee == Some(x.user)
                                       && db.tasks[id].closedAt.Some? && db.tasks[id].closedAt.value >= cutoff|)
    && (forall i, j :: 0 <= i < j < |top| ==> top[i].user != top[j].user)
    && (forall u :: u in db.users && (forall x :: x in top ==> x.user != u) ==>
          var count := |set id | id in db.tasks && db.tasks[id].teamId == team && db.tasks[id].assignee == Some(u)
                                 && db.tasks[id].closedAt.Some? && db.tasks[id].closedAt.value >= cutoff|;
          count == 0 || (|top| == 3 && forall x :: x in top ==> count <= x.closed))
    && (forall i, j :: 0 <= i < j < |top| ==>
          top[i].closed > top[j].closed || (top[i].closed == top[j].closed && NotAfter(top[i].name, top[j].name)))
  }

  lemma ClosedSinceIs(db: DB, team: Id, cutoff: Time, user: Id)
    ensures ClosedSince(db, team, cutoff, user) ==
            set id | id in db.tasks && db.tasks[id].teamId == team && db.tasks[id].assignee == Some(user)
                     && db.tasks[id].closedAt.Some? && db.tasks[id].closedAt.value >= cutoff
  {
    var rows := set id | id in db.tasks && db.tasks[id].teamId == team && db.tasks[id].assignee == Some(user)
                         && db.tasks[id].closedAt.Some? && db.tasks[id].closedAt.value >= cutoff;
    assert forall id :: id in rows <==> id in ClosedSince(db, team, cutoff, user);
    assert rows == ClosedSince(db, team, cutoff, user);
  }

  lemma OrderedNames(top: seq<AssigneeStat>)
    requires Ordered(top)
    ensures forall i, j :: 0 <= i < j < |top| ==>
              top[i].closed > top[j].closed || (top[i].closed == top[j].closed && NotAfter(top[i].name, top[j].name))
  {
    forall i, j | 0 <= i < j < |top|
      ensures top[i].closed > top[j].closed || (top[i].closed == top[j].closed && NotAfter(top[i].name, top[j].name))
    {
      assert !Before(top[j], top[i]);
      TextBeforeExact(top[i].name, top[j].name);
    }
  }

  lemma ClosersAll(db: DB, team: Id, cutoff: Time, top: seq<AssigneeStat>)
    requires DistinctUsers(top) && |Closers(db, team, cutoff)| == |top|
    requires forall x :: x in top ==> Faithful(db, team, cutoff, x)
    ensures forall u :: u in Closers(db, team, cutoff) ==> Lists(top, u)
  {
    UsersCount(top);
    forall u | u in Users(top) ensures u in Closers(db, team, cutoff) {
      var x :| x in top && x.user == u;
      assert Faithful(db, team, cutoff, x);
    }
    SubsetSame(Users(top), Closers(db, team, cutoff));
    forall u | u in Closers(db, team, cutoff) ensures Lists(top, u) {
      assert u in Users(top);
    }
  }

  lemma SubsetSame<T>(a: set<T>, b: set<T>)
    requires a <= b && |a| == |b|
    ensures a == b
  {
    assert |b - a| == |b| - |a|;
    assert b == a + (b - a);
  }

  lemma RightTopIs(db: DB, team: Id, cutoff: Time, top: seq<AssigneeStat>)
    requires RightTop(db, team, cutoff, top)
    ensures TopAs(db, team, cutoff, top)
  {
    OrderedNames(top);
    if |top| < TOP {
      ClosersAll(db, team, cutoff, top);
    }
    forall u ensures ClosedSince(db, team, cutoff, u) ==
                     set id | id in db.tasks && db.tasks[id].teamId == team && db.tasks[id].assignee == Some(u)
                              && db.tasks[id].closedAt.Some? && db.tasks[id].closedAt.value >= cutoff
    {
      ClosedSinceIs(db, team, cutoff, u);
    }
    hide Ordered, NotAfter, ClosedSince;
    forall x | x in top ensures Faithful(db, team, cutoff, x) && x.closed > 0 {
      assert ClosedSince(db, team, cutoff, x.user) != {};
    }
    forall u | u in db.users && (forall x :: x in top ==> x.user != u)
      ensures |ClosedSince(db, team, cutoff, u)| == 0
              || (|top| == 3 && forall x :: x in top ==> |ClosedSince(db, team, cutoff, u)| <= x.closed)
    {
      assert !Lists(top, u);
      if ClosedSince(db, team, cutoff, u) != {} {
        assert u in Closers(db, team, cutoff);
      }
    }
  }

  /** The report on a state of its team. */
  ghost predicate ReportOf(db: DB, team: Id, cutoff: Time, counts: map<Status, nat>, top: seq<AssigneeStat>) {
    CountsAs(db, team, counts) && TopAs(db, team, cutoff, top)
  }

  /** From whatever the query may answer on a sound state, the right report is made. */
  lemma ReportRight(db: DB, team: Id, cutoff: Time, row: Answer)
    requires Sound(db) && AnswerOf(db, team, cutoff, row)
    ensures ReportOf(db, team, cutoff, row.byStatus, Sorted(row.assignees))
  {
    hide Sound, RightTop, CountsAs, TopAs, MayDeliver, StatusCounts, Sorted;
    StatusTotals(db, team);
    TopAssignees(db, team, cutoff, row.assignees);
  }

  // The report depends on nothing but the team's rows and the users, so that the scope that a request for
  // it reads (Execution.ExecStats) determines what may be reported.

  lemma SameScope(a: DB, b: DB, team: Id)
    requires Execution.ScopeOf(a, team) == Execution.ScopeOf(b, team)
    ensures Scope(a, team) == Scope(b, team)
    ensures forall id :: id in Scope(a, team) ==> id in a.tasks && id in b.tasks && a.tasks[id] == b.tasks[id]
  {
    var rows := Execution.ScopeOf(a, team);
    assert Scope(a, team) == rows.Keys && Scope(b, team) == Execution.ScopeOf(b, team).Keys;
    forall id | id in Scope(a, team) ensures id in b.tasks && a.tasks[id] == b.tasks[id] {
      assert id in rows && rows[id] == a.tasks[id];
      assert id in Execution.ScopeOf(b, team) && rows[id] == b.tasks[id];
    }
  }

  lemma SameCounts(a: DB, b: DB, team: Id)
    requires Execution.ScopeOf(a, team) == Execution.ScopeOf(b, team)
    ensures StatusCounts(a, team) == StatusCounts(b, team) && Averaged(a, team) == Averaged(b, team)
  {
    SameScope(a, b, team);
    forall s ensures WithStatus(a, team, s) == WithStatus(b, team, s) {
    }
    assert StatusCounts(a, team).Keys == StatusCounts(b, team).Keys;
  }

  lemma SameClosers(a: DB, b: DB, team: Id, cutoff: Time)
    requires Execution.ScopeOf(a, team) == Execution.ScopeOf(b, team) && a.users == b.users
    ensures forall u :: ClosedSince(a, team, cutoff, u) == ClosedSince(b, team, cutoff, u)
    ensures Closers(a, team, cutoff) == Closers(b, team, cutoff)
  {
    SameScope(a, b, team);
    SameCounts(a, b, team);
    forall u ensures ClosedSince(a, team, cutoff, u) == ClosedSince(b, team, cutoff, u) {
    }
  }

  lemma SameLeaderboard(a: DB, b: DB, team: Id, cutoff: Time, all: seq<AssigneeStat>)
    requires Execution.ScopeOf(a, team) == Execution.ScopeOf(b, team) && a.users == b.users
    ensures Leaderboard(a, team, cutoff, all) <==> Leaderboard(b, team, cutoff, all)
  {
    SameClosers(a, b, team, cutoff);
    assert forall x :: Faithful(a, team, cutoff, x) <==> Faithful(b, team, cutoff, x);
  }

  lemma ReportsOnScope(a: DB, b: DB, team: Id, cutoff: Time, row: Answer)
    requires Execution.ScopeOf(a, team) == Execution.ScopeOf(b, team) && a.users == b.users
    ensures AnswerOf(a, team, cutoff, row) <==> AnswerOf(b, team, cutoff, row)
  {
    hide Leaderboard, StatusCounts, Averaged;
    SameCounts(a, b, team);
    forall all ensures Leaderboard(a, team, cutoff, all) <==> Leaderboard(b, team, cutoff, all) {
      SameLeaderboard(a, b, team, cutoff, all);
    }
  }

  /** The entries of some users, in some order. */
  lemma {:induction false} SomeList(db: DB, team: Id, cutoff: Time, users: set<Id>) returns (s: seq<AssigneeStat>)
    requires users <= Closers(db, team, cutoff)
    ensures forall x :: x in s ==> x.user in users && Faithful(db, team, cutoff, x)
    ensures forall u :: u in users ==> Lists(s, u)
    ensures DistinctUsers(s)
    decreases users
  {
    if users == {} {
      s := [];
    } else {
      var u :| u in users;
      var front := SomeList(db, team, cutoff, users - {u});
      var last := StatOf(db, team, cutoff, u);
      s := front + [last];
      assert last in s;
      forall v | v in users ensures Lists(s, v) {
        if v != u {
          assert Lists(front, v);
          var x :| x in front && x.user == v;
          assert x in s;
        }
      }
    }
  }

  lemma SortedLeads(db: DB, team: Id, cutoff: Time, s: seq<AssigneeStat>)
    requires forall x :: x in s ==> Faithful(db, team, cutoff, x)
    requires forall u :: u in Closers(db, team, cutoff) ==> Lists(s, u)
    requires DistinctUsers(s)
    ensures Leaderboard(db, team, cutoff, Sorted(s))
  {
    hide Faithful, Closers;
    var all := Sorted(s);
    SortedProperties(s, Key(0, ""));
    SameElements(s, all);
    StillDistinct(db, team, cutoff, s, all);
    forall u | u in Closers(db, team, cutoff) ensures Lists(all, u) {
      var x :| x in s && x.user == u;
      assert x in all;
    }
    forall i, j | 0 <= i < j < |all| ensures all[i].closed >= all[j].closed {
      assert !Before(all[j], all[i]);
    }
  }

  /** The query has an answer on every state. */
  lemma AnswerExists(db: DB, team: Id, cutoff: Time, average: real, comments: nat) returns (row: Answer)
    ensures AnswerOf(db, team, cutoff, row)
  {
    hide Leaderboard, StatusCounts, Averaged;
    var s := SomeList(db, team, cutoff, Closers(db, team, cutoff));
    SortedLeads(db, team, cutoff, s);
    row := Answer(StatusCounts(db, team), FirstThree(Sorted(s)),
                  if Averaged(db, team) != {} then Some(average) else None, comments);
  }

  class Report {
    const teamId: Id
    var tasksByStatus: map<Status, nat>
    var top: array<AssigneeStat>
    var avgCloseSeconds: Option<real>
    var commentsTotal: nat

    /** Decodes the row, then sorts the top list in place. */
    constructor (team: Id, row: Answer)
      ensures teamId == team && tasksByStatus == row.byStatus && avgCloseSeconds == row.avgSeconds
      ensures commentsTotal == row.comments && fresh(top)
      ensures top[..] == Sorted(row.assignees)
    {
      teamId, tasksByStatus, avgCloseSeconds, commentsTotal := team, row.byStatus, row.avgSeconds, row.comments;
      top := new AssigneeStat[|row.assignees|](i requires 0 <= i < |row.assignees| => row.assignees[i]);
      new;
      assert top[..] == row.assignees;
      SortInPlace(top);
    }
  }
}
