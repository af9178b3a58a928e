/** The Redis keyspace: generation counters and list pages share one map from key text to item. */
module Redis {
  import opened Outcomes
  import opened Domain
  import Text

  datatype Item<P> = Counter(n: int) | Payload(value: P)

  type Keyspace<P> = map<string, Item<P>>

  /** The chunks with one separator between neighbours. */
  function Join(chunks: seq<string>, separators: seq<char>): string
    requires |chunks| == |separators| + 1
  {
    var n := |separators|;
    if n == 0 then chunks[0]
    else Join(chunks[..n], separators[..n - 1]) + [separators[n - 1]] + chunks[n]
  }

  function GenerationKey(team: Id): string {
    "tasks:gen:" + Text.Decimal(team)
  }

  function AssigneeText(assignee: Option<Id>): string {
    if assignee.None? then "" else Text.Decimal(assignee.value)
  }

  function StatusText(status: Option<Status>): string {
    if status.None? then "" else status.value.Name()
  }

  const SEPARATORS: seq<char> := [':', ':', ':', ';', ';', ';']

  function Chunks(f: TaskFilter, generation: int): seq<string> {
    ["tasks", Text.Decimal(f.teamId), Text.Decimal(generation),
     "status=" + StatusText(f.status), "assignee=" + AssigneeText(f.assignee),
     "limit=" + Text.Decimal(f.limit), "offset=" + Text.Decimal(f.offset)]
  }

  function ListKey(f: TaskFilter, generation: int): string {
    Join(Chunks(f, generation), SEPARATORS)
  }

  /** The key up to chunk k. */
  function JoinTo(c: seq<string>, k: nat): string
    requires |c| == 7 && k < 7
  {
    Join(c[..k + 1], SEPARATORS[..k])
  }

  lemma JoinStep(c: seq<string>, k: nat)
    requires |c| == 7 && 0 < k < 7
    ensures JoinTo(c, k) == JoinTo(c, k - 1) + [SEPARATORS[k - 1]] + c[k]
  {
    assert c[..k + 1][..k] == c[..k] && SEPARATORS[..k][..k - 1] == SEPARATORS[..k - 1];
  }

  /** Writing a separator with the name of a part, then its value, adds one chunk. */
  lemma WriteChunk(c: seq<string>, k: nat, lead: string, name: string, value: string)
    requires |c| == 7 && 0 < k < 7 && c[k] == name + value && lead == [SEPARATORS[k - 1]] + name
    ensures JoinTo(c, k) == JoinTo(c, k - 1) + lead + value
  {
    JoinStep(c, k);
  }

  lemma JoinStart(c: seq<string>)
    requires |c| == 7 && c[0] == "tasks"
    ensures JoinTo(c, 2) == "tasks:" + c[1] + ":" + c[2]
  {
    JoinStep(c, 1);
    JoinStep(c, 2);
    assert "tasks" + [':'] == "tasks:" && [':'] == ":";
  }

  /** What the builder holds once the parts before the limit are written. */
  lemma FrontText(f: TaskFilter, generation: int)
    ensures JoinTo(Chunks(f, generation), 4) ==
            "tasks:" + Text.Decimal(f.teamId) + ":" + Text.Decimal(generation) + ":status=" + StatusText(f.status) +
            ";assignee=" + AssigneeText(f.assignee)
  {
    var c := Chunks(f, generation);
    JoinStart(c);
    assert [':'] + "status=" == ":status=" && [';'] + "assignee=" == ";assignee=";
    WriteChunk(c, 3, ":status=", "status=", StatusText(f.status));
    WriteChunk(c, 4, ";assignee=", "assignee=", AssigneeText(f.assignee));
  }

  lemma KeyText(f: TaskFilter, generation: int)
    ensures ListKey(f, generation) ==
            JoinTo(Chunks(f, generation), 4) + ";limit=" + Text.Decimal(f.limit) + ";offset=" + Text.Decimal(f.offset)
  {
    var c := Chunks(f, generation);
    assert [';'] + "limit=" == ";limit=" && [';'] + "offset=" == ";offset=";
    WriteChunk(c, 5, ";limit=", "limit=", Text.Decimal(f.limit));
    WriteChunk(c, 6, ";offset=", "offset=", Text.Decimal(f.offset));
    assert c[..7] == c && SEPARATORS[..6] == SEPARATORS;
  }

  lemma TwoPieces(a: string, b: string, c: string)
    requires b + c == ":status="
    ensures a + b + c == a + ":status="
  {
  }

  /** Builds the key by appending to a string builder. */
  method BuildListKey(f: TaskFilter, generation: int) returns (b: string)
    ensures b == ListKey(f, generation)
  {
    b := "tasks:" + Text.Decimal(f.teamId) + ":" + Text.Decimal(generation) + ":";
    b := b + "status=";
    TwoPieces("tasks:" + Text.Decimal(f.teamId) + ":" + Text.Decimal(generation), ":", "status=");
    ghost var status, assignee := b, "";
    if f.status.Some? {
      b := b + f.status.value.Name();
    }
    assert b == status + StatusText(f.status);
    b := b + ";assignee=";
    assignee := b;
    if f.assignee.Some? {
      b := b + Text.Decimal(f.assignee.value);
    }
    assert b == assignee + AssigneeText(f.assignee);
    FrontText(f, generation);
    b := b + ";limit=" + Text.Decimal(f.limit) + ";offset=" + Text.Decimal(f.offset);
    KeyText(f, generation);
  }

  predicate Free(s: string, c: char) {
    forall i :: 0 <= i < |s| ==> s[i] != c
  }

  /** What follows the last separator is read back. */
  lemma Cut(a: string, x: string, b: string, y: string, c: char)
    requires Free(x, c) && Free(y, c) && a + [c] + x == b + [c] + y
    ensures a == b && x == y
  {
    var l, r := a + [c] + x, b + [c] + y;
    assert l[|a| + 1..] == x && r[|b| + 1..] == y && l[|a|] == c && r[|b|] == c;
    assert |a| == |b|;
    assert l[..|a|] == a && r[..|b|] == b;
  }

  predicate SeparatorFree(s: string) {
    Free(s, ':') && Free(s, ';')
  }

  lemma {:induction false} JoinInjective(c: seq<string>, d: seq<string>, separators: seq<char>)
    requires |c| == |d| == |separators| + 1
    requires forall i :: 0 <= i < |separators| ==> separators[i] in {':', ';'}
    requires forall i :: 0 <= i < |c| ==> SeparatorFree(c[i]) && SeparatorFree(d[i])
    requires Join(c, separators) == Join(d, separators)
    ensures c == d
  {
    var n := |separators|;
    if n != 0 {
      Cut(Join(c[..n], separators[..n - 1]), c[n], Join(d[..n], separators[..n - 1]), d[n], separators[n - 1]);
      JoinInjective(c[..n], d[..n], separators[..n - 1]);
      assert c == c[..n] + [c[n]] && d == d[..n] + [d[n]];
    } else {
      assert c == [c[0]] && d == [d[0]];
    }
  }

  predicate Listable(f: TaskFilter) {
    f.status.Some? ==> f.status.value.Valid()
  }

  lemma JoinedFree(prefix: string, text: string)
    requires SeparatorFree(prefix) && SeparatorFree(text)
    ensures SeparatorFree(prefix + text)
  {
  }

  lemma DecimalFree(n: int)
    ensures SeparatorFree(Text.Decimal(n))
  {
    Text.DecimalChars(n);
  }

  lemma StatusFree(status: Option<Status>)
    requires status.Some? ==> status.value.Valid()
    ensures SeparatorFree(StatusText(status))
  {
  }

  lemma AssigneeFree(assignee: Option<Id>)
    ensures SeparatorFree(AssigneeText(assignee))
  {
    if assignee.Some? {
      DecimalFree(assignee.value);
    }
  }

  lemma NamesFree()
    ensures SeparatorFree("tasks") && SeparatorFree("status=") && SeparatorFree("assignee=")
    ensures SeparatorFree("limit=") && SeparatorFree("offset=")
  {
  }

  lemma ChunksSeparatorFree(f: TaskFilter, generation: int)
    requires Listable(f)
    ensures forall i :: 0 <= i < 7 ==> SeparatorFree(Chunks(f, generation)[i])
  {
    NamesFree();
    hide Text.Decimal, StatusText, AssigneeText, SeparatorFree;
    AssigneeFree(f.assignee);
    DecimalFree(f.teamId);
    DecimalFree(generation);
    DecimalFree(f.limit);
    DecimalFree(f.offset);
    StatusFree(f.status);
    JoinedFree("status=", StatusText(f.status));
    JoinedFree("assignee=", AssigneeText(f.assignee));
    JoinedFree("limit=", Text.Decimal(f.limit));
    JoinedFree("offset=", Text.Decimal(f.offset));
    AllSeven(Chunks(f, generation));
  }

  lemma AllSeven(c: seq<string>)
    requires |c| == 7
    requires SeparatorFree(c[0]) && SeparatorFree(c[1]) && SeparatorFree(c[2]) && SeparatorFree(c[3])
    requires SeparatorFree(c[4]) && SeparatorFree(c[5]) && SeparatorFree(c[6])
    ensures forall i :: 0 <= i < 7 ==> SeparatorFree(c[i])
  {
  }

  lemma StatusTextInjective(a: Option<Status>, b: Option<Status>)
    requires (a.Some? ==> a.value.Valid()) && (b.Some? ==> b.value.Valid())
    requires StatusText(a) == StatusText(b)
    ensures a == b
  {
    assert "todo"[0] == 't' && "in_progress"[0] == 'i' && "done"[0] == 'd' && "cancelled"[0] == 'c';
    if a.Some? && b.Some? {
      assert a.value.Name()[0] == b.value.Name()[0];
    }
  }

  lemma AssigneeTextInjective(a: Option<Id>, b: Option<Id>)
    requires AssigneeText(a) == AssigneeText(b)
    ensures a == b
  {
    if a.Some? {
      Text.DecimalChars(a.value);
    }
    if b.Some? {
      Text.DecimalChars(b.value);
    }
    if a.Some? && b.Some? {
      Text.DecimalInjective(a.value, b.value);
    }
  }

  lemma SameTail(prefix: string, a: string, b: string)
    requires prefix + a == prefix + b
    ensures a == b
  {
    assert (prefix + a)[|prefix|..] == a && (prefix + b)[|prefix|..] == b;
  }

  /** No two list requests, and no two generations, share a key. */
  lemma ListKeyInjective(f: TaskFilter, g: int, f': TaskFilter, g': int)
    requires Listable(f) && Listable(f') && ListKey(f, g) == ListKey(f', g')
    ensures f == f' && g == g'
  {
    ChunksSeparatorFree(f, g);
    ChunksSeparatorFree(f', g');
    var c, d := Chunks(f, g), Chunks(f', g');
    JoinInjective(c, d, SEPARATORS);
    assert c[1] == d[1] && c[2] == d[2] && c[3] == d[3] && c[4] == d[4] && c[5] == d[5] && c[6] == d[6];
    Text.DecimalInjective(f.teamId, f'.teamId);
    Text.DecimalInjective(g, g');
    SameTail("status=", StatusText(f.status), StatusText(f'.status));
    StatusTextInjective(f.status, f'.status);
    SameTail("assignee=", AssigneeText(f.assignee), AssigneeText(f'.assignee));
    AssigneeTextInjective(f.assignee, f'.assignee);
    SameTail("limit=", Text.Decimal(f.limit), Text.Decimal(f'.limit));
    Text.DecimalInjective(f.limit, f'.limit);
    SameTail("offset=", Text.Decimal(f.offset), Text.Decimal(f'.offset));
    Text.DecimalInjective(f.offset, f'.offset);
  }

  /** A generation counter never lives where a page lives: only a list key holds a semicolon. */
  lemma KeysDisjoint(f: TaskFilter, g: int, team: Id)
    ensures ListKey(f, g) != GenerationKey(team)
  {
    var c := Chunks(f, g);
    Text.DecimalChars(team);
    assert Free(GenerationKey(team), ';');
    JoinStep(c, 6);
    assert c[..7] == c && SEPARATORS[..6] == SEPARATORS;
    assert ListKey(f, g)[|JoinTo(c, 5)|] == ';';
  }

  lemma GenerationKeyInjective(t: Id, u: Id)
    requires GenerationKey(t) == GenerationKey(u)
    ensures t == u
  {
    SameTail("tasks:gen:", Text.Decimal(t), Text.Decimal(u));
    Text.DecimalInjective(t, u);
  }

  // ---------- commands ----------

  /** Reads a team's generation: a missing counter is zero, a page under the key is a decoding error. */
  function Generation<P>(r: Keyspace<P>, team: Id): Result<int, ()> {
    var key := GenerationKey(team);
    if key !in r then Ok(0)
    else if r[key].Counter? then Ok(r[key].n)
    else Err(())
  }

  /** INCR, which fails and changes nothing on a key that holds no number. */
  function Increment<P>(r: Keyspace<P>, team: Id): Keyspace<P> {
    var key := GenerationKey(team);
    if key !in r then r[key := Counter(1)]
    else if r[key].Counter? then r[key := Counter(r[key].n + 1)]
    else r
  }

  /** GET of a list page; a counter under the key does not decode as a page. */
  function Lookup<P>(r: Keyspace<P>, f: TaskFilter, generation: int): Option<P> {
    var key := ListKey(f, generation);
    if key in r && r[key].Payload? then Some(r[key].value) else None
  }

  function Store<P>(r: Keyspace<P>, f: TaskFilter, generation: int, page: P): Keyspace<P> {
    r[ListKey(f, generation) := Payload(page)]
  }

  /** Expiry of one page; counters are written without a lifetime. */
  function Expire<P>(r: Keyspace<P>, key: string): Keyspace<P> {
    if key in r && r[key].Payload? then r - {key} else r
  }

  /** Generation keys hold counters. */
  ghost predicate Tidy<P>(r: Keyspace<P>) {
    forall t: Id :: GenerationKey(t) in r ==> r[GenerationKey(t)].Counter?
  }

  /** A stored page leaves every generation as it was. */
  lemma StoreTidy<P(!new)>(r: Keyspace<P>, f: TaskFilter, generation: int, page: P)
    requires Tidy(r)
    ensures Tidy(Store(r, f, generation, page))
    ensures forall t: Id :: Generation(Store(r, f, generation, page), t) == Generation(r, t)
  {
    forall t: Id ensures GenerationKey(t) != ListKey(f, generation) {
      KeysDisjoint(f, generation, t);
    }
  }

  /** So does an expiring page. */
  lemma ExpiryTidy<P(!new)>(r: Keyspace<P>, key: string)
    requires Tidy(r)
    ensures Tidy(Expire(r, key))
    ensures forall t: Id :: Generation(Expire(r, key), t) == Generation(r, t)
  {
  }

  /** INCR moves the generation of its team by one, no other generation, and no page. */
  lemma IncrementTidy<P(!new)>(r: Keyspace<P>, team: Id)
    requires Tidy(r)
    ensures Tidy(Increment(r, team))
    ensures forall t: Id :: Generation(r, t).Ok?
    ensures forall t: Id :: Generation(Increment(r, team), t) ==
              if t == team then Ok(Generation(r, t).value + 1) else Generation(r, t)
    ensures forall k :: k in Increment(r, team) && Increment(r, team)[k].Payload? ==>
              k in r && r[k] == Increment(r, team)[k]
    ensures forall k :: k in r && r[k].Payload? ==> k in Increment(r, team) && Increment(r, team)[k] == r[k]
  {
    forall t: Id | GenerationKey(t) == GenerationKey(team) ensures t == team {
      GenerationKeyInjective(t, team);
    }
  }
}
