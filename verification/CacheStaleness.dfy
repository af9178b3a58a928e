/** When a cached page may be stale under interleaving, and that it is fresh otherwise. */
module CacheStaleness {
  import opened Outcomes
  import opened Domain
  import opened TaskPatch
  import opened TaskLog
  import opened Database
  import opened Operations
  import opened Listings
  import opened Redis
  import opened Protocol
  import opened ProtocolSafety

  // ---------- the invariant ----------

  predicate WriteTo(writes: map<nat, Id>, w: nat, team: Id) {
    w in writes && writes[w] == team
  }

  /** Only the recorded writes change a team's rows. */
  ghost predicate WritesOk(s: Sys) {
    && s.trace != []
    && (forall w: nat :: w in s.writes ==> 0 < w < |s.trace|)
    && (forall w: nat :: w in s.flushed ==> w in s.writes)
    && (forall w: nat, team :: 0 < w < |s.trace| && !WriteTo(s.writes, w, team) ==>
          SameTable(s.trace[w - 1], s.trace[w], team))
  }

  /** The exact answer to the list request on the state at a trace position. */
  function PageAt(trace: seq<DB>, at: nat, f: TaskFilter): TaskPage
    requires at < |trace| && f.limit >= 0 && f.offset >= 0
  {
    TaskPage(Query(trace[at], f), f.limit, f.offset)
  }

  predicate PageOk(s: Sys, page: TaskPage, f: TaskFilter, readAt: nat) {
    Askable(f) && readAt < |s.trace| && page == PageAt(s.trace, readAt, f)
  }

  /** The response is the exact answer to the request on the state at a trace position. */
  predicate Answers(s: Sys, response: Response, f: TaskFilter, readAt: nat) {
    response.PageIs? && PageOk(s, response.page, f, readAt)
  }

  /** All of these are writes of the team. */
  predicate WritesOf(s: Sys, ws: set<nat>, team: Id) {
    forall w :: w in ws ==> WriteTo(s.writes, w, team)
  }

  /** As long as the generation has not moved past the page's, every invalidated write that is missing
      from the page is one that had been invalidated when Set read the generation. */
  ghost predicate OriginOk(s: Sys, o: Origin) {
    && o.readAt < |s.trace| && WritesOf(s, o.late, o.filter.teamId)
    && Generation(s.redis, o.filter.teamId).Ok?
    && o.gen <= Generation(s.redis, o.filter.teamId).value
    && (o.gen == Generation(s.redis, o.filter.teamId).value ==>
          forall w: nat :: WriteTo(s.writes, w, o.filter.teamId) && o.readAt < w && w in s.flushed ==> w in o.late)
  }

  ghost predicate StoredOk(s: Sys, key: string, stored: Stored) {
    && key == ListKey(stored.origin.filter, stored.origin.gen)
    && PageOk(s, stored.page, stored.origin.filter, stored.origin.readAt)
    && OriginOk(s, stored.origin)
  }

  /** Every write of the team that had not been invalidated when Get read the generation is noted. */
  ghost predicate ProbeOk(s: Sys, f: TaskFilter, gen: int, probedAt: nat, dirty: set<nat>) {
    && Askable(f) && probedAt < |s.trace| && WritesOf(s, dirty, f.teamId)
    && Generation(s.redis, f.teamId).Ok? && gen <= Generation(s.redis, f.teamId).value
    && (forall w: nat :: WriteTo(s.writes, w, f.teamId) && w <= probedAt && w !in s.flushed ==> w in dirty)
  }

  /** A probe and a page under the same generation: a write between the two reads was pending at the
      probe, or invalidated before Set read the generation. */
  ghost predicate Explained(s: Sys, team: Id, readAt: nat, late: set<nat>, probedAt: nat, dirty: set<nat>) {
    forall w: nat :: WriteTo(s.writes, w, team) && readAt < w <= probedAt ==> w in dirty || w in late
  }

  ghost predicate PairOk(s: Sys, f: TaskFilter, gen: int, probedAt: nat, dirty: set<nat>, o: Origin) {
    o.filter.teamId == f.teamId && o.gen == gen ==> Explained(s, f.teamId, o.readAt, o.late, probedAt, dirty)
  }

  ghost predicate ServedOk(s: Sys, response: Response, note: Note) {
    match note
    case Served(f, o, probedAt, servedAt, dirty) =>
      && probedAt <= servedAt < |s.trace| && o.readAt <= servedAt && o.filter == f
      && WritesOf(s, dirty, f.teamId) && WritesOf(s, o.late, f.teamId)
      && Answers(s, response, f, o.readAt)
      && Explained(s, f.teamId, o.readAt, o.late, probedAt, dirty)
    case Queried(f, readAt) => Answers(s, response, f, readAt)
    case _ => true
  }

  ghost predicate ListReqOk(s: Sys, q: Req) {
    match q
    case ListRole(_, f) => Askable(f)
    case GetGeneration(f) => Askable(f)
    case GetPage(f, gen, probedAt, dirty) => ProbeOk(s, f, gen, probedAt, dirty)
    case RunQuery(f, captured) =>
      && Askable(f)
      && (captured.Some? ==>
            Generation(s.redis, f.teamId).Ok? && captured.value <= Generation(s.redis, f.teamId).value)
    case SetGeneration(f, page, readAt) => PageOk(s, page, f, readAt)
    case SetPage(f, page, o) => o.filter == f && PageOk(s, page, f, o.readAt) && OriginOk(s, o)
    case Flush(team, at, response, note) => WriteTo(s.writes, at, team) && !note.Served? && !note.Queried?
    case Finished(response, note) => ServedOk(s, response, note)
    case _ => true
  }

  ghost predicate KeysOk(s: Sys) {
    Tidy(s.redis) && forall k :: k in s.redis && s.redis[k].Payload? ==> StoredOk(s, k, s.redis[k].value)
  }

  ghost predicate ReqsOk(s: Sys) {
    forall r :: r in s.reqs ==> ListReqOk(s, s.reqs[r])
  }

  /** The request is a probe that agrees with every page stored or about to be stored. */
  ghost predicate ProbeAgrees(s: Sys, q: Req) {
    q.GetPage? ==>
      && (forall k :: k in s.redis && s.redis[k].Payload? ==>
            PairOk(s, q.filter, q.gen, q.probedAt, q.dirty, s.redis[k].value.origin))
      && (forall x :: x in s.reqs && s.reqs[x].SetPage? ==>
            PairOk(s, q.filter, q.gen, q.probedAt, q.dirty, s.reqs[x].origin))
  }

  ghost predicate PairsOk(s: Sys) {
    forall r :: r in s.reqs ==> ProbeAgrees(s, s.reqs[r])
  }

  ghost predicate CacheOk(s: Sys) {
    WritesOk(s) && KeysOk(s) && ReqsOk(s) && PairsOk(s)
  }

  // ---------- a database state is appended ----------

  /** The state grew by one database state; if a task was written, the write is recorded. */
  ghost predicate GrewTo(s: Sys, t: Sys) {
    && s.trace != [] && |t.trace| == |s.trace| + 1 && t.trace == s.trace + [t.trace[|s.trace|]]
    && t.redis == s.redis && t.flushed == s.flushed && t.reqs == s.reqs
    && (forall w: nat :: w in s.writes ==> w in t.writes && t.writes[w] == s.writes[w])
    && (forall w: nat :: w in t.writes ==> w in s.writes || w == |s.trace|)
    && (forall team :: !WriteTo(t.writes, |s.trace|, team) ==> SameTable(Now(s), t.trace[|s.trace|], team))
  }

  lemma GrewWrites(s: Sys, t: Sys)
    requires WritesOk(s) && GrewTo(s, t)
    ensures WritesOk(t)
    ensures forall w: nat, team :: w < |s.trace| ==> (WriteTo(t.writes, w, team) <==> WriteTo(s.writes, w, team))
  {
    forall w: nat, team | 0 < w < |t.trace| && !WriteTo(t.writes, w, team)
      ensures SameTable(t.trace[w - 1], t.trace[w], team)
    {
      if w < |s.trace| {
        assert !WriteTo(s.writes, w, team);
        assert t.trace[w - 1] == s.trace[w - 1] && t.trace[w] == s.trace[w];
      }
    }
  }

  lemma GrewPage(s: Sys, t: Sys, page: TaskPage, f: TaskFilter, readAt: nat)
    requires GrewTo(s, t) && PageOk(s, page, f, readAt)
    ensures PageOk(t, page, f, readAt)
  {
    assert t.trace[readAt] == s.trace[readAt];
  }

  lemma GrewOrigin(s: Sys, t: Sys, o: Origin)
    requires WritesOk(s) && GrewTo(s, t) && OriginOk(s, o)
    ensures OriginOk(t, o)
  {
  }

  lemma GrewProbe(s: Sys, t: Sys, f: TaskFilter, gen: int, probedAt: nat, dirty: set<nat>)
    requires WritesOk(s) && GrewTo(s, t) && ProbeOk(s, f, gen, probedAt, dirty)
    ensures ProbeOk(t, f, gen, probedAt, dirty)
  {
  }

  lemma GrewServed(s: Sys, t: Sys, response: Response, note: Note)
    requires WritesOk(s) && GrewTo(s, t) && note.Served? && ServedOk(s, response, note)
    ensures ServedOk(t, response, note)
  {
    var Served(f, o, probedAt, servedAt, dirty) := note;
    GrewPage(s, t, response.page, f, o.readAt);
    assert WritesOf(t, dirty, f.teamId) && WritesOf(t, o.late, f.teamId);
    GrewExplained(s, t, f.teamId, o.readAt, o.late, probedAt, dirty);
  }

  lemma GrewExplained(s: Sys, t: Sys, team: Id, readAt: nat, late: set<nat>, probedAt: nat, dirty: set<nat>)
    requires GrewTo(s, t) && probedAt < |s.trace| && Explained(s, team, readAt, late, probedAt, dirty)
    ensures Explained(t, team, readAt, late, probedAt, dirty)
  {
  }

  lemma GrewQueried(s: Sys, t: Sys, response: Response, f: TaskFilter, readAt: nat)
    requires GrewTo(s, t) && Answers(s, response, f, readAt)
    ensures Answers(t, response, f, readAt)
  {
    GrewPage(s, t, response.page, f, readAt);
  }

  lemma GrewReq(s: Sys, t: Sys, q: Req)
    requires WritesOk(s) && GrewTo(s, t) && ListReqOk(s, q)
    ensures ListReqOk(t, q)
  {
    match q
    case GetPage(f, gen, probedAt, dirty) => GrewProbe(s, t, f, gen, probedAt, dirty);
    case SetGeneration(f, page, readAt) => GrewPage(s, t, page, f, readAt);
    case SetPage(f, page, o) =>
      GrewPage(s, t, page, f, o.readAt);
      GrewOrigin(s, t, o);
    case Finished(response, note) =>
      if note.Served? {
        GrewServed(s, t, response, note);
      } else if note.Queried? {
        GrewQueried(s, t, response, note.filter, note.readAt);
      }
    case _ =>
  }

  lemma GrewPair(s: Sys, t: Sys, f: TaskFilter, gen: int, probedAt: nat, dirty: set<nat>, o: Origin)
    requires WritesOk(s) && GrewTo(s, t) && probedAt < |s.trace| && PairOk(s, f, gen, probedAt, dirty, o)
    ensures PairOk(t, f, gen, probedAt, dirty, o)
  {
  }

  lemma GrewKeeps(s: Sys, t: Sys)
    requires CacheOk(s) && GrewTo(s, t)
    ensures CacheOk(t)
  {
    GrewWrites(s, t);
    forall k | k in s.redis && s.redis[k].Payload? ensures StoredOk(t, k, s.redis[k].value) {
      var stored := s.redis[k].value;
      GrewPage(s, t, stored.page, stored.origin.filter, stored.origin.readAt);
      GrewOrigin(s, t, stored.origin);
    }
    forall r | r in s.reqs ensures ListReqOk(t, s.reqs[r]) && ProbeAgrees(t, s.reqs[r]) {
      var q := s.reqs[r];
      GrewReq(s, t, q);
      assert ProbeAgrees(s, q);
      if q.GetPage? {
        forall k | k in s.redis && s.redis[k].Payload?
          ensures PairOk(t, q.filter, q.gen, q.probedAt, q.dirty, s.redis[k].value.origin)
        {
          GrewPair(s, t, q.filter, q.gen, q.probedAt, q.dirty, s.redis[k].value.origin);
        }
        forall x | x in s.reqs && s.reqs[x].SetPage?
          ensures PairOk(t, q.filter, q.gen, q.probedAt, q.dirty, s.reqs[x].origin)
        {
          GrewPair(s, t, q.filter, q.gen, q.probedAt, q.dirty, s.reqs[x].origin);
        }
      }
    }
  }

  // ---------- a request moves on ----------

  /** A new place for a request that agrees with the rest of the state. */
  ghost predicate Fits(s: Sys, q: Req) {
    && ListReqOk(s, q) && ProbeAgrees(s, q)
    && (q.SetPage? ==> forall x :: x in s.reqs && s.reqs[x].GetPage? ==>
          PairOk(s, s.reqs[x].filter, s.reqs[x].gen, s.reqs[x].probedAt, s.reqs[x].dirty, q.origin))
  }

  lemma MovedReqOk(s: Sys, r: nat, q: Req, x: Req)
    requires ListReqOk(s, x)
    ensures ListReqOk(Goto(s, r, q), x)
  {
  }

  lemma MovedProbeAgrees(s: Sys, r: nat, q: Req, x: Req)
    requires ProbeAgrees(s, x)
    requires x.GetPage? && q.SetPage? ==> PairOk(s, x.filter, x.gen, x.probedAt, x.dirty, q.origin)
    ensures ProbeAgrees(Goto(s, r, q), x)
  {
  }

  lemma MovedKeys(s: Sys, r: nat, q: Req)
    requires KeysOk(s) && WritesOk(s)
    ensures KeysOk(Goto(s, r, q)) && WritesOk(Goto(s, r, q))
  {
    var t := Goto(s, r, q);
    forall k | k in t.redis && t.redis[k].Payload? ensures StoredOk(t, k, t.redis[k].value) {
      assert StoredOk(s, k, s.redis[k].value);
    }
  }

  lemma MoveKeeps(s: Sys, r: nat, q: Req)
    requires CacheOk(s) && Fits(s, q)
    ensures CacheOk(Goto(s, r, q))
  {
    hide KeysOk, WritesOk, ListReqOk, PairOk;
    var t := Goto(s, r, q);
    MovedKeys(s, r, q);
    forall x | x in t.reqs ensures ListReqOk(t, t.reqs[x]) && ProbeAgrees(t, t.reqs[x]) {
      assert x != r ==> ListReqOk(s, s.reqs[x]) && ProbeAgrees(s, s.reqs[x]);
      MovedReqOk(s, r, q, t.reqs[x]);
      MovedProbeAgrees(s, r, q, t.reqs[x]);
    }
  }

  // ---------- Redis changes ----------

  lemma FewerPages(s: Sys, redis: Keyspace<Stored>)
    requires CacheOk(s) && Tidy(redis)
    requires forall t: Id :: Generation(redis, t) == Generation(s.redis, t)
    requires forall k :: k in redis && redis[k].Payload? ==> k in s.redis && redis[k] == s.redis[k]
    ensures CacheOk(s.(redis := redis))
  {
    var t := s.(redis := redis);
    forall k | k in redis && redis[k].Payload? ensures StoredOk(t, k, redis[k].value) {
      assert StoredOk(s, k, s.redis[k].value);
    }
    forall r | r in t.reqs ensures ListReqOk(t, t.reqs[r]) && ProbeAgrees(t, t.reqs[r]) {
      assert ListReqOk(s, s.reqs[r]) && ProbeAgrees(s, s.reqs[r]);
    }
  }

  lemma LapseKeeps(s: Sys, key: string)
    requires CacheOk(s)
    ensures CacheOk(s.(redis := Expire(s.redis, key)))
  {
    ExpiryTidy(s.redis, key);
    FewerPages(s, Expire(s.redis, key));
  }

  /** What a request relies on survives a change of Redis that leaves the generations alone. */
  lemma SameGenerations(s: Sys, redis: Keyspace<Stored>, q: Req)
    requires ListReqOk(s, q) && forall t: Id :: Generation(redis, t) == Generation(s.redis, t)
    ensures ListReqOk(s.(redis := redis), q)
  {
  }

  lemma PutAgrees(s: Sys, r: nat, q: Req)
    requires r in s.reqs && s.reqs[r].SetPage? && ProbeAgrees(s, q)
    ensures var SetPage(f, page, o) := s.reqs[r];
            ProbeAgrees(s.(redis := Redis.Store(s.redis, f, o.gen, Stored(page, o))), q)
  {
  }

  lemma PutStored(s: Sys, r: nat)
    requires KeysOk(s) && r in s.reqs && s.reqs[r].SetPage? && ListReqOk(s, s.reqs[r])
    ensures var SetPage(f, page, o) := s.reqs[r];
            KeysOk(s.(redis := Redis.Store(s.redis, f, o.gen, Stored(page, o))))
  {
    var SetPage(f, page, o) := s.reqs[r];
    var redis := Redis.Store(s.redis, f, o.gen, Stored(page, o));
    StoreTidy(s.redis, f, o.gen, Stored(page, o));
    forall k | k in redis && redis[k].Payload? ensures StoredOk(s.(redis := redis), k, redis[k].value) {
      assert k != ListKey(f, o.gen) ==> StoredOk(s, k, s.redis[k].value);
    }
  }

  /** Storing the page of a SetPage request. */
  lemma PutKeeps(s: Sys, r: nat)
    requires CacheOk(s) && r in s.reqs && s.reqs[r].SetPage?
    ensures var SetPage(f, page, o) := s.reqs[r];
            CacheOk(s.(redis := Redis.Store(s.redis, f, o.gen, Stored(page, o))))
  {
    var SetPage(f, page, o) := s.reqs[r];
    var redis := Redis.Store(s.redis, f, o.gen, Stored(page, o));
    var t := s.(redis := redis);
    StoreTidy(s.redis, f, o.gen, Stored(page, o));
    assert ListReqOk(s, s.reqs[r]);
    PutStored(s, r);
    forall x | x in t.reqs ensures ListReqOk(t, t.reqs[x]) && ProbeAgrees(t, t.reqs[x]) {
      assert ListReqOk(s, s.reqs[x]) && ProbeAgrees(s, s.reqs[x]);
      SameGenerations(s, redis, s.reqs[x]);
      PutAgrees(s, r, s.reqs[x]);
    }
    assert WritesOk(t);
  }

  /** A successful Invalidate: the team's generation moves past every stored page, and the write
      counts as flushed. */
  lemma IncrementKeeps(s: Sys, team: Id, at: nat)
    requires CacheOk(s) && WriteTo(s.writes, at, team)
    ensures CacheOk(s.(redis := Increment(s.redis, team), flushed := s.flushed + {at}))
  {
    var t := s.(redis := Increment(s.redis, team), flushed := s.flushed + {at});
    IncrementTidy(s.redis, team);
    assert WritesOk(t);
    forall k | k in t.redis && t.redis[k].Payload? ensures StoredOk(t, k, t.redis[k].value) {
      assert StoredOk(s, k, s.redis[k].value);
      IncrementOrigin(s, team, at, s.redis[k].value.origin);
    }
    forall r | r in t.reqs ensures ListReqOk(t, t.reqs[r]) && ProbeAgrees(t, t.reqs[r]) {
      assert ListReqOk(s, s.reqs[r]) && ProbeAgrees(s, s.reqs[r]);
      if s.reqs[r].SetPage? {
        IncrementOrigin(s, team, at, s.reqs[r].origin);
      }
    }
  }

  lemma IncrementOrigin(s: Sys, team: Id, at: nat, o: Origin)
    requires Tidy(s.redis) && WriteTo(s.writes, at, team) && OriginOk(s, o)
    ensures OriginOk(s.(redis := Increment(s.redis, team), flushed := s.flushed + {at}), o)
  {
    IncrementTidy(s.redis, team);
  }

  // ---------- the steps ----------

  /** A probe that has just read the generation agrees with every page under it. */
  lemma NewProbe(s: Sys, f: TaskFilter)
    requires CacheOk(s) && Askable(f)
    ensures Generation(s.redis, f.teamId).Ok?
    ensures Fits(s, GetPage(f, Generation(s.redis, f.teamId).value, |s.trace| - 1,
                            Dirty(s.writes, s.flushed, f.teamId)))
  {
    IncrementTidy(s.redis, f.teamId);
    var gen := Generation(s.redis, f.teamId).value;
    var q := GetPage(f, gen, |s.trace| - 1, Dirty(s.writes, s.flushed, f.teamId));
    forall k | k in s.redis && s.redis[k].Payload?
      ensures PairOk(s, f, gen, q.probedAt, q.dirty, s.redis[k].value.origin)
    {
      assert StoredOk(s, k, s.redis[k].value);
    }
    forall x | x in s.reqs && s.reqs[x].SetPage?
      ensures PairOk(s, f, gen, q.probedAt, q.dirty, s.reqs[x].origin)
    {
      assert ListReqOk(s, s.reqs[x]);
    }
  }

  lemma FillPair(s: Sys, q: Req, o: Origin)
    requires q.GetPage? && ListReqOk(s, q)
    requires o.late == Late(s.writes, s.flushed, o.filter.teamId, o.readAt)
    ensures PairOk(s, q.filter, q.gen, q.probedAt, q.dirty, o)
  {
    assert ProbeOk(s, q.filter, q.gen, q.probedAt, q.dirty);
  }

  /** The origin of a page whose generation is read now. */
  function FillOrigin(s: Sys, f: TaskFilter, readAt: nat): Origin
    requires Generation(s.redis, f.teamId).Ok?
  {
    Origin(f, Generation(s.redis, f.teamId).value, readAt, Late(s.writes, s.flushed, f.teamId, readAt))
  }

  lemma FillOriginOk(s: Sys, f: TaskFilter, readAt: nat)
    requires Generation(s.redis, f.teamId).Ok? && readAt < |s.trace|
    ensures OriginOk(s, FillOrigin(s, f, readAt))
  {
  }

  /** A fill that has just read the generation agrees with every probe under it. */
  lemma NewFill(s: Sys, f: TaskFilter, page: TaskPage, readAt: nat)
    requires CacheOk(s) && PageOk(s, page, f, readAt)
    ensures Generation(s.redis, f.teamId).Ok? && Fits(s, SetPage(f, page, FillOrigin(s, f, readAt)))
  {
    IncrementTidy(s.redis, f.teamId);
    var o := FillOrigin(s, f, readAt);
    FillOriginOk(s, f, readAt);
    assert ReqsOk(s);
    FillPairs(s, o);
  }

  lemma FillPairs(s: Sys, o: Origin)
    requires ReqsOk(s) && o.late == Late(s.writes, s.flushed, o.filter.teamId, o.readAt)
    ensures forall x :: x in s.reqs && s.reqs[x].GetPage? ==>
              PairOk(s, s.reqs[x].filter, s.reqs[x].gen, s.reqs[x].probedAt, s.reqs[x].dirty, o)
  {
    forall x | x in s.reqs && s.reqs[x].GetPage?
      ensures PairOk(s, s.reqs[x].filter, s.reqs[x].gen, s.reqs[x].probedAt, s.reqs[x].dirty, o)
    {
      FillPair(s, s.reqs[x], o);
    }
  }

  /** A hit is a page of the very request, stored under the very generation that the probe read. */
  lemma HitServed(s: Sys, r: nat)
    requires CacheOk(s) && r in s.reqs && s.reqs[r].GetPage?
    requires Lookup(s.redis, s.reqs[r].filter, s.reqs[r].gen).Some?
    ensures var GetPage(f, gen, probedAt, dirty) := s.reqs[r];
            var hit := Lookup(s.redis, f, gen).value;
            Fits(s, Finished(PageIs(hit.page), Served(f, hit.origin, probedAt, |s.trace| - 1, dirty)))
  {
    var GetPage(f, gen, probedAt, dirty) := s.reqs[r];
    var key := ListKey(f, gen);
    var o := s.redis[key].value.origin;
    assert ListReqOk(s, s.reqs[r]) && ProbeAgrees(s, s.reqs[r]) && StoredOk(s, key, s.redis[key].value);
    ListKeyInjective(f, gen, o.filter, o.gen);
    assert PairOk(s, f, gen, probedAt, dirty, o);
  }

  // Places that fit because they claim nothing about pages of the cache.

  lemma QueriedFits(s: Sys, f: TaskFilter, page: TaskPage, readAt: nat)
    requires PageOk(s, page, f, readAt)
    ensures Fits(s, Finished(PageIs(page), Queried(f, readAt))) && Fits(s, SetGeneration(f, page, readAt))
  {
  }

  lemma AskFits(s: Sys, f: TaskFilter, captured: Option<int>)
    requires Askable(f)
    requires captured.Some? ==>
               Generation(s.redis, f.teamId).Ok? && captured.value <= Generation(s.redis, f.teamId).value
    ensures Fits(s, RunQuery(f, captured)) && Fits(s, GetGeneration(f))
  {
  }

  lemma FailedFits(s: Sys, fault: Fault)
    ensures Fits(s, Finished(Failed(fault), Plain))
  {
  }

  lemma ProbeFits(s: Sys, r: nat, redisOk: bool)
    requires CacheOk(s) && r in s.reqs && s.reqs[r].GetGeneration?
    ensures var t := AdvanceList(s, r, s.reqs[r], redisOk); t == Goto(s, r, t.reqs[r]) && Fits(s, t.reqs[r])
  {
    hide Fits, KeysOk, PairsOk;
    assert ListReqOk(s, s.reqs[r]);
    NewProbe(s, s.reqs[r].filter);
    AskFits(s, s.reqs[r].filter, None);
  }

  lemma ProbeKeeps(s: Sys, r: nat, redisOk: bool)
    requires CacheOk(s) && r in s.reqs && s.reqs[r].GetGeneration?
    ensures CacheOk(AdvanceList(s, r, s.reqs[r], redisOk))
  {
    hide Fits, KeysOk, PairsOk, ReqsOk;
    ProbeFits(s, r, redisOk);
    MoveKeeps(s, r, AdvanceList(s, r, s.reqs[r], redisOk).reqs[r]);
  }

  lemma LookupFits(s: Sys, r: nat, redisOk: bool)
    requires CacheOk(s) && r in s.reqs && s.reqs[r].GetPage?
    ensures var t := AdvanceList(s, r, s.reqs[r], redisOk); t == Goto(s, r, t.reqs[r]) && Fits(s, t.reqs[r])
  {
    hide Fits, KeysOk, PairsOk;
    var GetPage(f, gen, _, _) := s.reqs[r];
    assert ListReqOk(s, s.reqs[r]);
    if redisOk && Lookup(s.redis, f, gen).Some? {
      HitServed(s, r);
    } else {
      AskFits(s, f, if s.captures then Some(gen) else None);
    }
  }

  lemma LookupKeeps(s: Sys, r: nat, redisOk: bool)
    requires CacheOk(s) && r in s.reqs && s.reqs[r].GetPage?
    ensures CacheOk(AdvanceList(s, r, s.reqs[r], redisOk))
  {
    hide Fits, KeysOk, PairsOk, ReqsOk;
    LookupFits(s, r, redisOk);
    MoveKeeps(s, r, AdvanceList(s, r, s.reqs[r], redisOk).reqs[r]);
  }

  lemma FillFits(s: Sys, r: nat, redisOk: bool)
    requires CacheOk(s) && r in s.reqs && s.reqs[r].SetGeneration?
    ensures var t := AdvanceList(s, r, s.reqs[r], redisOk); t == Goto(s, r, t.reqs[r]) && Fits(s, t.reqs[r])
  {
    hide Fits, KeysOk, PairsOk, PageOk;
    var SetGeneration(f, page, readAt) := s.reqs[r];
    assert ListReqOk(s, s.reqs[r]);
    NewFill(s, f, page, readAt);
    QueriedFits(s, f, page, readAt);
  }

  lemma FillKeeps(s: Sys, r: nat, redisOk: bool)
    requires CacheOk(s) && r in s.reqs && s.reqs[r].SetGeneration?
    ensures CacheOk(AdvanceList(s, r, s.reqs[r], redisOk))
  {
    hide Fits, KeysOk, PairsOk, ReqsOk;
    FillFits(s, r, redisOk);
    MoveKeeps(s, r, AdvanceList(s, r, s.reqs[r], redisOk).reqs[r]);
  }

  lemma StoreKeeps(s: Sys, r: nat, redisOk: bool)
    requires CacheOk(s) && r in s.reqs && s.reqs[r].SetPage?
    ensures CacheOk(AdvanceList(s, r, s.reqs[r], redisOk))
  {
    hide Fits, KeysOk, PairsOk, PageOk;
    var t := AdvanceList(s, r, s.reqs[r], redisOk);
    var SetPage(f, page, o) := s.reqs[r];
    assert ListReqOk(s, s.reqs[r]);
    PutKeeps(s, r);
    PageAnyRedis(s, t.redis, page, f, o.readAt);
    QueriedFits(s.(redis := t.redis), f, page, o.readAt);
    MoveKeeps(s.(redis := t.redis), r, t.reqs[r]);
  }

  lemma PageAnyRedis(s: Sys, redis: Keyspace<Stored>, page: TaskPage, f: TaskFilter, readAt: nat)
    requires PageOk(s, page, f, readAt)
    ensures PageOk(s.(redis := redis), page, f, readAt)
  {
  }

  lemma RoleKeeps(s: Sys, r: nat, redisOk: bool)
    requires CacheOk(s) && r in s.reqs && s.reqs[r].ListRole?
    ensures CacheOk(AdvanceList(s, r, s.reqs[r], redisOk))
  {
    hide Fits, KeysOk, PairsOk;
    var ListRole(actor, f) := s.reqs[r];
    assert ListReqOk(s, s.reqs[r]);
    AskFits(s, f, None);
    match Membership(Now(s), f.teamId, actor)
    case Err(e) =>
      FailedFits(s, e);
      MoveKeeps(s, r, Finished(Failed(e), Plain));
    case Ok(_) => MoveKeeps(s, r, GetGeneration(f));
  }

  lemma CapturedOrigin(s: Sys, f: TaskFilter, gen: int)
    requires WritesOk(s) && Generation(s.redis, f.teamId).Ok? && gen <= Generation(s.redis, f.teamId).value
    ensures OriginOk(s, Origin(f, gen, |s.trace| - 1, {}))
  {
  }

  lemma CapturedPairs(s: Sys, o: Origin)
    requires ReqsOk(s) && s.trace != [] && o.readAt == |s.trace| - 1
    ensures forall x :: x in s.reqs && s.reqs[x].GetPage? ==>
              PairOk(s, s.reqs[x].filter, s.reqs[x].gen, s.reqs[x].probedAt, s.reqs[x].dirty, o)
  {
    forall x | x in s.reqs && s.reqs[x].GetPage?
      ensures PairOk(s, s.reqs[x].filter, s.reqs[x].gen, s.reqs[x].probedAt, s.reqs[x].dirty, o)
    {
      CapturedPair(s, s.reqs[x], o);
    }
  }

  lemma CapturedPair(s: Sys, q: Req, o: Origin)
    requires q.GetPage? && ListReqOk(s, q) && s.trace != [] && o.readAt == |s.trace| - 1
    ensures PairOk(s, q.filter, q.gen, q.probedAt, q.dirty, o)
  {
  }

  /** A page read now, under a generation captured earlier: no write has slipped in. */
  lemma CapturedFill(s: Sys, f: TaskFilter, page: TaskPage, gen: int)
    requires CacheOk(s) && PageOk(s, page, f, |s.trace| - 1)
    requires Generation(s.redis, f.teamId).Ok? && gen <= Generation(s.redis, f.teamId).value
    ensures Fits(s, SetPage(f, page, Origin(f, gen, |s.trace| - 1, {})))
  {
    hide PairOk, OriginOk, PageOk, KeysOk, PairsOk;
    CapturedOrigin(s, f, gen);
    CapturedPairs(s, Origin(f, gen, |s.trace| - 1, {}));
  }

  lemma QueryPage(s: Sys, f: TaskFilter)
    requires WritesOk(s) && Askable(f)
    ensures PageOk(s, PageAt(s.trace, |s.trace| - 1, f), f, |s.trace| - 1)
  {
  }

  lemma AfterQueryCases(s: Sys, f: TaskFilter, page: TaskPage, captured: Option<int>)
    requires s.trace != []
    ensures AfterQuery(s, f, page, captured) ==
            if !s.captures then SetGeneration(f, page, |s.trace| - 1)
            else if captured.Some? then SetPage(f, page, Origin(f, captured.value, |s.trace| - 1, {}))
            else Finished(PageIs(page), Queried(f, |s.trace| - 1))
  {
  }

  lemma QueryFits(s: Sys, f: TaskFilter, captured: Option<int>)
    requires CacheOk(s) && Askable(f)
    requires captured.Some? ==>
               Generation(s.redis, f.teamId).Ok? && captured.value <= Generation(s.redis, f.teamId).value
    ensures Fits(s, AfterQuery(s, f, PageAt(s.trace, |s.trace| - 1, f), captured))
  {
    hide Fits, KeysOk, PairsOk, ReqsOk, PageOk, PageAt, Query, Generation, AfterQuery;
    var page := PageAt(s.trace, |s.trace| - 1, f);
    QueryPage(s, f);
    AfterQueryCases(s, f, page, captured);
    QueriedFits(s, f, page, |s.trace| - 1);
    if s.captures && captured.Some? {
      CapturedFill(s, f, page, captured.value);
    }
  }

  lemma QueryKeeps(s: Sys, r: nat, redisOk: bool)
    requires CacheOk(s) && r in s.reqs && s.reqs[r].RunQuery?
    ensures CacheOk(AdvanceList(s, r, s.reqs[r], redisOk))
  {
    hide Fits, CacheOk, AfterQuery, Query, Generation;
    var RunQuery(f, captured) := s.reqs[r];
    QueryAsks(s, r);
    QueryFits(s, f, captured);
    MoveKeeps(s, r, AfterQuery(s, f, PageAt(s.trace, |s.trace| - 1, f), captured));
  }

  lemma QueryAsks(s: Sys, r: nat)
    requires CacheOk(s) && r in s.reqs && s.reqs[r].RunQuery?
    ensures s.trace != [] && Askable(s.reqs[r].filter)
    ensures s.reqs[r].captured.Some? ==>
              && Generation(s.redis, s.reqs[r].filter.teamId).Ok?
              && s.reqs[r].captured.value <= Generation(s.redis, s.reqs[r].filter.teamId).value
  {
    hide KeysOk, PairsOk, Generation;
    assert ListReqOk(s, s.reqs[r]);
  }

  lemma ListKeeps(s: Sys, r: nat, redisOk: bool)
    requires CacheOk(s) && r in s.reqs && ListStep(s.reqs[r])
    ensures CacheOk(AdvanceList(s, r, s.reqs[r], redisOk))
  {
    match s.reqs[r]
    case GetGeneration(_) => ProbeKeeps(s, r, redisOk);
    case GetPage(_, _, _, _) => LookupKeeps(s, r, redisOk);
    case SetGeneration(_, _, _) => FillKeeps(s, r, redisOk);
    case SetPage(_, _, _) => StoreKeeps(s, r, redisOk);
    case ListRole(_, _) => RoleKeeps(s, r, redisOk);
    case RunQuery(_, _) => QueryKeeps(s, r, redisOk);
  }

  lemma FlushKeeps(s: Sys, r: nat, redisOk: bool)
    requires CacheOk(s) && r in s.reqs && s.reqs[r].Flush?
    ensures CacheOk(AdvanceFlush(s, r, s.reqs[r], redisOk))
  {
    var Flush(team, at, response, note) := s.reqs[r];
    var t := AdvanceFlush(s, r, s.reqs[r], redisOk);
    assert ListReqOk(s, s.reqs[r]);
    if redisOk {
      IncrementKeeps(s, team, at);
    }
    MoveKeeps(s.(redis := t.redis, flushed := t.flushed), r, t.reqs[r]);
  }

  /** A place that says nothing about the cache. */
  predicate Simple(q: Req) {
    !ListStep(q) && !q.Flush? && (q.Finished? ==> !q.note.Served? && !q.note.Queried?)
  }

  lemma SimpleKeeps(s: Sys, r: nat, q: Req)
    requires CacheOk(s) && Simple(q)
    ensures CacheOk(Goto(s, r, q))
  {
    MoveKeeps(s, r, q);
  }

  lemma QuietKeeps(s: Sys, r: nat, db: DB, q: Req)
    requires CacheOk(s) && db.tasks == Now(s).tasks && Simple(q)
    ensures CacheOk(Commits(s, r, db, q))
  {
    var t := s.(trace := s.trace + [db]);
    GrewKeeps(s, t);
    SimpleKeeps(t, r, q);
  }

  predicate OnTeams(q: Req) {
    q.TeamInsert? || q.InviteActor? || q.InviteUser? || q.InviteInsert? || q.RoleActor? || q.RoleTarget? || q.RoleWrite?
  }

  lemma TeamsEffect(db: DB, q: Req, pos: nat, now: Time)
    requires OnTeams(q)
    ensures Simple(TeamOutcome(db, q, pos, now).next)
    ensures TeamOutcome(db, q, pos, now).Write? ==> TeamOutcome(db, q, pos, now).db.tasks == db.tasks
  {
  }

  lemma TeamsKeepCache(s: Sys, r: nat, now: Time)
    requires CacheOk(s) && r in s.reqs && OnTeams(s.reqs[r])
    ensures CacheOk(AdvanceTeams(s, r, s.reqs[r], now))
  {
    TeamsEffect(Now(s), s.reqs[r], |s.trace| - 1, now);
    match TeamOutcome(Now(s), s.reqs[r], |s.trace| - 1, now)
    case Stay(next) => SimpleKeeps(s, r, next);
    case Write(after, next) => QuietKeeps(s, r, after, next);
  }

  /** A task write changes the rows of its own team only. */
  lemma WriteKeeps(s: Sys, r: nat, task: Task, e: HistoryEntry, nextTask: nat, response: Response, note: Note)
    requires CacheOk(s) && !note.Served? && !note.Queried?
    requires task.id in Now(s).tasks ==> Now(s).tasks[task.id].teamId == task.teamId
    ensures CacheOk(CommitsTask(s, r, TaskWritten(Now(s), task, e, nextTask), task.teamId, response, note))
  {
    var after := TaskWritten(Now(s), task, e, nextTask);
    var at := |s.trace|;
    var t := s.(trace := s.trace + [after], writes := s.writes[at := task.teamId]);
    assert at !in s.writes;
    assert WriteTo(t.writes, at, task.teamId);
    GrewKeeps(s, t);
    MoveKeeps(t, r, Flush(task.teamId, at, response, note));
  }

  lemma CreationKeepsCache(s: Sys, r: nat, clock: Time, now: Time)
    requires CacheOk(s) && Keyed(Now(s)) && r in s.reqs
    ensures CacheOk(AdvanceCreation(s, r, s.reqs[r], clock, now))
  {
    hide KeysOk, ReqsOk, PairsOk;
    var q := s.reqs[r];
    var t := AdvanceCreation(s, r, q, clock, now);
    if q.NewInsert? && InsertTask(Now(s), q.row, clock, now).1.Ok? {
      InsertKeepsCache(s, r, clock, now);
    } else if t != s {
      SimpleKeeps(s, r, t.reqs[r]);
    }
  }

  lemma InsertKeepsCache(s: Sys, r: nat, clock: Time, now: Time)
    requires CacheOk(s) && Keyed(Now(s)) && r in s.reqs && s.reqs[r].NewInsert?
    requires InsertTask(Now(s), s.reqs[r].row, clock, now).1.Ok?
    ensures CacheOk(AdvanceCreation(s, r, s.reqs[r], clock, now))
  {
    var row := s.reqs[r].row;
    var task := CreatedRow(Now(s).nextTask, row, clock, now);
    var e := Entry(Now(s), task.id, row.createdBy, CreationDiff(task), clock, now);
    WriteKeeps(s, r, task, e, Now(s).nextTask + 1, TaskIs(task), Created(Creation(row, |s.trace|, clock, now)));
  }

  lemma AfterPlanSimple(member: Actor, patch: Patch, loadedAt: nat, roleAt: nat, task: Task)
    ensures Simple(AfterPlan(member, patch, loadedAt, roleAt, task))
    ensures NeverServed(AfterPlan(member, patch, loadedAt, roleAt, task))
  {
    hide PlanUpdate, Applied;
  }

  /** An update request moves to a place that says nothing about the cache. */
  predicate PlainMove(s: Sys, r: nat, t: Sys) {
    r in t.reqs && t == Goto(s, r, t.reqs[r]) && Simple(t.reqs[r]) && NeverServed(t.reqs[r])
  }

  lemma UpdateReadEffect(s: Sys, r: nat, clock: Time, now: Time)
    requires s.trace != [] && r in s.reqs && (s.reqs[r].Load? || s.reqs[r].LoadRole? || s.reqs[r].CheckAssignee?)
    ensures PlainMove(s, r, AdvanceUpdate(s, r, s.reqs[r], clock, now))
  {
    hide AfterPlan, DiffOf, Applied;
    if s.reqs[r].LoadRole? {
      var LoadRole(actor, patch, loadedAt, task) := s.reqs[r];
      var member := Membership(Now(s), task.teamId, actor);
      if member.Ok? {
        AfterPlanSimple(member.value, patch, loadedAt, |s.trace| - 1, task);
      }
    }
  }

  lemma UpdateReadKeepsCache(s: Sys, r: nat, clock: Time, now: Time)
    requires CacheOk(s) && r in s.reqs && (s.reqs[r].Load? || s.reqs[r].LoadRole? || s.reqs[r].CheckAssignee?)
    ensures CacheOk(AdvanceUpdate(s, r, s.reqs[r], clock, now))
  {
    hide AdvanceUpdate, Simple, KeysOk, ReqsOk, PairsOk;
    UpdateReadEffect(s, r, clock, now);
    SimpleKeeps(s, r, AdvanceUpdate(s, r, s.reqs[r], clock, now).reqs[r]);
  }

  lemma SwapKeepsCache(s: Sys, r: nat, clock: Time, now: Time)
    requires CacheOk(s) && Keyed(Now(s)) && r in s.reqs && s.reqs[r].Swap?
    ensures CacheOk(AdvanceUpdate(s, r, s.reqs[r], clock, now))
  {
    hide KeysOk, ReqsOk, PairsOk, UpdateFor, DiffOf, Entry, TaskWritten;
    var q := s.reqs[r];
    var t := AdvanceUpdate(s, r, q, clock, now);
    var changes := DiffOf(q.task, q.patch);
    var swap := CompareAndSwap(Now(s), q.task.id, q.task.version, UpdateFor(q.task, changes, clock), q.actor, changes,
                               clock, now);
    if swap.1.Err? {
      SimpleKeeps(s, r, t.reqs[r]);
    } else {
      var task := UpdatedRow(Now(s).tasks[q.task.id], UpdateFor(q.task, changes, clock), now);
      var e := Entry(Now(s), q.task.id, q.actor, changes, clock, now);
      WriteKeeps(s, r, task, e, Now(s).nextTask, TaskIs(task), t.reqs[r].note);
    }
  }

  /** A request that has read nothing yet. */
  predicate Unread(q: Req) {
    (Simple(q) && NeverServed(q)) || (q.ListRole? && Askable(q.filter))
  }

  lemma OpeningUnread(op: Op)
    requires Opening(op).Some?
    ensures Unread(Opening(op).value)
  {
    hide ValidateInvite, ValidateCreation, Validate, NormalizeTeamName, RowFor, WithRole;
  }

  lemma UnreadFits(s: Sys, q: Req)
    requires Unread(q)
    ensures Fits(s, q)
  {
  }

  lemma OpeningFits(s: Sys, op: Op)
    requires Opening(op).Some?
    ensures Fits(s, Opening(op).value)
  {
    hide Opening, Fits, Unread;
    OpeningUnread(op);
    UnreadFits(s, Opening(op).value);
  }

  lemma FinishedIdle(s: Sys, r: nat, redisOk: bool, clock: Time, now: Time)
    requires s.trace != [] && r in s.reqs && s.reqs[r].Finished?
    ensures Do(s, Advance(r, redisOk, clock, now)) == s
  {
    assert s.reqs[r := s.reqs[r]] == s.reqs;
  }

  lemma DoKeepsCache(s: Sys, e: Event)
    requires CacheOk(s) && Keyed(Now(s))
    ensures CacheOk(Do(s, e))
  {
    hide KeysOk, ReqsOk, PairsOk, Fits, AdvanceList, AdvanceUpdate, AdvanceCreation, AdvanceTeams, AdvanceFlush,
      Opening;
    match e
    case Register(user) =>
      GrewKeeps(s, Do(s, e));
    case Start(r, op) =>
      if r !in s.reqs && Opening(op).Some? {
        OpeningFits(s, op);
        MoveKeeps(s, r, Opening(op).value);
      }
    case Advance(r, redisOk, clock, now) =>
      if r in s.reqs {
        var q := s.reqs[r];
        if ListStep(q) {
          ListKeeps(s, r, redisOk);
        } else if q.Flush? {
          FlushKeeps(s, r, redisOk);
        } else if q.NewActor? || q.NewAssignee? || q.NewInsert? {
          CreationKeepsCache(s, r, clock, now);
        } else if q.Swap? {
          SwapKeepsCache(s, r, clock, now);
        } else if q.Load? || q.LoadRole? || q.CheckAssignee? {
          UpdateReadKeepsCache(s, r, clock, now);
        } else if OnTeams(q) {
          TeamsKeepCache(s, r, now);
        } else {
          FinishedIdle(s, r, redisOk, clock, now);
        }
      }
    case Lapse(key) => LapseKeeps(s, key);
  }

  lemma KeyedNow(s: Sys)
    requires AllOk(s)
    ensures s.trace != [] && Keyed(Now(s))
  {
    assert Sound(Now(s));
  }

  /** Every run, of the code and of the variant, keeps the invariant. */
  lemma {:induction false} RunFromKeepsCache(start: Sys, events: seq<Event>)
    requires start == INITIAL || start == VARIANT
    ensures CacheOk(RunFrom(start, events))
  {
    if events != [] {
      var past := events[..|events| - 1];
      RunFromKeepsCache(start, past);
      RunFromKeeps(start, past);
      KeyedNow(RunFrom(start, past));
      DoKeepsCache(RunFrom(start, past), events[|events| - 1]);
    }
  }

  lemma RunKeepsCache(events: seq<Event>)
    ensures CacheOk(Run(events))
  {
    RunFromKeepsCache(INITIAL, events);
  }

  // ---------- the properties ----------

  lemma {:induction false} UntouchedTable(s: Sys, team: Id, i: nat, j: nat)
    requires WritesOk(s) && i <= j < |s.trace|
    requires forall w: nat :: i < w <= j ==> !WriteTo(s.writes, w, team)
    ensures SameTable(s.trace[i], s.trace[j], team)
    decreases j
  {
    if i < j {
      UntouchedTable(s, team, i, j - 1);
      assert !WriteTo(s.writes, j, team);
    }
  }

  /** The request was answered from the cache. */
  predicate Hit(s: Sys, r: nat) {
    r in s.reqs && s.reqs[r].Finished? && s.reqs[r].note.Served?
  }

  /** The write was committed after the page was read and before Get read the generation. */
  predicate Missed(s: Sys, note: Note, w: nat)
    requires note.Served?
  {
    WriteTo(s.writes, w, note.filter.teamId) && note.origin.readAt < w <= note.probedAt
  }

  /** Exactly which writes a hit misses: among the team's writes between the page's query and the moment
      Get read the generation, those not yet invalidated at that moment (dirty), and those invalidated
      before Set read the generation although the page does not show them (late). */
  lemma MissedWritesExact(events: seq<Event>, r: nat, w: nat)
    requires Hit(Run(events), r)
    ensures var s := Run(events);
            var note := s.reqs[r].note;
            Missed(s, note, w) <==> w in note.dirty + note.origin.late && note.origin.readAt < w <= note.probedAt
  {
    RunKeepsCache(events);
    MissedAt(Run(events), r, w);
  }

  lemma MissedAt(s: Sys, r: nat, w: nat)
    requires CacheOk(s) && Hit(s, r)
    ensures var note := s.reqs[r].note;
            Missed(s, note, w) <==> w in note.dirty + note.origin.late && note.origin.readAt < w <= note.probedAt
  {
    assert ListReqOk(s, s.reqs[r]);
  }

  /** The page was the answer on a state that was current at some moment between the two reads of Get. */
  ghost predicate Fresh(s: Sys, r: nat, k: nat)
    requires Hit(s, r)
  {
    var note := s.reqs[r].note;
    note.probedAt <= k <= note.servedAt < |s.trace| && Answers(s, s.reqs[r].response, note.filter, k)
  }

  /** A hit that misses no write is fresh. */
  lemma HitFresh(events: seq<Event>, r: nat) returns (k: nat)
    requires Hit(Run(events), r)
    requires forall w: nat :: !Missed(Run(events), Run(events).reqs[r].note, w)
    ensures Fresh(Run(events), r, k)
  {
    RunKeeps(events);
    RunKeepsCache(events);
    k := FreshAt(Run(events), r);
  }

  lemma SamePage(s: Sys, f: TaskFilter, i: nat, j: nat)
    requires WritesOk(s) && Sounds(s.trace) && i <= j < |s.trace| && f.limit >= 0 && f.offset >= 0
    requires forall w: nat :: i < w <= j ==> !WriteTo(s.writes, w, f.teamId)
    ensures PageAt(s.trace, i, f) == PageAt(s.trace, j, f)
  {
    UntouchedTable(s, f.teamId, i, j);
    assert Sound(s.trace[i]) && Sound(s.trace[j]);
    SameQuery(s.trace[i], s.trace[j], f);
  }

  lemma FreshAt(s: Sys, r: nat) returns (k: nat)
    requires CacheOk(s) && Sounds(s.trace) && Hit(s, r)
    requires forall w: nat :: !Missed(s, s.reqs[r].note, w)
    ensures Fresh(s, r, k)
  {
    var Served(f, o, probedAt, servedAt, dirty) := s.reqs[r].note;
    assert ListReqOk(s, s.reqs[r]);
    if o.readAt < probedAt {
      k := probedAt;
      forall w: nat | o.readAt < w <= k ensures !WriteTo(s.writes, w, f.teamId) {
        assert !Missed(s, s.reqs[r].note, w);
      }
      SamePage(s, f, o.readAt, k);
    } else {
      k := o.readAt;
    }
  }

  // ---------- a variant that is not the code ----------

  /** No page is stored, about to be stored or served with a late write. */
  ghost predicate NothingLate(s: Sys) {
    && s.captures
    && (forall k :: k in s.redis && s.redis[k].Payload? ==> s.redis[k].value.origin.late == {})
    && (forall r :: r in s.reqs ==> ReqNotLate(s.reqs[r]))
  }

  predicate ReqNotLate(q: Req) {
    && !q.SetGeneration?
    && (q.SetPage? ==> q.origin.late == {})
    && (q.Finished? && q.note.Served? ==> q.note.origin.late == {})
    && (q.Flush? ==> !q.note.Served?)
  }

  predicate NeverServed(q: Req) {
    !q.SetGeneration? && !q.SetPage? && ((q.Finished? || q.Flush?) ==> !q.note.Served?)
  }

  lemma MovedNotLate(s: Sys, r: nat, t: Sys, q: Req)
    requires NothingLate(s) && ReqNotLate(q)
    requires t.redis == s.redis && t.captures == s.captures && t.reqs == s.reqs[r := q]
    ensures NothingLate(t)
  {
  }

  /** A list request that only looks. */
  predicate LooksOn(q: Req) {
    q.ListRole? || q.GetGeneration? || q.GetPage? || q.RunQuery?
  }

  lemma LookNotLate(s: Sys, r: nat, redisOk: bool)
    requires NothingLate(s) && s.trace != [] && r in s.reqs && LooksOn(s.reqs[r])
    ensures var t := AdvanceList(s, r, s.reqs[r], redisOk); t == Goto(s, r, t.reqs[r]) && ReqNotLate(t.reqs[r])
  {
    hide Query, Generation, Dirty, SelectRole;
  }

  lemma StoreNotLate(s: Sys, r: nat, redisOk: bool)
    requires NothingLate(s) && s.trace != [] && r in s.reqs && s.reqs[r].SetPage?
    ensures NothingLate(AdvanceList(s, r, s.reqs[r], redisOk))
  {
  }

  lemma ListNotLate(s: Sys, r: nat, redisOk: bool)
    requires NothingLate(s) && s.trace != [] && r in s.reqs && ListStep(s.reqs[r])
    ensures NothingLate(AdvanceList(s, r, s.reqs[r], redisOk))
  {
    hide AdvanceList;
    if s.reqs[r].SetPage? {
      StoreNotLate(s, r, redisOk);
    } else {
      var t := AdvanceList(s, r, s.reqs[r], redisOk);
      LookNotLate(s, r, redisOk);
      MovedNotLate(s, r, t, t.reqs[r]);
    }
  }

  lemma TeamsNotLate(s: Sys, r: nat, now: Time)
    requires NothingLate(s) && s.trace != [] && r in s.reqs && OnTeams(s.reqs[r])
    ensures NothingLate(AdvanceTeams(s, r, s.reqs[r], now))
  {
    hide NothingLate;
    TeamsEffect(Now(s), s.reqs[r], |s.trace| - 1, now);
    MovedNotLate(s, r, AdvanceTeams(s, r, s.reqs[r], now), TeamOutcome(Now(s), s.reqs[r], |s.trace| - 1, now).next);
  }

  lemma CreationNotLate(s: Sys, r: nat, clock: Time, now: Time)
    requires NothingLate(s) && s.trace != [] && r in s.reqs
    requires s.reqs[r].NewActor? || s.reqs[r].NewAssignee? || s.reqs[r].NewInsert?
    ensures NothingLate(AdvanceCreation(s, r, s.reqs[r], clock, now))
  {
    hide NothingLate, InsertTask, SelectRole, AssigneeInTeam;
    var t := AdvanceCreation(s, r, s.reqs[r], clock, now);
    MovedNotLate(s, r, t, t.reqs[r]);
  }

  lemma SwapNotLate(s: Sys, r: nat, clock: Time, now: Time)
    requires NothingLate(s) && s.trace != [] && r in s.reqs && s.reqs[r].Swap?
    ensures NothingLate(AdvanceUpdate(s, r, s.reqs[r], clock, now))
  {
    hide NothingLate, CompareAndSwap, UpdateFor, DiffOf;
    var t := AdvanceUpdate(s, r, s.reqs[r], clock, now);
    MovedNotLate(s, r, t, t.reqs[r]);
  }

  lemma UpdateNotLate(s: Sys, r: nat, clock: Time, now: Time)
    requires NothingLate(s) && s.trace != [] && r in s.reqs
    requires s.reqs[r].Load? || s.reqs[r].LoadRole? || s.reqs[r].CheckAssignee?
    ensures NothingLate(AdvanceUpdate(s, r, s.reqs[r], clock, now))
  {
    hide NothingLate, AdvanceUpdate;
    var t := AdvanceUpdate(s, r, s.reqs[r], clock, now);
    UpdateReadEffect(s, r, clock, now);
    MovedNotLate(s, r, t, t.reqs[r]);
  }

  lemma FlushNotLate(s: Sys, r: nat, redisOk: bool)
    requires NothingLate(s) && Tidy(s.redis) && r in s.reqs && s.reqs[r].Flush?
    ensures NothingLate(AdvanceFlush(s, r, s.reqs[r], redisOk))
  {
    IncrementTidy(s.redis, s.reqs[r].teamId);
  }

  lemma OpeningNotLate(op: Op)
    requires Opening(op).Some?
    ensures ReqNotLate(Opening(op).value)
  {
    hide Opening;
    OpeningUnread(op);
  }

  lemma DoNotLate(s: Sys, e: Event)
    requires NothingLate(s) && Tidy(s.redis) && s.trace != []
    ensures NothingLate(Do(s, e))
  {
    hide AdvanceList, AdvanceUpdate, AdvanceCreation, AdvanceTeams, AdvanceFlush;
    if e.Start? && Opening(e.op).Some? {
      OpeningNotLate(e.op);
    }
    hide Opening;
    if e.Advance? && e.r in s.reqs {
      var q := s.reqs[e.r];
      if ListStep(q) {
        ListNotLate(s, e.r, e.redisOk);
      } else if q.Flush? {
        FlushNotLate(s, e.r, e.redisOk);
      } else if q.NewActor? || q.NewAssignee? || q.NewInsert? {
        CreationNotLate(s, e.r, e.clock, e.now);
      } else if q.Swap? {
        SwapNotLate(s, e.r, e.clock, e.now);
      } else if q.Load? || q.LoadRole? || q.CheckAssignee? {
        UpdateNotLate(s, e.r, e.clock, e.now);
      } else if OnTeams(q) {
        TeamsNotLate(s, e.r, e.now);
      } else {
        FinishedIdle(s, e.r, e.redisOk, e.clock, e.now);
      }
    }
  }

  lemma {:induction false} VariantNotLate(events: seq<Event>)
    ensures NothingLate(RunFrom(VARIANT, events))
  {
    if events != [] {
      var past := events[..|events| - 1];
      VariantNotLate(past);
      RunFromKeepsCache(VARIANT, past);
      DoNotLate(RunFrom(VARIANT, past), events[|events| - 1]);
    }
  }

  /** If Set used the generation that Get had read, pending writes would be the only exception: a hit misses
      exactly the team's writes pending when its own Get read the generation, and is fresh if there are none. */
  lemma VariantMissesPendingOnly(events: seq<Event>, r: nat, w: nat) returns (k: nat)
    requires Hit(RunFrom(VARIANT, events), r)
    ensures var s := RunFrom(VARIANT, events);
            var note := s.reqs[r].note;
            && (Missed(s, note, w) <==> w in note.dirty && note.origin.readAt < w <= note.probedAt)
            && (note.dirty == {} ==> Fresh(s, r, k))
  {
    hide CacheOk, Fresh, Missed, Sounds, Evolving, AllReqsOk, AllAccounted;
    RunFromKeeps(VARIANT, events);
    RunFromKeepsCache(VARIANT, events);
    VariantNotLate(events);
    k := PendingOnly(RunFrom(VARIANT, events), r, w);
  }

  lemma PendingOnly(s: Sys, r: nat, w: nat) returns (k: nat)
    requires CacheOk(s) && Sounds(s.trace) && Hit(s, r) && s.reqs[r].note.origin.late == {}
    ensures var note := s.reqs[r].note;
            && (Missed(s, note, w) <==> w in note.dirty && note.origin.readAt < w <= note.probedAt)
            && (note.dirty == {} ==> Fresh(s, r, k))
  {
    hide CacheOk, Sounds, Fresh;
    k := 0;
    MissedAt(s, r, w);
    if s.reqs[r].note.dirty == {} {
      forall v: nat ensures !Missed(s, s.reqs[r].note, v) {
        MissedAt(s, r, v);
      }
      k := FreshAt(s, r);
    }
  }
}
