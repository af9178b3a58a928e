/** The per-address rate limiter: token buckets made on demand, and a collector that deletes idle ones.
    Times are in seconds. The bucket of golang.org/x/time/rate is taken to refill continuously up to
    the burst, to grant a request when it holds at least one token, and to lose nothing to a denial. */
module RateLimiter {
  import opened Outcomes

  datatype Limits = Limits(rps: real, burst: nat, ttl: real) {
    predicate Valid() {
      rps >= 0.0 && ttl >= 0.0
    }

    /** A bucket refills completely within the idle time after which it is deleted. */
    predicate RefillsInTime() {
      burst as real <= rps * ttl
    }
  }

  const SERVER_LIMITS: Limits := Limits(20.0, 40, 600.0)

  datatype Cell = Cell(tokens: real, last: real, lastSeen: real)

  type Buckets = map<string, Cell>

  function Least(a: real, b: real): real {
    if a <= b then a else b
  }

  /** What a bucket gains in some seconds, its capacity aside. */
  function Gain(l: Limits, seconds: real): real {
    l.rps * seconds
  }

  function Refilled(l: Limits, c: Cell, now: real): real {
    Least(l.burst as real, c.tokens + (if now < c.last then 0.0 else Gain(l, now - c.last)))
  }

  lemma GainIs(l: Limits, seconds: real)
    ensures Gain(l, seconds) == l.rps * seconds
  {
  }

  /** A token is there if the burst allows one at all, and enough has flowed in since the last one was taken. */
  lemma TokenThere(l: Limits, tokens: real, last: real, lastSeen: real, now: real)
    ensures var c := Cell(tokens, last, lastSeen);
            && (Refilled(l, c, now) >= 1.0 <==>
                  l.burst >= 1 && tokens + (if now < last then 0.0 else l.rps * (now - last)) >= 1.0)
            && (now >= last ==>
                  Refilled(l, c, now) == (if tokens + l.rps * (now - last) <= l.burst as real
                                          then tokens + l.rps * (now - last) else l.burst as real))
  {
    GainIs(l, now - last);
    hide Gain;
  }

  lemma TokenSeen(l: Limits, c: Cell, now: real)
    ensures Refilled(l, c.(lastSeen := now), now) >= 1.0 <==>
            l.burst >= 1 && c.tokens + (if now < c.last then 0.0 else l.rps * (now - c.last)) >= 1.0
  {
    hide Refilled, Gain;
    TokenThere(l, c.tokens, c.last, now, now);
    assert c.(lastSeen := now) == Cell(c.tokens, c.last, now);
  }

  function NewCell(l: Limits, now: real): Cell {
    Cell(l.burst as real, now, now)
  }

  function Taken(l: Limits, c: Cell, now: real): Cell {
    if Refilled(l, c, now) >= 1.0 then Cell(Refilled(l, c, now) - 1.0, now, c.lastSeen) else c
  }

  function CellFor(l: Limits, m: Buckets, ip: string, now: real): Cell {
    (if ip in m then m[ip] else NewCell(l, now)).(lastSeen := now)
  }

  predicate Grants(l: Limits, m: Buckets, ip: string, now: real) {
    Refilled(l, CellFor(l, m, ip, now), now) >= 1.0
  }

  /** An address without a bucket gets a full one; one with a bucket needs a token in it. */
  lemma GrantsExact(l: Limits, m: Buckets, ip: string, now: real)
    ensures Grants(l, m, ip, now) <==> Refilled(l, CellFor(l, m, ip, now), now) >= 1.0
    ensures Grants(l, m, ip, now) <==>
            && l.burst >= 1
            && (ip in m ==> m[ip].tokens + (if now < m[ip].last then 0.0 else l.rps * (now - m[ip].last)) >= 1.0)
  {
    hide Refilled, Gain;
    if ip in m {
      assert CellFor(l, m, ip, now) == m[ip].(lastSeen := now);
      TokenSeen(l, m[ip], now);
    } else {
      assert CellFor(l, m, ip, now) == Cell(l.burst as real, now, now);
      TokenThere(l, l.burst as real, now, now, now);
    }
  }

  function Requested(l: Limits, m: Buckets, ip: string, now: real): Buckets {
    m[ip := Taken(l, CellFor(l, m, ip, now), now)]
  }

  predicate Idle(l: Limits, c: Cell, now: real) {
    now - c.lastSeen > l.ttl
  }

  function Swept(l: Limits, m: Buckets, now: real): Buckets {
    map ip | ip in m && !Idle(l, m[ip], now) :: m[ip]
  }

  // ---------- the limiter ----------

  class Bucket {
    var tokens: real
    var last: real
    var lastSeen: real

    constructor (l: Limits, now: real)
      ensures State() == NewCell(l, now)
    {
      tokens, last, lastSeen := l.burst as real, now, now;
    }

    function State(): Cell
      reads this
    {
      Cell(tokens, last, lastSeen)
    }

    method Allow(l: Limits, now: real) returns (ok: bool)
      modifies this
      ensures ok == (Refilled(l, old(State()), now) >= 1.0)
      ensures State() == Taken(l, old(State()), now)
      ensures ok <==>
                && l.burst >= 1
                && old(tokens) + (if now < old(last) then 0.0 else l.rps * (now - old(last))) >= 1.0
      ensures lastSeen == old(lastSeen) && (!ok ==> (tokens, last) == old((tokens, last)))
      ensures ok ==> last == now
      ensures ok && now >= old(last) ==>
                tokens == (if old(tokens) + l.rps * (now - old(last)) <= l.burst as real
                           then old(tokens) + l.rps * (now - old(last)) - 1.0
                           else l.burst as real - 1.0)
    {
      TokenThere(l, tokens, last, lastSeen, now);
      hide Refilled, Gain;
      var available := Refilled(l, State(), now);
      ok := available >= 1.0;
      if ok {
        tokens, last := available - 1.0, now;
      }
    }
  }

  class IpRateLimiter {
    const limits: Limits
    var buckets: map<string, Bucket>

    constructor (rps: real, burst: nat, ttl: real)
      ensures Valid() && View() == map[] && limits == Limits(rps, burst, ttl)
    {
      limits, buckets := Limits(rps, burst, ttl), map[];
    }

    /** No two addresses share a bucket. */
    ghost predicate Valid()
      reads this
    {
      forall a, b :: a in buckets && b in buckets && a != b ==> buckets[a] != buckets[b]
    }

    ghost function View(): Buckets
      reads this, buckets.Values
    {
      map ip | ip in buckets :: buckets[ip].State()
    }

    method Allow(ip: string, now: real) returns (ok: bool)
      requires Valid()
      modifies this, buckets.Values
      ensures Valid() && fresh(buckets.Values - old(buckets.Values))
      ensures ok == Grants(limits, old(View()), ip, now)
      ensures View() == Requested(limits, old(View()), ip, now)
      ensures ok <==>
                && limits.burst >= 1
                && old(ip in buckets ==>
                         buckets[ip].tokens + (if now < buckets[ip].last then 0.0
                                               else limits.rps * (now - buckets[ip].last)) >= 1.0)
      ensures ip in buckets && buckets[ip].lastSeen == now
    {
      ghost var m := View();
      GrantsExact(limits, m, ip, now);
      hide Refilled, Gain, Grants, Taken;
      if ip !in buckets {
        var b := new Bucket(limits, now);
        buckets := buckets[ip := b];
      }
      var b := buckets[ip];
      b.lastSeen := now;
      ghost var c := b.State();
      assert c == CellFor(limits, m, ip, now);
      ok := b.Allow(limits, now);
      assert b.State() == Taken(limits, c, now) && ok == Grants(limits, m, ip, now);
    }

    /** One tick of the collector: visits the buckets in an arbitrary order. */
    method Collect(now: real)
      requires Valid()
      modifies this
      ensures Valid() && buckets.Values <= old(buckets.Values)
      ensures View() == Swept(limits, old(View()), now)
      ensures forall ip :: ip in buckets <==> ip in old(buckets) && now - old(buckets[ip].lastSeen) <= limits.ttl
    {
      var todo := buckets.Keys;
      while todo != {}
        invariant todo <= buckets.Keys <= old(buckets.Keys)
        invariant forall ip :: ip in buckets ==> buckets[ip] == old(buckets[ip])
        invariant forall ip :: ip in old(buckets.Keys) ==>
                    (ip in buckets <==> ip in todo || !Idle(limits, old(buckets[ip].State()), now))
        decreases |todo|
      {
        var ip :| ip in todo;
        if now - buckets[ip].lastSeen > limits.ttl {
          buckets := buckets - {ip};
        }
        todo := todo - {ip};
      }
    }
  }

  // ---------- runs ----------

  /** A request from an address, or a tick of the collector. A tick carries the time at which the ticker
      fired, which may lie before the moment at which the collector gets the lock. */
  datatype Event = Request(ip: string, now: real) | Tick(now: real)

  /** The clock does not run backwards: no request sees a time before any earlier event. */
  predicate Orderly(es: seq<Event>) {
    forall i, j :: 0 <= i < j < |es| && es[j].Request? ==> es[i].now <= es[j].now
  }

  /** The buckets after the events, with or without the collector. */
  function After(l: Limits, es: seq<Event>, collects: bool): Buckets {
    if es == [] then map[]
    else Stepped(l, After(l, es[..|es| - 1], collects), es[|es| - 1], collects)
  }

  function Stepped(l: Limits, m: Buckets, e: Event, collects: bool): Buckets {
    match e
    case Request(ip, now) => Requested(l, m, ip, now)
    case Tick(now) => if collects then Swept(l, m, now) else m
  }

  /** The answer to each event; a tick has none. */
  function Answers(l: Limits, es: seq<Event>, collects: bool): (answers: seq<Option<bool>>)
    ensures |answers| == |es|
  {
    if es == [] then []
    else
      Answers(l, es[..|es| - 1], collects) +
      [match es[|es| - 1]
       case Request(ip, now) => Some(Grants(l, After(l, es[..|es| - 1], collects), ip, now))
       case Tick(_) => None]
  }

  /** What an address could take at a time; an address without a bucket would get a full one. */
  function Level(l: Limits, m: Buckets, ip: string, t: real): real {
    if ip in m then Refilled(l, m[ip], t) else l.burst as real
  }

  function LevelAfter(l: Limits, level: real, seconds: real): real {
    Least(l.burst as real, level + Gain(l, seconds))
  }

  /** Every bucket holds between nothing and the burst, and was touched no later than time t. */
  ghost predicate Plausible(l: Limits, m: Buckets, t: real) {
    forall ip :: ip in m ==> 0.0 <= m[ip].tokens <= l.burst as real && m[ip].last <= m[ip].lastSeen <= t
  }

  lemma GainGrows(l: Limits, x: real, y: real)
    requires l.Valid() && x <= y
    ensures Gain(l, x) <= Gain(l, y)
    ensures x >= 0.0 ==> Gain(l, x) >= 0.0
  {
    assert l.rps * (y - x) >= 0.0;
  }

  lemma GainAdds(l: Limits, x: real, y: real)
    ensures Gain(l, x) + Gain(l, y) == Gain(l, x + y)
    ensures Gain(l, 0.0) == 0.0
  {
  }

  lemma LevelBounds(l: Limits, m: Buckets, ip: string, t: real)
    requires l.Valid() && Plausible(l, m, t)
    ensures 0.0 <= Level(l, m, ip, t) <= l.burst as real
  {
    if ip in m {
      GainGrows(l, 0.0, t - m[ip].last);
    }
  }

  lemma NewCellFull(l: Limits, now: real, t: real)
    requires l.Valid() && now <= t
    ensures Refilled(l, NewCell(l, now), t) == l.burst as real
  {
    GainGrows(l, 0.0, t - now);
  }

  lemma CellLevel(l: Limits, m: Buckets, ip: string, now: real, t: real)
    requires l.Valid() && now <= t
    ensures Refilled(l, CellFor(l, m, ip, now), t) == Level(l, m, ip, t)
  {
    if ip !in m {
      NewCellFull(l, now, t);
    }
  }

  lemma TakenLevel(l: Limits, c: Cell, now: real, t: real)
    requires now <= t
    ensures Refilled(l, Taken(l, c, now), t) ==
            if Refilled(l, c, now) >= 1.0
            then LevelAfter(l, Refilled(l, c, now) - 1.0, t - now)
            else Refilled(l, c, t)
  {
  }

  /** A request takes one token if there is one; whoever asks, the other addresses notice nothing. */
  lemma RequestLevels(l: Limits, m: Buckets, ip: string, now: real, other: string, t: real)
    requires l.Valid() && now <= t
    ensures Grants(l, m, ip, now) == (Level(l, m, ip, now) >= 1.0)
    ensures Level(l, Requested(l, m, ip, now), other, t) ==
            if other == ip && Grants(l, m, ip, now)
            then LevelAfter(l, Level(l, m, ip, now) - 1.0, t - now)
            else Level(l, m, other, t)
  {
    CellLevel(l, m, ip, now, now);
    CellLevel(l, m, ip, now, t);
    if other == ip {
      assert Requested(l, m, ip, now)[ip] == Taken(l, CellFor(l, m, ip, now), now);
      TakenLevel(l, CellFor(l, m, ip, now), now, t);
    } else {
      OtherLevel(l, m, ip, now, other, t);
    }
  }

  lemma OtherLevel(l: Limits, m: Buckets, ip: string, now: real, other: string, t: real)
    requires other != ip
    ensures Level(l, Requested(l, m, ip, now), other, t) == Level(l, m, other, t)
  {
  }

  lemma RequestPlausible(l: Limits, m: Buckets, ip: string, now: real)
    requires l.Valid() && Plausible(l, m, now)
    ensures Plausible(l, Requested(l, m, ip, now), now)
  {
    LevelBounds(l, m, ip, now);
  }

  /** A deleted bucket was full, so deleting it changes no level. */
  lemma SweepLevels(l: Limits, m: Buckets, tick: real, ip: string, t: real)
    requires l.Valid() && l.RefillsInTime() && Plausible(l, m, t) && tick <= t
    ensures Level(l, Swept(l, m, tick), ip, t) == Level(l, m, ip, t)
  {
    if ip in m && Idle(l, m[ip], tick) {
      GainGrows(l, l.ttl, t - m[ip].last);
    }
  }

  /** A time that no event is later than. */
  predicate NotBefore(es: seq<Event>, t: real) {
    forall i :: 0 <= i < |es| ==> es[i].now <= t
  }

  lemma PrefixOrderly(es: seq<Event>, n: nat)
    requires Orderly(es) && n <= |es|
    ensures Orderly(es[..n])
    ensures n < |es| && es[n].Request? ==> NotBefore(es[..n], es[n].now)
  {
  }

  lemma {:induction false} AfterPlausible(l: Limits, es: seq<Event>, collects: bool, t: real)
    requires l.Valid() && Orderly(es) && NotBefore(es, t)
    ensures Plausible(l, After(l, es, collects), t)
  {
    if es != [] {
      var n := |es| - 1;
      PrefixOrderly(es, n);
      AfterPlausible(l, es[..n], collects, t);
      if es[n].Request? {
        AfterPlausible(l, es[..n], collects, es[n].now);
        RequestPlausible(l, After(l, es[..n], collects), es[n].ip, es[n].now);
      }
    }
  }

  /** Two limiters that agree on an address's level give it the same answer, and agree afterwards. */
  lemma SameStep(l: Limits, a: Buckets, b: Buckets, e: Event, ip: string, t: real)
    requires l.Valid() && e.Request? && e.now <= t
    requires Level(l, a, e.ip, e.now) == Level(l, b, e.ip, e.now)
    requires Level(l, a, ip, t) == Level(l, b, ip, t)
    ensures Grants(l, a, e.ip, e.now) == Grants(l, b, e.ip, e.now)
    ensures Level(l, Requested(l, a, e.ip, e.now), ip, t) == Level(l, Requested(l, b, e.ip, e.now), ip, t)
  {
    RequestLevels(l, a, e.ip, e.now, ip, t);
    RequestLevels(l, b, e.ip, e.now, ip, t);
  }

  /** With and without the collector, every address always has the same level. */
  lemma {:induction false} SameLevels(l: Limits, es: seq<Event>, ip: string, t: real)
    requires l.Valid() && l.RefillsInTime() && Orderly(es) && NotBefore(es, t)
    ensures Level(l, After(l, es, true), ip, t) == Level(l, After(l, es, false), ip, t)
  {
    if es != [] {
      var n := |es| - 1;
      var e := es[n];
      PrefixOrderly(es, n);
      SameLevels(l, es[..n], ip, t);
      var a, b := After(l, es[..n], true), After(l, es[..n], false);
      if e.Request? {
        SameLevels(l, es[..n], e.ip, e.now);
        SameStep(l, a, b, e, ip, t);
      } else {
        AfterPlausible(l, es[..n], true, t);
        SweepLevels(l, a, e.now, ip, t);
      }
    }
  }

  /** Deleting idle buckets cannot be observed: every request of every run gets the answer that a
      limiter without a collector gives. */
  lemma {:induction false} EvictionUnobservable(l: Limits, es: seq<Event>)
    requires l.Valid() && l.RefillsInTime() && Orderly(es)
    ensures Answers(l, es, true) == Answers(l, es, false)
  {
    if es != [] {
      var n := |es| - 1;
      PrefixOrderly(es, n);
      EvictionUnobservable(l, es[..n]);
      if es[n].Request? {
        SameLevels(l, es[..n], es[n].ip, es[n].now);
        SameStep(l, After(l, es[..n], true), After(l, es[..n], false), es[n], es[n].ip, es[n].now);
      }
    }
  }

  // ---------- how much an address can get ----------

  /** How many requests of the address among the events from i up to j were granted. */
  function Granted(l: Limits, es: seq<Event>, collects: bool, ip: string, i: nat, j: nat): nat
    requires i <= j <= |es|
    decreases j
  {
    if i == j then 0
    else
      var e := es[j - 1];
      Granted(l, es, collects, ip, i, j - 1) +
      (if e.Request? && e.ip == ip && Answers(l, es, collects)[j - 1] == Some(true) then 1 else 0)
  }

  /** The requests among the events from i up to j fall between the two times. */
  predicate Within(es: seq<Event>, i: nat, j: nat, from: real, to: real)
    requires i <= j <= |es|
  {
    forall k :: i <= k < j && es[k].Request? ==> from <= es[k].now <= to
  }

  lemma {:induction false} AnswerAt(l: Limits, es: seq<Event>, collects: bool, k: nat)
    requires k < |es|
    ensures Answers(l, es, collects)[k] ==
            match es[k]
            case Request(ip, now) => Some(Grants(l, After(l, es[..k], collects), ip, now))
            case Tick(_) => None
  {
    var n := |es| - 1;
    if k < n {
      AnswerAt(l, es[..n], collects, k);
      assert es[..n][..k] == es[..k];
    }
  }

  /** What was granted so far and what is left at time t stay within the burst and the refill. */
  predicate WithinBudget(l: Limits, granted: nat, left: real, from: real, t: real) {
    granted as real + left <= l.burst as real + Gain(l, t - from)
  }

  lemma BudgetStep(l: Limits, m: Buckets, e: Event, granted: nat, ip: string, from: real, t: real)
    requires l.Valid() && e.Request? && from <= e.now <= t
    requires WithinBudget(l, granted, Level(l, m, ip, e.now), from, e.now)
    requires WithinBudget(l, granted, Level(l, m, ip, t), from, t)
    ensures WithinBudget(l, if e.ip == ip && Grants(l, m, e.ip, e.now) then granted + 1 else granted,
                         Level(l, Requested(l, m, e.ip, e.now), ip, t), from, t)
  {
    var left := Level(l, m, ip, e.now);
    var after := Level(l, Requested(l, m, e.ip, e.now), ip, t);
    RequestLevels(l, m, e.ip, e.now, ip, t);
    if e.ip == ip && Grants(l, m, e.ip, e.now) {
      assert after <= left - 1.0 + Gain(l, t - e.now);
      Spend(l, granted, left, after, from, e.now, t);
    }
  }

  lemma Spend(l: Limits, granted: nat, left: real, after: real, from: real, now: real, t: real)
    requires WithinBudget(l, granted, left, from, now) && after <= left - 1.0 + Gain(l, t - now)
    ensures WithinBudget(l, granted + 1, after, from, t)
  {
    GainAdds(l, t - now, now - from);
  }

  lemma BudgetStart(l: Limits, m: Buckets, ip: string, from: real, t: real)
    requires l.Valid() && Plausible(l, m, t) && from <= t
    ensures WithinBudget(l, 0, Level(l, m, ip, t), from, t)
  {
    LevelBounds(l, m, ip, t);
    GainGrows(l, 0.0, t - from);
  }

  lemma {:induction false} Budget(l: Limits, es: seq<Event>, ip: string, i: nat, j: nat, from: real, t: real)
    requires l.Valid() && Orderly(es) && i <= j <= |es|
    requires from <= t && Within(es, i, j, from, t) && NotBefore(es[..j], t)
    ensures WithinBudget(l, Granted(l, es, false, ip, i, j), Level(l, After(l, es[..j], false), ip, t), from, t)
    decreases j
  {
    PrefixOrderly(es, j);
    if i == j {
      AfterPlausible(l, es[..j], false, t);
      BudgetStart(l, After(l, es[..j], false), ip, from, t);
    } else {
      var e := es[j - 1];
      assert es[..j][..j - 1] == es[..j - 1] && es[..j][j - 1] == e;
      AnswerAt(l, es, false, j - 1);
      Budget(l, es, ip, i, j - 1, from, t);
      if e.Request? {
        PrefixOrderly(es, j - 1);
        Budget(l, es, ip, i, j - 1, from, e.now);
        BudgetStep(l, After(l, es[..j - 1], false), e, Granted(l, es, false, ip, i, j - 1), ip, from, t);
      }
    }
  }

  lemma {:induction false} SameGranted(l: Limits, es: seq<Event>, ip: string, i: nat, j: nat)
    requires i <= j <= |es| && Answers(l, es, true) == Answers(l, es, false)
    ensures Granted(l, es, true, ip, i, j) == Granted(l, es, false, ip, i, j)
    decreases j
  {
    if i < j {
      SameGranted(l, es, ip, i, j - 1);
    }
  }

  /** The requests of the address among the events from i up to j that were granted. */
  function Passed(es: seq<Event>, answers: seq<Option<bool>>, ip: string, i: nat, j: nat): set<int>
    requires i <= j <= |es| == |answers|
  {
    set k | i <= k < j && es[k].Request? && es[k].ip == ip && answers[k] == Some(true)
  }

  /** In any run and any window of events whose requests fall into d seconds, an address gets at most
      burst + rps * d requests through, even if its bucket is deleted and made again in between. */
  lemma RateBound(l: Limits, es: seq<Event>, ip: string, i: nat, j: nat, from: real, d: real)
    requires l.Valid() && l.RefillsInTime() && Orderly(es) && i <= j <= |es|
    requires d >= 0.0 && Within(es, i, j, from, from + d)
    ensures |Passed(es, Answers(l, es, true), ip, i, j)| as real
            <= l.burst as real + l.rps * d
  {
    hide Answers, Passed, Granted, Orderly, Within;
    EvictionUnobservable(l, es);
    SameGranted(l, es, ip, i, j);
    GrantedCounts(l, es, true, ip, i, j);
    BudgetWithin(l, es, ip, i, j, from, d);
  }

  /** The number of granted requests is what it says. */
  lemma {:induction false} GrantedCounts(l: Limits, es: seq<Event>, collects: bool, ip: string, i: nat, j: nat)
    requires i <= j <= |es|
    ensures Granted(l, es, collects, ip, i, j) ==
            |Passed(es, Answers(l, es, collects), ip, i, j)|
    decreases j
  {
    hide Answers;
    var passed := Passed(es, Answers(l, es, collects), ip, i, j);
    if i == j {
      assert passed == {};
    } else {
      var e := es[j - 1];
      GrantedCounts(l, es, collects, ip, i, j - 1);
      var earlier := Passed(es, Answers(l, es, collects), ip, i, j - 1);
      if e.Request? && e.ip == ip && Answers(l, es, collects)[j - 1] == Some(true) {
        assert passed == earlier + {j - 1};
      } else {
        assert passed == earlier;
      }
    }
  }

  lemma BudgetSpent(l: Limits, granted: nat, left: real, from: real, now: real, d: real)
    requires l.Valid() && WithinBudget(l, granted, left, from, now) && left >= 0.0 && now - from <= d
    ensures granted as real <= l.burst as real + Gain(l, d)
  {
    GainGrows(l, now - from, d);
  }

  /** Ticks at the end of the window change nothing, so only the last request matters. */
  lemma {:induction false} BudgetWithin(l: Limits, es: seq<Event>, ip: string, i: nat, j: nat, from: real, d: real)
    requires l.Valid() && Orderly(es) && i <= j <= |es|
    requires d >= 0.0 && Within(es, i, j, from, from + d)
    ensures Granted(l, es, false, ip, i, j) as real <= l.burst as real + Gain(l, d)
    decreases j
  {
    if i == j {
      GainGrows(l, 0.0, d);
    } else if es[j - 1].Tick? {
      BudgetWithin(l, es, ip, i, j - 1, from, d);
    } else {
      var now := es[j - 1].now;
      PrefixOrderly(es, j);
      Budget(l, es, ip, i, j, from, now);
      AfterPlausible(l, es[..j], false, now);
      LevelBounds(l, After(l, es[..j], false), ip, now);
      BudgetSpent(l, Granted(l, es, false, ip, i, j), Level(l, After(l, es[..j], false), ip, now), from, now, d);
    }
  }

  // ---------- which requests are let through ----------

  /** The level is the burst, or what the earlier request i has left of the burst and the refill since then. */
  predicate Tight(l: Limits, es: seq<Event>, ip: string, n: nat, t: real, level: real, i: nat)
    requires n <= |es|
  {
    || level == l.burst as real
    || (i < n && es[i].Request? && es[i].ip == ip
        && Granted(l, es, false, ip, i, n) as real + level == l.burst as real + Gain(l, t - es[i].now))
  }

  lemma GrantedStep(l: Limits, es: seq<Event>, ip: string, i: nat, n: nat)
    requires i <= n < |es|
    ensures Granted(l, es, false, ip, i, n + 1) ==
            Granted(l, es, false, ip, i, n) +
            (if es[n].Request? && es[n].ip == ip && Grants(l, After(l, es[..n], false), ip, es[n].now) then 1 else 0)
    ensures Granted(l, es, false, ip, n, n) == 0
  {
    AnswerAt(l, es, false, n);
  }

  /** A granted request leaves one token less, and is the latest to count from if the bucket was full. */
  lemma TightGranted(l: Limits, es: seq<Event>, n: nat, t: real, level: real, i: nat, after: real) returns (j: nat)
    requires n < |es| && es[n].Request? && es[n].now <= t
    requires Grants(l, After(l, es[..n], false), es[n].ip, es[n].now)
    requires Tight(l, es, es[n].ip, n, es[n].now, level, i) && after == LevelAfter(l, level - 1.0, t - es[n].now)
    ensures Tight(l, es, es[n].ip, n + 1, t, after, j)
  {
    j := if level == l.burst as real then n else i;
    GrantedStep(l, es, es[n].ip, n, n);
    if level != l.burst as real {
      GrantedStep(l, es, es[n].ip, i, n);
      GainAdds(l, es[n].now - es[i].now, t - es[n].now);
    }
  }

  lemma TightOther(l: Limits, es: seq<Event>, ip: string, n: nat, t: real, level: real, i: nat)
    requires n < |es| && Tight(l, es, ip, n, t, level, i)
    requires es[n].Tick? || es[n].ip != ip || !Grants(l, After(l, es[..n], false), ip, es[n].now)
    ensures Tight(l, es, ip, n + 1, t, level, i)
  {
    if i < n {
      GrantedStep(l, es, ip, i, n);
    }
  }

  lemma {:induction false} LevelTight(l: Limits, es: seq<Event>, ip: string, n: nat, t: real) returns (i: nat)
    requires l.Valid() && Orderly(es) && n <= |es| && NotBefore(es[..n], t)
    ensures Tight(l, es, ip, n, t, Level(l, After(l, es[..n], false), ip, t), i)
    decreases n
  {
    i := 0;
    if n != 0 {
      var e, past := es[n - 1], es[..n - 1];
      assert es[..n][..n - 1] == past && es[..n][n - 1] == e;
      var m := After(l, past, false);
      PrefixOrderly(es, n - 1);
      hide Tight, Level, Grants, LevelAfter, Orderly;
      if e.Request? {
        RequestLevels(l, m, e.ip, e.now, ip, t);
      }
      if e.Request? && e.ip == ip && Grants(l, m, ip, e.now) {
        var k := LevelTight(l, es, ip, n - 1, e.now);
        i := TightGranted(l, es, n - 1, t, Level(l, m, ip, e.now), k, Level(l, After(l, es[..n], false), ip, t));
      } else {
        i := LevelTight(l, es, ip, n - 1, t);
        TightOther(l, es, ip, n - 1, t, Level(l, m, ip, t), i);
      }
    }
  }

  lemma SinceRequest(es: seq<Event>, i: nat, n: nat)
    requires Orderly(es) && i < n < |es| && es[i].Request? && es[n].Request?
    ensures es[i].now <= es[n].now && Within(es, i, n, es[i].now, es[n].now) && NotBefore(es[..n], es[n].now)
  {
    PrefixOrderly(es, n);
  }

  lemma LevelDecides(l: Limits, es: seq<Event>, n: nat)
    requires l.Valid() && Orderly(es) && n < |es| && es[n].Request?
    ensures var level := Level(l, After(l, es[..n], false), es[n].ip, es[n].now);
            && 0.0 <= level <= l.burst as real
            && (Answers(l, es, false)[n] == Some(false) <==> level < 1.0)
  {
    PrefixOrderly(es, n);
    AnswerAt(l, es, false, n);
    RequestLevels(l, After(l, es[..n], false), es[n].ip, es[n].now, es[n].ip, es[n].now);
    AfterPlausible(l, es[..n], false, es[n].now);
    LevelBounds(l, After(l, es[..n], false), es[n].ip, es[n].now);
  }

  /** From request i on, the address has been granted so much that not one more token is left. */
  ghost predicate Spent(l: Limits, es: seq<Event>, i: nat, n: nat)
    requires i < n < |es| && es[n].Request?
  {
    && es[i].Request? && es[i].ip == es[n].ip
    && Granted(l, es, false, es[n].ip, i, n) as real + 1.0 > l.burst as real + Gain(l, es[n].now - es[i].now)
  }

  lemma SpentDenies(l: Limits, es: seq<Event>, i: nat, n: nat)
    requires l.Valid() && Orderly(es) && i < n < |es| && es[n].Request? && Spent(l, es, i, n)
    ensures Answers(l, es, false)[n] == Some(false)
  {
    SinceRequest(es, i, n);
    Budget(l, es, es[n].ip, i, n, es[i].now, es[n].now);
    LevelDecides(l, es, n);
  }

  lemma DenialSpent(l: Limits, es: seq<Event>, n: nat) returns (i: nat)
    requires l.Valid() && Orderly(es) && n < |es| && es[n].Request? && Answers(l, es, false)[n] == Some(false)
    ensures l.burst < 1 || (i < n && Spent(l, es, i, n))
  {
    LevelDecides(l, es, n);
    PrefixOrderly(es, n);
    i := LevelTight(l, es, es[n].ip, n, es[n].now);
  }

  /** Request i is of the same address as request n, and what was granted to the address from i on, and one more,
      are more than the burst and the refill since i. */
  ghost predicate SpentSince(l: Limits, es: seq<Event>, i: nat, n: nat)
    requires i < n < |es| && es[n].Request?
  {
    && es[i].Request? && es[i].ip == es[n].ip
    && |Passed(es, Answers(l, es, true), es[n].ip, i, n)| as real + 1.0 >
       l.burst as real + l.rps * (es[n].now - es[i].now)
  }

  /** The exact law: of an orderly run, a request is denied if and only if the burst is less than one, or, for
      some earlier request of the same address, what was granted to the address from that one on, and this
      request, are more than the burst and the refill since then allow. */
  lemma AnswerExact(l: Limits, es: seq<Event>, n: nat)
    requires l.Valid() && l.RefillsInTime() && Orderly(es) && n < |es| && es[n].Request?
    ensures Answers(l, es, true)[n] == Some(false) <==>
            l.burst < 1 || exists i: nat :: i < n && SpentSince(l, es, i, n)
  {
    hide Answers, Granted, Orderly, Passed;
    EvictionUnobservable(l, es);
    LevelDecides(l, es, n);
    forall i: nat | i < n ensures Spent(l, es, i, n) <==> SpentSince(l, es, i, n) {
      GrantedCounts(l, es, false, es[n].ip, i, n);
    }
    if Answers(l, es, false)[n] == Some(false) {
      var i := DenialSpent(l, es, n);
      assert l.burst >= 1 ==> SpentSince(l, es, i, n);
    } else {
      forall i: nat | i < n ensures !SpentSince(l, es, i, n) {
        if Spent(l, es, i, n) {
          SpentDenies(l, es, i, n);
        }
      }
    }
  }

  /** The law for the limiter that the server makes. */
  lemma ServerAnswer(es: seq<Event>, n: nat)
    requires Orderly(es) && n < |es| && es[n].Request?
    ensures Answers(SERVER_LIMITS, es, true)[n] == Some(false) <==>
            exists i: nat :: i < n && es[i].Request? && es[i].ip == es[n].ip &&
              |Passed(es, Answers(SERVER_LIMITS, es, true), es[n].ip, i, n)| as real + 1.0 >
              40.0 + 20.0 * (es[n].now - es[i].now)
  {
    hide Answers, Passed, Orderly;
    AnswerExact(SERVER_LIMITS, es, n);
    forall i: nat | i < n
      ensures SpentSince(SERVER_LIMITS, es, i, n) <==>
              es[i].Request? && es[i].ip == es[n].ip
              && |Passed(es, Answers(SERVER_LIMITS, es, true), es[n].ip, i, n)| as real + 1.0 >
                 40.0 + 20.0 * (es[n].now - es[i].now)
    {
    }
  }

  /** The limiter the server makes: deletion cannot be observed, and no address gets more than
      40 + 20 d requests through in d seconds. */
  lemma ServerBound(es: seq<Event>, ip: string, i: nat, j: nat, from: real, d: real)
    requires Orderly(es) && i <= j <= |es| && d >= 0.0 && Within(es, i, j, from, from + d)
    ensures Answers(SERVER_LIMITS, es, true) == Answers(SERVER_LIMITS, es, false)
    ensures |Passed(es, Answers(SERVER_LIMITS, es, true), ip, i, j)| as real <= 40.0 + 20.0 * d
  {
    EvictionUnobservable(SERVER_LIMITS, es);
    RateBound(SERVER_LIMITS, es, ip, i, j, from, d);
  }

  // ---------- the configuration matters ----------

  /** k requests from an address at one moment. */
  function Volley(ip: string, t: real, k: nat): (es: seq<Event>)
    ensures |es| == k && forall i :: 0 <= i < k ==> es[i] == Request(ip, t)
  {
    seq(k, _ => Request(ip, t))
  }

  lemma {:induction false} GrantedOfPrefix(l: Limits, es: seq<Event>, ip: string, n: nat, j: nat)
    requires j <= n <= |es|
    ensures Granted(l, es[..n], true, ip, 0, j) == Granted(l, es, true, ip, 0, j)
    decreases j
  {
    if j != 0 {
      GrantedOfPrefix(l, es, ip, n, j - 1);
      AnswerAt(l, es[..n], true, j - 1);
      AnswerAt(l, es, true, j - 1);
      assert es[..n][..j - 1] == es[..j - 1];
    }
  }

  /** Of the requests added to es, k were granted; that many tokens are gone. */
  predicate Took(l: Limits, es: seq<Event>, more: seq<Event>, ip: string, t: real, k: nat) {
    && Granted(l, more, true, ip, 0, |more|) == Granted(l, es, true, ip, 0, |es|) + k
    && Level(l, After(l, more, true), ip, t) == Level(l, After(l, es, true), ip, t) - k as real
  }

  predicate SeenAt(m: Buckets, ip: string, t: real) {
    ip in m && m[ip].lastSeen == t
  }

  lemma OneMore(l: Limits, es: seq<Event>, ip: string, t: real)
    requires l.Valid() && 1.0 <= Level(l, After(l, es, true), ip, t) <= l.burst as real
    ensures Took(l, es, es + [Request(ip, t)], ip, t, 1)
    ensures SeenAt(After(l, es + [Request(ip, t)], true), ip, t)
  {
    var more := es + [Request(ip, t)];
    assert more[..|es|] == es;
    AnswerAt(l, more, true, |es|);
    GrantedOfPrefix(l, more, ip, |es|, |es|);
    RequestLevels(l, After(l, es, true), ip, t, ip, t);
    GainAdds(l, 0.0, 0.0);
  }

  lemma TookMore(l: Limits, es: seq<Event>, some: seq<Event>, more: seq<Event>, ip: string, t: real, k: nat)
    requires Took(l, es, some, ip, t, k) && Took(l, some, more, ip, t, 1)
    ensures Took(l, es, more, ip, t, k + 1)
  {
  }

  lemma EnoughLeft(l: Limits, es: seq<Event>, some: seq<Event>, ip: string, t: real, k: nat)
    requires Took(l, es, some, ip, t, k) && (k + 1) as real <= Level(l, After(l, es, true), ip, t) <= l.burst as real
    ensures 1.0 <= Level(l, After(l, some, true), ip, t) <= l.burst as real
  {
  }

  /** As many requests as there are tokens are all granted. */
  lemma {:induction false} VolleyGranted(l: Limits, es: seq<Event>, ip: string, t: real, k: nat)
    requires l.Valid() && k as real <= Level(l, After(l, es, true), ip, t) <= l.burst as real
    ensures Took(l, es, es + Volley(ip, t, k), ip, t, k)
    ensures k > 0 ==> SeenAt(After(l, es + Volley(ip, t, k), true), ip, t)
  {
    if k == 0 {
      assert es + Volley(ip, t, 0) == es;
    } else {
      var some := es + Volley(ip, t, k - 1);
      VolleyGranted(l, es, ip, t, k - 1);
      EnoughLeft(l, es, some, ip, t, k - 1);
      OneMore(l, some, ip, t);
      assert es + Volley(ip, t, k) == some + [Request(ip, t)];
      TookMore(l, es, some, some + [Request(ip, t)], ip, t, k - 1);
    }
  }

  /** A moment by which an idle bucket is deleted although it is not full yet. */
  lemma TooEarly(l: Limits) returns (t: real)
    requires l.Valid() && !l.RefillsInTime()
    ensures t > l.ttl && Gain(l, t) < l.burst as real
  {
    if l.rps == 0.0 {
      t := l.ttl + 1.0;
    } else {
      var spare := l.burst as real - Gain(l, l.ttl);
      t := l.ttl + spare / 2.0 / l.rps;
      GainAdds(l, l.ttl, spare / 2.0 / l.rps);
      assert l.rps * (spare / 2.0 / l.rps) == spare / 2.0;
    }
  }

  /** An address empties its bucket and then waits for the collector's tick at time t. */
  function EmptyAndWait(l: Limits, t: real): seq<Event> {
    Volley("", 0.0, l.burst) + [Tick(t)]
  }

  lemma BucketDeleted(l: Limits, t: real)
    requires l.Valid() && l.burst > 0 && t > l.ttl
    ensures "" !in After(l, EmptyAndWait(l, t), true)
    ensures Granted(l, EmptyAndWait(l, t), true, "", 0, l.burst + 1) == l.burst
  {
    hide Requested, Volley;
    var first, n := Volley("", 0.0, l.burst), l.burst;
    VolleyGranted(l, [], "", 0.0, n);
    assert [] + first == first;
    assert EmptyAndWait(l, t)[..n] == first;
    GrantedOfPrefix(l, EmptyAndWait(l, t), "", n, n);
  }

  lemma AllGranted(l: Limits, t: real)
    requires l.Valid() && l.burst > 0 && t > l.ttl
    ensures var es := EmptyAndWait(l, t) + Volley("", t, l.burst);
            Granted(l, es, true, "", 0, |es|) == 2 * l.burst
  {
    BucketDeleted(l, t);
    VolleyGranted(l, EmptyAndWait(l, t), "", t, l.burst);
  }

  /** With a bucket that does not refill in time, some run shows the deletion: the address empties its
      bucket, waits until the bucket is deleted, and then gets a full burst again. */
  lemma EvictionVisible(l: Limits) returns (es: seq<Event>)
    requires l.Valid() && !l.RefillsInTime()
    ensures Orderly(es) && Answers(l, es, true) != Answers(l, es, false)
  {
    GainGrows(l, 0.0, l.ttl);
    var t := TooEarly(l);
    es := EmptyAndWait(l, t) + Volley("", t, l.burst);
    TwoVolleys(l, t);
    AllGranted(l, t);
    if Answers(l, es, true) == Answers(l, es, false) {
      SameGranted(l, es, "", 0, |es|);
      BudgetWithin(l, es, "", 0, |es|, 0.0, t);
    }
  }

  lemma TwoVolleys(l: Limits, t: real)
    requires t >= 0.0
    ensures var es := EmptyAndWait(l, t) + Volley("", t, l.burst);
            Orderly(es) && Within(es, 0, |es|, 0.0, t)
  {
  }

  /** Exactly when deletion cannot be observed: when a bucket refills within the idle time. */
  lemma EvictionExact(l: Limits)
    requires l.Valid()
    ensures (forall es :: Orderly(es) ==> Answers(l, es, true) == Answers(l, es, false)) <==> l.RefillsInTime()
  {
    if l.RefillsInTime() {
      forall es | Orderly(es) ensures Answers(l, es, true) == Answers(l, es, false) {
        EvictionUnobservable(l, es);
      }
    } else {
      var _ := EvictionVisible(l);
    }
  }
}
