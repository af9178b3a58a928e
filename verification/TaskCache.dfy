/** The page cache: keys that embed the team's generation, filled on a miss and left behind when a write
    moves the generation on. */
module TaskCache {
  import opened Outcomes
  import opened Domain
  import opened Redis

  /** Which Redis calls of a request take effect; the others fail, and their errors are only logged. */
  datatype Calls = Calls(getGeneration: bool, getPage: bool, setGeneration: bool, setPage: bool, incr: bool)

  type Pages = Keyspace<TaskPage>

  function Got(redis: Pages, enabled: bool, f: TaskFilter, calls: Calls): Option<TaskPage> {
    if !enabled || !calls.getGeneration || Generation(redis, f.teamId).Err? || !calls.getPage then None
    else Lookup(redis, f, Generation(redis, f.teamId).value)
  }

  function Filled(redis: Pages, enabled: bool, f: TaskFilter, page: TaskPage, calls: Calls): Pages {
    if !enabled || !calls.setGeneration || Generation(redis, f.teamId).Err? || !calls.setPage then redis
    else Store(redis, f, Generation(redis, f.teamId).value, page)
  }

  function Invalidated(redis: Pages, enabled: bool, team: Id, calls: Calls): Pages {
    if enabled && calls.incr then Increment(redis, team) else redis
  }

  class PageCache {
    const enabled: bool
    var redis: Pages

    constructor (enabled: bool)
      ensures this.enabled == enabled && redis == map[]
    {
      this.enabled, redis := enabled, map[];
    }

    method ReadGeneration(team: Id, reachable: bool) returns (res: Result<int, ()>)
      ensures res == if reachable then Generation(redis, team) else Err(())
    {
      var key := GenerationKey(team);
      if !reachable {
        return Err(());
      }
      if key !in redis {
        return Ok(0);
      }
      res := if redis[key].Counter? then Ok(redis[key].n) else Err(());
    }

    method Get(f: TaskFilter, calls: Calls) returns (hit: Option<TaskPage>)
      ensures hit == Got(redis, enabled, f, calls)
    {
      if !enabled {
        return None;
      }
      var gen := ReadGeneration(f.teamId, calls.getGeneration);
      if gen.Err? || !calls.getPage {
        return None;
      }
      var key := BuildListKey(f, gen.value);
      hit := if key in redis && redis[key].Payload? then Some(redis[key].value) else None;
    }

    method Set(f: TaskFilter, page: TaskPage, calls: Calls)
      modifies this
      ensures redis == Filled(old(redis), enabled, f, page, calls)
    {
      if !enabled {
        return;
      }
      var gen := ReadGeneration(f.teamId, calls.setGeneration);
      if gen.Err? || !calls.setPage {
        return;
      }
      var key := BuildListKey(f, gen.value);
      redis := redis[key := Payload(page)];
    }

    method Invalidate(team: Id, calls: Calls)
      modifies this
      ensures redis == Invalidated(old(redis), enabled, team, calls)
    {
      if !enabled || !calls.incr {
        return;
      }
      var key := GenerationKey(team);
      if key !in redis {
        redis := redis[key := Counter(1)];
      } else if redis[key].Counter? {
        redis := redis[key := Counter(redis[key].n + 1)];
      }
    }

    /** The lifetime of a page runs out. */
    method Lapse(key: string)
      modifies this
      ensures redis == Expire(old(redis), key)
    {
      if key in redis && redis[key].Payload? {
        redis := redis - {key};
      }
    }
  }
}
