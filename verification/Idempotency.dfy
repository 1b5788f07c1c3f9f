/** The idempotency middleware of `ledger/fundsflow/idempotency.py`: the store, the process-local cache and
    one call of `execute` that nothing else interleaves with. A request hash is represented by the
    payload it is taken from. */
module Idempotency {
  datatype Option<T> = None | Some(value: T)

  datatype Record = Record(digest: string, response: string, expiresAt: int, inProgress: bool)

  type Records = map<string, Record>

  /** The record a reader sees at `now`: expired entries are absent. */
  function Live(m: Records, key: string, now: int): Option<Record> {
    if key in m && m[key].expiresAt > now then Some(m[key]) else None
  }

  /** What a read leaves behind: it deletes the entry it finds expired. */
  function Evicted(m: Records, key: string, now: int): Records {
    if key in m && m[key].expiresAt <= now then m - {key} else m
  }

  datatype Claimed = Claimed(store: Records, existing: Option<Record>)

  function PutIfAbsent(m: Records, key: string, r: Record, now: int): Claimed {
    if Live(m, key, now).Some? then Claimed(m, Live(m, key, now)) else Claimed(m[key := r], None)
  }

  const LOCAL_CACHE_MAX: nat := 10_000

  /** The local cache forgets everything when it is full. */
  function LocalPut(local: Records, key: string, r: Record): Records {
    (if |local| >= LOCAL_CACHE_MAX then map[] else local)[key := r]
  }

  datatype FnResult = Succeeds(response: string) | Fails

  datatype Answer = Response(response: string) | Conflict | InProgress | Raises | KeyRequired

  datatype Side = Side(now: int, store: Records, local: Records, executions: nat, localHits: nat)

  datatype Executed = Executed(side: Side, answer: Answer)

  /** What a call does once it holds the claim; `fn` takes `took` seconds. */
  function Perform(s: Side, key: string, digest: string, expiresAt: int, took: nat, fn: FnResult): Executed {
    var later := s.(now := s.now + took);
    match fn
    case Fails => Executed(later.(store := s.store - {key}, local := s.local - {key}), Raises)
    case Succeeds(response) =>
      var r := Record(digest, response, expiresAt, false);
      Executed(later.(store := s.store[key := r], local := LocalPut(s.local, key, r), executions := s.executions + 1),
               Response(response))
  }

  /** The answer to a caller that finds record `r` under its key. */
  function AnswerFrom(r: Record, digest: string): Answer {
    if r.digest != digest then Conflict else if r.inProgress then InProgress else Response(r.response)
  }

  function Execute(s: Side, key: string, digest: string, ttl: int, took: nat, fn: FnResult): Executed {
    if key == "" then Executed(s, KeyRequired)
    else
      var s1 := s.(local := Evicted(s.local, key, s.now));
      match Live(s.local, key, s.now)
      case Some(cached) =>
        if cached.digest != digest then Executed(s1, Conflict)
        else Executed(s1.(localHits := s.localHits + 1), Response(cached.response))
      case None =>
        var claim := PutIfAbsent(s.store, key, Record(digest, "", s.now + ttl, true), s.now);
        match claim.existing
        case None => Perform(s1.(store := claim.store), key, digest, s.now + ttl, took, fn)
        case Some(r) =>
          var answer := AnswerFrom(r, digest);
          Executed(s1.(local := if answer.Response? then LocalPut(s1.local, key, r) else s1.local), answer)
  }

  // ---------------------------------------------------------------------------
  // Objects
  // ---------------------------------------------------------------------------

  class Clock {
    var now: int

    constructor (now: int)
      ensures this.now == now
    {
      this.now := now;
    }

    method Advance(seconds: nat)
      modifies this
      ensures now == old(now) + seconds
    {
      now := now + seconds;
    }
  }

  class InMemoryIdempotencyStore {
    var data: Records
    const clock: Clock

    constructor (clock: Clock)
      ensures data == map[] && this.clock == clock
    {
      data := map[];
      this.clock := clock;
    }

    method Get(key: string) returns (r: Option<Record>)
      modifies this
      ensures r == Live(old(data), key, clock.now) && data == Evicted(old(data), key, clock.now)
    {
      if key !in data {
        return None;
      }
      if data[key].expiresAt <= clock.now {
        data := data - {key};
        return None;
      }
      return Some(data[key]);
    }

    method Put(key: string, r: Record)
      modifies this
      ensures data == old(data)[key := r]
    {
      data := data[key := r];
    }

    method Claim(key: string, r: Record) returns (existing: Option<Record>)
      modifies this
      ensures Claimed(data, existing) == PutIfAbsent(old(data), key, r, clock.now)
    {
      existing := if key in data then Some(data[key]) else None;
      if existing.Some? && existing.value.expiresAt <= clock.now {
        data := data - {key};
        existing := None;
      }
      if existing.Some? {
        return;
      }
      data := data[key := r];
      assert data == old(data)[key := r];
    }

    method Delete(key: string)
      modifies this
      ensures data == old(data) - {key}
    {
      data := data - {key};
    }
  }

  class IdempotencyMiddleware {
    const store: InMemoryIdempotencyStore
    const clock: Clock
    var local: Records
    var executions: nat
    var localHits: nat

    constructor (store: InMemoryIdempotencyStore)
      ensures this.store == store && clock == store.clock && local == map[] && executions == 0 && localHits == 0
    {
      this.store, clock := store, store.clock;
      local, executions, localHits := map[], 0, 0;
    }

    function Model(): Side
      reads this, store, clock
    {
      Side(clock.now, store.data, local, executions, localHits)
    }

    method LocalGet(key: string) returns (r: Option<Record>)
      modifies this`local
      ensures r == Live(old(local), key, clock.now) && local == Evicted(old(local), key, clock.now)
    {
      if key !in local {
        return None;
      }
      if local[key].expiresAt <= clock.now {
        local := local - {key};
        return None;
      }
      return Some(local[key]);
    }

    method LocalStore(key: string, r: Record)
      modifies this`local
      ensures local == LocalPut(old(local), key, r)
    {
      if |local| >= LOCAL_CACHE_MAX {
        local := map[];
      }
      local := local[key := r];
    }

    method RunExecute(key: string, digest: string, ttl: int, took: nat, fn: FnResult) returns (answer: Answer)
      requires store.clock == clock
      modifies this, store, clock
      ensures Executed(Model(), answer) == Execute(old(Model()), key, digest, ttl, took, fn)
    {
      hide LocalPut, Evicted;
      if key == "" {
        return KeyRequired;
      }
      var expiresAt := clock.now + ttl;
      var cached := LocalGet(key);
      if cached.Some? {
        if cached.value.digest != digest {
          return Conflict;
        }
        localHits := localHits + 1;
        return Response(cached.value.response);
      }
      var existing := store.Claim(key, Record(digest, "", expiresAt, true));
      if existing.Some? {
        if existing.value.digest != digest {
          return Conflict;
        }
        if existing.value.inProgress {
          return InProgress;
        }
        LocalStore(key, existing.value);
        return Response(existing.value.response);
      }
      clock.Advance(took);
      if fn.Fails? {
        store.Delete(key);
        local := local - {key};
        return Raises;
      }
      executions := executions + 1;
      var r := Record(digest, fn.response, expiresAt, false);
      store.Put(key, r);
      LocalStore(key, r);
      return Response(fn.response);
    }
  }
}
