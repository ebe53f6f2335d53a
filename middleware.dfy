/**
 * The idempotency middleware: the process-wide table of captured responses,
 * the decision taken for each request, the `res.send` wrapper that fills the
 * table and the timers that empty it again.
 *
 * Response bodies are opaque values of the type parameter `D`.
 */
module Middleware {
  import opened Strings
  import opened Eligibility

  datatype Option<+T> = None | Some(value: T)

  /** The delay handed to `setTimeout`: 24 hours in milliseconds (86,400,000). */
  const EvictionDelay: int := 24 * 60 * 60 * 1000

  const MissingKeyStatus: int := 400
  const MissingKeyError: string := "Header \"idempotency-key\" é obrigatório para esta operação"

  /** The statuses the wrapper captures: `200 <= statusCode < 300`. */
  predicate IsSuccess(status: int)
  {
    200 <= status < 300
  }

  /**
   * The wrapped `send` throws: a success status whose body is a string that
   * `JSON.parse` rejects (`parses` is false). Nothing after the parse runs.
   */
  predicate SendThrows(status: int, parses: bool)
  {
    IsSuccess(status) && !parses
  }

  /** The header is usable: present and not the empty string (JavaScript's `!idempotencyKey` is false). */
  predicate KeyPresent(key: Option<string>)
  {
    key.Some? && key.value != ""
  }

  /** One value of `idempotencyCache`. */
  datatype Entry<D> = Entry(status: int, data: D, timestamp: int)

  /** A pending `setTimeout` that deletes `key` once the clock reaches `due`. */
  datatype Timer = Timer(key: string, due: int)

  /** What the middleware does with a request. */
  datatype Decision<D> =
    | Passthrough                      // `next()` with `res.send` left alone
    | Reject(status: int, error: string) // `res.status(400).json({error})`, no `next()`
    | Replay(status: int, data: D)     // `res.status(status).json(data)` from the table, no `next()`
    | Execute(key: string)             // `next()` with `res.send` wrapped to capture under `key`

  /**
   * The decision for a request with method `verb`, path `path` and header
   * `key`, taken against the table `cache`.
   */
  function Decide<D>(cache: map<string, Entry<D>>, verb: string, path: string, key: Option<string>): (d: Decision<D>)
    ensures d.Passthrough? <==> !IsProtected(verb, path)
    ensures d.Reject? <==> IsProtected(verb, path) && !KeyPresent(key)
    ensures d.Reject? ==> d.status == MissingKeyStatus && d.error == MissingKeyError
    ensures d.Replay? <==> IsProtected(verb, path) && KeyPresent(key) && key.value in cache
    ensures d.Replay? ==> d.status == cache[key.value].status && d.data == cache[key.value].data
    ensures d.Execute? <==> IsProtected(verb, path) && KeyPresent(key) && key.value !in cache
    ensures d.Execute? ==> d.key == key.value
  {
    if !IsProtected(verb, path) then Passthrough
    else if !KeyPresent(key) then Reject(MissingKeyStatus, MissingKeyError)
    else if key.value in cache then Replay(cache[key.value].status, cache[key.value].data)
    else Execute(key.value)
  }

  /** `s` without its element at position `i`. */
  function RemoveAt<T>(s: seq<T>, i: nat): (r: seq<T>)
    requires i < |s|
    ensures |r| == |s| - 1
    ensures multiset(r) == multiset(s) - multiset{s[i]}
  {
    assert s == s[..i] + [s[i]] + s[i + 1..];
    s[..i] + s[i + 1..]
  }

  /** Removing one position keeps every element that differs from the removed one. */
  lemma RemoveAtKeeps<T>(s: seq<T>, i: nat, x: T)
    requires i < |s| && x in s && x != s[i]
    ensures x in RemoveAt(s, i)
  {
    var j :| 0 <= j < |s| && s[j] == x;
    if j < i {
      assert RemoveAt(s, i)[j] == x;
    } else {
      assert RemoveAt(s, i)[j - 1] == x;
    }
  }

  /** The table together with the timers that are still pending. */
  datatype Store<D> = Store(cache: map<string, Entry<D>>, timers: seq<Timer>)
  {
    /**
     * Every stored entry is a success, and every stored entry has a pending
     * timer that deletes its key `EvictionDelay` after it was captured.
     */
    predicate Valid()
    {
      && (forall k :: k in cache ==> IsSuccess(cache[k].status))
      && (forall k :: k in cache ==> Timer(k, cache[k].timestamp + EvictionDelay) in timers)
    }

    /**
     * The wrapped `res.send(data)` with `res.statusCode == status` at time `now`;
     * `parses` says whether the body is not a string or is one `JSON.parse` accepts.
     * A success whose body parses stores the entry and starts its timer; any other
     * status, or a body that makes the parse throw, changes nothing.
     */
    function Capture(key: string, status: int, data: D, parses: bool, now: int): (r: Store<D>)
      ensures IsSuccess(status) && parses ==> key in r.cache && r.cache[key] == Entry(status, data, now)
      ensures IsSuccess(status) && parses ==> r.timers == timers + [Timer(key, now + EvictionDelay)]
      ensures !IsSuccess(status) || !parses ==> r == this
      ensures forall k :: k != key ==> (k in r.cache <==> k in cache)
      ensures forall k :: k != key && k in cache ==> r.cache[k] == cache[k]
    {
      if IsSuccess(status) && parses then
        Store(cache[key := Entry(status, data, now)], timers + [Timer(key, now + EvictionDelay)])
      else
        this
    }

    /** The timer callback: `idempotencyCache.delete(key)`. */
    function Remove(key: string): (r: Store<D>)
      ensures key !in r.cache && r.timers == timers
      ensures forall k :: k != key ==> (k in r.cache <==> k in cache)
      ensures forall k :: k != key && k in cache ==> r.cache[k] == cache[k]
    {
      Store(cache - {key}, timers)
    }

    /** The timer at position `i` fires if it exists and is due at `now`. */
    predicate CanFire(i: nat, now: int)
    {
      i < |timers| && timers[i].due <= now
    }

    /**
     * The runtime fires the timer at position `i` once it is due: the timer
     * is consumed and its callback removes its key. Otherwise nothing happens.
     */
    function Fire(i: nat, now: int): (r: Store<D>)
      ensures CanFire(i, now) ==> r.cache == cache - {timers[i].key}
      ensures CanFire(i, now) ==> multiset(r.timers) == multiset(timers) - multiset{timers[i]}
      ensures !CanFire(i, now) ==> r == this
    {
      if CanFire(i, now) then
        Store(Remove(timers[i].key).cache, RemoveAt(timers, i))
      else
        this
    }

    /** Firing a timer keeps every remaining entry scheduled for eviction. */
    lemma FirePreservesValid(i: nat, now: int)
      requires Valid()
      ensures Fire(i, now).Valid()
    {
      if CanFire(i, now) {
        var gone := timers[i].key;
        var r := Store(cache - {gone}, RemoveAt(timers, i));
        assert r == Fire(i, now);
        forall k | k in r.cache
          ensures IsSuccess(r.cache[k].status)
          ensures Timer(k, r.cache[k].timestamp + EvictionDelay) in r.timers
        {
          assert k in cache && k != gone && r.cache[k] == cache[k];
          RemoveAtKeeps(timers, i, Timer(k, cache[k].timestamp + EvictionDelay));
        }
        assert r.Valid();
      } else {
        assert Fire(i, now) == this;
      }
    }
  }

  /**
   * `idempotencyCache` as the object the middleware shares between requests,
   * with the timers it has started.
   */
  class IdempotencyCache<D> {
    var cache: map<string, Entry<D>>
    var timers: seq<Timer>

    function State(): Store<D>
      reads this
    {
      Store(cache, timers)
    }

    predicate Valid()
      reads this
    {
      State().Valid()
    }

    /** `new Map()`, with no timers started yet. */
    constructor ()
      ensures Valid()
      ensures cache == map[] && timers == []
    {
      cache := map[];
      timers := [];
    }

    /** `idempotencyMiddleware(req, res, next)` up to the point where it hands over. */
    method Handle(verb: string, path: string, key: Option<string>) returns (d: Decision<D>)
      ensures d == Decide(cache, verb, path, key)
    {
      var isPostPutPatch := IsMutatingMethod(verb);
      var pathRequiresIdempotency := PathRequiresIdempotency(path);
      if isPostPutPatch && pathRequiresIdempotency {
        if !KeyPresent(key) {
          return Reject(MissingKeyStatus, MissingKeyError);
        }
        if key.value in cache {
          var cached := cache[key.value];
          return Replay(cached.status, cached.data);
        }
        return Execute(key.value);
      }
      return Passthrough;
    }

    /**
     * The wrapped `res.send(data)` of a request that was handed over with
     * `Execute(key)`; `status` is `res.statusCode`, `now` is `Date.now()` and
     * `parses` whether `JSON.parse` accepts a string body (true for other bodies).
     * Returns what the original `send` receives, or `None` when the parse
     * throws and the original `send` is never reached.
     */
    method OnSend(key: string, status: int, data: D, parses: bool, now: int) returns (sent: Option<D>)
      requires Valid()
      modifies this
      ensures Valid()
      ensures State() == old(State()).Capture(key, status, data, parses, now)
      ensures sent == if SendThrows(status, parses) then None else Some(data)
    {
      if 200 <= status && status < 300 {
        if !parses {
          return None;
        }
        cache := cache[key := Entry(status, data, now)];
        timers := timers + [Timer(key, now + EvictionDelay)];
      }
      sent := Some(data);
    }

    /** The body of the `setTimeout` callback. */
    method Evict(key: string)
      requires Valid()
      modifies this
      ensures Valid()
      ensures State() == old(State()).Remove(key)
    {
      cache := cache - {key};
    }

    /** The event loop runs the `i`-th pending timer if it is due at `now`. */
    method FireTimer(i: nat, now: int) returns (fired: bool)
      requires Valid()
      modifies this
      ensures Valid()
      ensures fired == old(State()).CanFire(i, now)
      ensures State() == old(State()).Fire(i, now)
    {
      fired := i < |timers| && timers[i].due <= now;
      if fired {
        State().FirePreservesValid(i, now);
        cache := cache - {timers[i].key};
        timers := RemoveAt(timers, i);
      }
    }
  }
}
