/**
 * What the middleware promises across requests: a captured success is
 * replayed, failures are not remembered, entries disappear only through
 * their timers, and the table's invariant survives any run of sends and
 * timer firings.
 */
module Lifecycle {
  import opened Eligibility
  import opened Middleware

  /** The things that change the table: a wrapped `send`, or the event loop firing a timer. */
  datatype Event<D> =
    | Send(key: string, status: int, data: D, parses: bool, now: int)
    | Tick(index: nat, now: int)

  function Step<D>(s: Store<D>, e: Event<D>): Store<D>
  {
    match e
    case Send(key, status, data, parses, now) => s.Capture(key, status, data, parses, now)
    case Tick(index, now) => s.Fire(index, now)
  }

  function Run<D>(s: Store<D>, events: seq<Event<D>>): Store<D>
    decreases |events|
  {
    if events == [] then s else Run(Step(s, events[0]), events[1..])
  }

  /** `e` stores a new entry under `key`. */
  predicate Recaptures<D>(e: Event<D>, key: string)
  {
    e.Send? && e.key == key && IsSuccess(e.status) && e.parses
  }

  /** Every step keeps the invariant: only successes are stored, each with its timer. */
  lemma StepPreservesValid<D>(s: Store<D>, e: Event<D>)
    requires s.Valid()
    ensures Step(s, e).Valid()
  {
    match e
    case Send(key, status, data, parses, now) =>
    case Tick(index, now) => s.FirePreservesValid(index, now);
  }

  lemma {:induction false} RunPreservesValid<D>(s: Store<D>, events: seq<Event<D>>)
    requires s.Valid()
    ensures Run(s, events).Valid()
    decreases |events|
  {
    if events != [] {
      StepPreservesValid(s, events[0]);
      RunPreservesValid(Step(s, events[0]), events[1..]);
    }
  }

  /**
   * Round trip: a protected request with a fresh key is handed over; once its
   * response is sent with a success status, the same request replays exactly
   * that status and body.
   */
  lemma CaptureThenReplay<D>(s: Store<D>, verb: string, path: string, key: string,
                             status: int, data: D, now: int)
    requires IsProtected(verb, path) && key != "" && key !in s.cache
    requires IsSuccess(status)
    ensures Decide(s.cache, verb, path, Some(key)) == Execute(key)
    ensures Decide(s.Capture(key, status, data, true, now).cache, verb, path, Some(key)) == Replay(status, data)
  {
  }

  /**
   * A response that is not a success, or a success whose body makes the
   * parse throw, is not remembered: the retry runs the operation again.
   */
  lemma FailureIsNotCached<D>(s: Store<D>, verb: string, path: string, key: string,
                              status: int, data: D, parses: bool, now: int)
    requires Decide(s.cache, verb, path, Some(key)) == Execute(key)
    requires !IsSuccess(status) || !parses
    ensures Decide(s.Capture(key, status, data, parses, now).cache, verb, path, Some(key)) == Execute(key)
  {
  }

  /** The only step that takes an entry out of the table is the firing of a due timer for its key. */
  lemma OnlyTimerRemoves<D>(s: Store<D>, e: Event<D>, key: string)
    requires key in s.cache && key !in Step(s, e).cache
    ensures e.Tick? && s.CanFire(e.index, e.now) && s.timers[e.index].key == key
  {
  }

  /**
   * Until it is evicted, an entry stays exactly as captured: no sequence of
   * steps that stores nothing new under its key changes it.
   */
  lemma {:induction false} EntryStableUntilEvicted<D>(s: Store<D>, events: seq<Event<D>>, key: string)
    requires key in s.cache
    requires forall j :: 0 <= j < |events| ==> !Recaptures(events[j], key)
    ensures key in Run(s, events).cache ==> Run(s, events).cache[key] == s.cache[key]
    decreases |events|
  {
    if events != [] {
      var next := Step(s, events[0]);
      if key in next.cache {
        assert next.cache[key] == s.cache[key];
        EntryStableUntilEvicted(next, events[1..], key);
      } else {
        KeyAbsentUntilRecaptured(next, events[1..], key);
      }
    }
  }

  /** A key that is not in the table comes back only through a new capture. */
  lemma {:induction false} KeyAbsentUntilRecaptured<D>(s: Store<D>, events: seq<Event<D>>, key: string)
    requires key !in s.cache
    requires forall j :: 0 <= j < |events| ==> !Recaptures(events[j], key)
    ensures key !in Run(s, events).cache
    decreases |events|
  {
    if events != [] {
      KeyAbsentUntilRecaptured(Step(s, events[0]), events[1..], key);
    }
  }

  /**
   * After a successful capture, and as long as nothing new is stored under
   * the key, a protected request with that key either replays the captured
   * response or, once the timer has evicted it, runs the operation afresh.
   */
  lemma ReplayUntilEviction<D>(s: Store<D>, verb: string, path: string, key: string,
                               status: int, data: D, now: int, events: seq<Event<D>>)
    requires IsProtected(verb, path) && key != "" && IsSuccess(status)
    requires forall j :: 0 <= j < |events| ==> !Recaptures(events[j], key)
    ensures var d := Decide(Run(s.Capture(key, status, data, true, now), events).cache, verb, path, Some(key));
      d == Replay(status, data) || d == Execute(key)
  {
    EntryStableUntilEvicted(s.Capture(key, status, data, true, now), events, key);
  }

  /**
   * Every stored entry can be evicted by its own timer as soon as the clock
   * reaches its timestamp plus 24 hours.
   */
  lemma EntryEvictedOnSchedule<D>(s: Store<D>, key: string)
    requires s.Valid() && key in s.cache
    ensures var due := s.cache[key].timestamp + EvictionDelay;
      exists i :: s.CanFire(i, due) && key !in s.Fire(i, due).cache
  {
    var due := s.cache[key].timestamp + EvictionDelay;
    var i :| 0 <= i < |s.timers| && s.timers[i] == Timer(key, due);
    assert s.CanFire(i, due);
  }

  /**
   * Eviction goes by key, not by entry: when a key is captured at `t1` and
   * again at a later `t2`, the first capture's timer may fire at
   * `t1 + EvictionDelay`, before the second entry's own 24 hours have passed,
   * and it deletes the second entry.
   */
  lemma StaleTimerRemovesNewerEntry<D>(s: Store<D>, key: string, status1: int, data1: D, t1: int,
                                       status2: int, data2: D, t2: int)
    requires IsSuccess(status1) && IsSuccess(status2) && t1 < t2
    ensures var twice := s.Capture(key, status1, data1, true, t1).Capture(key, status2, data2, true, t2);
      var stale := |s.timers|;
      && twice.cache[key] == Entry(status2, data2, t2)
      && twice.CanFire(stale, t1 + EvictionDelay)
      && twice.timers[stale] == Timer(key, t1 + EvictionDelay)
      && t1 + EvictionDelay < twice.cache[key].timestamp + EvictionDelay
      && key !in twice.Fire(stale, t1 + EvictionDelay).cache
  {
    var once := s.Capture(key, status1, data1, true, t1);
    var twice := once.Capture(key, status2, data2, true, t2);
    assert twice.timers == s.timers + [Timer(key, t1 + EvictionDelay)] + [Timer(key, t2 + EvictionDelay)];
    assert twice.timers[|s.timers|] == Timer(key, t1 + EvictionDelay);
  }

  /**
   * The prefix list of `needsIdempotency` has no effect: paths that agree on
   * the withdraw and deposit fragments get the same decision, whatever their prefix.
   */
  lemma DecisionIgnoresPrefixList<D>(cache: map<string, Entry<D>>, verb: string,
                                     path1: string, path2: string, key: Option<string>)
    requires PathRequiresIdempotency(path1) == PathRequiresIdempotency(path2)
    ensures Decide(cache, verb, path1, key) == Decide(cache, verb, path2, key)
  {
  }

  /** Creating a client passes through although it is a POST under `/clientes`. */
  lemma CreateClientPassesThrough<D>(cache: map<string, Entry<D>>, key: Option<string>)
    ensures NeedsIdempotency("POST", "/clientes")
    ensures Decide(cache, "POST", "/clientes", key) == Passthrough
  {
    CreateClientRouteUnprotected();
  }

  /** A withdrawal outside the client prefixes still needs the header. */
  lemma ForeignWithdrawNeedsKey<D>(cache: map<string, Entry<D>>, id: string)
    ensures !NeedsIdempotency("POST", "/contas/" + id + "/sacar")
    ensures Decide(cache, "POST", "/contas/" + id + "/sacar", None) == Reject(MissingKeyStatus, MissingKeyError)
  {
    ForeignWithdrawRouteProtected(id);
  }
}
