/**
 * Clients of `IdempotencyCache` that replay the request sequences of the
 * repository's end-to-end script, proved from the class's contracts alone.
 */
module Scenarios {
  import opened Eligibility
  import opened Middleware

  /**
   * A withdrawal whose response was sent is not run again when it is repeated
   * with the same key, and a different key runs the operation afresh.
   */
  method RepeatAndNewKey<D>(path: string, key: string, other: string, data: D, now: int)
    returns (first: Decision<D>, repeated: Decision<D>, newKey: Decision<D>)
    requires IsProtected("POST", path) && key != "" && other != "" && other != key
    ensures first == Execute(key)
    ensures repeated == Replay(200, data)
    ensures newKey == Execute(other)
  {
    var c := new IdempotencyCache<D>();
    first := c.Handle("POST", path, Some(key));
    var sent := c.OnSend(key, 200, data, true, now);
    repeated := c.Handle("POST", path, Some(key));
    newKey := c.Handle("POST", path, Some(other));
  }

  /**
   * Two requests with the same key that are both handed over before either
   * response is sent both run the operation: the table is written only at
   * send time. The later send overwrites the earlier entry.
   */
  method DuplicatesInFlight<D>(path: string, key: string, data1: D, data2: D, now: int)
    returns (first: Decision<D>, second: Decision<D>, retry: Decision<D>)
    requires IsProtected("POST", path) && key != ""
    ensures first == Execute(key) && second == Execute(key)
    ensures retry == Replay(200, data2)
  {
    var c := new IdempotencyCache<D>();
    first := c.Handle("POST", path, Some(key));
    second := c.Handle("POST", path, Some(key));
    var sent1 := c.OnSend(key, 200, data1, true, now);
    var sent2 := c.OnSend(key, 200, data2, true, now);
    retry := c.Handle("POST", path, Some(key));
  }

  /** A protected request without the header, or with an empty one, is refused and the table stays empty. */
  method MissingKeyRefused<D>(path: string) returns (absent: Decision<D>, empty: Decision<D>)
    requires IsProtected("POST", path)
    ensures absent == Reject(400, MissingKeyError) && empty == absent
  {
    var c := new IdempotencyCache<D>();
    absent := c.Handle("POST", path, None);
    empty := c.Handle("POST", path, Some(""));
  }

  /**
   * A captured response is replayed while its timer is not yet due, and the
   * key runs the operation afresh once the timer has fired 24 hours later.
   */
  method ExpiryAfterOneDay<D>(path: string, key: string, data: D, now: int)
    returns (early: bool, beforeExpiry: Decision<D>, onTime: bool, afterExpiry: Decision<D>)
    requires IsProtected("POST", path) && key != ""
    ensures !early && beforeExpiry == Replay(201, data)
    ensures onTime && afterExpiry == Execute(key)
  {
    var c := new IdempotencyCache<D>();
    var first := c.Handle("POST", path, Some(key));
    var sent := c.OnSend(key, 201, data, true, now);
    early := c.FireTimer(0, now + EvictionDelay - 1);
    beforeExpiry := c.Handle("POST", path, Some(key));
    onTime := c.FireTimer(0, now + 24 * 60 * 60 * 1000);
    afterExpiry := c.Handle("POST", path, Some(key));
  }

  /**
   * A success whose text body `JSON.parse` rejects makes the wrapped `send`
   * throw: the original `send` is not reached, nothing is stored, and a retry
   * with the same key runs the operation again.
   */
  method UnparsableSuccessNotCached<D>(path: string, key: string, data: D, now: int)
    returns (first: Decision<D>, sent: Option<D>, retry: Decision<D>)
    requires IsProtected("POST", path) && key != ""
    ensures first == Execute(key) && sent == None && retry == Execute(key)
  {
    var c := new IdempotencyCache<D>();
    first := c.Handle("POST", path, Some(key));
    sent := c.OnSend(key, 200, data, false, now);
    retry := c.Handle("POST", path, Some(key));
  }
}
