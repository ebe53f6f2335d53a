# Idempotency middleware of the deposit/withdraw service, in Dafny

This project models the Express middleware `idempotencyMiddleware` of a small
banking service (clients with a balance, with deposit `/clientes/:id/depositar`
and withdrawal `/clientes/:id/sacar` routes), and proves what it does with
retried requests.

The middleware keeps one process-wide table, `idempotencyCache`, from an
`idempotency-key` header value to a captured response `{status, data, timestamp}`.
For each request it:

1. decides whether the request is protected: the method is POST, PUT or PATCH
   and the path contains `/sacar` or `/depositar` (a second test on the
   `/clientes` and `/clients` prefixes is computed and never used);
2. refuses a protected request without a usable key with 400 and an error body;
3. replays the stored status and body when the key is already in the table;
4. otherwise hands the request on, with `res.send` wrapped so that a 2xx
   response is stored under the key and a timer deletes the key 24 hours
   (86,400,000 ms) later. A 2xx string body is first run through `JSON.parse`;
   when that throws, nothing is stored, no timer starts and the original
   `send` is not reached. In every other case the original `send` is called.

Files and modules:

- `strings.dfy`, module `Strings`: JavaScript's `startsWith` and `includes`,
  with `includes` proved equal to "occurs at some position".
- `eligibility.dfy`, module `Eligibility`: the protection predicate and the
  unused prefix test, with two routes on which the two tests disagree.
- `middleware.dfy`, module `Middleware`: the table entries, pending timers and
  decisions as datatypes; `Decide`, the decision as a function of the table;
  `Store`, the table plus pending timers, with its invariant and its three
  transitions (capture on send, the timer callback, a timer firing); and the
  class `IdempotencyCache`, whose fields are the table and the timers and
  whose methods `Handle`, `OnSend`, `Evict` and `FireTimer` are proved against
  `Decide` and the `Store` transitions.
- `lifecycle.dfy`, module `Lifecycle`: runs of sends and timer firings, and
  the cross-request properties (round trip, failures not cached, stability
  until eviction, eviction on schedule, the prefix list having no effect).
- `scenarios.dfy`, module `Scenarios`: client code over `IdempotencyCache`
  that replays the request sequences of the end-to-end script.

How the environment is represented:

- The request is its method, its path and the header, `Option<string>`
  (`None` when absent). `Decision` is what the middleware does:
  `Passthrough` (`next()` with `send` untouched), `Reject` (400, no `next()`),
  `Replay` (stored status and body, no `next()`) or `Execute(key)` (`next()`
  with `send` wrapped to capture under `key`).
- `Handle` never changes the table: it has no `modifies` clause.
- The wrapped `send` is the explicit call `OnSend(key, status, data, parses, now)`,
  where `status` is `res.statusCode`, `now` is `Date.now()` and `parses` says
  whether the body is not a string or is a string `JSON.parse` accepts.
  It returns `Some` of the value the original `send` receives, or `None` when
  the parse throws.
- Each `setTimeout` is a `Timer(key, due)` appended to the pending timers.
  The event loop is the explicit call `FireTimer(i, now)`. It runs the `i`-th
  pending timer only if `now` has reached its due time. Its callback is `Evict(key)`.
- Response bodies are values of an opaque type parameter `D`.

Behaviour worth knowing, proved below:

- Eviction goes by key, not by entry. If a key is captured at `t1` and again
  at a later `t2`, the first capture's timer is due at `t1` plus 24 h and
  deletes the second entry before its own 24 h
  (`Lifecycle.StaleTimerRemovesNewerEntry`).
- The table is written only at send time. So two requests with the same key
  that are both handed over before either response is sent both run the
  operation, and the later send overwrites the earlier entry
  (`Scenarios.DuplicatesInFlight`). The end-to-end script sends five such
  requests at once. Whether they interleave like this depends on the
  withdrawal handler, which is not part of this model.

A reused key is not checked against the request body. The key is stored only
when the response is sent. A replay reproduces the status and the body only.
The 400 body is `{error: 'Header "idempotency-key" é obrigatório para esta operação'}`.

## Model

| member | source | states |
|---|---|---|
| `Strings.ContainsIffOccurs` | src/middlewares/idempotencyMiddleware.js:12 | `Contains`, the model of `includes`, holds exactly when the fragment occurs at some position of the path, both directions |
| `Eligibility.IsProtectedIff` | src/middlewares/idempotencyMiddleware.js:11-14 | `IsProtected` holds of a request iff its method is POST, PUT or PATCH and `/sacar` or `/depositar` occurs in its path |
| `Eligibility.CreateClientRouteUnprotected` | src/middlewares/idempotencyMiddleware.js:6-14 | POST `/clientes` satisfies `NeedsIdempotency`, the unused prefix test built on `StartsWith`, but is not protected |
| `Eligibility.ForeignWithdrawRouteProtected` | src/middlewares/idempotencyMiddleware.js:6-14 | POST `/contas/<id>/sacar` is protected for every `id`, although it fails the unused prefix test |
| `Middleware.Decide` | src/middlewares/idempotencyMiddleware.js:11-25 | passthrough iff unprotected; 400 with the error message iff protected and the key is absent or empty (`KeyPresent` fails); replay of exactly the stored status and data iff the key is in the table; otherwise execute under that key |
| `Middleware.IdempotencyCache.Handle` | src/middlewares/idempotencyMiddleware.js:3-46 | returns the decision `Decide` gives for the current table, and changes nothing |
| `Middleware.IdempotencyCache.constructor` | src/middlewares/idempotencyMiddleware.js:1 | the table starts empty with no timers, and the invariant holds |
| `Middleware.IdempotencyCache.OnSend` | src/middlewares/idempotencyMiddleware.js:27-42 | the new state is the capture of the old one; the invariant is kept; the original send receives `data` unchanged, except that a 2xx body that fails to parse (`SendThrows`) reaches no `send` and returns `None` |
| `Middleware.IdempotencyCache.Evict` | src/middlewares/idempotencyMiddleware.js:36-38 | the new state has the key removed and nothing else changed; the invariant is kept |
| `Middleware.IdempotencyCache.FireTimer` | src/middlewares/idempotencyMiddleware.js:36-38 | fires iff the timer exists and is due; the new state is the old one with that timer consumed and its key removed; the invariant is kept |
| `Middleware.Store.Capture` | src/middlewares/idempotencyMiddleware.js:28-41 | a 2xx status (`IsSuccess`) with a body that parses stores `{status, data, now}` under the key and starts a timer due 86,400,000 ms later; any other status, or a body whose parse throws, leaves the state unchanged; other keys keep their entries |
| `Middleware.Store.Remove` | src/middlewares/idempotencyMiddleware.js:37 | the key is gone, every other key keeps its entry, timers unchanged |
| `Middleware.Store.Fire` | src/middlewares/idempotencyMiddleware.js:36-38 | a due timer removes exactly its key and is consumed: the pending timers afterwards are, as a multiset, the old ones minus that one timer; a timer that is not due changes nothing |
| `Middleware.Store.FirePreservesValid` | src/middlewares/idempotencyMiddleware.js:29-38 | firing a timer keeps every stored entry a 2xx entry with its own pending timer |
| `Lifecycle.StepPreservesValid` | src/middlewares/idempotencyMiddleware.js:29-38 | a send or a timer firing keeps the invariant |
| `Lifecycle.RunPreservesValid` | src/middlewares/idempotencyMiddleware.js:29-38 | every stored entry has a status in [200, 300) and a pending timer at its timestamp plus 24 h, after any run of sends and timer firings |
| `Lifecycle.CaptureThenReplay` | src/middlewares/idempotencyMiddleware.js:21-34 | a fresh protected key is executed; after a 2xx send the same request replays exactly that status and data |
| `Lifecycle.FailureIsNotCached` | src/middlewares/idempotencyMiddleware.js:29-32 | after a non-2xx send, or a 2xx send whose body fails to parse, a retry with the same key is executed again |
| `Lifecycle.OnlyTimerRemoves` | src/middlewares/idempotencyMiddleware.js:36-37 | an entry leaves the table only when a due timer for its key fires |
| `Lifecycle.EntryStableUntilEvicted` | src/middlewares/idempotencyMiddleware.js:21-37 | while no new 2xx send stores under the key, its entry, if still present, is exactly the captured one |
| `Lifecycle.KeyAbsentUntilRecaptured` | src/middlewares/idempotencyMiddleware.js:28-37 | an absent key comes back only through a new 2xx send |
| `Lifecycle.ReplayUntilEviction` | src/middlewares/idempotencyMiddleware.js:21-38 | after a 2xx capture, every later protected request with the key replays that status and data, or executes afresh once evicted |
| `Lifecycle.EntryEvictedOnSchedule` | src/middlewares/idempotencyMiddleware.js:33-38 | every stored entry has a timer that may fire at its timestamp plus 86,400,000 ms and that removes it |
| `Lifecycle.StaleTimerRemovesNewerEntry` | src/middlewares/idempotencyMiddleware.js:30-38 | for any store, key and captures at `t1 < t2`, the first capture's timer is due at `t1` + 86,400,000 ms, earlier than the second entry's 24 h, and firing it deletes the second entry |
| `Lifecycle.DecisionIgnoresPrefixList` | src/middlewares/idempotencyMiddleware.js:6-14 | two paths that agree on the `/sacar` and `/depositar` test get the same decision, whatever their prefix |
| `Lifecycle.CreateClientPassesThrough` | src/middlewares/idempotencyMiddleware.js:6-45 | POST `/clientes` passes through although the unused prefix test holds |
| `Lifecycle.ForeignWithdrawNeedsKey` | src/middlewares/idempotencyMiddleware.js:6-19 | POST `/contas/<id>/sacar` without a key is refused with 400 for every `id`, although the unused prefix test fails |
| `Scenarios.RepeatAndNewKey` | tests/idempotency.test.js:45-105 | a sent withdrawal repeated with its key replays 200 and the same data; a new key is executed |
| `Scenarios.DuplicatesInFlight` | tests/idempotency.test.js:51-62 | two requests with one key, both handed over before either send, are both executed; a later retry replays the last captured data |
| `Scenarios.MissingKeyRefused` | src/middlewares/idempotencyMiddleware.js:15-19 | an absent and an empty header are both refused with 400 and the error message |
| `Scenarios.ExpiryAfterOneDay` | src/middlewares/idempotencyMiddleware.js:36-38 | the timer does not fire 1 ms before 24 h and the entry is replayed; at 24 h it fires and the key is executed afresh |
| `Scenarios.UnparsableSuccessNotCached` | src/middlewares/idempotencyMiddleware.js:29-41 | a 200 send whose text body fails to parse reaches no original `send`, stores nothing, and the retry is executed again |

## Left out

- `JSON.parse` of string bodies before storing them: a library call on text. Bodies are opaque: whether the parse succeeds is the `parses` argument, and on success the model stores what `send` receives rather than the parsed value.
- Express plumbing: the `req` and `res` objects, `res.status().json()`, `next()` and the reassignment of `res.send`. They are the `Decision` value and the explicit `OnSend` call. Express's own `send` calling `json` and then `send` again for object bodies is not modelled. It would only capture the same key twice at almost the same time.
- `Middleware.IdempotencyCache.OnSend`: may be called for any key, not only one handed over with `Execute`. This over-approximates interleaved in-flight requests on one event loop, so the properties proved hold for every interleaving.
- `Middleware.IdempotencyCache.FireTimer`: the event loop may pick any due timer. Node's real order (by due time, then creation) is one of these orders.
- Logging with `console.log`.
- Real timers and the clock: `setTimeout` and `Date.now()` become the `now` parameters and the explicit `FireTimer` call. The 86,400,000 ms delay is below Node's largest timer delay, so no clamping applies.
- Concurrency beyond one event loop: the model interleaves whole calls and has no parallel threads. The code has no locking to verify.
- The withdrawal and deposit handlers and the ledger: the code that runs after `next()` is not part of this model.
- `tests/idempotency.test.js` as a program: it is an HTTP script against a live server. Its request sequences appear as the `Scenarios` methods, with no balance arithmetic.
- `frontend/src/app/services/cliente.service.ts`: an HTTP client wrapper. Its key generator uses the clock and `Math.random()`.
