# Background-task coordination store, worker computation and sample-data service, in Dafny

This project models the core of a Vue 3 teaching demo about background work. It has three parts.

- **The coordination store** (a Pinia store) holds four slices: a global timer, the lifecycle of one "load posts" fetch, the lifecycle of one offloaded worker computation, and an application slice with a page tag and a queue of notifications. Each notification expires after 5 seconds.
- **The worker script** computes, for an input *n*, the sum over `i < n` of the naive recursive `fibonacci(i % 20)`. It posts back either `{input, result, timestamp}` or `{error, timestamp}`.
- **The sample-data HTTP service** serves six seeded posts. It supports a filtered and truncated list, lookup by id with 404, and creation with validation (400), which appends the new post with the next sequential id.

How the model is built:

- Each asynchronous arrival is an event of its own: an interval firing, a fetch settling or being rejected, a worker message or error, and a notification's removal timeout. A run of the store is therefore a sequence of events, and interleavings are explicit call sequences.
- Each action and arrival has a specification function over the whole `State`: `Started`, `Fired`, `Stopped`, `Reset`, `Issued`, `Resolved`, `Rejected`, `Dispatched`, `Replied`, `Errored`, `Notify`, `Removed`, `Expired` and `PageChanged`. `Store.Step(State, Event)` selects the one for the event.
- The class `Store.TaskStore` keeps the four slices as fields, plus `timerInterval`. Each of its methods changes the fields in place, in the order the source does, and ensures `Snapshot()` equals the specification function applied to `old(Snapshot())`. The methods also keep the store invariant `Valid()`.
- The lemmas about interleavings are stated over `Step`.
- What the JavaScript runtime holds for the store is an explicit `Runtime` value: the live interval handles, the next handle, the fetches and workers not yet settled, and the ids of the pending removal timeouts. This makes a leaked interval or a pending worker visible in the state.
- Clock readings (`new Date()`, `Date.now()`) are parameters, one per reading, so two readings in one action may differ. Worker timestamps, fetched payloads and error messages are parameters.

In five places the code has no guard or check a reader might expect; the model follows the code:

- `startGlobalTimer` has no guard on `isRunning`. A second start registers a second interval and overwrites the stored handle. A stop then clears only the last interval, so the first keeps incrementing `count` while the timer reads as stopped (`Store.DoubleStartLeaksInterval`).
- `fetchPosts` never looks at the HTTP status. Only a rejected `fetch` or a failed `json()` reaches the `catch` block, so a non-2xx reply with a decodable body is stored as a success.
- `startWorker` has no re-entrancy guard. A second dispatch while one is pending is accepted, and the first reply already marks the slice idle (`Store.WorkerNoGuard`).
- The worker script's own `error` listener posts `{error, timestamp}` as an ordinary message. The store's `onmessage` stores it as the result and reports success (`Store.WorkerMessageStored`).
- Notification ids come from the clock, so two ids can be equal. The removal timeout of the older notification then removes the newer one (`Store.CollidingExpiry`).

## Model

| member | source | states |
|---|---|---|
| Store.TaskStore.constructor | vite-project/src/store/index.js:4-32 | the initial slices: timer stopped at 0, no posts, not loading, worker idle with input 1000, page `home`, no notifications; nothing pending; consistent |
| Store.TaskStore.StartGlobalTimer | vite-project/src/store/index.js:54-62 | sets `isRunning` and `startTime`, registers a fresh interval and stores its handle, with no check of `isRunning`; keeps the store consistent |
| Store.TaskStore.Tick | vite-project/src/store/index.js:59-61 | one firing of a live interval adds 1 to `count` and changes nothing else |
| Store.TaskStore.StopGlobalTimer | vite-project/src/store/index.js:64-70 | sets `isRunning` false; clears the stored interval if there is one and forgets its handle |
| Store.TaskStore.ResetGlobalTimer | vite-project/src/store/index.js:72-76 | stop, then `count = 0` and `startTime = null` |
| Store.TaskStore.FetchBegin | vite-project/src/store/index.js:79-84 | `loading = true`, `error = null`, one more fetch pending |
| Store.TaskStore.FetchSucceed | vite-project/src/store/index.js:84-97 | stores the posts and `lastFetched` (its own clock reading), adds a success notification stamped with a separate later reading, then `loading = false` |
| Store.TaskStore.FetchFail | vite-project/src/store/index.js:92-97 | stores the error message, adds an error notification, then `loading = false` |
| Store.TaskStore.StartWorker | vite-project/src/store/index.js:101-110 | `isRunning = true`, `result = null`, `input` recorded, one more worker pending |
| Store.TaskStore.WorkerMessage | vite-project/src/store/index.js:113-118 | stores the posted message as `result`, `isRunning = false`, success notification, worker terminated |
| Store.TaskStore.WorkerError | vite-project/src/store/index.js:121-126 | `isRunning = false`, error notification, worker terminated |
| Store.TaskStore.AddNotification | vite-project/src/store/index.js:130-144 | puts the new entry at the head of the queue and schedules its removal timeout; the kind defaults to `Info`; keeps a consistent store consistent |
| Store.TaskStore.RemoveNotification | vite-project/src/store/index.js:146-151 | `findIndex` then `splice`: the queue becomes the reference removal of the first entry with that id |
| Store.TaskStore.ExpireNotification | vite-project/src/store/index.js:141-143 | a pending removal timeout runs `removeNotification(id)` and is no longer pending |
| Store.TaskStore.SetCurrentPage | vite-project/src/store/index.js:154-156 | only `currentPage` changes |
| Store.InitialConsistent | vite-project/src/store/index.js:4-32 | the initial state satisfies the store invariant |
| Store.StepConsistent | vite-project/src/store/index.js:52-157 | every action and every runtime arrival keeps the invariant: live handles are positive and below the next handle, the stored handle is live, `isRunning` holds exactly when a handle is stored, `loading` and the worker's `isRunning` imply something is pending, and every queued notification's id has a pending removal timeout |
| Store.NotifyConsistent | vite-project/src/store/index.js:130-144 | adding a notification keeps the invariant: the new id joins the pending removal timeouts |
| Store.ResolvedConsistent | vite-project/src/store/index.js:84-97 | a settled fetch keeps the invariant, although one fewer fetch is pending |
| Store.RejectedConsistent | vite-project/src/store/index.js:92-97 | a rejected fetch keeps the invariant, although one fewer fetch is pending |
| Store.RepliedConsistent | vite-project/src/store/index.js:113-118 | a worker message keeps the invariant, although one fewer worker is pending |
| Store.ErroredConsistent | vite-project/src/store/index.js:121-126 | a worker error keeps the invariant, although one fewer worker is pending |
| Store.RemovedConsistent | vite-project/src/store/index.js:146-151 | removing a notification keeps every remaining id covered by a pending timeout |
| Store.ExpiredConsistent | vite-project/src/store/index.js:141-143 | a removal timeout that runs and is no longer pending keeps the invariant |
| Store.QueuedNotificationExpires | vite-project/src/store/index.js:140-143 | in a consistent state, every queued notification's expiry event can still arrive |
| Store.FormattedTimer | vite-project/src/store/index.js:36-39 | the getter's text has at least five characters, a colon third from the end, and digits everywhere else |
| Store.LatestPosts | vite-project/src/store/index.js:43-46 | at most five posts, the first ones in stored order; all of them when there are fewer than five |
| Store.PostsCount | vite-project/src/store/index.js:43-46 | the count is 0 exactly when there are no posts, and `latestPosts` has `min(5, postsCount)` entries |
| Store.NotificationCount | vite-project/src/store/index.js:49 | the count is the size of the queued ids counted with repetition, so entries with colliding ids each count |
| Notifications.IdsSize | vite-project/src/store/index.js:49 | the id multiset of a queue has one element per entry |
| Store.FormattedTimerParts | vite-project/src/store/index.js:36-39 | the getter's text splits at a colon into parts that denote `count / 60` and `count % 60` |
| Store.LatestPostsPrefix | vite-project/src/store/index.js:43-46 | `latestPosts` is the prefix of the posts of length `min(5, postsCount)`, in stored order |
| Store.StopIdempotent | vite-project/src/store/index.js:64-70 | after a stop the timer is not running and no handle is stored; the count is kept; a second stop changes nothing |
| Store.StopWhenStopped | vite-project/src/store/index.js:64-70 | in a consistent state, a stop while the timer is not running leaves the whole state unchanged |
| Store.ResetClears | vite-project/src/store/index.js:72-76 | from any state, reset gives `isRunning = false`, `count = 0`, `startTime = null` and no handle, and no other slice changes |
| Store.TicksCount | vite-project/src/store/index.js:59-61 | k firings leave exactly the state with `count` raised by k: `isRunning`, `startTime`, the stored handle and every other slice are unchanged |
| Store.StartTicksStop | vite-project/src/store/index.js:54-70 | start, k firings of the new interval and a stop raise `count` by exactly k |
| Store.DoubleStartLeaksInterval | vite-project/src/store/index.js:54-70 | after start, start, stop: the timer reads as stopped, the first interval is still live and still increments `count`, and a further stop does not clear it |
| Store.FetchSuccess | vite-project/src/store/index.js:84-97 | a settled fetch replaces the posts, sets `lastFetched` to its own clock reading, leaves `error` as it was and sets `loading = false`; one success notification goes to the head; the timer and worker slices are untouched |
| Store.FetchFailure | vite-project/src/store/index.js:92-97 | a rejected fetch keeps the posts and `lastFetched`, sets `error` and `loading = false`, and puts one error notification at the head |
| Store.FetchRoundTrip | vite-project/src/store/index.js:79-97 | a fetch issued and then settled ends with `error = null`, `loading = false`, the new posts and `lastFetched`, and the pending-fetch count back to what it was |
| Store.FetchLastResolvedWins | vite-project/src/store/index.js:79-97 | with two overlapping fetches, the one that settles last decides `posts`; `loading` reads false after the first settles although the other is still pending |
| Store.WorkerStart | vite-project/src/store/index.js:101-104 | dispatch sets running, clears the result, records the input and adds one pending worker |
| Store.WorkerMessageStored | vite-project/src/store/index.js:113-118 | the message is stored as `result` and reported as success whatever its shape; the input is kept; the worker is gone |
| Store.WorkerReplyCarriesTotal | vite-project/src/store/index.js:101-118 | a dispatch answered by any reply meeting `Worker.HandleMessage`'s postcondition leaves `result.input == input` and `result.result == Worker.Total(input)` |
| Store.WorkerErrorReported | vite-project/src/store/index.js:121-126 | the error path clears `isRunning`, leaves `result` and `input` unchanged, and adds one error notification |
| Store.WorkerNoGuard | vite-project/src/store/index.js:101-118 | two dispatches and one reply leave the slice idle with the second input while a worker is still pending |
| Store.AddNotificationFront | vite-project/src/store/index.js:130-138 | the new entry is at index 0, the old queue follows unchanged, and the length grows by 1 |
| Store.RemoveNotificationEffect | vite-project/src/store/index.js:146-151 | removing an absent id changes nothing; otherwise exactly one occurrence of the id leaves and the count drops by 1 |
| Store.CollidingExpiry | vite-project/src/store/index.js:130-150 | on any queue, two notifications added with one id: the first expiry removes the newer one, the older stays in front of the earlier queue, and one timeout for the id is still pending |
| Notifications.FindIndex | vite-project/src/store/index.js:147 | -1 exactly when no entry has the id; otherwise the first index holding it |
| Notifications.SpliceIsRemoveFirst | vite-project/src/store/index.js:146-151 | splicing out the entry at `findIndex` (when it is > -1) equals the reference removal |
| Notifications.RemoveFirstIds | vite-project/src/store/index.js:146-151 | removal takes away exactly one occurrence of the id if there is one, and the length drops accordingly |
| Notifications.RemoveAbsent | vite-project/src/store/index.js:147-150 | removing an id that no entry carries leaves the queue unchanged |
| Notifications.RemoveFirstMatch | vite-project/src/store/index.js:147-150 | the entry removed is the first with the id; the entries before and after it stay, in order |
| Notifications.RemoveUniqueTwice | vite-project/src/store/index.js:146-151 | when at most one entry carries the id, removing twice equals removing once |
| Notifications.RemoveCollidingId | vite-project/src/store/index.js:132-150 | with two entries sharing an id, removal takes the newer (head) entry |
| Notifications.IdsMembership | vite-project/src/store/index.js:147 | an id is in the queue's id multiset exactly when some entry carries it |
| TimerFormat.Decimal | vite-project/src/store/index.js:39 | `toString()` of a natural number is a nonempty string of digits with no leading zero; it starts with `0` exactly for 0 |
| TimerFormat.DecimalRoundTrip | vite-project/src/store/index.js:37-39 | reading the decimal rendering back gives the number |
| TimerFormat.PadStart2Meaning | vite-project/src/store/index.js:39 | `padStart(2, '0')` keeps the value and the digits, and gives length `max(2, len)` |
| TimerFormat.SecondsDigits | vite-project/src/store/index.js:38-39 | the padded seconds are exactly two characters, and the first is 0..5 |
| TimerFormat.FormatParts | vite-project/src/store/index.js:36-39 | the text has at least 5 characters; its third-last is a colon; the part before it denotes `count / 60`, with minutes never capped; the two after it denote `count % 60` in 00..59; every other character is a digit |
| TimerFormat.FormatRoundTrip | vite-project/src/store/index.js:36-39 | reading the rendering back (60 × the minutes part + the seconds part) gives the count |
| TimerFormat.FormatInjective | vite-project/src/store/index.js:36-39 | distinct counts render differently |
| TimerFormat.FormatExample | vite-project/src/store/index.js:36-39 | 125 renders as `02:05` |
| Worker.Compute | vite-project/public/worker.js:6-17 | the accumulating loop returns `Total(input)`, and 0 when `input <= 0`; the loop invariant is that `result` is the partial sum after `i` terms |
| Worker.HandleMessage | vite-project/public/worker.js:2-24 | the success reply echoes the unchanged input next to `Total(input)` and the timestamp |
| Worker.HandleError | vite-project/public/worker.js:28-33 | the error reply carries the error text and the timestamp, and no result or input |
| Worker.FibonacciRecurrence | vite-project/public/worker.js:9-12 | `fibonacci(0) = 0`, `fibonacci(1) = 1`, and `fibonacci(n) = fibonacci(n-1) + fibonacci(n-2)` for n ≥ 2 |
| Worker.FibonacciMonotone | vite-project/public/worker.js:9-12 | `fibonacci` is non-decreasing |
| Worker.Fibonacci19 | vite-project/public/worker.js:9-12 | `fibonacci(19) = 4181` |
| Worker.TermBound | vite-project/public/worker.js:16 | every term `fibonacci(i % 20)` is at most 4181 |
| Worker.TermPeriodic | vite-project/public/worker.js:16 | iteration i + 20 adds the same term as iteration i |
| Worker.PartialSumBound | vite-project/public/worker.js:15-17 | after n iterations the accumulator is at most 4181 · n |
| Worker.PartialSumMonotone | vite-project/public/worker.js:15-17 | more iterations never lower the accumulator |
| Worker.TotalBounds | vite-project/public/worker.js:15-17 | the result is 0 for `input <= 0` and lies in `0 ..= 4181 · input` otherwise |
| Worker.TotalMonotone | vite-project/public/worker.js:15-17 | the result is non-decreasing in the input |
| Worker.TotalOfFive | vite-project/public/worker.js:15-17 | input 5 gives 0 + 1 + 1 + 2 + 3 = 7 |
| Worker.PartialSumTwenty | vite-project/public/worker.js:15-17 | one full cycle of 20 terms sums to 10945 |
| Worker.PartialSumPeriodic | vite-project/public/worker.js:15-17 | twenty more iterations add exactly one more cycle (the `% 20` wrap) |
| Worker.TotalOfTwentyFive | vite-project/public/worker.js:15-17 | input 25 wraps: terms 20..24 reuse `fibonacci(0..4)`, giving 10945 + 7 |
| PostsService.FilterByUser | backend-server/index.js:79-81 | the filtered list is no longer than the input |
| PostsService.FilterMembership | backend-server/index.js:80 | a post is in the filtered list exactly when it is in the input and its `userId` matches |
| PostsService.FilterConcat | backend-server/index.js:80 | filtering keeps seed order: it distributes over concatenation |
| PostsService.FilterSingle | backend-server/index.js:80 | a single post is kept exactly when its user matches |
| PostsService.FilterAllMatch | backend-server/index.js:80 | when every post matches, the filter returns all of them unchanged |
| PostsService.FindPost | backend-server/index.js:96 | `None` exactly when no post has the id; otherwise the first post with that id |
| PostsService.FindPostSequential | backend-server/index.js:95-102 | with sequential ids, the lookup returns `posts[id-1]` when `1 <= id <= length` and nothing otherwise |
| PostsService.SequentialIdsUnique | backend-server/index.js:133 | with sequential ids, no two posts share an id |
| PostsService.SeedSequential | backend-server/index.js:12-49 | the seed has `posts[i].id == i + 1` |
| PostsService.PostsServer.constructor | backend-server/index.js:12-49 | the service starts with the seed posts, which satisfy the id invariant |
| PostsService.PostsServer.ListPosts | backend-server/index.js:74-91 | with a `userId`, the filtered posts; without one, all posts; then, with a `limit`, the prefix of length `min(limit, count)`; the stored posts are only read |
| PostsService.PostsServer.GetPost | backend-server/index.js:94-103 | 200 with the first post of that id (`FindPost`, whatever the ids), or 404 with the error message, exactly when no post has it; with sequential ids this is `posts[id-1]` |
| PostsService.PostsServer.CreatePost | backend-server/index.js:125-142 | a missing or empty `title` or `body` gives 400 and no change; otherwise it appends and returns (201) the post with id `length + 1`, with the given title and body and with `userId` defaulting to 1; earlier posts stay, and the id invariant is preserved |

## Left out

- Browser and runtime plumbing is not modelled: the real `fetch` and `response.json()`, `new Worker`, `postMessage`, `terminate`, and the scheduling of `setInterval` and `setTimeout`. Their arrivals appear only as events with abstract payloads. `Enabled` says which arrivals are possible.
- Time is not modelled. The 1000 ms period, the 5000 ms notification delay and the 500 ms artificial delay of the post list are absent. The model only knows that an expiry can arrive for each pending timeout, not that it arrives 5 seconds after the notification was added.
- Store.TaskStore.AddNotification: `type` is any string in the source; the model allows only the three kinds the store passes (`Info`, `Success`, `Error`).
- The `console.error` calls of the worker's `onerror` (vite-project/src/store/index.js:122) and of the worker script's error listener (vite-project/public/worker.js:29) are logging only and are left out.
- `Date` values are opaque integers supplied by the caller. The notification id (`Date.now()`) and its timestamp are separate parameters, so they may differ and ids may collide.
- Store.TaskStore.FetchSucceed: the `finally` block would also run if `addNotification` threw. The modelled `addNotification` cannot throw, so that path does not exist in the model.
- Store.TaskStore.FetchSucceed: the decoded JSON is assumed to be a sequence of posts. A body that decodes to some other JSON value is not modelled.
- Worker.Compute: JavaScript numbers are doubles. The model uses unbounded integers, so it does not capture the loss of precision above 2^53, which needs an input above about 2·10^12. Non-integer or non-numeric inputs are also not modelled.
- PostsService.PostsServer.ListPosts: `parseInt` edge cases are not modelled. A `userId` or `limit` that parses to `NaN`, or a negative `limit` with its `slice` semantics, is outside the model. Parameters arrive as parsed values, with `None` for an absent or empty query value.
- PostsService.PostsServer.CreatePost: `title`, `body` and `userId` are modelled as strings and integers. JSON bodies with other types are not modelled, for example a string `userId`, which would be stored as given.
- `GET /api/slow` (floating-point `Math.sqrt`/`Math.sin` and `toFixed`), `GET /` and `GET /api/health` (constant payloads and the process uptime) are left out.
- The Express set-up is left out: middleware, CORS, the fallback 500 and 404 handlers, `app.listen` and console logging.
- `vite-project/src/router/index.js` (a declarative route table) and `services/api.js` (a thin HTTP wrapper) are not part of this model.
- True concurrency is not modelled. The single-threaded interleavings are covered by sequences of `Step` events.
