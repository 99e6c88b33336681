/** The background-task coordination store: a timer slice, a fetch slice, a worker slice
    and the application slice with its notification queue. Every asynchronous arrival
    (an interval firing, a fetch settling, a worker reply, a notification timeout) is an
    event of its own, so an interleaving is a sequence of `Step`s. */
module Store {
  import opened Common
  import opened Notifications
  import TimerFormat
  import Worker

  const FetchSuccessMessage: string := "投稿データの取得に成功しました"
  const FetchFailureMessage: string := "投稿データの取得に失敗しました"
  const WorkerDoneMessage: string := "計算が完了しました"
  const WorkerErrorMessage: string := "計算中にエラーが発生しました"

  /** `globalTimer`. Times are milliseconds supplied by the caller. */
  datatype TimerState = TimerState(isRunning: bool, count: nat, startTime: Option<int>)

  /** `apiData`. */
  datatype ApiData = ApiData(posts: seq<Post>, loading: bool, error: Option<string>, lastFetched: Option<int>)

  /** `workerData`: `result` holds the whole message the worker posted. */
  datatype WorkerData = WorkerData(isRunning: bool, result: Option<Worker.Reply>, input: int)

  /** `appState`. */
  datatype AppState = AppState(currentPage: string, notifications: seq<Notification>)

  /** What the JavaScript runtime holds on the store's behalf: the handles of the
      intervals still registered, the next handle `setInterval` hands out, the fetches
      and workers still to settle, and the ids of the 5-second removal timeouts still pending. */
  datatype Runtime = Runtime(
    intervals: set<nat>,
    nextHandle: nat,
    fetches: nat,
    workers: nat,
    expiries: multiset<int>)

  /** The store's state plus `timerInterval`, the handle the store keeps. */
  datatype State = State(
    globalTimer: TimerState,
    apiData: ApiData,
    workerData: WorkerData,
    appState: AppState,
    timerInterval: Option<nat>,
    runtime: Runtime)

  /** The `state()` factory; no interval, fetch, worker or timeout is pending. */
  function Initial(): State
  {
    State(
      TimerState(false, 0, None),
      ApiData([], false, None, None),
      WorkerData(false, None, 1000),
      AppState("home", []),
      None,
      Runtime({}, 1, 0, 0, multiset{}))
  }

  /** Actions called by the UI and arrivals from the runtime. */
  datatype Event =
    | TimerStarted(now: int)
    | IntervalFired(handle: nat)
    | TimerStopped
    | TimerReset
    | FetchIssued
    | FetchResolved(posts: seq<Post>, fetchedAt: int, now: int, noteId: int)
    | FetchRejected(message: string, now: int, noteId: int)
    | WorkerStarted(input: int)
    | WorkerReplied(data: Worker.Reply, now: int, noteId: int)
    | WorkerErrored(now: int, noteId: int)
    | NotificationAdded(message: string, kind: Kind, id: int, now: int)
    | NotificationRemoved(id: int)
    | NotificationExpired(id: int)
    | PageSet(page: string)

  /** Runtime arrivals happen only for something pending: a registered interval, an
      unsettled fetch, a worker not yet terminated, a timeout not yet run. */
  predicate Enabled(s: State, e: Event)
  {
    match e
    case IntervalFired(h) => h in s.runtime.intervals
    case FetchResolved(_, _, _, _) => s.runtime.fetches > 0
    case FetchRejected(_, _, _) => s.runtime.fetches > 0
    case WorkerReplied(_, _, _) => s.runtime.workers > 0
    case WorkerErrored(_, _) => s.runtime.workers > 0
    case NotificationExpired(id) => id in s.runtime.expiries
    case _ => true
  }

  /** `addNotification`: the new entry goes to the head and its removal timeout is scheduled. */
  function Notify(s: State, message: string, kind: Kind, id: int, now: int): State
  {
    s.(appState := s.appState.(notifications := [Notification(id, message, kind, now)] + s.appState.notifications),
       runtime := s.runtime.(expiries := s.runtime.expiries + multiset{id}))
  }

  /** `startGlobalTimer`: a fresh interval is registered and its handle stored, even when
      one is already running. */
  function Started(s: State, now: int): State
  {
    var h := s.runtime.nextHandle;
    s.(globalTimer := s.globalTimer.(isRunning := true, startTime := Some(now)),
       timerInterval := Some(h),
       runtime := s.runtime.(intervals := s.runtime.intervals + {h}, nextHandle := h + 1))
  }

  /** The interval callback: `count++`. */
  function Fired(s: State): State
  {
    s.(globalTimer := s.globalTimer.(count := s.globalTimer.count + 1))
  }

  /** `stopGlobalTimer`: only the interval whose handle is stored is cleared. */
  function Stopped(s: State): State
  {
    var intervals := if s.timerInterval.Some? then s.runtime.intervals - {s.timerInterval.value} else s.runtime.intervals;
    s.(globalTimer := s.globalTimer.(isRunning := false),
       timerInterval := None,
       runtime := s.runtime.(intervals := intervals))
  }

  /** `resetGlobalTimer`: stop, then clear `count` and `startTime`. */
  function Reset(s: State): State
  {
    var t := Stopped(s);
    t.(globalTimer := t.globalTimer.(count := 0, startTime := None))
  }

  /** `fetchPosts` up to its `await`. */
  function Issued(s: State): State
  {
    s.(apiData := s.apiData.(loading := true, error := None),
       runtime := s.runtime.(fetches := s.runtime.fetches + 1))
  }

  /** `fetchPosts` after the response arrives: the `try` block, then `finally`. `fetchedAt` is the
      clock read for `lastFetched`, `now` the later one `addNotification` takes for its timestamp. */
  function Resolved(s: State, posts: seq<Post>, fetchedAt: int, now: int, noteId: int): State
    requires s.runtime.fetches > 0
  {
    var t := Notify(s.(apiData := s.apiData.(posts := posts, lastFetched := Some(fetchedAt))),
                    FetchSuccessMessage, Success, noteId, now);
    t.(apiData := t.apiData.(loading := false), runtime := t.runtime.(fetches := t.runtime.fetches - 1))
  }

  /** `fetchPosts` after a rejection: the `catch` block, then `finally`. */
  function Rejected(s: State, message: string, now: int, noteId: int): State
    requires s.runtime.fetches > 0
  {
    var t := Notify(s.(apiData := s.apiData.(error := Some(message))), FetchFailureMessage, Error, noteId, now);
    t.(apiData := t.apiData.(loading := false), runtime := t.runtime.(fetches := t.runtime.fetches - 1))
  }

  /** `startWorker`. */
  function Dispatched(s: State, input: int): State
  {
    s.(workerData := WorkerData(true, None, input),
       runtime := s.runtime.(workers := s.runtime.workers + 1))
  }

  /** The worker's `onmessage`, then `terminate`. */
  function Replied(s: State, data: Worker.Reply, now: int, noteId: int): State
    requires s.runtime.workers > 0
  {
    var t := Notify(s.(workerData := s.workerData.(result := Some(data), isRunning := false)),
                    WorkerDoneMessage, Success, noteId, now);
    t.(runtime := t.runtime.(workers := t.runtime.workers - 1))
  }

  /** The worker's `onerror`, then `terminate`. */
  function Errored(s: State, now: int, noteId: int): State
    requires s.runtime.workers > 0
  {
    var t := Notify(s.(workerData := s.workerData.(isRunning := false)), WorkerErrorMessage, Error, noteId, now);
    t.(runtime := t.runtime.(workers := t.runtime.workers - 1))
  }

  /** `removeNotification`. */
  function Removed(s: State, id: int): State
  {
    s.(appState := s.appState.(notifications := RemoveFirst(s.appState.notifications, id)))
  }

  /** The removal timeout scheduled by `addNotification` runs. */
  function Expired(s: State, id: int): State
  {
    var t := Removed(s, id);
    t.(runtime := t.runtime.(expiries := t.runtime.expiries - multiset{id}))
  }

  /** `setCurrentPage`. */
  function PageChanged(s: State, page: string): State
  {
    s.(appState := s.appState.(currentPage := page))
  }

  function Step(s: State, e: Event): State
    requires Enabled(s, e)
  {
    match e
    case TimerStarted(now) => Started(s, now)
    case IntervalFired(_) => Fired(s)
    case TimerStopped => Stopped(s)
    case TimerReset => Reset(s)
    case FetchIssued => Issued(s)
    case FetchResolved(posts, fetchedAt, now, noteId) => Resolved(s, posts, fetchedAt, now, noteId)
    case FetchRejected(message, now, noteId) => Rejected(s, message, now, noteId)
    case WorkerStarted(input) => Dispatched(s, input)
    case WorkerReplied(data, now, noteId) => Replied(s, data, now, noteId)
    case WorkerErrored(now, noteId) => Errored(s, now, noteId)
    case NotificationAdded(message, kind, id, now) => Notify(s, message, kind, id, now)
    case NotificationRemoved(id) => Removed(s, id)
    case NotificationExpired(id) => Expired(s, id)
    case PageSet(page) => PageChanged(s, page)
  }

  /** What holds of every state the store can reach: handles are positive and below the
      next one, the stored handle is live, `loading` and the worker's `isRunning` imply
      something is pending, and every queued notification still has its removal timeout pending. */
  ghost predicate Consistent(s: State)
  {
    && 1 <= s.runtime.nextHandle
    && (forall h :: h in s.runtime.intervals ==> 0 < h < s.runtime.nextHandle)
    && (s.timerInterval.Some? ==> s.timerInterval.value in s.runtime.intervals)
    && (s.globalTimer.isRunning <==> s.timerInterval.Some?)
    && (s.apiData.loading ==> s.runtime.fetches > 0)
    && (s.workerData.isRunning ==> s.runtime.workers > 0)
    && Ids(s.appState.notifications) <= s.runtime.expiries
  }

  // ---------------------------------------------------------------- getters

  /** `formattedTimer`: `MM:SS`, the minutes not capped. */
  function FormattedTimer(s: State): (f: string)
    ensures 5 <= |f| && f[|f| - 3] == ':'
    ensures forall i :: 0 <= i < |f| && i != |f| - 3 ==> TimerFormat.IsDigit(f[i])
  {
    TimerFormat.FormatParts(s.globalTimer.count);
    TimerFormat.Format(s.globalTimer.count)
  }

  /** `postsCount`: `latestPosts` shows all of them up to five. */
  function PostsCount(s: State): (n: nat)
    ensures n == 0 <==> s.apiData.posts == []
    ensures |LatestPosts(s)| == Min(5, n)
  {
    |s.apiData.posts|
  }

  /** `latestPosts`: `posts.slice(0, 5)`. */
  function LatestPosts(s: State): (r: seq<Post>)
    ensures |r| <= 5 && |r| <= |s.apiData.posts|
    ensures |r| < 5 ==> r == s.apiData.posts
    ensures forall i :: 0 <= i < |r| ==> r[i] == s.apiData.posts[i]
  {
    s.apiData.posts[..Min(5, |s.apiData.posts|)]
  }

  /** `notificationCount`: the queued ids counted with repetition, so colliding ids count twice. */
  function NotificationCount(s: State): (n: nat)
    ensures n == |Ids(s.appState.notifications)|
  {
    IdsSize(s.appState.notifications);
    |s.appState.notifications|
  }

  /** `latestPosts` is the prefix of at most five posts, in their stored order. */
  lemma LatestPostsPrefix(s: State)
    ensures |LatestPosts(s)| == Min(5, PostsCount(s)) <= 5
    ensures LatestPosts(s) + s.apiData.posts[|LatestPosts(s)|..] == s.apiData.posts
  {
  }

  /** `formattedTimer` renders the two parts of the count, as `TimerFormat.FormatParts` states. */
  lemma FormattedTimerParts(s: State)
    ensures var f := FormattedTimer(s);
      && f[|f| - 3] == ':'
      && TimerFormat.ParseDecimal(f[..|f| - 3]) == s.globalTimer.count / 60
      && TimerFormat.ParseDecimal(f[|f| - 2..]) == s.globalTimer.count % 60
  {
    TimerFormat.FormatParts(s.globalTimer.count);
  }

  // ---------------------------------------------------------------- invariant

  lemma InitialConsistent()
    ensures Consistent(Initial())
  {
  }

  lemma NotifyConsistent(s: State, message: string, kind: Kind, id: int, now: int)
    requires Consistent(s)
    ensures Consistent(Notify(s, message, kind, id, now))
  {
    IdsOfPrepend(Notification(id, message, kind, now), s.appState.notifications);
  }

  lemma RemovedConsistent(s: State, id: int)
    requires Consistent(s)
    ensures Consistent(Removed(s, id))
  {
    RemoveFirstIds(s.appState.notifications, id);
  }

  lemma ExpiredConsistent(s: State, id: int)
    requires Consistent(s) && id in s.runtime.expiries
    ensures Consistent(Expired(s, id))
  {
    RemoveFirstIds(s.appState.notifications, id);
  }

  lemma ResolvedConsistent(s: State, posts: seq<Post>, fetchedAt: int, now: int, noteId: int)
    requires Consistent(s) && s.runtime.fetches > 0
    ensures Consistent(Resolved(s, posts, fetchedAt, now, noteId))
  {
    NotifyConsistent(s.(apiData := s.apiData.(posts := posts, lastFetched := Some(fetchedAt))),
                     FetchSuccessMessage, Success, noteId, now);
  }

  lemma RejectedConsistent(s: State, message: string, now: int, noteId: int)
    requires Consistent(s) && s.runtime.fetches > 0
    ensures Consistent(Rejected(s, message, now, noteId))
  {
    NotifyConsistent(s.(apiData := s.apiData.(error := Some(message))), FetchFailureMessage, Error, noteId, now);
  }

  lemma RepliedConsistent(s: State, data: Worker.Reply, now: int, noteId: int)
    requires Consistent(s) && s.runtime.workers > 0
    ensures Consistent(Replied(s, data, now, noteId))
  {
    NotifyConsistent(s.(workerData := s.workerData.(result := Some(data), isRunning := false)),
                     WorkerDoneMessage, Success, noteId, now);
  }

  lemma ErroredConsistent(s: State, now: int, noteId: int)
    requires Consistent(s) && s.runtime.workers > 0
    ensures Consistent(Errored(s, now, noteId))
  {
    NotifyConsistent(s.(workerData := s.workerData.(isRunning := false)), WorkerErrorMessage, Error, noteId, now);
  }

  /** Every event the runtime can deliver keeps the store consistent. */
  lemma StepConsistent(s: State, e: Event)
    requires Consistent(s) && Enabled(s, e)
    ensures Consistent(Step(s, e))
  {
    match e
    case TimerStarted(_) =>
    case IntervalFired(_) =>
    case TimerStopped =>
    case TimerReset =>
    case FetchIssued =>
    case FetchResolved(posts, fetchedAt, now, noteId) => ResolvedConsistent(s, posts, fetchedAt, now, noteId);
    case FetchRejected(message, now, noteId) => RejectedConsistent(s, message, now, noteId);
    case WorkerStarted(_) =>
    case WorkerReplied(data, now, noteId) => RepliedConsistent(s, data, now, noteId);
    case WorkerErrored(now, noteId) => ErroredConsistent(s, now, noteId);
    case NotificationAdded(message, kind, id, now) => NotifyConsistent(s, message, kind, id, now);
    case NotificationRemoved(id) => RemovedConsistent(s, id);
    case NotificationExpired(id) => ExpiredConsistent(s, id);
    case PageSet(_) =>
  }

  /** Every queued notification still has a removal timeout pending, so its expiry can arrive. */
  lemma QueuedNotificationExpires(s: State, i: nat)
    requires Consistent(s) && i < |s.appState.notifications|
    ensures Enabled(s, NotificationExpired(s.appState.notifications[i].id))
  {
    IdsMembership(s.appState.notifications, s.appState.notifications[i].id);
  }

  // ---------------------------------------------------------------- timer

  /** `stopGlobalTimer` always ends stopped with no stored handle, and a second stop changes nothing. */
  lemma StopIdempotent(s: State)
    ensures var t := Step(s, TimerStopped);
      && !t.globalTimer.isRunning && t.timerInterval.None?
      && t.globalTimer.count == s.globalTimer.count
      && Step(t, TimerStopped) == t
  {
  }

  /** In a consistent state a stop while the timer is not running changes nothing:
      no interval is stored, so none is cleared. */
  lemma StopWhenStopped(s: State)
    requires Consistent(s) && !s.globalTimer.isRunning
    ensures Step(s, TimerStopped) == s
  {
  }

  /** `resetGlobalTimer` ends with count 0, no start time, stopped, whatever the prior state;
      only the timer fields and the stored interval change. */
  lemma ResetClears(s: State)
    ensures var t := Step(s, TimerReset);
      && t.globalTimer == TimerState(false, 0, None)
      && t.timerInterval.None?
      && t.apiData == s.apiData && t.workerData == s.workerData && t.appState == s.appState
  {
  }

  /** `k` firings of the interval with handle `h`. */
  function Ticks(s: State, h: nat, k: nat): (t: State)
    requires h in s.runtime.intervals
    ensures h in t.runtime.intervals
  {
    if k == 0 then s else Step(Ticks(s, h, k - 1), IntervalFired(h))
  }

  /** Each firing adds exactly one to the count, and changes nothing else. */
  lemma {:induction false} TicksCount(s: State, h: nat, k: nat)
    requires h in s.runtime.intervals
    ensures Ticks(s, h, k).globalTimer.count == s.globalTimer.count + k
    ensures Ticks(s, h, k) == s.(globalTimer := s.globalTimer.(count := s.globalTimer.count + k))
  {
    if k > 0 {
      TicksCount(s, h, k - 1);
    }
  }

  /** Starting, letting the interval fire `k` times and stopping leaves `count` raised by exactly `k`. */
  lemma StartTicksStop(s: State, now: int, k: nat)
    ensures var started := Step(s, TimerStarted(now));
      var h := s.runtime.nextHandle;
      h in started.runtime.intervals &&
      Step(Ticks(started, h, k), TimerStopped).globalTimer.count == s.globalTimer.count + k
  {
    var started := Step(s, TimerStarted(now));
    TicksCount(started, s.runtime.nextHandle, k);
  }

  /** `startGlobalTimer` does not look at `isRunning`: two starts register two intervals,
      a stop clears only the last one, and the first keeps firing while the timer reads as stopped. */
  lemma DoubleStartLeaksInterval(s: State, now1: int, now2: int)
    requires Consistent(s)
    ensures var t := Step(Step(Step(s, TimerStarted(now1)), TimerStarted(now2)), TimerStopped);
      var first := s.runtime.nextHandle;
      && !t.globalTimer.isRunning
      && first in t.runtime.intervals
      && Step(t, IntervalFired(first)).globalTimer.count == t.globalTimer.count + 1
      && Step(t, TimerStopped).runtime.intervals == t.runtime.intervals
  {
  }

  // ---------------------------------------------------------------- fetch

  /** A settled fetch: new posts, `lastFetched` set, `loading` false, `error` left as it was,
      one success notification at the head; timer and worker untouched. */
  lemma FetchSuccess(s: State, posts: seq<Post>, fetchedAt: int, now: int, noteId: int)
    requires s.runtime.fetches > 0
    ensures var t := Step(s, FetchResolved(posts, fetchedAt, now, noteId));
      && t.apiData == ApiData(posts, false, s.apiData.error, Some(fetchedAt))
      && t.appState.notifications == [Notification(noteId, FetchSuccessMessage, Success, now)] + s.appState.notifications
      && PostsCount(t) == |posts|
      && t.globalTimer == s.globalTimer && t.workerData == s.workerData
  {
  }

  /** A rejected fetch: posts and `lastFetched` kept, `error` set, `loading` false,
      one error notification at the head. */
  lemma FetchFailure(s: State, message: string, now: int, noteId: int)
    requires s.runtime.fetches > 0
    ensures var t := Step(s, FetchRejected(message, now, noteId));
      && t.apiData == ApiData(s.apiData.posts, false, Some(message), s.apiData.lastFetched)
      && t.appState.notifications == [Notification(noteId, FetchFailureMessage, Error, now)] + s.appState.notifications
      && t.globalTimer == s.globalTimer && t.workerData == s.workerData
  {
  }

  /** A fetch issued and then settled leaves `error` null. */
  lemma FetchRoundTrip(s: State, posts: seq<Post>, fetchedAt: int, now: int, noteId: int)
    ensures var t := Step(Step(s, FetchIssued), FetchResolved(posts, fetchedAt, now, noteId));
      t.apiData == ApiData(posts, false, None, Some(fetchedAt)) && t.runtime.fetches == s.runtime.fetches
  {
  }

  /** Two overlapping fetches: the state reflects the one that settles last, and `loading`
      already reads false after the first settles although the other is still pending. */
  lemma FetchLastResolvedWins(s: State, first: seq<Post>, second: seq<Post>, at1: int, at2: int,
                              now1: int, now2: int, id1: int, id2: int)
    ensures var issued := Step(Step(s, FetchIssued), FetchIssued);
      var mid := Step(issued, FetchResolved(second, at2, now2, id2));
      var t := Step(mid, FetchResolved(first, at1, now1, id1));
      && !mid.apiData.loading && mid.runtime.fetches == s.runtime.fetches + 1
      && t.apiData.posts == first && t.apiData.lastFetched == Some(at1)
      && t.runtime.fetches == s.runtime.fetches
  {
  }

  // ---------------------------------------------------------------- worker

  /** `startWorker`: running, no result, the input recorded, one more worker pending. */
  lemma WorkerStart(s: State, input: int)
    ensures var t := Step(s, WorkerStarted(input));
      && t.workerData == WorkerData(true, None, input)
      && t.runtime.workers == s.runtime.workers + 1
  {
  }

  /** `onmessage` stores whatever the worker posted and reports success, even when the
      message is the worker's own error reply. */
  lemma WorkerMessageStored(s: State, data: Worker.Reply, now: int, noteId: int)
    requires s.runtime.workers > 0
    ensures var t := Step(s, WorkerReplied(data, now, noteId));
      && t.workerData == WorkerData(false, Some(data), s.workerData.input)
      && t.appState.notifications == [Notification(noteId, WorkerDoneMessage, Success, now)] + s.appState.notifications
      && t.runtime.workers == s.runtime.workers - 1
  {
  }

  /** A dispatch answered by any reply meeting the postcondition of `Worker.HandleMessage`
      (a `Done` echoing `input` with `Worker.Total(input)`) leaves that total in the slice. */
  lemma WorkerReplyCarriesTotal(s: State, input: int, reply: Worker.Reply, now: int, noteId: int)
    requires reply.Done? && reply.input == input && reply.result == Worker.Total(input)
    ensures var started := Step(s, WorkerStarted(input));
      var t := Step(started, WorkerReplied(reply, now, noteId));
      && t.workerData.result.Some? && t.workerData.result.value.Done?
      && t.workerData.result.value.input == t.workerData.input == input
      && t.workerData.result.value.result == Worker.Total(input)
  {
  }

  /** `onerror`: not running any more, the result left as it was, one error notification. */
  lemma WorkerErrorReported(s: State, now: int, noteId: int)
    requires s.runtime.workers > 0
    ensures var t := Step(s, WorkerErrored(now, noteId));
      && t.workerData == s.workerData.(isRunning := false)
      && t.appState.notifications == [Notification(noteId, WorkerErrorMessage, Error, now)] + s.appState.notifications
  {
  }

  /** No re-entrancy guard: after two dispatches and one reply the slice reads as idle
      while the second worker is still pending. */
  lemma WorkerNoGuard(s: State, a: int, b: int, data: Worker.Reply, now: int, noteId: int)
    ensures var started := Step(Step(s, WorkerStarted(a)), WorkerStarted(b));
      var t := Step(started, WorkerReplied(data, now, noteId));
      && !t.workerData.isRunning && t.workerData.input == b
      && t.runtime.workers == s.runtime.workers + 1
  {
  }

  // ---------------------------------------------------------------- notifications

  /** `addNotification` puts the new entry first and keeps the old queue behind it. */
  lemma AddNotificationFront(s: State, message: string, kind: Kind, id: int, now: int)
    ensures var t := Step(s, NotificationAdded(message, kind, id, now));
      && NotificationCount(t) == NotificationCount(s) + 1
      && t.appState.notifications[0] == Notification(id, message, kind, now)
      && t.appState.notifications[1..] == s.appState.notifications
  {
  }

  /** `removeNotification` with an id nobody carries changes nothing; otherwise the count drops by one
      and one occurrence of the id is gone. */
  lemma RemoveNotificationEffect(s: State, id: int)
    ensures var t := Step(s, NotificationRemoved(id));
      && ((forall i :: 0 <= i < |s.appState.notifications| ==> s.appState.notifications[i].id != id) ==> t == s)
      && Ids(t.appState.notifications) == Ids(s.appState.notifications) - multiset{id}
      && NotificationCount(t) == if id in Ids(s.appState.notifications) then NotificationCount(s) - 1 else NotificationCount(s)
  {
    var q := s.appState.notifications;
    var t := Step(s, NotificationRemoved(id));
    assert t == s.(appState := s.appState.(notifications := RemoveFirst(q, id)));
    RemoveFirstIds(q, id);
    assert NotificationCount(t) == |RemoveFirst(q, id)|;
    if forall i :: 0 <= i < |q| ==> q[i].id != id {
      RemoveAbsent(q, id);
    }
  }

  /** Ids come from the clock: when two notifications get the same id, the expiry of
      the older one removes the newer one; the older entry stays, and one removal timeout
      for the id is still pending. */
  lemma CollidingExpiry(s: State, m1: string, m2: string, k1: Kind, k2: Kind, id: int, now1: int, now2: int)
    ensures var added := Step(Step(s, NotificationAdded(m1, k1, id, now1)), NotificationAdded(m2, k2, id, now2));
      var t := Step(added, NotificationExpired(id));
      && t.appState.notifications == [Notification(id, m1, k1, now1)] + s.appState.notifications
      && t.runtime.expiries == s.runtime.expiries + multiset{id}
  {
    var q := s.appState.notifications;
    assert [Notification(id, m2, k2, now2)] + ([Notification(id, m1, k1, now1)] + q) ==
           [Notification(id, m2, k2, now2), Notification(id, m1, k1, now1)] + q;
  }

  // ---------------------------------------------------------------- the store object

  class TaskStore {
    var globalTimer: TimerState
    var apiData: ApiData
    var workerData: WorkerData
    var appState: AppState
    var timerInterval: Option<nat>
    var runtime: Runtime

    function Snapshot(): State
      reads this
    {
      State(globalTimer, apiData, workerData, appState, timerInterval, runtime)
    }

    ghost predicate Valid()
      reads this
    {
      Consistent(Snapshot())
    }

    constructor ()
      ensures Valid() && Snapshot() == Initial()
    {
      globalTimer := TimerState(false, 0, None);
      apiData := ApiData([], false, None, None);
      workerData := WorkerData(false, None, 1000);
      appState := AppState("home", []);
      timerInterval := None;
      runtime := Runtime({}, 1, 0, 0, multiset{});
    }

    method StartGlobalTimer(now: int)
      requires Valid()
      modifies this
      ensures Valid() && Snapshot() == Started(old(Snapshot()), now)
    {
      globalTimer := globalTimer.(isRunning := true, startTime := Some(now));
      var handle := runtime.nextHandle;
      runtime := runtime.(intervals := runtime.intervals + {handle}, nextHandle := handle + 1);
      timerInterval := Some(handle);
    }

    /** One firing of the interval callback registered under `handle`. */
    method Tick(handle: nat)
      requires Valid() && handle in runtime.intervals
      modifies this
      ensures Valid() && Snapshot() == Fired(old(Snapshot()))
    {
      globalTimer := globalTimer.(count := globalTimer.count + 1);
    }

    method StopGlobalTimer()
      requires Valid()
      modifies this
      ensures Valid() && Snapshot() == Stopped(old(Snapshot()))
    {
      globalTimer := globalTimer.(isRunning := false);
      if timerInterval.Some? {
        runtime := runtime.(intervals := runtime.intervals - {timerInterval.value});
        timerInterval := None;
      }
    }

    method ResetGlobalTimer()
      requires Valid()
      modifies this
      ensures Valid() && Snapshot() == Reset(old(Snapshot()))
    {
      StopGlobalTimer();
      globalTimer := globalTimer.(count := 0, startTime := None);
    }

    /** `fetchPosts` up to its first `await`. */
    method FetchBegin()
      requires Valid()
      modifies this
      ensures Valid() && Snapshot() == Issued(old(Snapshot()))
    {
      apiData := apiData.(loading := true, error := None);
      runtime := runtime.(fetches := runtime.fetches + 1);
    }

    /** `fetchPosts` resumed with the decoded body: the `try` block, then `finally`. */
    method FetchSucceed(posts: seq<Post>, fetchedAt: int, now: int, noteId: int)
      requires Valid() && runtime.fetches > 0
      modifies this
      ensures Valid() && Snapshot() == Resolved(old(Snapshot()), posts, fetchedAt, now, noteId)
    {
      ghost var before := Snapshot();
      apiData := apiData.(posts := posts, lastFetched := Some(fetchedAt));
      AddNotification(FetchSuccessMessage, noteId, now, Success);
      apiData := apiData.(loading := false);
      runtime := runtime.(fetches := runtime.fetches - 1);
      ResolvedConsistent(before, posts, fetchedAt, now, noteId);
    }

    /** `fetchPosts` resumed with a rejection: the `catch` block, then `finally`. */
    method FetchFail(message: string, now: int, noteId: int)
      requires Valid() && runtime.fetches > 0
      modifies this
      ensures Valid() && Snapshot() == Rejected(old(Snapshot()), message, now, noteId)
    {
      ghost var before := Snapshot();
      apiData := apiData.(error := Some(message));
      AddNotification(FetchFailureMessage, noteId, now, Error);
      apiData := apiData.(loading := false);
      runtime := runtime.(fetches := runtime.fetches - 1);
      RejectedConsistent(before, message, now, noteId);
    }

    /** `startWorker`: a new worker is created and sent `input`. */
    method StartWorker(input: int)
      requires Valid()
      modifies this
      ensures Valid() && Snapshot() == Dispatched(old(Snapshot()), input)
    {
      workerData := workerData.(isRunning := true, result := None, input := input);
      runtime := runtime.(workers := runtime.workers + 1);
    }

    /** The worker's `onmessage`; the worker is terminated afterwards. */
    method WorkerMessage(data: Worker.Reply, now: int, noteId: int)
      requires Valid() && runtime.workers > 0
      modifies this
      ensures Valid() && Snapshot() == Replied(old(Snapshot()), data, now, noteId)
    {
      ghost var before := Snapshot();
      workerData := workerData.(result := Some(data), isRunning := false);
      AddNotification(WorkerDoneMessage, noteId, now, Success);
      runtime := runtime.(workers := runtime.workers - 1);
      RepliedConsistent(before, data, now, noteId);
    }

    /** The worker's `onerror`; the worker is terminated afterwards. */
    method WorkerError(now: int, noteId: int)
      requires Valid() && runtime.workers > 0
      modifies this
      ensures Valid() && Snapshot() == Errored(old(Snapshot()), now, noteId)
    {
      ghost var before := Snapshot();
      workerData := workerData.(isRunning := false);
      ghost var stopped := Snapshot();
      AddNotification(WorkerErrorMessage, noteId, now, Error);
      assert Snapshot() == Notify(stopped, WorkerErrorMessage, Error, noteId, now);
      runtime := runtime.(workers := runtime.workers - 1);
      ErroredConsistent(before, now, noteId);
    }

    /** `addNotification`; `id` is its `Date.now()` reading and `now` its `new Date()` reading.
        The kind defaults to `Info`, as `type` defaults to `'info'`. */
    method AddNotification(message: string, id: int, now: int, kind: Kind := Info)
      modifies this
      ensures Snapshot() == Notify(old(Snapshot()), message, kind, id, now)
      ensures old(Valid()) ==> Valid()
    {
      ghost var before := Snapshot();
      appState := appState.(notifications := [Notification(id, message, kind, now)] + appState.notifications);
      runtime := runtime.(expiries := runtime.expiries + multiset{id});
      if Consistent(before) {
        NotifyConsistent(before, message, kind, id, now);
      }
    }

    method RemoveNotification(id: int)
      requires Valid()
      modifies this
      ensures Valid() && Snapshot() == Removed(old(Snapshot()), id)
    {
      ghost var before := Snapshot();
      var index := FindIndex(appState.notifications, id);
      SpliceIsRemoveFirst(appState.notifications, id);
      if index > -1 {
        appState := appState.(notifications := appState.notifications[..index] + appState.notifications[index + 1..]);
      }
      RemovedConsistent(before, id);
    }

    /** The 5-second timeout scheduled by `addNotification` runs `removeNotification(id)`. */
    method ExpireNotification(id: int)
      requires Valid() && id in runtime.expiries
      modifies this
      ensures Valid() && Snapshot() == Expired(old(Snapshot()), id)
    {
      ghost var before := Snapshot();
      RemoveNotification(id);
      runtime := runtime.(expiries := runtime.expiries - multiset{id});
      ExpiredConsistent(before, id);
    }

    method SetCurrentPage(page: string)
      requires Valid()
      modifies this
      ensures Valid() && Snapshot() == PageChanged(old(Snapshot()), page)
    {
      appState := appState.(currentPage := page);
    }
  }
}
