# Bidirectional pagination controller

A Dafny model of the pagination controller of the pr0gramm Android app
(`Pagination.kt`). The controller loads pages of items in both directions
of a list: at the head, before the first item, and at the tail, after the
last one. Each end has a cursor, an `EndState` made of the last error, the
item to continue from, a `loading` flag and a `hasMore` flag. A load may
start at an end only when more items are expected there and no load is
outstanding. The check and the flip to `loading` happen before the fetch
task is launched, which is meant to keep at most one fetch per end in
flight; the Findings section shows a case where the code as written does
not. A fetch ends in success, failure or cancellation. Each of these
endings replaces that end's state and publishes one `Update` made of both
ends and the new items. (A throwable that is not an `Exception` escapes
all three; see "## Left out".) A fetch
that starts after a failure is flagged to wait before calling the loader.
`initialize` cancels every running fetch and installs two new end states.
It then loads at the tail when the new tail has a cursor.
`PaginationController.hit` turns a visible position into loads at the
ends it is close to. `addEndStateToValues` appends an error row or a
loading row after a list's items.

Files:

- `pagination_data.dfy` (module `PaginationData`) holds the immutable
  records: `EndState`, `State`, `Update` and `Page`, with the cursor rules
  of `Page.atHead` / `Page.atTail`. It also holds the default loader's
  page. The mutable property reference that picks the head or the tail
  cursor is replaced by a `Direction` (`Head` | `Tail`).
- `load_protocol.dfy` (module `LoadProtocol`) is the controller as a value
  (`Machine`). It holds both ends, the fetch tasks launched in the
  controller's job, and the log of published updates. Every entry point is
  a transition of this machine. The asynchronous fetch becomes two events:
  `Fetch` is the loader call, which reads the cursor current at that
  moment, and `Complete` applies the outcome (`Loaded`, `Failed` or
  `Cancelled`) to the end state current at that moment, except for a task
  cancelled by `initialize`, which changes nothing. Single flight is the
  invariant `Inv`. It is proved for every run whose `initialize` calls
  install ends that are not loading. Its uniqueness half, at most one live
  fetch per end, is `AtMostOneFetch` and is proved for every run. An
  exhausted end is proved to stay exhausted until the next `initialize`.
- `pagination_objects.dfy` (module `PaginationObjects`) holds the classes
  `Pagination` and `PaginationController`. Their fields change in place.
  Each method is proved to perform exactly one transition of
  `LoadProtocol`. `LoadAtHead`, `LoadAtTail`, `Fetch`, `Complete` and
  `Hit` are also proved to keep `Inv` when it held before, and
  `Initialize` to establish it when given ends that are not loading.
- `end_rows.dfy` (module `EndRows`) holds `addEndStateToValues`, which
  appends to a mutable list of rows in place, and its specification.

Behaviour of the code that the model keeps:

- Starting a load publishes nothing (Pagination.kt:84-89).
- `initialize` starts the first tail load only when the new tail has a
  cursor and `loadAtTail`'s own guard (`hasMore && !loading`) admits it
  (Pagination.kt:59-61, 73-74).
- A fetch started at the tail by `initialize` waits first if the tail given
  to `initialize` carries an error.

## Model

| member | source | states |
|---|---|---|
| `PaginationData.AtHead` | app/src/main/java/com/pr0gramm/app/ui/Pagination.kt:140-142 | the page keeps the items; its cursor is present exactly when `hasMore` holds and the items are non-empty, and then it is the first item |
| `PaginationData.AtTail` | app/src/main/java/com/pr0gramm/app/ui/Pagination.kt:144-146 | the same with the last item |
| `PaginationData.CursorExamples` | app/src/main/java/com/pr0gramm/app/ui/Pagination.kt:138-147 | `atHead([1,2,3], true)` continues from 1, `atHead([1,2,3], false)` has no cursor, `atTail([1,2,3], true)` continues from 3 |
| `LoadProtocol.WithEnd` | app/src/main/java/com/pr0gramm/app/ui/Pagination.kt:82 | setting one end through the direction changes that end and leaves the other end, the tasks and the published updates untouched |
| `LoadProtocol.Publish` | app/src/main/java/com/pr0gramm/app/ui/Pagination.kt:118-124 | publishing appends exactly one update, made of both current ends and the given items, and changes nothing else |
| `LoadProtocol.CancelAll` | app/src/main/java/com/pr0gramm/app/ui/Pagination.kt:52 | cancelling the job's children marks every launched task cancelled and keeps the same tasks |
| `LoadProtocol.Start` | app/src/main/java/com/pr0gramm/app/ui/Pagination.kt:84-89 | starting a load leaves the end loading with no error, keeps its cursor and `hasMore`, leaves the other end alone, publishes nothing, and launches one task whose backoff flag is set exactly when the end had an error |
| `LoadProtocol.LoadAt` | app/src/main/java/com/pr0gramm/app/ui/Pagination.kt:64-78 | `loadAtHead`/`loadAtTail` never publish; they change nothing unless the end has `hasMore && !loading`, and then they start exactly one load |
| `LoadProtocol.Fetch` | app/src/main/java/com/pr0gramm/app/ui/Pagination.kt:97 | the loader is called with the cursor of the end state current at the call; no end changes and nothing is published |
| `LoadProtocol.Succeeded` | app/src/main/java/com/pr0gramm/app/ui/Pagination.kt:100 | after a success the end is not loading and has no error; its cursor is the page's `endValue`, and it has more exactly when that cursor is present |
| `LoadProtocol.Apply` | app/src/main/java/com/pr0gramm/app/ui/Pagination.kt:97-114 | each outcome clears the end's `loading`, leaves the other end and the tasks alone, and publishes exactly one update: the state after the change with the page's items, or with no items after a failure or cancellation |
| `LoadProtocol.CompleteAsWritten` | app/src/main/java/com/pr0gramm/app/ui/Pagination.kt:89-115 | as written, every task, even one cancelled by `initialize`, runs the handler of its outcome on the end state current for its direction: `loading` is cleared there, the other end is kept, the task is removed and exactly one update is published, carrying the page's items after a success |
| `LoadProtocol.StalePageAsWritten` | app/src/main/java/com/pr0gramm/app/ui/Pagination.kt:97-103 | as written, a fetch cancelled by `initialize` whose loader still returns a page puts that page's cursor over the end `initialize` installed and publishes the page's items |
| `LoadProtocol.Complete` | app/src/main/java/com/pr0gramm/app/ui/Pagination.kt:89-115 | corrected: the task is removed; a task cancelled by `initialize` changes no end and publishes nothing |
| `LoadProtocol.Initialize` | app/src/main/java/com/pr0gramm/app/ui/Pagination.kt:50-62 | `initialize(h, t)` publishes exactly `(h, t)` with no items, the head is `h`, and a tail load starts exactly when `t` has a cursor and `hasMore && !loading`; otherwise the tail is `t` |
| `LoadProtocol.Hit` | app/src/main/java/com/pr0gramm/app/ui/Pagination.kt:19-27 | `hit` publishes nothing, leaves each end it is not triggered for alone, and starts at most one load per triggered end |
| `LoadProtocol.DefaultLoaderDisablesEnd` | app/src/main/java/com/pr0gramm/app/ui/Pagination.kt:150-158 | a fetch answered by the default loader's empty page leaves its end with no cursor and no more items, publishes one update with no items, and every later load at that end does nothing |
| `PaginationData.DefaultEnd` | app/src/main/java/com/pr0gramm/app/ui/Pagination.kt:132-136 | `EndState()` has no cursor and no error and cannot start a load |
| `PaginationData.DefaultTail` | app/src/main/java/com/pr0gramm/app/ui/Pagination.kt:50 | the default tail of `initialize` can start a load but has no cursor, so `initialize` does not start one for it |
| `LoadProtocol.Triggers` | app/src/main/java/com/pr0gramm/app/ui/Pagination.kt:19-27 | `hit` loads at the head exactly when `position < headOffset` and at the tail exactly when `size - position - 1 < tailOffset`; both may fire |
| `LoadProtocol.TriggerExamples` | app/src/main/java/com/pr0gramm/app/ui/Pagination.kt:14-27 | with the default offsets of 12, `hit(5, 100)` loads only at the head, `hit(95, 100)` only at the tail, and `hit(5, 15)` at both |
| `LoadProtocol.HitEffect` | app/src/main/java/com/pr0gramm/app/ui/Pagination.kt:19-27 | `hit` publishes nothing, leaves every end it is not triggered for alone, and starts a load at a triggered end exactly when that end can start one |
| `LoadProtocol.HitIdempotent` | app/src/main/java/com/pr0gramm/app/ui/Pagination.kt:19-27 | a second `hit` with the same arguments changes nothing |
| `LoadProtocol.FreshInv` | app/src/main/java/com/pr0gramm/app/ui/Pagination.kt:34-35 | a new controller satisfies single flight |
| `LoadProtocol.StartInv` | app/src/main/java/com/pr0gramm/app/ui/Pagination.kt:84-89 | starting a load at an end that can start keeps single flight, and the new task is that end's only live fetch |
| `LoadProtocol.LoadAtInv` | app/src/main/java/com/pr0gramm/app/ui/Pagination.kt:64-78 | `loadAtHead`/`loadAtTail` keep single flight: the check and the flip to `loading` admit no second fetch for the end |
| `LoadProtocol.FetchInv` | app/src/main/java/com/pr0gramm/app/ui/Pagination.kt:97 | the loader call keeps single flight |
| `LoadProtocol.OnlyLiveTask` | app/src/main/java/com/pr0gramm/app/ui/Pagination.kt:89-115 | in any state with at most one live fetch per end, after the live fetch of an end ends, that end has no live fetch |
| `LoadProtocol.CompleteInv` | app/src/main/java/com/pr0gramm/app/ui/Pagination.kt:97-114 | every ending of a fetch keeps single flight |
| `LoadProtocol.InitializeInv` | app/src/main/java/com/pr0gramm/app/ui/Pagination.kt:50-62 | `initialize` with ends that are not loading restores single flight, whatever the state before |
| `LoadProtocol.HitInv` | app/src/main/java/com/pr0gramm/app/ui/Pagination.kt:19-27 | `hit` keeps single flight |
| `LoadProtocol.StepInv` | app/src/main/java/com/pr0gramm/app/ui/Pagination.kt:50-116 | every event keeps single flight, except an `initialize` given an end that is already loading |
| `LoadProtocol.RunInv` | app/src/main/java/com/pr0gramm/app/ui/Pagination.kt:50-116 | after any run whose `initialize` calls install ends that are not loading, each end has at most one live fetch, and its `loading` flag is set exactly when it has one |
| `LoadProtocol.InvAtMostOne` | app/src/main/java/com/pr0gramm/app/ui/Pagination.kt:64-115 | single flight implies its uniqueness half: every live fetch marks its end `loading` and no end has two |
| `LoadProtocol.StartAtMostOne` | app/src/main/java/com/pr0gramm/app/ui/Pagination.kt:64-89 | a guarded start keeps at most one live fetch per end, each marking its end `loading`, whatever state `initialize` left |
| `LoadProtocol.LoadAtAtMostOne` | app/src/main/java/com/pr0gramm/app/ui/Pagination.kt:64-78 | `loadAtHead`/`loadAtTail` keep at most one live fetch per end |
| `LoadProtocol.CompleteAtMostOne` | app/src/main/java/com/pr0gramm/app/ui/Pagination.kt:89-115 | the corrected ending of any task keeps at most one live fetch per end, each marking its end `loading` |
| `LoadProtocol.StepAtMostOne` | app/src/main/java/com/pr0gramm/app/ui/Pagination.kt:50-116 | every event, including an `initialize` given an end that is already loading, keeps at most one live fetch per end |
| `LoadProtocol.RunAtMostOne` | app/src/main/java/com/pr0gramm/app/ui/Pagination.kt:50-116 | after every run of events, with no restriction on `initialize`, no end has two live fetches |
| `LoadProtocol.FreshAtMostOne` | app/src/main/java/com/pr0gramm/app/ui/Pagination.kt:34-40 | every run from a new controller keeps at most one live fetch per end |
| `LoadProtocol.SuccessPublishesPage` | app/src/main/java/com/pr0gramm/app/ui/Pagination.kt:97-103 | in any state with at most one live fetch per end (every reachable state), a successful fetch sets its end to `EndState(value = endValue, hasMore = endValue != null)`, leaves the other end alone, publishes exactly one update (the page's items with the state after the change), and leaves that end with no live fetch |
| `LoadProtocol.FailureAllowsRetry` | app/src/main/java/com/pr0gramm/app/ui/Pagination.kt:110-113 | from any state, a failure of a task `initialize` has not cancelled records the error, clears `loading`, keeps the cursor and `hasMore`, and publishes one update with no items; the end may load again exactly when it has more, and that load waits first |
| `LoadProtocol.CancellationIsNoError` | app/src/main/java/com/pr0gramm/app/ui/Pagination.kt:105-108 | from any state, a cancellation of a task `initialize` has not cancelled clears `loading` and the error, keeps the cursor and `hasMore`, and publishes one update with no items; the next load does not wait |
| `LoadProtocol.EmptyPageExhausts` | app/src/main/java/com/pr0gramm/app/ui/Pagination.kt:100 | an empty page from `atHead`, `atTail` or the default loader leaves its end with no more items |
| `LoadProtocol.InitializeEffect` | app/src/main/java/com/pr0gramm/app/ui/Pagination.kt:50-62 | `initialize(h, t)` cancels every task and publishes exactly `(h, t)` with no items; the head is `h`; a tail load starts exactly when `t` has a cursor and `hasMore && !loading`, and it waits first exactly when `t` has an error |
| `LoadProtocol.DefaultInitializeStartsNothing` | app/src/main/java/com/pr0gramm/app/ui/Pagination.kt:50 | the default `initialize()` starts no load and leaves the tail with no live fetch |
| `LoadProtocol.StaleCompletionInert` | app/src/main/java/com/pr0gramm/app/ui/Pagination.kt:52 | after `initialize`, an old fetch's ending changes neither end and publishes nothing, whatever its outcome |
| `LoadProtocol.ExhaustedStep` | app/src/main/java/com/pr0gramm/app/ui/Pagination.kt:64-78 | in any state with at most one live fetch per end, an end with no more items and no load stays so under every event but `initialize`, and no loader call is made for it |
| `LoadProtocol.ExhaustedUntilInitialize` | app/src/main/java/com/pr0gramm/app/ui/Pagination.kt:64-78 | from any state with at most one live fetch per end, once an end has no more items and no load, it stays so with no live fetch for any run without `initialize`; such a run also keeps single flight when it held before |
| `LoadProtocol.UpdatesOnlyGrow` | app/src/main/java/com/pr0gramm/app/ui/Pagination.kt:122-124 | every run keeps the updates already published, in order, as a prefix of the log |
| `LoadProtocol.RefreshDuringTailLoadAsWritten` | app/src/main/java/com/pr0gramm/app/ui/Pagination.kt:105-108 | as written, a refresh during a tail fetch followed by the old fetch's cancellation leaves the new tail not loading while its fetch runs, and `loadAtTail` then makes two live tail fetches |
| `LoadProtocol.RefreshDuringTailLoad` | app/src/main/java/com/pr0gramm/app/ui/Pagination.kt:50-62 | corrected, the same refresh keeps the new tail loading with exactly one live fetch; the old fetch's ending changes and publishes nothing |
| `PaginationObjects.Pagination.constructor` | app/src/main/java/com/pr0gramm/app/ui/Pagination.kt:30-45 | a new controller has both ends `EndState()`, no task and no update |
| `PaginationObjects.Pagination.State` | app/src/main/java/com/pr0gramm/app/ui/Pagination.kt:42 | the `state` property is the pair of both current ends |
| `PaginationObjects.Pagination.GetEnd` | app/src/main/java/com/pr0gramm/app/ui/Pagination.kt:82 | reading through the direction gives that end's current state |
| `PaginationObjects.Pagination.SetEnd` | app/src/main/java/com/pr0gramm/app/ui/Pagination.kt:87 | writing through the direction replaces that end and nothing else |
| `PaginationObjects.Pagination.PublishContent` | app/src/main/java/com/pr0gramm/app/ui/Pagination.kt:122-124 | posts one update with the current state and the given items |
| `PaginationObjects.Pagination.PublishStateChange` | app/src/main/java/com/pr0gramm/app/ui/Pagination.kt:118-120 | posts one update with the current state and no items |
| `PaginationObjects.Pagination.Initialize` | app/src/main/java/com/pr0gramm/app/ui/Pagination.kt:50-62 | performs `LoadProtocol.Initialize` in place, with the default ends as default arguments, and restores single flight when given ends that are not loading |
| `PaginationObjects.Pagination.LoadAtHead` | app/src/main/java/com/pr0gramm/app/ui/Pagination.kt:64-70 | performs `LoadAt(Head)` in place and keeps single flight |
| `PaginationObjects.Pagination.LoadAtTail` | app/src/main/java/com/pr0gramm/app/ui/Pagination.kt:72-78 | performs `LoadAt(Tail)` in place and keeps single flight |
| `PaginationObjects.Pagination.Load` | app/src/main/java/com/pr0gramm/app/ui/Pagination.kt:80-89 | performs `Start` in place: end marked loading, then the task launched with the backoff flag |
| `PaginationObjects.Pagination.Fetch` | app/src/main/java/com/pr0gramm/app/ui/Pagination.kt:97 | returns the cursor of the task's end as it is now, records the loader call, and keeps single flight |
| `PaginationObjects.Pagination.Complete` | app/src/main/java/com/pr0gramm/app/ui/Pagination.kt:89-115 | performs the corrected `Complete` in place and keeps single flight |
| `PaginationObjects.PaginationController.constructor` | app/src/main/java/com/pr0gramm/app/ui/Pagination.kt:14-17 | keeps the controller's pagination and offsets, which default to 12 |
| `PaginationObjects.PaginationController.Hit` | app/src/main/java/com/pr0gramm/app/ui/Pagination.kt:19-27 | performs `LoadProtocol.Hit` on its pagination and keeps single flight |
| `EndRows.EndMarker` | app/src/main/java/com/pr0gramm/app/ui/Pagination.kt:165-171 | the tail shows a row exactly when it has an error or more items; the error row takes precedence over the loading row |
| `EndRows.AddEndStateToValues` | app/src/main/java/com/pr0gramm/app/ui/Pagination.kt:161-175 | appends to the list in place exactly as `WithEndState` describes |
| `EndRows.AppendsAtMostOneRow` | app/src/main/java/com/pr0gramm/app/ui/Pagination.kt:161-175 | existing rows keep their places and order, and at most one row is appended: the error row if the tail has an error, else the loading row if it has more; when the tail shows a row it is always appended, even if the list already ends with one |
| `EndRows.PlaceholderOnlyForEmptyList` | app/src/main/java/com/pr0gramm/app/ui/Pagination.kt:173-174 | the caller's row is appended exactly when one is given, the list was empty and the tail shows no row, and then the result is exactly that row; with no tail row and a non-empty list or no caller's row the list is unchanged; the result is empty exactly when nothing adds a row |

## Left out

- Coroutines (`SupervisorJob`, `scope.launch`, dispatchers, threads) are not modelled. A launched fetch is three sequential events: start, loader call and ending. No two events interleave.
- The one-second `delay` before a retry is not modelled. Only the task's `delayFirst` flag is kept; timing cannot be stated here.
- `MutableLiveData` and `postOrSetValue` are not modelled. Published updates form a ghost log; posting across threads and the coalescing of updates are out of scope.
- `Logger` calls are left out; they have no effect on state.
- A loader that throws a `Throwable` that is not an `Exception` (a Kotlin `Error` such as `NotImplementedError` from `TODO()` or `StackOverflowError`) is not modelled. `catch (err: Exception)` at Pagination.kt:110 does not catch it, so no handler runs: the task ends, its end stays `loading` until the next `initialize`, nothing is published, and the throwable goes to the scope's exception handler. `Outcome` has no case for this path. After it, an end is `loading` with no live fetch, so `Inv` would fail, while at most one live fetch per end would still hold.
- Loader implementations are external. Each ending takes its outcome as an argument. The default loader is the empty page without a cursor (`DefaultLoad`).
- `ErrorAdapterDelegate.errorValueOf`, `Context` and `Loading()` are left out. They become the abstract rows `ErrorRow(error)` and `LoadingRow`.
- `Parceler.java` is not part of this model. It round-trips values through Gson and Android `Parcel`, and that behaviour lives in libraries outside this core.
- `LoadProtocol.CompleteAsWritten` runs the handler of a cancelled task after `initialize` has returned. That holds when `baseScope`'s dispatcher queues the resumed coroutine, and also, whatever the dispatcher, when the loader finishes on another thread (a `withContext(Dispatchers.IO)` body, say), since the cancelled coroutine is then resumed through a posted dispatch. Only when the dispatcher is immediate and the loader suspends on the calling thread does the handler run inside `cancelChildren()`, before the ends are replaced, acting on the old end state; the model does not cover that order.
- `LoadProtocol.CompleteAsWritten` also runs a handler for every cancelled task. A coroutine cancelled before it was first dispatched runs no handler at all.
- `LoadProtocol.Triggers` uses unbounded integers. Kotlin's 32-bit `size - position - 1` wraps around for extreme arguments.
- `LoadProtocol.StepInv` is proved only for events other than an `initialize` given an end that is already `loading`. Such an end has no task that would clear it.
- `LoadProtocol.RunInv` assumes that `initialize` is never given an end state that is already `loading`. The source allows it, and then the half of `Inv` that says `loading` holds exactly when a fetch is live fails, because no task would ever clear such an end. The other half, at most one live fetch per end, holds for every run (`LoadProtocol.RunAtMostOne`).
- `PaginationObjects.Pagination.Complete` follows the corrected ending. A task cancelled by `initialize` leaves the state alone (see Findings); the code as written is `LoadProtocol.CompleteAsWritten`.

## Findings

| source | as written | input that shows it | evidently intended | confidence | as-written member | corrected member |
|---|---|---|---|---|---|---|
| app/src/main/java/com/pr0gramm/app/ui/Pagination.kt:105-108 | after `job.cancelChildren()` in `initialize`, a fetch that was waiting for its loader resumes with a cancellation, and its handler writes `loading = false, error = null` into the end state current then. That is the state `initialize` installed, whose own tail fetch is already running | `initialize(tail = EndState(value = 7, hasMore = true))`; its tail fetch calls the loader; `initialize` with the same tail (a refresh) starts a second tail fetch; the first fetch's cancellation handler runs; `loadAtTail()` then starts a third, and two tail fetches are live | a fetch cancelled by `initialize` leaves the state installed since then alone, so each end keeps at most one live fetch and `loading` stays set while it runs | medium; not executed; it needs the handler to run after `initialize` returns, which holds when `baseScope`'s dispatcher queues resumptions or the loader completes on another thread; neither the dispatcher nor the loaders are shown | `LoadProtocol.RefreshDuringTailLoadAsWritten` | `LoadProtocol.RefreshDuringTailLoad` |
