/** The pagination controller as a value: both end states, the fetch tasks
    launched in its job, and the log of every update it has published. Each
    entry point of `Pagination` (`initialize`, `loadAtHead`/`loadAtTail`,
    and the two halves of a launched fetch: calling the loader and handling
    its outcome) is a transition of this machine; the class in
    PaginationObjects is proved against these functions. */
module LoadProtocol {
  import opened PaginationData

  /** Where a launched fetch is: not yet at the loader call (possibly in its
      one-second backoff), or waiting for the loader, which it called with
      `cursor`. */
  datatype Phase<+E> = Scheduled | Fetching(cursor: Option<E>)

  /** A coroutine launched by `load`. `delayFirst` is the backoff flag
      (`previousStateWasError`); `cancelled` is set by `initialize`'s
      `job.cancelChildren()`. */
  datatype Task<+E> = Task(dir: Direction, delayFirst: bool, cancelled: bool, phase: Phase<E>)

  /** How a fetch ends: the loader's page, the loader's exception, or a
      `CancellationException`. */
  datatype Outcome<+E> = Loaded(page: Page<E>) | Failed(error: Error) | Cancelled

  datatype Machine<+E> = Machine(
    headState: EndState<E>,
    tailState: EndState<E>,
    tasks: map<nat, Task<E>>,
    nextId: nat,
    updates: seq<Update<E>>)

  /** The `state` property: both ends as they are now. */
  function StateOf<E>(m: Machine<E>): State<E>
  {
    State(m.headState, m.tailState)
  }

  /** `endStateRef.get()` with the property reference replaced by a
      direction. */
  function End<E>(m: Machine<E>, dir: Direction): EndState<E>
  {
    if dir.Head? then m.headState else m.tailState
  }

  /** `endStateRef.set(e)`: replaces one end and nothing else. */
  function WithEnd<E>(m: Machine<E>, dir: Direction, e: EndState<E>): (r: Machine<E>)
    ensures End(r, dir) == e
    ensures End(r, Other(dir)) == End(m, Other(dir))
    ensures r.tasks == m.tasks && r.nextId == m.nextId && r.updates == m.updates
  {
    if dir.Head? then m.(headState := e) else m.(tailState := e)
  }

  /** A new `Pagination`: both ends `EndState()`, no task, nothing published. */
  function Fresh<E>(): Machine<E>
  {
    Machine(DefaultEnd(), DefaultEnd(), map[], 0, [])
  }

  /** `publishContent(data)`: one update carrying the current state. */
  function Publish<E>(m: Machine<E>, data: seq<E>): (r: Machine<E>)
    ensures r.updates == m.updates + [Update(StateOf(m), data)]
    ensures r.headState == m.headState && r.tailState == m.tailState
    ensures r.tasks == m.tasks && r.nextId == m.nextId
  {
    m.(updates := m.updates + [Update(StateOf(m), data)])
  }

  /** `job.cancelChildren()`: every launched task is marked cancelled. */
  function CancelAll<E>(tasks: map<nat, Task<E>>): (r: map<nat, Task<E>>)
    ensures r.Keys == tasks.Keys
    ensures forall id :: id in r ==> r[id] == tasks[id].(cancelled := true)
  {
    map id | id in tasks :: tasks[id].(cancelled := true)
  }

  // ---------------------------------------------------------------------
  // Starting a load

  /** `load`'s synchronous part: remember whether the end was in error,
      mark it loading with the error cleared, and launch a task. */
  function Start<E>(m: Machine<E>, dir: Direction): (r: Machine<E>)
    ensures End(r, dir).loading && End(r, dir).error.None?
    ensures End(r, dir).value == End(m, dir).value && End(r, dir).hasMore == End(m, dir).hasMore
    ensures End(r, Other(dir)) == End(m, Other(dir))
    ensures r.nextId == m.nextId + 1
    ensures r.tasks == m.tasks[m.nextId := Task(dir, End(m, dir).error.Some?, false, Scheduled)]
    ensures r.updates == m.updates
  {
    var e := End(m, dir);
    var started := WithEnd(m, dir, e.(loading := true, error := None));
    started.(tasks := started.tasks[m.nextId := Task(dir, e.error.Some?, false, Scheduled)],
             nextId := m.nextId + 1)
  }

  /** `loadAtHead()` / `loadAtTail()`: start a load only if that end can. */
  function LoadAt<E>(m: Machine<E>, dir: Direction): (r: Machine<E>)
    ensures r.updates == m.updates
    ensures !CanStart(End(m, dir)) ==> r == m
    ensures CanStart(End(m, dir)) ==> r == Start(m, dir) && r.nextId == m.nextId + 1
  {
    if CanStart(End(m, dir)) then Start(m, dir) else m
  }

  // ---------------------------------------------------------------------
  // Initialization

  /** `initialize(h, t)`: cancel every task, install both ends, publish the
      new state, and load at the tail if the new tail has a cursor. */
  function Initialize<E>(m: Machine<E>, h: EndState<E>, t: EndState<E>): (r: Machine<E>)
    ensures r.updates == m.updates + [Update(State(h, t), [])]
    ensures r.headState == h
    ensures r.nextId == m.nextId + 1 <==> t.value.Some? && CanStart(t)
    ensures r.nextId == m.nextId ==> r.tailState == t
    ensures r.nextId != m.nextId ==> r.tailState == t.(loading := true, error := None)
  {
    var reset := Publish(m.(headState := h, tailState := t, tasks := CancelAll(m.tasks)), []);
    if t.value.Some? then LoadAt(reset, Tail) else reset
  }

  // ---------------------------------------------------------------------
  // A launched task

  /** A task can call its loader once, unless it was cancelled first. */
  predicate CanFetch<E>(m: Machine<E>, id: nat)
  {
    id in m.tasks && !m.tasks[id].cancelled && m.tasks[id].phase.Scheduled?
  }

  /** The loader call: the cursor is read from the end state current at
      this moment (`endStateRef.get().value`), not from the start. */
  function Fetch<E>(m: Machine<E>, id: nat): (r: Machine<E>)
    requires CanFetch(m, id)
    ensures id in r.tasks && r.tasks[id].phase == Fetching(End(m, m.tasks[id].dir).value)
    ensures r.tasks == m.tasks[id := m.tasks[id].(phase := Fetching(End(m, m.tasks[id].dir).value))]
    ensures r.headState == m.headState && r.tailState == m.tailState
    ensures r.nextId == m.nextId && r.updates == m.updates
  {
    var task := m.tasks[id];
    m.(tasks := m.tasks[id := task.(phase := Fetching(End(m, task.dir).value))])
  }

  /** A task can end in cancellation at any time (its delay or its loader
      call is interrupted); a page or a loader failure needs the loader call
      to have happened. A task cancelled while it waits for its loader may
      still end with a page or a failure, since a loader that does not
      cooperate with cancellation can return or throw after the cancel. */
  predicate CanComplete<E>(m: Machine<E>, id: nat, outcome: Outcome<E>)
  {
    id in m.tasks && (outcome.Cancelled? || m.tasks[id].phase.Fetching?)
  }

  /** The end after a successful fetch: a fresh `EndState` built from the
      page's cursor alone. */
  function Succeeded<E>(page: Page<E>): (e: EndState<E>)
    ensures !e.loading && e.error.None?
    ensures e.value == page.endValue
    ensures e.hasMore <==> page.endValue.Some?
  {
    EndState(None, page.endValue, false, page.endValue.Some?)
  }

  /** The `catch` handlers and the success path of the launched task,
      each acting on the end state current when it runs. */
  function Apply<E>(m: Machine<E>, dir: Direction, outcome: Outcome<E>): (r: Machine<E>)
    ensures !End(r, dir).loading
    ensures End(r, Other(dir)) == End(m, Other(dir))
    ensures r.tasks == m.tasks && r.nextId == m.nextId
    ensures |r.updates| == |m.updates| + 1 && r.updates[..|m.updates|] == m.updates
    ensures r.updates[|m.updates|] == Update(StateOf(r), if outcome.Loaded? then outcome.page.values else [])
  {
    var e := End(m, dir);
    match outcome
    case Loaded(page) => Publish(WithEnd(m, dir, Succeeded(page)), page.values)
    case Failed(err) => Publish(WithEnd(m, dir, e.(loading := false, error := Some(err))), [])
    case Cancelled => Publish(WithEnd(m, dir, e.(loading := false, error := None)), [])
  }

  /** The launched task's end AS WRITTEN: a task cancelled by `initialize`
      still runs the handler of its outcome (the cancellation handler, or,
      for a loader that ignores the cancel, the success path or the failure
      handler) on whatever end state is current, which is the one
      `initialize` installed. */
  function CompleteAsWritten<E>(m: Machine<E>, id: nat, outcome: Outcome<E>): (r: Machine<E>)
    requires id in m.tasks
    ensures r.tasks == m.tasks - {id}
    ensures !End(r, m.tasks[id].dir).loading
    ensures End(r, Other(m.tasks[id].dir)) == End(m, Other(m.tasks[id].dir))
    ensures r.updates == m.updates + [Update(StateOf(r), if outcome.Loaded? then outcome.page.values else [])]
  {
    var task := m.tasks[id];
    var r := Apply(m.(tasks := m.tasks - {id}), task.dir, outcome);
    assert r.updates == r.updates[..|m.updates|] + [r.updates[|m.updates|]];
    r
  }

  /** The launched task's end, corrected: a task that `initialize`
      cancelled leaves the state installed since then alone and publishes
      nothing; any other task applies its outcome. */
  function Complete<E>(m: Machine<E>, id: nat, outcome: Outcome<E>): (r: Machine<E>)
    requires id in m.tasks
    ensures r.tasks == m.tasks - {id} && r.nextId == m.nextId
    ensures m.tasks[id].cancelled ==> r == m.(tasks := m.tasks - {id})
  {
    var task := m.tasks[id];
    if task.cancelled then m.(tasks := m.tasks - {id})
    else Apply(m.(tasks := m.tasks - {id}), task.dir, outcome)
  }

  // ---------------------------------------------------------------------
  // The prefetch trigger

  /** The default `headOffset` and `tailOffset` of `PaginationController`. */
  const DefaultOffset := 12

  /** The ends `hit(position, size)` calls a load for. */
  function Triggers(position: int, size: int, headOffset: int, tailOffset: int): (r: set<Direction>)
    ensures Head in r <==> position < headOffset
    ensures Tail in r <==> size - position - 1 < tailOffset
  {
    (if position < headOffset then {Head} else {}) + (if size - position - 1 < tailOffset then {Tail} else {})
  }

  /** `hit(position, size)`: `loadAtHead` first, then `loadAtTail`. */
  function Hit<E>(m: Machine<E>, position: int, size: int, headOffset: int, tailOffset: int): (r: Machine<E>)
    ensures r.updates == m.updates
    ensures Head !in Triggers(position, size, headOffset, tailOffset) ==> r.headState == m.headState
    ensures Tail !in Triggers(position, size, headOffset, tailOffset) ==> r.tailState == m.tailState
    ensures r.nextId <= m.nextId + |Triggers(position, size, headOffset, tailOffset)|
  {
    var triggered := Triggers(position, size, headOffset, tailOffset);
    var m1 := if Head in triggered then LoadAt(m, Head) else m;
    if Tail in triggered then LoadAt(m1, Tail) else m1
  }

  // ---------------------------------------------------------------------
  // Runs of events

  datatype Event<+E> =
    | OnInitialize(h: EndState<E>, t: EndState<E>)
    | OnLoadAt(dir: Direction)
    | OnHit(position: int, size: int, headOffset: int, tailOffset: int)
    | OnFetch(id: nat)
    | OnComplete(id: nat, outcome: Outcome<E>)

  /** One event; a fetch or completion that cannot happen changes nothing. */
  function Step<E>(m: Machine<E>, ev: Event<E>): Machine<E>
  {
    match ev
    case OnInitialize(h, t) => Initialize(m, h, t)
    case OnLoadAt(dir) => LoadAt(m, dir)
    case OnHit(position, size, headOffset, tailOffset) => Hit(m, position, size, headOffset, tailOffset)
    case OnFetch(id) => if CanFetch(m, id) then Fetch(m, id) else m
    case OnComplete(id, outcome) => if CanComplete(m, id, outcome) then Complete(m, id, outcome) else m
  }

  function Run<E>(m: Machine<E>, events: seq<Event<E>>): Machine<E>
    decreases |events|
  {
    if events == [] then m else Run(Step(m, events[0]), events[1..])
  }

  // ---------------------------------------------------------------------
  // Single flight

  /** Task `id` is a fetch for `dir` that `initialize` has not cancelled. */
  predicate Live<E>(m: Machine<E>, id: nat, dir: Direction)
  {
    id in m.tasks && !m.tasks[id].cancelled && m.tasks[id].dir == dir
  }

  /** At most one live fetch for `dir`, and the end says `loading` exactly
      when there is one. */
  ghost predicate SingleFlight<E>(m: Machine<E>, dir: Direction)
  {
    (End(m, dir).loading <==> exists id :: Live(m, id, dir))
    && (forall i, j :: Live(m, i, dir) && Live(m, j, dir) ==> i == j)
  }

  /** Every task was launched before the next identifier was handed out. */
  ghost predicate IdsFresh<E>(m: Machine<E>)
  {
    forall id :: id in m.tasks ==> id < m.nextId
  }

  ghost predicate Inv<E>(m: Machine<E>)
  {
    IdsFresh(m) && SingleFlight(m, Head) && SingleFlight(m, Tail)
  }

  /** The states `initialize` may be given without breaking single flight:
      neither claims a load that no task will ever finish. */
  predicate Admissible<E>(ev: Event<E>)
  {
    ev.OnInitialize? ==> !ev.h.loading && !ev.t.loading
  }

  lemma FreshInv<E>()
    ensures Inv(Fresh<E>())
  {
  }

  lemma StartInv<E>(m: Machine<E>, dir: Direction)
    requires Inv(m) && CanStart(End(m, dir))
    ensures Inv(Start(m, dir))
    ensures Live(Start(m, dir), m.nextId, dir)
  {
    var r := Start(m, dir);
    assert Live(r, m.nextId, dir);
    forall id: nat | Live(r, id, dir)
      ensures id == m.nextId
    {
      assert id != m.nextId ==> Live(m, id, dir);
    }
    assert SingleFlight(r, Other(dir)) by {
      assert End(r, Other(dir)) == End(m, Other(dir));
      forall id: nat ensures Live(r, id, Other(dir)) <==> Live(m, id, Other(dir)) {
        assert id in m.tasks ==> id < m.nextId;
      }
    }
  }

  /** Starting a load at an end that can start creates its only live task. */
  lemma LoadAtInv<E>(m: Machine<E>, dir: Direction)
    requires Inv(m)
    ensures Inv(LoadAt(m, dir))
  {
    if CanStart(End(m, dir)) {
      StartInv(m, dir);
    }
  }

  lemma FetchInv<E>(m: Machine<E>, id: nat)
    requires Inv(m) && CanFetch(m, id)
    ensures Inv(Fetch(m, id))
  {
    var r := Fetch(m, id);
    forall d: Direction, i: nat ensures Live(r, i, d) <==> Live(m, i, d) {
    }
  }

  /** Once the only live task of an end has ended, that end has none. */
  lemma OnlyLiveTask<E>(m: Machine<E>, id: nat, outcome: Outcome<E>)
    requires AtMostOneFetch(m) && id in m.tasks && !m.tasks[id].cancelled
    ensures !exists i :: Live(Complete(m, id, outcome), i, m.tasks[id].dir)
  {
    var dir := m.tasks[id].dir;
    var r := Complete(m, id, outcome);
    assert Live(m, id, dir);
    forall i: nat ensures !Live(r, i, dir) {
      if i in r.tasks {
        assert i != id;
        assert Live(m, i, dir) ==> i == id;
      }
    }
  }

  /** A live task's outcome clears its end's `loading`, and no other live
      task of that end remains. */
  lemma CompleteInv<E>(m: Machine<E>, id: nat, outcome: Outcome<E>)
    requires Inv(m) && id in m.tasks
    ensures Inv(Complete(m, id, outcome))
  {
    var task := m.tasks[id];
    var r := Complete(m, id, outcome);
    if task.cancelled {
      forall d: Direction, i: nat ensures Live(r, i, d) <==> Live(m, i, d) {
      }
    } else {
      var dir := task.dir;
      assert Live(m, id, dir);
      InvAtMostOne(m);
      OnlyLiveTask(m, id, outcome);
      assert End(r, Other(dir)) == End(m, Other(dir));
      forall i: nat ensures Live(r, i, Other(dir)) <==> Live(m, i, Other(dir)) {
      }
      if dir.Head? {
        assert SingleFlight(r, Head);
      } else {
        assert SingleFlight(r, Tail);
      }
    }
  }

  /** `initialize` with non-loading ends is a full reset: it restores single
      flight whatever state it started from. */
  lemma InitializeInv<E>(m: Machine<E>, h: EndState<E>, t: EndState<E>)
    requires IdsFresh(m) && !h.loading && !t.loading
    ensures Inv(Initialize(m, h, t))
  {
    var reset := Publish(m.(headState := h, tailState := t, tasks := CancelAll(m.tasks)), []);
    forall d: Direction, i: nat ensures !Live(reset, i, d) {
    }
    assert Inv(reset);
    if t.value.Some? {
      LoadAtInv(reset, Tail);
    }
  }

  lemma HitInv<E>(m: Machine<E>, position: int, size: int, headOffset: int, tailOffset: int)
    requires Inv(m)
    ensures Inv(Hit(m, position, size, headOffset, tailOffset))
  {
    LoadAtInv(m, Head);
    var m1 := if position < headOffset then LoadAt(m, Head) else m;
    LoadAtInv(m1, Tail);
  }

  lemma StepInv<E>(m: Machine<E>, ev: Event<E>)
    requires Inv(m) && Admissible(ev)
    ensures Inv(Step(m, ev))
  {
    match ev
    case OnInitialize(h, t) => InitializeInv(m, h, t);
    case OnLoadAt(dir) => LoadAtInv(m, dir);
    case OnHit(position, size, headOffset, tailOffset) => HitInv(m, position, size, headOffset, tailOffset);
    case OnFetch(id) => if CanFetch(m, id) { FetchInv(m, id); }
    case OnComplete(id, outcome) => if CanComplete(m, id, outcome) { CompleteInv(m, id, outcome); }
  }

  /** Single flight holds after every run whose `initialize` calls install
      non-loading ends: at most one fetch per end is ever live, and the
      end's `loading` flag says whether it is. */
  lemma {:induction false} RunInv<E>(m: Machine<E>, events: seq<Event<E>>)
    requires Inv(m)
    requires forall k :: 0 <= k < |events| ==> Admissible(events[k])
    ensures Inv(Run(m, events))
    decreases |events|
  {
    if events != [] {
      StepInv(m, events[0]);
      RunInv(Step(m, events[0]), events[1..]);
    }
  }

  /** The uniqueness half of single flight, which survives every event,
      even an `initialize` given an end that is already `loading`: a live
      fetch marks its end `loading`, and no end has two live fetches. */
  ghost predicate AtMostOneFetch<E>(m: Machine<E>)
  {
    && IdsFresh(m)
    && (forall id, d :: Live(m, id, d) ==> End(m, d).loading)
    && (forall i, j, d :: Live(m, i, d) && Live(m, j, d) ==> i == j)
  }

  /** Single flight includes its uniqueness half. */
  lemma InvAtMostOne<E>(m: Machine<E>)
    requires Inv(m)
    ensures AtMostOneFetch(m)
  {
    forall id: nat, d: Direction | Live(m, id, d)
      ensures End(m, d).loading
    {
      if d.Head? {
        assert SingleFlight(m, Head);
      } else {
        assert SingleFlight(m, Tail);
      }
    }
  }

  lemma StartAtMostOne<E>(m: Machine<E>, dir: Direction)
    requires AtMostOneFetch(m) && CanStart(End(m, dir))
    ensures AtMostOneFetch(Start(m, dir))
  {
    var r := Start(m, dir);
    forall id: nat, d: Direction | Live(r, id, d)
      ensures End(r, d).loading
      ensures id == m.nextId || Live(m, id, d)
    {
      assert id != m.nextId ==> Live(m, id, d);
    }
    forall id: nat ensures !Live(m, id, dir) {
      assert Live(m, id, dir) ==> End(m, dir).loading;
    }
  }

  lemma LoadAtAtMostOne<E>(m: Machine<E>, dir: Direction)
    requires AtMostOneFetch(m)
    ensures AtMostOneFetch(LoadAt(m, dir))
  {
    if CanStart(End(m, dir)) {
      StartAtMostOne(m, dir);
    }
  }

  lemma CompleteAtMostOne<E>(m: Machine<E>, id: nat, outcome: Outcome<E>)
    requires AtMostOneFetch(m) && id in m.tasks
    ensures AtMostOneFetch(Complete(m, id, outcome))
  {
    var r := Complete(m, id, outcome);
    var dir := m.tasks[id].dir;
    forall i: nat, d: Direction | Live(r, i, d)
      ensures Live(m, i, d) && End(r, d).loading
    {
      assert Live(m, i, d);
      assert !m.tasks[id].cancelled && d == dir ==> Live(m, id, d) && i != id;
    }
  }

  /** No event, whatever ends `initialize` is given, lets an end have two
      live fetches. */
  lemma StepAtMostOne<E>(m: Machine<E>, ev: Event<E>)
    requires AtMostOneFetch(m)
    ensures AtMostOneFetch(Step(m, ev))
  {
    match ev
    case OnInitialize(h, t) =>
      var reset := Publish(m.(headState := h, tailState := t, tasks := CancelAll(m.tasks)), []);
      forall d: Direction, i: nat ensures !Live(reset, i, d) {
      }
      if t.value.Some? {
        LoadAtAtMostOne(reset, Tail);
      }
    case OnLoadAt(dir) => LoadAtAtMostOne(m, dir);
    case OnHit(position, size, headOffset, tailOffset) =>
      LoadAtAtMostOne(m, Head);
      var m1 := if position < headOffset then LoadAt(m, Head) else m;
      LoadAtAtMostOne(m1, Tail);
    case OnFetch(id) =>
      if CanFetch(m, id) {
        var r := Fetch(m, id);
        forall d: Direction, i: nat ensures Live(r, i, d) <==> Live(m, i, d) {
        }
      }
    case OnComplete(id, outcome) =>
      if CanComplete(m, id, outcome) {
        CompleteAtMostOne(m, id, outcome);
      }
  }

  /** Every run of events, with no restriction on what `initialize` is
      given, keeps at most one live fetch per end. */
  lemma {:induction false} RunAtMostOne<E>(m: Machine<E>, events: seq<Event<E>>)
    requires AtMostOneFetch(m)
    ensures AtMostOneFetch(Run(m, events))
    ensures forall i, j, d :: Live(Run(m, events), i, d) && Live(Run(m, events), j, d) ==> i == j
    decreases |events|
  {
    if events != [] {
      StepAtMostOne(m, events[0]);
      RunAtMostOne(Step(m, events[0]), events[1..]);
    }
  }

  /** Single flight implies its uniqueness half, so every run from a new
      controller keeps at most one live fetch per end. */
  lemma FreshAtMostOne<E>(events: seq<Event<E>>)
    ensures AtMostOneFetch(Run(Fresh<E>(), events))
  {
    RunAtMostOne(Fresh<E>(), events);
  }

  // ---------------------------------------------------------------------
  // Outcomes

  /** A successful fetch replaces its end with the page's cursor, leaves the
      other end alone, and publishes exactly one update carrying the page's
      items and the state after the change. */
  lemma SuccessPublishesPage<E>(m: Machine<E>, id: nat, page: Page<E>)
    requires AtMostOneFetch(m) && id in m.tasks && !m.tasks[id].cancelled
    ensures var dir := m.tasks[id].dir;
            var r := Complete(m, id, Loaded(page));
            && End(r, dir) == EndState(None, page.endValue, false, page.endValue.Some?)
            && End(r, Other(dir)) == End(m, Other(dir))
            && r.updates == m.updates + [Update(StateOf(r), page.values)]
            && !exists i :: Live(r, i, dir)
  {
    var dir := m.tasks[id].dir;
    var r := Complete(m, id, Loaded(page));
    OnlyLiveTask(m, id, Loaded(page));
    assert r.updates == m.updates[..|m.updates|] + [r.updates[|m.updates|]];
  }

  /** A failed fetch keeps the cursor and `hasMore`, so the end may be
      retried at once, and the retry is launched with the backoff flag. */
  lemma FailureAllowsRetry<E>(m: Machine<E>, id: nat, err: Error)
    requires id in m.tasks && !m.tasks[id].cancelled
    ensures var dir := m.tasks[id].dir;
            var r := Complete(m, id, Failed(err));
            && End(r, dir) == EndState(Some(err), End(m, dir).value, false, End(m, dir).hasMore)
            && r.updates == m.updates + [Update(StateOf(r), [])]
            && (CanStart(End(r, dir)) <==> End(m, dir).hasMore)
            && (End(m, dir).hasMore ==> LoadAt(r, dir).tasks[r.nextId].delayFirst)
  {
  }

  /** A cancelled fetch is not an error: the end keeps its cursor and
      `hasMore`, and the next load starts without the backoff. */
  lemma CancellationIsNoError<E>(m: Machine<E>, id: nat)
    requires id in m.tasks && !m.tasks[id].cancelled
    ensures var dir := m.tasks[id].dir;
            var r := Complete(m, id, Cancelled);
            && End(r, dir) == EndState(None, End(m, dir).value, false, End(m, dir).hasMore)
            && r.updates == m.updates + [Update(StateOf(r), [])]
            && (End(m, dir).hasMore ==> !LoadAt(r, dir).tasks[r.nextId].delayFirst)
  {
  }

  /** An empty page exhausts its end on success, whichever constructor
      built it and whatever it said about more items; so does the default
      loader's page. */
  lemma EmptyPageExhausts<E>(m: Machine<E>, id: nat, hasMore: bool, cursor: Option<E>)
    requires id in m.tasks && !m.tasks[id].cancelled
    ensures var dir := m.tasks[id].dir;
            && !End(Complete(m, id, Loaded(AtHead([], hasMore))), dir).hasMore
            && !End(Complete(m, id, Loaded(AtTail([], hasMore))), dir).hasMore
            && !End(Complete(m, id, Loaded(DefaultLoad(cursor))), dir).hasMore
  {
  }

  /** A loader that overrides neither function disables its direction: the
      first fetch there ends that end for good, with the empty page
      published, and no later `loadAtHead`/`loadAtTail` for it does
      anything. */
  lemma DefaultLoaderDisablesEnd<E>(m: Machine<E>, id: nat, cursor: Option<E>)
    requires id in m.tasks && !m.tasks[id].cancelled
    ensures var dir := m.tasks[id].dir;
            var r := Complete(m, id, Loaded(DefaultLoad(cursor)));
            && End(r, dir) == EndState(None, None, false, false)
            && r.updates == m.updates + [Update(StateOf(r), [])]
            && LoadAt(r, dir) == r
  {
    var r := Complete(m, id, Loaded(DefaultLoad(cursor)));
    assert r.updates == r.updates[..|m.updates|] + [r.updates[|m.updates|]];
  }

  // ---------------------------------------------------------------------
  // Initialization

  /** `initialize(h, t)` cancels every task, publishes exactly `(h, t)`
      with no items, and then starts a tail load exactly when `t` has a
      cursor and `loadAtTail`'s guard admits it. */
  lemma InitializeEffect<E>(m: Machine<E>, h: EndState<E>, t: EndState<E>)
    requires IdsFresh(m)
    ensures var r := Initialize(m, h, t);
            && r.updates == m.updates + [Update(State(h, t), [])]
            && r.headState == h
            && (forall id :: id in m.tasks ==> id in r.tasks && r.tasks[id].cancelled)
            && (r.nextId == m.nextId + 1 <==> t.value.Some? && CanStart(t))
            && (r.nextId == m.nextId ==> r.tailState == t && r.tasks.Keys == m.tasks.Keys)
            && (r.nextId != m.nextId ==> r.tailState == t.(loading := true, error := None)
                                         && Live(r, m.nextId, Tail) && (r.tasks[m.nextId].delayFirst <==> t.error.Some?))
  {
  }

  /** The default `initialize()` loads nothing by itself: its tail has no
      cursor yet. */
  lemma DefaultInitializeStartsNothing<E>(m: Machine<E>)
    ensures Initialize(m, DefaultEnd(), DefaultTail()).nextId == m.nextId
    ensures !exists id :: Live(Initialize(m, DefaultEnd(), DefaultTail()), id, Tail)
  {
  }

  /** Once `initialize` has cancelled a task, its completion, whatever the
      loader did, neither changes an end nor publishes an update. */
  lemma StaleCompletionInert<E>(m: Machine<E>, h: EndState<E>, t: EndState<E>, id: nat, outcome: Outcome<E>)
    requires IdsFresh(m) && id in m.tasks
    ensures var r := Initialize(m, h, t);
            id in r.tasks && r.tasks[id].cancelled
            && StateOf(Complete(r, id, outcome)) == StateOf(r)
            && Complete(r, id, outcome).updates == r.updates
  {
  }

  // ---------------------------------------------------------------------
  // Exhaustion

  /** An end is exhausted: nothing more expected and nothing outstanding. */
  predicate Exhausted<E>(m: Machine<E>, dir: Direction)
  {
    !End(m, dir).hasMore && !End(m, dir).loading
  }

  lemma ExhaustedStep<E>(m: Machine<E>, ev: Event<E>, dir: Direction)
    requires AtMostOneFetch(m) && Exhausted(m, dir) && !ev.OnInitialize?
    ensures Exhausted(Step(m, ev), dir)
    ensures ev.OnFetch? && CanFetch(m, ev.id) ==> m.tasks[ev.id].dir != dir
  {
    var r := Step(m, ev);
    match ev
    case OnLoadAt(d) =>
    case OnHit(position, size, headOffset, tailOffset) =>
    case OnFetch(id) =>
      if CanFetch(m, id) {
        assert Live(m, id, m.tasks[id].dir);
      }
    case OnComplete(id, outcome) =>
      if CanComplete(m, id, outcome) && !m.tasks[id].cancelled {
        assert Live(m, id, m.tasks[id].dir);
      }
  }

  /** Once an end is exhausted it stays so, with no live fetch and hence no
      loader call for it, until the next `initialize`. */
  lemma {:induction false} ExhaustedUntilInitialize<E>(m: Machine<E>, events: seq<Event<E>>, dir: Direction)
    requires AtMostOneFetch(m) && Exhausted(m, dir)
    requires forall k :: 0 <= k < |events| ==> !events[k].OnInitialize?
    ensures Exhausted(Run(m, events), dir) && AtMostOneFetch(Run(m, events))
    ensures !exists id :: Live(Run(m, events), id, dir)
    ensures Inv(m) ==> Inv(Run(m, events))
    decreases |events|
  {
    if events != [] {
      var m1 := Step(m, events[0]);
      ExhaustedStep(m, events[0], dir);
      StepAtMostOne(m, events[0]);
      if Inv(m) {
        StepInv(m, events[0]);
      }
      ExhaustedUntilInitialize(m1, events[1..], dir);
    }
  }

  /** Published updates are never taken back: every run extends the log. */
  lemma {:induction false} UpdatesOnlyGrow<E>(m: Machine<E>, events: seq<Event<E>>)
    ensures |Run(m, events).updates| >= |m.updates|
    ensures Run(m, events).updates[..|m.updates|] == m.updates
    decreases |events|
  {
    if events != [] {
      var m1 := Step(m, events[0]);
      assert m1.updates[..|m.updates|] == m.updates;
      UpdatesOnlyGrow(m1, events[1..]);
    }
  }

  // ---------------------------------------------------------------------
  // The trigger

  /** `hit` is idempotent: repeating it with the same arguments changes
      nothing, as the first call left every triggered end loading or
      unable to load. */
  lemma HitIdempotent<E>(m: Machine<E>, position: int, size: int, headOffset: int, tailOffset: int)
    ensures var r := Hit(m, position, size, headOffset, tailOffset);
            Hit(r, position, size, headOffset, tailOffset) == r
  {
  }

  /** `hit` only ever touches the ends it is triggered for, and there it does
      what `loadAtHead`/`loadAtTail` do; it publishes nothing. */
  lemma HitEffect<E>(m: Machine<E>, position: int, size: int, headOffset: int, tailOffset: int, dir: Direction)
    ensures var r := Hit(m, position, size, headOffset, tailOffset);
            var triggered := Triggers(position, size, headOffset, tailOffset);
            && r.updates == m.updates
            && (dir !in triggered || !CanStart(End(m, dir)) ==> End(r, dir) == End(m, dir))
            && (dir in triggered && CanStart(End(m, dir)) ==>
                  End(r, dir) == End(m, dir).(loading := true, error := None))
  {
  }

  /** The three trigger examples with the default offsets. */
  lemma TriggerExamples()
    ensures Triggers(5, 100, DefaultOffset, DefaultOffset) == {Head}
    ensures Triggers(95, 100, DefaultOffset, DefaultOffset) == {Tail}
    ensures Triggers(5, 15, DefaultOffset, DefaultOffset) == {Head, Tail}
  {
  }

  /** As written, a fetch cancelled by `initialize` whose loader ignores the
      cancel and returns a page installs that page's cursor over the end
      `initialize` set, and publishes the page's items. */
  lemma StalePageAsWritten<E>(m: Machine<E>, h: EndState<E>, t: EndState<E>, id: nat, page: Page<E>)
    requires IdsFresh(m) && id in m.tasks
    ensures var r := Initialize(m, h, t);
            id in r.tasks && r.tasks[id].cancelled
            && var c := CompleteAsWritten(r, id, Loaded(page));
               End(c, m.tasks[id].dir) == Succeeded(page)
               && c.updates == r.updates + [Update(StateOf(c), page.values)]
  {
  }

  // ---------------------------------------------------------------------
  // Refreshing while a tail page is loading

  /** The tail `initialize` is given on a refresh: it has a cursor, so
      `initialize` starts a tail load at once. */
  function RefreshTail(): EndState<int>
  {
    EndState(None, Some(7), false, true)
  }

  /** As written, refreshing while the primed tail fetch is still waiting
      for its loader lets the cancelled fetch's handler clear `loading` on
      the new tail, while the new fetch is outstanding; the next
      `loadAtTail` then launches a second live tail fetch. */
  lemma RefreshDuringTailLoadAsWritten()
    ensures var m1 := Initialize(Fresh(), DefaultEnd(), RefreshTail());
            CanFetch(m1, 0)
            && var m2 := Fetch(m1, 0);
               var m3 := Initialize(m2, DefaultEnd(), RefreshTail());
               var m4 := CompleteAsWritten(m3, 0, Cancelled);
               var m5 := LoadAt(m4, Tail);
               Live(m3, 1, Tail) && !m4.tailState.loading
               && Live(m5, 1, Tail) && Live(m5, 2, Tail) && !Inv(m5)
  {
    var m1 := Initialize(Fresh(), DefaultEnd(), RefreshTail());
    assert Live(m1, 0, Tail);
    var m2 := Fetch(m1, 0);
    var m3 := Initialize(m2, DefaultEnd(), RefreshTail());
    assert Live(m3, 1, Tail);
    var m4 := CompleteAsWritten(m3, 0, Cancelled);
    var m5 := LoadAt(m4, Tail);
    assert Live(m5, 1, Tail) && Live(m5, 2, Tail);
    assert !SingleFlight(m5, Tail);
  }

  /** Corrected, the same refresh keeps exactly one live tail fetch, still
      marked `loading`, after the cancelled fetch ends. */
  lemma RefreshDuringTailLoad()
    ensures var m1 := Initialize(Fresh(), DefaultEnd(), RefreshTail());
            CanFetch(m1, 0)
            && var m2 := Fetch(m1, 0);
               var m3 := Initialize(m2, DefaultEnd(), RefreshTail());
               var m4 := Complete(m3, 0, Cancelled);
               var m5 := LoadAt(m4, Tail);
               m4.tailState.loading && m5 == m4 && Live(m5, 1, Tail)
               && StateOf(m4) == StateOf(m3) && m4.updates == m3.updates && Inv(m5)
  {
    FreshInv<int>();
    InitializeInv(Fresh<int>(), DefaultEnd(), RefreshTail());
    var m1 := Initialize(Fresh(), DefaultEnd(), RefreshTail());
    assert Live(m1, 0, Tail);
    var m2 := Fetch(m1, 0);
    var m3 := Initialize(m2, DefaultEnd(), RefreshTail());
    InitializeInv(m2, DefaultEnd(), RefreshTail());
    assert Live(m3, 1, Tail);
    CompleteInv(m3, 0, Cancelled);
  }
}
