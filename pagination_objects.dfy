/** `Pagination` and `PaginationController` as objects whose methods update
    their fields in place. Each method is proved to perform exactly the
    transition of LoadProtocol, so every lemma proved there about
    `Model()` holds of the object. */
module PaginationObjects {
  import opened PaginationData
  import opened LoadProtocol

  class Pagination<E> {
    var headState: EndState<E>
    var tailState: EndState<E>
    /** The children of `job`: every launched fetch that has not ended. */
    var jobChildren: map<nat, Task<E>>
    var nextTaskId: nat
    /** Every update posted to `mutableUpdates`, oldest first. */
    ghost var updates: seq<Update<E>>

    ghost function Model(): Machine<E>
      reads this
    {
      Machine(headState, tailState, jobChildren, nextTaskId, updates)
    }

    constructor ()
      ensures Model() == Fresh()
    {
      headState := DefaultEnd();
      tailState := DefaultEnd();
      jobChildren := map[];
      nextTaskId := 0;
      updates := [];
    }

    /** The `state` property. */
    function State(): (s: State<E>)
      reads this
      ensures s == StateOf(Model())
    {
      PaginationData.State(headState, tailState)
    }

    /** `endStateRef.get()`. */
    function GetEnd(dir: Direction): (e: EndState<E>)
      reads this
      ensures e == End(Model(), dir)
    {
      if dir.Head? then headState else tailState
    }

    /** `endStateRef.set(e)`. */
    method SetEnd(dir: Direction, e: EndState<E>)
      modifies this
      ensures Model() == WithEnd(old(Model()), dir, e)
    {
      if dir.Head? {
        headState := e;
      } else {
        tailState := e;
      }
    }

    /** `publishContent(data)`. */
    method PublishContent(data: seq<E>)
      modifies this
      ensures Model() == Publish(old(Model()), data)
    {
      updates := updates + [Update(State(), data)];
    }

    /** `publishStateChange()`. */
    method PublishStateChange()
      modifies this
      ensures Model() == Publish(old(Model()), [])
    {
      PublishContent([]);
    }

    method Initialize(h: EndState<E> := DefaultEnd(), t: EndState<E> := DefaultTail())
      modifies this
      ensures Model() == LoadProtocol.Initialize(old(Model()), h, t)
      ensures old(IdsFresh(Model())) && !h.loading && !t.loading ==> Inv(Model())
    {
      ghost var before := Model();
      jobChildren := map id | id in jobChildren :: jobChildren[id].(cancelled := true);
      headState := h;
      tailState := t;
      PublishStateChange();
      if t.value.Some? {
        LoadAtTail();
      }
      if IdsFresh(before) && !h.loading && !t.loading {
        InitializeInv(before, h, t);
      }
    }

    method LoadAtHead()
      modifies this
      ensures Model() == LoadAt(old(Model()), Head)
      ensures old(Inv(Model())) ==> Inv(Model())
    {
      ghost var before := Model();
      if headState.hasMore && !headState.loading {
        Load(Head);
      }
      if Inv(before) {
        LoadAtInv(before, Head);
      }
    }

    method LoadAtTail()
      modifies this
      ensures Model() == LoadAt(old(Model()), Tail)
      ensures old(Inv(Model())) ==> Inv(Model())
    {
      ghost var before := Model();
      if tailState.hasMore && !tailState.loading {
        Load(Tail);
      }
      if Inv(before) {
        LoadAtInv(before, Tail);
      }
    }

    /** `load`'s synchronous part: the end is marked loading before the
        task is launched, with the backoff flag taken from the old error. */
    method Load(dir: Direction)
      modifies this
      ensures Model() == Start(old(Model()), dir)
    {
      var current := GetEnd(dir);
      var previousStateWasError := current.error.Some?;
      SetEnd(dir, current.(loading := true, error := None));
      jobChildren := jobChildren[nextTaskId := Task(dir, previousStateWasError, false, Scheduled)];
      nextTaskId := nextTaskId + 1;
    }

    /** The launched task reaches its loader call, which it makes with the
        cursor of the end state current now. */
    method Fetch(id: nat) returns (cursor: Option<E>)
      requires CanFetch(Model(), id)
      modifies this
      ensures cursor == End(old(Model()), old(jobChildren[id].dir)).value
      ensures Model() == LoadProtocol.Fetch(old(Model()), id)
      ensures old(Inv(Model())) ==> Inv(Model())
    {
      ghost var before := Model();
      var task := jobChildren[id];
      cursor := GetEnd(task.dir).value;
      jobChildren := jobChildren[id := task.(phase := Fetching(cursor))];
      if Inv(before) {
        FetchInv(before, id);
      }
    }

    /** The launched task ends. A task `initialize` cancelled leaves the
        state alone; any other applies the success, cancellation or failure
        handler to the end state current now. */
    method Complete(id: nat, outcome: Outcome<E>)
      requires CanComplete(Model(), id, outcome)
      modifies this
      ensures Model() == LoadProtocol.Complete(old(Model()), id, outcome)
      ensures old(Inv(Model())) ==> Inv(Model())
    {
      ghost var before := Model();
      var task := jobChildren[id];
      jobChildren := jobChildren - {id};
      if !task.cancelled {
        match outcome
        case Loaded(page) =>
          SetEnd(task.dir, Succeeded(page));
          PublishContent(page.values);
        case Cancelled =>
          var current := GetEnd(task.dir);
          SetEnd(task.dir, current.(loading := false, error := None));
          PublishStateChange();
        case Failed(err) =>
          var current := GetEnd(task.dir);
          SetEnd(task.dir, current.(loading := false, error := Some(err)));
          PublishStateChange();
      }
      if Inv(before) {
        CompleteInv(before, id, outcome);
      }
    }
  }

  class PaginationController<E> {
    const pagination: Pagination<E>
    const headOffset: int
    const tailOffset: int

    constructor (pagination: Pagination<E>, headOffset: int := DefaultOffset, tailOffset: int := DefaultOffset)
      ensures this.pagination == pagination
      ensures this.headOffset == headOffset && this.tailOffset == tailOffset
    {
      this.pagination := pagination;
      this.headOffset := headOffset;
      this.tailOffset := tailOffset;
    }

    /** `hit(position, size)`: a load at the head when the position is
        within `headOffset` of the start, and at the tail when it is within
        `tailOffset` of the end. */
    method Hit(position: int, size: int)
      modifies pagination
      ensures pagination.Model() == LoadProtocol.Hit(old(pagination.Model()), position, size, headOffset, tailOffset)
      ensures old(Inv(pagination.Model())) ==> Inv(pagination.Model())
    {
      if position < headOffset {
        pagination.LoadAtHead();
      }
      if size - position - 1 < tailOffset {
        pagination.LoadAtTail();
      }
    }
  }
}
