/** The immutable records of the pagination controller: the per-end cursor
    (`EndState`), the pair of both ends (`State`), a published `Update`, and
    a fetched `Page` with its two constructors `atHead` and `atTail`. */
module PaginationData {

  /** Kotlin's nullable `T?`. */
  datatype Option<+T> = None | Some(value: T)

  /** An exception thrown by a loader. Only its identity matters to the
      controller, which stores it and hands it on, and `EndState` compares
      exceptions by reference; so an error is its identity and nothing
      else. */
  datatype Error = Error(identity: nat)

  /** Which end of the list a cursor or a load belongs to: `Head` is the
      `headState` field and `loader.loadBefore`, `Tail` is `tailState` and
      `loader.loadAfter`. */
  datatype Direction = Head | Tail

  function Other(dir: Direction): (r: Direction)
    ensures r != dir
  {
    if dir.Head? then Tail else Head
  }

  /** The cursor of one end: the last failure, the item to continue from,
      whether a load is outstanding and whether more items are expected. */
  datatype EndState<+E> = EndState(error: Option<Error>, value: Option<E>, loading: bool, hasMore: bool)

  /** `EndState()`: every field at its default, so no more items expected. */
  function DefaultEnd<E>(): (e: EndState<E>)
    ensures !CanStart(e) && e.value.None? && e.error.None?
  {
    EndState(None, None, false, false)
  }

  /** `EndState(hasMore = true)`, the default tail of `initialize`. */
  function DefaultTail<E>(): (e: EndState<E>)
    ensures CanStart(e) && e.value.None? && e.error.None?
  {
    EndState(None, None, false, true)
  }

  /** A load may start at an end exactly when more items are expected there
      and no load is outstanding. */
  predicate CanStart<E>(e: EndState<E>)
  {
    e.hasMore && !e.loading
  }

  datatype State<+E> = State(headState: EndState<E>, tailState: EndState<E>)

  datatype Update<+E> = Update(state: State<E>, newValues: seq<E>)

  /** One fetched page and the cursor for the next fetch in the same
      direction (`None`: that end has been reached). */
  datatype Page<+E> = Page(values: seq<E>, endValue: Option<E>)

  /** Kotlin's `firstOrNull()`. */
  function FirstOrNull<E>(s: seq<E>): (r: Option<E>)
    ensures r.Some? <==> s != []
    ensures r.Some? ==> r.value == s[0]
  {
    if s == [] then None else Some(s[0])
  }

  /** Kotlin's `lastOrNull()`. */
  function LastOrNull<E>(s: seq<E>): (r: Option<E>)
    ensures r.Some? <==> s != []
    ensures r.Some? ==> r.value == s[|s| - 1]
  {
    if s == [] then None else Some(s[|s| - 1])
  }

  /** Kotlin's `x?.takeIf { keep }`. */
  function TakeIf<E>(x: Option<E>, keep: bool): (r: Option<E>)
    ensures r.Some? <==> x.Some? && keep
    ensures r.Some? ==> r == x
  {
    if keep then x else None
  }

  /** `Page.atHead`: the next fetch before this page continues from its
      first item, unless the page says nothing more is there. */
  function AtHead<E>(values: seq<E>, hasMore: bool): (p: Page<E>)
    ensures p.values == values
    ensures p.endValue.Some? <==> hasMore && values != []
    ensures p.endValue.Some? ==> p.endValue.value == values[0]
  {
    Page(values, TakeIf(FirstOrNull(values), hasMore))
  }

  /** `Page.atTail`: the same with the page's last item. */
  function AtTail<E>(values: seq<E>, hasMore: bool): (p: Page<E>)
    ensures p.values == values
    ensures p.endValue.Some? <==> hasMore && values != []
    ensures p.endValue.Some? ==> p.endValue.value == values[|values| - 1]
  {
    Page(values, TakeIf(LastOrNull(values), hasMore))
  }

  /** What both loader functions answer when a subclass does not override
      them: `Page(listOf())`, an empty page without a cursor. */
  function DefaultLoad<E>(currentValue: Option<E>): Page<E>
  {
    Page([], None)
  }

  /** The three cursor examples: first item, none when exhausted, last item. */
  lemma CursorExamples()
    ensures AtHead([1, 2, 3], true).endValue == Some(1)
    ensures AtHead([1, 2, 3], false).endValue == None
    ensures AtTail([1, 2, 3], true).endValue == Some(3)
  {
  }
}
