/** `addEndStateToValues`: the rows a list shows after its items, taken
    from the tail's end state. */
module EndRows {
  import opened PaginationData

  /** A row of a rendered list: an item, the error row built from the tail's
      error, the `Loading()` row, or a row the caller supplies for an empty
      list. */
  datatype Row<+E> = Item(value: E) | ErrorRow(error: Error) | LoadingRow | Placeholder(text: string)

  /** The `MutableList` the rows are appended to. */
  class RowList<E> {
    var rows: seq<Row<E>>

    constructor (rows: seq<Row<E>>)
      ensures this.rows == rows
    {
      this.rows := rows;
    }
  }

  /** The one row that shows the tail's state, if any: its error takes
      precedence over its having more items. */
  function EndMarker<E>(tailState: EndState<E>): (r: Option<Row<E>>)
    ensures r.Some? <==> tailState.error.Some? || tailState.hasMore
    ensures tailState.error.Some? ==> r == Some(ErrorRow(tailState.error.value))
    ensures tailState.error.None? && tailState.hasMore ==> r == Some(LoadingRow)
  {
    match tailState.error
    case Some(err) => Some(ErrorRow(err))
    case None => if tailState.hasMore then Some(LoadingRow) else None
  }

  /** The rows after `addEndStateToValues`. */
  function WithEndState<E>(values: seq<Row<E>>, tailState: EndState<E>, ifEmptyValue: Option<Row<E>>): seq<Row<E>>
  {
    var marked := match EndMarker(tailState)
                  case Some(row) => values + [row]
                  case None => values;
    if ifEmptyValue.Some? && marked == [] then marked + [ifEmptyValue.value] else marked
  }

  /** Appends to `values` in place. */
  method AddEndStateToValues<E>(values: RowList<E>, tailState: EndState<E>, ifEmptyValue: Option<Row<E>> := None)
    modifies values
    ensures values.rows == WithEndState(old(values.rows), tailState, ifEmptyValue)
  {
    match tailState.error {
      case Some(err) =>
        values.rows := values.rows + [ErrorRow(err)];
      case None =>
        if tailState.hasMore {
          values.rows := values.rows + [LoadingRow];
        }
    }
    if ifEmptyValue.Some? && |values.rows| == 0 {
      values.rows := values.rows + [ifEmptyValue.value];
    }
  }

  /** The existing rows stay in place and in order, and at most one row is
      added after them: the error row if the tail failed, else the loading
      row if it has more, else the caller's row if the list was empty. */
  lemma AppendsAtMostOneRow<E>(values: seq<Row<E>>, tailState: EndState<E>, ifEmptyValue: Option<Row<E>>)
    ensures var r := WithEndState(values, tailState, ifEmptyValue);
            && |values| <= |r| <= |values| + 1
            && r[..|values|] == values
            && (tailState.error.Some? ==> r[|r| - 1] == ErrorRow(tailState.error.value))
            && (tailState.error.None? && tailState.hasMore ==> r[|r| - 1] == LoadingRow)
    ensures EndMarker(tailState).Some? ==>
              WithEndState(values, tailState, ifEmptyValue) == values + [EndMarker(tailState).value]
  {
  }

  /** The caller's row is added exactly when the list was empty, the tail
      shows neither an error nor more items, and a row was supplied. */
  lemma PlaceholderOnlyForEmptyList<E>(values: seq<Row<E>>, tailState: EndState<E>, ifEmptyValue: Option<Row<E>>)
    ensures var r := WithEndState(values, tailState, ifEmptyValue);
            (|r| == |values| + 1 && EndMarker(tailState).None?)
            <==> (values == [] && ifEmptyValue.Some? && tailState.error.None? && !tailState.hasMore)
    ensures var r := WithEndState(values, tailState, ifEmptyValue);
            r == [] <==> values == [] && ifEmptyValue.None? && tailState.error.None? && !tailState.hasMore
    ensures values == [] && ifEmptyValue.Some? && EndMarker(tailState).None? ==>
              WithEndState(values, tailState, ifEmptyValue) == [ifEmptyValue.value]
    ensures EndMarker(tailState).None? && (values != [] || ifEmptyValue.None?) ==>
              WithEndState(values, tailState, ifEmptyValue) == values
  {
  }
}
