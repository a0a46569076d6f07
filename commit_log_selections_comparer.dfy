/** Whether the commit-log selection changed between two moments
    (`commit_log_selections_comparer.rs`): each side records the original
    row selected then, or that nothing was. Reading the selection from the
    widget is left out: the selected row is a parameter. */
module CommitLogSelectionsComparer {
  import opened Wrappers

  class CommitLogSelectionsComparer {
    /** `None` until set; then the selected row, if any. */
    var first: Option<Option<nat>>
    var second: Option<Option<nat>>

    constructor ()
      ensures first == None && second == None
    {
      first := None;
      second := None;
    }

    method SetFirst(selectedRow: Option<nat>)
      modifies this
      ensures first == Some(selectedRow) && second == old(second)
    {
      first := Some(selectedRow);
    }

    method SetSecond(selectedRow: Option<nat>)
      modifies this
      ensures second == Some(selectedRow) && first == old(first)
    {
      second := Some(selectedRow);
    }

    /** Comparing before both sides are set panics, which the precondition
        rules out; an empty selection differs from any selected row. */
    function AreDifferent(): (r: bool)
      requires first.Some? && second.Some?
      reads this
      ensures r <==> first.value != second.value
      ensures first.value.None? && second.value.Some? ==> r
    {
      match first
      case Some(firstRowOpt) =>
        (match second
         case Some(secondRowOpt) => firstRowOpt != secondRowOpt)
    }
  }
}
