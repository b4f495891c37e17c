/**
 * The lectures handed to the pipeline: the inclusive range of the course's
 * lecture list that the user picked, optionally with empty lectures removed.
 */
module Lectures {
  import opened Wrappers

  /**
   * Go's `lectures[start : end+1]`. The slice expression panics when the
   * bounds are out of order or past the end of the list; that is None here.
   */
  function LectureRange<L>(lectures: seq<L>, start: int, end: int): (r: Option<seq<L>>)
    ensures r.Some? <==> 0 <= start <= end + 1 <= |lectures|
    ensures r.Some? ==> |r.value| == end - start + 1
    ensures r.Some? ==> forall i :: 0 <= i < |r.value| ==> r.value[i] == lectures[start + i]
    ensures r.Some? && start <= end ==> r.value[0] == lectures[start] && r.value[|r.value| - 1] == lectures[end]
  {
    if 0 <= start <= end + 1 <= |lectures| then Some(lectures[start..end + 1]) else None
  }

  /**
   * The chosen lectures. `removeEmpty` is the helper that drops lectures
   * without video; it is not part of this model and is applied, when asked
   * for, to the inclusive range. Either way the range is taken first, so
   * bad bounds fail the same way with or without skipping.
   */
  function ChosenLectures<L>(lectures: seq<L>, start: int, end: int, skipEmpty: bool,
                             removeEmpty: seq<L> -> seq<L>): (r: Option<seq<L>>)
    ensures r.Some? <==> 0 <= start <= end + 1 <= |lectures|
    ensures r.Some? && !skipEmpty ==> r.value == lectures[start..end + 1]
    ensures r.Some? && skipEmpty ==> r.value == removeEmpty(lectures[start..end + 1])
  {
    match LectureRange(lectures, start, end)
    case None => None
    case Some(range) => if skipEmpty then Some(removeEmpty(range)) else Some(range)
  }
}
