/**
 * Moving between the groups of the shown session: the "next" and "previous"
 * steps, which wrap around the group list, and the swipe gesture that
 * triggers them.
 */
module Navigation {
  import opened Wrappers
  import opened Plan

  /**
   * JavaScript's `%` on integers: the remainder of division truncated toward
   * zero, which takes the sign of the dividend (Dafny's own `%` never
   * returns a negative value). A dividend within one divisor of zero comes
   * back unchanged, and one in [n, 2n) loses one n.
   */
  function JsRem(a: int, n: int): (r: int)
    requires n > 0
    ensures -n < r < n
    ensures a >= 0 ==> r >= 0
    ensures a <= 0 ==> r <= 0
    ensures -n < a < n ==> r == a
    ensures n <= a < 2 * n ==> r == a - n
  {
    if a >= 0 then a % n else -((-a) % n)
  }

  /**
   * `(i + 1) % n` with `i` a `findIndex` result: from the last group it wraps
   * to the first, and an unknown title (-1) goes to the first group.
   */
  function NextIndex(i: int, n: int): (r: int)
    requires n > 0 && -1 <= i < n
    ensures 0 <= r < n
    ensures i < n - 1 ==> r == i + 1
    ensures i == n - 1 ==> r == 0
  {
    JsRem(i + 1, n)
  }

  /**
   * `(i - 1 + n) % n` with `i` a `findIndex` result: from the first group it
   * wraps to the last. An unknown title (-1) lands on the next-to-last group
   * (on the only group when there is one; JavaScript then computes `-0`,
   * which indexes the same element as 0).
   */
  function PreviousIndex(i: int, n: int): (r: int)
    requires n > 0 && -1 <= i < n
    ensures 0 <= r < n
    ensures i >= 1 ==> r == i - 1
    ensures i == 0 ==> r == n - 1
    ensures i == -1 ==> r == (if n >= 2 then n - 2 else 0)
  {
    JsRem(i - 1 + n, n)
  }

  /** On a known position the two steps undo each other. */
  lemma NextPreviousInverse(i: int, n: int)
    requires 0 <= i < n
    ensures PreviousIndex(NextIndex(i, n), n) == i
    ensures NextIndex(PreviousIndex(i, n), n) == i
  {
  }

  /** `selectNextTitle` on a session with groups. */
  function NextTitle(groups: seq<Group>, title: string): (r: string)
    requires |groups| > 0
    ensures exists k :: 0 <= k < |groups| && groups[k].title == r
    ensures (forall j :: 0 <= j < |groups| ==> groups[j].title != title) ==> r == groups[0].title
  {
    groups[NextIndex(GroupIndex(groups, title), |groups|)].title
  }

  /** `selectPreviousTitle` on a session with groups. */
  function PreviousTitle(groups: seq<Group>, title: string): (r: string)
    requires |groups| > 0
    ensures exists k :: 0 <= k < |groups| && groups[k].title == r
    ensures (forall j :: 0 <= j < |groups| ==> groups[j].title != title) ==>
              r == groups[if |groups| >= 2 then |groups| - 2 else 0].title
  {
    groups[PreviousIndex(GroupIndex(groups, title), |groups|)].title
  }

  /**
   * A step on the session currently shown: with no session, or a session
   * without groups, the title does not change (on an empty group list the
   * handler throws before it sets anything). Otherwise the new title is one
   * of the session's groups, and "next" from an unknown title is the first.
   */
  function StepTitle(session: Option<Session>, title: string, forward: bool): (r: string)
    ensures (session.None? || |session.value.groups| == 0) ==> r == title
    ensures session.Some? && |session.value.groups| > 0 ==>
              exists k :: 0 <= k < |session.value.groups| && session.value.groups[k].title == r
    ensures session.Some? && |session.value.groups| > 0 && forward &&
            (forall j :: 0 <= j < |session.value.groups| ==> session.value.groups[j].title != title) ==>
              r == session.value.groups[0].title
  {
    if session.Some? && |session.value.groups| > 0 then
      if forward then NextTitle(session.value.groups, title) else PreviousTitle(session.value.groups, title)
    else title
  }

  /** With distinct titles, "next" from the last group wraps to the first and "previous" from the first to the last. */
  lemma StepsWrapAround(groups: seq<Group>)
    requires |groups| > 0 && DistinctTitles(groups)
    ensures NextTitle(groups, groups[|groups| - 1].title) == groups[0].title
    ensures PreviousTitle(groups, groups[0].title) == groups[|groups| - 1].title
  {
    GroupIndexOfDistinct(groups, |groups| - 1);
    GroupIndexOfDistinct(groups, 0);
  }

  /** With distinct titles, "previous" undoes "next" and "next" undoes "previous". */
  lemma PreviousUndoesNext(groups: seq<Group>, i: int)
    requires DistinctTitles(groups) && 0 <= i < |groups|
    ensures PreviousTitle(groups, NextTitle(groups, groups[i].title)) == groups[i].title
    ensures NextTitle(groups, PreviousTitle(groups, groups[i].title)) == groups[i].title
  {
    var n := |groups|;
    GroupIndexOfDistinct(groups, i);
    GroupIndexOfDistinct(groups, NextIndex(i, n));
    GroupIndexOfDistinct(groups, PreviousIndex(i, n));
  }

  /** "next" pressed `k` times. */
  function NextTitleTimes(groups: seq<Group>, title: string, k: nat): string
    requires |groups| > 0
    decreases k
  {
    if k == 0 then title else NextTitleTimes(groups, NextTitle(groups, title), k - 1)
  }

  /**
   * With distinct titles, `k <= n` steps forward from group `i` reach group
   * `i + k`, wrapping past the end of the list once.
   */
  lemma {:induction false} NextTitleTimesAdvances(groups: seq<Group>, i: int, k: nat)
    requires DistinctTitles(groups) && 0 <= i < |groups| && k <= |groups|
    ensures NextTitleTimes(groups, groups[i].title, k) ==
            groups[if i + k < |groups| then i + k else i + k - |groups|].title
    decreases k
  {
    if k > 0 {
      GroupIndexOfDistinct(groups, i);
      var next := NextIndex(i, |groups|);
      assert NextTitle(groups, groups[i].title) == groups[next].title;
      NextTitleTimesAdvances(groups, next, k - 1);
    }
  }

  /** With distinct titles, pressing "next" once per group comes back to the starting group. */
  lemma NextCycleReturnsToStart(groups: seq<Group>, i: int)
    requires DistinctTitles(groups) && 0 <= i < |groups|
    ensures NextTitleTimes(groups, groups[i].title, |groups|) == groups[i].title
  {
    NextTitleTimesAdvances(groups, i, |groups|);
  }

  /** What a finished touch gesture asks for. */
  datatype Gesture = SwipeNext | SwipePrevious | NoSwipe

  /** The horizontal distance, in pixels, a swipe must exceed. */
  const SWIPE_THRESHOLD: int := 50

  /**
   * `handleTouchEnd`: with both coordinates recorded, a leftward distance
   * `start - end` above 50 asks for the next group and one below -50 for the
   * previous group; anything else, or a missing coordinate, asks for nothing.
   */
  function ClassifySwipe(start: Option<int>, end: Option<int>): (g: Gesture)
    ensures g == SwipeNext <==> start.Some? && end.Some? && start.value - end.value > SWIPE_THRESHOLD
    ensures g == SwipePrevious <==> start.Some? && end.Some? && start.value - end.value < -SWIPE_THRESHOLD
  {
    if start.Some? && end.Some? then
      var distance := start.value - end.value;
      if distance > SWIPE_THRESHOLD then SwipeNext
      else if distance < -SWIPE_THRESHOLD then SwipePrevious
      else NoSwipe
    else NoSwipe
  }

  /** The same swipe made in the opposite direction asks for the opposite step. */
  lemma SwipeIsSymmetric(start: int, end: int)
    ensures ClassifySwipe(Some(start), Some(end)) == SwipeNext <==>
            ClassifySwipe(Some(end), Some(start)) == SwipePrevious
    ensures ClassifySwipe(Some(start), Some(end)) == NoSwipe <==>
            ClassifySwipe(Some(end), Some(start)) == NoSwipe
  {
  }
}
