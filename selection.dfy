/**
 * How the view picks what to show: the initial date once the plan is
 * loaded, the initial group (the one with the fewest completions on that
 * date), and the group shown after the user picks another date.
 */
module Selection {
  import opened Wrappers
  import opened Plan
  import opened Counter

  /** `dayjs(session.date).isBefore(now)`: false for a date text that does not parse. */
  predicate IsPast(session: Session, now: int)
  {
    session.instant.Some? && session.instant.value < now
  }

  /**
   * `plan.filter(w => dayjs(w.date).isBefore(now))`. The contract states
   * membership both ways; the order of the result is what LastOfPastSessions
   * uses to pin its last element.
   */
  function PastSessions(plan: WorkoutPlan, now: int): (r: WorkoutPlan)
    ensures forall s :: s in r ==> s in plan && IsPast(s, now)
    ensures forall j :: 0 <= j < |plan| && IsPast(plan[j], now) ==> plan[j] in r
  {
    if |plan| == 0 then []
    else
      var last := plan[|plan| - 1];
      PastSessions(plan[..|plan| - 1], now) + if IsPast(last, now) then [last] else []
  }

  /** The filter is empty when no session is past (the converse is the completeness clause of PastSessions). */
  lemma {:induction false} NoPastSessions(plan: WorkoutPlan, now: int)
    requires forall j :: 0 <= j < |plan| ==> !IsPast(plan[j], now)
    ensures PastSessions(plan, now) == []
  {
    if |plan| > 0 {
      NoPastSessions(plan[..|plan| - 1], now);
    }
  }

  /** The last element of the filter is the session at the last past index. */
  lemma {:induction false} LastOfPastSessions(plan: WorkoutPlan, now: int, i: int)
    requires 0 <= i < |plan| && IsPast(plan[i], now)
    requires forall j :: i < j < |plan| ==> !IsPast(plan[j], now)
    ensures var past := PastSessions(plan, now); |past| > 0 && past[|past| - 1] == plan[i]
  {
    if i < |plan| - 1 {
      var front := plan[..|plan| - 1];
      LastOfPastSessions(front, now, i);
    }
  }

  /**
   * Both ends of the filter at once: its last element is the session at the
   * last past index when there is one, and it is empty when no session is past.
   */
  lemma PastSessionsEnds(plan: WorkoutPlan, now: int)
    ensures forall i :: 0 <= i < |plan| && IsPast(plan[i], now) &&
                        (forall j :: i < j < |plan| ==> !IsPast(plan[j], now)) ==>
                        var past := PastSessions(plan, now); |past| > 0 && past[|past| - 1] == plan[i]
    ensures (forall j :: 0 <= j < |plan| ==> !IsPast(plan[j], now)) ==> PastSessions(plan, now) == []
  {
    forall i | 0 <= i < |plan| && IsPast(plan[i], now) &&
               (forall j :: i < j < |plan| ==> !IsPast(plan[j], now))
      ensures var past := PastSessions(plan, now); |past| > 0 && past[|past| - 1] == plan[i]
    {
      LastOfPastSessions(plan, now, i);
    }
    if forall j :: 0 <= j < |plan| ==> !IsPast(plan[j], now) {
      NoPastSessions(plan, now);
    }
  }

  /**
   * The date selected once the plan is loaded: the date of the session at
   * the last past index when there is one, or else the first session's date.
   * None stands for the empty plan, and only for it: reading the first
   * session's date then throws.
   */
  function InitialDate(plan: WorkoutPlan, now: int): (r: Option<string>)
    ensures r.None? <==> |plan| == 0
    ensures forall i :: 0 <= i < |plan| && IsPast(plan[i], now) &&
                        (forall j :: i < j < |plan| ==> !IsPast(plan[j], now)) ==>
                        r == Some(plan[i].date)
    ensures |plan| > 0 && (forall j :: 0 <= j < |plan| ==> !IsPast(plan[j], now)) ==>
              r == Some(plan[0].date)
  {
    PastSessionsEnds(plan, now);
    var past := PastSessions(plan, now);
    if |past| > 0 then Some(past[|past| - 1].date)
    else if |plan| > 0 then Some(plan[0].date)
    else None
  }

  /** Some session is past, and `i` is the last such. */
  lemma {:induction false} LastPastIndex(plan: WorkoutPlan, now: int) returns (i: int)
    requires exists j :: 0 <= j < |plan| && IsPast(plan[j], now)
    ensures 0 <= i < |plan| && IsPast(plan[i], now)
    ensures forall j :: i < j < |plan| ==> !IsPast(plan[j], now)
  {
    var n := |plan| - 1;
    if IsPast(plan[n], now) {
      i := n;
    } else {
      var front := plan[..n];
      var j :| 0 <= j < |plan| && IsPast(plan[j], now);
      assert j < n && front[j] == plan[j];
      i := LastPastIndex(front, now);
      assert forall k :: i < k < n ==> front[k] == plan[k];
    }
  }

  /** Every session's date parses, and the instants never decrease along the plan. */
  predicate Ascending(plan: WorkoutPlan)
  {
    (forall j :: 0 <= j < |plan| ==> plan[j].instant.Some?) &&
    forall i, j :: 0 <= i < j < |plan| ==> plan[i].instant.value <= plan[j].instant.value
  }

  /**
   * On a date-ordered plan with a past session, the initial date is the
   * latest past one: before now, and no earlier than any other past session.
   */
  lemma InitialDateIsLatestPast(plan: WorkoutPlan, now: int)
    requires Ascending(plan)
    requires exists j :: 0 <= j < |plan| && IsPast(plan[j], now)
    ensures exists i :: 0 <= i < |plan| && InitialDate(plan, now) == Some(plan[i].date) &&
                        plan[i].instant.value < now &&
                        forall j :: 0 <= j < |plan| && IsPast(plan[j], now) ==>
                                    plan[j].instant.value <= plan[i].instant.value
  {
    var i := LastPastIndex(plan, now);
    var r := InitialDate(plan, now);
    assert r == Some(plan[i].date);
    forall j | 0 <= j < |plan| && IsPast(plan[j], now)
      ensures plan[j].instant.value <= plan[i].instant.value
    {
      assert j <= i;
    }
  }

  /** The completion count of a group on a date; a missing key counts as 0. */
  function GroupCount(date: string, counts: Counts, g: Group): int
  {
    CountOf(counts, Key(date, g.title))
  }

  /**
   * One step of the `reduce` over the groups, seeded with the first group:
   * `best` is the pick so far, `i` the next group to visit, and only a strictly
   * smaller count replaces the pick. The pick is kept as an index.
   */
  function LeastCountFrom(date: string, groups: seq<Group>, counts: Counts, best: nat, i: nat): (k: nat)
    requires best < |groups| && best <= i <= |groups|
    requires forall j :: 0 <= j < i ==> GroupCount(date, counts, groups[best]) <= GroupCount(date, counts, groups[j])
    requires forall j :: 0 <= j < best ==> GroupCount(date, counts, groups[j]) > GroupCount(date, counts, groups[best])
    ensures k < |groups|
    ensures forall j :: 0 <= j < |groups| ==> GroupCount(date, counts, groups[k]) <= GroupCount(date, counts, groups[j])
    ensures forall j :: 0 <= j < k ==> GroupCount(date, counts, groups[j]) > GroupCount(date, counts, groups[k])
    decreases |groups| - i
  {
    if i == |groups| then best
    else if GroupCount(date, counts, groups[i]) < GroupCount(date, counts, groups[best]) then
      LeastCountFrom(date, groups, counts, i, i + 1)
    else
      LeastCountFrom(date, groups, counts, best, i + 1)
  }

  /** The group with the fewest completions on `date`, the earliest one on a tie. */
  function LeastCountIndex(date: string, groups: seq<Group>, counts: Counts): (k: nat)
    requires |groups| > 0
    ensures k < |groups|
    ensures forall j :: 0 <= j < |groups| ==> GroupCount(date, counts, groups[k]) <= GroupCount(date, counts, groups[j])
    ensures forall j :: 0 <= j < k ==> GroupCount(date, counts, groups[j]) > GroupCount(date, counts, groups[k])
  {
    LeastCountFrom(date, groups, counts, 0, 0)
  }

  /**
   * The title selected once the plan is loaded: on the first session with the
   * initial date, the title of its least-completed group; None (no title is
   * set) when that session has no groups.
   */
  function InitialTitle(plan: WorkoutPlan, date: string, counts: Counts): (r: Option<string>)
    ensures r.Some? <==> FindSession(plan, date).Some? && |FindSession(plan, date).value.groups| > 0
    ensures r.Some? ==>
              var groups := FindSession(plan, date).value.groups;
              exists k :: 0 <= k < |groups| && groups[k].title == r.value &&
                          (forall j :: 0 <= j < |groups| ==> GroupCount(date, counts, groups[k]) <= GroupCount(date, counts, groups[j])) &&
                          (forall j :: 0 <= j < k ==> GroupCount(date, counts, groups[j]) > GroupCount(date, counts, groups[k]))
  {
    match FindSession(plan, date)
    case None => None
    case Some(session) =>
      if |session.groups| > 0 then Some(session.groups[LeastCountIndex(date, session.groups, counts)].title)
      else None
  }

  /**
   * The title after the user picks `date`: the first group of the first
   * session with that date when that session has groups, so the counter and
   * table show a group of it; otherwise `title` is left alone.
   */
  function TitleOnDateChange(plan: WorkoutPlan, date: string, title: string): (r: string)
    ensures forall i :: 0 <= i < |plan| && plan[i].date == date && |plan[i].groups| > 0 &&
                        (forall j :: 0 <= j < i ==> plan[j].date != date) ==>
                        r == plan[i].groups[0].title && GroupIndex(plan[i].groups, r) == 0
    ensures FindSession(plan, date).None? ==> r == title
    ensures FindSession(plan, date).Some? && FindSession(plan, date).value.groups == [] ==> r == title
  {
    match FindSession(plan, date)
    case Some(session) => if |session.groups| > 0 then session.groups[0].title else title
    case None => title
  }
}
