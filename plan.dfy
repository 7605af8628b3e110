/**
 * The workout plan as loaded from the per-user JSON document, the two
 * `find` lookups the view performs on it, and the composite key under which
 * completion counts are stored.
 */
module Plan {
  import opened Wrappers

  /** One row of the exercise table: display data only. */
  datatype Exercise = Exercise(name: string, series: int, repetitions: int, weight: string)

  /** A named group of exercises; `frequency` is the completion target of its counter. */
  datatype Group = Group(title: string, frequency: int, exercises: seq<Exercise>)

  /**
   * One dated entry of the plan. `date` is the date text of the document: it is
   * what the view compares with `===` and what goes into counter keys.
   * `instant` is the moment the date library parses that text to (None when
   * the text does not parse). `groups` is the document's `workout` array.
   */
  datatype Session = Session(date: string, instant: Option<int>, notes: string, groups: seq<Group>)

  type WorkoutPlan = seq<Session>

  /** JavaScript's `findIndex`: the index of the first element satisfying `p`, or -1 when none does. */
  function FirstIndex<T>(s: seq<T>, p: T -> bool): (r: int)
    ensures -1 <= r < |s|
    ensures r >= 0 ==> p(s[r]) && forall j :: 0 <= j < r ==> !p(s[j])
    ensures r == -1 ==> forall j :: 0 <= j < |s| ==> !p(s[j])
  {
    if |s| == 0 then -1
    else if p(s[0]) then 0
    else
      var r := FirstIndex(s[1..], p);
      if r < 0 then -1 else r + 1
  }

  /** `plan.findIndex(w => w.date === date)`. */
  function SessionIndex(plan: WorkoutPlan, date: string): int
  {
    FirstIndex(plan, (w: Session) => w.date == date)
  }

  /** `plan.find(w => w.date === date)`: the first session with that date text, if any. */
  function FindSession(plan: WorkoutPlan, date: string): (r: Option<Session>)
    ensures r.None? <==> forall j :: 0 <= j < |plan| ==> plan[j].date != date
    ensures r.Some? ==> exists i :: 0 <= i < |plan| && plan[i] == r.value && r.value.date == date &&
                                   forall j :: 0 <= j < i ==> plan[j].date != date
  {
    var i := SessionIndex(plan, date);
    if i < 0 then None else Some(plan[i])
  }

  /** `groups.findIndex(w => w.title === title)`. */
  function GroupIndex(groups: seq<Group>, title: string): int
  {
    FirstIndex(groups, (w: Group) => w.title == title)
  }

  /** True when no two groups of the list share a title. */
  predicate DistinctTitles(groups: seq<Group>)
  {
    forall i, j :: 0 <= i < j < |groups| ==> groups[i].title != groups[j].title
  }

  /** Among distinct titles, looking a group's title up finds that very group. */
  lemma GroupIndexOfDistinct(groups: seq<Group>, i: int)
    requires DistinctTitles(groups)
    requires 0 <= i < |groups|
    ensures GroupIndex(groups, groups[i].title) == i
  {
  }

  /** The counter key of a group on a date: the template literal `${date}-${title}`. */
  function Key(date: string, title: string): (k: string)
    ensures |k| == |date| + 1 + |title|
    ensures k[..|date|] == date && k[|date|] == '-' && k[|date| + 1..] == title
  {
    date + "-" + title
  }

  /** Keys are plain concatenation: two different (date, title) pairs can share one. */
  lemma KeysCanCollide()
    ensures Key("2024-01", "01-A") == Key("2024-01-01", "A")
    ensures "2024-01" != "2024-01-01"
  {
  }

  /** When the two dates have the same length (as fixed-width date texts do), the key determines the pair. */
  lemma KeyInjectiveForEqualLengthDates(d1: string, t1: string, d2: string, t2: string)
    requires |d1| == |d2|
    requires Key(d1, t1) == Key(d2, t2)
    ensures d1 == d2 && t1 == t2
  {
    var k := Key(d1, t1);
    assert d1 == k[..|d1|] == d2;
    assert t1 == k[|d1| + 1..] == t2;
  }
}
