/**
 * The completion counters: a map from counter key to count, raised by the
 * "+" button up to the group's frequency and lowered by the "-" button down
 * to zero. Each operation returns the previous map itself when it does
 * nothing and otherwise a copy with one key changed.
 */
module Counter {
  import opened Wrappers
  import opened Plan

  type Counts = map<string, int>

  /**
   * `counts[key] || 0`: a missing key reads as 0 and a stored count reads as
   * itself (a stored 0 is falsy but becomes the same 0).
   */
  function CountOf(counts: Counts, key: string): (c: int)
    ensures key !in counts ==> c == 0
    ensures key in counts ==> c == counts[key]
  {
    if key in counts then counts[key] else 0
  }

  /** True when `key` has the same entry (or the same absence) in both maps. */
  predicate SameAt(m: Counts, m': Counts, key: string)
  {
    (key in m <==> key in m') && (key in m ==> m[key] == m'[key])
  }

  /**
   * The target used by the "+" button: the frequency of the first group of
   * the session with that title, or 1 when the session has no such group.
   */
  function FrequencyOf(session: Session, title: string): (f: int)
    ensures (forall j :: 0 <= j < |session.groups| ==> session.groups[j].title != title) ==> f == 1
    ensures forall j :: 0 <= j < |session.groups| && session.groups[j].title == title &&
                        (forall i :: 0 <= i < j ==> session.groups[i].title != title) ==>
                        f == session.groups[j].frequency
  {
    var j := GroupIndex(session.groups, title);
    if j >= 0 then session.groups[j].frequency else 1
  }

  /** The result of an increment: the new map and whether the target was just reached. */
  datatype Step = Step(counts: Counts, targetReached: bool)

  /**
   * The "+" button. Below the target the key goes up by one and every other
   * key keeps its entry; at or above it the same map comes back. The
   * target-reached signal is raised exactly when the new count equals the
   * frequency.
   */
  function Increment(counts: Counts, key: string, frequency: int): (r: Step)
    ensures CountOf(counts, key) < frequency ==>
              key in r.counts && r.counts[key] == CountOf(counts, key) + 1 &&
              r.counts.Keys == counts.Keys + {key}
    ensures CountOf(counts, key) >= frequency ==> r.counts == counts && !r.targetReached
    ensures forall k :: k != key ==> SameAt(counts, r.counts, k)
    ensures r.targetReached <==> CountOf(counts, key) < frequency && CountOf(r.counts, key) == frequency
    ensures CountOf(counts, key) <= frequency ==> CountOf(r.counts, key) <= frequency
  {
    var count := CountOf(counts, key);
    if count < frequency then
      Step(counts[key := count + 1], count + 1 == frequency)
    else
      Step(counts, false)
  }

  /**
   * The "-" button. A positive count goes down by one and every other key
   * keeps its entry; a count of 0 or below (or a missing key) gives back the
   * same map, so a non-negative count never becomes negative.
   */
  function Decrement(counts: Counts, key: string): (r: Counts)
    ensures CountOf(counts, key) > 0 ==>
              key in r && r[key] == CountOf(counts, key) - 1 && r.Keys == counts.Keys
    ensures CountOf(counts, key) <= 0 ==> r == counts
    ensures forall k :: k != key ==> SameAt(counts, r, k)
    ensures CountOf(counts, key) >= 0 ==> CountOf(r, key) >= 0
  {
    var count := CountOf(counts, key);
    if count > 0 then counts[key := count - 1] else counts
  }

  /**
   * "+" then "-" from a non-negative count below the target undoes the
   * increment: the count is back
   * where it was, and the map is the original one except that a key that
   * was missing is now present with 0.
   */
  lemma IncrementThenDecrement(counts: Counts, key: string, frequency: int)
    requires 0 <= CountOf(counts, key) < frequency
    ensures CountOf(Decrement(Increment(counts, key, frequency).counts, key), key) == CountOf(counts, key)
    ensures key in counts ==> Decrement(Increment(counts, key, frequency).counts, key) == counts
    ensures key !in counts ==> Decrement(Increment(counts, key, frequency).counts, key) == counts[key := 0]
  {
    var up := Increment(counts, key, frequency).counts;
    var back := Decrement(up, key);
    assert CountOf(up, key) > 0;
    if key in counts {
      assert back.Keys == counts.Keys;
      forall k | k in counts ensures back[k] == counts[k] {
        if k != key { assert SameAt(counts, up, k) && SameAt(up, back, k); }
      }
    } else {
      var expected := counts[key := 0];
      assert back.Keys == expected.Keys;
      forall k | k in expected ensures back[k] == expected[k] {
        if k != key { assert SameAt(counts, up, k) && SameAt(up, back, k); }
      }
    }
  }

  /** No count of the map is negative. */
  predicate NonNegative(counts: Counts)
  {
    forall k :: k in counts ==> counts[k] >= 0
  }

  /** Both buttons keep every count non-negative. */
  lemma ButtonsKeepCountsNonNegative(counts: Counts, key: string, frequency: int)
    requires NonNegative(counts)
    ensures NonNegative(Increment(counts, key, frequency).counts)
    ensures NonNegative(Decrement(counts, key))
  {
    var up := Increment(counts, key, frequency).counts;
    var down := Decrement(counts, key);
    forall k | k in up ensures up[k] >= 0 {
      if k != key { assert SameAt(counts, up, k); }
    }
    forall k | k in down ensures down[k] >= 0 {
      if k != key { assert SameAt(counts, down, k); }
    }
  }

  /**
   * Pressing "+" `presses` times in a row: the final map and how many times
   * the target-reached signal was raised.
   */
  function PressIncrement(counts: Counts, key: string, frequency: int, presses: nat): (Counts, nat)
    decreases presses
  {
    if presses == 0 then (counts, 0)
    else
      var step := Increment(counts, key, frequency);
      var rest := PressIncrement(step.counts, key, frequency, presses - 1);
      (rest.0, rest.1 + if step.targetReached then 1 else 0)
  }

  /**
   * From a count at or below the frequency, repeated "+" presses climb one by one
   * and stop at the frequency; the signal is raised once, on the press that
   * reaches the frequency, and never again.
   */
  lemma {:induction false} RepeatedIncrementStopsAtTarget(counts: Counts, key: string, frequency: int, presses: nat)
    requires CountOf(counts, key) <= frequency
    ensures var c := CountOf(counts, key);
            var run := PressIncrement(counts, key, frequency, presses);
            && CountOf(run.0, key) == (if c + presses <= frequency then c + presses else frequency)
            && run.1 == (if c < frequency <= c + presses then 1 else 0)
    decreases presses
  {
    if presses > 0 {
      var step := Increment(counts, key, frequency);
      RepeatedIncrementStopsAtTarget(step.counts, key, frequency, presses - 1);
    }
  }

  /** Every session date has the same length (as "YYYY-MM-DD" texts do) and no two sessions share a date. */
  predicate WellFormedDates(plan: WorkoutPlan)
  {
    (forall i, j :: 0 <= i < |plan| && 0 <= j < |plan| ==> |plan[i].date| == |plan[j].date|) &&
    (forall i, j :: 0 <= i < j < |plan| ==> plan[i].date != plan[j].date)
  }

  /** Every group of the plan has a count between 0 and the frequency the "+" button uses for it. */
  predicate WithinTargets(plan: WorkoutPlan, counts: Counts)
  {
    forall i, j :: 0 <= i < |plan| && 0 <= j < |plan[i].groups| ==>
      0 <= CountOf(counts, Key(plan[i].date, plan[i].groups[j].title)) <= FrequencyOf(plan[i], plan[i].groups[j].title)
  }

  /**
   * On a plan with fixed-width, unique dates, the "+" button on any title of
   * an existing session keeps every group's count within its target.
   */
  lemma IncrementKeepsTargets(plan: WorkoutPlan, counts: Counts, date: string, title: string)
    requires WellFormedDates(plan) && WithinTargets(plan, counts)
    requires FindSession(plan, date).Some?
    ensures WithinTargets(plan, Increment(counts, Key(date, title), FrequencyOf(FindSession(plan, date).value, title)).counts)
  {
    var i0 := SessionIndex(plan, date);
    var key := Key(date, title);
    var f := FrequencyOf(plan[i0], title);
    var up := Increment(counts, key, f).counts;
    forall i, j | 0 <= i < |plan| && 0 <= j < |plan[i].groups|
      ensures 0 <= CountOf(up, Key(plan[i].date, plan[i].groups[j].title)) <= FrequencyOf(plan[i], plan[i].groups[j].title)
    {
      var k := Key(plan[i].date, plan[i].groups[j].title);
      if k == key {
        KeyInjectiveForEqualLengthDates(plan[i].date, plan[i].groups[j].title, date, title);
        assert i == i0;
      } else {
        assert SameAt(counts, up, k);
      }
    }
  }

  /** The "-" button keeps every group's count within its target, whatever the plan. */
  lemma DecrementKeepsTargets(plan: WorkoutPlan, counts: Counts, key: string)
    requires WithinTargets(plan, counts)
    ensures WithinTargets(plan, Decrement(counts, key))
  {
    var down := Decrement(counts, key);
    forall i, j | 0 <= i < |plan| && 0 <= j < |plan[i].groups|
      ensures 0 <= CountOf(down, Key(plan[i].date, plan[i].groups[j].title)) <= FrequencyOf(plan[i], plan[i].groups[j].title)
    {
      var k := Key(plan[i].date, plan[i].groups[j].title);
      if k != key {
        assert SameAt(counts, down, k);
      }
    }
  }

  /**
   * Without fixed-width dates the bound can break: two groups whose keys
   * collide share one counter, and the group with the larger frequency can
   * push it past the other's.
   */
  lemma CollidingKeysBreakTargets()
    ensures var plan := [Session("2024-01", None, "", [Group("01-A", 1, [])]),
                         Session("2024-01-01", None, "", [Group("A", 2, [])])];
            var once := Increment(map[], Key("2024-01-01", "A"), 2).counts;
            var twice := Increment(once, Key("2024-01-01", "A"), 2).counts;
            WithinTargets(plan, map[]) && !WithinTargets(plan, twice)
  {
    var plan := [Session("2024-01", None, "", [Group("01-A", 1, [])]),
                 Session("2024-01-01", None, "", [Group("A", 2, [])])];
    var key := Key("2024-01-01", "A");
    var twice := Increment(Increment(map[], key, 2).counts, key, 2).counts;
    assert Key(plan[0].date, plan[0].groups[0].title) == key;
    assert CountOf(twice, key) == 2;
    assert FrequencyOf(plan[0], "01-A") == 1;
  }
}
