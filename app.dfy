/**
 * The workout view's state and its event handlers. Each React state hook
 * becomes a field; each handler becomes a method that updates the fields
 * through the rules of the Selection, Counter and Navigation modules.
 */
module WorkoutApp {
  import opened Wrappers
  import opened Plan
  import opened Counter
  import opened Selection
  import opened Navigation

  /** The outcome of fetching the user's plan document. */
  datatype Response =
    | NotOk                     // the server answered with a non-success status
    | Malformed                 // the body is not valid JSON
    | Loaded(data: WorkoutPlan) // the parsed plan

  /** Why the view shows an error message instead of the plan. */
  datatype LoadError =
    | NotFound(message: string) // the message thrown for a non-success status
    | ParseFailure              // the JSON parser threw
    | EmptyPlan                 // reading the first session's date of an empty plan threw

  /** The message thrown for a non-success status: the fixed text, then the user name. */
  function NotFoundMessage(user: string): (m: string)
    ensures |m| == 24 + |user|
    ensures m[..24] == "Could not find data for " && m[24..] == user
  {
    "Could not find data for " + user
  }

  /** Every state field of the view, as one value. */
  datatype ViewState = ViewState(
    plan: WorkoutPlan,
    selectedDate: string,
    selectedTitle: string,
    counts: Counts,
    loading: bool,
    error: Option<LoadError>,
    showConfetti: bool,
    touchStartX: Option<int>,
    touchEndX: Option<int>)

  class App {
    const user: string
    var plan: WorkoutPlan
    var selectedDate: string
    var selectedTitle: string
    var counts: Counts
    var loading: bool
    var error: Option<LoadError>
    var showConfetti: bool
    var touchStartX: Option<int>
    var touchEndX: Option<int>

    function State(): ViewState
      reads this
    {
      ViewState(plan, selectedDate, selectedTitle, counts, loading, error, showConfetti, touchStartX, touchEndX)
    }

    /** The session of the selected date, as the render looks it up. */
    function CurrentSession(): Option<Session>
      reads this
    {
      FindSession(plan, selectedDate)
    }

    /**
     * The view once the mount effect has read local storage: loading,
     * nothing selected, and the stored counts (`saved`). The very first
     * render still has empty counts; the effect replaces them at once.
     */
    constructor (user: string, saved: Counts)
      ensures this.user == user
      ensures State() == ViewState([], "", "", saved, true, None, false, None, None)
    {
      this.user := user;
      plan, selectedDate, selectedTitle := [], "", "";
      counts, loading, error := saved, true, None;
      showConfetti, touchStartX, touchEndX := false, None, None;
    }

    /**
     * A parsed plan arrives: it is stored, then the initial date is selected
     * (an empty plan is an error instead) and, when that date's session has
     * groups, the least-completed group's title. Loading ends.
     */
    method ShowPlan(data: WorkoutPlan, now: int)
      modifies this
      ensures InitialDate(data, now).None? ==>
                State() == old(State()).(plan := data, loading := false, error := Some(EmptyPlan))
      ensures InitialDate(data, now).Some? ==>
                var date := InitialDate(data, now).value;
                var title := InitialTitle(data, date, old(counts));
                State() == old(State()).(plan := data, selectedDate := date,
                                         selectedTitle := if title.Some? then title.value else old(selectedTitle),
                                         loading := false)
    {
      var date := InitialDate(data, now);
      if date.None? {
        plan, error := data, Some(EmptyPlan);
      } else {
        var title := InitialTitle(data, date.value, counts);
        plan, selectedDate := data, date.value;
        selectedTitle := if title.Some? then title.value else selectedTitle;
      }
      loading := false;
    }

    /**
     * The response to the plan request arrives: a failed request or an
     * unparsable body sets the error and ends loading; a parsed plan is shown
     * as ShowPlan says.
     */
    method Load(response: Response, now: int)
      modifies this
      ensures !loading
      ensures response.NotOk? ==>
                State() == old(State()).(loading := false, error := Some(NotFound(NotFoundMessage(user))))
      ensures response.Malformed? ==>
                State() == old(State()).(loading := false, error := Some(ParseFailure))
      ensures response.Loaded? && InitialDate(response.data, now).None? ==>
                State() == old(State()).(plan := response.data, loading := false, error := Some(EmptyPlan))
      ensures response.Loaded? && InitialDate(response.data, now).Some? ==>
                var date := InitialDate(response.data, now).value;
                var title := InitialTitle(response.data, date, old(counts));
                State() == old(State()).(plan := response.data, selectedDate := date,
                                         selectedTitle := if title.Some? then title.value else old(selectedTitle),
                                         loading := false)
    {
      match response {
        case NotOk =>
          error, loading := Some(NotFound(NotFoundMessage(user))), false;
        case Malformed =>
          error, loading := Some(ParseFailure), false;
        case Loaded(data) =>
          ShowPlan(data, now);
      }
    }

    /** The date menu: select `date` and reset the title to that date's first group. */
    method SelectDate(date: string)
      modifies this
      ensures State() == old(State()).(selectedDate := date,
                                       selectedTitle := TitleOnDateChange(old(plan), date, old(selectedTitle)))
    {
      selectedDate := date;
      selectedTitle := TitleOnDateChange(plan, date, selectedTitle);
    }

    /** The title menu. */
    method SelectTitle(title: string)
      modifies this
      ensures State() == old(State()).(selectedTitle := title)
    {
      selectedTitle := title;
    }

    /**
     * The "+" button for `title` on `date`. When no session has that date the
     * handler throws and nothing changes (`thrown`). Otherwise the counter
     * moves as Increment says, with the frequency of that title in the
     * session, and reaching the target shows the confetti.
     */
    method Increment(date: string, title: string) returns (thrown: bool)
      modifies this
      ensures thrown <==> FindSession(old(plan), date).None?
      ensures thrown ==> State() == old(State())
      ensures !thrown ==>
                var step := Counter.Increment(old(counts), Key(date, title), FrequencyOf(FindSession(old(plan), date).value, title));
                State() == old(State()).(counts := step.counts, showConfetti := old(showConfetti) || step.targetReached)
    {
      var session := FindSession(plan, date);
      if session.None? {
        return true;
      }
      var step := Counter.Increment(counts, Key(date, title), FrequencyOf(session.value, title));
      counts := step.counts;
      if step.targetReached {
        showConfetti := true;
      }
      return false;
    }

    /** The "-" button for `title` on `date`; it never shows the confetti. */
    method Decrement(date: string, title: string)
      modifies this
      ensures State() == old(State()).(counts := Counter.Decrement(old(counts), Key(date, title)))
    {
      counts := Counter.Decrement(counts, Key(date, title));
    }

    /** The timer started by a reached target has run out: the confetti goes away. */
    method ConfettiTimeout()
      modifies this
      ensures State() == old(State()).(showConfetti := false)
    {
      showConfetti := false;
    }

    /** A finger touches the screen at `x`. */
    method TouchStart(x: int)
      modifies this
      ensures State() == old(State()).(touchStartX := Some(x))
    {
      touchStartX := Some(x);
    }

    /** The finger moves to `x`. */
    method TouchMove(x: int)
      modifies this
      ensures State() == old(State()).(touchEndX := Some(x))
    {
      touchEndX := Some(x);
    }

    /** `selectNextTitle` on the session of the selected date. */
    method SelectNextTitle()
      modifies this
      ensures State() == old(State()).(selectedTitle := StepTitle(old(CurrentSession()), old(selectedTitle), true))
    {
      selectedTitle := StepTitle(CurrentSession(), selectedTitle, true);
    }

    /** `selectPreviousTitle` on the session of the selected date. */
    method SelectPreviousTitle()
      modifies this
      ensures State() == old(State()).(selectedTitle := StepTitle(old(CurrentSession()), old(selectedTitle), false))
    {
      selectedTitle := StepTitle(CurrentSession(), selectedTitle, false);
    }

    /**
     * The finger lifts: a long enough swipe steps to the next or previous
     * group, and both touch coordinates are cleared whatever the gesture.
     */
    method TouchEnd()
      modifies this
      ensures touchStartX == None && touchEndX == None
      ensures var gesture := ClassifySwipe(old(touchStartX), old(touchEndX));
              var title := if gesture == SwipeNext then StepTitle(old(CurrentSession()), old(selectedTitle), true)
                           else if gesture == SwipePrevious then StepTitle(old(CurrentSession()), old(selectedTitle), false)
                           else old(selectedTitle);
              State() == old(State()).(selectedTitle := title, touchStartX := None, touchEndX := None)
    {
      var gesture := ClassifySwipe(touchStartX, touchEndX);
      if gesture == SwipeNext {
        SelectNextTitle();
      } else if gesture == SwipePrevious {
        SelectPreviousTitle();
      }
      touchStartX, touchEndX := None, None;
    }
  }
}
