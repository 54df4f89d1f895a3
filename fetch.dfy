/**
 * The fetch state of one `ZoomableSquareImageViaAsyncFn` thumbnail.
 *
 * The thumbnail shows a progress view while its `FnState` is
 * `not_called_yet` or `calling`; each time that progress view appears it
 * starts a task that sets `calling`, awaits the thumbnail's async function
 * and stores `finishedWith(image)` or `failed`. Nothing guards against a
 * second appearance, so several tasks may be in flight; `Loader` counts
 * them. The finished and failed views start no task.
 */
module Fetch {
  import opened Common

  datatype FnState = NotCalledYet | Calling | FinishedWith(image: Image) | Failed {
    /** The two states in which the thumbnail no longer shows the progress view. */
    predicate IsTerminal() {
      FinishedWith? || Failed?
    }
  }

  /** The thumbnail's `FnState` and the number of fetch tasks started and not yet returned. */
  datatype Loader = Loader(state: FnState, tasksInFlight: nat)

  const Initial := Loader(NotCalledYet, 0)

  /** A task is in flight while the state says `calling`, and none before the first appearance. */
  predicate Valid(l: Loader) {
    (l.state.NotCalledYet? ==> l.tasksInFlight == 0) &&
    (l.state.Calling? ==> l.tasksInFlight > 0)
  }

  /** The state a task stores when the async function returns `result`. */
  function Returned(result: Option<Image>): (s: FnState)
    ensures s.IsTerminal()
    ensures s.FinishedWith? <==> result.Some?
    ensures s.Failed? <==> result.None?
    ensures s.FinishedWith? ==> s.image == result.value
  {
    match result
    case Some(image) => FinishedWith(image)
    case None => Failed
  }

  /** The progress view appears: only a non-terminal state starts a task, which first sets `calling`. */
  function OnAppear(l: Loader): (r: Loader)
    ensures l.state.IsTerminal() ==> r == l
    ensures !l.state.IsTerminal() ==> r.state == Calling && r.tasksInFlight == l.tasksInFlight + 1
  {
    if l.state.IsTerminal() then l else Loader(Calling, l.tasksInFlight + 1)
  }

  /** A task's await returns `result`; the task stores its outcome whatever the state is by then. */
  function OnReturn(l: Loader, result: Option<Image>): (r: Loader)
    requires l.tasksInFlight > 0
    ensures r.state.IsTerminal()
    ensures r.state == Returned(result)
    ensures r.tasksInFlight + 1 == l.tasksInFlight
  {
    Loader(Returned(result), l.tasksInFlight - 1)
  }

  /** What can happen to a thumbnail's fetch state. */
  datatype Event = Appear | Return(result: Option<Image>)

  /** One event. A return with no task in flight cannot happen and changes nothing. */
  function Step(l: Loader, e: Event): Loader {
    match e
    case Appear => OnAppear(l)
    case Return(result) => if l.tasksInFlight > 0 then OnReturn(l, result) else l
  }

  function Run(l: Loader, events: seq<Event>): Loader
    decreases |events|
  {
    if events == [] then l else Run(Step(l, events[0]), events[1..])
  }

  lemma StepKeepsValid(l: Loader, e: Event)
    requires Valid(l)
    ensures Valid(Step(l, e))
  {
  }

  /** Every reachable fetch state is valid. */
  lemma {:induction false} RunKeepsValid(l: Loader, events: seq<Event>)
    requires Valid(l)
    ensures Valid(Run(l, events))
    decreases |events|
  {
    if events != [] {
      StepKeepsValid(l, events[0]);
      RunKeepsValid(Step(l, events[0]), events[1..]);
    }
  }

  /** Once the state is terminal it stays terminal: no code path returns to a loading state. */
  lemma {:induction false} TerminalStaysTerminal(l: Loader, events: seq<Event>)
    requires l.state.IsTerminal()
    ensures Run(l, events).state.IsTerminal()
    decreases |events|
  {
    if events != [] {
      TerminalStaysTerminal(Step(l, events[0]), events[1..]);
    }
  }

  /** A terminal state with no task left in flight never changes again. */
  lemma {:induction false} SettledIsFinal(l: Loader, events: seq<Event>)
    requires l.state.IsTerminal() && l.tasksInFlight == 0
    ensures Run(l, events) == l
    decreases |events|
  {
    if events != [] {
      SettledIsFinal(Step(l, events[0]), events[1..]);
    }
  }

  /** After the first call has started, the state never goes back to `not_called_yet`. */
  lemma {:induction false} NeverUncalled(l: Loader, events: seq<Event>)
    requires !l.state.NotCalledYet?
    ensures !Run(l, events).state.NotCalledYet?
    decreases |events|
  {
    if events != [] {
      NeverUncalled(Step(l, events[0]), events[1..]);
    }
  }

  /** One appearance and its task's return: the state is `finishedWith(image)` iff an image came back, `failed` iff nil. */
  lemma SingleFetch(result: Option<Image>)
    ensures Run(Initial, [Appear, Return(result)]) == Loader(Returned(result), 0)
  {
    var events := [Appear, Return(result)];
    assert events[1..] == [Return(result)];
    assert Run(Loader(Returned(result), 0), events[2..]) == Loader(Returned(result), 0);
  }

  /**
   * Two appearances before the first return start two tasks; the later
   * return overwrites the earlier outcome, so a finished thumbnail can end
   * up failed.
   */
  lemma LateReturnOverwrites(image: Image)
    ensures Run(Initial, [Appear, Appear, Return(Some(image))]).state == FinishedWith(image)
    ensures Run(Initial, [Appear, Appear, Return(Some(image)), Return(None)]).state == Failed
  {
    var finished := Loader(FinishedWith(image), 1);
    var first := [Appear, Appear, Return(Some(image))];
    RunSplit(Initial, [Appear, Appear], [Return(Some(image))]);
    assert first == [Appear, Appear] + [Return(Some(image))];
    assert Run(Initial, [Appear, Appear]) == Loader(Calling, 2) by {
      assert [Appear, Appear][1..] == [Appear];
    }
    assert Run(Initial, first) == finished;
    RunSplit(Initial, first, [Return(None)]);
    assert first + [Return(None)] == [Appear, Appear, Return(Some(image)), Return(None)];
  }

  /** Running two event sequences one after the other is running their concatenation. */
  lemma {:induction false} RunSplit(l: Loader, first: seq<Event>, second: seq<Event>)
    ensures Run(l, first + second) == Run(Run(l, first), second)
    decreases |first|
  {
    if first == [] {
      assert first + second == second;
    } else {
      assert (first + second)[0] == first[0];
      assert (first + second)[1..] == first[1..] + second;
      RunSplit(Step(l, first[0]), first[1..], second);
    }
  }
}
