/**
 * The payment modal's step machine: INIT, then PROCESSING once Pay is
 * pressed, then SUCCESS when the simulated processing delay elapses.
 */
module Payment {
  import opened Wrappers

  datatype Step = Init | Processing | Success

  /** What can happen to the modal: the Pay button, and the delay timer firing. */
  datatype Event = Pay | TimerFired

  /** One transition; `None` when the event cannot occur in that step. */
  function Next(s: Step, e: Event): (t: Option<Step>)
    ensures t.Some? ==> Rank(t.value) == Rank(s) + 1
  {
    match (s, e)
    case (Init, Pay) => Some(Processing)
    case (Processing, TimerFired) => Some(Success)
    case _ => None
  }

  /** Position of a step in the flow. */
  function Rank(s: Step): nat
  {
    match s
    case Init => 0
    case Processing => 1
    case Success => 2
  }

  /** The step after a whole sequence of events, or `None` if one of them could not occur. */
  function Run(s: Step, events: seq<Event>): Option<Step>
    decreases |events|
  {
    if events == [] then Some(s)
    else
      match Next(s, events[0])
      case None => None
      case Some(t) => Run(t, events[1..])
  }

  /** Every run only moves forward, one step per event. */
  lemma {:induction false} RunAdvances(s: Step, events: seq<Event>)
    requires Run(s, events).Some?
    ensures Rank(Run(s, events).value) == Rank(s) + |events|
    decreases |events|
  {
    if events != [] {
      RunAdvances(Next(s, events[0]).value, events[1..]);
    }
  }

  /** From INIT the only possible histories are: nothing, Pay, and Pay then the timer. */
  lemma RunsFromInit(events: seq<Event>)
    ensures Run(Init, events) ==
      if events == [] then Some(Init)
      else if events == [Pay] then Some(Processing)
      else if events == [Pay, TimerFired] then Some(Success)
      else None
  {
    if Run(Init, events).Some? {
      RunAdvances(Init, events);
    }
    if |events| == 2 {
      assert events[1..] == [events[1]] && events[1..][1..] == [];
      if events[0] == Pay {
        assert Run(Init, events) == Run(Processing, [events[1]]);
      }
    }
  }

  /** The modal's own state; a fresh modal is mounted each time it is shown. */
  class PaymentModal {
    var step: Step

    constructor ()
      ensures step == Init
    {
      step := Init;
    }

    /** The Pay button, shown only on the INIT screen. */
    method HandlePay()
      requires step == Init
      modifies this
      ensures Next(old(step), Pay) == Some(step)
      ensures step == Processing
    {
      step := Processing;
    }

    /** The delay set by HandlePay elapses; it is pending exactly while processing. */
    method TimerFires()
      requires step == Processing
      modifies this
      ensures Next(old(step), TimerFired) == Some(step)
      ensures step == Success
    {
      step := Success;
    }
  }
}
