/** The multi-material 3D printer panel (`TrainingCentre2`): Start
    Production moves the printer from idle to simulating, a timeout 10000 ms
    later moves it to printing, and a 100 ms ticker advances the progress of
    the current phase by one, capped at 100. */
module Printer {
  import opened Numbers
  import opened Text

  datatype PrinterState = Idle | Simulating | Printing
  {
    /** The state string the component stores. */
    function Name(): string
    {
      match this
      case Idle => "idle"
      case Simulating => "simulating"
      case Printing => "printing"
    }
  }

  /** The panel's state and the number of state-switch timeouts not yet fired. */
  datatype Panel = Panel(state: PrinterState, simulation: int, production: int, pendingSwitches: nat)

  const InitialPanel: Panel := Panel(Idle, 0, 0, 0)
  const TickMs: nat := 100
  const SimulationMs: nat := 10000

  datatype Event = StartProduction | SwitchTimeout | Tick

  /** `prev < 100 ? prev + 1 : 100`. */
  function CappedIncrement(prev: int): (r: int)
    ensures prev < 100 ==> r == prev + 1
    ensures prev >= 100 ==> r == 100
    ensures 0 <= prev <= 100 ==> 0 <= r <= 100
  {
    if prev < 100 then prev + 1 else 100
  }

  /** The Start Production button is enabled only while idle. */
  predicate StartEnabled(p: Panel)
  {
    p.state.Name() == "idle"
  }

  /** One event. A click on the disabled button does nothing. */
  function Step(p: Panel, e: Event): (r: Panel)
    ensures e.StartProduction? && StartEnabled(p) ==>
              r == Panel(Simulating, 0, 0, p.pendingSwitches + 1)
    ensures e.StartProduction? && !StartEnabled(p) ==> r == p
    ensures e.SwitchTimeout? && p.pendingSwitches > 0 ==>
              r == p.(state := Printing, pendingSwitches := p.pendingSwitches - 1)
    ensures e.Tick? ==> r.state == p.state && r.pendingSwitches == p.pendingSwitches
    ensures e.Tick? && p.state == Simulating ==>
              r.simulation == CappedIncrement(p.simulation) && r.production == p.production
    ensures e.Tick? && p.state == Printing ==>
              r.production == CappedIncrement(p.production) && r.simulation == p.simulation
    ensures e.Tick? && p.state == Idle ==> r == p
    ensures r.state == Idle ==> p.state == Idle
  {
    match e
    case StartProduction =>
      if StartEnabled(p) then Panel(Simulating, 0, 0, p.pendingSwitches + 1) else p
    case SwitchTimeout =>
      if p.pendingSwitches > 0 then p.(state := Printing, pendingSwitches := p.pendingSwitches - 1) else p
    case Tick =>
      match p.state
      case Simulating => p.(simulation := CappedIncrement(p.simulation))
      case Printing => p.(production := CappedIncrement(p.production))
      case Idle => p
  }

  function Run(p: Panel, events: seq<Event>): Panel
    decreases |events|
  {
    if |events| == 0 then p else Run(Step(p, events[0]), events[1..])
  }

  /** The number of clicks in `events` that actually start production. */
  function Starts(p: Panel, events: seq<Event>): nat
    decreases |events|
  {
    if |events| == 0 then 0
    else (if events[0].StartProduction? && StartEnabled(p) then 1 else 0) + Starts(Step(p, events[0]), events[1..])
  }

  /** Both progress values within [0, 100]. */
  predicate InBounds(p: Panel)
  {
    0 <= p.simulation <= 100 && 0 <= p.production <= 100
  }

  /** No event sequence pushes a progress value out of [0, 100]. */
  lemma {:induction false} RunStaysInBounds(p: Panel, events: seq<Event>)
    requires InBounds(p)
    ensures InBounds(Run(p, events))
    decreases |events|
  {
    if |events| > 0 {
      RunStaysInBounds(Step(p, events[0]), events[1..]);
    }
  }

  /** Nothing returns the printer to idle, so once started it stays out of
      idle and production starts at most once per mount. */
  lemma {:induction false} NeverIdleAgain(p: Panel, events: seq<Event>)
    requires p.state != Idle
    ensures Run(p, events).state != Idle
    ensures Starts(p, events) == 0
    decreases |events|
  {
    if |events| > 0 {
      NeverIdleAgain(Step(p, events[0]), events[1..]);
    }
  }

  lemma {:induction false} StartsAtMostOnce(p: Panel, events: seq<Event>)
    ensures Starts(p, events) <= 1
    decreases |events|
  {
    if |events| > 0 {
      var next := Step(p, events[0]);
      if next.state == Idle {
        StartsAtMostOnce(next, events[1..]);
      } else {
        NeverIdleAgain(next, events[1..]);
      }
    }
  }

  function Ticks(p: Panel, n: nat): Panel
    decreases n
  {
    if n == 0 then p else Ticks(Step(p, Tick), n - 1)
  }


  /** Ticks while simulating advance only the simulation, one per tick, up
      to 100: after the 100 ticks of the 10000 ms simulation phase it is full. */
  lemma {:induction false} SimulationTicks(n: nat, pending: nat)
    ensures Ticks(Panel(Simulating, 0, 0, pending), n) == Panel(Simulating, Min(n, 100), 0, pending)
  {
    var k := 0;
    while k < n
      invariant 0 <= k <= n
      invariant Ticks(Panel(Simulating, 0, 0, pending), n) == Ticks(Panel(Simulating, Min(k, 100), 0, pending), n - k)
    {
      k := k + 1;
    }
  }

  /** The state label: first letter upper-cased, the rest unchanged. */
  function StateLabel(s: PrinterState): (shown: string)
    ensures |shown| == |s.Name()| && shown[1..] == s.Name()[1..]
    ensures shown[0] == UpperChar(s.Name()[0]) && IsUpper(shown[0])
  {
    Capitalize(s.Name())
  }

  /** The three states are shown with three different labels. */
  lemma StateLabelsDistinct(a: PrinterState, b: PrinterState)
    requires a != b
    ensures StateLabel(a) != StateLabel(b)
  {
    assert StateLabel(a)[1..] == a.Name()[1..];
    assert StateLabel(b)[1..] == b.Name()[1..];
  }

  const Materials: seq<string> := ["metal", "plastic", "ceramic", "composite", "biological"]

  /** The material options' labels, one per material, each the capitalised
      material name. */
  function MaterialLabels(): (labels: seq<string>)
    ensures |labels| == |Materials|
    ensures forall i :: 0 <= i < |Materials| ==>
              && |labels[i]| == |Materials[i]| > 0
              && labels[i][0] == UpperChar(Materials[i][0]) && IsUpper(labels[i][0])
              && labels[i][1..] == Materials[i][1..]
  {
    seq(|Materials|, i requires 0 <= i < |Materials| => Capitalize(Materials[i]))
  }
}
