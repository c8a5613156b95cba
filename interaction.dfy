/**
  The drag handlers of the visualizer: a drag start pins a node where it
  stands, a drag move carries the pin to the pointer, and a double click
  releases it, while each of them adjusts the heat of the force simulation.

  The handlers are specified by transition functions on plain values
  (`NodeState`, `SimState`); the classes `Node` and `Simulation` hold the
  same state in mutable fields, and the handler methods are proved to update
  those fields exactly as the transition functions say.
 */
module Interaction {
  import opened Graph

  datatype Option<T> = None | Some(value: T)

  /** `alphaTarget` while a drag gesture keeps the simulation hot. */
  const DRAG_ALPHA_TARGET: real := 0.3
  /** `alpha` that every drag move re-heats the simulation to. */
  const DRAG_ALPHA: real := 0.3
  /** `alphaTarget` after a release: let the simulation cool down. */
  const REST_ALPHA_TARGET: real := 0.0
  /** The heat a new simulation starts with. */
  const INITIAL_ALPHA: real := 1.0

  /** A pointer event of a drag gesture: `active` is the number of other
      drag gestures in progress, `x`, `y` the pointer in simulation
      coordinates. */
  datatype DragEvent = DragEvent(active: nat, x: real, y: real)

  /** The simulated position of a node and its optional pin; an absent
      pin is JavaScript's `undefined` or `null`. */
  datatype NodeState = NodeState(x: real, y: real, fx: Option<real>, fy: Option<real>)

  /** The state of the simulation that the handlers touch. */
  datatype SimState = SimState(alpha: real, alphaTarget: real, running: bool)

  /** The three handlers the node elements are wired to. */
  datatype Handler = DragStart(event: DragEvent) | Drag(event: DragEvent) | Release

  predicate Pinned(n: NodeState) {
    n.fx.Some? && n.fy.Some?
  }

  predicate Free(n: NodeState) {
    n.fx.None? && n.fy.None?
  }

  /** Both pin coordinates are set, or neither is. */
  predicate Coherent(n: NodeState) {
    Pinned(n) || Free(n)
  }

  predicate PinnedAt(n: NodeState, x: real, y: real) {
    n.fx == Some(x) && n.fy == Some(y)
  }

  /** The effect of one handler on the dragged node and the simulation. */
  function Step(n: NodeState, s: SimState, h: Handler): (NodeState, SimState) {
    match h
    case DragStart(e) =>
      var s' := if e.active == 0 then s.(alphaTarget := DRAG_ALPHA_TARGET, running := true) else s;
      (n.(fx := Some(n.x), fy := Some(n.y)), s')
    case Drag(e) =>
      (n.(fx := Some(e.x), fy := Some(e.y)), s.(alpha := DRAG_ALPHA, running := true))
    case Release =>
      (n.(fx := None, fy := None), s.(alphaTarget := REST_ALPHA_TARGET))
  }

  /** The effect of a sequence of handlers on one node, in order. */
  function Run(n: NodeState, s: SimState, hs: seq<Handler>): (NodeState, SimState) {
    if hs == [] then (n, s)
    else
      var prev := Run(n, s, hs[..|hs| - 1]);
      Step(prev.0, prev.1, hs[|hs| - 1])
  }

  // ---------------------------------------------------------------------
  // Properties of single handlers
  // ---------------------------------------------------------------------

  /** A drag start pins the node exactly where the simulation has put it,
      whether or not it was pinned before, and does not move it. */
  lemma DragStartPinsInPlace(n: NodeState, s: SimState, e: DragEvent)
    ensures var r := Step(n, s, DragStart(e));
      PinnedAt(r.0, n.x, n.y) && r.0.x == n.x && r.0.y == n.y
  {
  }

  /** A drag start heats and restarts the simulation only when no other
      drag is in progress; otherwise it leaves the simulation alone. */
  lemma DragStartHeat(n: NodeState, s: SimState, e: DragEvent)
    ensures var r := Step(n, s, DragStart(e));
      (e.active == 0 ==> r.1.alphaTarget == DRAG_ALPHA_TARGET && r.1.running && r.1.alpha == s.alpha) &&
      (e.active != 0 ==> r.1 == s)
  {
  }

  /** A drag move pins the node at the pointer and re-heats the running
      simulation, leaving its target heat alone. */
  lemma DragMovesPin(n: NodeState, s: SimState, e: DragEvent)
    ensures var r := Step(n, s, Drag(e));
      PinnedAt(r.0, e.x, e.y) && r.0.x == n.x && r.0.y == n.y &&
      r.1.alpha == DRAG_ALPHA && r.1.running && r.1.alphaTarget == s.alphaTarget
  {
  }

  /** A release frees the node, lowers the target heat to zero, and neither
      moves the node nor restarts the simulation. */
  lemma ReleaseFrees(n: NodeState, s: SimState)
    ensures var r := Step(n, s, Release);
      Free(r.0) && r.0.x == n.x && r.0.y == n.y &&
      r.1.alphaTarget == REST_ALPHA_TARGET && r.1.alpha == s.alpha && r.1.running == s.running
  {
  }

  /** Releasing twice is releasing once. */
  lemma ReleaseIdempotent(n: NodeState, s: SimState)
    ensures var r := Step(n, s, Release);
      Step(r.0, r.1, Release) == r
  {
  }

  /** Releasing a node that is already free leaves the node as it is. */
  lemma ReleaseFreeNode(n: NodeState, s: SimState)
    requires Free(n)
    ensures Step(n, s, Release).0 == n
  {
  }

  // ---------------------------------------------------------------------
  // Properties of handler sequences
  // ---------------------------------------------------------------------

  /** No handler moves the node: positions change only on simulation ticks. */
  lemma {:induction false} RunKeepsPosition(n: NodeState, s: SimState, hs: seq<Handler>)
    ensures Run(n, s, hs).0.x == n.x && Run(n, s, hs).0.y == n.y
  {
    if hs != [] {
      RunKeepsPosition(n, s, hs[..|hs| - 1]);
    }
  }

  /** The pin state after a non-empty sequence of handlers is decided by the
      last one: free after a release, pinned otherwise. */
  lemma {:induction false} RunPinState(n: NodeState, s: SimState, hs: seq<Handler>)
    requires hs != []
    ensures Free(Run(n, s, hs).0) <==> hs[|hs| - 1].Release?
    ensures Pinned(Run(n, s, hs).0) <==> !hs[|hs| - 1].Release?
  {
  }

  /** The handlers keep both pin coordinates set or both unset. */
  lemma {:induction false} RunKeepsCoherent(n: NodeState, s: SimState, hs: seq<Handler>)
    requires Coherent(n)
    ensures Coherent(Run(n, s, hs).0)
  {
    if hs != [] {
      RunKeepsCoherent(n, s, hs[..|hs| - 1]);
    }
  }

  /** The target heat only ever takes the drag value, the rest value, or
      the value it started with. */
  lemma {:induction false} RunAlphaTarget(n: NodeState, s: SimState, hs: seq<Handler>)
    ensures var t := Run(n, s, hs).1.alphaTarget;
      t == s.alphaTarget || t == DRAG_ALPHA_TARGET || t == REST_ALPHA_TARGET
  {
    if hs != [] {
      RunAlphaTarget(n, s, hs[..|hs| - 1]);
    }
  }

  /** A simulation that was restarted stays running: no handler stops it. */
  lemma {:induction false} RunKeepsRunning(n: NodeState, s: SimState, hs: seq<Handler>)
    requires s.running
    ensures Run(n, s, hs).1.running
  {
    if hs != [] {
      RunKeepsRunning(n, s, hs[..|hs| - 1]);
    }
  }

  /** Dragging a free node to (100, 200) pins it there with the simulation
      hot; a double click afterwards frees it and lets the simulation cool. */
  lemma DragAndReleaseScenario(x: real, y: real, s: SimState)
    ensures var n := NodeState(x, y, None, None);
      var dragged := Run(n, s, [DragStart(DragEvent(0, x, y)), Drag(DragEvent(0, 100.0, 200.0))]);
      var released := Run(n, s, [DragStart(DragEvent(0, x, y)), Drag(DragEvent(0, 100.0, 200.0)), Release]);
      PinnedAt(dragged.0, 100.0, 200.0) && dragged.0.x == x && dragged.0.y == y &&
      dragged.1 == SimState(DRAG_ALPHA, DRAG_ALPHA_TARGET, true) &&
      released.0 == n && released.1 == SimState(DRAG_ALPHA, REST_ALPHA_TARGET, true)
  {
    var n := NodeState(x, y, None, None);
    var hs := [DragStart(DragEvent(0, x, y)), Drag(DragEvent(0, 100.0, 200.0)), Release];
    assert hs[..2][..1] == [DragStart(DragEvent(0, x, y))];
    assert hs[..2][..1][..0] == [];
    assert hs[..2] == [DragStart(DragEvent(0, x, y)), Drag(DragEvent(0, 100.0, 200.0))];
    RunKeepsPosition(n, s, hs[..2]);
  }

  // ---------------------------------------------------------------------
  // The mutable objects the handlers work on
  // ---------------------------------------------------------------------

  /** A node record of the force layout; the simulation moves `x`, `y`,
      and the handlers set and clear the pin `fx`, `fy`. */
  class Node {
    const id: Id
    var x: real
    var y: real
    var fx: Option<real>
    var fy: Option<real>

    /** A node enters the layout free, at the position the simulation
        gives it. */
    constructor (id: Id, x: real, y: real)
      ensures this.id == id && State() == NodeState(x, y, None, None)
    {
      this.id := id;
      this.x := x;
      this.y := y;
      fx := None;
      fy := None;
    }

    function State(): NodeState
      reads this
    {
      NodeState(x, y, fx, fy)
    }
  }

  /** The part of the force simulation the handlers drive: its heat, its
      target heat and whether its timer is running. */
  class Simulation {
    var alpha: real
    var alphaTarget: real
    var running: bool

    /** A new simulation starts hot, cooling towards zero, with its timer
        running. */
    constructor ()
      ensures State() == SimState(INITIAL_ALPHA, REST_ALPHA_TARGET, true)
    {
      alpha := INITIAL_ALPHA;
      alphaTarget := REST_ALPHA_TARGET;
      running := true;
    }

    function State(): SimState
      reads this
    {
      SimState(alpha, alphaTarget, running)
    }

    method SetAlpha(a: real)
      modifies this
      ensures State() == old(State()).(alpha := a)
    {
      alpha := a;
    }

    method SetAlphaTarget(t: real)
      modifies this
      ensures State() == old(State()).(alphaTarget := t)
    {
      alphaTarget := t;
    }

    method Restart()
      modifies this
      ensures State() == old(State()).(running := true)
    {
      running := true;
    }
  }

  /** Drag start: heat the simulation unless another drag is in progress,
      then pin the node where it stands. */
  method DragStarted(simulation: Simulation, event: DragEvent, d: Node)
    modifies simulation, d
    ensures (d.State(), simulation.State()) == Step(old(d.State()), old(simulation.State()), DragStart(event))
  {
    if event.active == 0 {
      simulation.SetAlphaTarget(DRAG_ALPHA_TARGET);
      simulation.Restart();
    }
    d.fx := Some(d.x);
    d.fy := Some(d.y);
  }

  /** Drag move: carry the pin to the pointer and re-heat the simulation. */
  method Dragged(simulation: Simulation, event: DragEvent, d: Node)
    modifies simulation, d
    ensures (d.State(), simulation.State()) == Step(old(d.State()), old(simulation.State()), Drag(event))
  {
    d.fx := Some(event.x);
    d.fy := Some(event.y);
    simulation.SetAlpha(DRAG_ALPHA);
    simulation.Restart();
  }

  /** Double click: clear the pin and let the simulation cool down. */
  method ReleaseNode(simulation: Simulation, d: Node)
    modifies simulation, d
    ensures (d.State(), simulation.State()) == Step(old(d.State()), old(simulation.State()), Release)
  {
    d.fx := None;
    d.fy := None;
    simulation.SetAlphaTarget(REST_ALPHA_TARGET);
  }
}
