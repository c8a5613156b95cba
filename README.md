# Flavor graph visualizer: graph construction and drag interaction

This project models the core of `FlavorVisualizer`, the React component that draws flavor
recommendations as a force-directed graph. It covers two parts of `src/FlavorVisualizer.js`.

- **Graph snapshot** (module `Graph`, `graph.dfy`). For every flavor, each recommended target
  becomes a link `{source: flavor, target, value: 1}`, and the per-flavor lists of links are
  flattened in order. The nodes are the distinct link endpoints, in the order in which a
  JavaScript `Set` first meets them: the source of each link before its target. The many-body
  strength is `-30` per node. `BuildSnapshot` computes the snapshot as functions. The lemmas
  prove the link count and link positions, distinct nodes, referential integrity in both
  directions, node order and the empty case.
- **Drag interaction** (module `Interaction`, `interaction.dfy`). A drag start pins a node where
  the simulation has put it. It heats the simulation (`alphaTarget` 0.3 and a restart) only when
  no other drag is active. A drag move carries the pin to the pointer and sets `alpha` to 0.3 with
  a restart. A double click clears the pin and sets `alphaTarget` back to 0, without a restart.
  The classes `Node` and `Simulation` hold the mutable fields. The handler methods `DragStarted`,
  `Dragged` and `ReleaseNode` are proved to change those fields exactly as the transition function
  `Step` says, and lemmas about `Step` and its iteration `Run` give its properties.

The code is followed where the design description of the system differs from it:

- Recommendations are a list aligned with `flavors` by index, not a map from term to list. A list
  past the end of `flavors` gets the source `undefined`, which is modelled as `Id.Undefined`.
- An empty graph still gets a simulation, with charge strength 0. Nothing guards the node count
  in the link distance.
- The 3-second cool-down in `dragged` schedules a new timer on every move and never cancels the
  earlier ones, so at most one pending cool-down per node is not what the code does.

## Model

| member | source | states |
|---|---|---|
| Graph.Distinct | src/FlavorVisualizer.js:39 | The nodes built through a `Set` have no duplicates and hold exactly the endpoints. They come in first-occurrence order: each occurrence of a later node is preceded by an occurrence of every earlier one. |
| Graph.ChargeStrength | src/FlavorVisualizer.js:58 | The charge strength is never positive. It is zero exactly when there are no nodes, and it is -30 times the node count. |
| Graph.LinkCount | src/FlavorVisualizer.js:36-38 | The number of links equals the sum of the lengths of the recommendation lists. |
| Graph.LinkAt | src/FlavorVisualizer.js:36-38 | Target `j` of list `i` becomes the link at position (lengths of lists before `i`) + `j`. That link has source `flavors[i]`, target the recommended flavor and value 1. |
| Graph.LinkOrigin | src/FlavorVisualizer.js:36-38 | Every link is the link of some target `j` of some list `i` at that position. So every link's source is `flavors[i]` and its target is an element of list `i`. |
| Graph.LinkOrder | src/FlavorVisualizer.js:36-38 | Links appear in list order first, then in order within a list. |
| Graph.NodesDistinct | src/FlavorVisualizer.js:39 | The node ids of a snapshot are pairwise distinct. |
| Graph.NoDanglingLinks | src/FlavorVisualizer.js:39 | The source and the target of every link are node ids. |
| Graph.NoOrphanNodes | src/FlavorVisualizer.js:39 | Every node id is the source or the target of some link. |
| Graph.NodeOrder | src/FlavorVisualizer.js:39 | Take two nodes in order and a link with the later node as an endpoint. The earlier node is an endpoint of an earlier link, or it is this link's source while the later node is its target. |
| Graph.EmptyGraph | src/FlavorVisualizer.js:36-39 | There are no links exactly when all recommendation lists are empty. There are no nodes exactly when there are no links, and exactly when the charge strength is 0. |
| Graph.NodeCountBound | src/FlavorVisualizer.js:39 | There are at most two nodes per link. |
| Graph.ChargeGrowsWithSize | src/FlavorVisualizer.js:58 | A snapshot with more nodes gets a strictly stronger repulsion. |
| Graph.VanillaScenario | src/FlavorVisualizer.js:36-39 | `vanilla` with recommendations `chocolate` and `caramel` gives nodes vanilla, chocolate, caramel and the two links vanilla→chocolate and vanilla→caramel, in that order. |
| Interaction.DragStartPinsInPlace | src/FlavorVisualizer.js:112-113 | A drag start pins the node at its current position, whether or not it was pinned before, and does not move it. |
| Interaction.DragStartHeat | src/FlavorVisualizer.js:111 | With no other drag active, a drag start sets `alphaTarget` to 0.3 and restarts the simulation, leaving `alpha` alone. Otherwise the simulation is unchanged. |
| Interaction.DragMovesPin | src/FlavorVisualizer.js:116-119 | A drag move pins the node at the pointer and sets `alpha` to 0.3 with a restart. It keeps `alphaTarget` and the node's position. |
| Interaction.ReleaseFrees | src/FlavorVisualizer.js:127-132 | A release clears both pin coordinates and sets `alphaTarget` to 0. It changes neither `alpha`, nor the running flag, nor the position. |
| Interaction.ReleaseIdempotent | src/FlavorVisualizer.js:127-132 | Releasing twice has the same effect on the node and the simulation as releasing once. |
| Interaction.ReleaseFreeNode | src/FlavorVisualizer.js:129-130 | Double-clicking a node that is already free leaves the node unchanged. |
| Interaction.RunKeepsPosition | src/FlavorVisualizer.js:110-132 | No sequence of handler calls moves a node. Only the pin changes. |
| Interaction.RunPinState | src/FlavorVisualizer.js:110-132 | After a non-empty sequence of handler calls, the node is free exactly when the last one was a release, and pinned otherwise. |
| Interaction.RunKeepsCoherent | src/FlavorVisualizer.js:110-132 | The handlers keep `fx` and `fy` both set or both unset. |
| Interaction.RunAlphaTarget | src/FlavorVisualizer.js:110-132 | After any sequence of handler calls, `alphaTarget` is its initial value, 0.3 or 0. |
| Interaction.RunKeepsRunning | src/FlavorVisualizer.js:110-132 | No handler stops a running simulation. |
| Interaction.DragAndReleaseScenario | src/FlavorVisualizer.js:110-132 | Dragging a free node to (100, 200) pins it there with `alpha` and `alphaTarget` at 0.3 and the simulation running. A following double click frees the node and sets `alphaTarget` to 0. |
| Interaction.DragStarted | src/FlavorVisualizer.js:110-114 | The handler changes the node and the simulation exactly as `Step` with a drag start does. Nothing else changes. |
| Interaction.Dragged | src/FlavorVisualizer.js:116-119 | The handler changes the node and the simulation exactly as `Step` with a drag move does. Nothing else changes. |
| Interaction.ReleaseNode | src/FlavorVisualizer.js:127-132 | The handler changes the node and the simulation exactly as `Step` with a release does. Nothing else changes. |
| Interaction.Node.constructor | src/FlavorVisualizer.js:39 | A node record is created with its id and without a pin, so it starts free. |
| Interaction.Simulation.constructor | src/FlavorVisualizer.js:61-62 | A new simulation starts with `alpha` 1, `alphaTarget` 0 and its timer running. |
| Interaction.Simulation.SetAlpha | src/FlavorVisualizer.js:119 | `alpha(a)` sets `alpha` and changes nothing else. |
| Interaction.Simulation.SetAlphaTarget | src/FlavorVisualizer.js:131 | `alphaTarget(t)` sets `alphaTarget` and changes nothing else. |
| Interaction.Simulation.Restart | src/FlavorVisualizer.js:111 | `restart()` sets the simulation running and changes nothing else. |

## Left out

- The force simulation itself: the link, many-body, centering and axis forces, the tick that
  integrates positions, alpha decay (rate 0.05) and the stop threshold. It is the d3 library, whose
  code is not part of this model, and it works in floating point. `Simulation` keeps only `alpha`,
  `alphaTarget` and whether the timer runs.
- The link distance `sqrt(width * height / nodes.length)`: a floating-point square root, and
  `Infinity` when there are no nodes.
- The 3-second `setTimeout` in `dragged` that sets `alphaTarget` back to 0. It is driven by timers,
  and each move adds another pending timer.
- Where nodes start: d3 places new nodes. `Node.constructor` takes the position as a parameter.
- `event.preventDefault()` in the release handler, SVG and DOM rendering, the zoom transform and
  the tick callback, which are UI.
- Fetching recommendations with `fetch` and `Promise.all`, the resize listener, the React state and
  the search input. These are asynchronous I/O and UI glue. The inputs of `BuildSnapshot` stand for
  the `flavors` and `recommendations` state.
- `src/stores.ts`, `src/stores.js`, `server.js`, `src/main.js`, `src/App.js` and `svelte.config.js`,
  which are network stores, server bootstrap, a wrapper component and build configuration.
- Handler sequences (`Run`) follow one node. The frames of the handler methods show that a
  handler call on another node changes only that node and the shared simulation.
