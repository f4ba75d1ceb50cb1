# pystream dataflow graph in Dafny

This is a model of the core of pystream, a small synchronous dataflow library (`pystream/core.py`). A `Graph` keeps three things:

- a registry of uniquely named nodes,
- the list of root sources,
- one counter shared by all node kinds.

Nodes are plain sources, `Map` nodes, `Zip` join nodes and `Output` sinks. The wiring calls `map`, `zip` and `output` create a node, register it and append it to the `children` of its parent (for `zip`, of each upstream). `emit` pushes a value depth-first through the children in list order:

- a map node applies its function before forwarding;
- a sink stores the value;
- a join node files each value in the slot of the upstream that sent it, and when every slot is full it clears its buffer and forwards the combined value.

Every `emit` prints trace lines, which the model keeps as a sequence of `Event`s.

Files:

- `wrappers.dfy`: `Option` and `Result`.
- `slots.dfy`: the join buffer, which is a sequence of `Option` slots, its fill count and the name-to-slot index `_upstream_idx`.
- `naming.dfy`: default names such as `map-<id>`.
- `dataflow.dfy` holds the graph itself:
  - the `Node` class, with its constant name and kind;
  - the per-node mutable fields (`Cell`), which the `Graph` keeps in its map `cells`;
  - the `Graph` class with the registry and wiring methods;
  - the propagation methods `Receive`, `ZipReceive` and `Broadcast`, written as the loop and recursion of `emit`. Each is proved equal to a ghost specification function (`Deliver`, `Joining`, `Broadcasting`, `ForwardEach`).
- `behaviour.dfy`: what propagation does, proved about those specification functions.

Errors. A Python exception (a failed `assert`, a `KeyError`, an `IndexError`) is modelled as follows:

- in a wiring call, it becomes an `Err` result;
- in `emit`, it becomes the outcome `Raised(failure)`.

As in Python, state changed before the exception is not rolled back. The recursion depth of `emit` is a `fuel` parameter, and running out of it raises `RecursionLimit`. Nothing in pystream prevents cycles, and this is how the model handles them.

Facts proved about the model:

- A delivery that did not hit the recursion limit gives the same result with more fuel.
- A join node fires exactly when its last empty slot fills. It combines the slots in slot order, whatever order the values arrived in. When the upstream names are distinct, slot order is upstream order.
- A sink's stored value is always the value of the last receipt line printed under its name, and `None` before there is one. A delivery that prints no receipt for a sink leaves that sink alone.
- The fill count always equals the number of filled slots and stays below the number of upstreams.
- A stream zipped with itself, as in `zip(f, s, s)`, never fires. Both upstreams share one name, so `_upstream_idx` sends every delivery to the last slot and no name maps to slot 0. The first emission fills slot 1, and its second delivery fails the slot assertion. Slot 1 is never cleared, so every later delivery fails as well.

## Model

| member | source | states |
|---|---|---|
| Naming.Decimal | pystream/core.py:70 | the rendering of the counter in an f-string is a non-empty digit string without leading zeros |
| Naming.DecimalRoundTrip | pystream/core.py:70 | reading the decimal rendering back gives the counter value |
| Naming.DecimalInjective | pystream/core.py:70 | distinct counter values render differently |
| Naming.ChosenName | pystream/core.py:70 | `name or default` never yields the empty name, so no wiring call registers a node named `""` |
| Naming.DefaultNameReadsBack | pystream/core.py:70 | a default name reads back as its parts: before the first dash is the kind prefix, and after it is the counter in decimal |
| Naming.DefaultNameInjective | pystream/core.py:70 | a default name determines its kind prefix and its counter value, so distinct (prefix, counter) pairs give distinct names. This does not mean a default name is always fresh: a user may have taken it already, and then `register_stream` fails before the counter moves |
| Slots.Cleared | pystream/core.py:113 | `[None] * n`: n slots, all empty |
| Slots.Filled | pystream/core.py:114 | the number of filled slots is at most the number of slots |
| Slots.Values | pystream/core.py:128 | the arguments passed to `func` are the slot values in slot order |
| Slots.FilledCleared | pystream/core.py:113-114 | a freshly cleared buffer has no filled slot, matching `_received = 0` |
| Slots.FilledStore | pystream/core.py:122-123 | storing into an empty slot fills exactly one more slot, matching `_received += 1` |
| Slots.FilledFull | pystream/core.py:125 | the fill count equals the number of slots exactly when every slot is filled |
| Slots.SlotIndex | pystream/core.py:110-112 | the dict comprehension: its keys are the upstream names, and each name maps to the last position that carries it |
| Slots.SlotIndexDistinct | pystream/core.py:110-112 | with distinct names, upstream `i` owns slot `i` |
| Dataflow.Node.constructor | pystream/core.py:6-9 | a node keeps the name and kind it was built with |
| Dataflow.LinkAll | pystream/core.py:80-81 | linking under several upstreams keeps the node set and the well-formedness of the fields |
| Dataflow.LinkAllChildren | pystream/core.py:80-81 | `zip` appends the join node once per listed upstream to the end of its children and changes nothing else |
| Dataflow.Emptied | pystream/core.py:130-132 | resetting a join node empties its buffer and zeroes its count, keeps every other node and the invariant |
| Dataflow.DeliverPreserves | pystream/core.py:23-27 | any delivery keeps the join invariant and the wiring, and changes only join nodes and sinks |
| Dataflow.JoiningPreserves | pystream/core.py:116-135 | `Zip.emit` keeps the count equal to the filled slots and below the number of upstreams |
| Dataflow.BroadcastingPreserves | pystream/core.py:23-27 | forwarding to the children keeps the invariant and the wiring |
| Dataflow.ForwardEachPreserves | pystream/core.py:25-27 | the loop over the children keeps the invariant and the wiring |
| Dataflow.LastReceivedAppend | pystream/core.py:146-148 | the last receipt for a name in a trace `a + b` is the last one in `b`, falling back to the last one in `a` |
| Dataflow.LastReceivedSilent | pystream/core.py:146-148 | a trace with no receipt line for a name leaves that name's value as it was |
| Dataflow.DeliverTracks | pystream/core.py:146-148 | when the sink `o` is the only node with its name, any `emit` leaves `o` holding the value of the last receipt printed under its name (its old value if there is none), and changes nothing else about `o` (also lines 23-27, 96-100 and 116-135) |
| Dataflow.JoiningTracks | pystream/core.py:116-135 | the same for a delivery to a join node |
| Dataflow.FiringTracks | pystream/core.py:128-135 | the same for the firing step of a join node |
| Dataflow.BroadcastingTracks | pystream/core.py:23-27 | the same for forwarding to the children |
| Dataflow.ForwardEachTracks | pystream/core.py:25-27 | the same for the loop over the children |
| Dataflow.DeliverReceipts | pystream/core.py:24 | every receipt line an `emit` prints names a node of the graph (also lines 97, 117 and 147) |
| Dataflow.JoiningReceipts | pystream/core.py:117 | the same for a delivery to a join node |
| Dataflow.FiringReceipts | pystream/core.py:128-135 | the same for the firing step of a join node |
| Dataflow.BroadcastingReceipts | pystream/core.py:23-27 | the same for forwarding to the children |
| Dataflow.ForwardEachReceipts | pystream/core.py:25-27 | the same for the loop over the children |
| Dataflow.DeliverKeepsGraph | pystream/core.py:23-27 | an `emit` keeps the registry invariant and the trace invariant: every receipt names a registered node, and every sink holds its last received value |
| Dataflow.LinkKeeps | pystream/core.py:72 | appending a child keeps both graph invariants (also line 87) |
| Dataflow.LinkAllKeeps | pystream/core.py:80-81 | linking a join node under every upstream keeps both graph invariants |
| Dataflow.HeardAdd | pystream/core.py:62-65 | a newly registered node has no receipt in the trace, and a new sink starts at `None` |
| Dataflow.RegistryAdd | pystream/core.py:54-65 | registering a fresh name keeps the graph invariant, whether or not the node becomes a root |
| Dataflow.Graph.constructor | pystream/core.py:37-40 | a new graph has no nodes, no roots and the counter at 0 |
| Dataflow.Graph.StreamCount | pystream/core.py:50-52 | `stream_count` equals the shared counter |
| Dataflow.Graph.NextStreamId | pystream/core.py:46-48 | the counter equals the number of registered nodes |
| Dataflow.Graph.RootNodes | pystream/core.py:42-44 | every root is a registered source |
| Dataflow.Graph.NewStream | pystream/core.py:54-60 | a fresh name is registered to a new source: the source is appended to the roots and the counter rises by one; a duplicate name fails and changes nothing |
| Dataflow.Graph.Register | pystream/core.py:62-65 | registration of a fresh name with the counter +1 and the roots unchanged; a duplicate fails and changes nothing |
| Dataflow.Graph.MapTo | pystream/core.py:69-73 | a map node under the chosen name, registered, appended as the parent's last child; duplicate names change nothing |
| Dataflow.Graph.OutputTo | pystream/core.py:84-88 | the same for a sink named `output-<id>` by default |
| Dataflow.Graph.ZipOf | pystream/core.py:75-82 | no upstreams fails; otherwise a join node is registered and linked under every upstream in order |
| Dataflow.Graph.LinkUnder | pystream/core.py:80-81 | through `LinkEach`, appends the join node to each upstream's children in turn, keeping both graph invariants |
| Dataflow.LinkEach | pystream/core.py:80-81 | the loop over the upstreams, on the cells: the result is `LinkAll`, the join node appended once per listed upstream in order |
| Dataflow.Graph.CurrentValue | pystream/core.py:141-148 | a sink's `current_value()` is the value of the last receipt line printed under its name, and `None` if there is none. This holds because every `emit` keeps it (`Dataflow.DeliverTracks`, `Dataflow.DeliverKeepsGraph`) |
| Dataflow.Graph.Emit | pystream/core.py:23-27 | `emit` on a registered node updates the fields and the trace exactly as `Deliver` says, and keeps the registry |
| Dataflow.Receive | pystream/core.py:96-100 | the per-kind `emit` (source, map, join, sink; also lines 23-27 and 146-148) equals `Deliver` |
| Dataflow.ZipReceive | pystream/core.py:116-135 | `Zip.emit` step by step equals `Joining` |
| Dataflow.Broadcast | pystream/core.py:23-27 | the loop over the children, which stops at the first child that raises, equals `Broadcasting` |
| Behaviour.DeliverMoreFuel | pystream/core.py:23-27 | a delivery that did not hit the recursion limit has the same effect with a larger limit |
| Behaviour.JoiningMoreFuel | pystream/core.py:116-135 | the same for a join node |
| Behaviour.BroadcastingMoreFuel | pystream/core.py:23-27 | the same for forwarding to the children |
| Behaviour.ForwardEachMoreFuel | pystream/core.py:25-27 | the same for the loop over the children |
| Behaviour.DeliverPrintsReceiptFirst | pystream/core.py:24 | every `emit` first prints the receipt (also lines 97, 117 and 147) |
| Behaviour.OutputRecords | pystream/core.py:146-148 | a sink stores the value, prints one line, forwards nothing and changes no other node |
| Behaviour.SinkUntouched | pystream/core.py:146-148 | an `emit` that prints no receipt under a sink's name leaves that sink's fields as they were |
| Behaviour.ForwardToSinks | pystream/core.py:25-27 | when every child is a sink, children are served in list order with the value unchanged, and each ends holding it |
| Behaviour.FanOutToSinks | pystream/core.py:96-100 | when every child is a sink: a map node forwards `func(value)` to its children in order, and a source forwards the value itself |
| Behaviour.Pipeline | pystream/core.py:96-100 | source, map, sink: the exact seven trace lines, and `f(v)` left in the sink |
| Behaviour.UpstreamSlot | pystream/core.py:110-112 | with distinct upstream names, the `i`-th upstream delivers into slot `i` |
| Behaviour.PairSlots | pystream/core.py:110-112 | the two upstreams of a two-way join with distinct names own slots 0 and 1 |
| Behaviour.ZipStores | pystream/core.py:116-126 | a value from any upstream `u` is stored in the slot `_upstream_idx[u.name]` and the count rises, with nothing forwarded while a slot is empty |
| Behaviour.ZipFires | pystream/core.py:125-135 | the value from any upstream that fills the last slot makes the node clear the buffer and forward `func` of the slots in slot order |
| Behaviour.JoiningFires | pystream/core.py:125-135 | the firing step of `Joining` taken by itself |
| Behaviour.ZipRejectsRepeat | pystream/core.py:120-121 | a value from any upstream whose slot is already filled fails with that slot and leaves the state unchanged |
| Behaviour.ZipRejectsStrangers | pystream/core.py:118-120 | a delivery with no upstream or from an unknown name fails and leaves the state unchanged |
| Behaviour.ZipPairFirstArrival | pystream/core.py:122-126 | with distinct upstream names, the first value of a two-way round is only stored, in its own slot |
| Behaviour.ZipPairInOrder | pystream/core.py:116-135 | with distinct upstream names, `x` then `y` forwards `func(x, y)` from the starting state: the buffer is empty again before forwarding |
| Behaviour.ZipPairOutOfOrder | pystream/core.py:116-135 | with distinct upstream names, `y` then `x` forwards the same `func(x, y)` |
| Behaviour.ZipWithItself | pystream/core.py:110-121 | from an empty buffer, `zip(f, s, s)` stores the first delivery into the last slot, and the next delivery fails with that slot still filled, so the node never fires |

## Left out

- Console output: the `print` calls in every `emit` are kept as a sequence of `Event` values, `Graph.trace`, rather than console output.
- Files: `pystream/analyser.py` (a wrapper over networkx used for visualisation) and `setup.py` (packaging) are not part of this model.
- The `IStream.graph` property (`pystream/core.py:17`) reads `self.graph`, which calls the property again, so it recurses without end and never returns. Nothing in the core calls it, and the model has no counterpart.
- `IStream` and `IOutputStream` are abstract base classes. Their behaviour is folded into the one `Node` class and its `Kind`.
- User callables are total Dafny functions over `int`. Python's dynamic typing and an exception raised inside a user function are not modelled.
- `None` as a value: a delivered `None` would leave its slot looking empty to line 121. The model uses `Option` slots and integer values, so a delivery always fills its slot.
- `assert` under `python -O`: optimised Python skips the assertions, so there the duplicate-name and slot checks would not fire. The model keeps them.
- Node fields: the fields a node changes in place (`_children`, `_current_inputs`, `_received`, `_current_value`) live in the graph's map `cells`, keyed by the node object, not on the object itself. Dafny therefore sees only one graph's view of a node.
- Fuel: the interpreter's recursion limit is the `fuel` parameter of `Emit`. The actual depth Python allows is not modelled.
- Dataflow.Graph.MapTo: requires the parent to be registered in this graph and not a sink. `Output` has no `map` method, and a parent from another graph would register into that graph, which this one-graph model does not describe.
- Dataflow.Graph.OutputTo: has the same requirement on the parent, for the same reasons.
- Dataflow.Graph.ZipOf: requires every upstream to be registered in this graph. pystream registers the join node in the graph of the first upstream and links it under upstreams of any graph.
- Dataflow.Graph.Register: requires a join node to have at least one upstream. A `Zip` built directly with no upstreams cannot be given to `register_stream` in the model, and `Stream.zip` never builds one.
- Dataflow.Graph.Emit: requires the node to be registered in this graph, because an unregistered node's fields are not in `cells`.
