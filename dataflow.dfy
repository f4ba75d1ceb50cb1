/** The dataflow graph of `pystream/core.py`: the registry of named nodes, the
    wiring calls that create and link nodes, and the synchronous propagation
    of a value from a node to its children.

    Every node class of pystream (a plain source `Stream`, `Map`, `Zip`,
    `Output`) is one `Node` class tagged by a `Kind`.  The fields a node
    updates in place (its children, the join buffer, the stored value) are
    its `Cell`, kept by the graph in the map `cells`.  Propagation is the
    method family `Receive` / `ZipReceive` / `Broadcast`, proved to do
    exactly what the ghost functions `Deliver` / `Joining` / `Broadcasting`
    say; `Graph.Emit` runs it on the graph's cells and trace. */
module Dataflow {

  import opened Wrappers
  import opened Slots
  import opened Naming

  /** The single value type that every user callable works on. */
  type Value = int

  /** The exceptions a call can raise in pystream. */
  datatype Failure =
    | DuplicateName(name: string)    // `assert name not in self._nodes`
    | NoUpstreams                    // `upstreams[0]` on an empty tuple
    | MissingUpstream                // `assert upstream is not None`
    | UnknownUpstream(name: string)  // `KeyError` from `_upstream_idx`
    | SlotFilled(slot: nat)          // `assert self._current_inputs[idx] is None`
    | RecursionLimit                 // the interpreter's recursion depth ran out

  /** What a node does with a value it receives. */
  datatype Kind =
    | SourceKind
    | MapKind(func: Value -> Value)
    | ZipKind(combine: seq<Value> -> Value, upstreams: seq<Node>)
    | OutputKind

  /** One line of the console trace printed by `emit`. */
  datatype Event =
    | Receiving(node: string, value: Value)
    | Emitting(node: string, value: Value, target: Option<string>)

  /** The mutable part of a node: its children, the join buffer and fill
      count (used by join nodes only), and the last value (sinks only). */
  datatype Cell = Cell(children: seq<Node>, received: nat, inputs: seq<Option<Value>>, current: Option<Value>)

  function NamesOf(ups: seq<Node>): (r: seq<string>)
    ensures |r| == |ups| && forall i :: 0 <= i < |ups| ==> r[i] == ups[i].name
  {
    seq(|ups|, i requires 0 <= i < |ups| => ups[i].name)
  }

  /** A node of the graph: its name and kind never change after
      construction.  Its mutable fields (children, join buffer, fill count,
      stored value) are the node's `Cell` in the graph's `cells` map. */
  class Node {
    const name: string
    const kind: Kind
    /** The number of upstreams of a join node (0 for the other kinds). */
    const arity: nat := if kind.ZipKind? then |kind.upstreams| else 0
    /** `_upstream_idx`: the slot each upstream name delivers into. */
    const slot: map<string, nat> := if kind.ZipKind? then SlotIndex(NamesOf(kind.upstreams)) else map[]

    constructor (name: string, kind: Kind)
      ensures this.name == name && this.kind == kind
    {
      this.name := name;
      this.kind := kind;
    }
  }

  /** A node's fields as every `__init__` leaves them: no children, an
      all-empty join buffer, a zero fill count and no stored value. */
  function Initial(n: Node): Cell
  {
    Cell([], 0, Cleared(n.arity), None)
  }

  /** The join invariant: one slot per upstream, the fill count equals the
      number of filled slots, and it stays below the number of upstreams
      between calls (a full buffer is cleared at once). */
  ghost predicate Consistent(n: Node, c: Cell)
  {
    n.kind.ZipKind? ==>
      |c.inputs| == n.arity && c.received == Filled(c.inputs) && c.received < n.arity
  }

  /** Every node's cell is consistent and every child is a node of the map. */
  ghost predicate WellFormed(cells: map<Node, Cell>)
  {
    (forall m | m in cells :: Consistent(m, cells[m])) &&
    forall m, i {:trigger cells[m].children[i]} | m in cells && 0 <= i < |cells[m].children| ::
      cells[m].children[i] in cells
  }

  /** A node with state of its own: a join buffer or a stored value. */
  predicate Stateful(n: Node)
  {
    n.kind.ZipKind? || n.kind.OutputKind?
  }

  /** `b` is a well-formed state over the same nodes and the same wiring as
      `a`, and only join nodes and sinks differ. */
  ghost predicate Preserves(a: map<Node, Cell>, b: map<Node, Cell>)
  {
    a.Keys == b.Keys && WellFormed(b) &&
    (forall m | m in a :: b[m].children == a[m].children) &&
    forall m | m in a && !Stateful(m) :: b[m] == a[m]
  }

  lemma UpdateWellFormed(cells: map<Node, Cell>, n: Node, c: Cell)
    requires WellFormed(cells) && n in cells && Stateful(n)
    requires c.children == cells[n].children && Consistent(n, c)
    ensures Preserves(cells, cells[n := c])
  {
  }

  // ---------------------------------------------------------------------
  // Wiring, stated on cells

  /** `c` appended to the children of `p`. */
  ghost function Link(cells: map<Node, Cell>, p: Node, c: Node): map<Node, Cell>
    requires p in cells
  {
    cells[p := cells[p].(children := cells[p].children + [c])]
  }

  /** `c` appended to the children of every node of `ups`, in order. */
  ghost function LinkAll(cells: map<Node, Cell>, ups: seq<Node>, c: Node): (r: map<Node, Cell>)
    requires forall i | 0 <= i < |ups| :: ups[i] in cells
    ensures r.Keys == cells.Keys
    ensures WellFormed(cells) && c in cells ==> WellFormed(r)
  {
    if ups == [] then cells
    else Link(LinkAll(cells, ups[..|ups| - 1], c), ups[|ups| - 1], c)
  }

  /** Linking `c` under every upstream appends it to the children of each
      node once per time the node is listed, and changes nothing else. */
  lemma {:induction false} LinkAllChildren(cells: map<Node, Cell>, ups: seq<Node>, c: Node, m: Node)
    requires forall i | 0 <= i < |ups| :: ups[i] in cells
    requires m in cells
    ensures LinkAll(cells, ups, c)[m] ==
      cells[m].(children := cells[m].children + seq(multiset(ups)[m], _ => c))
  {
    if ups != [] {
      var init, last := ups[..|ups| - 1], ups[|ups| - 1];
      assert ups == init + [last];
      LinkAllChildren(cells, init, c, m);
      if m == last {
        var ms: multiset<Node> := multiset(init);
        var k: nat := ms[m];
        assert multiset(ups)[m] == k + 1;
        assert seq(k, _ => c) + [c] == seq(k + 1, _ => c);
      }
    }
  }

  // ---------------------------------------------------------------------
  // Propagation, stated on cells

  /** How an `emit` call ends: it returns normally or raises. */
  datatype Outcome = Completed | Raised(failure: Failure)

  /** The effect of one delivery: the cells afterwards, the trace lines
      printed, and whether it completed or raised. */
  datatype Run = Run(cells: map<Node, Cell>, events: seq<Event>, outcome: Outcome)

  function Prepend(evs: seq<Event>, r: Run): Run
  {
    r.(events := evs + r.events)
  }

  /** `n.emit(v, upstream=from)` with `fuel` stack frames left. */
  ghost function Deliver(cells: map<Node, Cell>, n: Node, v: Value, from: Option<Node>, fuel: nat): Run
    requires WellFormed(cells) && n in cells
    decreases fuel, 2, 0
  {
    if fuel == 0 then Run(cells, [], Raised(RecursionLimit))
    else match n.kind
      case SourceKind =>
        Broadcasting(cells, n, v, fuel)
      case MapKind(f) =>
        Prepend([Receiving(n.name, v), Emitting(n.name, f(v), None)], Broadcasting(cells, n, f(v), fuel))
      case OutputKind =>
        Run(cells[n := cells[n].(current := Some(v))], [Receiving(n.name, v)], Completed)
      case ZipKind(_, _) =>
        Joining(cells, n, v, from, fuel)
  }

  /** The fields of the join node `n` at the start of a round: an empty
      buffer and nothing received, everything else as it was. */
  function Emptied(cells: map<Node, Cell>, n: Node): (r: map<Node, Cell>)
    requires WellFormed(cells) && n in cells && n.kind.ZipKind?
    ensures Preserves(cells, r) && r[n].inputs == Cleared(n.arity) && r[n].received == 0
    ensures forall m | m in cells && m != n :: r[m] == cells[m]
  {
    FilledCleared<Value>(n.arity);
    UpdateWellFormed(cells, n, cells[n].(inputs := Cleared(n.arity), received := 0));
    cells[n := cells[n].(inputs := Cleared(n.arity), received := 0)]
  }

  /** `Zip.emit(v, upstream=from)`: the value goes into the slot of `from`;
      the delivery that fills the last slot clears the buffer and emits the
      combined value. */
  ghost function Joining(cells: map<Node, Cell>, n: Node, v: Value, from: Option<Node>, fuel: nat): Run
    requires WellFormed(cells) && n in cells && n.kind.ZipKind? && fuel > 0
    decreases fuel, 1, 0
  {
    var c := cells[n];
    var seen := [Receiving(n.name, v)];
    if from.None? then Run(cells, seen, Raised(MissingUpstream))
    else if from.value.name !in n.slot then Run(cells, seen, Raised(UnknownUpstream(from.value.name)))
    else
      var idx := n.slot[from.value.name];
      if c.inputs[idx].Some? then Run(cells, seen, Raised(SlotFilled(idx)))
      else
        var ins := c.inputs[idx := Some(v)];
        if c.received + 1 != n.arity then
          Run(cells[n := c.(inputs := ins, received := c.received + 1)], seen, Completed)
        else
          FilledStore(c.inputs, idx, v);
          FilledFull(ins);
          var result := n.kind.combine(Values(ins));
          Prepend(seen + [Emitting(n.name, result, None)], Broadcasting(Emptied(cells, n), n, result, fuel))
  }

  /** `IStream.emit(v)` on `n`: print the receipt, then hand `v` to every
      child in order, naming `n` as the upstream. */
  ghost function Broadcasting(cells: map<Node, Cell>, n: Node, v: Value, fuel: nat): Run
    requires WellFormed(cells) && n in cells && fuel > 0
    decreases fuel, 0, |cells[n].children| + 1
  {
    Prepend([Receiving(n.name, v)], ForwardEach(cells, n, v, cells[n].children, fuel))
  }

  /** The loop of `IStream.emit` over the children `cs` still to be served;
      the first delivery that raises ends it. */
  ghost function ForwardEach(cells: map<Node, Cell>, n: Node, v: Value, cs: seq<Node>, fuel: nat): Run
    requires WellFormed(cells) && fuel > 0
    requires forall i | 0 <= i < |cs| :: cs[i] in cells
    decreases fuel, 0, |cs|
  {
    if cs == [] then Run(cells, [], Completed)
    else
      var first := Deliver(cells, cs[0], v, Some(n), fuel - 1);
      DeliverPreserves(cells, cs[0], v, Some(n), fuel - 1);
      var head := [Emitting(n.name, v, Some(cs[0].name))] + first.events;
      if first.outcome.Raised? then Run(first.cells, head, first.outcome)
      else Prepend(head, ForwardEach(first.cells, n, v, cs[1..], fuel))
  }

  /** A delivery never adds or removes nodes, never rewires them, and keeps
      every join buffer consistent, whether it completes or raises. */
  lemma {:induction false} DeliverPreserves(cells: map<Node, Cell>, n: Node, v: Value, from: Option<Node>, fuel: nat)
    requires WellFormed(cells) && n in cells
    ensures Preserves(cells, Deliver(cells, n, v, from, fuel).cells)
    decreases fuel, 2, 1
  {
    if fuel > 0 {
      match n.kind
      case SourceKind =>
        BroadcastingPreserves(cells, n, v, fuel);
      case MapKind(f) =>
        BroadcastingPreserves(cells, n, f(v), fuel);
      case OutputKind =>
        UpdateWellFormed(cells, n, cells[n].(current := Some(v)));
      case ZipKind(_, _) =>
        JoiningPreserves(cells, n, v, from, fuel);
    }
  }

  /** The part of `DeliverPreserves` the propagation loop needs. */
  lemma DeliverKeepsNodes(cells: map<Node, Cell>, n: Node, v: Value, from: Option<Node>, fuel: nat)
    requires WellFormed(cells) && n in cells
    ensures Deliver(cells, n, v, from, fuel).cells.Keys == cells.Keys
    ensures WellFormed(Deliver(cells, n, v, from, fuel).cells)
  {
    DeliverPreserves(cells, n, v, from, fuel);
  }

  lemma {:induction false} JoiningPreserves(cells: map<Node, Cell>, n: Node, v: Value, from: Option<Node>, fuel: nat)
    requires WellFormed(cells) && n in cells && n.kind.ZipKind? && fuel > 0
    ensures Preserves(cells, Joining(cells, n, v, from, fuel).cells)
    decreases fuel, 1, 1
  {
    var c := cells[n];
    if from.Some? && from.value.name in n.slot {
      var idx := n.slot[from.value.name];
      if c.inputs[idx].None? {
        var ins := c.inputs[idx := Some(v)];
        FilledStore(c.inputs, idx, v);
        if c.received + 1 != n.arity {
          UpdateWellFormed(cells, n, c.(inputs := ins, received := c.received + 1));
        } else {
          FilledFull(ins);
          BroadcastingPreserves(Emptied(cells, n), n, n.kind.combine(Values(ins)), fuel);
        }
      }
    }
  }

  lemma {:induction false} BroadcastingPreserves(cells: map<Node, Cell>, n: Node, v: Value, fuel: nat)
    requires WellFormed(cells) && n in cells && fuel > 0
    ensures Preserves(cells, Broadcasting(cells, n, v, fuel).cells)
    decreases fuel, 0, |cells[n].children| + 2
  {
    ForwardEachPreserves(cells, n, v, cells[n].children, fuel);
  }

  lemma {:induction false} ForwardEachPreserves(cells: map<Node, Cell>, n: Node, v: Value, cs: seq<Node>, fuel: nat)
    requires WellFormed(cells) && fuel > 0
    requires forall i | 0 <= i < |cs| :: cs[i] in cells
    ensures Preserves(cells, ForwardEach(cells, n, v, cs, fuel).cells)
    decreases fuel, 0, |cs| + 1
  {
    if cs != [] {
      DeliverPreserves(cells, cs[0], v, Some(n), fuel - 1);
      var first := Deliver(cells, cs[0], v, Some(n), fuel - 1);
      if first.outcome.Completed? {
        ForwardEachPreserves(first.cells, n, v, cs[1..], fuel);
      }
    }
  }

  // ---------------------------------------------------------------------
  // What the trace says about the sinks

  /** The value in the last receipt line that `name` printed in `evs`, or
      `cur` if it printed none. */
  function LastReceived(evs: seq<Event>, name: string, cur: Option<Value>): Option<Value>
    decreases |evs|
  {
    if evs == [] then cur
    else if evs[|evs| - 1].Receiving? && evs[|evs| - 1].node == name then Some(evs[|evs| - 1].value)
    else LastReceived(evs[..|evs| - 1], name, cur)
  }

  /** Reading a trace in two parts: the second part starts from what the
      first one left. */
  lemma {:induction false} LastReceivedAppend(a: seq<Event>, b: seq<Event>, name: string, cur: Option<Value>)
    ensures LastReceived(a + b, name, cur) == LastReceived(b, name, LastReceived(a, name, cur))
    decreases |b|
  {
    if b == [] {
      assert a + b == a;
    } else {
      assert (a + b)[..|a + b| - 1] == a + b[..|b| - 1];
      LastReceivedAppend(a, b[..|b| - 1], name, cur);
    }
  }

  /** A name that printed no receipt line leaves the value where it was. */
  lemma {:induction false} LastReceivedSilent(evs: seq<Event>, name: string, cur: Option<Value>)
    requires forall i | 0 <= i < |evs| && evs[i].Receiving? :: evs[i].node != name
    ensures LastReceived(evs, name, cur) == cur
    decreases |evs|
  {
    if evs != [] {
      LastReceivedSilent(evs[..|evs| - 1], name, cur);
    }
  }

  /** Every receipt line in `evs` was printed by a node named in `names`. */
  ghost predicate ReceiptsAmong(evs: seq<Event>, names: set<string>)
  {
    forall i | 0 <= i < |evs| && evs[i].Receiving? :: evs[i].node in names
  }

  lemma ReceiptsAppend(a: seq<Event>, b: seq<Event>, names: set<string>)
    requires ReceiptsAmong(a, names) && ReceiptsAmong(b, names)
    ensures ReceiptsAmong(a + b, names)
  {
    forall i | 0 <= i < |a + b| && (a + b)[i].Receiving?
      ensures (a + b)[i].node in names
    {
      if i >= |a| {
        assert (a + b)[i] == b[i - |a|];
      }
    }
  }

  /** `o` is the only node of `cells` with its name. */
  ghost predicate SoleName(cells: map<Node, Cell>, o: Node)
  {
    o in cells && forall m | m in cells && m.name == o.name :: m == o
  }

  /** After `run`, the sink `o` holds the last value it printed a receipt
      for, and nothing else about it changed. */
  ghost predicate Tracks(cells: map<Node, Cell>, run: Run, o: Node)
    requires o in cells
  {
    o in run.cells && run.cells[o] == cells[o].(current := LastReceived(run.events, o.name, cells[o].current))
  }

  /** A delivery changes a sink only by the values it delivers to it: the
      sink ends up holding the last one, and a delivery that never reaches
      it leaves it alone. */
  lemma {:induction false} DeliverTracks(cells: map<Node, Cell>, n: Node, v: Value, from: Option<Node>, fuel: nat, o: Node)
    requires WellFormed(cells) && n in cells && SoleName(cells, o) && o.kind.OutputKind?
    ensures Tracks(cells, Deliver(cells, n, v, from, fuel), o)
    decreases fuel, 2, 1
  {
    var cur := cells[o].current;
    if fuel > 0 {
      match n.kind
      case SourceKind =>
        BroadcastingTracks(cells, n, v, fuel, o);
      case MapKind(f) =>
        BroadcastingTracks(cells, n, f(v), fuel, o);
        var rest := Broadcasting(cells, n, f(v), fuel);
        var head := [Receiving(n.name, v), Emitting(n.name, f(v), None)];
        LastReceivedSilent(head, o.name, cur);
        LastReceivedAppend(head, rest.events, o.name, cur);
      case OutputKind =>
      case ZipKind(_, _) =>
        JoiningTracks(cells, n, v, from, fuel, o);
    }
  }

  lemma {:induction false} JoiningTracks(cells: map<Node, Cell>, n: Node, v: Value, from: Option<Node>, fuel: nat, o: Node)
    requires WellFormed(cells) && n in cells && n.kind.ZipKind? && fuel > 0
    requires SoleName(cells, o) && o.kind.OutputKind?
    ensures Tracks(cells, Joining(cells, n, v, from, fuel), o)
    decreases fuel, 1, 1
  {
    var c := cells[n];
    assert LastReceived([Receiving(n.name, v)], o.name, cells[o].current) == cells[o].current;
    if from.Some? && from.value.name in n.slot {
      var idx := n.slot[from.value.name];
      if c.inputs[idx].None? && c.received + 1 == n.arity {
        var ins := c.inputs[idx := Some(v)];
        FilledStore(c.inputs, idx, v);
        FilledFull(ins);
        FiringTracks(cells, n, v, n.kind.combine(Values(ins)), fuel, o);
      }
    }
  }

  /** The firing path of `Joining`: the receipt and the emitting line of the
      join node, then the combined value forwarded from the emptied buffer. */
  lemma {:induction false} FiringTracks(cells: map<Node, Cell>, n: Node, v: Value, result: Value, fuel: nat, o: Node)
    requires WellFormed(cells) && n in cells && n.kind.ZipKind? && fuel > 0
    requires SoleName(cells, o) && o.kind.OutputKind?
    ensures var run := Prepend([Receiving(n.name, v)] + [Emitting(n.name, result, None)], Broadcasting(Emptied(cells, n), n, result, fuel));
      Tracks(cells, run, o)
    decreases fuel, 1, 0
  {
    var cur := cells[o].current;
    var e := Emptied(cells, n);
    BroadcastingTracks(e, n, result, fuel, o);
    var head := [Receiving(n.name, v)] + [Emitting(n.name, result, None)];
    LastReceivedSilent(head, o.name, cur);
    LastReceivedAppend(head, Broadcasting(e, n, result, fuel).events, o.name, cur);
  }

  lemma {:induction false} BroadcastingTracks(cells: map<Node, Cell>, n: Node, v: Value, fuel: nat, o: Node)
    requires WellFormed(cells) && n in cells && fuel > 0
    requires SoleName(cells, o) && o.kind.OutputKind? && n != o
    ensures Tracks(cells, Broadcasting(cells, n, v, fuel), o)
    decreases fuel, 0, |cells[n].children| + 2
  {
    var cur := cells[o].current;
    ForwardEachTracks(cells, n, v, cells[n].children, fuel, o);
    assert LastReceived([Receiving(n.name, v)], o.name, cur) == cur;
    LastReceivedAppend([Receiving(n.name, v)], ForwardEach(cells, n, v, cells[n].children, fuel).events, o.name, cur);
  }

  lemma {:induction false} ForwardEachTracks(cells: map<Node, Cell>, n: Node, v: Value, cs: seq<Node>, fuel: nat, o: Node)
    requires WellFormed(cells) && fuel > 0
    requires forall i | 0 <= i < |cs| :: cs[i] in cells
    requires SoleName(cells, o) && o.kind.OutputKind?
    ensures Tracks(cells, ForwardEach(cells, n, v, cs, fuel), o)
    decreases fuel, 0, |cs| + 1
  {
    if cs != [] {
      var cur := cells[o].current;
      var first := Deliver(cells, cs[0], v, Some(n), fuel - 1);
      DeliverTracks(cells, cs[0], v, Some(n), fuel - 1, o);
      DeliverKeepsNodes(cells, cs[0], v, Some(n), fuel - 1);
      var emitting := [Emitting(n.name, v, Some(cs[0].name))];
      LastReceivedSilent(emitting, o.name, cur);
      LastReceivedAppend(emitting, first.events, o.name, cur);
      if first.outcome.Completed? {
        var rest := ForwardEach(first.cells, n, v, cs[1..], fuel);
        ForwardEachTracks(first.cells, n, v, cs[1..], fuel, o);
        LastReceivedAppend(emitting + first.events, rest.events, o.name, cur);
      }
    }
  }

  /** Every receipt line a delivery prints comes from a node of `cells`. */
  lemma {:induction false} DeliverReceipts(cells: map<Node, Cell>, n: Node, v: Value, from: Option<Node>, fuel: nat, names: set<string>)
    requires WellFormed(cells) && n in cells && forall m | m in cells :: m.name in names
    ensures ReceiptsAmong(Deliver(cells, n, v, from, fuel).events, names)
    decreases fuel, 2, 1
  {
    if fuel > 0 {
      match n.kind
      case SourceKind =>
        BroadcastingReceipts(cells, n, v, fuel, names);
      case MapKind(f) =>
        BroadcastingReceipts(cells, n, f(v), fuel, names);
        ReceiptsAppend([Receiving(n.name, v), Emitting(n.name, f(v), None)], Broadcasting(cells, n, f(v), fuel).events, names);
      case OutputKind =>
      case ZipKind(_, _) =>
        JoiningReceipts(cells, n, v, from, fuel, names);
    }
  }

  lemma {:induction false} JoiningReceipts(cells: map<Node, Cell>, n: Node, v: Value, from: Option<Node>, fuel: nat, names: set<string>)
    requires WellFormed(cells) && n in cells && n.kind.ZipKind? && fuel > 0
    requires forall m | m in cells :: m.name in names
    ensures ReceiptsAmong(Joining(cells, n, v, from, fuel).events, names)
    decreases fuel, 1, 1
  {
    var c := cells[n];
    if from.Some? && from.value.name in n.slot {
      var idx := n.slot[from.value.name];
      if c.inputs[idx].None? && c.received + 1 == n.arity {
        var ins := c.inputs[idx := Some(v)];
        FilledStore(c.inputs, idx, v);
        FilledFull(ins);
        FiringReceipts(cells, n, v, n.kind.combine(Values(ins)), fuel, names);
      }
    }
  }

  lemma {:induction false} FiringReceipts(cells: map<Node, Cell>, n: Node, v: Value, result: Value, fuel: nat, names: set<string>)
    requires WellFormed(cells) && n in cells && n.kind.ZipKind? && fuel > 0
    requires forall m | m in cells :: m.name in names
    ensures ReceiptsAmong(Prepend([Receiving(n.name, v)] + [Emitting(n.name, result, None)], Broadcasting(Emptied(cells, n), n, result, fuel)).events, names)
    decreases fuel, 1, 0
  {
    var e := Emptied(cells, n);
    BroadcastingReceipts(e, n, result, fuel, names);
    ReceiptsAppend([Receiving(n.name, v)] + [Emitting(n.name, result, None)], Broadcasting(e, n, result, fuel).events, names);
  }

  lemma {:induction false} BroadcastingReceipts(cells: map<Node, Cell>, n: Node, v: Value, fuel: nat, names: set<string>)
    requires WellFormed(cells) && n in cells && fuel > 0
    requires forall m | m in cells :: m.name in names
    ensures ReceiptsAmong(Broadcasting(cells, n, v, fuel).events, names)
    decreases fuel, 0, |cells[n].children| + 2
  {
    ForwardEachReceipts(cells, n, v, cells[n].children, fuel, names);
    ReceiptsAppend([Receiving(n.name, v)], ForwardEach(cells, n, v, cells[n].children, fuel).events, names);
  }

  lemma {:induction false} ForwardEachReceipts(cells: map<Node, Cell>, n: Node, v: Value, cs: seq<Node>, fuel: nat, names: set<string>)
    requires WellFormed(cells) && fuel > 0
    requires forall i | 0 <= i < |cs| :: cs[i] in cells
    requires forall m | m in cells :: m.name in names
    ensures ReceiptsAmong(ForwardEach(cells, n, v, cs, fuel).events, names)
    decreases fuel, 0, |cs| + 1
  {
    if cs != [] {
      var first := Deliver(cells, cs[0], v, Some(n), fuel - 1);
      DeliverReceipts(cells, cs[0], v, Some(n), fuel - 1, names);
      DeliverKeepsNodes(cells, cs[0], v, Some(n), fuel - 1);
      var emitting := [Emitting(n.name, v, Some(cs[0].name))];
      ReceiptsAppend(emitting, first.events, names);
      if first.outcome.Completed? {
        var rest := ForwardEach(first.cells, n, v, cs[1..], fuel);
        ForwardEachReceipts(first.cells, n, v, cs[1..], fuel, names);
        ReceiptsAppend(emitting + first.events, rest.events, names);
      }
    }
  }

  // ---------------------------------------------------------------------
  // The graph

  /** The graph invariant: names are keys, every node with a cell is the one
      registered under its name, roots are registered sources, the shared
      counter equals the number of registrations, and the cells are well
      formed. */
  ghost predicate Registry(nodes: map<string, Node>, roots: seq<Node>, next: nat, cells: map<Node, Cell>)
  {
    (forall k | k in nodes :: nodes[k] in cells && nodes[k].name == k) &&
    (forall m | m in cells :: m.name in nodes && nodes[m.name] == m) &&
    (forall i | 0 <= i < |roots| :: roots[i] in cells && roots[i].kind.SourceKind?) &&
    next == |nodes| && WellFormed(cells)
  }

  /** Registering a node under a fresh name keeps the invariant. */
  lemma RegistryAdd(nodes: map<string, Node>, roots: seq<Node>, next: nat,
                    cells: map<Node, Cell>, s: Node, asRoot: bool)
    requires Registry(nodes, roots, next, cells)
    requires s.name !in nodes && Consistent(s, Initial(s)) && (asRoot ==> s.kind.SourceKind?)
    ensures s !in cells
    ensures Registry(nodes[s.name := s], if asRoot then roots + [s] else roots, next + 1,
                     cells[s := Initial(s)])
  {
  }

  /** Propagation and linking keep the invariant. */
  lemma RegistryCells(nodes: map<string, Node>, roots: seq<Node>, next: nat,
                      cells: map<Node, Cell>, cells': map<Node, Cell>)
    requires Registry(nodes, roots, next, cells)
    requires cells'.Keys == cells.Keys && WellFormed(cells')
    ensures Registry(nodes, roots, next, cells')
  {
  }

  /** Appending a registered node to the children of a registered node keeps
      the cells well formed. */
  lemma LinkWellFormed(cells: map<Node, Cell>, p: Node, c: Node)
    requires WellFormed(cells) && p in cells && c in cells
    ensures Link(cells, p, c).Keys == cells.Keys && WellFormed(Link(cells, p, c))
  {
  }

  /** The trace invariant: every receipt line was printed by a registered
      node, and every sink holds the value of the last receipt line it
      printed (`None` if it printed none). */
  ghost predicate Heard(nodes: map<string, Node>, cells: map<Node, Cell>, trace: seq<Event>)
  {
    ReceiptsAmong(trace, nodes.Keys) &&
    forall o | o in cells && o.kind.OutputKind? :: cells[o].current == LastReceived(trace, o.name, None)
  }

  /** A node registered under a fresh name has printed nothing yet. */
  lemma HeardAdd(nodes: map<string, Node>, cells: map<Node, Cell>, trace: seq<Event>, s: Node)
    requires Heard(nodes, cells, trace) && s.name !in nodes && s !in cells
    ensures Heard(nodes[s.name := s], cells[s := Initial(s)], trace)
  {
    LastReceivedSilent(trace, s.name, None);
  }

  /** Rewiring leaves the stored values and the trace alone. */
  lemma HeardRewired(nodes: map<string, Node>, cells: map<Node, Cell>, trace: seq<Event>, cells': map<Node, Cell>)
    requires Heard(nodes, cells, trace) && cells'.Keys == cells.Keys
    requires forall m | m in cells :: cells'[m].current == cells[m].current
    ensures Heard(nodes, cells', trace)
  {
  }

  /** A delivery keeps both graph invariants once its lines are appended
      to the trace. */
  lemma DeliverKeepsGraph(nodes: map<string, Node>, roots: seq<Node>, next: nat, cells: map<Node, Cell>, trace: seq<Event>,
                          n: Node, v: Value, from: Option<Node>, fuel: nat)
    requires Registry(nodes, roots, next, cells) && Heard(nodes, cells, trace) && n in cells
    ensures var run := Deliver(cells, n, v, from, fuel);
      Registry(nodes, roots, next, run.cells) && Heard(nodes, run.cells, trace + run.events)
  {
    var run := Deliver(cells, n, v, from, fuel);
    DeliverKeepsNodes(cells, n, v, from, fuel);
    RegistryCells(nodes, roots, next, cells, run.cells);
    DeliverReceipts(cells, n, v, from, fuel, nodes.Keys);
    ReceiptsAppend(trace, run.events, nodes.Keys);
    forall o | o in run.cells && o.kind.OutputKind?
      ensures run.cells[o].current == LastReceived(trace + run.events, o.name, None)
    {
      DeliverTracks(cells, n, v, from, fuel, o);
      LastReceivedAppend(trace, run.events, o.name, None);
    }
  }

  /** Appending a registered node to the children of a registered node
      keeps both graph invariants. */
  lemma LinkKeeps(nodes: map<string, Node>, roots: seq<Node>, next: nat, cells: map<Node, Cell>, trace: seq<Event>,
                  p: Node, c: Node)
    requires Registry(nodes, roots, next, cells) && Heard(nodes, cells, trace) && p in cells && c in cells
    ensures Registry(nodes, roots, next, Link(cells, p, c)) && Heard(nodes, Link(cells, p, c), trace)
  {
    LinkWellFormed(cells, p, c);
    RegistryCells(nodes, roots, next, cells, Link(cells, p, c));
    HeardRewired(nodes, cells, trace, Link(cells, p, c));
  }

  /** Appending a registered node to the children of several registered
      nodes keeps both graph invariants. */
  lemma LinkAllKeeps(nodes: map<string, Node>, roots: seq<Node>, next: nat, cells: map<Node, Cell>, trace: seq<Event>,
                     ups: seq<Node>, c: Node)
    requires Registry(nodes, roots, next, cells) && Heard(nodes, cells, trace) && c in cells
    requires forall i | 0 <= i < |ups| :: ups[i] in cells
    ensures Registry(nodes, roots, next, LinkAll(cells, ups, c)) && Heard(nodes, LinkAll(cells, ups, c), trace)
  {
    var linked := LinkAll(cells, ups, c);
    RegistryCells(nodes, roots, next, cells, linked);
    forall m | m in cells
      ensures linked[m].current == cells[m].current
    {
      LinkAllChildren(cells, ups, c, m);
    }
    HeardRewired(nodes, cells, trace, linked);
  }

  class Graph {
    var rootNodes: seq<Node>
    var nodes: map<string, Node>
    var nextStreamId: nat
    /** The mutable fields of every registered node. */
    var cells: map<Node, Cell>
    /** The lines every `emit` prints, in order. */
    var trace: seq<Event>

    ghost predicate Valid()
      reads this
    {
      Registry(nodes, rootNodes, nextStreamId, cells) && Heard(nodes, cells, trace)
    }

    /** An empty graph: no nodes, no roots, the counter at zero. */
    constructor ()
      ensures Valid()
      ensures nodes == map[] && rootNodes == [] && nextStreamId == 0 && cells == map[] && trace == []
    {
      rootNodes := [];
      nodes := map[];
      nextStreamId := 0;
      cells := map[];
      trace := [];
    }

    /** `stream_count`: the number of registered nodes, which the shared
        counter always equals. */
    function StreamCount(): (k: nat)
      reads this
      requires Valid()
      ensures k == nextStreamId
    {
      |nodes|
    }

    /** `next_stream_id`: the shared counter, which only ever counts
        registrations. */
    function NextStreamId(): (k: nat)
      reads this
      requires Valid()
      ensures k == |nodes|
    {
      nextStreamId
    }

    /** `root_nodes`: the sources, in the order `new_stream` created them;
        each of them is registered. */
    function RootNodes(): (r: seq<Node>)
      reads this
      requires Valid()
      ensures forall i | 0 <= i < |r| :: r[i] in cells && r[i].kind.SourceKind? && nodes[r[i].name] == r[i]
    {
      rootNodes
    }

    /** `new_stream`: register a source under `name` and make it a root. */
    method NewStream(name: string) returns (r: Result<Node, Failure>)
      requires Valid()
      modifies this
      ensures Valid() && trace == old(trace)
      ensures name in old(nodes) ==>
        r == Err(DuplicateName(name)) && nodes == old(nodes) && rootNodes == old(rootNodes) &&
        nextStreamId == old(nextStreamId) && cells == old(cells)
      ensures name !in old(nodes) ==>
        r.Ok? && fresh(r.value) && r.value.name == name && r.value.kind.SourceKind? &&
        nodes == old(nodes)[name := r.value] && rootNodes == old(rootNodes) + [r.value] &&
        nextStreamId == old(nextStreamId) + 1 && cells == old(cells)[r.value := Initial(r.value)]
    {
      if name in nodes {
        return Err(DuplicateName(name));
      }
      var s := new Node(name, SourceKind);
      RegistryAdd(nodes, rootNodes, nextStreamId, cells, s, true);
      HeardAdd(nodes, cells, trace, s);
      nodes := nodes[name := s];
      nextStreamId := nextStreamId + 1;
      rootNodes := rootNodes + [s];
      cells := cells[s := Initial(s)];
      r := Ok(s);
    }

    /** `register_stream`: add a freshly built derived node to the registry
        (not to the roots). */
    method Register(s: Node) returns (r: Result<(), Failure>)
      requires Valid() && Consistent(s, Initial(s))
      modifies this
      ensures Valid() && trace == old(trace) && rootNodes == old(rootNodes)
      ensures s.name in old(nodes) ==>
        r == Err(DuplicateName(s.name)) && nodes == old(nodes) &&
        nextStreamId == old(nextStreamId) && cells == old(cells)
      ensures s.name !in old(nodes) ==>
        r == Ok(()) && nodes == old(nodes)[s.name := s] &&
        nextStreamId == old(nextStreamId) + 1 && cells == old(cells)[s := Initial(s)]
    {
      if s.name in nodes {
        return Err(DuplicateName(s.name));
      }
      RegistryAdd(nodes, rootNodes, nextStreamId, cells, s, false);
      HeardAdd(nodes, cells, trace, s);
      nodes := nodes[s.name := s];
      nextStreamId := nextStreamId + 1;
      cells := cells[s := Initial(s)];
      r := Ok(());
    }

    /** `Stream.map`: a map node named `name` (or `map-<id>`), registered and
        appended as the last child of `parent`. */
    method MapTo(parent: Node, f: Value -> Value, name: Option<string>) returns (r: Result<Node, Failure>)
      requires Valid() && parent in cells && !parent.kind.OutputKind?
      modifies this
      ensures Valid() && trace == old(trace) && rootNodes == old(rootNodes)
      ensures var nm := ChosenName(name, "map", old(nextStreamId));
        (nm in old(nodes) ==>
          r == Err(DuplicateName(nm)) && nodes == old(nodes) &&
          nextStreamId == old(nextStreamId) && cells == old(cells)) &&
        (nm !in old(nodes) ==>
          r.Ok? && fresh(r.value) && r.value.name == nm && r.value.kind == MapKind(f) &&
          nodes == old(nodes)[nm := r.value] && nextStreamId == old(nextStreamId) + 1 &&
          cells == Link(old(cells)[r.value := Initial(r.value)], parent, r.value))
    {
      var s := new Node(ChosenName(name, "map", nextStreamId), MapKind(f));
      var reg := Register(s);
      if reg.Err? {
        return Err(reg.error);
      }
      LinkKeeps(nodes, rootNodes, nextStreamId, cells, trace, parent, s);
      cells := cells[parent := cells[parent].(children := cells[parent].children + [s])];
      r := Ok(s);
    }

    /** `Stream.output`: a sink named `name` (or `output-<id>`), registered
        and appended as the last child of `parent`. */
    method OutputTo(parent: Node, name: Option<string>) returns (r: Result<Node, Failure>)
      requires Valid() && parent in cells && !parent.kind.OutputKind?
      modifies this
      ensures Valid() && trace == old(trace) && rootNodes == old(rootNodes)
      ensures var nm := ChosenName(name, "output", old(nextStreamId));
        (nm in old(nodes) ==>
          r == Err(DuplicateName(nm)) && nodes == old(nodes) &&
          nextStreamId == old(nextStreamId) && cells == old(cells)) &&
        (nm !in old(nodes) ==>
          r.Ok? && fresh(r.value) && r.value.name == nm && r.value.kind.OutputKind? &&
          nodes == old(nodes)[nm := r.value] && nextStreamId == old(nextStreamId) + 1 &&
          cells == Link(old(cells)[r.value := Initial(r.value)], parent, r.value))
    {
      var s := new Node(ChosenName(name, "output", nextStreamId), OutputKind);
      var reg := Register(s);
      if reg.Err? {
        return Err(reg.error);
      }
      LinkKeeps(nodes, rootNodes, nextStreamId, cells, trace, parent, s);
      cells := cells[parent := cells[parent].(children := cells[parent].children + [s])];
      r := Ok(s);
    }

    /** `Stream.zip`: a join node over `ups` (slot `i` for `ups[i]`), named
        `name` (or `zip-<id>`), registered and appended as the last child of
        every upstream, once per time it is listed. */
    method ZipOf(f: seq<Value> -> Value, ups: seq<Node>, name: Option<string>) returns (r: Result<Node, Failure>)
      requires Valid() && forall i | 0 <= i < |ups| :: ups[i] in cells
      modifies this
      ensures Valid() && trace == old(trace) && rootNodes == old(rootNodes)
      ensures |ups| == 0 ==>
        r == Err(NoUpstreams) && nodes == old(nodes) &&
        nextStreamId == old(nextStreamId) && cells == old(cells)
      ensures |ups| > 0 ==> var nm := ChosenName(name, "zip", old(nextStreamId));
        (nm in old(nodes) ==>
          r == Err(DuplicateName(nm)) && nodes == old(nodes) &&
          nextStreamId == old(nextStreamId) && cells == old(cells)) &&
        (nm !in old(nodes) ==>
          r.Ok? && fresh(r.value) && r.value.name == nm && r.value.kind == ZipKind(f, ups) &&
          nodes == old(nodes)[nm := r.value] && nextStreamId == old(nextStreamId) + 1 &&
          cells == LinkAll(old(cells)[r.value := Initial(r.value)], ups, r.value))
    {
      if |ups| == 0 {
        return Err(NoUpstreams);
      }
      var z := new Node(ChosenName(name, "zip", nextStreamId), ZipKind(f, ups));
      FilledCleared<Value>(|ups|);
      var reg := Register(z);
      if reg.Err? {
        return Err(reg.error);
      }
      LinkUnder(ups, z);
      r := Ok(z);
    }

    /** The last step of `Stream.zip`: `z` becomes the last child of every
        upstream in turn. */
    method LinkUnder(ups: seq<Node>, z: Node)
      requires Valid() && z in cells && forall i | 0 <= i < |ups| :: ups[i] in cells
      modifies this
      ensures Valid()
      ensures nodes == old(nodes) && nextStreamId == old(nextStreamId)
      ensures rootNodes == old(rootNodes) && trace == old(trace)
      ensures cells == LinkAll(old(cells), ups, z)
    {
      var linked := LinkEach(cells, ups, z);
      LinkAllKeeps(nodes, rootNodes, nextStreamId, cells, trace, ups, z);
      cells := linked;
    }

    /** `current_value()` of a sink: the last value it received, as the
        trace shows it, and `None` before it received any. */
    function CurrentValue(out: Node): (r: Option<Value>)
      reads this
      requires Valid() && out in cells && out.kind.OutputKind?
      ensures r == cells[out].current
      ensures r == LastReceived(trace, out.name, None)
    {
      cells[out].current
    }

    /** `emit(v, upstream=from)` called on the registered node `n`, with
        `fuel` stack frames left: every node it reaches updates its fields
        and the printed lines are appended to the trace. */
    method Emit(n: Node, v: Value, from: Option<Node>, fuel: nat) returns (r: Outcome)
      requires Valid() && n in cells
      modifies this
      ensures Valid()
      ensures nodes == old(nodes) && rootNodes == old(rootNodes) && nextStreamId == old(nextStreamId)
      ensures var run := Deliver(old(cells), n, v, from, fuel);
        cells == run.cells && trace == old(trace) + run.events && r == run.outcome
    {
      var after, printed;
      after, printed, r := Receive(cells, n, v, from, fuel);
      DeliverKeepsGraph(nodes, rootNodes, nextStreamId, cells, trace, n, v, from, fuel);
      cells := after;
      trace := trace + printed;
    }
  }

  // ---------------------------------------------------------------------
  // Propagation, step by step

  /** The `emit` method of node `n`, run on the fields `cells` of the nodes:
      returns their new fields, the lines printed and how the call ended. */
  method Receive(cells: map<Node, Cell>, n: Node, v: Value, from: Option<Node>, fuel: nat)
    returns (after: map<Node, Cell>, printed: seq<Event>, r: Outcome)
    requires WellFormed(cells) && n in cells
    ensures Run(after, printed, r) == Deliver(cells, n, v, from, fuel)
    decreases fuel, 2
  {
    if fuel == 0 {
      return cells, [], Raised(RecursionLimit);
    }
    match n.kind {
      case SourceKind =>
        after, printed, r := Broadcast(cells, n, v, fuel);
      case MapKind(f) =>
        var result := f(v);
        var rest;
        after, rest, r := Broadcast(cells, n, result, fuel);
        printed := [Receiving(n.name, v), Emitting(n.name, result, None)] + rest;
      case OutputKind =>
        after := cells[n := cells[n].(current := Some(v))];
        printed := [Receiving(n.name, v)];
        r := Completed;
      case ZipKind(_, _) =>
        after, printed, r := ZipReceive(cells, n, v, from, fuel);
    }
  }

  /** `Zip.emit`: file `v` in the slot of `from`; the delivery that fills
      the last slot clears the buffer and emits the combined value. */
  method ZipReceive(cells: map<Node, Cell>, n: Node, v: Value, from: Option<Node>, fuel: nat)
    returns (after: map<Node, Cell>, printed: seq<Event>, r: Outcome)
    requires WellFormed(cells) && n in cells && n.kind.ZipKind? && fuel > 0
    ensures Run(after, printed, r) == Joining(cells, n, v, from, fuel)
    decreases fuel, 1
  {
    printed := [Receiving(n.name, v)];
    if from.None? {
      return cells, printed, Raised(MissingUpstream);
    }
    var key := from.value.name;
    if key !in n.slot {
      return cells, printed, Raised(UnknownUpstream(key));
    }
    var idx := n.slot[key];
    var c := cells[n];
    if c.inputs[idx].Some? {
      return cells, printed, Raised(SlotFilled(idx));
    }
    var inputs := c.inputs[idx := Some(v)];
    var received := c.received + 1;
    if received != n.arity {
      return cells[n := c.(inputs := inputs, received := received)], printed, Completed;
    }
    FilledStore(c.inputs, idx, v);
    FilledFull(inputs);
    var result := n.kind.combine(Values(inputs));
    // the buffer is emptied before the result is forwarded
    var rest;
    after, rest, r := Broadcast(Emptied(cells, n), n, result, fuel);
    printed := printed + [Emitting(n.name, result, None)] + rest;
  }

  /** `IStream.emit`: print the receipt, then the loop that hands `v` to
      every child of `n` in order and stops at the first child that raises. */
  method Broadcast(cells: map<Node, Cell>, n: Node, v: Value, fuel: nat)
    returns (after: map<Node, Cell>, printed: seq<Event>, r: Outcome)
    requires WellFormed(cells) && n in cells && fuel > 0
    ensures Run(after, printed, r) == Broadcasting(cells, n, v, fuel)
    decreases fuel, 0
  {
    ghost var spec := Broadcasting(cells, n, v, fuel);
    printed := [Receiving(n.name, v)];
    after := cells;
    var cs := cells[n].children;
    var i := 0;
    r := Completed;
    while i < |cs|
      invariant 0 <= i <= |cs|
      invariant WellFormed(after)
      invariant forall j | 0 <= j < |cs| :: cs[j] in after
      invariant r == Completed
      invariant spec == Prepend(printed, ForwardEach(after, n, v, cs[i..], fuel))
      decreases |cs| - i
    {
      assert cs[i..][1..] == cs[i + 1..];
      DeliverKeepsNodes(after, cs[i], v, Some(n), fuel - 1);
      var head := [Emitting(n.name, v, Some(cs[i].name))];
      var got;
      ghost var before := printed;
      after, got, r := Receive(after, cs[i], v, Some(n), fuel - 1);
      printed := printed + head + got;
      assert printed == before + (head + got);
      if r.Raised? {
        return;
      }
      i := i + 1;
    }
    assert printed + [] == printed;
  }

  // ---------------------------------------------------------------------
  // Wiring, step by step

  /** The loop of `Stream.zip` that appends `c` to the children of every
      upstream in turn, run on the fields `cells` of the nodes. */
  method LinkEach(cells: map<Node, Cell>, ups: seq<Node>, c: Node) returns (linked: map<Node, Cell>)
    requires forall i | 0 <= i < |ups| :: ups[i] in cells
    ensures linked == LinkAll(cells, ups, c)
  {
    linked := cells;
    var i := 0;
    while i < |ups|
      invariant 0 <= i <= |ups|
      invariant linked == LinkAll(cells, ups[..i], c)
    {
      assert ups[..i + 1][..i] == ups[..i];
      var u := ups[i];
      linked := linked[u := linked[u].(children := linked[u].children + [c])];
      i := i + 1;
    }
    assert ups[..i] == ups;
  }
}
