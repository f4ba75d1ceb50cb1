/** What propagation does, proved about the ghost functions `Deliver`,
    `Joining`, `Broadcasting` and `ForwardEach` that the propagation
    methods are verified against. */
module Behaviour {

  import opened Wrappers
  import opened Slots
  import opened Dataflow

  // ---------------------------------------------------------------------
  // The recursion limit

  /** Fuel only stands for the interpreter's stack: a delivery that did not
      run out of it has the same effect with any larger budget. */
  lemma {:induction false} DeliverMoreFuel(cells: map<Node, Cell>, n: Node, v: Value, from: Option<Node>, fuel: nat, more: nat)
    requires WellFormed(cells) && n in cells && fuel <= more
    requires Deliver(cells, n, v, from, fuel).outcome != Raised(RecursionLimit)
    ensures Deliver(cells, n, v, from, more) == Deliver(cells, n, v, from, fuel)
    decreases fuel, 2
  {
    match n.kind
    case SourceKind =>
      BroadcastingMoreFuel(cells, n, v, fuel, more);
    case MapKind(f) =>
      BroadcastingMoreFuel(cells, n, f(v), fuel, more);
    case OutputKind =>
    case ZipKind(_, _) =>
      JoiningMoreFuel(cells, n, v, from, fuel, more);
  }

  lemma {:induction false} JoiningMoreFuel(cells: map<Node, Cell>, n: Node, v: Value, from: Option<Node>, fuel: nat, more: nat)
    requires WellFormed(cells) && n in cells && n.kind.ZipKind? && 0 < fuel <= more
    requires Joining(cells, n, v, from, fuel).outcome != Raised(RecursionLimit)
    ensures Joining(cells, n, v, from, more) == Joining(cells, n, v, from, fuel)
    decreases fuel, 1
  {
    var c := cells[n];
    if from.Some? && from.value.name in n.slot {
      var idx := n.slot[from.value.name];
      if c.inputs[idx].None? && c.received + 1 == n.arity {
        var ins := c.inputs[idx := Some(v)];
        FilledStore(c.inputs, idx, v);
        FilledFull(ins);
        BroadcastingMoreFuel(Emptied(cells, n), n, n.kind.combine(Values(ins)), fuel, more);
      }
    }
  }

  lemma {:induction false} BroadcastingMoreFuel(cells: map<Node, Cell>, n: Node, v: Value, fuel: nat, more: nat)
    requires WellFormed(cells) && n in cells && 0 < fuel <= more
    requires Broadcasting(cells, n, v, fuel).outcome != Raised(RecursionLimit)
    ensures Broadcasting(cells, n, v, more) == Broadcasting(cells, n, v, fuel)
    decreases fuel, 0, |cells[n].children| + 1
  {
    ForwardEachMoreFuel(cells, n, v, cells[n].children, fuel, more);
  }

  lemma {:induction false} ForwardEachMoreFuel(cells: map<Node, Cell>, n: Node, v: Value, cs: seq<Node>, fuel: nat, more: nat)
    requires WellFormed(cells) && 0 < fuel <= more
    requires forall i | 0 <= i < |cs| :: cs[i] in cells
    requires ForwardEach(cells, n, v, cs, fuel).outcome != Raised(RecursionLimit)
    ensures ForwardEach(cells, n, v, cs, more) == ForwardEach(cells, n, v, cs, fuel)
    decreases fuel, 0, |cs|
  {
    if cs != [] {
      var first := Deliver(cells, cs[0], v, Some(n), fuel - 1);
      DeliverMoreFuel(cells, cs[0], v, Some(n), fuel - 1, more - 1);
      if first.outcome.Completed? {
        DeliverKeepsNodes(cells, cs[0], v, Some(n), fuel - 1);
        ForwardEachMoreFuel(first.cells, n, v, cs[1..], fuel, more);
      }
    }
  }

  // ---------------------------------------------------------------------
  // Sinks and plain nodes

  /** Every delivery with a stack frame to spare starts by printing the
      receipt of the value it was given. */
  lemma DeliverPrintsReceiptFirst(cells: map<Node, Cell>, n: Node, v: Value, from: Option<Node>, fuel: nat)
    requires WellFormed(cells) && n in cells && fuel > 0
    ensures var run := Deliver(cells, n, v, from, fuel);
      |run.events| > 0 && run.events[0] == Receiving(n.name, v)
  {
  }

  /** `Output.emit` records the value as the sink's current value, prints
      one line and changes nothing else; the upstream plays no part. */
  lemma OutputRecords(cells: map<Node, Cell>, o: Node, v: Value, from: Option<Node>, fuel: nat)
    requires WellFormed(cells) && o in cells && o.kind.OutputKind? && fuel > 0
    ensures var run := Deliver(cells, o, v, from, fuel);
      run.outcome == Completed && run.events == [Receiving(o.name, v)] &&
      run.cells[o].current == Some(v) &&
      forall m | m in cells && m != o :: run.cells[m] == cells[m]
  {
  }

  /** A sink that no delivery reaches keeps its value: when an `emit` prints
      no receipt under the sink's name, the sink's fields are as before. */
  lemma SinkUntouched(cells: map<Node, Cell>, n: Node, v: Value, from: Option<Node>, fuel: nat, o: Node)
    requires WellFormed(cells) && n in cells && SoleName(cells, o) && o.kind.OutputKind?
    requires forall e | e in Deliver(cells, n, v, from, fuel).events && e.Receiving? :: e.node != o.name
    ensures var run := Deliver(cells, n, v, from, fuel); o in run.cells && run.cells[o] == cells[o]
  {
    var run := Deliver(cells, n, v, from, fuel);
    DeliverTracks(cells, n, v, from, fuel, o);
    assert forall i | 0 <= i < |run.events| && run.events[i].Receiving? :: run.events[i].node != o.name;
    LastReceivedSilent(run.events, o.name, cells[o].current);
  }

  /** The lines printed when `n` hands `v` to the sinks `cs` one by one. */
  function SinkLines(n: string, v: Value, cs: seq<Node>): seq<Event>
  {
    if cs == [] then [] else [Emitting(n, v, Some(cs[0].name)), Receiving(cs[0].name, v)] + SinkLines(n, v, cs[1..])
  }

  /** `cells` after each of the sinks `cs` received `v`. */
  ghost function Stored(cells: map<Node, Cell>, cs: seq<Node>, v: Value): map<Node, Cell>
    requires forall i | 0 <= i < |cs| :: cs[i] in cells
  {
    map m | m in cells :: if m in cs then cells[m].(current := Some(v)) else cells[m]
  }

  /** Handing `v` to children that are all sinks serves them in list order,
      unchanged, and leaves `v` as the current value of every one of them. */
  lemma {:induction false} ForwardToSinks(cells: map<Node, Cell>, n: Node, v: Value, cs: seq<Node>, fuel: nat)
    requires WellFormed(cells) && fuel > 1
    requires forall i | 0 <= i < |cs| :: cs[i] in cells && cs[i].kind.OutputKind?
    ensures ForwardEach(cells, n, v, cs, fuel) == Run(Stored(cells, cs, v), SinkLines(n.name, v, cs), Completed)
    decreases |cs|
  {
    if cs == [] {
      assert Stored(cells, cs, v) == cells;
    } else {
      var o := cs[0];
      var next := cells[o := cells[o].(current := Some(v))];
      assert Deliver(cells, o, v, Some(n), fuel - 1) == Run(next, [Receiving(o.name, v)], Completed);
      UpdateWellFormed(cells, o, next[o]);
      ForwardToSinks(next, n, v, cs[1..], fuel);
      StoredFirst(cells, cs, v);
    }
  }

  lemma StoredFirst(cells: map<Node, Cell>, cs: seq<Node>, v: Value)
    requires cs != [] && forall i | 0 <= i < |cs| :: cs[i] in cells
    ensures Stored(cells[cs[0] := cells[cs[0]].(current := Some(v))], cs[1..], v) == Stored(cells, cs, v)
  {
  }

  /** A source forwards the value it is given and a map node forwards the
      image of it, in both cases to every child in list order; children that
      are sinks all end up holding the forwarded value. */
  lemma FanOutToSinks(cells: map<Node, Cell>, n: Node, v: Value, fuel: nat)
    requires WellFormed(cells) && n in cells && fuel > 1
    requires n.kind.SourceKind? || n.kind.MapKind?
    requires forall i | 0 <= i < |cells[n].children| :: cells[n].children[i].kind.OutputKind?
    ensures var cs := cells[n].children;
      var w := if n.kind.MapKind? then n.kind.func(v) else v;
      var head := if n.kind.MapKind? then [Receiving(n.name, v), Emitting(n.name, w, None)] else [];
      Deliver(cells, n, v, None, fuel) ==
      Run(Stored(cells, cs, w), head + [Receiving(n.name, w)] + SinkLines(n.name, w, cs), Completed)
  {
    var w := if n.kind.MapKind? then n.kind.func(v) else v;
    ForwardToSinks(cells, n, w, cells[n].children, fuel);
  }

  /** A source, a map and a sink wired `s -> m -> o`: emitting `v` at the
      source prints seven lines in this order and leaves `f(v)` in the sink,
      using three stack frames. */
  lemma {:induction false} Pipeline(cells: map<Node, Cell>, s: Node, m: Node, o: Node, f: Value -> Value, v: Value)
    requires WellFormed(cells) && s in cells && m in cells && o in cells
    requires s.kind.SourceKind? && m.kind == MapKind(f) && o.kind.OutputKind?
    requires cells[s].children == [m] && cells[m].children == [o]
    ensures Deliver(cells, s, v, None, 3) ==
      Run(cells[o := cells[o].(current := Some(f(v)))],
          [Receiving(s.name, v), Emitting(s.name, v, Some(m.name)),
           Receiving(m.name, v), Emitting(m.name, f(v), None), Receiving(m.name, f(v)),
           Emitting(m.name, f(v), Some(o.name)), Receiving(o.name, f(v))],
          Completed)
  {
    var w := f(v);
    var last := cells[o := cells[o].(current := Some(w))];
    assert Deliver(cells, o, w, Some(m), 1) == Run(last, [Receiving(o.name, w)], Completed);
    assert ForwardEach(cells, m, w, [o], 2) == Run(last, [Emitting(m.name, w, Some(o.name)), Receiving(o.name, w)], Completed) by {
      assert [o][1..] == [];
    }
    var fromMap := [Receiving(m.name, v), Emitting(m.name, w, None), Receiving(m.name, w),
                    Emitting(m.name, w, Some(o.name)), Receiving(o.name, w)];
    assert Deliver(cells, m, v, Some(s), 2) == Run(last, fromMap, Completed);
    assert ForwardEach(cells, s, v, [m], 3) == Run(last, [Emitting(s.name, v, Some(m.name))] + fromMap, Completed) by {
      DeliverKeepsNodes(cells, m, v, Some(s), 2);
      assert [m][1..] == [];
    }
  }

  // ---------------------------------------------------------------------
  // Join nodes

  /** The upstreams of a join node have pairwise distinct names. */
  ghost predicate DistinctUpstreams(z: Node)
    requires z.kind.ZipKind?
  {
    forall a, b | 0 <= a < b < |z.kind.upstreams| :: z.kind.upstreams[a].name != z.kind.upstreams[b].name
  }

  /** With distinct names, the `i`-th upstream owns slot `i`. */
  lemma UpstreamSlot(z: Node, i: nat)
    requires z.kind.ZipKind? && DistinctUpstreams(z) && i < |z.kind.upstreams|
    ensures z.kind.upstreams[i].name in z.slot && z.slot[z.kind.upstreams[i].name] == i
  {
  }

  /** The two upstreams of a two-way join with distinct names own slots 0
      and 1. */
  lemma PairSlots(z: Node)
    requires z.kind.ZipKind? && |z.kind.upstreams| == 2 && z.kind.upstreams[0].name != z.kind.upstreams[1].name
    ensures z.kind.upstreams[0].name in z.slot && z.slot[z.kind.upstreams[0].name] == 0
    ensures z.kind.upstreams[1].name in z.slot && z.slot[z.kind.upstreams[1].name] == 1
  {
    assert DistinctUpstreams(z);
    UpstreamSlot(z, 0);
    UpstreamSlot(z, 1);
  }

  /** A value from upstream `u` goes into the slot `_upstream_idx` gives
      `u`'s name; while a slot is still empty afterwards, the join node only
      prints the receipt. */
  lemma ZipStores(cells: map<Node, Cell>, z: Node, u: Node, v: Value, fuel: nat)
    requires WellFormed(cells) && z in cells && z.kind.ZipKind? && fuel > 0
    requires u.name in z.slot && cells[z].inputs[z.slot[u.name]].None?
    requires !Full(cells[z].inputs[z.slot[u.name] := Some(v)])
    ensures var c := cells[z]; var k := z.slot[u.name];
      Deliver(cells, z, v, Some(u), fuel) ==
      Run(cells[z := c.(inputs := c.inputs[k := Some(v)], received := c.received + 1)], [Receiving(z.name, v)], Completed)
  {
    var c := cells[z];
    var k := z.slot[u.name];
    FilledStore(c.inputs, k, v);
    FilledFull(c.inputs[k := Some(v)]);
    assert Deliver(cells, z, v, Some(u), fuel) == Joining(cells, z, v, Some(u), fuel);
  }

  /** The value from `u` that fills the last empty slot makes the join node
      clear its buffer and emit the combination of the slots in slot order,
      whatever order they were filled in. */
  lemma ZipFires(cells: map<Node, Cell>, z: Node, u: Node, v: Value, fuel: nat)
    requires WellFormed(cells) && z in cells && z.kind.ZipKind? && fuel > 0
    requires u.name in z.slot && cells[z].inputs[z.slot[u.name]].None?
    requires Full(cells[z].inputs[z.slot[u.name] := Some(v)])
    ensures var c := cells[z]; var k := z.slot[u.name];
      var result := z.kind.combine(Values(c.inputs[k := Some(v)]));
      Deliver(cells, z, v, Some(u), fuel) ==
      Prepend([Receiving(z.name, v), Emitting(z.name, result, None)],
              Broadcasting(Emptied(cells, z), z, result, fuel))
  {
    JoiningFires(cells, z, u, v, fuel);
    assert Deliver(cells, z, v, Some(u), fuel) == Joining(cells, z, v, Some(u), fuel);
  }

  /** The firing step of `Joining` on its own. */
  lemma JoiningFires(cells: map<Node, Cell>, z: Node, u: Node, v: Value, fuel: nat)
    requires WellFormed(cells) && z in cells && z.kind.ZipKind? && fuel > 0
    requires u.name in z.slot && cells[z].inputs[z.slot[u.name]].None?
    requires Full(cells[z].inputs[z.slot[u.name] := Some(v)])
    ensures var c := cells[z]; var k := z.slot[u.name];
      var result := z.kind.combine(Values(c.inputs[k := Some(v)]));
      Joining(cells, z, v, Some(u), fuel) ==
      Prepend([Receiving(z.name, v), Emitting(z.name, result, None)],
              Broadcasting(Emptied(cells, z), z, result, fuel))
  {
    var c := cells[z];
    var k := z.slot[u.name];
    FilledStore(c.inputs, k, v);
    FilledFull(c.inputs[k := Some(v)]);
    assert c.received + 1 == z.arity;
  }

  /** A second value from the same upstream name before the round is
      complete raises with that slot, and the buffer keeps the first one. */
  lemma ZipRejectsRepeat(cells: map<Node, Cell>, z: Node, u: Node, w: Value, fuel: nat)
    requires WellFormed(cells) && z in cells && z.kind.ZipKind? && fuel > 0
    requires u.name in z.slot && cells[z].inputs[z.slot[u.name]].Some?
    ensures Deliver(cells, z, w, Some(u), fuel) ==
      Run(cells, [Receiving(z.name, w)], Raised(SlotFilled(z.slot[u.name])))
  {
    assert Deliver(cells, z, w, Some(u), fuel) == Joining(cells, z, w, Some(u), fuel);
  }

  /** The join node refuses a value that names no upstream, and one from a
      stream that is not among its upstreams, without touching its buffer. */
  lemma ZipRejectsStrangers(cells: map<Node, Cell>, z: Node, u: Node, v: Value, fuel: nat)
    requires WellFormed(cells) && z in cells && z.kind.ZipKind? && fuel > 0
    requires forall j | 0 <= j < |z.kind.upstreams| :: z.kind.upstreams[j].name != u.name
    ensures Deliver(cells, z, v, None, fuel) == Run(cells, [Receiving(z.name, v)], Raised(MissingUpstream))
    ensures Deliver(cells, z, v, Some(u), fuel) == Run(cells, [Receiving(z.name, v)], Raised(UnknownUpstream(u.name)))
  {
  }

  /** The two-way join `z` after `v` arrived in `slot` of an empty buffer. */
  function HalfFull(cells: map<Node, Cell>, z: Node, slot: nat, v: Value): map<Node, Cell>
    requires z in cells && slot < 2
  {
    cells[z := cells[z].(inputs := if slot == 0 then [Some(v), None] else [None, Some(v)], received := 1)]
  }

  /** The first value of a round at a two-way join with distinct upstreams
      is only stored, in the slot of the upstream it came from. */
  lemma ZipPairFirstArrival(cells: map<Node, Cell>, z: Node, slot: nat, v: Value, fuel: nat)
    requires WellFormed(cells) && z in cells && z.kind.ZipKind? && fuel > 0 && slot < 2
    requires |z.kind.upstreams| == 2 && z.kind.upstreams[0].name != z.kind.upstreams[1].name
    requires cells[z].inputs == [None, None]
    ensures WellFormed(HalfFull(cells, z, slot, v))
    ensures Deliver(cells, z, v, Some(z.kind.upstreams[slot]), fuel) == Run(HalfFull(cells, z, slot, v), [Receiving(z.name, v)], Completed)
  {
    var c := cells[z];
    assert c.received == 0 by {
      assert Cleared<Value>(2) == c.inputs;
      FilledCleared<Value>(2);
    }
    var half := HalfFull(cells, z, slot, v);
    assert [None, None][slot := Some(v)] == half[z].inputs;
    assert !Full(half[z].inputs) by { assert half[z].inputs[1 - slot].None?; }
    var u := z.kind.upstreams[slot];
    assert u.name in z.slot && z.slot[u.name] == slot by {
      PairSlots(z);
      if slot == 0 { } else { }
    }
    ZipStores(cells, z, u, v, fuel);
    assert cells[z := c.(inputs := c.inputs[slot := Some(v)], received := c.received + 1)] == half;
    UpdateWellFormed(cells, z, half[z]);
  }

  /** A two-way join with an empty buffer and upstreams `a` and `b`: a value
      `x` from `a` is only stored; a value `y` from `b` after it emits
      `combine([x, y])`, forwarded from the starting state because the
      buffer is empty again before forwarding. */
  lemma {:induction false} ZipPairInOrder(cells: map<Node, Cell>, z: Node, x: Value, y: Value, fuel: nat)
    requires WellFormed(cells) && z in cells && z.kind.ZipKind? && fuel > 0
    requires |z.kind.upstreams| == 2 && z.kind.upstreams[0].name != z.kind.upstreams[1].name
    requires cells[z].inputs == [None, None]
    ensures WellFormed(HalfFull(cells, z, 0, x))
    ensures Deliver(cells, z, x, Some(z.kind.upstreams[0]), fuel) == Run(HalfFull(cells, z, 0, x), [Receiving(z.name, x)], Completed)
    ensures var result := z.kind.combine([x, y]);
      Deliver(HalfFull(cells, z, 0, x), z, y, Some(z.kind.upstreams[1]), fuel) ==
      Prepend([Receiving(z.name, y), Emitting(z.name, result, None)], Broadcasting(cells, z, result, fuel))
  {
    ZipPairFirstArrival(cells, z, 0, x, fuel);
    var cx := HalfFull(cells, z, 0, x);
    assert [Some(x), None][1 := Some(y)] == [Some(x), Some(y)];
    assert Values([Some(x), Some(y)]) == [x, y];
    PairSlots(z);
    ZipFires(cx, z, z.kind.upstreams[1], y, fuel);
    assert Emptied(cx, z) == cells by {
      assert Cleared<Value>(2) == [None, None];
    }
  }

  /** The same round with the values arriving the other way round: `y` from
      `b` is stored, then `x` from `a` emits the same `combine([x, y])`. */
  lemma {:induction false} ZipPairOutOfOrder(cells: map<Node, Cell>, z: Node, x: Value, y: Value, fuel: nat)
    requires WellFormed(cells) && z in cells && z.kind.ZipKind? && fuel > 0
    requires |z.kind.upstreams| == 2 && z.kind.upstreams[0].name != z.kind.upstreams[1].name
    requires cells[z].inputs == [None, None]
    ensures WellFormed(HalfFull(cells, z, 1, y))
    ensures Deliver(cells, z, y, Some(z.kind.upstreams[1]), fuel) == Run(HalfFull(cells, z, 1, y), [Receiving(z.name, y)], Completed)
    ensures var result := z.kind.combine([x, y]);
      Deliver(HalfFull(cells, z, 1, y), z, x, Some(z.kind.upstreams[0]), fuel) ==
      Prepend([Receiving(z.name, x), Emitting(z.name, result, None)], Broadcasting(cells, z, result, fuel))
  {
    ZipPairFirstArrival(cells, z, 1, y, fuel);
    var cy := HalfFull(cells, z, 1, y);
    assert [None, Some(y)][0 := Some(x)] == [Some(x), Some(y)];
    assert Values([Some(x), Some(y)]) == [x, y];
    PairSlots(z);
    ZipFires(cy, z, z.kind.upstreams[0], x, fuel);
    assert Emptied(cy, z) == cells by {
      assert Cleared<Value>(2) == [None, None];
    }
  }

  /** A stream zipped with itself: both upstreams share one name, so every
      delivery goes to the last slot.  The first one fills it, and any
      later one raises; slot 0 is never filled and the node never fires. */
  lemma ZipWithItself(cells: map<Node, Cell>, z: Node, x: Value, y: Value, fuel: nat)
    requires WellFormed(cells) && z in cells && z.kind.ZipKind? && fuel > 0
    requires |z.kind.upstreams| == 2 && z.kind.upstreams[0] == z.kind.upstreams[1]
    requires cells[z].inputs == [None, None]
    ensures WellFormed(HalfFull(cells, z, 1, x))
    ensures Deliver(cells, z, x, Some(z.kind.upstreams[0]), fuel) == Run(HalfFull(cells, z, 1, x), [Receiving(z.name, x)], Completed)
    ensures Deliver(HalfFull(cells, z, 1, x), z, y, Some(z.kind.upstreams[0]), fuel) ==
      Run(HalfFull(cells, z, 1, x), [Receiving(z.name, y)], Raised(SlotFilled(1)))
  {
    var a := z.kind.upstreams[0];
    var c := cells[z];
    assert c.received == 0 by {
      assert Cleared<Value>(2) == c.inputs;
      FilledCleared<Value>(2);
    }
    assert NamesOf(z.kind.upstreams) == [a.name, a.name];
    assert a.name in z.slot && z.slot[a.name] == 1 by {
      assert [a.name, a.name][..1] == [a.name];
    }
    var cx := HalfFull(cells, z, 1, x);
    assert [None, None][1 := Some(x)] == [None, Some(x)];
    UpdateWellFormed(cells, z, cx[z]);
    assert Deliver(cells, z, x, Some(a), fuel) == Joining(cells, z, x, Some(a), fuel);
    assert Deliver(cx, z, y, Some(a), fuel) == Joining(cx, z, y, Some(a), fuel);
  }
}
