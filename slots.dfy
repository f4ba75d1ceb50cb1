/** The join node's per-upstream slot buffer, and the name-to-slot index it is
    built with.  Both are written over plain sequences so that the graph model
    can reuse them for every join node. */
module Slots {

  import opened Wrappers

  /** A buffer of `n` empty slots: the `[None] * n` a join node starts every
      round with. */
  function Cleared<T>(n: nat): (s: seq<Option<T>>)
    ensures |s| == n && forall i :: 0 <= i < n ==> s[i].None?
  {
    seq(n, _ => None)
  }

  /** The number of slots of `s` that hold a value. */
  function Filled<T>(s: seq<Option<T>>): (k: nat)
    ensures k <= |s|
  {
    if s == [] then 0 else (if s[0].Some? then 1 else 0) + Filled(s[1..])
  }

  /** Every slot holds a value. */
  predicate Full<T>(s: seq<Option<T>>)
  {
    forall i :: 0 <= i < |s| ==> s[i].Some?
  }

  /** The values of a full buffer, in slot order. */
  function Values<T>(s: seq<Option<T>>): (r: seq<T>)
    requires Full(s)
    ensures |r| == |s| && forall i :: 0 <= i < |s| ==> s[i] == Some(r[i])
  {
    seq(|s|, i requires 0 <= i < |s| => s[i].value)
  }

  lemma {:induction false} FilledCleared<T>(n: nat)
    ensures Filled(Cleared<T>(n)) == 0
  {
    if n > 0 {
      assert Cleared<T>(n)[1..] == Cleared<T>(n - 1);
      FilledCleared<T>(n - 1);
    }
  }

  /** Storing into an empty slot fills exactly one more slot. */
  lemma {:induction false} FilledStore<T>(s: seq<Option<T>>, i: nat, v: T)
    requires i < |s| && s[i].None?
    ensures Filled(s[i := Some(v)]) == Filled(s) + 1
  {
    if i > 0 {
      assert s[i := Some(v)][1..] == s[1..][i - 1 := Some(v)];
      FilledStore(s[1..], i - 1, v);
    } else {
      assert s[i := Some(v)][1..] == s[1..];
    }
  }

  /** The fill count reaches the buffer length exactly when every slot holds
      a value. */
  lemma {:induction false} FilledFull<T>(s: seq<Option<T>>)
    ensures Filled(s) == |s| <==> Full(s)
  {
    if s != [] {
      FilledFull(s[1..]);
      assert Full(s) <==> s[0].Some? && Full(s[1..]) by {
        if Full(s) {
          forall j | 0 <= j < |s[1..]| ensures s[1..][j].Some? {
            assert s[1..][j] == s[j + 1];
          }
        }
        if s[0].Some? && Full(s[1..]) {
          forall j | 0 <= j < |s| ensures s[j].Some? {
            if j > 0 { assert s[j] == s[1..][j - 1]; }
          }
        }
      }
    }
  }

  /** The position each name gets when a dictionary `{names[i]: i}` is built
      by walking `names` in order: a name listed twice keeps its LAST
      position. */
  function SlotIndex(names: seq<string>): (m: map<string, nat>)
    ensures m.Keys == set i | 0 <= i < |names| :: names[i]
    ensures forall k | k in m :: m[k] < |names| && names[m[k]] == k
    ensures forall k | k in m :: forall j | m[k] < j < |names| :: names[j] != k
  {
    if names == [] then map[]
    else
      var init := names[..|names| - 1];
      assert forall j | 0 <= j < |init| :: init[j] == names[j];
      SlotIndex(init)[names[|names| - 1] := |names| - 1]
  }

  /** When the names are pairwise distinct, the name at position `i` maps to
      slot `i`. */
  lemma SlotIndexDistinct(names: seq<string>, i: nat)
    requires i < |names|
    requires forall a, b | 0 <= a < b < |names| :: names[a] != names[b]
    ensures names[i] in SlotIndex(names) && SlotIndex(names)[names[i]] == i
  {
  }
}
