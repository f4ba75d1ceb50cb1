/** Default node names: a kind prefix, a dash and the graph's shared counter
    written in decimal, as Python's `f"map-{id}"` renders it. */
module Naming {

  import opened Wrappers

  predicate IsDigit(c: char)
  {
    '0' <= c <= '9'
  }

  predicate AllDigits(s: string)
  {
    forall i :: 0 <= i < |s| ==> IsDigit(s[i])
  }

  /** The decimal rendering of `n`, without leading zeros. */
  function Decimal(n: nat): (s: string)
    ensures |s| > 0 && AllDigits(s)
    ensures |s| > 1 ==> s[0] != '0'
    decreases n
  {
    if n < 10 then [(n + '0' as int) as char]
    else Decimal(n / 10) + [(n % 10 + '0' as int) as char]
  }

  /** Reads a string of digits back as a number. */
  function ParseDecimal(s: string): (n: nat)
    requires AllDigits(s)
  {
    if s == [] then 0
    else ParseDecimal(s[..|s| - 1]) * 10 + (s[|s| - 1] as int - '0' as int)
  }

  /** Reading the decimal rendering of `n` gives `n` back. */
  lemma {:induction false} DecimalRoundTrip(n: nat)
    ensures ParseDecimal(Decimal(n)) == n
    decreases n
  {
    var s := Decimal(n);
    if n >= 10 {
      DecimalRoundTrip(n / 10);
      assert s[..|s| - 1] == Decimal(n / 10);
    }
  }

  /** Distinct counters render as distinct strings. */
  lemma DecimalInjective(m: nat, n: nat)
    requires Decimal(m) == Decimal(n)
    ensures m == n
  {
    DecimalRoundTrip(m);
    DecimalRoundTrip(n);
  }

  /** The name `"<prefix>-<id>"` given to a node created without one. */
  function DefaultName(prefix: string, id: nat): string
  {
    prefix + "-" + Decimal(id)
  }

  /** The name a wiring call uses: Python's `name or f"..."`, so an absent
      name and the empty string both fall back to the default.  Either way
      no node is ever named `""`. */
  function ChosenName(name: Option<string>, prefix: string, id: nat): (r: string)
    ensures |r| > 0
  {
    if name.Some? && name.value != "" then name.value else DefaultName(prefix, id)
  }

  /** The part of `s` before its first dash (all of `s` if it has none). */
  function BeforeDash(s: string): (r: string)
    ensures |r| <= |s| && r == s[..|r|]
  {
    if s == [] || s[0] == '-' then [] else [s[0]] + BeforeDash(s[1..])
  }

  lemma {:induction false} BeforeDashOf(p: string, t: string)
    requires forall k :: 0 <= k < |p| ==> p[k] != '-'
    ensures BeforeDash(p + "-" + t) == p
  {
    if p != [] {
      assert (p + "-" + t)[1..] == p[1..] + "-" + t;
      BeforeDashOf(p[1..], t);
    }
  }

  /** A default name reads back as what it was built from: the part before
      the first dash is the prefix, and the rest is the decimal counter. */
  lemma DefaultNameReadsBack(prefix: string, id: nat)
    requires forall k :: 0 <= k < |prefix| ==> prefix[k] != '-'
    ensures var r := DefaultName(prefix, id);
      BeforeDash(r) == prefix && |r| > |prefix| && AllDigits(r[|prefix| + 1..]) &&
      ParseDecimal(r[|prefix| + 1..]) == id
  {
    var r := DefaultName(prefix, id);
    BeforeDashOf(prefix, Decimal(id));
    assert r[|prefix| + 1..] == Decimal(id);
    DecimalRoundTrip(id);
  }

  /** A default name determines both its prefix and its counter value, as
      long as the prefix has no dash in it: `map-3` is never `zip-3`, and
      `map-3` is never `map-4`. */
  lemma DefaultNameInjective(p: string, i: nat, q: string, j: nat)
    requires forall k :: 0 <= k < |p| ==> p[k] != '-'
    requires forall k :: 0 <= k < |q| ==> q[k] != '-'
    requires DefaultName(p, i) == DefaultName(q, j)
    ensures p == q && i == j
  {
    DefaultNameReadsBack(p, i);
    DefaultNameReadsBack(q, j);
  }
}
