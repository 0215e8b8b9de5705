/**
 * The crossfade cycler (`CycleText`, src/components/CycleText.jsx): an index
 * into a fixed list of phrases, advanced by one (modulo the list's length) on
 * every tick of an interval.
 */
module CycleText {

  const Words: seq<string> := [
    "Crafting Futuristic Interfaces",
    "Innovating with Motion & Code",
    "Designing Intelligent Systems",
    "Building Experiences Beyond Apps",
    "Empowering Digital Creativity"
  ]

  const Prefix: string := "System.out.println("
  const Suffix: string := ")"

  /** The interval's updater: the next index, wrapping to 0 after the last one. */
  function Advance(index: nat, total: nat): (r: nat)
    requires total > 0
    ensures r < total
    ensures index + 1 < total ==> r == index + 1
    ensures index + 1 == total ==> r == 0
  {
    (index + 1) % total
  }

  /** The index after `k` ticks from the initial index 0. */
  function AfterTicks(total: nat, k: nat): (r: nat)
    requires total > 0
    ensures r < total
  {
    if k == 0 then 0 else Advance(AfterTicks(total, k - 1), total)
  }

  lemma MulAtLeast(x: int, total: int)
    requires x >= 1 && total > 0
    ensures x * total >= total
  {
  }

  /** A decomposition `a == q * total + m` with `0 <= m < total` gives the remainder. */
  lemma ModUnique(a: int, total: int, q: int, m: int)
    requires total > 0 && 0 <= m < total && a == q * total + m
    ensures a % total == m
  {
    var q', m' := a / total, a % total;
    var d := q - q';
    assert d * total == m' - m by {
      assert q * total - q' * total == (q - q') * total;
    }
    if d >= 1 {
      MulAtLeast(d, total);
    } else if d <= -1 {
      MulAtLeast(-d, total);
    }
  }

  /** Adding one and wrapping agrees with taking the remainder of the successor. */
  lemma AdvanceMod(a: nat, total: nat)
    requires total > 0
    ensures Advance(a % total, total) == (a + 1) % total
  {
    var q, m := a / total, a % total;
    if m + 1 < total {
      ModUnique(a + 1, total, q, m + 1);
    } else {
      assert a + 1 == (q + 1) * total;
      ModUnique(a + 1, total, q + 1, 0);
    }
  }

  /** After `k` ticks the index is `k mod total`; in particular `total` ticks return it to 0. */
  lemma {:induction false} AfterTicksIsMod(total: nat, k: nat)
    requires total > 0
    ensures AfterTicks(total, k) == k % total
    ensures k == total ==> AfterTicks(total, k) == 0
    decreases k
  {
    if k > 0 {
      AfterTicksIsMod(total, k - 1);
      AdvanceMod(k - 1, total);
    }
    if k == total {
      ModUnique(k, total, 1, 0);
    }
  }

  /** The displayed line: the phrase in curly quotes inside `System.out.println(...)`. */
  function Display(index: nat): (r: string)
    requires index < |Words|
    ensures |r| == |Prefix| + |Words[index]| + 2 + |Suffix|
    ensures r[..|Prefix|] == Prefix
    ensures r[|Prefix|] == '\U{201C}'
    ensures r[|Prefix| + 1 .. |Prefix| + 1 + |Words[index]|] == Words[index]
    ensures r[|Prefix| + 1 + |Words[index]|] == '\U{201D}'
    ensures r[|r| - |Suffix|..] == Suffix
  {
    Prefix + "\U{201C}" + Words[index] + "\U{201D}" + Suffix
  }

  /** Different indices show different lines, so every tick swaps the displayed phrase. */
  lemma EveryTickChangesDisplay(index: nat)
    requires index < |Words|
    ensures Display(Advance(index, |Words|)) != Display(index)
  {
  }

  /** The component's state. */
  class Cycler {
    var index: nat

    ghost predicate Valid()
      reads this
    {
      index < |Words|
    }

    constructor ()
      ensures Valid() && index == 0
    {
      index := 0;
    }

    /** One firing of the interval. */
    method Tick()
      requires Valid()
      modifies this
      ensures Valid() && index == Advance(old(index), |Words|)
    {
      index := (index + 1) % |Words|;
    }

    /** The line on screen shows the phrase at the current index. */
    function Text(): (r: string)
      reads this
      requires Valid()
      ensures |r| == |Prefix| + |Words[index]| + 2 + |Suffix|
      ensures r[..|Prefix|] == Prefix
      ensures r[|Prefix| + 1 .. |Prefix| + 1 + |Words[index]|] == Words[index]
    {
      Display(index)
    }
  }
}
