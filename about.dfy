/**
 * The typing effect of the About page (`useTypingEffect`, src/Pages/About.jsx).
 *
 * Four pieces of state are updated by timer callbacks: the active word `index`,
 * the number of revealed characters `subIndex`, the direction `reverse` and the
 * cursor flag `blink`.  Every timer callback is one abstract tick, as is the
 * effect run that moves to the next word, which runs synchronously
 * (src/Pages/About.jsx:24-27).
 */
module About {
  import opened Util

  /** The typing part of the state; `blink` runs on its own timer. */
  datatype Typing = Typing(index: nat, subIndex: nat, reverse: bool)

  /** The state of a freshly mounted hook. */
  function Initial(): Typing
  {
    Typing(0, 0, false)
  }

  /**
   * The invariant of every state the hook reaches: the index names a word and
   * `subIndex` is at most one past the end of that word (it climbs to
   * `len + 1` before the direction flips).
   */
  ghost predicate Inv(words: seq<string>, s: Typing)
  {
    s.index < |words| && s.subIndex <= |words[s.index]| + 1
  }

  /**
   * One tick of the typing effect.  It does exactly one thing: flip to
   * shrinking once `subIndex` is one past the word, flip back to growing and
   * advance to the next word once a shrinking word is empty, or move
   * `subIndex` one step in the current direction.
   */
  function Step(words: seq<string>, s: Typing): (r: Typing)
    requires |words| > 0 && s.index <= |words|
    ensures s.index == |words| ==> r == s
    ensures s.index < |words| ==> r.index < |words|
    // reverse becomes true only one past the full word, and that step changes nothing else
    ensures !s.reverse && r.reverse ==>
              s.index < |words| && s.subIndex == |words[s.index]| + 1 && r == s.(reverse := true)
    // reverse becomes false only at an empty word, moving on to the next word
    ensures s.reverse && !r.reverse ==>
              s.subIndex == 0 && r == Typing((s.index + 1) % |words|, 0, false)
    // otherwise the direction is kept and subIndex moves one step along it
    ensures s.index < |words| && r.reverse == s.reverse ==>
              r.index == s.index && r.subIndex == (if s.reverse then s.subIndex - 1 else s.subIndex + 1)
    ensures Inv(words, s) ==> Inv(words, r)
  {
    if s.index == |words| then s
    else if s.subIndex == |words[s.index]| + 1 && !s.reverse then s.(reverse := true)
    else if s.subIndex == 0 && s.reverse then Typing((s.index + 1) % |words|, 0, false)
    else s.(subIndex := if s.reverse then s.subIndex - 1 else s.subIndex + 1)
  }

  /** The state after `k` ticks. */
  function Run(words: seq<string>, s: Typing, k: nat): (r: Typing)
    requires |words| > 0 && s.index <= |words|
    ensures r.index <= |words|
    decreases k
  {
    if k == 0 then s else Run(words, Step(words, s), k - 1)
  }

  /** The text the hook returns: the revealed prefix of the word, then the cursor glyph. */
  function Render(words: seq<string>, s: Typing, blink: bool): (r: string)
    requires s.index < |words|
    ensures |r| == Min(s.subIndex, |words[s.index]|) + 1
    ensures r[..|r| - 1] <= words[s.index]
    ensures r[|r| - 1] == (if blink then '|' else ' ')
  {
    words[s.index][..Min(s.subIndex, |words[s.index]|)] + (if blink then "|" else " ")
  }

  /** The invariant holds after any number of ticks. */
  lemma {:induction false} RunKeepsInv(words: seq<string>, s: Typing, k: nat)
    requires |words| > 0 && Inv(words, s)
    ensures Inv(words, Run(words, s, k))
    decreases k
  {
    if k > 0 {
      RunKeepsInv(words, Step(words, s), k - 1);
    }
  }

  /**
   * Every state reached from the initial one names a word, so the
   * `index === words.length` guard never fires and the rendered text is
   * never longer than the active word plus the cursor.
   */
  lemma ReachableStatesAreValid(words: seq<string>, k: nat, blink: bool)
    requires |words| > 0
    ensures var s := Run(words, Initial(), k);
            s.index < |words| && s.subIndex <= |words[s.index]| + 1 &&
            |Render(words, s, blink)| <= |words[s.index]| + 1
  {
    RunKeepsInv(words, Initial(), k);
  }

  lemma {:induction false} RunAdd(words: seq<string>, s: Typing, a: nat, b: nat)
    requires |words| > 0 && s.index <= |words|
    ensures Run(words, s, a + b) == Run(words, Run(words, s, a), b)
    decreases a
  {
    if a > 0 {
      RunAdd(words, Step(words, s), a - 1, b);
    }
  }

  lemma OneTick(words: seq<string>, s: Typing)
    requires |words| > 0 && s.index <= |words|
    ensures Run(words, s, 1) == Step(words, s)
  {
  }

  /** Growing from `j` characters reaches one past the end of the word. */
  lemma {:induction false} GrowToFull(words: seq<string>, i: nat, j: nat)
    requires i < |words| && j <= |words[i]| + 1
    ensures Run(words, Typing(i, j, false), |words[i]| + 1 - j) == Typing(i, |words[i]| + 1, false)
    decreases |words[i]| + 1 - j
  {
    if j < |words[i]| + 1 {
      assert Step(words, Typing(i, j, false)) == Typing(i, j + 1, false);
      GrowToFull(words, i, j + 1);
    }
  }

  /** Shrinking from `j` characters reaches the empty word, still shrinking. */
  lemma {:induction false} ShrinkToEmpty(words: seq<string>, i: nat, j: nat)
    requires i < |words|
    ensures Run(words, Typing(i, j, true), j) == Typing(i, 0, true)
    decreases j
  {
    if j > 0 {
      assert Step(words, Typing(i, j, true)) == Typing(i, j - 1, true);
      ShrinkToEmpty(words, i, j - 1);
    }
  }

  /**
   * A whole cycle: from word `i`, empty and growing, `2 * len + 4` ticks (grow
   * to `len + 1`, flip, shrink to 0, advance) reach the next word, empty and growing.
   */
  lemma FullCycle(words: seq<string>, i: nat)
    requires i < |words|
    ensures Run(words, Typing(i, 0, false), 2 * |words[i]| + 4) == Typing((i + 1) % |words|, 0, false)
  {
    var n := |words[i]| + 1;
    var start := Typing(i, 0, false);
    var full, flipped, empty := Typing(i, n, false), Typing(i, n, true), Typing(i, 0, true);
    GrowToFull(words, i, 0);
    OneTick(words, full);
    RunAdd(words, start, n, 1);
    ShrinkToEmpty(words, i, n);
    RunAdd(words, start, n + 1, n);
    OneTick(words, empty);
    RunAdd(words, start, 2 * n + 1, 1);
  }

  /** With a single word the effect still cycles, back to the same empty word. */
  lemma SingleWordCycles(words: seq<string>)
    requires |words| == 1
    ensures Run(words, Initial(), 2 * |words[0]| + 4) == Initial()
  {
    FullCycle(words, 0);
  }

  /** The flip to shrinking leaves the displayed text as it was. */
  lemma FlipKeepsText(words: seq<string>, s: Typing, blink: bool)
    requires Inv(words, s) && !s.reverse && Step(words, s).reverse
    ensures Render(words, Step(words, s), blink) == Render(words, s, blink)
  {
  }

  /** The hook's state, updated in place by its timer callbacks. */
  class TypingEffect {
    const words: seq<string>
    var index: nat
    var subIndex: nat
    var reverse: bool
    var blink: bool

    function State(): Typing
      reads this
    {
      Typing(index, subIndex, reverse)
    }

    ghost predicate Valid()
      reads this
    {
      |words| > 0 && Inv(words, State())
    }

    constructor (words: seq<string>)
      requires |words| > 0
      ensures Valid() && this.words == words
      ensures State() == Initial() && blink
    {
      this.words := words;
      index, subIndex, reverse, blink := 0, 0, false, true;
    }

    /** One run of the typing effect followed by the timer it arms. */
    method Tick()
      requires Valid()
      modifies this
      ensures Valid() && State() == Step(words, old(State())) && blink == old(blink)
    {
      if subIndex == |words[index]| + 1 && !reverse {
        reverse := true;
      } else if subIndex == 0 && reverse {
        reverse := false;
        index := (index + 1) % |words|;
      } else if reverse {
        subIndex := subIndex - 1;
      } else {
        subIndex := subIndex + 1;
      }
    }

    /** The blink interval: flips the cursor and touches nothing else. */
    method BlinkTick()
      modifies this`blink
      ensures blink == !old(blink)
    {
      blink := !blink;
    }

    /** The string the hook returns on this render. */
    function Text(): (r: string)
      reads this
      requires Valid()
      ensures |r| <= |words[index]| + 1
    {
      Render(words, State(), blink)
    }
  }
}
