/**
 * The boot-up terminal (`HolographicTerminal`,
 * src/components/HolographicTerminal.jsx): an interval appends the fixed
 * commands one per tick, then clears itself once all of them are shown.
 */
module HolographicTerminal {
  import opened Util

  const Commands: seq<string> := [
    "> Initiating Elvis Njaramba Portfolio ...",
    "> Loading creative engine [\U{2588}\U{2588}\U{2588}\U{2588}\U{2588}\U{2588}\U{2588}\U{2588}\U{2588}\U{2588}]",
    "> Importing futuristic UI components ...",
    "> Portfolio system online \U{2705}",
    "> Hello, Welcome..."
  ]

  /** The shown lines, the closure counter `currentLine`, and whether the interval still runs. */
  datatype Terminal = Terminal(lines: seq<string>, currentLine: nat, running: bool)

  function Initial(): Terminal
  {
    Terminal([], 0, true)
  }

  /** The shown lines are exactly the first `currentLine` commands. */
  ghost predicate Inv(t: Terminal)
  {
    t.currentLine <= |Commands| && t.lines == Commands[..t.currentLine]
  }

  /**
   * One firing of the interval: append the next command and count it, or,
   * when every command is shown, clear the interval.  A cleared interval no
   * longer fires.
   */
  function Step(t: Terminal): (r: Terminal)
    ensures Inv(t) ==> Inv(r)
    ensures |t.lines| <= |r.lines| <= |t.lines| + 1 && r.lines[..|t.lines|] == t.lines
    ensures !r.running ==> r.lines == t.lines
  {
    if !t.running then t
    else if t.currentLine < |Commands| then
      Terminal(t.lines + [Commands[t.currentLine]], t.currentLine + 1, true)
    else
      t.(running := false)
  }

  /** The state after `k` firings. */
  function Run(t: Terminal, k: nat): Terminal
  {
    if k == 0 then t else Step(Run(t, k - 1))
  }

  /**
   * After `k` firings the terminal shows the first `min(k, 5)` commands, and
   * the interval is cleared exactly from the sixth firing on.
   */
  lemma {:induction false} RunFromStart(k: nat)
    ensures Run(Initial(), k) == Terminal(Commands[..Min(k, |Commands|)], Min(k, |Commands|), k <= |Commands|)
    decreases k
  {
    if k > 0 {
      RunFromStart(k - 1);
      if k <= |Commands| {
        assert Commands[..k - 1] + [Commands[k - 1]] == Commands[..k];
      }
    }
  }

  /** Five firings show every command, and later firings change nothing shown. */
  lemma AllCommandsShown(k: nat)
    requires k >= |Commands|
    ensures Run(Initial(), k).lines == Commands
  {
    RunFromStart(k);
  }

  /** A rendered line: its text and whether the block cursor follows it. */
  datatype Row = Row(text: string, cursor: bool)

  /** The rendered lines: the cursor follows the last line only. */
  function Rows(lines: seq<string>): (r: seq<Row>)
    ensures |r| == |lines|
    ensures forall i :: 0 <= i < |r| ==> r[i].text == lines[i]
    ensures forall i, j :: 0 <= i < j < |r| ==> !(r[i].cursor && r[j].cursor)
    ensures |r| > 0 ==> r[|r| - 1].cursor
  {
    seq(|lines|, i requires 0 <= i < |lines| => Row(lines[i], i == |lines| - 1))
  }

  /** The component's state. */
  class TerminalView {
    var lines: seq<string>
    var currentLine: nat
    var running: bool

    function State(): Terminal
      reads this
    {
      Terminal(lines, currentLine, running)
    }

    ghost predicate Valid()
      reads this
    {
      Inv(State())
    }

    constructor ()
      ensures Valid() && State() == Initial()
    {
      lines, currentLine, running := [], 0, true;
    }

    /** One firing of the interval, while it has not been cleared. */
    method Tick()
      requires Valid()
      modifies this
      ensures Valid() && State() == Step(old(State()))
    {
      if running {
        if currentLine < |Commands| {
          lines := lines + [Commands[currentLine]];
          currentLine := currentLine + 1;
        } else {
          running := false;
        }
      }
    }
  }
}
