/** The typewriter intro of app/components/Intro.tsx. Each timer tick of its
    effect makes one transition of (displayText, lineIndex, isDeleting): type
    the next character of the current line; at full length, switch to
    deleting; delete the last character; when empty, move to the next line.
    Once the lines are exhausted the effect signals completion instead. */
module Intro {

  /** The `lines` table. */
  const Lines: seq<string> := [
    "Initializing system...",
    "Loading modules...",
    "Establishing connection...",
    "Welcome to Rohit's Portfolio",
    "Type 'help' to begin"
  ]

  /** Milliseconds before a tick while typing, while deleting, and before the
      completion callback. */
  const TypingDelay: nat := 100
  const DeletingDelay: nat := 50
  const CompletionDelay: nat := 1000

  /** The three state variables of the effect. */
  datatype Typing = Typing(displayText: string, lineIndex: nat, isDeleting: bool)

  /** The initial values of the `useState` hooks. */
  const Start: Typing := Typing("", 0, false)

  predicate IsPrefix(p: string, s: string) {
    |p| <= |s| && p == s[..|p|]
  }

  /** The states the intro can be in: the text shown is a prefix of the
      current line, and once every line is done nothing is shown. */
  predicate Consistent(lines: seq<string>, t: Typing) {
    && t.lineIndex <= |lines|
    && (t.lineIndex < |lines| ==> IsPrefix(t.displayText, lines[t.lineIndex]))
    && (t.lineIndex == |lines| ==> t.displayText == "" && !t.isDeleting)
  }

  /** Every line has been typed and deleted. */
  predicate Done(lines: seq<string>, t: Typing) {
    t.lineIndex >= |lines|
  }

  /** The delay of the tick the effect schedules in state `t`. */
  function Delay(t: Typing): (d: nat)
    ensures d == 50 <==> t.isDeleting
    ensures d == 100 <==> !t.isDeleting
  {
    if t.isDeleting then DeletingDelay else TypingDelay
  }

  /** One tick of the effect's timer. */
  function Step(lines: seq<string>, t: Typing): (r: Typing)
    requires Consistent(lines, t) && !Done(lines, t)
    ensures Consistent(lines, r)
    ensures r.lineIndex == t.lineIndex || r.lineIndex == t.lineIndex + 1
    ensures !t.isDeleting && |t.displayText| < |lines[t.lineIndex]| ==>
              r == t.(displayText := lines[t.lineIndex][..|t.displayText| + 1])
    ensures !t.isDeleting && |t.displayText| == |lines[t.lineIndex]| ==>
              r == t.(isDeleting := true)
    ensures t.isDeleting && t.displayText != "" ==>
              r == t.(displayText := t.displayText[..|t.displayText| - 1])
    ensures t.isDeleting && t.displayText == "" ==>
              r == Typing("", t.lineIndex + 1, false)
  {
    var currentLine := lines[t.lineIndex];
    if !t.isDeleting then
      if |t.displayText| < |currentLine| then
        t.(displayText := currentLine[..|t.displayText| + 1])
      else
        t.(isDeleting := true)
    else if |t.displayText| > 0 then
      t.(displayText := t.displayText[..|t.displayText| - 1])
    else
      t.(isDeleting := false, lineIndex := t.lineIndex + 1)
  }

  /** Ticks needed for the lines from index `i` on: each line of length n
      takes n ticks to type, one to switch to deleting, n to delete and one
      to move on. */
  function TicksFrom(lines: seq<string>, i: nat): (n: nat)
    ensures i < |lines| ==> n >= 2 * |lines[i]| + 2
    decreases |lines| - i
  {
    if i >= |lines| then 0 else 2 * |lines[i]| + 2 + TicksFrom(lines, i + 1)
  }

  /** Ticks left before the intro is done. */
  function Remaining(lines: seq<string>, t: Typing): nat
    requires Consistent(lines, t)
  {
    if Done(lines, t) then 0
    else
      var n := |lines[t.lineIndex]|;
      var d := |t.displayText|;
      (if t.isDeleting then d + 1 else 2 * n - d + 2) + TicksFrom(lines, t.lineIndex + 1)
  }

  /** Each tick brings the end exactly one tick closer. */
  lemma {:induction false} StepCountsDown(lines: seq<string>, t: Typing)
    requires Consistent(lines, t) && !Done(lines, t)
    ensures Remaining(lines, Step(lines, t)) + 1 == Remaining(lines, t)
  {
  }

  /** `n` ticks, stopping early once done. */
  function Ticks(lines: seq<string>, t: Typing, n: nat): (r: Typing)
    requires Consistent(lines, t)
    ensures Consistent(lines, r)
    ensures r.lineIndex >= t.lineIndex
    decreases n
  {
    if n == 0 || Done(lines, t) then t else Ticks(lines, Step(lines, t), n - 1)
  }

  /** The intro is done after exactly `Remaining` ticks and not before. */
  lemma {:induction false} DoneAfterRemaining(lines: seq<string>, t: Typing, k: nat)
    requires Consistent(lines, t)
    ensures Done(lines, Ticks(lines, t, k)) <==> k >= Remaining(lines, t)
    decreases k
  {
    if k > 0 && !Done(lines, t) {
      StepCountsDown(lines, t);
      DoneAfterRemaining(lines, Step(lines, t), k - 1);
    }
  }

  /** From the start, the intro is done after exactly `TicksFrom(lines, 0)`
      ticks (for each line, twice its length plus two), not one tick earlier,
      and with the text cleared; an empty table is done at once. */
  lemma CompletesFromStart(lines: seq<string>)
    ensures Done(lines, Ticks(lines, Start, TicksFrom(lines, 0)))
    ensures Ticks(lines, Start, TicksFrom(lines, 0)).displayText == ""
    ensures forall k :: 0 <= k < TicksFrom(lines, 0) ==> !Done(lines, Ticks(lines, Start, k))
    ensures lines == [] ==> Done(lines, Start)
  {
    assert Remaining(lines, Start) == TicksFrom(lines, 0);
    DoneAfterRemaining(lines, Start, TicksFrom(lines, 0));
    forall k | 0 <= k < TicksFrom(lines, 0) ensures !Done(lines, Ticks(lines, Start, k)) {
      DoneAfterRemaining(lines, Start, k);
    }
  }

  /** The five lines of the table take 238 ticks in all. */
  lemma LinesTakeTicks()
    ensures TicksFrom(Lines, 0) == 238
  {
    assert |Lines[0]| == 22 && |Lines[1]| == 18 && |Lines[2]| == 26;
    assert |Lines[3]| == 28 && |Lines[4]| == 20;
  }

  /** The mounted intro: the three `useState` hooks as fields. */
  class Typewriter {
    const lines: seq<string>
    var displayText: string
    var lineIndex: nat
    var isDeleting: bool

    function View(): Typing
      reads this
    {
      Typing(displayText, lineIndex, isDeleting)
    }

    ghost predicate Valid()
      reads this
    {
      Consistent(lines, View())
    }

    constructor(lines: seq<string>)
      ensures Valid() && this.lines == lines && View() == Start
    {
      this.lines := lines;
      displayText, lineIndex, isDeleting := "", 0, false;
    }

    /** One run of the effect and its timer: with lines left, wait `delay`
        and make one transition; with none left, wait `delay` and call the
        completion callback, changing nothing. */
    method Tick() returns (delay: nat, complete: bool)
      requires Valid()
      modifies this
      ensures Valid()
      ensures complete <==> Done(lines, old(View()))
      ensures complete ==> delay == CompletionDelay && View() == old(View())
      ensures !complete ==> delay == Delay(old(View())) && View() == Step(lines, old(View()))
    {
      if lineIndex >= |lines| {
        return CompletionDelay, true;
      }
      var currentLine := lines[lineIndex];
      delay, complete := if isDeleting then DeletingDelay else TypingDelay, false;
      if !isDeleting {
        if |displayText| < |currentLine| {
          displayText := currentLine[..|displayText| + 1];
        } else {
          isDeleting := true;
        }
      } else {
        if |displayText| > 0 {
          displayText := displayText[..|displayText| - 1];
        } else {
          isDeleting := false;
          lineIndex := lineIndex + 1;
        }
      }
    }

    /** Drives the timer until the completion callback fires. Returns the
        number of text transitions and, in order, the text shown each time a
        line stood complete: every line, typed in full, once. */
    method Run() returns (ticks: nat, shown: seq<string>)
      requires Valid() && View() == Start
      modifies this
      ensures Valid() && Done(lines, View()) && displayText == ""
      ensures ticks == TicksFrom(lines, 0)
      ensures shown == lines
    {
      ticks, shown := 0, [];
      var complete := false;
      while !complete
        invariant Valid()
        invariant complete ==> Done(lines, View())
        invariant ticks + Remaining(lines, View()) == TicksFrom(lines, 0)
        invariant shown == lines[..lineIndex] + (if isDeleting then [lines[lineIndex]] else [])
        decreases Remaining(lines, View()), !complete
      {
        if lineIndex < |lines| && !isDeleting && |displayText| == |lines[lineIndex]| {
          assert displayText == lines[lineIndex];
          shown := shown + [displayText];
        }
        ghost var before := View();
        var delay;
        delay, complete := Tick();
        if !complete {
          StepCountsDown(lines, before);
          ticks := ticks + 1;
          if lineIndex == before.lineIndex + 1 {
            assert lines[..lineIndex] == lines[..before.lineIndex] + [lines[before.lineIndex]];
          }
        }
      }
    }
  }
}
