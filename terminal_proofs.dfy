/** Properties of the terminal session that span several handler calls. */
module TerminalProofs {
  import opened Wrappers
  import opened Text
  import opened Commands
  import opened Terminal

  function Min(a: int, b: int): int { if a <= b then a else b }
  function Max(a: int, b: int): int { if a >= b then a else b }

  /** `n` presses of ArrowUp. */
  function OlderN(s: State, n: nat): (r: State)
    requires CursorInRange(s)
    ensures CursorInRange(r)
    decreases n
  {
    if n == 0 then s else OlderN(Older(s), n - 1)
  }

  /** `n` presses of ArrowDown. */
  function NewerN(s: State, n: nat): (r: State)
    requires CursorInRange(s)
    ensures CursorInRange(r)
    decreases n
  {
    if n == 0 then s else NewerN(Newer(s), n - 1)
  }

  /** ArrowUp pressed `k` times moves the cursor `k` entries back, clamped at
      the oldest entry, and leaves the buffer holding the entry under the
      cursor; once at the oldest entry it does nothing. */
  lemma {:induction false} OlderNMoves(s: State, k: nat)
    requires CursorInRange(s)
    ensures OlderN(s, k).historyIndex == Min(s.historyIndex + k, |s.history| - 1)
    ensures k > 0 && s.historyIndex < |s.history| - 1 ==> InputAtCursor(OlderN(s, k))
    ensures s.historyIndex == |s.history| - 1 ==> OlderN(s, k) == s
    ensures OlderN(s, k).(input := s.input, historyIndex := s.historyIndex) == s
    decreases k
  {
    if k > 0 {
      OlderNMoves(Older(s), k - 1);
    }
  }

  /** ArrowDown pressed `k` times moves the cursor `k` entries forward,
      stopping at "none"; the buffer holds the entry under the cursor, or is
      empty once "none" is reached from an entry; at "none" it does nothing. */
  lemma {:induction false} NewerNMoves(s: State, k: nat)
    requires CursorInRange(s)
    ensures NewerN(s, k).historyIndex == Max(s.historyIndex - k, -1)
    ensures k > 0 && s.historyIndex >= 0 ==> InputAtCursor(NewerN(s, k))
    ensures k > s.historyIndex >= 0 ==> NewerN(s, k).input == ""
    ensures s.historyIndex == -1 ==> NewerN(s, k) == s
    ensures NewerN(s, k).(input := s.input, historyIndex := s.historyIndex) == s
    decreases k
  {
    if k > 0 {
      NewerNMoves(Newer(s), k - 1);
    }
  }

  /** From "none", ArrowUp as many times as there are history entries, then
      ArrowDown as many times, returns the cursor to "none" with an empty
      buffer (a no-op on an empty history); nothing else changes. */
  lemma {:induction false} NavigationRoundTrip(s: State)
    requires CursorInRange(s) && s.historyIndex == -1
    ensures NewerN(OlderN(s, |s.history|), |s.history|)
            == if s.history == [] then s else s.(input := "")
  {
    var n := |s.history|;
    OlderNMoves(s, n);
    NewerNMoves(OlderN(s, n), n);
  }

  /** Pressing ArrowUp at least as often as there are entries, from "none",
      lands on the oldest entry and loads it. */
  lemma {:induction false} OlderClampsAtOldest(s: State, k: nat)
    requires CursorInRange(s) && s.historyIndex == -1
    requires k >= |s.history| > 0
    ensures OlderN(s, k).historyIndex == |s.history| - 1
    ensures OlderN(s, k).input == s.history[0]
  {
    OlderNMoves(s, k);
  }

  /** The two ways the user drives the terminal: typing into the input box,
      and pressing a key in it (Enter submits the buffer). */
  datatype Event = Typed(value: string) | Pressed(key: Key, theme: Option<string>)

  /** The session after one event. The history can only grow at its end. */
  function Apply(copy: Copy, s: State, e: Event): (r: State)
    requires CursorInRange(s)
    ensures CursorInRange(r)
    ensures s.history <= r.history
  {
    match e
    case Typed(value) => Change(s, value)
    case Pressed(key, theme) =>
      var t := KeyDown(copy, s, key, theme);
      assert t.state.history == s.history || t.state.history == s.history + [s.input];
      t.state
  }

  /** The session after a sequence of events. The cursor stays in range and
      the history only ever grows at its end: no event, `clear` included,
      removes or rewrites an entry. */
  function Replay(copy: Copy, s: State, events: seq<Event>): (r: State)
    requires CursorInRange(s)
    ensures CursorInRange(r)
    ensures s.history <= r.history
    decreases |events|
  {
    if events == [] then s else Replay(copy, Apply(copy, s, events[0]), events[1..])
  }

  /** Tab twice is Tab once: a completed command name is not itself a key. */
  lemma {:induction false} CompleteIdempotent(s: State)
    ensures Complete(Complete(s)) == Complete(s)
  {
    if Lower(s.input) in Suggestions {
      CompletionSuggestsNothing(Suggestions[Lower(s.input)]);
    }
  }

  /** Right after typing, Tab accepts exactly the suggestion on display, or
      keeps the text when none is shown. */
  lemma TabAcceptsShownSuggestion(s: State, value: string)
    ensures Complete(Change(s, value)).input
            == if Change(s, value).suggestion != "" then Change(s, value).suggestion else value
    ensures Complete(Change(s, value)).suggestion == ""
  {
  }

  /** A blank line (empty, or whitespace only) is no command: it renders
      "Command not found" and is still pushed onto the history as typed. */
  lemma BlankSubmissionIsRecorded(copy: Copy, s: State, cmd: string, theme: Option<string>)
    requires forall i :: 0 <= i < |cmd| ==> IsWhitespace(cmd[i])
    ensures Submit(copy, s, cmd, theme).state
            == s.(commands := s.commands + [Entry(cmd, NotFound)], history := s.history + [cmd],
                  historyIndex := -1, input := "", suggestion := "")
    ensures Submit(copy, s, cmd, theme).setTheme == None
  {
    EmptyIsNotFound(copy, cmd, theme);
  }

  /** Submitting `particles` twice restores the toggle, appends an "enabled"
      and a "disabled" message in the order the toggle went, and leaves the
      history and everything but the transcript as they were. */
  lemma ParticlesTwice(copy: Copy, s: State, cmd: string, theme: Option<string>)
    requires Normalize(cmd) == "particles"
    ensures Submit(copy, Submit(copy, s, cmd, theme).state, cmd, theme).state
            == s.(commands := s.commands + [Entry(cmd, ParticlesMsg(!s.showParticles)),
                                            Entry(cmd, ParticlesMsg(s.showParticles))])
  {
  }

  /** Submitting the same text twice renders the same output twice, unless
      the text is one of the stateful commands `clear`, `particles`, `theme`. */
  lemma RepeatRendersSame(copy: Copy, s: State, cmd: string, theme: Option<string>)
    requires Normalize(cmd) != "clear" && Normalize(cmd) != "particles" && Normalize(cmd) != "theme"
    ensures var once := Submit(copy, s, cmd, theme).state;
            var twice := Submit(copy, once, cmd, theme).state;
            |twice.commands| == |s.commands| + 2
            && twice.commands[|s.commands|] == twice.commands[|s.commands| + 1]
  {
  }
}
