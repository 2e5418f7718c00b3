/** The command session of the terminal component (app/components/Terminal.tsx,
    and line for line the same in components/Terminal.tsx): the input buffer,
    the transcript, the history with its cursor, the tab-completion suggestion
    and the particle toggle, and the handlers that change them.

    Each handler is first a function from the session before to the session
    after (`Submit`, `Older`, `Newer`, `Complete`, `Change`, `KeyDown`); the
    class `Session` holds the same six fields as mutable state and its methods
    are proved to make exactly those transitions. */
module Terminal {
  import opened Wrappers
  import opened Text
  import opened Commands

  /** One transcript entry: the raw submitted text and what it rendered. */
  datatype Entry = Entry(command: string, output: Output)

  /** The session's six state variables. `historyIndex` is -1 ("none") or an
      offset counted back from the newest history entry. */
  datatype State = State(
    input: string,
    commands: seq<Entry>,
    history: seq<string>,
    historyIndex: int,
    suggestion: string,
    showParticles: bool)

  /** A session after a handler, with the theme the handler passed to
      `setTheme`, if any. */
  datatype Transition = Transition(state: State, setTheme: Option<string>)

  /** The initial values of the `useState` hooks. */
  const Initial: State := State("", [], [], -1, "", false)

  /** The cursor is "none" or points into `history`. */
  predicate CursorInRange(s: State) {
    -1 <= s.historyIndex < |s.history|
  }

  /** The buffer holds the history entry the cursor points at. */
  predicate InputAtCursor(s: State)
    requires CursorInRange(s)
  {
    s.historyIndex >= 0 ==> s.input == s.history[|s.history| - 1 - s.historyIndex]
  }

  /** `handleCommand(cmd)`, with `theme` the current theme. */
  function Submit(copy: Copy, s: State, cmd: string, theme: Option<string>): (r: Transition)
    ensures CursorInRange(s) ==> CursorInRange(r.state)
  {
    var command := Normalize(cmd);
    if command == "clear" then
      Transition(s.(commands := [], input := "", suggestion := ""), None)
    else if command == "particles" then
      var entry := Entry(cmd, ParticlesMsg(!s.showParticles));
      Transition(s.(showParticles := !s.showParticles, commands := s.commands + [entry]), None)
    else
      var processed := Process(copy, cmd, theme);
      var entry := Entry(cmd, processed.output);
      Transition(
        s.(commands := s.commands + [entry], history := s.history + [cmd],
           historyIndex := -1, input := "", suggestion := ""),
        processed.setTheme)
  }

  /** What `handleCommand` does. `clear` empties the transcript, the buffer
      and the suggestion and leaves history and cursor alone; `particles`
      flips the toggle and appends one entry saying whether particles are now
      on, touching nothing else; every other text appends one entry under its
      raw, un-normalised form, is pushed onto the history, and resets cursor,
      buffer and suggestion. Only the last can set the theme. */
  lemma SubmitEffects(copy: Copy, s: State, cmd: string, theme: Option<string>)
    ensures var r := Submit(copy, s, cmd, theme);
      && (Normalize(cmd) == "clear" ==>
            && r.state.commands == [] && r.state.input == "" && r.state.suggestion == ""
            && r.state.history == s.history && r.state.historyIndex == s.historyIndex
            && r.state.showParticles == s.showParticles && r.setTheme == None)
      && (Normalize(cmd) == "particles" ==>
            && r.state.showParticles == !s.showParticles
            && r.state.commands == s.commands + [Entry(cmd, ParticlesMsg(!s.showParticles))]
            && r.state.history == s.history && r.state.historyIndex == s.historyIndex
            && r.state.input == s.input && r.state.suggestion == s.suggestion
            && r.setTheme == None)
      && (Normalize(cmd) != "clear" && Normalize(cmd) != "particles" ==>
            && |r.state.commands| == |s.commands| + 1
            && r.state.commands[..|s.commands|] == s.commands
            && r.state.commands[|s.commands|] == Entry(cmd, Process(copy, cmd, theme).output)
            && r.state.history == s.history + [cmd]
            && r.state.historyIndex == -1 && r.state.input == "" && r.state.suggestion == ""
            && r.state.showParticles == s.showParticles
            && r.setTheme == Process(copy, cmd, theme).setTheme)
  {
  }

  /** ArrowUp: one step to an older history entry, loaded into the buffer,
      unless the cursor is already at the oldest entry (or history is empty).
      Only the buffer and the cursor can change. */
  function Older(s: State): (r: State)
    requires CursorInRange(s)
    ensures CursorInRange(r)
    ensures s.historyIndex < |s.history| - 1 ==> r.historyIndex == s.historyIndex + 1 && InputAtCursor(r)
    ensures s.historyIndex == |s.history| - 1 ==> r == s
    ensures r.(input := s.input, historyIndex := s.historyIndex) == s
  {
    if s.historyIndex < |s.history| - 1 then
      var newIndex := s.historyIndex + 1;
      s.(historyIndex := newIndex, input := s.history[|s.history| - 1 - newIndex])
    else
      s
  }

  /** ArrowDown: one step to a newer history entry, loaded into the buffer;
      from the newest entry back to "none" with an empty buffer; nothing at
      "none". Only the buffer and the cursor can change. */
  function Newer(s: State): (r: State)
    requires CursorInRange(s)
    ensures CursorInRange(r)
    ensures s.historyIndex > 0 ==> r.historyIndex == s.historyIndex - 1 && InputAtCursor(r)
    ensures s.historyIndex == 0 ==> r.historyIndex == -1 && r.input == ""
    ensures s.historyIndex == -1 ==> r == s
    ensures r.(input := s.input, historyIndex := s.historyIndex) == s
  {
    if s.historyIndex > 0 then
      var newIndex := s.historyIndex - 1;
      s.(historyIndex := newIndex, input := s.history[|s.history| - 1 - newIndex])
    else if s.historyIndex == 0 then
      s.(historyIndex := -1, input := "")
    else
      s
  }

  /** Tab: when the lower-cased buffer is a key of `SUGGESTIONS`, the buffer
      becomes that command's name and the suggestion is cleared; otherwise
      nothing changes. The lookup is made afresh on the buffer, not read from
      the `suggestion` field. */
  function Complete(s: State): (r: State)
    ensures Lower(s.input) in Suggestions ==>
              r.input == Name(Suggestions[Lower(s.input)]) && r.suggestion == ""
    ensures Lower(s.input) !in Suggestions ==> r == s
    ensures r.(input := s.input, suggestion := s.suggestion) == s
  {
    var suggestion := SuggestionFor(s.input);
    if suggestion != "" then s.(input := suggestion, suggestion := "") else s
  }

  /** `handleInputChange`: the buffer takes the new text and the suggestion is
      recomputed from it; nothing else changes (the cursor in particular is
      kept). */
  function Change(s: State, value: string): (r: State)
    ensures r.input == value
    ensures r.suggestion != "" <==> Lower(value) in Suggestions
    ensures r.suggestion != "" ==> r.suggestion == Name(Suggestions[Lower(value)])
    ensures r.(input := s.input, suggestion := s.suggestion) == s
  {
    s.(input := value, suggestion := SuggestionFor(value))
  }

  /** The keys `handleKeyDown` tells apart by `e.key`; every other key is
      `OtherKey`. */
  datatype Key = Enter | ArrowUp | ArrowDown | Tab | OtherKey

  /** The key whose `e.key` name is `name`. */
  function KeyNamed(name: string): (k: Key)
    ensures k == Enter <==> name == "Enter"
    ensures k == ArrowUp <==> name == "ArrowUp"
    ensures k == ArrowDown <==> name == "ArrowDown"
    ensures k == Tab <==> name == "Tab"
  {
    if name == "Enter" then Enter
    else if name == "ArrowUp" then ArrowUp
    else if name == "ArrowDown" then ArrowDown
    else if name == "Tab" then Tab
    else OtherKey
  }

  /** `handleKeyDown`: Enter submits the buffer, ArrowUp and ArrowDown move
      through the history, Tab completes, and any other key changes nothing. */
  function KeyDown(copy: Copy, s: State, key: Key, theme: Option<string>): (r: Transition)
    requires CursorInRange(s)
    ensures CursorInRange(r.state)
    ensures key == Enter ==> r == Submit(copy, s, s.input, theme)
    ensures key != Enter ==> r.setTheme == None
    ensures key == ArrowUp ==> r.state == Older(s)
    ensures key == ArrowDown ==> r.state == Newer(s)
    ensures key == Tab ==> r.state == Complete(s)
    ensures key == OtherKey ==> r.state == s
  {
    match key
    case Enter => Submit(copy, s, s.input, theme)
    case ArrowUp => Transition(Older(s), None)
    case ArrowDown => Transition(Newer(s), None)
    case Tab => Transition(Complete(s), None)
    case OtherKey => Transition(s, None)
  }

  /** The mounted terminal: the six `useState` hooks as fields, one method
      per handler. Each method performs the setter calls of its handler in
      order and is proved to make the transition of the function above. */
  class Session {
    const copy: Copy
    var input: string
    var commands: seq<Entry>
    var history: seq<string>
    var historyIndex: int
    var suggestion: string
    var showParticles: bool

    /** The session's state as a value. */
    function View(): State
      reads this
    {
      State(input, commands, history, historyIndex, suggestion, showParticles)
    }

    /** The object invariant: the cursor stays within the history. */
    ghost predicate Valid()
      reads this
    {
      CursorInRange(View())
    }

    constructor(copy: Copy)
      ensures Valid() && this.copy == copy && View() == Initial
    {
      this.copy := copy;
      input, commands, history := "", [], [];
      historyIndex, suggestion, showParticles := -1, "", false;
    }

    /** `handleCommand(cmd)`; returns the theme passed to `setTheme`, if any. */
    method HandleCommand(cmd: string, theme: Option<string>) returns (setTheme: Option<string>)
      requires Valid()
      modifies this
      ensures Valid()
      ensures Transition(View(), setTheme) == Submit(copy, old(View()), cmd, theme)
    {
      var command := Normalize(cmd);
      setTheme := None;
      if command == "clear" {
        commands := [];
        input := "";
        suggestion := "";
        return;
      }
      if command == "particles" {
        var newCommand := Entry(cmd, ParticlesMsg(!showParticles));
        showParticles := !showParticles;
        commands := commands + [newCommand];
        return;
      }
      var processed := Process(copy, cmd, theme);
      setTheme := processed.setTheme;
      commands := commands + [Entry(cmd, processed.output)];
      history := history + [cmd];
      historyIndex := -1;
      input := "";
      suggestion := "";
    }

    /** `handleKeyDown` for the key `key`. */
    method HandleKeyDown(key: Key, theme: Option<string>) returns (setTheme: Option<string>)
      requires Valid()
      modifies this
      ensures Valid()
      ensures Transition(View(), setTheme) == KeyDown(copy, old(View()), key, theme)
    {
      setTheme := None;
      if key == Enter {
        setTheme := HandleCommand(input, theme);
      } else if key == ArrowUp {
        if historyIndex < |history| - 1 {
          var newIndex := historyIndex + 1;
          historyIndex := newIndex;
          input := history[|history| - 1 - newIndex];
        }
      } else if key == ArrowDown {
        if historyIndex > 0 {
          var newIndex := historyIndex - 1;
          historyIndex := newIndex;
          input := history[|history| - 1 - newIndex];
        } else if historyIndex == 0 {
          historyIndex := -1;
          input := "";
        }
      } else if key == Tab {
        var currentInput := Lower(input);
        if currentInput in Suggestions {
          input := Name(Suggestions[currentInput]);
          suggestion := "";
        }
      }
    }

    /** `handleInputChange` with the new text `value`. */
    method HandleInputChange(value: string)
      requires Valid()
      modifies this
      ensures Valid()
      ensures View() == Change(old(View()), value)
    {
      input := value;
      var currentInput := Lower(value);
      suggestion := if currentInput in Suggestions then Name(Suggestions[currentInput]) else "";
    }
  }
}
