/** Sessions driven through the handler methods, as a user would drive them;
    each method's postcondition is what the user sees afterwards. They use the
    components/Terminal.tsx copy, except where a scenario holds for either
    copy. */
module Scenarios {
  import opened Wrappers
  import opened Text
  import opened Commands
  import opened Terminal

  /** A command that is neither `clear` nor `particles`, followed by one that
      normalises to `clear` (as "  CLEAR " does): the transcript is emptied
      but the history keeps the first command. */
  method ClearKeepsHistory(cmd: string, clear: string)
      returns (commands: seq<Entry>, history: seq<string>, historyIndex: int, input: string)
    requires Normalize(cmd) != "clear" && Normalize(cmd) != "particles"
    requires Normalize(clear) == "clear"
    ensures commands == [] && history == [cmd] && historyIndex == -1 && input == ""
  {
    var t := new Session(ComponentsCopy);
    var _ := t.HandleCommand(cmd, None);
    var _ := t.HandleCommand(clear, None);
    commands, history, historyIndex, input := t.commands, t.history, t.historyIndex, t.input;
  }

  /** `help`, in any case and padding, renders the listing of all nine
      commands and is recorded in the history as typed. */
  method HelpListsCommands(copy: Copy, cmd: string) returns (commands: seq<Entry>, history: seq<string>)
    requires Normalize(cmd) == "help"
    ensures commands == [Entry(cmd, ShowHelp(HelpListing(copy)))]
    ensures history == [cmd]
  {
    var t := new Session(copy);
    SubmitEffects(copy, Initial, cmd, None);
    var _ := t.HandleCommand(cmd, None);
    commands, history := t.commands, t.history;
  }

  /** After submitting a command, ArrowUp brings it back as typed. */
  method RecallLastCommand(cmd: string) returns (input: string, historyIndex: int)
    requires Normalize(cmd) != "clear" && Normalize(cmd) != "particles"
    ensures input == cmd && historyIndex == 0
  {
    var t := new Session(ComponentsCopy);
    var _ := t.HandleCommand(cmd, None);
    var _ := t.HandleKeyDown(ArrowUp, None);
    input, historyIndex := t.input, t.historyIndex;
  }

  /** `particles` twice: on, then off, with matching messages, no history
      entry, and the typed buffer left as it was. */
  method ParticlesOnThenOff(typed: string, cmd: string)
      returns (afterFirst: bool, afterSecond: bool, commands: seq<Entry>, history: seq<string>, input: string)
    requires Normalize(cmd) == "particles"
    ensures afterFirst && !afterSecond
    ensures commands == [Entry(cmd, ParticlesMsg(true)), Entry(cmd, ParticlesMsg(false))]
    ensures history == [] && input == typed
  {
    var t := new Session(ComponentsCopy);
    t.HandleInputChange(typed);
    var _ := t.HandleCommand(cmd, None);
    afterFirst := t.showParticles;
    var _ := t.HandleCommand(cmd, None);
    afterSecond := t.showParticles;
    commands, history, input := t.commands, t.history, t.input;
  }

  /** Typing a key of `SUGGESTIONS` in any case shows its command and Tab
      accepts it; text that is no key shows nothing. */
  method SuggestAndComplete(value: string, other: string)
      returns (suggested: string, completed: string, none: string)
    requires Lower(value) in Suggestions && Lower(other) !in Suggestions
    ensures suggested == completed == Name(Suggestions[Lower(value)])
    ensures none == ""
  {
    var t := new Session(ComponentsCopy);
    t.HandleInputChange(value);
    suggested := t.suggestion;
    var _ := t.HandleKeyDown(Tab, None);
    completed := t.input;
    t.HandleInputChange(other);
    none := t.suggestion;
  }

  /** Tab looks the buffer up afresh rather than accepting the `suggestion`
      field: a key of `SUGGESTIONS` submitted and recalled with ArrowUp shows
      no suggestion, yet Tab still completes it. */
  method TabIgnoresSuggestionField(value: string) returns (shownBefore: string, input: string)
    requires Lower(value) in Suggestions
    ensures shownBefore == "" && input == Name(Suggestions[Lower(value)])
  {
    var t := new Session(ComponentsCopy);
    SuggestionKeyIsNoCommand(Lower(value));
    var _ := t.HandleCommand(value, None);
    var _ := t.HandleKeyDown(ArrowUp, None);
    shownBefore := t.suggestion;
    var _ := t.HandleKeyDown(Tab, None);
    input := t.input;
  }

  /** A text meeting the requirement of `SuggestAndComplete` and
      `TabIgnoresSuggestionField` exists: "ab" is a key of `SUGGESTIONS`,
      is its own lower case, and completes to "about". */
  lemma AbCompletesToAbout()
    ensures "ab" in Suggestions && Lower("ab") == "ab" && Name(Suggestions["ab"]) == "about"
  {
    LowerOfLowerCase("ab");
  }
}
