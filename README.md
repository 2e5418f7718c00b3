# Portfolio terminal: command session and typewriter intro

This project models the interactive part of a portfolio web site, built with
Next.js and React, and proves properties of the model in Dafny.

The model has two parts.

- **The terminal command session**, from `app/components/Terminal.tsx` and its
  near-identical copy `components/Terminal.tsx`. The session state is six
  React state variables:
  - `input`, the text buffer;
  - `commands`, the transcript of `{command, output}` entries;
  - `history`, the submitted lines;
  - `historyIndex`, `-1` for "none" or an offset counted back from the newest
    history entry;
  - `suggestion`, the tab completion on display;
  - `showParticles`, the particle-effect toggle.

  The handlers `handleCommand`, `handleKeyDown` and `handleInputChange` change
  this state. `processCommand` maps the lower-cased, trimmed text to an
  output. `getCommandDescription` and the `COMMANDS` and `SUGGESTIONS` tables
  are lookups.
- **The typewriter intro**, from `app/components/Intro.tsx`. One timer tick of
  its effect is one step over `(displayText, lineIndex, isDeleting)`. The
  intro types each line of its `lines` table, deletes it, moves on, and
  signals completion once the lines run out.

## How the model is built

- `text.dfy` (module `Text`) holds JavaScript's `toLowerCase` and `trim` on
  `seq<char>`. It proves that lower-casing and trimming commute and that
  normalising is idempotent.
- `commands.dfy` (module `Commands`) holds the pure parts. These are the
  command names, the `SUGGESTIONS` map, the descriptions, the `help`
  listing, the theme toggle, and `processCommand`. A
  `Copy` value selects which of the two source files is meant. The copies
  differ in one description string.
- `terminal.dfy` (module `Terminal`) has two layers.
  - Each handler is a function from the session before to the session after:
    `Submit`, `Older`, `Newer`, `Complete`, `Change` and `KeyDown`.
  - Class `Session` holds the six state variables as fields. It has one
    method per handler, which makes the setter calls of the source in order.
    Each method is proved to make exactly the transition of its function and
    to keep the history cursor in range.
- `terminal_proofs.dfy` (module `TerminalProofs`) proves properties of
  several steps. These cover repeated ArrowUp and ArrowDown, the round trip
  through the history, and that no sequence of events removes a history
  entry. They also cover Tab, `particles` and repeated submissions.
- `scenarios.dfy` (module `Scenarios`) drives `Session` objects through the
  handler methods, as a user would. Most use the `components/Terminal.tsx`
  copy; the `help` scenario holds for either copy.
- `intro.dfy` (module `Intro`) holds the tick as a function, and class
  `Typewriter` with `Tick` and with a `Run` loop that drives the ticks to
  completion.

Outputs are abstract tags, not JSX: `ShowHelp(listing)`, `ShowAbout`,
`ShowSkills`, `ShowProjects`, `ShowResume`, `ShowContact`,
`ThemeSwitched(name)`, `ParticlesMsg(enabled)`, `NotFound` and `NoOutput`.
`NoOutput` is the `null` that `processCommand` returns for `clear`.

The current theme from `next-themes` is an `Option<string>` input, with `None`
for an unset theme. The theme a handler passes to `setTheme` is returned as an
`Option<string>`.

### Where the code departs from the obvious reading

The model follows the code in each of these cases.

- `particles` appends one transcript entry and flips the toggle. It does not
  push to `history`, reset `historyIndex`, or clear `input` or `suggestion`.
- `clear` empties the transcript, `input` and `suggestion`, but keeps
  `history` and `historyIndex`.
- Tab does not accept the `suggestion` field. It looks
  `SUGGESTIONS[input.toLowerCase()]` up afresh. So Tab completes a key
  recalled from the history even though no suggestion is on display
  (`Scenarios.TabIgnoresSuggestionField`). For the same reason, Tab with an
  empty suggestion is not always a no-op.
- ArrowUp all the way, then ArrowDown all the way, returns to an empty buffer.
  It does not return to the text that was being typed
  (`TerminalProofs.NavigationRoundTrip`).
- `processCommand` has no `particles` case, so that text falls to "Command
  not found". `handleCommand` intercepts `particles` and `clear` before
  calling it, so neither of its own outcomes for these two is ever rendered.
- The message for `particles` reads the toggle's value from before the flip.
  The entry therefore says "enabled" exactly when particles were off.

## Model

| member | source | states |
|---|---|---|
| Text.LowerChar | app/components/Terminal.tsx:269 | lower-casing keeps whitespace, maps `A`-`Z` to `a`-`z`, maps the Kelvin sign to `k`, and leaves every other character alone |
| Text.Lower | app/components/Terminal.tsx:269 | the model's lower-casing keeps the length of the text |
| Text.LowerIsPointwise | app/components/Terminal.tsx:269 | each character of the lower-cased text is the lower case of the character at the same position |
| Text.TrimStart | app/components/Terminal.tsx:269 | the result is a suffix of the text that does not start with whitespace |
| Text.TrimStartCutsWhitespace | app/components/Terminal.tsx:269 | everything cut from the front is whitespace |
| Text.TrimEnd | app/components/Terminal.tsx:269 | the result is a prefix of the text that does not end with whitespace |
| Text.TrimEndCutsWhitespace | app/components/Terminal.tsx:269 | everything cut from the back is whitespace |
| Text.Trim | app/components/Terminal.tsx:269 | `trim` leaves no whitespace at either end |
| Text.TrimStartExactly | app/components/Terminal.tsx:269 | trimming the front removes exactly the leading run of whitespace |
| Text.TrimEndExactly | app/components/Terminal.tsx:269 | trimming the back removes exactly the trailing run of whitespace |
| Text.TrimIdempotent | app/components/Terminal.tsx:269 | trimming twice is trimming once |
| Text.LowerIdempotent | app/components/Terminal.tsx:269 | lower-casing twice is lower-casing once |
| Text.TrimStartLower | app/components/Terminal.tsx:269 | lower-casing commutes with trimming the front |
| Text.TrimEndLower | app/components/Terminal.tsx:269 | lower-casing commutes with trimming the back |
| Text.Normalize | app/components/Terminal.tsx:269 | `cmd.toLowerCase().trim()` is no longer than `cmd` and has no whitespace at either end |
| Text.NormalizeCommutes | app/components/Terminal.tsx:269 | `cmd.toLowerCase().trim()` equals `cmd.trim().toLowerCase()` |
| Text.NormalizeIdempotent | app/components/Terminal.tsx:304 | normalising an already normalised command changes nothing |
| Commands.Name | app/components/Terminal.tsx:53 | every entry of `COMMANDS` has four to nine characters |
| Commands.Parse | app/components/Terminal.tsx:306-307 | a `case` of the `switch` matches only the exact name of its command |
| Commands.ParseFailsOnlyOnNonNames | app/components/Terminal.tsx:536-543 | the `default` branch is taken exactly when the text names none of the nine commands |
| Commands.AllCommandsListsEachOnce | app/components/Terminal.tsx:53 | `COMMANDS` lists every command once, under distinct names, and each name parses back to its command |
| Commands.NameIsLowerCaseWord | app/components/Terminal.tsx:53 | every command name is a lower-case word of at least four letters |
| Commands.NameIsNormal | app/components/Terminal.tsx:53 | every command name is unchanged by lower-casing, by trimming and by both |
| Commands.SuggestionFor | app/components/Terminal.tsx:578-585 | a suggestion is shown exactly when the lower-cased whole text is a key of `SUGGESTIONS`, and it is that key's command name |
| Commands.SuggestionKeysArePrefixes | app/components/Terminal.tsx:56-65 | every key is a proper prefix of the command it suggests |
| Commands.SuggestionKeysAreWords | app/components/Terminal.tsx:56-65 | every key is a lower-case word of two or three letters |
| Commands.SuggestionKeysAreLowerCase | app/components/Terminal.tsx:56-65 | every key is its own lower case, so a lower-cased lookup can reach each key |
| Commands.SuggestionKeysAreShort | app/components/Terminal.tsx:56-65 | no key is longer than three characters |
| Commands.SuggestionKeyIsNoCommand | app/components/Terminal.tsx:56-65 | a key survives trimming and is neither `clear` nor `particles` |
| Commands.CompletionSuggestsNothing | app/components/Terminal.tsx:567-575 | a completed command name is no key, so it suggests nothing further |
| Commands.CaseFoldedSuggests | app/components/Terminal.tsx:578-585 | both "pro" and "PRO" suggest `projects` |
| Commands.ExtendedOrPaddedSuggestsNothing | app/components/Terminal.tsx:578-585 | "proj" and " pro" suggest nothing, because the lookup is exact and untrimmed |
| Commands.Description | app/components/Terminal.tsx:708-721 | `getCommandDescription` gives a non-empty description for every command |
| Commands.DescriptionsDifferOnlyForContact | components/Terminal.tsx:597-610 | the two copies' descriptions differ for `contact` and for no other command |
| Commands.HelpLines | app/components/Terminal.tsx:307-322 | the `help` cards pair each given command, in order, with its name and description |
| Commands.HelpListing | app/components/Terminal.tsx:307-322 | the `help` listing has nine cards, card i being the i-th entry of `COMMANDS` with its description |
| Commands.HelpListsEveryCommand | components/Terminal.tsx:286-301 | every command has its card in the `help` listing |
| Commands.IndexOf | app/components/Terminal.tsx:53 | every command sits at some position of `COMMANDS` |
| Commands.NextTheme | app/components/Terminal.tsx:471-473 | `theme` picks "light" exactly when the current theme is "dark", and "dark" otherwise, an unset theme included |
| Commands.Process | app/components/Terminal.tsx:303-545 | `processCommand` renders each of `about`, `skills`, `projects`, `resume` and `contact` as its own block. `help` renders the listing and `clear` renders nothing. Only `theme` calls `setTheme`, and it reports the theme it chose. "Command not found" is rendered exactly for text that names no command, and for `particles` |
| Commands.ProcessSeesOnlyNormalForm | app/components/Terminal.tsx:304 | two texts with the same lower-cased, trimmed form render alike |
| Commands.ProcessIgnoresCaseAndPadding | app/components/Terminal.tsx:304 | a command name in any case, padded with whitespace, renders as the bare name does |
| Commands.EmptyIsNotFound | app/components/Terminal.tsx:536-543 | an empty or all-whitespace line normalises to "" and renders "Command not found" without touching the theme |
| Terminal.Submit | app/components/Terminal.tsx:268-301 | submitting keeps the history cursor in range |
| Terminal.SubmitEffects | app/components/Terminal.tsx:268-301 | `clear` empties the transcript, buffer and suggestion and keeps history and cursor. `particles` flips the toggle, appends one entry reporting the new state, and changes nothing else. Any other line appends one entry under its raw text, pushes the raw text onto the history, and resets cursor, buffer and suggestion |
| Terminal.Older | app/components/Terminal.tsx:550-556 | ArrowUp moves one entry back and loads it, or does nothing at the oldest entry or on an empty history. It keeps the cursor in range and changes only buffer and cursor |
| Terminal.Newer | app/components/Terminal.tsx:557-566 | ArrowDown from k > 0 loads entry k-1, from 0 goes to -1 with an empty buffer, and does nothing at -1. It changes only buffer and cursor |
| Terminal.Complete | app/components/Terminal.tsx:567-575 | Tab replaces a buffer whose lower case is a key with that key's command and clears the suggestion, and otherwise changes nothing |
| Terminal.Change | app/components/Terminal.tsx:578-585 | typing sets the buffer and the suggestion for it, and changes nothing else |
| Terminal.KeyNamed | app/components/Terminal.tsx:547-567 | the four keys are recognised by their exact `e.key` names |
| Terminal.KeyDown | app/components/Terminal.tsx:547-576 | Enter submits the buffer and the arrows and Tab make their transitions, none of them setting the theme. Any other key does nothing |
| Terminal.Session.constructor | app/components/Terminal.tsx:128-133 | a new session starts from the initial values of the six hooks |
| Terminal.Session.HandleCommand | app/components/Terminal.tsx:268-301 | the method makes exactly the `Submit` transition and keeps the cursor in range |
| Terminal.Session.HandleKeyDown | app/components/Terminal.tsx:547-576 | the method makes exactly the `KeyDown` transition and keeps the cursor in range |
| Terminal.Session.HandleInputChange | app/components/Terminal.tsx:578-585 | the method makes exactly the `Change` transition |
| TerminalProofs.OlderN | app/components/Terminal.tsx:550-556 | any number of ArrowUp presses keeps the cursor in range |
| TerminalProofs.NewerN | app/components/Terminal.tsx:557-566 | any number of ArrowDown presses keeps the cursor in range |
| TerminalProofs.OlderNMoves | app/components/Terminal.tsx:550-556 | k presses of ArrowUp move the cursor k back, clamped at the oldest entry, and load the entry under it. Nothing else changes |
| TerminalProofs.NewerNMoves | app/components/Terminal.tsx:557-566 | k presses of ArrowDown move the cursor k forward, stopping at -1 with an empty buffer, and load the entry under it. Nothing else changes |
| TerminalProofs.NavigationRoundTrip | app/components/Terminal.tsx:550-566 | from -1, going all the way up and then all the way down returns to -1 with an empty buffer and nothing else changed |
| TerminalProofs.OlderClampsAtOldest | app/components/Terminal.tsx:550-556 | pressing ArrowUp at least as often as there are entries lands on the oldest entry |
| TerminalProofs.Apply | app/components/Terminal.tsx:547-585 | one typing or key event keeps the cursor in range and can only extend the history |
| TerminalProofs.Replay | app/components/Terminal.tsx:268-301 | over any sequence of events the cursor stays in range and the history only grows at its end, so `clear` included, no entry is ever removed |
| TerminalProofs.CompleteIdempotent | app/components/Terminal.tsx:567-575 | Tab twice is Tab once |
| TerminalProofs.TabAcceptsShownSuggestion | app/components/Terminal.tsx:567-585 | right after typing, Tab puts exactly the displayed suggestion into the buffer, or keeps the text if none is shown |
| TerminalProofs.BlankSubmissionIsRecorded | app/components/Terminal.tsx:292-300 | a blank line renders "Command not found" and is still pushed onto the history |
| TerminalProofs.ParticlesTwice | app/components/Terminal.tsx:278-290 | `particles` twice restores the toggle and adds an "enabled" and a "disabled" entry in the order of the toggle. Nothing else changes |
| TerminalProofs.RepeatRendersSame | app/components/Terminal.tsx:292-300 | submitting the same line twice, other than `clear`, `particles` or `theme`, renders the same entry twice |
| Scenarios.ClearKeepsHistory | components/Terminal.tsx:246-280 | after a command and then a line that normalises to `clear`, the transcript and buffer are empty but the history holds the command |
| Scenarios.HelpListsCommands | components/Terminal.tsx:282-301 | `help` in any case renders the full listing and is recorded as typed |
| Scenarios.RecallLastCommand | components/Terminal.tsx:495-505 | ArrowUp after a submission brings the line back as typed |
| Scenarios.ParticlesOnThenOff | components/Terminal.tsx:257-269 | `particles` twice turns the effect on then off, with matching messages, no history, and the typed buffer kept |
| Scenarios.SuggestAndComplete | components/Terminal.tsx:516-535 | typing a key shows its command and Tab accepts it, while text that is no key shows nothing |
| Scenarios.TabIgnoresSuggestionField | components/Terminal.tsx:516-524 | a key recalled from the history shows no suggestion, yet Tab still completes it |
| Scenarios.AbCompletesToAbout | components/Terminal.tsx:47-56 | "ab" is a key and completes to `about`, so the requirements of `SuggestAndComplete` and `TabIgnoresSuggestionField` can be met |
| Intro.Delay | app/components/Intro.tsx:47 | a tick waits 50 ms while deleting and 100 ms while typing |
| Intro.Step | app/components/Intro.tsx:28-45 | a tick types the next character, or at full length switches to deleting, or deletes the last character, or when empty moves to the next line. It keeps the text a prefix of the current line, and the line counter never decreases and grows by at most one |
| Intro.TicksFrom | app/components/Intro.tsx:14-20 | each remaining line costs at least twice its length plus two ticks |
| Intro.StepCountsDown | app/components/Intro.tsx:28-45 | every tick brings completion exactly one tick closer |
| Intro.Ticks | app/components/Intro.tsx:22-45 | any number of ticks keeps the state consistent and the line counter monotone |
| Intro.DoneAfterRemaining | app/components/Intro.tsx:23-45 | the intro is done after k ticks exactly when k is at least the number of ticks remaining |
| Intro.CompletesFromStart | app/components/Intro.tsx:14-45 | from the start, the intro completes after exactly `TicksFrom(lines, 0)` ticks, not one earlier, with the text cleared |
| Intro.LinesTakeTicks | app/components/Intro.tsx:14-20 | the five lines take 238 ticks |
| Intro.Typewriter.constructor | app/components/Intro.tsx:10-12 | the intro starts with empty text, at the first line, typing |
| Intro.Typewriter.Tick | app/components/Intro.tsx:22-47 | with lines left, a tick waits the typing or deleting delay and makes one `Step`. With none left, it waits 1000 ms and signals completion without changing anything |
| Intro.Typewriter.Run | app/components/Intro.tsx:22-47 | driving the ticks until completion takes `TicksFrom(lines, 0)` transitions and shows every line in full, once and in order, ending with empty text |

## Left out

- The particle canvas is left out. It uses floating-point motion, `Math.random`, `requestAnimationFrame` and the canvas API.
- The system-metrics gauges are left out. They are random floating-point values driven by intervals and window events.
- JSX markup and the static content tables (skills, projects, experience, contact links) are presentation data. Outputs are abstract tags.
- `next-themes` is a foreign library. The current theme is a parameter, and the `setTheme` call is a returned value.
- `async`/`await` in `handleCommand` and React's batching of state updates are left out. Each handler is one synchronous transition of the session.
- Focus and scroll effects, `e.preventDefault()` and `console.log` calls have no effect on the session state.
- components/Intro.tsx is not part of this model. Its behaviour comes from self-rescheduling timers interacting with effect re-runs.
- Intro.Typewriter.Tick: at full length the source waits a further 1000 ms, in a nested timer, before switching to deleting. The model switches at once and reports only the tick's own delay.
- The `onComplete` callback may be scheduled more than once if the parent re-renders. This happens because `lines` is a fresh array in the effect's dependencies. Only the first completion is modelled.
- app/page.tsx is wiring only, and its intro gating is commented out.
- Commands.SuggestionFor: JavaScript prototype keys of the `SUGGESTIONS` object, such as `"constructor"`, are not modelled. The map is exactly its eight entries.
- Text.LowerChar: `toLowerCase` is modelled on ASCII letters and the Kelvin sign only. No other character lowers into ASCII, so every match against the ASCII tables comes out the same. Lower-casings that change length, such as U+0130, are not modelled.
- Terminal.KeyDown: keys other than Enter, ArrowUp, ArrowDown and Tab are one `OtherKey` value. The source ignores all of them alike.
