/** The terminal's command vocabulary and what each command renders: the
    `COMMANDS` and `SUGGESTIONS` tables, `getCommandDescription` and
    `processCommand`, common to app/components/Terminal.tsx and
    components/Terminal.tsx. Rendered output is an abstract tag. */
module Commands {
  import opened Wrappers
  import opened Text

  /** The two copies of the terminal component; they differ, as far as the
      interpreter is concerned, only in one description string. */
  datatype Copy = AppCopy | ComponentsCopy

  datatype Command = Help | About | Skills | Projects | Resume | Contact | Clear | Theme | Particles

  /** `COMMANDS`, in declaration order. */
  const AllCommands: seq<Command> := [Help, About, Skills, Projects, Resume, Contact, Clear, Theme, Particles]

  /** A command's entry in `COMMANDS`, which is also its `case` label. */
  function Name(c: Command): (r: string)
    ensures 4 <= |r| <= 9
  {
    match c
    case Help => "help"
    case About => "about"
    case Skills => "skills"
    case Projects => "projects"
    case Resume => "resume"
    case Contact => "contact"
    case Clear => "clear"
    case Theme => "theme"
    case Particles => "particles"
  }

  /** The command whose name is exactly `text`, if any: the cases of the
      `switch` on the normalised text. */
  function Parse(text: string): (r: Option<Command>)
    ensures r.Some? ==> Name(r.value) == text
  {
    if text == "help" then Some(Help)
    else if text == "about" then Some(About)
    else if text == "skills" then Some(Skills)
    else if text == "projects" then Some(Projects)
    else if text == "resume" then Some(Resume)
    else if text == "contact" then Some(Contact)
    else if text == "clear" then Some(Clear)
    else if text == "theme" then Some(Theme)
    else if text == "particles" then Some(Particles)
    else None
  }

  /** `Parse` finds nothing exactly when no command has the name `text`. */
  lemma ParseFailsOnlyOnNonNames(text: string)
    ensures Parse(text) == None <==> forall c :: Name(c) != text
  {
    if Parse(text) == None {
      forall c ensures Name(c) != text {
        AllCommandsListsEachOnce(c);
      }
    }
  }

  /** Every command is listed in `COMMANDS` exactly once, under a name no
      other command has, and parsing its name gives it back. */
  lemma AllCommandsListsEachOnce(c: Command)
    ensures c in AllCommands
    ensures forall i, j :: 0 <= i < j < |AllCommands| ==> Name(AllCommands[i]) != Name(AllCommands[j])
    ensures Parse(Name(c)) == Some(c)
  {
  }

  /** `SUGGESTIONS`: exactly its eight entries. */
  const Suggestions: map<string, Command> :=
    map["ab" := About, "sk" := Skills, "pro" := Projects, "res" := Resume,
        "con" := Contact, "cl" := Clear, "th" := Theme, "par" := Particles]

  /** `SUGGESTIONS[value.toLowerCase()] || ''`: an exact lookup of the whole
      lower-cased text, with no trimming and no prefix search. */
  function SuggestionFor(value: string): (r: string)
    ensures r != "" <==> Lower(value) in Suggestions
    ensures r != "" ==> r == Name(Suggestions[Lower(value)])
  {
    var key := Lower(value);
    if key in Suggestions then Name(Suggestions[key]) else ""
  }

  /** Every key of `SUGGESTIONS` is a proper prefix of the command name it
      suggests. */
  lemma SuggestionKeysArePrefixes(key: string)
    requires key in Suggestions
    ensures |key| < |Name(Suggestions[key])| && key == Name(Suggestions[key])[..|key|]
  {
    if key == "ab" {} else if key == "sk" {} else if key == "pro" {} else if key == "res" {}
    else if key == "con" {} else if key == "cl" {} else if key == "th" {} else { assert key == "par"; }
  }

  /** Every key of `SUGGESTIONS` is a short word of lower-case letters. */
  lemma SuggestionKeysAreWords(key: string)
    requires key in Suggestions
    ensures 2 <= |key| <= 3 && forall i :: 0 <= i < |key| ==> 'a' <= key[i] <= 'z'
  {
    SuggestionKeysArePrefixes(key);
    var name := Name(Suggestions[key]);
    NameIsLowerCaseWord(Suggestions[key]);
    assert forall i :: 0 <= i < |key| ==> key[i] == name[i];
    SuggestionKeysAreShort();
    assert key in {"ab", "sk", "pro", "res", "con", "cl", "th", "par"};
  }

  /** Every key of `SUGGESTIONS` is lower case, so the lookup of a
      lower-cased text can find each of them. */
  lemma SuggestionKeysAreLowerCase(key: string)
    requires key in Suggestions
    ensures Lower(key) == key
  {
    SuggestionKeysAreWords(key);
    LowerOfLowerCase(key);
  }

  /** A key of `SUGGESTIONS` survives trimming and is neither of the two
      commands the terminal handles itself. */
  lemma SuggestionKeyIsNoCommand(key: string)
    requires key in Suggestions
    ensures Trim(key) == key && key != "clear" && key != "particles"
  {
    SuggestionKeysAreWords(key);
    TrimOfWord(key);
  }

  /** Text made only of lower-case ASCII letters is its own lower case. */
  lemma LowerOfLowerCase(s: string)
    requires forall i :: 0 <= i < |s| ==> 'a' <= s[i] <= 'z'
    ensures Lower(s) == s
  {
    assert forall i :: 0 <= i < |s| ==> Lower(s)[i] == s[i];
  }

  /** Trimming leaves a word that starts and ends with a letter alone. */
  lemma TrimOfWord(s: string)
    requires s != [] && 'a' <= s[0] <= 'z' && 'a' <= s[|s| - 1] <= 'z'
    ensures Trim(s) == s
  {
    assert !IsWhitespace(s[0]) && !IsWhitespace(s[|s| - 1]);
    TrimStartExactly(s, 0);
    assert s[0..] == s;
    TrimEndExactly(s, |s|);
    assert s[..|s|] == s;
  }

  lemma NameIsLowerCaseWord(c: Command)
    ensures |Name(c)| >= 4 && forall i :: 0 <= i < |Name(c)| ==> 'a' <= Name(c)[i] <= 'z'
  {
    match c
    case Help =>
    case About =>
    case Skills =>
    case Projects =>
    case Resume =>
    case Contact =>
    case Clear =>
    case Theme =>
    case Particles =>
  }

  /** A command name is already normalised. */
  lemma {:induction false} NameIsNormal(c: Command)
    ensures Lower(Name(c)) == Name(c) && Trim(Name(c)) == Name(c) && Normalize(Name(c)) == Name(c)
  {
    var n := Name(c);
    NameIsLowerCaseWord(c);
    LowerOfLowerCase(n);
    TrimOfWord(n);
  }

  /** No command name is itself a key of `SUGGESTIONS`, so a completed
      command suggests nothing further. */
  lemma {:induction false} CompletionSuggestsNothing(c: Command)
    ensures SuggestionFor(Name(c)) == ""
  {
    NameIsNormal(c);
    NameIsLowerCaseWord(c);
    SuggestionKeysAreShort();
  }

  /** Every key of `SUGGESTIONS` has at most three characters, fewer than any
      command name. */
  lemma SuggestionKeysAreShort()
    ensures forall key :: key in Suggestions ==> |key| <= 3
  {
  }

  /** Case folds onto a key: "pro" and "PRO" both suggest `projects`. */
  lemma CaseFoldedSuggests(value: string)
    requires value == "pro" || value == "PRO"
    ensures SuggestionFor(value) == "projects"
  {
    var key := Lower(value);
    LowerIsPointwise(value);
    assert key[0] == 'p' && key[1] == 'r' && key[2] == 'o';
    assert key == "pro";
  }

  /** The lookup is exact: a longer text ("proj") and a padded one (" pro")
      suggest nothing. */
  lemma ExtendedOrPaddedSuggestsNothing(value: string)
    requires value == "proj" || value == " pro"
    ensures SuggestionFor(value) == ""
  {
    SuggestionKeysAreShort();
    assert |Lower(value)| == 4;
  }

  /** `getCommandDescription`: total over the command type. The two copies
      word the `contact` description differently. */
  function Description(copy: Copy, c: Command): (r: string)
    ensures r != ""
  {
    match c
    case Help => "Show available commands"
    case About => "Learn about me"
    case Skills => "View my technical skills"
    case Projects => "See my featured projects"
    case Resume => "View my professional experience"
    case Contact => if copy == AppCopy then "Get my contact information" else "View my contact information"
    case Clear => "Clear the terminal"
    case Theme => "Toggle theme (dark/light)"
    case Particles => "Toggle particle effect"
  }

  /** The two copies' descriptions differ for `contact` and for nothing else. */
  lemma DescriptionsDifferOnlyForContact(c: Command)
    ensures Description(AppCopy, c) != Description(ComponentsCopy, c) <==> c == Contact
  {
  }

  /** One card of the `help` listing. */
  datatype HelpLine = HelpLine(name: string, description: string)

  /** `cs.map(cmd => <cmd> - getCommandDescription(cmd))`. */
  function HelpLines(copy: Copy, cs: seq<Command>): (r: seq<HelpLine>)
    ensures |r| == |cs|
    ensures forall i :: 0 <= i < |cs| ==> r[i] == HelpLine(Name(cs[i]), Description(copy, cs[i]))
  {
    if cs == [] then [] else [HelpLine(Name(cs[0]), Description(copy, cs[0]))] + HelpLines(copy, cs[1..])
  }

  /** The `help` listing: every command of `COMMANDS`, once, in declaration
      order, with its description. */
  function HelpListing(copy: Copy): (r: seq<HelpLine>)
    ensures |r| == |AllCommands| == 9
    ensures forall i :: 0 <= i < 9 ==> r[i].name == Name(AllCommands[i]) && r[i].description == Description(copy, AllCommands[i])
  {
    HelpLines(copy, AllCommands)
  }

  /** Every command has its card in the `help` listing. */
  lemma HelpListsEveryCommand(copy: Copy, c: Command)
    ensures exists i :: 0 <= i < |HelpListing(copy)| && HelpListing(copy)[i] == HelpLine(Name(c), Description(copy, c))
  {
    var i := IndexOf(c);
    assert HelpListing(copy)[i] == HelpLine(Name(c), Description(copy, c));
  }

  /** The position of a command in `COMMANDS`. */
  function IndexOf(c: Command): (i: nat)
    ensures i < |AllCommands| && AllCommands[i] == c
  {
    match c
    case Help => 0
    case About => 1
    case Skills => 2
    case Projects => 3
    case Resume => 4
    case Contact => 5
    case Clear => 6
    case Theme => 7
    case Particles => 8
  }

  /** What `processCommand` renders, as a tag. `NoOutput` is its `null`. */
  datatype Output =
    | ShowHelp(lines: seq<HelpLine>)
    | ShowAbout
    | ShowSkills
    | ShowProjects
    | ShowResume
    | ShowContact
    | ThemeSwitched(theme: string)
    | ParticlesMsg(enabled: bool)
    | NotFound
    | NoOutput

  /** The rendered output together with the theme `processCommand` passed to
      `setTheme`, if it did. */
  datatype Processed = Processed(output: Output, setTheme: Option<string>)

  /** The `theme` command's choice: light when the current theme is dark,
      dark otherwise, an unset theme included. */
  function NextTheme(theme: Option<string>): (r: string)
    ensures r == "light" <==> theme == Some("dark")
    ensures r == "light" || r == "dark"
  {
    if theme == Some("dark") then "light" else "dark"
  }

  /** `processCommand(cmd)` with the current theme `theme`: a `switch` on
      `cmd.toLowerCase().trim()`. Each of the five content commands renders
      its own block; `help` renders the listing; `clear` renders nothing;
      only `theme` calls `setTheme`, and it reports the theme it chose. There
      is no case for `particles`: that text falls to the default, "Command
      not found", as does every text that names no command. */
  function Process(copy: Copy, cmd: string, theme: Option<string>): (r: Processed)
    ensures r.setTheme.Some? <==> Normalize(cmd) == "theme"
    ensures Normalize(cmd) == "theme" ==>
              r.setTheme == Some(NextTheme(theme)) && r.output == ThemeSwitched(NextTheme(theme))
    ensures Normalize(cmd) == "help" ==> r.output == ShowHelp(HelpListing(copy))
    ensures Normalize(cmd) == "clear" ==> r.output == NoOutput
    ensures Normalize(cmd) == "about" ==> r.output == ShowAbout
    ensures Normalize(cmd) == "skills" ==> r.output == ShowSkills
    ensures Normalize(cmd) == "projects" ==> r.output == ShowProjects
    ensures Normalize(cmd) == "resume" ==> r.output == ShowResume
    ensures Normalize(cmd) == "contact" ==> r.output == ShowContact
    ensures r.output == NotFound <==> Parse(Normalize(cmd)) in {None, Some(Particles)}
  {
    match Parse(Normalize(cmd))
    case None => Processed(NotFound, None)
    case Some(c) =>
      match c
      case Help => Processed(ShowHelp(HelpListing(copy)), None)
      case Clear => Processed(NoOutput, None)
      case About => Processed(ShowAbout, None)
      case Skills => Processed(ShowSkills, None)
      case Projects => Processed(ShowProjects, None)
      case Contact => Processed(ShowContact, None)
      case Theme =>
        var nextTheme := NextTheme(theme);
        Processed(ThemeSwitched(nextTheme), Some(nextTheme))
      case Resume => Processed(ShowResume, None)
      case Particles => Processed(NotFound, None)
  }

  /** Matching ignores case and surrounding whitespace: a command's name,
      upper-cased in any letters and padded with whitespace, renders as the
      name itself does. */
  lemma {:induction false} ProcessIgnoresCaseAndPadding(copy: Copy, cmd: string, theme: Option<string>, c: Command)
    requires Lower(Trim(cmd)) == Name(c)
    ensures Process(copy, cmd, theme) == Process(copy, Name(c), theme)
  {
    NormalizeCommutes(cmd);
    NameIsNormal(c);
    ProcessSeesOnlyNormalForm(copy, cmd, Name(c), theme);
  }

  /** Two texts with the same normal form render alike. */
  lemma ProcessSeesOnlyNormalForm(copy: Copy, a: string, b: string, theme: Option<string>)
    requires Normalize(a) == Normalize(b)
    ensures Process(copy, a, theme) == Process(copy, b, theme)
  {
  }

  /** The empty line, and whitespace alone, render "Command not found". */
  lemma EmptyIsNotFound(copy: Copy, cmd: string, theme: Option<string>)
    requires forall i :: 0 <= i < |cmd| ==> IsWhitespace(cmd[i])
    ensures Normalize(cmd) == ""
    ensures Process(copy, cmd, theme) == Processed(NotFound, None)
  {
    LowerIsPointwise(cmd);
    TrimStartExactly(Lower(cmd), |cmd|);
  }
}
