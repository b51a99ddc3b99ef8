/**
 * The terminal (`TerminalComponent`): a command table, the interpreter that
 * logs each command and its reply, tab completion over the command names and
 * the history cursor. The `date` command's clock reading is a parameter.
 */
module Terminal {
  import opened Strings
  import opened Wrappers

  /** The prompt's directory part. */
  const Directory: string := "guest@portfolio:~"

  /** One line of the terminal's log; `isCommand` marks the echoed prompt lines. */
  datatype Line = Line(text: string, isCommand: bool)

  /** Which of the table's actions an entry runs (their results are `Action` below). */
  datatype Kind = HelpKind | AboutKind | SkillsKind | ProjectsKind | ContactKind | ClearKind | WhoamiKind
                | DateKind | EchoKind | LsKind | CatKind | PwdKind | MatrixKind | SudoKind | CoffeeKind | RmKind

  /** A table entry. */
  datatype Command = Command(name: string, description: string, action: Kind)

  /** The command table, in declaration order (the order `Object.keys` and `Object.values` give). */
  const Commands: seq<Command> := [
    Command("help", "Show available commands", HelpKind),
    Command("about", "Learn about me", AboutKind),
    Command("skills", "List my technical skills", SkillsKind),
    Command("projects", "Show my projects", ProjectsKind),
    Command("contact", "Get my contact information", ContactKind),
    Command("clear", "Clear the terminal", ClearKind),
    Command("whoami", "Display current user", WhoamiKind),
    Command("date", "Show current date and time", DateKind),
    Command("echo", "Echo a message", EchoKind),
    Command("ls", "List directory contents", LsKind),
    Command("cat", "Display file contents", CatKind),
    Command("pwd", "Print working directory", PwdKind),
    Command("matrix", "???", MatrixKind),
    Command("sudo", "Run as superuser", SudoKind),
    Command("coffee", "Brew some coffee", CoffeeKind),
    Command("rm", "Dangerously remove everything (…or not)", RmKind)
  ]

  function Names(table: seq<Command>): (names: seq<string>)
    ensures |names| == |table|
    ensures forall k :: 0 <= k < |table| ==> names[k] == table[k].name
  {
    seq(|table|, k requires 0 <= k < |table| => table[k].name)
  }

  /** Every name fits the 12-character column of `help`, and none is an inherited property name. */
  lemma SiteTableFacts()
    ensures forall k :: 0 <= k < |Commands| ==> |Commands[k].name| <= 12
    ensures Find(Commands, "constructor").None? && Find(Commands, "__proto__").None?
  {
    ShortNames();
    FindAbsent(Commands, "constructor", 8);
    FindAbsent(Commands, "__proto__", 8);
  }

  lemma ShortNames()
    ensures forall k :: 0 <= k < |Commands| ==> |Commands[k].name| <= 8
  {
  }

  /** A name longer than every entry's is not found. */
  lemma FindAbsent(table: seq<Command>, name: string, bound: nat)
    requires forall k :: 0 <= k < |table| ==> |table[k].name| <= bound
    requires bound < |name|
    ensures Find(table, name).None?
  {
  }

  /** What `about` and `cat about.txt` print. */
  const AboutText: seq<string> := [
    "",
    "👋 Hey! I’m Dmitry — professional bug whisperer, amateur snack enthusiast.",
    "",
    "I turn ☕ into TypeScript and “it works on my machine” into production miracles.",
    "The journey started with innocent curiosity and snowballed into nightly commits,",
    "single-line fixes that break five other things, and the occasional breakthrough 💡.",
    "",
    "When I’m AFK you’ll catch me speed-running the fridge,",
    "sleeping like it’s a competitive sport, or grinding XP in the latest game.",
    "🍔 + 😴 + 🎮 = the holy trinity of happiness.",
    "",
    "Got a crazy idea? Ping me and let’s build it, ship it,",
    "and then refactor it at 3 AM together. 🚀",
    ""
  ]

  /** What `skills` and `cat skills.json` print. */
  const SkillsText: seq<string> := [
    "",
    "🛠️  Technical Skills:",
    "",
    "Languages:",
    "  → JavaScript/TypeScript (Advanced)",
    "  → C/C++ (Advanced)",
    "  → C# (Intermediate)",
    "  → Swift (Learning)",
    "",
    "Frontend:",
    "  → Angular, React, Vue.js",
    "  → Three.js, WebGL, Canvas API",
    "  → CSS3, Scss, Tailwind",
    "",
    "Backend:",
    "  → Node.js, Express",
    "  → REST APIs",
    "",
    "Database:",
    "  → PostgreSQL, MongoDB",
    "",
    "DevOps:",
    "  → Docker",
    "  → CI/CD, GitHub Actions",
    "  → DigitalOcean, AWS",
    ""
  ]

  /** What `projects` prints. */
  const ProjectsText: seq<string> := [
    "",
    "📁 Featured Projects:",
    "",
    "1. Portfolio Website",
    "   → Interactive 3D visualization of portfolio items",
    "   → Built with Three.js and Angular",
    "   → github.com/skyvxl/skyvxl-site",
    "",
    "2. React 3D Constructor",
    "   → A 3D constructor built with React and Three.js",
    "   → not publicly available",
    "Type \"cat projects/[project-name]\" for more details",
    ""
  ]

  /** What `contact` and `cat contact.md` print. */
  const ContactText: seq<string> := [
    "",
    "📫 Get in Touch:",
    "",
    "  Email:    xynth@mail.ru",
    "  GitHub:   github.com/skyvxl",
    "",
    "💬 I'm always open to discussing new opportunities,",
    "   collaborations, or just chatting about tech!",
    "",
    "📍 Location: Earth, Solar System, Milky Way",
    "🕐 Timezone: UTC+3 (but I work across all timezones!)",
    ""
  ]

  /** What `matrix` prints. */
  const MatrixArt: seq<string> := [
    "",
    "╔═══════════════════════════════════════╗",
    "║  You have entered the Matrix...       ║",
    "║                                       ║",
    "║  01001000 01100101 01101100 01101100  ║",
    "║  01101111 00100000 01001110 01100101  ║",
    "║  01101111                             ║",
    "║                                       ║",
    "║  🐇 Follow the white rabbit...        ║",
    "╚═══════════════════════════════════════╝",
    ""
  ]

  /** What `ls` prints. */
  const Listing: seq<string> := [
    "about.txt",
    "skills.json",
    "projects/",
    "contact.md",
    "resume.pdf"
  ]

  /** What `rm` prints. */
  const RmText: seq<string> := [
    "❌ Hah! Nice try, but you can't delete my code that easily!",
    "    Type \"sudo rm -rf /\" if you dare (but I won't let you)!"
  ]

  /** The fixed pages the commands print; the interpreter is stated for any pages. */
  datatype Pages = Pages(about: seq<string>, skills: seq<string>, projects: seq<string>,
                         contact: seq<string>, matrix: seq<string>)

  /** The site's pages. */
  const SitePages: Pages := Pages(AboutText, SkillsText, ProjectsText, ContactText, MatrixArt)

  /** What `sudo` prints. */
  const SudoText: string := "❌ Permission denied. Nice try though! 😉"

  /** What `coffee` prints. */
  const CoffeeText: string := "☕ Brewing coffee... Done! Here's your virtual coffee!"

  /** What `cat resume.pdf` prints. */
  const ResumeText: string := "📄 Opening resume.pdf... (This would download/open the actual file)"

  const HelpFooter: string := "Pro tip: Use TAB for autocomplete and ↑/↓ for command history"

  /** An action's result: one line, or several. */
  datatype Reply = Text(text: string) | Block(lines: seq<string>)

  /** The log lines a reply appends, none of them a command line. */
  function ReplyLines(r: Reply): (lines: seq<Line>)
    ensures r.Text? ==> lines == [Line(r.text, false)]
    ensures r.Block? ==> |lines| == |r.lines|
                         && forall k :: 0 <= k < |lines| ==> lines[k] == Line(r.lines[k], false)
  {
    match r
    case Text(t) => [Line(t, false)]
    case Block(ls) => seq(|ls|, k requires 0 <= k < |ls| => Line(ls[k], false))
  }

  // ----- The table lookup -----

  /** The first entry named `name`, if any. */
  function Find(table: seq<Command>, name: string): (r: Option<Command>)
    ensures r.Some? ==> r.value in table && r.value.name == name
    ensures r.None? ==> forall k :: 0 <= k < |table| ==> table[k].name != name
  {
    if |table| == 0 then None
    else if table[0].name == name then Some(table[0])
    else Find(table[1..], name)
  }

  /** The lower-case names every JavaScript object inherits from `Object.prototype`. */
  const InheritedNames: seq<string> := ["constructor", "__proto__"]

  /** What `this.commands[name]` yields on the plain object holding the table. */
  datatype Entry = Own(command: Command) | Inherited | Absent

  /** The lookup as written: an inherited property is as truthy as an own one. */
  function LookupAsWritten(table: seq<Command>, name: string): (e: Entry)
    ensures Find(table, name).Some? ==> e == Own(Find(table, name).value)
    ensures e.Inherited? <==> Find(table, name).None? && name in InheritedNames
  {
    match Find(table, name)
    case Some(c) => Own(c)
    case None => if name in InheritedNames then Inherited else Absent
  }

  // ----- The pure actions -----

  /** `echo`: the raw input split on spaces, without its first piece, rejoined. */
  function Echo(input: string): string
  {
    Join(Split(input, ' ')[1..], ' ')
  }

  /** `echo <message>` prints the message exactly, spaces and all. */
  lemma EchoPrintsMessage(word: string, message: string)
    requires ' ' !in word
    ensures Echo(word + " " + message) == message
  {
    SplitAfterWord(word, ' ', message);
    assert ([word] + Split(message, ' '))[1..] == Split(message, ' ');
    JoinSplit(message, ' ');
  }

  /** `echo` alone prints an empty line. */
  lemma EchoAlone(word: string)
    requires ' ' !in word
    ensures Echo(word) == ""
  {
    SplitWithoutSeparator(word, ' ');
  }

  /** `catFile`: the first argument of the raw input names the file. */
  function CatFile(pages: Pages, input: string): (r: Reply)
    ensures r.Block? ==> r.lines == pages.about || r.lines == pages.contact || r.lines == pages.skills
  {
    var args := Split(input, ' ')[1..];
    if |args| == 0 then Text("cat: missing file operand")
    else
      var file := args[0];
      if file == "about.txt" then Block(pages.about)
      else if file == "contact.md" then Block(pages.contact)
      else if file == "skills.json" then Block(pages.skills)
      else if file == "resume.pdf" then Text(ResumeText)
      else Text("cat: " + file + ": No such file or directory")
  }

  /** The names `cat` knows. */
  predicate KnownFile(file: string)
  {
    file == "about.txt" || file == "contact.md" || file == "skills.json" || file == "resume.pdf"
  }

  /**
   * `cat` without an argument reports the missing operand; with an unknown
   * file name, however many arguments follow, it names the file in the error.
   */
  lemma CatFileErrors(pages: Pages, word: string, file: string, rest: string)
    requires ' ' !in word && ' ' !in file && !KnownFile(file)
    ensures CatFile(pages, word) == Text("cat: missing file operand")
    ensures CatFile(pages, word + " " + file) == Text("cat: " + file + ": No such file or directory")
    ensures CatFile(pages, word + " " + file + " " + rest) == Text("cat: " + file + ": No such file or directory")
  {
    SplitWithoutSeparator(word, ' ');
    CatArguments(word, file, rest);
  }

  /** After the command word, `cat` sees the file name first, whatever follows it. */
  lemma CatArguments(word: string, file: string, rest: string)
    requires ' ' !in word && ' ' !in file
    ensures Split(word + " " + file, ' ')[1..] == [file]
    ensures var args := Split(word + " " + file + " " + rest, ' ')[1..]; |args| >= 1 && args[0] == file
  {
    SplitAfterWord(word, ' ', file);
    SplitWithoutSeparator(file, ' ');
    assert ([word] + [file])[1..] == [file];
    SplitAfterWord(word, ' ', file + " " + rest);
    SplitAfterWord(file, ' ', rest);
    assert word + " " + file + " " + rest == word + [' '] + (file + [' '] + rest);
  }

  /** `cat about.txt` prints the same lines as `about`. */
  lemma CatAboutIsAbout(pages: Pages, word: string)
    requires ' ' !in word
    ensures CatFile(pages, word + " " + "about.txt") == Block(pages.about)
  {
    var file := "about.txt";
    assert ' ' !in file;
    CatArguments(word, file, "");
  }

  /** One `help` line: two spaces, the name padded to 12, a dash, the description. */
  function HelpEntry(c: Command): (line: string)
    ensures |c.name| <= 12 ==> |line| == 17 + |c.description|
    ensures |c.name| > 12 ==> |line| == 5 + |c.name| + |c.description|
  {
    "  " + PadEnd(c.name, 12) + " - " + c.description
  }

  /** `showHelp`'s result: two header lines, one line per table entry in order, two trailer lines. */
  function HelpText(table: seq<Command>): (lines: seq<string>)
    ensures |lines| == |table| + 4
  {
    ["Available commands:", ""] + seq(|table|, k requires 0 <= k < |table| => HelpEntry(table[k])) + ["", HelpFooter]
  }

  /**
   * The help lines form a table: every entry line shows its command's name
   * from column 2, the dash at column 14 and the description from column 17.
   */
  lemma HelpColumns(table: seq<Command>, k: nat)
    requires k < |table| && |table[k].name| <= 12
    ensures var line := HelpText(table)[k + 2];
            var c := table[k];
            |line| == 17 + |c.description|
            && line[..2] == "  " && line[2..2 + |c.name|] == c.name
            && (forall i :: 2 + |c.name| <= i < 14 ==> line[i] == ' ')
            && line[14..17] == " - " && line[17..] == c.description
  {
    var c := table[k];
    var pad := PadEnd(c.name, 12);
    var line := "  " + pad + " - " + c.description;
    assert HelpText(table)[k + 2] == line;
    assert line[2..14] == pad;
    assert line[2..2 + |c.name|] == pad[..|c.name|];
    assert line[14..17] == " - ";
    assert line[17..] == c.description;
  }

  /** The reply of the table entry named `name` to the raw input. */
  function Action(table: seq<Command>, pages: Pages, action: Kind, input: string, date: string): Reply
  {
    match action
    case HelpKind => Block(HelpText(table))
    case AboutKind => Block(pages.about)
    case SkillsKind => Block(pages.skills)
    case ProjectsKind => Block(pages.projects)
    case ContactKind => Block(pages.contact)
    case ClearKind => Text("")
    case WhoamiKind => Text("guest")
    case DateKind => Text(date)
    case EchoKind => Text(Echo(input))
    case LsKind => Block(Listing)
    case CatKind => CatFile(pages, input)
    case PwdKind => Text("/home/guest/portfolio")
    case MatrixKind => Block(pages.matrix)
    case SudoKind => Text(SudoText)
    case CoffeeKind => Text(CoffeeText)
    case RmKind => Block(RmText)
  }

  // ----- The interpreter -----

  /** The component's state: input line, log, history, history cursor and completion list. */
  datatype Session = Session(input: string, output: seq<Line>, history: seq<string>,
                             historyIndex: int, suggestions: seq<string>)

  function Prompt(command: string): string
  {
    Directory + "$ " + command
  }

  function NotFound(cmd: string): string
  {
    "Command not found: " + cmd + ". Type \"help\" for available commands."
  }

  /** The prompt line and the history entry every non-blank command leaves. */
  function Logged(st: Session, command: string): (r: Session)
    ensures r == st.(output := r.output, history := r.history, historyIndex := r.historyIndex)
  {
    st.(output := st.output + [Line(Prompt(command), true)], history := st.history + [command],
        historyIndex := |st.history| + 1)
  }

  /** The reply part of `executeCommand`, on the logged state; `clear` empties the log before its reply. */
  function Dispatch(table: seq<Command>, pages: Pages, st: Session, cmd: string, found: Option<Command>, date: string): (r: Session)
    ensures r == st.(input := "", output := r.output, suggestions := [])
  {
    var output := match found
      case Some(c) => (if c.action == ClearKind then [] else st.output) + ReplyLines(Action(table, pages, c.action, st.input, date))
      case None => st.output + [Line(NotFound(cmd), false)];
    st.(input := "", output := output, suggestions := [])
  }

  /** The first space-separated piece of the trimmed command, in its original case. */
  function Head(command: string): string
  {
    Split(command, ' ')[0]
  }

  /** `executeCommand`, with the table lookup restricted to the table's own names. */
  function Execute(table: seq<Command>, pages: Pages, st: Session, date: string): (r: Session)
    ensures r == st <==> Blank(st.input)
    ensures r.history == st.history || r.history == st.history + [Trim(st.input)]
  {
    TrimEmptyIffBlank(st.input);
    var command := Trim(st.input);
    if command == "" then st
    else Dispatch(table, pages, Logged(st, command), Head(command), Find(table, ToLower(Head(command))), date)
  }

  /** A blank input changes nothing; any other input is recorded and clears the input line and the suggestions. */
  lemma ExecuteRecords(table: seq<Command>, pages: Pages, st: Session, date: string)
    ensures var r := Execute(table, pages, st, date);
            var command := Trim(st.input);
            (Blank(st.input) ==> r == st)
            && (!Blank(st.input) ==> r.history == st.history + [command] && r.historyIndex == |r.history|
                                     && r.input == "" && r.suggestions == [] && command != "")
  {
    TrimEmptyIffBlank(st.input);
  }

  /**
   * Apart from `clear`, a command's log keeps the old log, then the prompt
   * line with the trimmed command, then the reply; a command found under its
   * lower-cased first word replies with that entry's action on the raw input.
   */
  lemma ExecuteLogs(table: seq<Command>, pages: Pages, st: Session, date: string)
    requires !Blank(st.input)
    ensures var r := Execute(table, pages, st, date);
            var command := Trim(st.input);
            var c := Find(table, ToLower(Head(command)));
            (c.Some? && c.value.action == ClearKind ==> r.output == [Line("", false)])
            && (!(c.Some? && c.value.action == ClearKind) ==>
                  |r.output| > |st.output| && r.output[..|st.output|] == st.output
                  && r.output[|st.output|] == Line(Prompt(command), true))
            && (c.Some? && c.value.action != ClearKind ==>
                  r.output == st.output + [Line(Prompt(command), true)]
                              + ReplyLines(Action(table, pages, c.value.action, st.input, date)))
  {
    TrimEmptyIffBlank(st.input);
    var command := Trim(st.input);
    var logged := Logged(st, command);
    var found := Find(table, ToLower(Head(command)));
    assert Execute(table, pages, st, date) == Dispatch(table, pages, logged, Head(command), found, date);
    DispatchOutput(table, pages, logged, Head(command), found, date);
    assert logged.output[..|st.output|] == st.output;
    if found.Some? && found.value.action != ClearKind {
      assert logged.input == st.input && logged.output == st.output + [Line(Prompt(command), true)];
    }
  }

  /** The reply's log: `clear` leaves its one empty line, anything else extends the log it was given. */
  lemma DispatchOutput(table: seq<Command>, pages: Pages, st: Session, cmd: string, found: Option<Command>, date: string)
    ensures var r := Dispatch(table, pages, st, cmd, found, date);
            (found.Some? && found.value.action == ClearKind ==> r.output == [Line("", false)])
            && (!(found.Some? && found.value.action == ClearKind) ==>
                  |r.output| >= |st.output| && r.output[..|st.output|] == st.output)
  {
  }

  /** An unknown command gets one error line naming it as typed, in its original case. */
  lemma ExecuteUnknown(table: seq<Command>, pages: Pages, st: Session, date: string)
    requires !Blank(st.input)
    requires Find(table, ToLower(Head(Trim(st.input)))).None?
    ensures Execute(table, pages, st, date).output
         == st.output + [Line(Prompt(Trim(st.input)), true), Line(NotFound(Head(Trim(st.input))), false)]
  {
    TrimEmptyIffBlank(st.input);
  }

  /** What `executeCommand` as written ends in: it returns, or throws partway through. */
  datatype Run = Finished(state: Session) | Threw(state: Session)

  /**
   * `executeCommand` as written: an inherited property found by the lookup
   * has no `action`, so calling it throws after the prompt line and the
   * history entry were added, leaving the input line and the suggestions.
   */
  function ExecuteAsWritten(table: seq<Command>, pages: Pages, st: Session, date: string): (r: Run)
    ensures r.Threw? ==> r.state.input == st.input && |r.state.history| == |st.history| + 1
  {
    var command := Trim(st.input);
    if command == "" then Finished(st)
    else AfterLookup(table, pages, st, command, LookupAsWritten(table, ToLower(Head(command))), date)
  }

  /** The rest of `executeCommand` once the plain-object lookup has answered `entry`. */
  function AfterLookup(table: seq<Command>, pages: Pages, st: Session, command: string, entry: Entry, date: string): (r: Run)
    ensures r.Threw? <==> entry.Inherited?
    ensures r.Threw? ==> r.state == Logged(st, command)
  {
    match entry
    case Own(c) => Finished(Dispatch(table, pages, Logged(st, command), Head(command), Some(c), date))
    case Inherited => Threw(Logged(st, command))
    case Absent => Finished(Dispatch(table, pages, Logged(st, command), Head(command), None, date))
  }

  /** Every input whose first word is not an inherited name runs as intended. */
  lemma AsWrittenAgreesOffPrototype(table: seq<Command>, pages: Pages, st: Session, date: string)
    requires ToLower(Head(Trim(st.input))) !in InheritedNames
    ensures ExecuteAsWritten(table, pages, st, date) == Finished(Execute(table, pages, st, date))
  {
  }

  /** A command whose first word is an inherited name and not in the table throws as written. */
  lemma InheritedThrows(table: seq<Command>, pages: Pages, st: Session, date: string)
    requires ToLower(Head(Trim(st.input))) in InheritedNames
    requires Find(table, ToLower(Head(Trim(st.input)))).None?
    ensures ExecuteAsWritten(table, pages, st, date) == Threw(Logged(st, Trim(st.input)))
  {
    var command := Trim(st.input);
    var name := ToLower(Head(command));
    InheritedNotEmpty(command);
    LookupInherited(table, name);
    AsWrittenSplits(table, pages, st, date);
  }

  /** The as-written lookup of an inherited name the table lacks yields the inherited property. */
  lemma LookupInherited(table: seq<Command>, name: string)
    requires name in InheritedNames && Find(table, name).None?
    ensures LookupAsWritten(table, name) == Inherited
  {
  }

  /** A non-blank command reaches the lookup. */
  lemma AsWrittenSplits(table: seq<Command>, pages: Pages, st: Session, date: string)
    requires Trim(st.input) != ""
    ensures ExecuteAsWritten(table, pages, st, date)
         == AfterLookup(table, pages, st, Trim(st.input), LookupAsWritten(table, ToLower(Head(Trim(st.input)))), date)
  {
  }

  /** An empty command has no inherited first word. */
  lemma InheritedNotEmpty(command: string)
    requires ToLower(Head(command)) in InheritedNames
    ensures command != ""
  {
  }

  /** Typing `constructor` throws as written, where the intended lookup answers "Command not found". */
  lemma ConstructorThrows(table: seq<Command>, pages: Pages, st: Session, date: string)
    requires st.input == "constructor" && Find(table, "constructor").None?
    ensures ExecuteAsWritten(table, pages, st, date).Threw?
    ensures ExecuteAsWritten(table, pages, st, date).state.input == "constructor"
    ensures Execute(table, pages, st, date).output
         == st.output + [Line(Prompt("constructor"), true), Line(NotFound("constructor"), false)]
  {
    TrimConstructor();
    HeadConstructor();
    LowerConstructor();
    InheritedThrows(table, pages, st, date);
    assert !Blank(st.input);
    ExecuteUnknown(table, pages, st, date);
  }

  lemma TrimConstructor()
    ensures Trim("constructor") == "constructor"
  {
    TrimKeepsUnpadded("constructor");
  }

  lemma HeadConstructor()
    ensures Head("constructor") == "constructor"
  {
    SplitWithoutSeparator("constructor", ' ');
  }

  lemma LowerConstructor()
    ensures ToLower("constructor") == "constructor"
  {
    ToLowerFixesLowerCase("constructor");
  }

  // ----- Completion and history -----

  /** The names among `names` that start with `prefix`, in order. */
  function Matching(names: seq<string>, prefix: string): (r: seq<string>)
    ensures |r| <= |names|
    ensures forall k :: 0 <= k < |r| ==> r[k] in names && StartsWith(r[k], prefix)
  {
    if |names| == 0 then []
    else (if StartsWith(names[0], prefix) then [names[0]] else []) + Matching(names[1..], prefix)
  }

  /** Every name that starts with the prefix is among the matches. */
  lemma {:induction false} MatchingComplete(names: seq<string>, prefix: string, n: string)
    requires n in names && StartsWith(n, prefix)
    ensures n in Matching(names, prefix)
  {
    if names[0] != n {
      MatchingComplete(names[1..], prefix, n);
    }
  }

  /** `autocomplete` on the lower-cased input. */
  function Complete(table: seq<Command>, st: Session): (r: Session)
    ensures r == st.(input := r.input, suggestions := r.suggestions)
    ensures r.input == st.input || r.input in Names(table)
  {
    var input := ToLower(st.input);
    if input == "" then st.(suggestions := Names(table))
    else
      var m := Matching(Names(table), input);
      if |m| == 1 then st.(input := m[0], suggestions := [])
      else if |m| > 1 then st.(suggestions := m)
      else st
  }

  /**
   * Completion: an empty input lists every name; a prefix of exactly one
   * name becomes that name; a prefix of several leaves the input and lists
   * them; a prefix of none changes nothing.
   */
  lemma AutocompleteCases(table: seq<Command>, st: Session)
    ensures var r := Complete(table, st);
            var input := ToLower(st.input);
            var m := Matching(Names(table), input);
            (input == "" ==> r == st.(suggestions := Names(table)))
            && (input != "" && |m| == 1 ==>
                  r.suggestions == [] && r.input in Names(table) && StartsWith(r.input, input)
                  && forall n :: n in Names(table) && StartsWith(n, input) ==> n == r.input)
            && (input != "" && |m| > 1 ==> r.input == st.input && r.suggestions == m)
            && (input != "" && |m| == 0 ==>
                  r == st && forall n :: n in Names(table) ==> !StartsWith(n, input))
  {
    var input := ToLower(st.input);
    var m := Matching(Names(table), input);
    forall n | n in Names(table) && StartsWith(n, input)
      ensures n in m
    {
      MatchingComplete(Names(table), input, n);
    }
  }

  /** `navigateHistory(direction)`: move and clamp the cursor, and show that entry, or nothing past the end. */
  function Navigate(st: Session, direction: int): (r: Session)
    ensures r == st.(input := r.input, historyIndex := r.historyIndex)
    ensures r.input == "" || r.input == st.input || r.input in st.history
  {
    if |st.history| == 0 then st
    else
      var moved := st.historyIndex + direction;
      var index := if moved < 0 then 0 else if moved > |st.history| then |st.history| else moved;
      st.(historyIndex := index, input := if index < |st.history| then st.history[index] else "")
  }

  /** With some history, the cursor lands in `[0, |history|]` and the input shows its entry, or is empty at the end. */
  lemma NavigateHistoryBounds(st: Session, direction: int)
    ensures var r := Navigate(st, direction);
            (|st.history| == 0 ==> r == st)
            && (|st.history| > 0 ==>
                  0 <= r.historyIndex <= |st.history|
                  && (r.historyIndex < |st.history| ==> r.input == st.history[r.historyIndex])
                  && (r.historyIndex == |st.history| ==> r.input == "")
                  && (0 <= st.historyIndex + direction <= |st.history| ==> r.historyIndex == st.historyIndex + direction))
  {
  }

  // ----- The component -----

  class TerminalComponent {
    var currentCommand: string
    var output: seq<Line>
    var commandHistory: seq<string>
    var historyIndex: int
    var suggestions: seq<string>
    /** The command table. */
    const commands: seq<Command>
    /** The pages the commands print. */
    const pages: Pages

    ghost function Snap(): Session
      reads this
    {
      Session(currentCommand, output, commandHistory, historyIndex, suggestions)
    }

    constructor ()
      ensures Snap() == Session("", [], [], -1, []) && commands == Commands && pages == SitePages
    {
      currentCommand, output, commandHistory, historyIndex, suggestions := "", [], [], -1, [];
      commands, pages := Commands, SitePages;
    }

    method ExecuteCommand(date: string)
      modifies this
      ensures Snap() == Execute(commands, pages, old(Snap()), date)
    {
      var command := Trim(currentCommand);
      if command == "" {
        return;
      }
      var cmd := Head(command);
      var found := Find(commands, ToLower(cmd));
      LogCommand(command);
      Respond(cmd, found, date);
    }

    /** The prompt line and the history entry. */
    method LogCommand(command: string)
      modifies this
      ensures Snap() == Logged(old(Snap()), command)
    {
      output := output + [Line(Prompt(command), true)];
      commandHistory := commandHistory + [command];
      historyIndex := |commandHistory|;
    }

    /** The reply, or the error line for an unknown command; then the input line and suggestions are cleared. */
    method Respond(cmd: string, found: Option<Command>, date: string)
      modifies this
      ensures Snap() == Dispatch(commands, pages, old(Snap()), cmd, found, date)
    {
      if found.Some? {
        var result := RunAction(found.value.action, date);
        output := output + ReplyLines(result);
      } else {
        output := output + [Line(NotFound(cmd), false)];
      }
      currentCommand := "";
      suggestions := [];
    }

    /** Calls the entry's action; `clear` empties the log. */
    method RunAction(action: Kind, date: string) returns (r: Reply)
      modifies this
      ensures r == Action(commands, pages, action, currentCommand, date)
      ensures action == ClearKind ==> Snap() == old(Snap()).(output := [])
      ensures action != ClearKind ==> unchanged(this)
    {
      match action
      case HelpKind =>
        var lines := ShowHelp();
        r := Block(lines);
      case ClearKind =>
        r := ClearTerminal();
      case _ =>
        r := Action(commands, pages, action, currentCommand, date);
    }

    /** `showHelp`: the header, one pushed line per table entry, the trailer. */
    method ShowHelp() returns (lines: seq<string>)
      ensures lines == HelpText(commands)
    {
      lines := ["Available commands:", ""];
      var k := 0;
      while k < |commands|
        invariant 0 <= k <= |commands|
        invariant |lines| == k + 2
        invariant lines[..2] == ["Available commands:", ""]
        invariant forall j :: 0 <= j < k ==> lines[j + 2] == HelpEntry(commands[j])
      {
        lines := lines + [HelpEntry(commands[k])];
        k := k + 1;
      }
      lines := lines + ["", HelpFooter];
    }

    method ClearTerminal() returns (r: Reply)
      modifies this
      ensures r == Text("")
      ensures Snap() == old(Snap()).(output := [])
    {
      output := [];
      r := Text("");
    }

    method Autocomplete()
      modifies this
      ensures Snap() == Complete(commands, old(Snap()))
    {
      var input := ToLower(currentCommand);
      if input == "" {
        suggestions := Names(commands);
      } else {
        var m := Matching(Names(commands), input);
        if |m| == 1 {
          currentCommand := m[0];
          suggestions := [];
        } else if |m| > 1 {
          suggestions := m;
        }
      }
    }

    method NavigateHistory(direction: int)
      modifies this
      ensures Snap() == Navigate(old(Snap()), direction)
    {
      if |commandHistory| == 0 {
        return;
      }
      historyIndex := historyIndex + direction;
      historyIndex := if historyIndex < 0 then 0 else if historyIndex > |commandHistory| then |commandHistory| else historyIndex;
      if historyIndex < |commandHistory| {
        currentCommand := commandHistory[historyIndex];
      } else {
        currentCommand := "";
      }
    }
  }
}
