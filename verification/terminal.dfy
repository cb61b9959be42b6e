/** The terminal lookalike: a toy shell over a fixed, read-only file tree. A
    submitted line is trimmed, split on single spaces and dispatched on its
    lower-cased first word to `ls`/`dir`, `cd`, `cat`, `clear`, `pwd`, `help`,
    `download` or `exit`; the input box also recalls earlier lines with the
    arrow keys and completes command and file names with Tab. The current
    directory is kept as the prompt string ("~", "~/features", ...), as the
    component keeps it. */
module Terminal {
  import opened Options
  import opened Text
  import Content

  // ---------------------------------------------------------------------
  // The file tree

  /** The files of the tree. A file node names its file; `FileText` gives the
      text it holds, so that reasoning about paths never has to look at the
      (long) texts themselves. */
  datatype File =
    | ReadmeMd | AboutTxt
    | IdeaToActionMd | AiEngineerMd | QualityMd | ScaleMd
    | MacosSh | LinuxSh | WindowsBat

  /** A file or a directory (its entries, in insertion order). */
  datatype Node = Leaf(file: File) | Dir(entries: seq<(string, Node)>)

  const ReadmeText: string :=
    "# " + Content.Title + "\n\n" + Content.Subtitle + "\n\n_" + Content.Tagline + "_"

  function FeatureText(s: Content.Section): string {
    "# " + s.title + "\n\n" + s.description
  }

  const AboutText: string := "Cursor is an AI-first code editor that helps you build software faster."

  const MacosScript: string :=
    "#!/bin/bash\necho \"Downloading Cursor for MacOS...\"\necho \"" + Content.Cta + "\"\n# This would be the actual download script"

  const LinuxScript: string :=
    "#!/bin/bash\necho \"Downloading Cursor for Linux...\"\n# This would be the actual download script"

  const WindowsScript: string :=
    "@echo off\necho \"Downloading Cursor for Windows...\"\nREM This would be the actual download script"

  /** The text each file holds. */
  function FileText(f: File): string {
    match f
    case ReadmeMd => ReadmeText
    case AboutTxt => AboutText
    case IdeaToActionMd => FeatureText(Content.Section1)
    case AiEngineerMd => FeatureText(Content.Section2)
    case QualityMd => FeatureText(Content.Section3)
    case ScaleMd => FeatureText(Content.Section4)
    case MacosSh => MacosScript
    case LinuxSh => LinuxScript
    case WindowsBat => WindowsScript
  }

  /** The number of characters of each file's text. */
  function FileSize(f: File): nat {
    match f
    case ReadmeMd => 62
    case AboutTxt => 71
    case IdeaToActionMd => 278
    case AiEngineerMd => 265
    case QualityMd => 288
    case ScaleMd => 285
    case MacosSh => 119
    case LinuxSh => 93
    case WindowsBat => 95
  }

  /** The directory "~/features". */
  const Features: Node := Dir([
    ("01_idea_to_action.md", Leaf(IdeaToActionMd)),
    ("02_ai_engineer.md", Leaf(AiEngineerMd)),
    ("03_quality.md", Leaf(QualityMd)),
    ("04_scale.md", Leaf(ScaleMd))])

  /** The directory "~/download". */
  const Downloads: Node := Dir([
    ("macos.sh", Leaf(MacosSh)),
    ("linux.sh", Leaf(LinuxSh)),
    ("windows.bat", Leaf(WindowsBat))])

  /** The home directory "~", the root of the tree. */
  const Home: Node := Dir([
    ("README.md", Leaf(ReadmeMd)),
    ("about.txt", Leaf(AboutTxt)),
    ("features", Features),
    ("download", Downloads)])

  /** The entry called `name` among `entries`, if there is one. */
  function Lookup(entries: seq<(string, Node)>, name: string): (r: Option<Node>)
    ensures r.Some? ==> (name, r.value) in entries
    ensures r.None? ==> forall i :: 0 <= i < |entries| ==> entries[i].0 != name
  {
    if entries == [] then None
    else if entries[0].0 == name then Some(entries[0].1)
    else Lookup(entries[1..], name)
  }

  /** `curr[name]` when it is truthy. Every entry of the tree is truthy (a
      directory object, or a file whose text is not empty: `FileTextNonEmpty`),
      so this is the entry called `name`. Looking a name up inside a file
      fails (see README: JavaScript would index the string's characters). */
  function Child(n: Node, name: string): (r: Option<Node>)
    ensures r.Some? ==> n.Dir? && (name, r.value) in n.entries
    ensures r.None? ==> n.Leaf? || forall i :: 0 <= i < |n.entries| ==> n.entries[i].0 != name
  {
    match n
    case Leaf(_) => None
    case Dir(es) => Lookup(es, name)
  }

  /** The lookup loop of `getCurrentDir` and `getFile`: follow each segment,
      giving up at the first one that is not there. */
  function Walk(n: Node, parts: seq<string>): Option<Node>
    decreases |parts|
  {
    if parts == [] then Some(n)
    else
      match Child(n, parts[0])
      case Some(c) => Walk(c, parts[1..])
      case None => None
  }

  /** The lookup loop of `cd` for an absolute path: every segment must name a
      directory. */
  predicate WalkDirs(n: Node, parts: seq<string>)
    decreases |parts|
  {
    parts == [] ||
    match Child(n, parts[0])
    case Some(c) => c.Dir? && WalkDirs(c, parts[1..])
    case None => false
  }

  /** `xs.filter(Boolean)` on strings: drop the empty ones. */
  function NonEmpty(xs: seq<string>): (r: seq<string>)
    ensures forall i :: 0 <= i < |r| ==> r[i] != ""
    ensures |r| <= |xs|
  {
    if xs == [] then []
    else if xs[0] == "" then NonEmpty(xs[1..])
    else [xs[0]] + NonEmpty(xs[1..])
  }

  /** `xs.filter((p) => p && p !== "~")`. */
  function NonHome(xs: seq<string>): (r: seq<string>)
    ensures forall i :: 0 <= i < |r| ==> r[i] != "" && r[i] != "~"
  {
    if xs == [] then []
    else if xs[0] == "" || xs[0] == "~" then NonHome(xs[1..])
    else [xs[0]] + NonHome(xs[1..])
  }

  /** `path.split("/").filter(Boolean)`. */
  function Segments(path: string): seq<string> {
    NonEmpty(Split(path, '/'))
  }

  /** `getCurrentDir()`: the node the prompt string names, walked from home. */
  function CurrentDir(currentDir: string): Option<Node> {
    Walk(Home, NonHome(Split(currentDir, '/')))
  }

  /** A path the component treats as absolute. */
  predicate IsAbsolute(path: string) {
    "~" <= path || "/" <= path
  }

  /** `path.replace(/^~\/|^\//, "")`: one leading "~/" or "/" removed. */
  function CleanPath(path: string): (r: string)
    ensures "~/" <= path ==> path == "~/" + r
    ensures !("~/" <= path) && "/" <= path ==> path == "/" + r
    ensures !("~/" <= path) && !("/" <= path) ==> r == path
  {
    if "~/" <= path then path[2..] else if "/" <= path then path[1..] else path
  }

  /** `getFile(path)`. */
  function GetFile(currentDir: string, path: string): Option<Node> {
    if IsAbsolute(path) then Walk(Home, Segments(CleanPath(path)))
    else
      match CurrentDir(currentDir)
      case None => None
      case Some(dir) =>
        match Child(dir, path)
        case Some(f) => Some(f)
        case None => Walk(dir, Segments(path))
  }

  // ---------------------------------------------------------------------
  // Output

  /** How `cat` renders one line of a markdown file. */
  datatype MdLine = Heading1(text: string) | Heading2(text: string) | Italic(text: string) | Break | Paragraph(text: string)

  /** What a command prints below its line: nothing, a listing (names, and
      whether each is a directory), a red error message, a file's contents
      (rendered line by line by `RenderMarkdown` when `markdown` is set, else
      its raw text), plain text, the help text `HelpText`, or the download
      notice with its call to action. */
  datatype Output =
    | Blank
    | Listing(names: seq<(string, bool)>)
    | Error(message: string)
    | Contents(file: File, markdown: bool)
    | Plain(text: string)
    | HelpMessage
    | DownloadNotice(cta: string)

  /** One transcript entry: the line as typed and what it printed. */
  datatype Entry = Entry(command: string, output: Output)

  const Welcome: Entry := Entry("", Plain("Welcome to Cursor Terminal v1.0.0\nType 'help' to see available commands"))

  const HelpText: string :=
    "\nAvailable commands:\n  ls, dir     - List directory contents\n  cd <dir>    - Change directory\n  cat <file>  - View file contents\n  clear       - Clear the terminal\n  pwd         - Print working directory\n  help        - Show this help message\n  download    - Download Cursor\n  exit        - Exit the terminal (or type ESC)\n"

  const Goodbye: string := "Goodbye! Press ESC to exit."

  /** The markdown classifier, tried in order: "# ", "## ", wrapped in
      underscores, empty, anything else. For a line that is a single "_",
      `substring(1, 0)` swaps its bounds and yields "_". */
  function ClassifyLine(line: string): MdLine {
    if "# " <= line then Heading1(line[2..])
    else if "## " <= line then Heading2(line[3..])
    else if "_" <= line && EndsWith(line, "_") then
      Italic(if |line| >= 2 then line[1..|line| - 1] else line)
    else if line == "" then Break
    else Paragraph(line)
  }

  /** The markdown source a rendered line stands for: the inverse of the classifier. */
  function LineSource(m: MdLine): string {
    match m
    case Heading1(t) => "# " + t
    case Heading2(t) => "## " + t
    case Italic(t) => "_" + t + "_"
    case Break => ""
    case Paragraph(t) => t
  }

  function RenderMarkdown(text: string): (r: seq<MdLine>)
    ensures |r| == |Split(text, '\n')|
  {
    var lines := Split(text, '\n');
    seq(|lines|, i requires 0 <= i < |lines| => ClassifyLine(lines[i]))
  }

  /** `Object.keys(dir)` with `typeof dir[k] === "object"`; for a file JavaScript
      lists its character indices. */
  function Keys(n: Node): (r: seq<(string, bool)>)
    ensures n.Dir? ==> |r| == |n.entries| && forall i :: 0 <= i < |r| ==> r[i].0 == n.entries[i].0 && (r[i].1 <==> n.entries[i].1.Dir?)
  {
    match n
    case Dir(es) => seq(|es|, i requires 0 <= i < |es| => (es[i].0, es[i].1.Dir?))
    case Leaf(f) => seq(FileSize(f), i requires 0 <= i < FileSize(f) => (NatToString(i), false))
  }

  // ---------------------------------------------------------------------
  // Commands

  /** The words of a line: the lower-cased command name and the arguments. */
  datatype Parsed = Parsed(name: string, args: seq<string>)

  function Parse(cmd: string): Parsed {
    var parts := Split(Trim(cmd), ' ');
    Parsed(Lower(parts[0]), parts[1..])
  }

  /** `args[0]`, with a missing argument read as the (equally falsy) empty string. */
  function FirstArg(p: Parsed): string {
    if |p.args| > 0 then p.args[0] else ""
  }

  /** What a command does: what it prints and the directory afterwards. */
  datatype Effect = Effect(output: Output, currentDir: string)

  /** `ls` and `dir`. */
  function List(currentDir: string): Output {
    match CurrentDir(currentDir)
    case Some(n) => Listing(Keys(n))
    case None => Error("Directory not found")
  }

  /** `cd <arg>`. */
  function ChangeDir(currentDir: string, arg: string): Effect {
    if arg == "" then Effect(Blank, "~")
    else if arg == ".." then
      var ps := NonEmpty(Split(currentDir, '/'));
      if |ps| > 0 && ps[0] != "~" then Effect(Blank, "~/" + Join(ps[..|ps| - 1], '/'))
      else Effect(Blank, "~")
    else if IsAbsolute(arg) then
      var clean := CleanPath(arg);
      if WalkDirs(Home, Segments(clean)) then Effect(Blank, if "~" <= arg then arg else "~/" + clean)
      else Effect(Error("Directory not found: " + arg), currentDir)
    else
      match CurrentDir(currentDir)
      case Some(dir) =>
        (match Child(dir, arg)
         case Some(Dir(_)) =>
           Effect(Blank, if currentDir == "~" then "~/" + arg else currentDir + "/" + arg)
         case _ => Effect(Error("Directory not found: " + arg), currentDir))
      case None => Effect(Error("Directory not found: " + arg), currentDir)
  }

  /** `cat <arg>`. */
  function CatFile(currentDir: string, arg: string): Output {
    if arg == "" then Error("Usage: cat <filename>")
    else
      match GetFile(currentDir, arg)
      case Some(Leaf(f)) => Contents(f, EndsWith(arg, ".md"))
      case _ => Error("File not found: " + arg)
  }

  /** The command names the interpreter knows, in the order Tab completion tries them. */
  const CommandNames: seq<string> := ["ls", "dir", "cd", "cat", "clear", "pwd", "help", "download", "exit"]

  /** The cases of the `switch` of `executeCommand`, `ls` and `dir` sharing one. */
  datatype Command = Ls | Cd | Cat | Clear | Pwd | Help | Download | Exit | NoCommand | Unknown

  function CommandOf(name: string): (c: Command)
    ensures c == Cd <==> name == "cd"
    ensures c == NoCommand <==> name == ""
    ensures c == Unknown <==> name !in CommandNames && name != ""
  {
    if name == "ls" || name == "dir" then Ls
    else if name == "cd" then Cd
    else if name == "cat" then Cat
    else if name == "clear" then Clear
    else if name == "pwd" then Pwd
    else if name == "help" then Help
    else if name == "download" then Download
    else if name == "exit" then Exit
    else if name == "" then NoCommand
    else Unknown
  }

  /** The `switch` of `executeCommand`. */
  function Interpret(currentDir: string, p: Parsed): Effect {
    var arg := FirstArg(p);
    match CommandOf(p.name)
    case Ls => Effect(List(currentDir), currentDir)
    case Cd => ChangeDir(currentDir, arg)
    case Cat => Effect(CatFile(currentDir, arg), currentDir)
    case Clear => Effect(Blank, currentDir)
    case Pwd => Effect(Plain(currentDir), currentDir)
    case Help => Effect(HelpMessage, currentDir)
    case Download => Effect(DownloadNotice(Content.Cta), currentDir)
    case Exit => Effect(Plain(Goodbye), currentDir)
    case NoCommand => Effect(Blank, currentDir)
    case Unknown => Effect(Error("Command not found: " + p.name), currentDir)
  }

  /** `executeCommand(cmd)` without its state updates: what the line prints
      and the directory afterwards. */
  function Execute(currentDir: string, cmd: string): Effect {
    Interpret(currentDir, Parse(cmd))
  }

  // ---------------------------------------------------------------------
  // History recall and completion

  /** `history[k] || ""`: an index outside the list reads as the empty line. */
  function At(history: seq<string>, k: int): string {
    if 0 <= k < |history| then history[k] else ""
  }

  /** The recall cursor and the input buffer. */
  datatype Recall = Recall(index: int, buffer: string)

  /** ArrowUp: one entry older, stopping at the oldest. */
  function RecallOlder(history: seq<string>, r: Recall): Recall {
    if |history| > 0 then
      var k := if r.index < |history| - 1 then r.index + 1 else r.index;
      Recall(k, At(history, |history| - 1 - k))
    else r
  }

  /** ArrowDown: one entry newer; from the newest, back to an empty buffer. */
  function RecallNewer(history: seq<string>, r: Recall): Recall {
    if r.index > 0 then Recall(r.index - 1, At(history, |history| - 1 - (r.index - 1)))
    else if r.index == 0 then Recall(-1, "")
    else r
  }

  /** The entries of `names` that start with `prefix`, in order. */
  function Matching(names: seq<string>, prefix: string): (r: seq<string>)
    ensures forall i :: 0 <= i < |r| ==> prefix <= r[i] && r[i] in names
    ensures forall x :: x in names && prefix <= x ==> x in r
  {
    if names == [] then []
    else if prefix <= names[0] then [names[0]] + Matching(names[1..], prefix)
    else Matching(names[1..], prefix)
  }

  /** The directory entries whose name starts with `prefix`, in order. */
  function MatchingKeys(keys: seq<(string, bool)>, prefix: string): (r: seq<(string, bool)>)
    ensures forall i :: 0 <= i < |r| ==> prefix <= r[i].0 && r[i] in keys
    ensures forall x :: x in keys && prefix <= x.0 ==> x in r
  {
    if keys == [] then []
    else if prefix <= keys[0].0 then [keys[0]] + MatchingKeys(keys[1..], prefix)
    else MatchingKeys(keys[1..], prefix)
  }

  /** What Tab does to the input buffer. */
  function Complete(currentDir: string, buffer: string): string {
    if ' ' !in buffer then
      var m := Matching(CommandNames, Split(buffer, ' ')[0]);
      if |m| == 1 then m[0] + " " else buffer
    else
      match CurrentDir(currentDir)
      case Some(dir) => CompleteEntry(Keys(dir), buffer)
      case None => buffer
  }

  /** Tab after a space: the last word replaced by the one entry of `keys`
      it is a prefix of, followed by "/" for a directory and " " for a file. */
  function CompleteEntry(keys: seq<(string, bool)>, buffer: string): string {
    var parts := Split(buffer, ' ');
    var m := MatchingKeys(keys, parts[|parts| - 1]);
    if |m| == 1 then
      Join(parts[..|parts| - 1] + [m[0].0], ' ') + (if m[0].1 then "/" else " ")
    else buffer
  }

  // ---------------------------------------------------------------------
  // The session

  /** A prompt string the session can reach: "~" or below "~/", naming a directory. */
  predicate ReachableDir(d: string) {
    (d == "~" || "~/" <= d) && CurrentDir(d).Some? && CurrentDir(d).value.Dir?
  }

  class Session {
    var commands: seq<Entry>
    var currentCommand: string
    var currentDir: string
    var commandHistory: seq<string>
    var historyIndex: int

    ghost predicate Valid()
      reads this
    {
      -1 <= historyIndex < |commandHistory| && ReachableDir(currentDir)
    }

    constructor ()
      ensures Valid()
      ensures commands == [Welcome] && currentCommand == "" && currentDir == "~"
      ensures commandHistory == [] && historyIndex == -1
    {
      commands := [Welcome];
      currentCommand := "";
      currentDir := "~";
      commandHistory := [];
      historyIndex := -1;
      HomeReachable();
    }

    /** Typing into the input box. */
    method InputChange(value: string)
      modifies this
      ensures currentCommand == value
      ensures commands == old(commands) && currentDir == old(currentDir)
      ensures commandHistory == old(commandHistory) && historyIndex == old(historyIndex)
    {
      currentCommand := value;
    }

    /** `executeCommand(cmd)`, as sequential code over the state at entry:
        the transcript captured at entry gets exactly one entry (so the reset
        of `clear` is overwritten), and a non-blank line goes onto the history. */
    method ExecuteCommand(cmd: string)
      requires Valid()
      modifies this
      ensures Valid()
      ensures commands == old(commands) + [Entry(cmd, Execute(old(currentDir), cmd).output)]
      ensures currentDir == Execute(old(currentDir), cmd).currentDir
      ensures currentCommand == ""
      ensures !IsBlank(cmd) ==> commandHistory == old(commandHistory) + [cmd] && historyIndex == -1
      ensures IsBlank(cmd) ==> commandHistory == old(commandHistory) && historyIndex == old(historyIndex)
    {
      var captured := commands;
      var effect := Execute(currentDir, cmd);
      assert ReachableDir(effect.currentDir) by {
        ExecutePreservesReachable(currentDir, cmd);
      }
      if Trim(cmd) != "" {
        commandHistory := commandHistory + [cmd];
        historyIndex := -1;
      }
      if CommandOf(Parse(cmd).name) == Clear {
        commands := [];
      }
      currentDir := effect.currentDir;
      commands := captured + [Entry(cmd, effect.output)];
      currentCommand := "";
    }

    /** The form's submit handler. */
    method Submit()
      requires Valid()
      modifies this
      ensures Valid()
      ensures commands == old(commands) + [Entry(old(currentCommand), Execute(old(currentDir), old(currentCommand)).output)]
      ensures currentDir == Execute(old(currentDir), old(currentCommand)).currentDir
      ensures currentCommand == ""
      ensures !IsBlank(old(currentCommand)) ==>
        commandHistory == old(commandHistory) + [old(currentCommand)] && historyIndex == -1
      ensures IsBlank(old(currentCommand)) ==>
        commandHistory == old(commandHistory) && historyIndex == old(historyIndex)
    {
      ExecuteCommand(currentCommand);
    }

    /** The input's `keydown` handler: history recall and Tab completion. */
    method HandleKeyDown(key: string)
      requires Valid()
      modifies this
      ensures Valid()
      ensures commands == old(commands) && currentDir == old(currentDir) && commandHistory == old(commandHistory)
      ensures key == "ArrowUp" ==>
        Recall(historyIndex, currentCommand) == RecallOlder(commandHistory, Recall(old(historyIndex), old(currentCommand)))
      ensures key == "ArrowDown" ==>
        Recall(historyIndex, currentCommand) == RecallNewer(commandHistory, Recall(old(historyIndex), old(currentCommand)))
      ensures key == "Tab" ==> historyIndex == old(historyIndex) && currentCommand == Complete(currentDir, old(currentCommand))
      ensures key !in {"ArrowUp", "ArrowDown", "Tab"} ==>
        historyIndex == old(historyIndex) && currentCommand == old(currentCommand)
    {
      if key == "ArrowUp" {
        if |commandHistory| > 0 {
          var newIndex := if historyIndex < |commandHistory| - 1 then historyIndex + 1 else historyIndex;
          historyIndex := newIndex;
          currentCommand := At(commandHistory, |commandHistory| - 1 - newIndex);
        }
      } else if key == "ArrowDown" {
        if historyIndex > 0 {
          var newIndex := historyIndex - 1;
          historyIndex := newIndex;
          currentCommand := At(commandHistory, |commandHistory| - 1 - newIndex);
        } else if historyIndex == 0 {
          historyIndex := -1;
          currentCommand := "";
        }
      } else if key == "Tab" {
        currentCommand := Complete(currentDir, currentCommand);
      }
    }
  }

  // ---------------------------------------------------------------------
  // Facts about the file tree

  /** A name that is a single non-empty path segment without spaces and not
      starting with "~". */
  predicate NameOk(name: string) {
    name != "" && name[0] != '~' && '/' !in name && ' ' !in name
  }

  /** Every name in the tree is a good segment. */
  predicate NamesOk(n: Node)
    decreases n
  {
    n.Dir? ==>
      forall i :: 0 <= i < |n.entries| ==> NameOk(n.entries[i].0) && NamesOk(n.entries[i].1)
  }

  lemma FeaturesNamesOk()
    ensures NamesOk(Features)
  {
    var fs := Features.entries;
    FeatureNameOk(fs[0].0);
    FeatureNameOk(fs[1].0);
    FeatureNameOk(fs[2].0);
    FeatureNameOk(fs[3].0);
  }

  lemma FeatureNameOk(name: string)
    requires name in ["01_idea_to_action.md", "02_ai_engineer.md", "03_quality.md", "04_scale.md"]
    ensures NameOk(name)
  {
    assert '~' != name[0];
  }

  lemma DownloadsNamesOk()
    ensures NamesOk(Downloads)
  {
    var ds := Downloads.entries;
    assert NameOk(ds[0].0) && NameOk(ds[1].0) && NameOk(ds[2].0);
  }

  lemma HomeNamesOk()
    ensures NamesOk(Home)
  {
    FeaturesNamesOk();
    DownloadsNamesOk();
    var es := Home.entries;
    assert NameOk(es[0].0) && NameOk(es[1].0) && NameOk(es[2].0) && NameOk(es[3].0);
  }

  lemma HomeReachable()
    ensures ReachableDir("~")
  {
    SplitNoSeparator("~", '/');
  }

  lemma {:induction false} ChildNamesOk(n: Node, name: string)
    requires NamesOk(n)
    requires Child(n, name).Some?
    ensures NamesOk(Child(n, name).value)
    ensures NameOk(name)
  {
    var c := Child(n, name).value;
    var i :| 0 <= i < |n.entries| && n.entries[i] == (name, c);
  }

  /** A successful `cd` walk ends on a directory that the prompt walk finds too,
      and none of its segments is "~". */
  lemma {:induction false} WalkDirsWalk(n: Node, parts: seq<string>)
    requires NamesOk(n) && n.Dir?
    requires WalkDirs(n, parts)
    ensures Walk(n, parts).Some? && Walk(n, parts).value.Dir?
    ensures forall i :: 0 <= i < |parts| ==> parts[i] != "" && parts[i][0] != '~' && '/' !in parts[i]
    decreases |parts|
  {
    if parts != [] {
      ChildNamesOk(n, parts[0]);
      var c := Child(n, parts[0]).value;
      WalkDirsWalk(c, parts[1..]);
      forall i | 0 <= i < |parts|
        ensures parts[i] != "" && parts[i][0] != '~' && '/' !in parts[i]
      {
        if i > 0 {
          assert parts[i] == parts[1..][i - 1];
        }
      }
    }
  }

  /** Walking `parts` then one more segment is walking the longer path. */
  lemma {:induction false} WalkAppend(n: Node, parts: seq<string>, last: string)
    requires Walk(n, parts).Some?
    ensures Walk(n, parts + [last]) == Child(Walk(n, parts).value, last)
    decreases |parts|
  {
    if parts == [] {
      assert parts + [last] == [last];
    } else {
      assert (parts + [last])[1..] == parts[1..] + [last];
      WalkAppend(Child(n, parts[0]).value, parts[1..], last);
    }
  }

  lemma {:induction false} NonHomeAppend(xs: seq<string>, ys: seq<string>)
    ensures NonHome(xs + ys) == NonHome(xs) + NonHome(ys)
    decreases |xs|
  {
    if xs != [] {
      assert (xs + ys)[0] == xs[0];
      assert (xs + ys)[1..] == xs[1..] + ys;
      NonHomeAppend(xs[1..], ys);
      if xs[0] == "" || xs[0] == "~" {
        assert NonHome(xs + ys) == NonHome(xs[1..] + ys);
      } else {
        assert NonHome(xs + ys) == [xs[0]] + NonHome(xs[1..] + ys);
      }
    } else {
      assert xs + ys == ys;
    }
  }

  /** Dropping "~" as well as the empty segments changes nothing when no
      segment is "~". */
  lemma {:induction false} NonHomeNonEmpty(xs: seq<string>)
    requires forall i :: 0 <= i < |xs| ==> xs[i] != "~"
    ensures NonHome(xs) == NonEmpty(xs)
    decreases |xs|
  {
    if xs != [] {
      NonHomeNonEmpty(xs[1..]);
    }
  }

  /** Segments that made it through `NonEmpty` and are not "~" survive the filter. */
  lemma {:induction false} NonEmptyOfNonHome(xs: seq<string>)
    requires forall i :: 0 <= i < |NonEmpty(xs)| ==> NonEmpty(xs)[i] != "~"
    ensures NonHome(xs) == NonEmpty(xs)
    decreases |xs|
  {
    if xs != [] {
      if xs[0] == "" {
        assert NonEmpty(xs) == NonEmpty(xs[1..]);
        NonEmptyOfNonHome(xs[1..]);
      } else {
        assert NonEmpty(xs) == [xs[0]] + NonEmpty(xs[1..]);
        assert NonEmpty(xs)[0] == xs[0];
        forall i | 0 <= i < |NonEmpty(xs[1..])| ensures NonEmpty(xs[1..])[i] != "~" {
          assert NonEmpty(xs[1..])[i] == NonEmpty(xs)[i + 1];
        }
        NonEmptyOfNonHome(xs[1..]);
      }
    }
  }

  /** The prompt "~/" + p names what the walk of p's segments from home finds. */
  lemma PromptUnderHome(p: string)
    requires forall i :: 0 <= i < |Segments(p)| ==> Segments(p)[i] != "~"
    ensures CurrentDir("~/" + p) == Walk(Home, Segments(p))
  {
    assert "~/" + p == "~" + ['/'] + p;
    SplitConcat("~", p, '/');
    SplitNoSeparator("~", '/');
    NonHomeAppend(["~"], Split(p, '/'));
    assert Segments(p) == NonEmpty(Split(p, '/'));
    NonEmptyOfNonHome(Split(p, '/'));
  }

  /** Every directory change keeps the prompt reachable: it stays "~" or under
      "~/" and names a directory of the tree. */
  lemma ExecutePreservesReachable(d: string, cmd: string)
    requires ReachableDir(d)
    ensures ReachableDir(Execute(d, cmd).currentDir)
  {
    ExecuteChangesDirOnlyByCd(d, cmd);
    var p := Parse(cmd);
    if CommandOf(p.name) == Cd {
      ChangeDirPreservesReachable(d, FirstArg(p));
    }
  }

  /** Only `cd` moves the prompt. */
  lemma ExecuteChangesDirOnlyByCd(d: string, cmd: string)
    ensures Execute(d, cmd).currentDir ==
      if CommandOf(Parse(cmd).name) == Cd then ChangeDir(d, FirstArg(Parse(cmd))).currentDir else d
  {
  }

  lemma ChangeDirPreservesReachable(d: string, arg: string)
    requires ReachableDir(d)
    ensures ReachableDir(ChangeDir(d, arg).currentDir)
  {
    HomeReachable();
    HomeNamesOk();
    if arg == "" || arg == ".." {
      CdUpGoesHome(d);
    } else if IsAbsolute(arg) {
      var clean := CleanPath(arg);
      if WalkDirs(Home, Segments(clean)) {
        WalkDirsWalk(Home, Segments(clean));
        PromptUnderHome(clean);
        if "~" <= arg {
          TildeArgIsUnderHome(arg);
        }
      }
    } else {
      var dir := CurrentDir(d).value;
      match Child(dir, arg)
      case Some(Dir(_)) =>
        RelativeStep(d, arg);
      case _ =>
    }
  }

  /** An absolute `cd` argument starting with "~" can only succeed when it
      starts with "~/": no name in the tree starts with "~". */
  lemma TildeArgIsUnderHome(arg: string)
    requires "~" <= arg
    requires WalkDirs(Home, Segments(CleanPath(arg)))
    ensures "~/" <= arg
  {
    if !("~/" <= arg) {
      var clean := CleanPath(arg);
      assert arg[0] == '~';
      assert clean == arg;
      HomeNamesOk();
      WalkDirsWalk(Home, Segments(clean));
      FirstSegmentStartsWithTilde(arg);
      assert false;
    }
  }

  lemma FirstSegmentStartsWithTilde(s: string)
    requires "~" <= s
    ensures |Segments(s)| > 0 && Segments(s)[0][0] == '~'
  {
    var parts := Split(s, '/');
    assert parts[0] != "" && parts[0][0] == '~' by {
      var rest := Split(s[1..], '/');
      assert parts == [[s[0]] + rest[0]] + rest[1..];
    }
  }

  /** `cd` into a child directory of a reachable prompt. */
  lemma RelativeStep(d: string, arg: string)
    requires ReachableDir(d)
    requires Child(CurrentDir(d).value, arg).Some? && Child(CurrentDir(d).value, arg).value.Dir?
    ensures ReachableDir(if d == "~" then "~/" + arg else d + "/" + arg)
  {
    var ps := NonHome(Split(d, '/'));
    var dir := CurrentDir(d).value;
    HomeNamesOk();
    WalkNamesOk(Home, ps);
    ChildNamesOk(dir, arg);
    var d' := d + "/" + arg;
    PromptStep(d, arg);
    assert "~/" <= d';
    assert d == "~" ==> "~/" + arg == d';
  }

  /** Appending "/" and a name to a prompt walks one step further. */
  lemma PromptStep(d: string, arg: string)
    requires NameOk(arg)
    requires CurrentDir(d).Some?
    ensures CurrentDir(d + "/" + arg) == Child(CurrentDir(d).value, arg)
  {
    var ps := NonHome(Split(d, '/'));
    var d' := d + "/" + arg;
    assert d' == d + ['/'] + arg;
    SplitConcat(d, arg, '/');
    SplitNoSeparator(arg, '/');
    NonHomeAppend(Split(d, '/'), [arg]);
    assert NonHome([arg]) == [arg];
    assert NonHome(Split(d', '/')) == ps + [arg];
    WalkAppend(Home, ps, arg);
  }

  lemma {:induction false} WalkNamesOk(n: Node, parts: seq<string>)
    requires NamesOk(n)
    requires Walk(n, parts).Some?
    ensures NamesOk(Walk(n, parts).value)
    decreases |parts|
  {
    if parts != [] {
      ChildNamesOk(n, parts[0]);
      WalkNamesOk(Child(n, parts[0]).value, parts[1..]);
    }
  }

  /** `cd` with no argument and `cd ..` both go back to "~" from any reachable
      prompt: its first segment is always "~", so the branch that pops one
      segment never runs. */
  lemma CdUpGoesHome(d: string)
    requires d == "~" || "~/" <= d
    ensures ChangeDir(d, "").currentDir == "~"
    ensures ChangeDir(d, "..").currentDir == "~"
    ensures ChangeDir(d, "..").output == Blank
  {
    var ps := NonEmpty(Split(d, '/'));
    if d == "~" {
      SplitNoSeparator("~", '/');
    } else {
      assert d == "~" + ['/'] + d[2..];
      SplitConcat("~", d[2..], '/');
      SplitNoSeparator("~", '/');
    }
    assert ps[0] == "~";
  }

  lemma InterpretUnknown(d: string, p: Parsed)
    requires p.name != "" && p.name !in CommandNames
    ensures Interpret(d, p) == Effect(Error("Command not found: " + p.name), d)
  {
  }
}
