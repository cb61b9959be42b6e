/** What the terminal lookalike promises, stated over the model in
    `Terminal`: how a line is parsed, what each command prints, how the
    prompt moves, how recall walks the history and what Tab completion does. */
module TerminalProperties {
  import opened Options
  import opened Text
  import opened Terminal
  import Content

  /** A word of a command line: non-empty and free of white space. */
  predicate IsWord(w: string) {
    w != [] && forall i :: 0 <= i < |w| ==> !IsSpace(w[i])
  }

  lemma TrimNoop(s: string)
    requires s != [] && !IsSpace(s[0]) && !IsSpace(s[|s| - 1])
    ensures Trim(s) == s
  {
    assert TrimStart(s) == s;
    assert TrimEnd(s) == s;
  }

  /** The first and the last character of joined non-empty pieces. */
  lemma {:induction false} JoinEnds(parts: seq<string>, sep: char)
    requires |parts| >= 1
    requires forall i :: 0 <= i < |parts| ==> parts[i] != []
    ensures var j := Join(parts, sep); var last := parts[|parts| - 1];
      j != [] && j[0] == parts[0][0] && j[|j| - 1] == last[|last| - 1]
    decreases |parts|
  {
    if |parts| > 1 {
      JoinEnds(parts[1..], sep);
    }
  }

  /** Splitting a line of words joined by single spaces: the command name is
      the first word lower-cased, and the arguments are the other words with
      their case kept. */
  lemma ParseWords(words: seq<string>)
    requires |words| >= 1
    requires forall i :: 0 <= i < |words| ==> IsWord(words[i])
    ensures Parse(Join(words, ' ')) == Parsed(Lower(words[0]), words[1..])
  {
    var line := Join(words, ' ');
    JoinEnds(words, ' ');
    TrimNoop(line);
    SplitJoin(words, ' ');
  }

  /** White space around a line does not matter: a line parses as its
      trimmed form does. */
  lemma ParseTrimmed(cmd: string)
    ensures Parse(Trim(cmd)) == Parse(cmd)
  {
    var r := Trim(cmd);
    assert Trim(r) == r by {
      TrimEnds(cmd, TrimStart(cmd), r);
      if r != [] {
        TrimNoop(r);
      }
    }
  }

  lemma LowerWord(w: string)
    requires IsWord(w)
    ensures IsWord(Lower(w)) && Lower(Lower(w)) == Lower(w)
  {
  }

  /** A line of words runs the command its first word names, lower-cased,
      on the other words as they are. */
  lemma ExecuteWords(d: string, words: seq<string>)
    requires |words| >= 1 && forall i :: 0 <= i < |words| ==> IsWord(words[i])
    ensures Execute(d, Join(words, ' ')) == Interpret(d, Parsed(Lower(words[0]), words[1..]))
  {
    ParseWords(words);
  }

  /** An unknown first word answers "Command not found: " with the word
      lower-cased, and the directory stays. */
  lemma UnknownCommand(d: string, words: seq<string>)
    requires |words| >= 1 && forall i :: 0 <= i < |words| ==> IsWord(words[i])
    requires Lower(words[0]) !in CommandNames
    ensures Execute(d, Join(words, ' ')) == Effect(Error("Command not found: " + Lower(words[0])), d)
  {
    ExecuteWords(d, words);
    InterpretUnknown(d, Parsed(Lower(words[0]), words[1..]));
  }

  // ---------------------------------------------------------------------
  // Files and `cat`

  /** `FileSize` is the length of each file's text, and no file is empty (so
      every value in the tree is truthy). */
  lemma FileTextNonEmpty(f: File)
    ensures |FileText(f)| == FileSize(f) > 0
  {
    match f
    case ReadmeMd =>
    case AboutTxt =>
    case IdeaToActionMd =>
    case AiEngineerMd =>
    case QualityMd =>
    case ScaleMd =>
    case MacosSh =>
    case LinuxSh =>
    case WindowsBat =>
  }

  /** The classifier loses nothing: the source of each rendered line is the
      line itself, except for a lone "_", which renders as italic "_". */
  lemma ClassifyLineSource(line: string)
    ensures line != "_" ==> LineSource(ClassifyLine(line)) == line
    ensures line == "_" ==> ClassifyLine(line) == Italic("_")
  {
    if "# " <= line {
      assert line == "# " + line[2..];
    } else if "## " <= line {
      assert line == "## " + line[3..];
    } else if "_" <= line && EndsWith(line, "_") && |line| >= 2 {
      assert line == "_" + line[1..|line| - 1] + "_";
    }
  }

  /** The rules are tried in order: "## " lines are not caught by the "# " rule,
      and a heading wrapped in underscores stays a heading. */
  lemma ClassifyLineOrder(t: string)
    ensures ClassifyLine("## " + t) == Heading2(t)
    ensures ClassifyLine("# _" + t + "_") == Heading1("_" + t + "_")
  {
    assert ("## " + t)[3..] == t;
    assert !("# " <= "## " + t) by { assert ("## " + t)[1] == '#'; }
    assert ("# _" + t + "_")[2..] == "_" + t + "_";
  }

  /** README.md renders as a heading, a break, the subtitle, a break and the
      italic tagline. */
  lemma ReadmeRendering()
    ensures RenderMarkdown(ReadmeText) ==
      [Heading1("Cursor"), Break, Paragraph(Content.Subtitle), Break, Italic("for noobs")]
  {
    var lines := ReadmeLines();
    ReadmeLineKinds(lines);
  }

  lemma ReadmeLineKinds(lines: seq<string>)
    requires lines == ["# Cursor", "", Content.Subtitle, "", "_for noobs_"]
    ensures ClassifyLine(lines[0]) == Heading1("Cursor")
    ensures ClassifyLine(lines[1]) == Break && ClassifyLine(lines[3]) == Break
    ensures ClassifyLine(lines[2]) == Paragraph(Content.Subtitle)
    ensures ClassifyLine(lines[4]) == Italic("for noobs")
  {
    HeadingLine(lines[0]);
    SubtitleLine(lines[2]);
    TaglineLine(lines[4]);
  }

  lemma HeadingLine(line: string)
    requires line == "# Cursor"
    ensures ClassifyLine(line) == Heading1("Cursor")
  {
    assert "# " <= line && line[2..] == "Cursor";
  }

  lemma SubtitleLine(line: string)
    requires line == Content.Subtitle
    ensures ClassifyLine(line) == Paragraph(line)
  {
    assert line[0] == 'M';
  }

  lemma TaglineLine(line: string)
    requires line == "_for noobs_"
    ensures ClassifyLine(line) == Italic("for noobs")
  {
    assert line[1] == 'f';
    assert line[1..|line| - 1] == "for noobs";
  }

  lemma ReadmeLines() returns (lines: seq<string>)
    ensures lines == ["# Cursor", "", Content.Subtitle, "", "_for noobs_"]
    ensures Split(ReadmeText, '\n') == lines
  {
    lines := ["# Cursor", "", Content.Subtitle, "", "_for noobs_"];
    ReadmeJoin(lines);
    ReadmeLinesHaveNoBreak(lines);
    SplitJoin(lines, '\n');
  }

  lemma ReadmeJoin(lines: seq<string>)
    requires lines == ["# Cursor", "", Content.Subtitle, "", "_for noobs_"]
    ensures ReadmeText == Join(lines, '\n')
  {
    ReadmeShape(Content.Title, Content.Subtitle, Content.Tagline);
    assert "# " + Content.Title == "# Cursor";
    assert "_" + Content.Tagline + "_" == "_for noobs_";
  }

  /** The README template, as lines. */
  lemma ReadmeShape(title: string, subtitle: string, tagline: string)
    ensures "# " + title + "\n\n" + subtitle + "\n\n_" + tagline + "_" ==
      Join(["# " + title, "", subtitle, "", "_" + tagline + "_"], '\n')
  {
    var ls := ["# " + title, "", subtitle, "", "_" + tagline + "_"];
    assert Join(ls[4..], '\n') == "_" + tagline + "_";
    assert Join(ls[3..], '\n') == "\n" + "_" + tagline + "_";
    assert Join(ls[2..], '\n') == subtitle + "\n" + "\n" + "_" + tagline + "_";
    assert Join(ls[1..], '\n') == "\n" + subtitle + "\n" + "\n" + "_" + tagline + "_";
  }

  lemma ReadmeLinesHaveNoBreak(lines: seq<string>)
    requires lines == ["# Cursor", "", Content.Subtitle, "", "_for noobs_"]
    ensures forall i :: 0 <= i < |lines| ==> '\n' !in lines[i]
  {
    assert '\n' !in Content.Subtitle;
  }

  /** Lookup finds the first entry with the name. */
  lemma {:induction false} LookupAt(entries: seq<(string, Node)>, i: nat)
    requires i < |entries|
    requires forall j :: 0 <= j < i ==> entries[j].0 != entries[i].0
    ensures Lookup(entries, entries[i].0) == Some(entries[i].1)
  {
    if i > 0 {
      assert entries[1..][i - 1] == entries[i];
      LookupAt(entries[1..], i - 1);
    }
  }

  /** The prompt "~" names the home directory. */
  lemma HomePrompt()
    ensures CurrentDir("~") == Some(Home)
  {
    SplitNoSeparator("~", '/');
  }

  /** `cat <name>` for an entry of the current directory. */
  lemma CatEntry(d: string, name: string, n: Node)
    requires name != "" && !IsAbsolute(name)
    requires CurrentDir(d).Some? && Child(CurrentDir(d).value, name) == Some(n)
    ensures n.Leaf? ==> CatFile(d, name) == Contents(n.file, EndsWith(name, ".md"))
    ensures n.Dir? ==> CatFile(d, name) == Error("File not found: " + name)
  {
  }

  /** `cat README.md` at home shows README.md rendered as markdown. */
  lemma CatReadme(d: string, name: string)
    requires d == "~" && name == "README.md"
    ensures CatFile(d, name) == Contents(ReadmeMd, true)
  {
    HomePrompt();
    LookupAt(Home.entries, 0);
    assert name[0] == 'R';
    assert name[|name| - 3..] == ".md";
    CatEntry(d, name, Leaf(ReadmeMd));
  }

  /** `cat` fails exactly when the argument is missing, or names nothing or a
      directory; its two messages; and it never moves the prompt. */
  lemma CatOutcome(d: string, arg: string)
    ensures CatFile(d, arg).Error? <==>
      arg == "" || GetFile(d, arg).None? || GetFile(d, arg).value.Dir?
    ensures arg == "" ==> CatFile(d, arg) == Error("Usage: cat <filename>")
    ensures arg != "" && CatFile(d, arg).Error? ==> CatFile(d, arg) == Error("File not found: " + arg)
    ensures CatFile(d, arg).Contents? ==>
      GetFile(d, arg) == Some(Leaf(CatFile(d, arg).file)) && (CatFile(d, arg).markdown <==> EndsWith(arg, ".md"))
  {
  }

  /** An absolute path reaches the same file from any directory, with the
      leading "~/" or the leading "/". */
  lemma AbsoluteFile(d: string, path: string, a: string, b: string)
    requires a == "features" && b == "03_quality.md"
    requires path == "~/" + a + "/" + b || path == "/" + a + "/" + b
    ensures GetFile(d, path) == Some(Leaf(QualityMd))
  {
    if path == "~/" + a + "/" + b {
      AbsoluteTilde(d, a, b);
    } else {
      AbsoluteSlash(d, a, b);
    }
  }

  lemma AbsoluteTilde(d: string, a: string, b: string)
    requires a == "features" && b == "03_quality.md"
    ensures GetFile(d, "~/" + a + "/" + b) == Some(Leaf(QualityMd))
  {
    FeaturesQualityNames(a, b);
    CleanTilde(a, b);
    HomeFeatures(a);
    FeaturesQuality(b);
    AbsoluteWalk(d, "~/" + a + "/" + b, a, b, Features, Leaf(QualityMd));
  }

  lemma AbsoluteSlash(d: string, a: string, b: string)
    requires a == "features" && b == "03_quality.md"
    ensures GetFile(d, "/" + a + "/" + b) == Some(Leaf(QualityMd))
  {
    FeaturesQualityNames(a, b);
    CleanSlash(a, b);
    HomeFeatures(a);
    FeaturesQuality(b);
    AbsoluteWalk(d, "/" + a + "/" + b, a, b, Features, Leaf(QualityMd));
  }

  lemma FeaturesQualityNames(a: string, b: string)
    requires a == "features" && b == "03_quality.md"
    ensures a != "" && b != "" && '/' !in a && '/' !in b
  {
  }

  lemma CleanTilde(a: string, b: string)
    ensures IsAbsolute("~/" + a + "/" + b) && CleanPath("~/" + a + "/" + b) == a + "/" + b
  {
    var p := "~/" + a + "/" + b;
    assert p[..2] == "~/";
    assert p[2..] == a + "/" + b;
  }

  lemma CleanSlash(a: string, b: string)
    ensures IsAbsolute("/" + a + "/" + b) && CleanPath("/" + a + "/" + b) == a + "/" + b
  {
    var p := "/" + a + "/" + b;
    assert p[0] == '/';
    assert p[1..] == a + "/" + b;
  }

  lemma HomeFeatures(a: string)
    requires a == "features"
    ensures Child(Home, a) == Some(Features)
  {
    LookupAt(Home.entries, 2);
  }

  lemma FeaturesQuality(b: string)
    requires b == "03_quality.md"
    ensures Child(Features, b) == Some(Leaf(QualityMd))
  {
    LookupAt(Features.entries, 2);
  }

  /** An absolute path of two segments walks two steps from home. */
  lemma AbsoluteWalk(d: string, path: string, a: string, b: string, c: Node, f: Node)
    requires IsAbsolute(path)
    requires a != "" && b != "" && '/' !in a && '/' !in b
    requires CleanPath(path) == a + "/" + b
    requires Child(Home, a) == Some(c) && Child(c, b) == Some(f)
    ensures GetFile(d, path) == Some(f)
  {
    assert a + "/" + b == a + ['/'] + b;
    TwoSegments(a, b);
    assert [a, b][1..] == [b];
    assert Walk(Home, [a, b]) == Walk(c, [b]);
    assert [b][1..] == [];
    assert Walk(c, [b]) == Walk(f, []);
  }

  lemma TwoSegments(a: string, b: string)
    requires a != "" && b != "" && '/' !in a && '/' !in b
    ensures Segments(a + ['/'] + b) == [a, b]
  {
    SplitConcat(a, b, '/');
    SplitNoSeparator(a, '/');
    SplitNoSeparator(b, '/');
    assert [a, b][1..] == [b];
    assert NonEmpty([b]) == [b];
  }
}
