/** What `cd`, `ls`, history recall and Tab completion of the terminal
    lookalike promise, stated over the model in `Terminal`. */
module TerminalNavigation {
  import opened Options
  import opened Text
  import opened Terminal
  import TerminalProperties

  // ---------------------------------------------------------------------
  // cd

  /** `cd` either prints nothing and moves, or prints "Directory not found:
      <arg>" and leaves the prompt where it was. With no argument it goes home. */
  lemma ChangeDirOutcome(d: string, arg: string)
    ensures var e := ChangeDir(d, arg);
      e.output == Blank || (e.output == Error("Directory not found: " + arg) && e.currentDir == d)
    ensures arg == "" ==> ChangeDir(d, arg) == Effect(Blank, "~")
  {
  }

  /** An absolute `cd` succeeds exactly when every segment of the path, after
      the leading "~/" or "/" is removed, names a directory. */
  lemma AbsoluteChangeDir(d: string, arg: string)
    requires arg != "" && arg != ".." && IsAbsolute(arg)
    ensures ChangeDir(d, arg).output == Blank <==> WalkDirs(Home, Segments(CleanPath(arg)))
    ensures ChangeDir(d, arg).output == Blank ==>
      ChangeDir(d, arg).currentDir == if "~" <= arg then arg else "~/" + CleanPath(arg)
  {
  }

  /** A relative `cd` succeeds exactly when the whole argument is the name of
      a child directory of the prompt's directory. */
  lemma RelativeChangeDir(d: string, arg: string)
    requires arg != "" && arg != ".." && !IsAbsolute(arg)
    ensures ChangeDir(d, arg).output == Blank <==>
      CurrentDir(d).Some? && Child(CurrentDir(d).value, arg).Some? && Child(CurrentDir(d).value, arg).value.Dir?
  {
  }

  /** `cd ~` is rejected: the "~" is removed only when a "/" follows, and no
      entry of the tree is called "~". */
  lemma CdTildeRejected(d: string, arg: string)
    requires arg == "~"
    ensures ChangeDir(d, arg) == Effect(Error("Directory not found: " + arg), d)
  {
    assert |arg| == 1 && arg[0] == '~';
    assert arg != "" && arg != ".." && IsAbsolute(arg) && CleanPath(arg) == arg;
    SplitNoSeparator(arg, '/');
    assert Segments(arg) == [arg];
    HomeHasNo(arg);
    assert !WalkDirs(Home, [arg]);
    AbsoluteChangeDir(d, arg);
    ChangeDirOutcome(d, arg);
  }

  /** The entry names of the home directory. */
  lemma HomeNames()
    ensures |Home.entries| == 4
    ensures Home.entries[0].0 == "README.md" && Home.entries[1].0 == "about.txt"
    ensures Home.entries[2].0 == "features" && Home.entries[3].0 == "download"
  {
  }

  /** A name that is none of the home directory's entries is not found there. */
  lemma HomeHasNo(name: string)
    requires name != "README.md" && name != "about.txt" && name != "features" && name != "download"
    ensures Child(Home, name) == None
  {
    HomeNames();
  }

  /** `cd features` at home moves to "~/features". */
  lemma CdFeatures(arg: string)
    requires arg == "features"
    ensures ChangeDir("~", arg) == Effect(Blank, "~/features")
  {
    TerminalProperties.HomePrompt();
    TerminalProperties.HomeFeatures(arg);
    assert !IsAbsolute(arg) by { assert arg[0] == 'f'; }
  }

  /** `cd /features` moves to "~/features" from anywhere. */
  lemma CdSlashFeatures(d: string, arg: string, name: string)
    requires name == "features" && arg == "/" + name
    ensures ChangeDir(d, arg) == Effect(Blank, "~/" + name)
  {
    assert arg[0] == '/' && arg[1..] == name;
    assert arg != "" && arg != ".." && IsAbsolute(arg) && !("~" <= arg);
    assert CleanPath(arg) == name;
    SplitNoSeparator(name, '/');
    TerminalProperties.HomeFeatures(name);
    assert WalkDirs(Home, [name]) by {
      assert [name][1..] == [];
    }
    AbsoluteChangeDir(d, arg);
  }

  /** `cd features/` (what Tab completion leaves in the buffer) fails at home:
      a relative argument must be one exact entry name. */
  lemma CdTrailingSlash(arg: string)
    requires arg == "features/"
    ensures ChangeDir("~", arg) == Effect(Error("Directory not found: " + arg), "~")
  {
    TerminalProperties.HomePrompt();
    assert arg[0] == 'f' && |arg| == 9;
    assert arg != "" && arg != ".." && !IsAbsolute(arg);
    HomeHasNo(arg);
    RelativeChangeDir("~", arg);
    ChangeDirOutcome("~", arg);
  }

  // ---------------------------------------------------------------------
  // ls

  /** `ls` at home lists the four entries in insertion order, flagging the
      two directories. */
  lemma ListHome()
    ensures List("~") == Listing([("README.md", false), ("about.txt", false), ("features", true), ("download", true)])
  {
    TerminalProperties.HomePrompt();
    var r := Keys(Home);
    assert r == [("README.md", false), ("about.txt", false), ("features", true), ("download", true)];
  }

  /** Whatever a reachable session runs, the next `ls` lists a directory
      and never prints "Directory not found". */
  lemma ListAfterExecute(d: string, cmd: string)
    requires ReachableDir(d)
    ensures List(Execute(d, cmd).currentDir).Listing?
  {
    ExecutePreservesReachable(d, cmd);
  }

  // ---------------------------------------------------------------------
  // History recall

  /** ArrowUp on a non-empty history moves one entry older, stopping at the
      oldest, and loads the entry the new index counts back from the newest. */
  lemma RecallOlderLoads(history: seq<string>, r: Recall)
    requires |history| > 0 && -1 <= r.index < |history|
    ensures var n := RecallOlder(history, r);
      && n.index == (if r.index < |history| - 1 then r.index + 1 else |history| - 1)
      && 0 <= n.index < |history|
      && n.buffer == history[|history| - 1 - n.index]
  {
  }

  /** ArrowDown moves one entry newer and, from the newest, returns to an
      empty buffer with index -1; at -1 it does nothing. */
  lemma RecallNewerLoads(history: seq<string>, r: Recall)
    requires -1 <= r.index < |history|
    ensures var n := RecallNewer(history, r);
      && (r.index > 0 ==> n == Recall(r.index - 1, history[|history| - r.index]))
      && (r.index == 0 ==> n == Recall(-1, ""))
      && (r.index == -1 ==> n == r)
  {
  }

  /** Neither arrow takes the index out of [-1, |history| - 1]. */
  lemma RecallBounds(history: seq<string>, r: Recall)
    requires -1 <= r.index < |history|
    ensures -1 <= RecallOlder(history, r).index < |history|
    ensures -1 <= RecallNewer(history, r).index < |history|
  {
  }

  /** ArrowDown undoes ArrowUp unless ArrowUp was already at the oldest entry:
      the index comes back and the buffer shows that entry again, or is empty
      at index -1. */
  lemma RecallNewerUndoesOlder(history: seq<string>, r: Recall)
    requires -1 <= r.index < |history| - 1
    ensures RecallNewer(history, RecallOlder(history, r)) ==
      Recall(r.index, if r.index == -1 then "" else history[|history| - 1 - r.index])
  {
    RecallOlderLoads(history, r);
  }

  // ---------------------------------------------------------------------
  // Tab completion

  /** Without a space, Tab replaces the buffer by the one command name it is
      a prefix of, followed by a space, and otherwise leaves it alone. */
  lemma CompleteCommandName(d: string, b: string)
    requires ' ' !in b
    ensures var m := Matching(CommandNames, b);
      Complete(d, b) == if |m| == 1 then m[0] + " " else b
  {
    SplitNoSeparator(b, ' ');
  }

  /** "l" completes to "ls ". */
  lemma CompleteLs(d: string, l: string)
    requires l == "l"
    ensures Complete(d, l) == "ls "
  {
    CompleteCommandName(d, l);
    CompleteL(l);
  }

  /** "c", "d" and the empty buffer are ambiguous and stay as they are. */
  lemma CompleteAmbiguous(d: string, b: string)
    requires b == "c" || b == "d" || b == ""
    ensures Complete(d, b) == b
  {
    CompleteCommandName(d, b);
    if b == "c" {
      Ambiguous(CommandNames, b, "cd", "cat");
    } else if b == "d" {
      Ambiguous(CommandNames, b, "dir", "download");
    } else {
      Ambiguous(CommandNames, b, "ls", "dir");
    }
  }

  lemma CompleteL(l: string)
    requires l == "l"
    ensures Matching(CommandNames, l) == ["ls"]
  {
    var ns := CommandNames;
    assert l <= ns[0];
    forall j | 0 <= j < |ns| && j != 0 ensures !(l <= ns[j]) {
      assert ns[j][0] != 'l';
    }
    MatchingUnique(ns, l, 0);
  }

  /** Two command names that both start with the buffer make Tab do nothing. */
  lemma Ambiguous(names: seq<string>, p: string, x: string, y: string)
    requires x in names && y in names && x != y && p <= x && p <= y
    ensures |Matching(names, p)| != 1
  {
    var m := Matching(names, p);
    assert x in m && y in m;
  }

  /** The matches are the one name the prefix fits when it fits no other. */
  lemma {:induction false} MatchingUnique(names: seq<string>, p: string, i: nat)
    requires i < |names| && p <= names[i]
    requires forall j :: 0 <= j < |names| && j != i ==> !(p <= names[j])
    ensures Matching(names, p) == [names[i]]
    decreases |names|
  {
    if i == 0 {
      MatchingNone(names[1..], p);
    } else {
      MatchingUnique(names[1..], p, i - 1);
    }
  }

  lemma {:induction false} MatchingNone(names: seq<string>, p: string)
    requires forall j :: 0 <= j < |names| ==> !(p <= names[j])
    ensures Matching(names, p) == []
    decreases |names|
  {
    if names != [] {
      MatchingNone(names[1..], p);
    }
  }

  /** The directory entries the prefix fits are the one it fits when it fits
      no other. */
  lemma {:induction false} MatchingKeysUnique(keys: seq<(string, bool)>, p: string, i: nat)
    requires i < |keys| && p <= keys[i].0
    requires forall j :: 0 <= j < |keys| && j != i ==> !(p <= keys[j].0)
    ensures MatchingKeys(keys, p) == [keys[i]]
    decreases |keys|
  {
    if i == 0 {
      MatchingKeysNone(keys[1..], p);
    } else {
      MatchingKeysUnique(keys[1..], p, i - 1);
    }
  }

  lemma {:induction false} MatchingKeysNone(keys: seq<(string, bool)>, p: string)
    requires forall j :: 0 <= j < |keys| ==> !(p <= keys[j].0)
    ensures MatchingKeys(keys, p) == []
    decreases |keys|
  {
    if keys != [] {
      MatchingKeysNone(keys[1..], p);
    }
  }

  /** With a space, Tab completes the last word to the one entry of the
      prompt's directory it is a prefix of, adding "/" after a directory and
      " " after a file; otherwise the buffer stays. */
  lemma CompleteEntryName(keys: seq<(string, bool)>, b: string)
    requires ' ' in b
    ensures var parts := Split(b, ' ');
      var m := MatchingKeys(keys, parts[|parts| - 1]);
      && |parts| >= 2
      && (|m| != 1 ==> CompleteEntry(keys, b) == b)
      && (|m| == 1 ==>
            CompleteEntry(keys, b) == Join(parts[..|parts| - 1], ' ') + " " + m[0].0 + (if m[0].1 then "/" else " "))
  {
    var parts := Split(b, ' ');
    assert |parts| >= 2 by {
      OccursPositive(b, ' ');
    }
    var init, last := parts[..|parts| - 1], parts[|parts| - 1];
    var m := MatchingKeys(keys, last);
    if |m| == 1 {
      var name, suffix := m[0].0, if m[0].1 then "/" else " ";
      assert CompleteEntry(keys, b) == Join(init + [name], ' ') + suffix;
      assert Join(init + [name], ' ') == Join(init, ' ') + " " + name by {
        JoinSnoc(init, name, ' ');
      }
    }
  }

  /** Tab only ever extends the buffer: what was typed stays a prefix. */
  lemma CompleteExtends(d: string, b: string)
    ensures b <= Complete(d, b)
  {
    if ' ' !in b {
      CompleteCommandName(d, b);
    } else if CurrentDir(d).Some? {
      CompleteEntryExtends(Keys(CurrentDir(d).value), b);
    }
  }

  lemma CompleteEntryExtends(keys: seq<(string, bool)>, b: string)
    requires ' ' in b
    ensures b <= CompleteEntry(keys, b)
  {
    var parts := Split(b, ' ');
    CompleteEntryName(keys, b);
    SplitLast(b);
    var init, last := parts[..|parts| - 1], parts[|parts| - 1];
    var m := MatchingKeys(keys, last);
    if |m| == 1 {
      assert last <= m[0].0;
      PrefixGrows(Join(init, ' ') + " ", last, m[0].0, if m[0].1 then "/" else " ");
    }
  }

  /** A line with a space is its pieces before the last, a space, and the
      last piece. */
  lemma SplitLast(b: string)
    requires ' ' in b
    ensures var parts := Split(b, ' ');
      |parts| >= 2 && b == Join(parts[..|parts| - 1], ' ') + " " + parts[|parts| - 1]
  {
    var parts := Split(b, ' ');
    OccursPositive(b, ' ');
    var init, last := parts[..|parts| - 1], parts[|parts| - 1];
    JoinSplit(b, ' ');
    assert parts == init + [last];
    JoinSnoc(init, last, ' ');
  }

  /** Lengthening the tail of a line keeps the line a prefix. */
  lemma PrefixGrows(pre: string, x: string, y: string, ext: string)
    requires x <= y
    ensures pre + x <= pre + y + ext
  {
    assert (pre + y + ext)[..|pre + x|] == pre + x;
  }

  /** A separator that occurs splits the line into at least two pieces. */
  lemma OccursPositive(s: string, c: char)
    requires c in s
    ensures Occurrences(s, c) > 0
    decreases |s|
  {
    if s[0] != c {
      assert c in s[1..] by {
        var i :| 0 <= i < |s| && s[i] == c;
        assert s[1..][i - 1] == c;
      }
      OccursPositive(s[1..], c);
    }
  }

  /** Joining one more piece puts it after a separator. */
  lemma {:induction false} JoinSnoc(parts: seq<string>, x: string, sep: char)
    requires |parts| >= 1
    ensures Join(parts + [x], sep) == Join(parts, sep) + [sep] + x
    decreases |parts|
  {
    if |parts| > 1 {
      assert (parts + [x])[1..] == parts[1..] + [x];
      JoinSnoc(parts[1..], x, sep);
    }
  }

  /** At home, "cd f" completes to "cd features/"; `cd` then rejects that
      argument because of the trailing "/" (`CdTrailingSlash`). */
  lemma CompleteCdFeatures(b: string, w: string, name: string)
    requires b == "cd f" && w == "f" && name == "features"
    ensures Complete("~", b) == "cd" + " " + name + "/"
  {
    TerminalProperties.HomePrompt();
    var parts := CdWords(b, w);
    CompleteEntryName(Keys(Home), b);
    HomeKeysMatch(w, name);
    assert parts[..1] == ["cd"];
  }

  lemma CdWords(b: string, w: string) returns (parts: seq<string>)
    requires b == "cd f" && w == "f"
    ensures ' ' in b && parts == Split(b, ' ') && parts == ["cd", w]
  {
    parts := Split(b, ' ');
    assert b == "cd" + [' '] + w;
    SplitConcat("cd", w, ' ');
    SplitNoSeparator("cd", ' ');
    SplitNoSeparator(w, ' ');
    assert b[2] == ' ';
  }

  lemma HomeKeysMatch(w: string, name: string)
    requires w == "f" && name == "features"
    ensures MatchingKeys(Keys(Home), w) == [(name, true)]
  {
    HomeNames();
    var ks := Keys(Home);
    assert ks[2] == (name, true);
    forall j | 0 <= j < |ks| && j != 2 ensures !(w <= ks[j].0) {
      assert ks[j].0[0] != 'f';
    }
    MatchingKeysUnique(ks, w, 2);
  }
}
