# tab-showcase, modelled in Dafny

tab-showcase is a marketing demo. It shows five app lookalikes (a short-video feed, a music player, a spreadsheet, a 3D gallery and a terminal), each in four build steps. A global navigation controller decides which view and which step are on screen. This project models the logic inside that demo and proves what it promises:

- the navigation controller and its prioritised keyboard dispatcher;
- the toy shell of the terminal view, which runs over a fixed read-only file tree;
- the spreadsheet editor, which keeps an 8 by 5 grid of strings, a parallel grid of cell formats and five resizable columns;
- the finished music player, and the simpler player rendered at the third build step;
- the feed's engagement counters, its hearts, the screen-to-video mapping and its controls toggle.

Each component's state is a Dafny `class` with the component's own fields. The handlers are methods whose `ensures` give the new state as a function of the old one. The React state updates of one handler run as sequential code over the values captured when the handler starts. The properties are lemmas about those functions.

Files:

- `view_context.dfy` (module `ViewContext`): the view cycle, the step bounds, the dispatcher and the `ViewProvider` class.
- `terminal.dfy` (module `Terminal`): the file tree, path resolution, parsing, the command switch, markdown rendering, history recall, completion and the `Session` class. It also proves that every reachable prompt names a directory.
- `terminal_properties.dfy` (module `TerminalProperties`): parsing, `cat`, markdown and absolute paths.
- `terminal_navigation.dfy` (module `TerminalNavigation`): `cd`, `ls`, recall and Tab completion.
- `spreadsheet.dfy` (module `Spreadsheet`): the grids as `array2`, the widths as an `array`, and the `Sheet` class.
- `clock.dfy` (module `Clock`): the players' m:ss clocks, with a reading-back function `ParseTime` that serves as their inverse.
- `spotify.dfy` (module `Spotify`) and `spotify_step3.dfy` (module `SpotifyStep3`): the two players.
- `tiktok.dfy` (module `TikTok`): the feed's counters, hearts, video sources and key toggle.
- Shared modules:
  - `text.dfy` (module `Text`): JavaScript's `trim`, `split`, `join` and ASCII `toLowerCase`, plus decimal numerals.
  - `content.dfy` (module `Content`): the product copy used by the terminal files, the spreadsheet and the step-3 playlist.
  - `option.dfy` (module `Options`).

Where the program's own text describes a command differently from what its code does, the model follows the code:

- `clear`: the help text calls it "Clear the terminal" (`src/components/views/TerminalFinal.tsx:99`). The code resets the transcript, then appends the line to the transcript captured when the handler started, so the reset is lost. `Terminal.Session.ExecuteCommand` states the code's behaviour: exactly one entry is appended.
- `cd ..`: the comment on its branch reads "Go up one directory" (`src/components/views/TerminalFinal.tsx:249`). The branch that pops a segment is dead code, because every prompt the session reaches starts with "~". So `cd ..` always sets the prompt to "~" (`Terminal.CdUpGoesHome`). In this tree the difference cannot be seen: both directories, "features" and "download", sit directly under "~", so going up one level also lands on "~".

## Model

| member | source | states |
|---|---|---|
| ViewContext.Dispatch | src/contexts/ViewContext.tsx:76-122 | the global key dispatcher; its meaning is stated by `ViewContext.ControlsToggle`, `TerminalIgnoresC`, `OnboardingGate` and `AfterOnboarding` |
| ViewContext.IndexOf | src/contexts/ViewContext.tsx:30-36 | every view occurs in `VIEWS` exactly once, at the returned index |
| ViewContext.ViewAfter | src/contexts/ViewContext.tsx:52-58 | the next view is the one at index (i + 1) mod 5 |
| ViewContext.ViewBefore | src/contexts/ViewContext.tsx:60-66 | the previous view is the one at index (i - 1 + 5) mod 5 |
| ViewContext.StepAfter | src/contexts/ViewContext.tsx:68-70 | the step rises by at most one, and stays put exactly at 4 |
| ViewContext.StepBefore | src/contexts/ViewContext.tsx:72-74 | the step falls by at most one, and stays put exactly at 1 |
| ViewContext.CycleOrder | src/contexts/ViewContext.tsx:30-36 | the cycle goes tiktok, spotify, spreadsheet, 3d, terminal and back to tiktok |
| ViewContext.ForwardIndex | src/contexts/ViewContext.tsx:52-58 | n moves forward land n places on in the list, modulo 5 |
| ViewContext.ForwardWholeCycles | src/contexts/ViewContext.tsx:52-58 | any multiple of five forward moves returns to the starting view |
| ViewContext.ViewBeforeAfter | src/contexts/ViewContext.tsx:52-66 | previous undoes next and next undoes previous, for every view |
| ViewContext.RunStepBounds | src/contexts/ViewContext.tsx:68-74 | under any key sequence the step stays in 1..4 and moves by at most one per key |
| ViewContext.ControlsToggle | src/contexts/ViewContext.tsx:79-86 | outside the terminal, c or C flips only the controls flag, even during onboarding, and twice is the identity |
| ViewContext.TerminalIgnoresC | src/contexts/ViewContext.tsx:79-86 | in the terminal view, c and C change nothing |
| ViewContext.OnboardingGate | src/contexts/ViewContext.tsx:88-96 | during onboarding, Tab only closes the overlay; no key other than Tab and the toggle does anything; view and step never move |
| ViewContext.CompleteOnboardingIdempotent | src/contexts/ViewContext.tsx:89-93 | closing the overlay again changes nothing, and the closing Tab does not advance the step |
| ViewContext.OnboardingHoldsStart | src/contexts/ViewContext.tsx:39-96 | from the initial state, any keys without Tab leave tiktok, step 1 and the overlay up |
| ViewContext.OnboardingHolds | src/contexts/ViewContext.tsx:89-96 | with the overlay up, keys without Tab never move the view or the step or close the overlay |
| ViewContext.AfterOnboarding | src/contexts/ViewContext.tsx:96-110 | after onboarding, Tab, Escape, ArrowRight and ArrowLeft apply the step or view updaters; unbound keys change nothing |
| ViewContext.ViewAndStepIndependent | src/contexts/ViewContext.tsx:52-110 | no key both moves the view and changes the step, and none reopens the overlay |
| ViewContext.ViewProvider.constructor | src/contexts/ViewContext.tsx:39-42 | the start state is tiktok, step 1, onboarding shown and controls hidden |
| ViewContext.ViewProvider.CompleteOnboarding | src/contexts/ViewContext.tsx:44-46 | clears the onboarding flag only |
| ViewContext.ViewProvider.ToggleControls | src/contexts/ViewContext.tsx:48-50 | flips the controls flag only |
| ViewContext.ViewProvider.NextView | src/contexts/ViewContext.tsx:52-58 | moves the view to `ViewAfter` and changes nothing else |
| ViewContext.ViewProvider.PreviousView | src/contexts/ViewContext.tsx:60-66 | moves the view to `ViewBefore` and changes nothing else |
| ViewContext.ViewProvider.NextBuildStep | src/contexts/ViewContext.tsx:68-70 | moves the step to `StepAfter` and changes nothing else |
| ViewContext.ViewProvider.PreviousBuildStep | src/contexts/ViewContext.tsx:72-74 | moves the step to `StepBefore` and changes nothing else |
| ViewContext.ViewProvider.HandleKeyPress | src/contexts/ViewContext.tsx:76-122 | the new state is `Dispatch` of the old state and the key |
| Terminal.CurrentDir | src/components/views/TerminalFinal.tsx:144-157 | `getCurrentDir`: the walk from home along the prompt's segments other than "" and "~"; `Terminal.PromptUnderHome` and `Terminal.WalkDirsWalk` state what it finds |
| Terminal.GetFile | src/components/views/TerminalFinal.tsx:160-198 | `getFile`: the absolute walk, the whole-name lookup, then the segment walk; `TerminalProperties.AbsoluteFile` and `TerminalProperties.CatOutcome` state what it finds |
| Terminal.Parse | src/components/views/TerminalFinal.tsx:209-211 | the command line split into a lower-cased name and the arguments; stated by `TerminalProperties.ParseWords` and `TerminalProperties.ParseTrimmed` |
| Terminal.List | src/components/views/TerminalFinal.tsx:217-238 | `ls`/`dir`: the entries of the prompt's directory, directories flagged; stated by `TerminalNavigation.ListHome` and `TerminalNavigation.ListAfterExecute` |
| Terminal.ChangeDir | src/components/views/TerminalFinal.tsx:241-311 | `cd` with its four branches; stated by `TerminalNavigation.ChangeDirOutcome`, `AbsoluteChangeDir`, `RelativeChangeDir` and `Terminal.CdUpGoesHome` |
| Terminal.CatFile | src/components/views/TerminalFinal.tsx:313-367 | `cat`: the usage error, the not-found error, markdown for ".md" and plain text otherwise; stated by `TerminalProperties.CatOutcome` and `TerminalProperties.CatEntry` |
| Terminal.ClassifyLine | src/components/views/TerminalFinal.tsx:329-353 | the first-match classification of one markdown line; stated by `TerminalProperties.ClassifyLineSource` and `TerminalProperties.ClassifyLineOrder` |
| Terminal.Interpret | src/components/views/TerminalFinal.tsx:216-427 | the command switch over a parsed line; stated by `Terminal.InterpretUnknown` and `Terminal.ExecuteChangesDirOnlyByCd` |
| Terminal.Execute | src/components/views/TerminalFinal.tsx:216-427 | what one command line prints and where it leaves the prompt; stated by `Terminal.ExecutePreservesReachable` and `TerminalProperties.ExecuteWords` |
| Terminal.RecallOlder | src/components/views/TerminalFinal.tsx:451-462 | ArrowUp over the history; stated by `TerminalNavigation.RecallOlderLoads` and `TerminalNavigation.RecallBounds` |
| Terminal.RecallNewer | src/components/views/TerminalFinal.tsx:463-474 | ArrowDown over the history; stated by `TerminalNavigation.RecallNewerLoads` and `TerminalNavigation.RecallNewerUndoesOlder` |
| Terminal.Complete | src/components/views/TerminalFinal.tsx:475-516 | Tab completion of a command name or, after a space, of an entry; stated by `TerminalNavigation.CompleteCommandName` and `TerminalNavigation.CompleteExtends` |
| Terminal.CompleteEntry | src/components/views/TerminalFinal.tsx:501-515 | completion of the last word to the one matching entry; stated by `TerminalNavigation.CompleteEntryName` and `TerminalNavigation.CompleteEntryExtends` |
| Terminal.Lookup | src/components/views/TerminalFinal.tsx:149-150 | a found entry is in the directory under that name; a miss means no entry has the name |
| Terminal.Child | src/components/views/TerminalFinal.tsx:149-153 | a child is found only inside a directory, under its name; a file has no children |
| Terminal.NonEmpty | src/components/views/TerminalFinal.tsx:164 | the filtered segments are all non-empty, and there are no more of them than before |
| Terminal.NonHome | src/components/views/TerminalFinal.tsx:145 | the filtered segments are neither empty nor "~" |
| Terminal.CleanPath | src/components/views/TerminalFinal.tsx:163 | exactly one leading "~/", or failing that one leading "/", is removed; any other path is unchanged |
| Terminal.RenderMarkdown | src/components/views/TerminalFinal.tsx:326-353 | one rendered line per line of the file |
| Terminal.Keys | src/components/views/TerminalFinal.tsx:221-229 | a directory lists its entry names in insertion order, each flagged when it is a directory |
| Terminal.CommandOf | src/components/views/TerminalFinal.tsx:216-427 | the switch selects `cd` exactly for "cd", the empty case exactly for "", and the default exactly for names not in the command list |
| Terminal.Matching | src/components/views/TerminalFinal.tsx:494 | the matches are exactly the command names that start with the prefix |
| Terminal.MatchingKeys | src/components/views/TerminalFinal.tsx:505-506 | the matches are exactly the entries whose name starts with the prefix |
| Terminal.Session.constructor | src/components/views/TerminalFinal.tsx:108-123 | the welcome entry, an empty buffer, prompt "~", an empty history and index -1 |
| Terminal.Session.InputChange | src/components/views/TerminalFinal.tsx:439-441 | sets the buffer only |
| Terminal.Session.ExecuteCommand | src/components/views/TerminalFinal.tsx:201-436 | appends exactly one entry (the line and what `Execute` prints, `clear` included) to the transcript captured at entry; moves the prompt as `Execute` says; empties the buffer; pushes a non-blank line onto the history with index -1; keeps the prompt reachable |
| Terminal.Session.Submit | src/components/views/TerminalFinal.tsx:444-447 | runs the buffer as a command line: one transcript entry for it, the prompt `Execute` gives, an empty buffer, and a non-blank buffer pushed onto the history with the recall index reset to -1 (a blank one leaves both) |
| Terminal.Session.HandleKeyDown | src/components/views/TerminalFinal.tsx:450-517 | ArrowUp and ArrowDown apply `RecallOlder` and `RecallNewer` to the index and the buffer; Tab applies `Complete`; other keys, the transcript, the prompt and the history stay |
| Terminal.FeaturesNamesOk | src/components/views/TerminalFinal.tsx:57-62 | every name in "~/features" is one segment with no space that does not start with "~" |
| Terminal.FeatureNameOk | src/components/views/TerminalFinal.tsx:58-61 | each feature file name is such a segment |
| Terminal.DownloadsNamesOk | src/components/views/TerminalFinal.tsx:63-69 | the same for "~/download" |
| Terminal.HomeNamesOk | src/components/views/TerminalFinal.tsx:52-71 | the same for the whole tree |
| Terminal.HomeReachable | src/components/views/TerminalFinal.tsx:144-157 | the start prompt "~" names a directory |
| Terminal.ChildNamesOk | src/components/views/TerminalFinal.tsx:149-150 | a child of a well-named tree is well named, and so is the name that found it |
| Terminal.WalkDirsWalk | src/components/views/TerminalFinal.tsx:269-279 | a path that `cd`'s walk accepts is found by the prompt's walk and ends on a directory, and no segment of it starts with "~" |
| Terminal.WalkAppend | src/components/views/TerminalFinal.tsx:148-154 | walking one more segment is one more child lookup |
| Terminal.NonHomeAppend | src/components/views/TerminalFinal.tsx:145 | the filter distributes over concatenation |
| Terminal.NonHomeNonEmpty | src/components/views/TerminalFinal.tsx:145 | without "~" segments the two filters agree |
| Terminal.NonEmptyOfNonHome | src/components/views/TerminalFinal.tsx:145 | when no surviving segment is "~", the two filters agree |
| Terminal.PromptUnderHome | src/components/views/TerminalFinal.tsx:282-284 | the prompt "~/" + p names what the walk of p's segments from home finds |
| Terminal.ExecutePreservesReachable | src/components/views/TerminalFinal.tsx:241-311 | from a reachable prompt, every command line leaves a reachable prompt, so `getCurrentDir` never fails |
| Terminal.ExecuteChangesDirOnlyByCd | src/components/views/TerminalFinal.tsx:216-427 | only `cd` moves the prompt |
| Terminal.ChangeDirPreservesReachable | src/components/views/TerminalFinal.tsx:241-311 | `cd` with any argument keeps the prompt reachable |
| Terminal.TildeArgIsUnderHome | src/components/views/TerminalFinal.tsx:265-284 | an absolute argument starting with "~" is accepted only when it starts with "~/" |
| Terminal.FirstSegmentStartsWithTilde | src/components/views/TerminalFinal.tsx:266-267 | a path starting with "~" has a first segment that starts with "~" |
| Terminal.RelativeStep | src/components/views/TerminalFinal.tsx:297-305 | stepping into a child directory keeps the prompt reachable |
| Terminal.PromptStep | src/components/views/TerminalFinal.tsx:303 | appending "/" and a name to a prompt walks one step further |
| Terminal.WalkNamesOk | src/components/views/TerminalFinal.tsx:148-154 | every node that a walk reaches is well named |
| Terminal.CdUpGoesHome | src/components/views/TerminalFinal.tsx:242-258 | `cd` and `cd ..` both go to "~" from every reachable prompt, because the pop branch never runs |
| Terminal.InterpretUnknown | src/components/views/TerminalFinal.tsx:423-426 | an unknown name prints "Command not found: " and the name, and the prompt stays |
| TerminalProperties.TrimNoop | src/components/views/TerminalFinal.tsx:209 | a line with no space at either end is its own trim |
| TerminalProperties.JoinEnds | src/components/views/TerminalFinal.tsx:209 | joined non-empty words begin with the first word's first character and end with the last word's last character |
| TerminalProperties.ParseWords | src/components/views/TerminalFinal.tsx:209-211 | words joined by single spaces parse as the lower-cased first word plus the other words with their case kept |
| TerminalProperties.ParseTrimmed | src/components/views/TerminalFinal.tsx:209 | surrounding white space does not change the parse |
| TerminalProperties.LowerWord | src/components/views/TerminalFinal.tsx:210 | lower-casing keeps a word a word, and does nothing the second time |
| TerminalProperties.ExecuteWords | src/components/views/TerminalFinal.tsx:209-216 | a line of words runs the command its lower-cased first word names, on the other words |
| TerminalProperties.UnknownCommand | src/components/views/TerminalFinal.tsx:423-426 | an unknown first word prints "Command not found: " and the lower-cased word, and the prompt stays |
| TerminalProperties.FileTextNonEmpty | src/components/views/TerminalFinal.tsx:52-71 | each file's text has the recorded length and is not empty, so every entry is truthy |
| TerminalProperties.ClassifyLineSource | src/components/views/TerminalFinal.tsx:329-353 | every line can be recovered from its rendering, except a lone "_", which renders as italic "_" |
| TerminalProperties.ClassifyLineOrder | src/components/views/TerminalFinal.tsx:330-347 | "## " lines are second-level headings, and a "# " heading wrapped in underscores stays a heading |
| TerminalProperties.ReadmeRendering | src/components/views/TerminalFinal.tsx:325-353 | README.md renders as heading "Cursor", a break, the subtitle paragraph, a break and italic "for noobs" |
| TerminalProperties.ReadmeLineKinds | src/components/views/TerminalFinal.tsx:329-353 | how each README line is classified |
| TerminalProperties.ReadmeLines | src/components/views/TerminalFinal.tsx:326 | README.md splits into its five lines |
| TerminalProperties.ReadmeJoin | src/components/views/TerminalFinal.tsx:54 | README.md is those lines joined by newlines |
| TerminalProperties.ReadmeShape | src/components/views/TerminalFinal.tsx:54 | the README template as joined lines |
| TerminalProperties.ReadmeLinesHaveNoBreak | src/components/views/TerminalFinal.tsx:54 | no README line holds a newline |
| TerminalProperties.LookupAt | src/components/views/TerminalFinal.tsx:149-150 | a lookup finds the first entry with the name |
| TerminalProperties.HomePrompt | src/components/views/TerminalFinal.tsx:144-157 | the prompt "~" names the home directory |
| TerminalProperties.CatEntry | src/components/views/TerminalFinal.tsx:321-367 | `cat` of a child shows a file, as markdown exactly for ".md", and rejects a directory |
| TerminalProperties.CatReadme | src/components/views/TerminalFinal.tsx:321-355 | `cat README.md` at home shows README.md rendered as markdown |
| TerminalProperties.CatOutcome | src/components/views/TerminalFinal.tsx:313-367 | `cat` fails exactly for a missing argument, a missing path or a directory, with "Usage: cat <filename>" or "File not found: <arg>"; otherwise it shows the file that `getFile` finds, as markdown exactly for ".md" |
| TerminalProperties.AbsoluteFile | src/components/views/TerminalFinal.tsx:160-175 | "~/features/03_quality.md" and "/features/03_quality.md" reach the same file from any prompt |
| TerminalProperties.AbsoluteTilde | src/components/views/TerminalFinal.tsx:162-174 | the "~/" form reaches it |
| TerminalProperties.AbsoluteSlash | src/components/views/TerminalFinal.tsx:162-174 | the "/" form reaches it |
| TerminalProperties.CleanTilde | src/components/views/TerminalFinal.tsx:162-163 | a "~/" path is absolute and loses its "~/" |
| TerminalProperties.CleanSlash | src/components/views/TerminalFinal.tsx:162-163 | a "/" path is absolute and loses its "/" |
| TerminalProperties.HomeFeatures | src/components/views/TerminalFinal.tsx:57 | home's "features" entry is the features directory |
| TerminalProperties.FeaturesQuality | src/components/views/TerminalFinal.tsx:60 | the features directory's "03_quality.md" is that file |
| TerminalProperties.AbsoluteWalk | src/components/views/TerminalFinal.tsx:164-174 | a two-segment absolute path walks two steps from home |
| TerminalNavigation.ChangeDirOutcome | src/components/views/TerminalFinal.tsx:241-311 | `cd` either prints nothing, or prints "Directory not found: <arg>" and stays; with no argument it goes to "~" |
| TerminalNavigation.AbsoluteChangeDir | src/components/views/TerminalFinal.tsx:265-293 | an absolute `cd` succeeds exactly when every segment names a directory, and then moves to the argument ("~" form) or to "~/" + the cleaned path |
| TerminalNavigation.RelativeChangeDir | src/components/views/TerminalFinal.tsx:297-310 | a relative `cd` succeeds exactly when the whole argument names a child directory |
| TerminalNavigation.CdTildeRejected | src/components/views/TerminalFinal.tsx:265-291 | `cd ~` prints "Directory not found: ~" and stays |
| TerminalNavigation.HomeNames | src/components/views/TerminalFinal.tsx:53-63 | home's four entry names, in order |
| TerminalNavigation.HomeHasNo | src/components/views/TerminalFinal.tsx:53-63 | any other name is not found at home |
| TerminalNavigation.CdFeatures | src/components/views/TerminalFinal.tsx:297-305 | `cd features` at home moves to "~/features" |
| TerminalNavigation.CdSlashFeatures | src/components/views/TerminalFinal.tsx:265-285 | `cd /features` moves to "~/features" from anywhere |
| TerminalNavigation.CdTrailingSlash | src/components/views/TerminalFinal.tsx:297-310 | `cd features/` at home is rejected |
| TerminalNavigation.ListHome | src/components/views/TerminalFinal.tsx:217-235 | `ls` at home lists README.md, about.txt, features and download, with the two directories flagged |
| TerminalNavigation.ListAfterExecute | src/components/views/TerminalFinal.tsx:217-238 | after any command, `ls` lists a directory and never prints "Directory not found" |
| TerminalNavigation.RecallOlderLoads | src/components/views/TerminalFinal.tsx:451-462 | ArrowUp moves one entry older, stopping at the oldest, and loads `history[len - 1 - index]` |
| TerminalNavigation.RecallNewerLoads | src/components/views/TerminalFinal.tsx:463-474 | ArrowDown moves one entry newer, goes from index 0 to -1 with an empty buffer, and does nothing at -1 |
| TerminalNavigation.RecallBounds | src/components/views/TerminalFinal.tsx:451-474 | the index stays in [-1, len - 1] |
| TerminalNavigation.RecallNewerUndoesOlder | src/components/views/TerminalFinal.tsx:451-474 | ArrowDown undoes an ArrowUp that moved |
| TerminalNavigation.CompleteCommandName | src/components/views/TerminalFinal.tsx:482-499 | without a space, Tab gives the single matching command name plus " ", or leaves the buffer |
| TerminalNavigation.CompleteLs | src/components/views/TerminalFinal.tsx:482-499 | "l" completes to "ls " |
| TerminalNavigation.CompleteAmbiguous | src/components/views/TerminalFinal.tsx:482-499 | "c", "d" and "" each fit two command names, so Tab leaves them as they are |
| TerminalNavigation.CompleteL | src/components/views/TerminalFinal.tsx:483-494 | "l" matches "ls" alone |
| TerminalNavigation.Ambiguous | src/components/views/TerminalFinal.tsx:494-498 | two matching names mean no completion |
| TerminalNavigation.MatchingUnique | src/components/views/TerminalFinal.tsx:494 | a prefix that fits one name only matches that name |
| TerminalNavigation.MatchingNone | src/components/views/TerminalFinal.tsx:494 | a prefix that fits no name matches nothing |
| TerminalNavigation.MatchingKeysUnique | src/components/views/TerminalFinal.tsx:505-506 | a prefix that fits one entry only matches that entry |
| TerminalNavigation.MatchingKeysNone | src/components/views/TerminalFinal.tsx:505-506 | a prefix that fits no entry matches nothing |
| TerminalNavigation.CompleteEntryName | src/components/views/TerminalFinal.tsx:500-515 | with a space, Tab replaces the last word by the single matching entry, followed by "/" for a directory and " " for a file; otherwise the buffer stays |
| TerminalNavigation.CompleteExtends | src/components/views/TerminalFinal.tsx:475-516 | Tab only ever extends the buffer |
| TerminalNavigation.CompleteEntryExtends | src/components/views/TerminalFinal.tsx:500-515 | completing an entry name extends the buffer |
| TerminalNavigation.SplitLast | src/components/views/TerminalFinal.tsx:502-503 | a line with a space is its leading words, a space and its last word |
| TerminalNavigation.PrefixGrows | src/components/views/TerminalFinal.tsx:509-513 | lengthening the last word keeps the line a prefix |
| TerminalNavigation.OccursPositive | src/components/views/TerminalFinal.tsx:502 | a line that holds a space splits into at least two words |
| TerminalNavigation.JoinSnoc | src/components/views/TerminalFinal.tsx:511 | joining one more word puts it after a separator |
| TerminalNavigation.CompleteCdFeatures | src/components/views/TerminalFinal.tsx:500-515 | at home, "cd f" completes to "cd features/" |
| TerminalNavigation.HomeKeysMatch | src/components/views/TerminalFinal.tsx:505-506 | "f" matches the entry "features" alone, a directory |
| Spreadsheet.ToolbarOf | src/components/views/SpreadsheetFinal.tsx:105-117 | the toolbar buttons mirror the edited cell's flags; stated by `Spreadsheet.FlipMirrors` and `Spreadsheet.Sheet.StartEditing` |
| Spreadsheet.NextCell | src/components/views/SpreadsheetFinal.tsx:150-157 | the cell Tab moves to; stated by `Spreadsheet.NextCellOrder` and `Spreadsheet.TabWalkVisitsAll` |
| Spreadsheet.NewWidth | src/components/views/SpreadsheetFinal.tsx:177 | the dragged width, at least 60; stated by `Spreadsheet.ResizeFollowsPointer` and `Spreadsheet.ResizeKeepsMinimum` |
| Spreadsheet.Resized | src/components/views/SpreadsheetFinal.tsx:172-180 | the widths after one pointer move; stated by `Spreadsheet.ResizeFollowsPointer` and `Spreadsheet.ResizeKeepsMinimum` |
| Spreadsheet.ColumnStart | src/components/views/SpreadsheetFinal.tsx:172-175 | the left edge of a column as the sum of the widths before it; stated by `Spreadsheet.ColumnStartsIncrease` and `Spreadsheet.Sheet.ColumnLeft` |
| Spreadsheet.Flip | src/components/views/SpreadsheetFinal.tsx:206-209 | negates the chosen flag and keeps the other flags, the alignment and the colours |
| Spreadsheet.Press | src/components/views/SpreadsheetFinal.tsx:211-214 | negates the chosen toolbar button and keeps the others |
| Spreadsheet.CellAt | src/components/views/SpreadsheetFinal.tsx:152-156 | every row-major position belongs to a cell of the grid |
| Spreadsheet.InitialSheet | src/components/views/SpreadsheetFinal.tsx:7-40 | a fresh 8 by 5 grid holding the initial text |
| Spreadsheet.InitialColumns | src/components/views/SpreadsheetFinal.tsx:43 | fresh widths 80, 200, 400, 120, 120, all at least 60 |
| Spreadsheet.Sheet.constructor | src/components/views/SpreadsheetFinal.tsx:7-99 | the initial text, formats and widths; no active cell, not editing, not dragging; a clear toolbar |
| Spreadsheet.Sheet.StartEditing | src/components/views/SpreadsheetFinal.tsx:105-117 | the clicked cell becomes active, its text goes into the editor, editing starts, and its flags go into the toolbar |
| Spreadsheet.Sheet.EditInput | src/components/views/SpreadsheetFinal.tsx:91 | sets the editor text only |
| Spreadsheet.Sheet.FinishEditing | src/components/views/SpreadsheetFinal.tsx:128-137 | writes the editor text into exactly the active cell (no cell without one), then clears the active cell and editing |
| Spreadsheet.Sheet.HandleKeyDown | src/components/views/SpreadsheetFinal.tsx:140-159 | Enter commits; Escape abandons with the data unchanged; Tab commits and opens the next cell in row-major order, or none after (7, 4); the editor text is kept unless Tab opens a cell; other keys change nothing |
| Spreadsheet.Sheet.ToggleFormat | src/components/views/SpreadsheetFinal.tsx:202-216 | flips one flag of the active cell only, and the matching button; nothing without an active cell |
| Spreadsheet.Sheet.StartResize | src/components/views/SpreadsheetFinal.tsx:162-164 | sets the dragged column only |
| Spreadsheet.Sheet.ColumnLeft | src/components/views/SpreadsheetFinal.tsx:172-175 | the loop's result is 40 plus the widths to the column's left |
| Spreadsheet.Sheet.HandleMouseMove | src/components/views/SpreadsheetFinal.tsx:166-182 | while dragging, sets only that column's width to max(60, x - its start); otherwise nothing changes |
| Spreadsheet.Sheet.HandleMouseUp | src/components/views/SpreadsheetFinal.tsx:184-186 | ends the drag only |
| Spreadsheet.InitialCells | src/components/views/SpreadsheetFinal.tsx:7-40 | the title, subtitle, tagline and call to action are in place, the section numbers have two characters, and row 2 is empty |
| Spreadsheet.InitialBold | src/components/views/SpreadsheetFinal.tsx:56-84 | bold exactly on (0, 0), the numbers and titles of the four sections, and the call to action, which alone has a background; nothing is italic or underlined, and everything is left-aligned |
| Spreadsheet.FlipTwice | src/components/views/SpreadsheetFinal.tsx:206-209 | toggling a flag twice restores the format |
| Spreadsheet.FlipMirrors | src/components/views/SpreadsheetFinal.tsx:202-216 | after a toggle the toolbar still mirrors the cell |
| Spreadsheet.NextCellOrder | src/components/views/SpreadsheetFinal.tsx:150-157 | Tab moves one cell on in row-major order and stops exactly after (7, 4) |
| Spreadsheet.TabWalkVisitsAll | src/components/views/SpreadsheetFinal.tsx:146-157 | Tab from (0, 0) visits all 40 cells once in row-major order, then runs out |
| Spreadsheet.IndexInjective | src/components/views/SpreadsheetFinal.tsx:150-157 | different cells have different row-major positions |
| Spreadsheet.ResizeFollowsPointer | src/components/views/SpreadsheetFinal.tsx:166-182 | a resized column is at least 60 wide, its right edge follows the pointer beyond that, and the other widths stay |
| Spreadsheet.ResizeKeepsMinimum | src/components/views/SpreadsheetFinal.tsx:177 | all widths stay at 60 or more |
| Spreadsheet.ColumnStartsIncrease | src/components/views/SpreadsheetFinal.tsx:172-175 | each column starts at least 60 to the right of the one before |
| Clock.FormatTime | src/components/views/SpotifyFinal.tsx:110-114 | `formatTime` with JavaScript's truncating `%`; stated by `Clock.ParseFormatTime`, `Clock.FormatParseTime`, `Clock.FormatTimeShape` and `Clock.FormatTimeInjective` |
| Clock.FormatRemainingTime | src/components/views/SpotifyFinal.tsx:117-122 | `formatRemainingTime`; stated by `Clock.RemainingIsMinusClock` and `Clock.ParseRemaining` |
| Clock.TruncRem | src/components/views/SpotifyFinal.tsx:112 | JavaScript's remainder: Dafny's for a non-negative left side; otherwise negative or zero, with the sign of the dividend |
| Clock.TwoDigits | src/components/views/SpotifyFinal.tsx:113 | two decimal digits |
| Clock.RemainingIsMinusClock | src/components/views/SpotifyFinal.tsx:117-122 | the remaining-time clock is "-" followed by the clock of what remains |
| Clock.ParseRemaining | src/components/views/SpotifyFinal.tsx:117-122 | after the "-", the remaining clock reads back as total minus played |
| Clock.FormatTimeShape | src/components/views/SpotifyFinal.tsx:110-114 | for non-negative seconds the clock is the minutes, ":" and exactly two digits of seconds |
| Clock.ParseTwoDigits | src/components/views/SpotifyFinal.tsx:113 | the two digits read back as the seconds |
| Clock.ParseFormatTime | src/components/views/SpotifyFinal.tsx:110-114 | every clock reads back as the seconds it shows |
| Clock.ParseClock | src/components/views/SpotifyFinal.tsx:113 | "m:ss" reads back as 60m + s |
| Clock.FormatParseTime | src/components/views/SpotifyFinal.tsx:110-114 | every string that reads back is the clock of what it reads as |
| Clock.TwoDigitsParse | src/components/views/SpotifyFinal.tsx:113 | two digits below 60 are the `TwoDigits` of their value |
| Clock.FormatTimeInjective | src/components/views/SpotifyFinal.tsx:110-114 | different times show as different clocks |
| Clock.Yellow | src/components/views/SpotifyFinal.tsx:110-122 | 267 seconds show as "4:27", with "-4:27" remaining at the start |
| Clock.FourMinutes | src/components/views/SpotifyStepViews.tsx:230-234 | 240 seconds show as "4:00" |
| Spotify.KeyPress | src/components/views/SpotifyFinal.tsx:125-143 | `handleKeyPress`; stated by `Spotify.KeyBindings` and `Spotify.TransitionsBounded` |
| Spotify.PlayPause | src/components/views/SpotifyFinal.tsx:67-69 | flips playing and nothing else |
| Spotify.Next | src/components/views/SpotifyFinal.tsx:72-76 | the track wraps forward, the clock goes to 0, playback starts, and the toggles stay |
| Spotify.Prev | src/components/views/SpotifyFinal.tsx:79-83 | the track wraps backward, the clock goes to 0, playback starts, and the toggles stay |
| Spotify.Tick | src/components/views/SpotifyFinal.tsx:86-107 | nothing while paused or at the end; otherwise one second more, and at the end 0:00 on the same track under repeat or the next track |
| Spotify.InitialBounded | src/components/views/SpotifyFinal.tsx:50-57 | the start state is in range, and paused |
| Spotify.TransitionsBounded | src/components/views/SpotifyFinal.tsx:67-143 | every handler and tick keeps the track in 0..3 and the clock in [0, 267) |
| Spotify.NextPrevInverse | src/components/views/SpotifyFinal.tsx:72-83 | previous undoes next and next undoes previous, up to restarting and playing |
| Spotify.NextCycles | src/components/views/SpotifyFinal.tsx:72-76 | four presses of next return to the starting track |
| Spotify.TicksWithinTrack | src/components/views/SpotifyFinal.tsx:89-101 | while inside a track, k ticks add k seconds |
| Spotify.TrackLastsDuration | src/components/views/SpotifyFinal.tsx:86-107 | a track played from 0:00 runs 267 ticks, then restarts under repeat or moves to the next track |
| Spotify.KeyBindings | src/components/views/SpotifyFinal.tsx:125-143 | input targets swallow keys; space plays or pauses, n or N goes forward, p or P goes back, and other keys do nothing |
| Spotify.InitialClock | src/components/views/SpotifyFinal.tsx:279-280 | the clock reads "0:00" and "-4:27" at the start |
| Spotify.ClockAddsUp | src/components/views/SpotifyFinal.tsx:279-280 | played and remaining read back as t and 267 - t |
| Spotify.DurationIsFirstTrack | src/components/views/SpotifyFinal.tsx:18-52 | the fixed 267 seconds match the listed length of the first track only |
| Spotify.Player.constructor | src/components/views/SpotifyFinal.tsx:50-57 | paused at 0:00 on the first track, with every toggle off |
| Spotify.Player.TogglePlayPause | src/components/views/SpotifyFinal.tsx:67-69 | the new state is `PlayPause` of the old one |
| Spotify.Player.NextTrack | src/components/views/SpotifyFinal.tsx:72-76 | the new state is `Next` of the old one |
| Spotify.Player.PrevTrack | src/components/views/SpotifyFinal.tsx:79-83 | the new state is `Prev` of the old one |
| Spotify.Player.TimerTick | src/components/views/SpotifyFinal.tsx:89-103 | the new state is `Tick` of the old one |
| Spotify.Player.HandleKeyPress | src/components/views/SpotifyFinal.tsx:126-143 | the new state is `KeyPress` of the old one |
| Spotify.Player.ToggleLike | src/components/views/SpotifyFinal.tsx:244 | flips the like flag only |
| Spotify.Player.ToggleShuffle | src/components/views/SpotifyFinal.tsx:290 | flips the shuffle flag only |
| Spotify.Player.ToggleRepeat | src/components/views/SpotifyFinal.tsx:314 | flips the repeat flag only |
| SpotifyStep3.PlayPause | src/components/views/SpotifyStepViews.tsx:193-195 | flips playing and nothing else |
| SpotifyStep3.Next | src/components/views/SpotifyStepViews.tsx:198-201 | the track wraps forward and the clock goes to 0; playing or paused stays |
| SpotifyStep3.Prev | src/components/views/SpotifyStepViews.tsx:204-207 | the track wraps backward and the clock goes to 0; playing or paused stays |
| SpotifyStep3.Tick | src/components/views/SpotifyStepViews.tsx:210-227 | one second more while playing; at 240 the next track from 0:00; no repeat |
| SpotifyStep3.NowPlaying | src/components/views/SpotifyStepViews.tsx:261-266 | the shown artist is always "Cursor" |
| SpotifyStep3.TransitionsBounded | src/components/views/SpotifyStepViews.tsx:193-227 | every handler and tick keeps the track in 0..3, so `playlists[currentTrack]` exists, and the clock in [0, 240) |
| SpotifyStep3.NextPrevInverse | src/components/views/SpotifyStepViews.tsx:198-207 | previous undoes next and next undoes previous, up to restarting the track |
| SpotifyStep3.TicksWithinTrack | src/components/views/SpotifyStepViews.tsx:213-221 | while inside a track, k ticks add k seconds |
| SpotifyStep3.TrackLastsDuration | src/components/views/SpotifyStepViews.tsx:210-227 | a track played from 0:00 runs 240 ticks, then the next track plays from 0:00 |
| SpotifyStep3.TracksAreSections | src/components/views/SpotifyStepViews.tsx:33-66 | the tracks are the four product sections in order, by "Cursor" |
| SpotifyStep3.TotalClock | src/components/views/SpotifyStepViews.tsx:288 | the total clock always reads "4:00", which is no listed track's length |
| SpotifyStep3.ElapsedReadsBack | src/components/views/SpotifyStepViews.tsx:230-234 | the elapsed clock reads back as the time played |
| SpotifyStep3.Player.constructor | src/components/views/SpotifyStepViews.tsx:186-190 | paused at 0:00 on the first track |
| SpotifyStep3.Player.TogglePlayPause | src/components/views/SpotifyStepViews.tsx:193-195 | the new state is `PlayPause` of the old one |
| SpotifyStep3.Player.NextTrack | src/components/views/SpotifyStepViews.tsx:198-201 | the new state is `Next` of the old one |
| SpotifyStep3.Player.PrevTrack | src/components/views/SpotifyStepViews.tsx:204-207 | the new state is `Prev` of the old one |
| SpotifyStep3.Player.TimerTick | src/components/views/SpotifyStepViews.tsx:213-224 | the new state is `Tick` of the old one |
| TikTok.VideoSource | src/components/views/TikTokFinal.tsx:117-130 | `getVideoSource`; stated by `TikTok.VideoSourceNumbered` and `TikTok.VideoSourcesDistinct` |
| TikTok.Increment | src/components/views/TikTokFinal.tsx:137-143 | `incrementCount`'s counter update; stated by `TikTok.IncrementCounts`, `TikTok.IncrementShows` and `TikTok.PressesAdd` |
| TikTok.Hearts | src/components/views/TikTokFinal.tsx:147-153 | the heart update of a press; stated by `TikTok.HeartsSticky` |
| TikTok.ControlsAfterKey | src/components/views/TikTokFinal.tsx:213-219 | the "c" shortcut; stated by `TikTok.ControlsKey` |
| TikTok.WithCount | src/components/views/TikTokFinal.tsx:140-143 | replaces the chosen counter and keeps the other two |
| TikTok.InitialCounts | src/components/views/TikTokFinal.tsx:93-105 | a counter record for exactly the five screens |
| TikTok.InitialState | src/components/views/TikTokFinal.tsx:91-110 | every counter of every screen starts at "10", and no heart is red |
| TikTok.FirstPress | src/components/views/TikTokFinal.tsx:132-145 | the first press turns "10" into "11" |
| TikTok.IncrementCounts | src/components/views/TikTokFinal.tsx:132-145 | the counter's number rises by one and stays a numeral; the other counters and the other screens are unchanged |
| TikTok.Presses | src/components/views/TikTokFinal.tsx:132-145 | repeated presses keep the screens and keep the counter a string of digits |
| TikTok.PressesAdd | src/components/views/TikTokFinal.tsx:132-145 | after k presses, the counter shows its old number plus k, in decimal |
| TikTok.PressesFrom | src/components/views/TikTokFinal.tsx:137-142 | a counter showing n shows n + k after k presses |
| TikTok.NumeralCount | src/components/views/TikTokFinal.tsx:91-105 | every counter of a well-formed feed is a numeral |
| TikTok.IncrementShows | src/components/views/TikTokFinal.tsx:137-142 | a counter showing n shows n + 1 after a press |
| TikTok.HeartsSticky | src/components/views/TikTokFinal.tsx:147-153 | a like makes the heart red; a red heart stays red; comments and bookmarks change no heart; other screens' hearts are untouched |
| TikTok.VideoSourceNumbered | src/components/views/TikTokFinal.tsx:117-130 | screen n in 1..5 plays "/TikTok/cursor_vid<n>.mp4", and any other id gets "" |
| TikTok.VideoSourcesDistinct | src/components/views/TikTokFinal.tsx:117-130 | different screens play different clips |
| TikTok.ControlsKey | src/components/views/TikTokFinal.tsx:213-219 | the panel flips exactly for "c" and "C" |
| TikTok.Feed.constructor | src/components/views/TikTokFinal.tsx:91-110 | the initial counters, no red hearts, the panel hidden |
| TikTok.Feed.IncrementCount | src/components/views/TikTokFinal.tsx:132-154 | the counters become `Increment` of the old ones and the hearts `Hearts` of the old ones; the counters stay well formed |
| TikTok.Feed.HandleKeyPress | src/components/views/TikTokFinal.tsx:214-219 | the panel flag becomes `ControlsAfterKey`; counters and hearts stay |
| Text.IsSpace | src/components/views/TerminalFinal.tsx:209 | the ECMAScript white-space and line-terminator characters that `trim` removes; used by `Text.Trim` and stated through `Text.TrimEnds` and `Text.TrimWindow` |
| Text.EndsWith | src/components/views/TerminalFinal.tsx:342 | `endsWith`; used by `Terminal.ClassifyLine` and `Terminal.CatFile`, and stated through `TerminalProperties.ClassifyLineSource` and `TerminalProperties.CatEntry` |
| Text.ParseNat | src/components/views/TikTokFinal.tsx:137 | `parseInt` on a string of decimal digits; stated by `Text.ParseNatToString` and `Text.NatToStringParse` |
| Text.TrimStart | src/components/views/TerminalFinal.tsx:209 | a suffix of the input that is empty or starts with a non-space |
| Text.TrimEnd | src/components/views/TerminalFinal.tsx:209 | a prefix of the input that is empty or ends with a non-space |
| Text.Trim | src/components/views/TerminalFinal.tsx:209 | empty exactly for a blank line; otherwise it begins and ends with a non-space |
| Text.TrimEnds | src/components/views/TerminalFinal.tsx:209 | trimming both ends leaves no space at either end |
| Text.TrimWindow | src/components/views/TerminalFinal.tsx:203 | the trim is empty exactly for a blank line |
| Text.TrimAllSpace | src/components/views/TerminalFinal.tsx:203 | an empty trim means the line was blank |
| Text.LeadingSpaces | src/components/views/TerminalFinal.tsx:209 | everything the start trim drops is white space |
| Text.TrailingSpaces | src/components/views/TerminalFinal.tsx:209 | everything the end trim drops is white space |
| Text.TrimInner | src/components/views/TerminalFinal.tsx:203 | a non-empty trim means the line was not blank |
| Text.LowerChar | src/components/views/TerminalFinal.tsx:210 | capital ASCII letters move down by 32; every other character stays |
| Text.Lower | src/components/views/TerminalFinal.tsx:210 | lower-cases each character and keeps the length |
| Text.LowerIsLetter | src/components/views/SpotifyFinal.tsx:138-140 | a key lower-cases to a letter exactly when it is that letter or its capital |
| Text.Split | src/components/views/TerminalFinal.tsx:209 | at least one piece, none holding the separator, one more piece than separators |
| Text.Join | src/components/views/TerminalFinal.tsx:511 | one piece joins to itself; `Text.JoinSplit` and `Text.SplitJoin` prove it the inverse of `Text.Split` |
| Text.JoinSplit | src/components/views/TerminalFinal.tsx:502-511 | joining the split pieces gives back the line |
| Text.SplitJoin | src/components/views/TerminalFinal.tsx:209 | splitting joined separator-free pieces gives back the pieces |
| Text.SplitNoSeparator | src/components/views/TerminalFinal.tsx:209 | a line without the separator is one piece |
| Text.SplitConcat | src/components/views/TerminalFinal.tsx:164 | splitting at one separator concatenates the splits of the two sides |
| Text.DigitChar | src/components/views/SpotifyFinal.tsx:113 | the decimal digit of a value below 10 |
| Text.NatToString | src/components/views/TikTokFinal.tsx:142 | `String(n)` of a natural is a canonical numeral |
| Text.IntToString | src/components/views/SpotifyFinal.tsx:113 | a numeral, after a "-" for a negative value |
| Text.ParseNatToString | src/components/views/TikTokFinal.tsx:137-142 | reading `String(n)` back gives n |
| Text.NatToStringParse | src/components/views/TikTokFinal.tsx:137-142 | a canonical numeral is `String` of its value |
| Text.ParsePositive | src/components/views/TikTokFinal.tsx:137 | digits not starting with "0" have a positive value |
| Text.NatToStringInjective | src/components/views/TikTokFinal.tsx:142 | different numbers print differently |

## Left out

- Rendering: the JSX markup, styling, animation and fonts of every component; outputs are modelled as data (`Terminal.Output`, `Terminal.MdLine`) rather than elements.
- The other view files: the 3D gallery (`GalleryFinal.tsx`, a three.js scene with floating-point placement), the build-step pages other than the third music-player step, the onboarding and controls overlays, and the per-view step switches, which only choose what to render.
- Timers and the DOM: `setInterval`, `setTimeout`, focus and scrolling, video playback and pausing, the IntersectionObserver of the feed, and the download progress animation. One firing of an interval is the method `TimerTick`.
- How listeners combine: the nested providers, the onboarding overlay's own Tab listener (`ViewContext.CompleteOnboardingIdempotent` covers its effect), keys that reach both a view and the global dispatcher, and the cell editor's `onBlur` handler, which runs `finishEditing` when the editor loses focus (a click into another cell, say); `Spreadsheet.Sheet.FinishEditing` states what that does, but the model has no focus events that would call it. React's batching of state updates is modelled as sequential code over the values captured when each handler starts.
- Seeking by clicking the progress bar, which multiplies a floating-point fraction; clock values are integers. The spreadsheet's pointer position is an integer too.
- The music player's volume, which no handler reads.
- Spotify.Duration: the track length is the fixed 267 seconds whichever track plays, because no handler changes it. The title and artist on screen are written as the literals "Yellow" and "Coldplay" and do not follow the current track; that display is not modelled.
- SpotifyStep3: this step has no keyboard handler, so none is modelled.
- Terminal.Child: a lookup inside a file fails. In JavaScript a digit segment would index a character of the file's text. Files are an enumeration, and `FileSize` records the length of each text. Lookups of inherited object properties are not modelled either, and two kinds of them change an outcome. `__proto__` names the truthy object `Object.prototype`, so `cd __proto__` and `cd /__proto__` succeed. A `cat` path can also pass through an inherited function to one of its string properties: `cat constructor/name` prints "Object", and `cat /constructor/name` and `cat toString/name` behave the same way. The model rejects all of these.
- Terminal.Keys: for a file, JavaScript lists the character indices; the model does the same from `FileSize`.
- Terminal.Session.ExecuteCommand: the download notice keeps only its call-to-action text, and the link and the progress bar are left out.
- Text.Lower, Text.LowerChar: lower-casing covers ASCII letters only; JavaScript's full Unicode case mapping is not modelled.
- TikTok.Feed.IncrementCount: requires the screen id to be one of the five screens (the source would throw on reading a missing screen) and reads counters that are always canonical numerals, so `parseInt`'s handling of signs, white space and NaN is not modelled.
- TikTok.Presses: only states that the counter stays digits; its value is stated by `TikTok.PressesAdd`.
- Spreadsheet.Sheet.StartEditing: requires a cell inside the grid, as every caller passes one; the source's bounds test then always holds.
- Spreadsheet: the source mutates the row arrays of both module-level grids (the cell text in `finishEditing` and the formats in `toggleFormat`), so edits and formatting would survive a remount of the component; the model keeps one pair of grids per `Sheet`.
