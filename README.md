# TUI core rules in Dafny

TUI is the desktop client for operating the APO 3.5m telescope and its
instruments. Its telemetry reaches the program as keyword values. Each
value comes with "is current" and "is genuine" flags, and arrives at a
widget callback. Commands go out as command variables, and each one
completes with a reply type such as ":" (done) or "f" (failed). Apart
from the widgets, the program is a set of small, sequential rules that
turn those values into labels, commands, downloads and history. This
project models those rules and proves what they promise.

- **Download state machines.** These are modelled as classes:
  - FTPGet transfers: state codes, start, abort, clean-up, byte counting;
  - the guide image objects of GuideImage and of both GuideWdg versions.
  In each, a terminal state is final.
- **Download queue policy.** The file getter screens files reports and
  builds download arguments. It keeps a queue of pending batches and a set
  of active downloads, and when it fetches it takes only the newest batch.
- **Guide window bookkeeping.** Both versions of the guide window are
  modelled:
  - star data per command and the selection reset;
  - the default/current threshold and radius-multiplier rule;
  - the history and its purge;
  - the exposure-argument string;
  - history navigation.
- **Exposure commands.** This covers the instrument table, the
  case-insensitive model cache, the command formatter with its
  ValueError cases, and the screening of files reports.
- **Instrument status tables.** These come from Agile (two versions),
  Kosmos and GIFS: connection states, status-word bits, temperature
  states, NTP and GPS, index-to-name maps and stage commands.
- **Configuration commands.** This covers:
  - the SPIcam queue, which sends one command at a time and stops at the
    first failure;
  - the Arctic/ARCTIC merge of settings into one `set` command;
  - the Agile exposure-command suffixes.
- **Script arithmetic.**
  - GetPointingData: bin factors, windows, argument strings and grid
    parsing.
  - NICFPS focus script: focus increments, exposure numbering and
    backlash.
- **Naming utilities.**
  - TelTarget value dictionaries and catalogue setters;
  - the module-name derivation and load order of `Main`;
  - `MultiListIter`.

Each source file becomes one module. Module `Util` holds the Python
semantics the rules rely on:
- `Contains` is substring `in`;
- `PyIndex` is negative indexing;
- `FloorDiv` is floor division;
- `SplitOn` and `SplitWS` are `str.split`;
- `Lower` and `Strip` are the matching string methods;
- `IntToString` is `"%d"`;
- `PyRepr` is `repr`;
- `PathJoinAll` is `os.path.join`.

Code that updates an object's fields is a class with `modifies` clauses,
and its methods state the whole new state. Decision tables and string
building are functions, and the properties are proved as lemmas. Keyword
callbacks take their values as `(values, isCurrent)` parameters. Foreign
conversions are parameters too, given as functions: float parsing, number
formatting, `quoteStr`, coordinate conversion and path splitting.
Widgets are modelled as fields or as `Label`-style records: text,
currency and severity.

## Model

| member | source | states |
|---|---|---|
| AgileWindow.GetExpCmdStr | TUI/Inst/Agile/AgileWindow.py:77-86 | a RuntimeError "Wait for camera to be connected" exactly when the camera state is known, non-empty and not "connected" in any letter case; otherwise no command exactly when the exposure input gives none |
| AgileWindow.SameAsTrunkWithoutExtSync | TUI/Inst/Agile/AgileWindow.py:82-86 | once the connection does not block, the command equals the development line's command with external sync disabled |
| AgileWindow.ConnBlocksIgnoresCase | TUI/Inst/Agile/AgileWindow.py:80 | the connection test gives the same answer for a state and its lower-case form |
| AgileWindowTrunk.ExtSyncIgnoresCase | trunk/TUI/Inst/Agile/AgileWindow.py:87-91 | whether external sync is enabled does not depend on the letter case of the exposure type |
| AgileWindowTrunk.ExpCmdStr | trunk/TUI/Inst/Agile/AgileWindow.py:71-85 | no command exactly when the exposure input gives none; otherwise the result extends the base command |
| AgileWindowTrunk.SuffixWords | trunk/TUI/Inst/Agile/AgileWindow.py:77-84 | the appended text is a space and then the words gain=, readrate= and, when enabled, extsync=yes/no, joined by spaces |
| AgileWindowTrunk.ExpCmdWords | trunk/TUI/Inst/Agile/AgileWindow.py:71-85 | the command's whitespace-separated words are the base command's words, then the gain and read-rate settings in lower case, then the external-sync setting when enabled |
| AgileWindowTrunk.ExposeWindow.constructor | trunk/TUI/Inst/Agile/AgileWindow.py:44-65 | the controls start at gain "Medium", read rate "Fast", external sync on and enabled |
| AgileWindowTrunk.ExposeWindow.UpdExpType | trunk/TUI/Inst/Agile/AgileWindow.py:87-91 | external sync is enabled exactly for exposure types other than bias, in any letter case |
| AgileWindowTrunk.ExposeWindow.GetExpCmdStr | trunk/TUI/Inst/Agile/AgileWindow.py:71-85 | the command built from the window's current controls is the specified command, with the external-sync word present exactly while the control is enabled |
| Arctic.SetItem | TUI/Inst/Arctic/ArcticWindow.py:52-53 | a setting command converts exactly when it contains a space |
| Arctic.SetItems | TUI/Inst/Arctic/ArcticWindow.py:50-53 | all settings convert, one item per command in order, exactly when every command has a space; otherwise the ValueError of the failed unpacking |
| Arctic.SetItemOf | TUI/Inst/Arctic/ArcticWindow.py:52-53 | "field w1 w2 ..." becomes "field=w1, w2, ..." |
| Arctic.SetItemField | TUI/Inst/Arctic/ArcticWindow.py:53 | the field and the comma-joined settings can be read back from an item by splitting at the first "=" |
| Arctic.WholeCommandSplits | TUI/Inst/Arctic/ArcticWindow.py:54 | the merged command is "set" alone or "set" followed by a space and the items joined by spaces |
| Arctic.DoConfigAsWritten | TUI/Inst/Arctic/ArcticWindow.py:44-58 | as written: an empty list of settings raises NameError; otherwise the merged command goes to the actor of the last setting, or the conversion error is raised |
| Arctic.DoConfigResult | TUI/Inst/Arctic/ArcticWindow.py:44-58 | corrected: nothing to send for no settings; an error exactly when some setting has no space; else one "set" command with all items, to the last setting's actor |
| Arctic.DoConfig | TUI/Inst/Arctic/ArcticWindow.py:44-58 | the corrected run's result equals DoConfigResult |
| Arctic.MergeItems | TUI/Inst/Arctic/ArcticWindow.py:49-53 | the conversion loop stops at the first unconvertible setting and otherwise yields SetItems |
| ArcticUpper.RunConfig | TUI/Inst/ARCTIC/ARCTICWindow.py:42-50 | nothing is sent exactly when the list is empty; otherwise one command "set" + space + the strings joined by spaces, to the actor chosen for it |
| ArcticUpper.RunConfigWords | TUI/Inst/ARCTIC/ARCTICWindow.py:46 | for single-word strings, the command's words are "set" followed by exactly those strings |
| ArcticUpper.SameCommandAsArctic | TUI/Inst/ARCTIC/ARCTICWindow.py:46 | the earlier Arctic run sends the same command text as this run given the converted items |
| GIFS.CmdVerb | TUI/Inst/GIFS/StatusConfigInputWdg.py:36 | the verb has no spaces and no upper-case letters, and holds exactly the non-space characters of the lower-cased label |
| GIFS.CmdVerbIdempotent | TUI/Inst/GIFS/StatusConfigInputWdg.py:36 | normalising a verb again leaves it unchanged |
| GIFS.TwoWordVerb | TUI/Inst/GIFS/StatusConfigInputWdg.py:36 | a two-word label such as "Cal Mirror" gives the lower-cased words run together |
| GIFS.Descr | TUI/Inst/GIFS/StatusConfigInputWdg.py:35 | the description is the one given, else the lower-cased label |
| GIFS.SetDefault | TUI/Inst/GIFS/StatusConfigInputWdg.py:45-54 | a new default replaces the user's value exactly while the user has not edited it (trackDefault) |
| GIFS.UserSelect | TUI/Inst/GIFS/StatusConfigInputWdg.py:45-54 | the user's pick becomes the value; it counts as an edit exactly when it differs from the default |
| GIFS.StatusFieldsAsWritten | TUI/Inst/GIFS/StatusConfigInputWdg.py:100-106 | as written: a generic stage times its bar with field 3 and the cal mirror shows field 0 |
| GIFS.StatusFieldsOf | TUI/Inst/GIFS/GIFSModel.py:43-57 | corrected: the shown position is a string (field 1, or field 3 for the filter wheel) and only a generic stage can be moving, timed by its time-to-arrive field |
| GIFS.StatusUpdateShows | TUI/Inst/GIFS/StatusConfigInputWdg.py:100-111 | a status update shows the reported position, makes it the default, shows the bar exactly when a generic stage moves, keeps the items, filter names and an edited user value, and keeps the state consistent |
| GIFS.StatusFieldsAsWrittenMisread | TUI/Inst/GIFS/StatusConfigInputWdg.py:100-106 | for concrete status lines, the fields read as written differ from the documented time to arrive and position |
| GIFS.ConfigUpdate | TUI/Inst/GIFS/StatusConfigInputWdg.py:90-98 | the config keyword replaces the menu items and nothing else |
| GIFS.Store | TUI/Inst/GIFS/StatusConfigInputWdg.py:177 | storing a slot's name keeps the pairs in slot order and adds a pair exactly when the slot is new |
| GIFS.StoreLookup | TUI/Inst/GIFS/StatusConfigInputWdg.py:177 | after storing, the slot maps to the new name and every other slot to its old name |
| GIFS.Names | TUI/Inst/GIFS/StatusConfigInputWdg.py:180 | one name per slot, in slot order |
| GIFS.FilterPosUpdate | TUI/Inst/GIFS/StatusConfigInputWdg.py:170-181 | the recorded names stay in slot order |
| GIFS.FilterPosUpdateRecords | TUI/Inst/GIFS/StatusConfigInputWdg.py:170-181 | non-current data changes nothing; current data records the slot's name, keeps the others, relists the names in slot order and keeps the state consistent |
| GIFS.CommandAsWritten | TUI/Inst/GIFS/StatusConfigInputWdg.py:83-88 | as written: no command exactly while the shown position is current; otherwise a command to the shown position |
| GIFS.Command | TUI/Inst/GIFS/StatusConfigInputWdg.py:83-147 | corrected: no command exactly when the user's setting equals the reported position; otherwise "<verb> move=<setting>", and for the cal mirror, as its own getCmd writes it, "Cal Mirror <setting>" |
| GIFS.CommandSplits | TUI/Inst/GIFS/StatusConfigInputWdg.py:83-147 | a stage's command splits at its first space into the verb and "move=" with the setting; the cal mirror's words are the words of its label followed by a one-word setting |
| GIFS.CommandAfterStatus | TUI/Inst/GIFS/StatusConfigInputWdg.py:100-107 | after a status update with no user edit there is nothing to command; a user choice is commanded exactly when it differs from the reported position |
| GIFS.CommandAsWrittenIgnoresUser | TUI/Inst/GIFS/StatusConfigInputWdg.py:83-88 | for a concrete collimator state, the command as written ignores the user's choice while the corrected one moves to it |
| GIFS.Stage.Make | TUI/Inst/GIFS/StatusConfigInputWdg.py:20-43 | a generic stage starts valid, with its verb and description, and with the config keyword's value applied when there is one |
| GIFS.Stage.MakeCalMirror | TUI/Inst/GIFS/StatusConfigInputWdg.py:118-127 | the cal mirror stage is labelled "Cal Mirror", described as "calibration mirror", and has no config |
| GIFS.Stage.MakeFilter | TUI/Inst/GIFS/StatusConfigInputWdg.py:157-168 | the filter stage is labelled "Filter Wheel" and starts with no filter names |
| GIFS.Stage.MakeWdg | TUI/Inst/GIFS/StatusConfigInputWdg.py:56-81 | a second call raises RuntimeError "widgets already exist" and changes nothing; the first makes the widgets with the progress bar hidden |
| GIFS.Stage.ConfigCallback | TUI/Inst/GIFS/StatusConfigInputWdg.py:90-98 | performs ConfigUpdate and keeps the stage valid |
| GIFS.Stage.StatusCallback | TUI/Inst/GIFS/StatusConfigInputWdg.py:100-111 | performs StatusUpdate with the documented fields and keeps the stage valid |
| GIFS.Stage.FilterPosCallback | TUI/Inst/GIFS/StatusConfigInputWdg.py:170-181 | performs FilterPosUpdate and keeps the stage valid |
| GIFS.Stage.Select | TUI/Inst/GIFS/StatusConfigInputWdg.py:45-54 | performs UserSelect and keeps the stage valid |
| GIFS.Stage.GetCmd | TUI/Inst/GIFS/StatusConfigInputWdg.py:83-147 | returns the corrected Command for the stage's current state, with the label for the cal mirror |
| Kosmos.IndFormatEmpty | TUI/Inst/Kosmos/StatusConfigInputWdg.py:480-486 | the formatted entry is empty exactly for an empty or blank selection |
| Kosmos.IndFormatParses | TUI/Inst/Kosmos/StatusConfigInputWdg.py:488 | a non-empty entry splits at its first "=" into the name and the decimal index plus the offset |
| Kosmos.AssignmentParses | TUI/Inst/Kosmos/StatusConfigInputWdg.py:488 | "name=N" reads back as the name and the integer N |
| Kosmos.IndFormatDefaultOffset | TUI/Inst/Kosmos/StatusConfigInputWdg.py:477-488 | with the default offset 1 the entry carries the 1-based position of the selected menu item |
| Kosmos.IndexedNameCases | TUI/Inst/Kosmos/StatusConfigInputWdg.py:711-757 | position n in 1..len names item n-1; position 0 names the last item (negative indexing); positions out of range and a missing value have no name |
| Kosmos.MovingMatchedExactly | TUI/Inst/Kosmos/StatusConfigInputWdg.py:765 | "Moving" warns but "moving" does not: that test is exact |
| Kosmos.CalstagePosCases | TUI/Inst/Kosmos/StatusConfigInputWdg.py:777-788 | a missing position gives "?"; an integer position gives "in" above 5000 and "out" otherwise |
| Kosmos.BinText | TUI/Inst/Kosmos/StatusConfigInputWdg.py:808-828 | "?" for a missing bin factor; otherwise decimal text that reads back as the truncated value |
| Kosmos.Mechanism.UpdIndexedName | TUI/Inst/Kosmos/StatusConfigInputWdg.py:711-757 | a position that names an item shows it as normal and makes it the default; otherwise the raw value is shown as a warning and the default is kept |
| Kosmos.Mechanism.UpdMotionState | TUI/Inst/Kosmos/StatusConfigInputWdg.py:759-775 | a moving or homing state is shown as a warning; a missing or other state leaves the label alone |
| Kosmos.Mechanism.UpdCalstageName | TUI/Inst/Kosmos/StatusConfigInputWdg.py:777-788 | the raw position is shown as normal; the default becomes "?", "in" or "out", or the ValueError escapes and the default is kept |
| Kosmos.Mechanism.UpdGfocusName | TUI/Inst/Kosmos/StatusConfigInputWdg.py:790-794 | the raw focus position is shown as normal |
| Kosmos.Mechanism.UpdBinName | TUI/Inst/Kosmos/StatusConfigInputWdg.py:808-828 | the bin factor as text becomes both the label (normal) and the default; on a conversion error nothing changes |
| MainWindows.SortByKeySpec | trunk/TUI/Main.py:80-82 | the decorate/sort/undecorate step keeps exactly the same files and leaves them sorted by (not under loadFirst, name) |
| MainWindows.LoadOrder | trunk/TUI/Main.py:77-82 | the load order is a permutation of the files found |
| MainWindows.LoadFirstComesFirst | trunk/TUI/Main.py:77-82 | with a non-empty loadFirst every file whose name starts with it comes before every other file, and names ascend within each group |
| MainWindows.LoadOrderUnique | trunk/TUI/Main.py:80-82 | any list of the same files sorted by the same key is the load order |
| MainWindows.SplitExt | trunk/TUI/Main.py:87 | the stem and the extension concatenate back to the path; the extension is empty or one "." followed by no "." or "/" |
| MainWindows.SplitExtPy | trunk/TUI/Main.py:87 | a "<stem>.py" name loses exactly its ".py" |
| MainWindows.Basename | trunk/TUI/Main.py:93 | the base name is the suffix of the path after the last "/" |
| MainWindows.ModuleName | trunk/TUI/Main.py:84-96 | an IndexError exactly when the path has no components; no module exactly when the last component starts with "." |
| MainWindows.ModuleNameParts | trunk/TUI/Main.py:92-95 | splitting the module name at "." gives back the path components, preceded by the package name for a package |
| MainWindows.ModuleNames | trunk/TUI/Main.py:84-96 | at most one module name per file |
| MainWindows.ModuleNamesCount | trunk/TUI/Main.py:89-91 | when every path has components, there is no error and exactly one name per file that is not hidden |
| MainWindows.LoadStopsAtExit | trunk/TUI/Main.py:135-136 | after a SystemExit or KeyboardInterrupt no later module is loaded |
| MainWindows.LoadContinuesPastFailures | trunk/TUI/Main.py:129-142 | without exits every module adds one log line and every failure one line of error output |
| MainWindows.LoadWindows | trunk/TUI/Main.py:98-142 | the loop's log and error output equal Load over the names; the name generator's error surfaces only when no module exited |
| MainWindows.DocumentedLoadError | trunk/TUI/Main.py:120 | the documented outcome: the name generator's error if any, else a RuntimeError exactly when a load-first directory is given and no module is found |
| MainWindows.NoModulesFoundAsWritten | trunk/TUI/Main.py:120-142 | as written, finding no module ends quietly after the search message, with no error, where the documented outcome is a RuntimeError |
| MultiListIter.Step | trunk/RO/Alg/MultiListIter.py:15-16 | a step moves only the iterators it reached and, when it succeeds, gives one element per list |
| MultiListIter.StepAtColumn | trunk/RO/Alg/MultiListIter.py:15-16 | while every list has a k-th element, the step from position k gives the k-th elements in argument order and moves every iterator to k + 1 |
| MultiListIter.StepStopsAtShortest | trunk/RO/Alg/MultiListIter.py:3-4 | the step raises StopIteration as soon as one list has run out |
| MultiListIter.MultiListIter.constructor | trunk/RO/Alg/MultiListIter.py:9-10 | one iterator per list, each at the start |
| MultiListIter.MultiListIter.Iter | trunk/RO/Alg/MultiListIter.py:12-13 | the object is its own iterator |
| MultiListIter.MultiListIter.Next | trunk/RO/Alg/MultiListIter.py:15-16 | the result and the new positions are those of Step over all lists |
| NicfpsFocus.FocusIncr | tags/20060519_1.2b5/TUI/Scripts/NICFPS/Focus.py:239-250 | no increment exactly when an entry is blank; ZeroDivisionError exactly for one position; otherwise the increment is the span divided by the number of steps, rounded towards minus infinity |
| NicfpsFocus.LastPositionNearEnd | tags/20060519_1.2b5/TUI/Scripts/NICFPS/Focus.py:249 | the scan's last position is never past the end position and falls short of it by less than the number of steps |
| NicfpsFocus.DefFocus | tags/20060519_1.2b5/TUI/Scripts/NICFPS/Focus.py:252-258 | the default start and end span the default range and are centred on the current focus |
| NicfpsFocus.BacklashAsWrittenSkipsDownward | tags/20060519_1.2b5/TUI/Scripts/NICFPS/Focus.py:421-422 | as written, a downward scan's backlash position is the focus position itself; corrected, it lies the full compensation above |
| NicfpsFocus.BacklashApproachesInScanDirection | tags/20060519_1.2b5/TUI/Scripts/NICFPS/Focus.py:420-422 | corrected: the move from the backlash position to the focus position goes in the scan's direction by the full compensation |
| NicfpsFocus.MovesNumbering | tags/20060519_1.2b5/TUI/Scripts/NICFPS/Focus.py:307-355 | exposures are numbered from 1 without gap or overlap, every move announces the same total, and the last move's exposures end at that total |
| NicfpsFocus.MovesBacklash | tags/20060519_1.2b5/TUI/Scripts/NICFPS/Focus.py:322-355 | only the first scan position and the move to best focus are backlash compensated |
| NicfpsFocus.MovesBacklashAsWritten | tags/20060519_1.2b5/TUI/Scripts/NICFPS/Focus.py:421-427 | as written, every compensated move first goes the full compensation below the focus position on an upward scan, and to the focus position itself on a downward scan |
| NicfpsFocus.MoveCmds | tags/20060519_1.2b5/TUI/Scripts/NICFPS/Focus.py:408-456 | a move issues the backlash focus command when compensated, then the focus command, the exposure command with startNum and totNum, and the centroid command |
| NicfpsFocus.SetFocusCmdParses | tags/20060519_1.2b5/TUI/Scripts/NICFPS/Focus.py:434 | the focus position reads back from "set focus=N" |
| NicfpsFocus.RestoreFowlerCmdParses | tags/20060519_1.2b5/TUI/Scripts/NICFPS/Focus.py:468-475 | the restored Fowler count reads back from "fowler nfs=N" |
| NicfpsFocus.FilePathIsRootAndShortPath | tags/20060519_1.2b5/TUI/Scripts/NICFPS/Focus.py:448-449 | the full file path is the root component followed by the short path |
| NicfpsFocus.FocusScript.constructor | tags/20060519_1.2b5/TUI/Scripts/NICFPS/Focus.py:65-74 | no Fowler count is recorded and no direction is known at the start |
| NicfpsFocus.FocusScript.Run | tags/20060519_1.2b5/TUI/Scripts/NICFPS/Focus.py:260-355 | outside debug mode a ScriptError when the current instrument's name does not start with NICFPS in any case, else the Fowler count is recorded; fewer than two positions is a ScriptError; otherwise the direction is recorded and the moves are the scan then the move to best focus, with the backlash positions as written (see MovesBacklashAsWritten) |
| NicfpsFocus.FocusScript.End | tags/20060519_1.2b5/TUI/Scripts/NICFPS/Focus.py:468-475 | the restore command is sent exactly when a Fowler count was recorded, and carries that count |
| PointingData.GetBinFactor | trunk/TUI/Scripts/GetPointingData.py:424-435 | no bin factor when the instrument has no default; the final bin factor for a final exposure when there is one; else the current bin factor |
| PointingData.BinFactorArgParses | trunk/TUI/Scripts/GetPointingData.py:373-383 | the argument is empty exactly without a bin factor, and otherwise the bin factor reads back from the text after "bin=" |
| PointingData.WindowArgAsWritten | trunk/TUI/Scripts/GetPointingData.py:400-406 | as written: a caller that does not window gets "", and only a caller that does not window gets an argument at all |
| PointingData.WindowArg | trunk/TUI/Scripts/GetPointingData.py:400-414 | corrected, with the script's window settings as parameters: empty exactly when the caller or the script does not window; windowing without a window is a TypeError |
| PointingData.WindowArgAsWrittenFails | trunk/TUI/Scripts/GetPointingData.py:400-406 | as written, a caller that windows gets an AttributeError where the corrected code writes the window; callers that do not window get the same "" from both |
| PointingData.Corners | trunk/TUI/Scripts/GetPointingData.py:408-413 | the instrument's window spans the same pixels, one more on each axis when its upper-right pixel is excluded |
| PointingData.WindowArgParses | trunk/TUI/Scripts/GetPointingData.py:412-414 | the four numbers after "window=" read back as the instrument's corners |
| PointingData.IntFieldsParse | trunk/TUI/Scripts/GetPointingData.py:414 | integers written with "%d" and joined by commas split and read back as the same integers |
| PointingData.ExposeArgsWords | trunk/TUI/Scripts/GetPointingData.py:385-398 | the words of the arguments are the time argument followed by the non-empty bin and window arguments, in that order |
| PointingData.TwoNumberLine | trunk/TUI/Scripts/GetPointingData.py:256-263 | a line of two numbers separated by a space is the point with those values |
| PointingData.GridAccountsForEveryLine | trunk/TUI/Scripts/GetPointingData.py:254-267 | every line of a grid file is a point, a warning or skipped, and nothing else |
| PointingData.ParseGrid | trunk/TUI/Scripts/GetPointingData.py:254-267 | the loop yields the grid's points in file order and one warning per bad line |
| PointingData.PointingScript.constructor | trunk/TUI/Scripts/GetPointingData.py:92-102 | without a default bin factor the bin factor is 1; otherwise it starts at the default |
| PointingData.PointingScript.UpdBinFactor | trunk/TUI/Scripts/GetPointingData.py:522-531 | a positive new bin factor becomes the displayed one; other values are ignored |
| PointingData.PointingScript.InitAll | trunk/TUI/Scripts/GetPointingData.py:468 | the bin factor of the last exposure is forgotten |
| PointingData.PointingScript.RecordUserParams | trunk/TUI/Scripts/GetPointingData.py:496 | the displayed bin factor becomes the one used |
| PointingData.PointingScript.GetBinFactorNow | trunk/TUI/Scripts/GetPointingData.py:424-435 | returns GetBinFactor on the script's state |
| PointingData.PointingScript.SetGrid | trunk/TUI/Scripts/GetPointingData.py:248-268 | nothing changes without a grid name; otherwise the grid's points replace the old ones and the bad lines' warnings are returned |
| PointingData.FromStarKey | trunk/TUI/Scripts/GetPointingData.py:752-761 | the measurement takes position from fields 2-3, fwhm from 8, sky from 13 and amplitude from 14; field 0 is the type character |
| PointingData.MakeStarData | trunk/TUI/Scripts/GetPointingData.py:795-805 | the made-up star record has the 15 fields of a star keyword, the given type character in field 0 |
| PointingData.StarDataRoundTrip | trunk/TUI/Scripts/GetPointingData.py:752-805 | reading a made-up star back gives the type character, position, sky, amplitude and fwhm it was made from |
| PointingData.MakePtRefStar | trunk/TUI/Scripts/GetPointingData.py:781-792 | a RuntimeError "Invalid data" exactly when the first value is None |
| PointingData.PtRefStarFields | trunk/TUI/Scripts/GetPointingData.py:781-792 | a complete ptRefStar value list is read back field for field |
| TelTarget.ApproxCSys | tags/20050824_1.0.1b1/TUI/TCC/TelTarget.py:126-129 | Observed, Physical and Mount are approximated as Topocentric; every other system is kept |
| TelTarget.NoDictGivesDefaults | tags/20050824_1.0.1b1/TUI/TCC/TelTarget.py:99-113 | without a dictionary the default one is recorded, with an empty name, position ("0", "0") and date "2000" |
| TelTarget.NoDateGivesNone | tags/20050824_1.0.1b1/TUI/TCC/TelTarget.py:107-113 | a missing or empty date gives no date |
| TelTarget.NoCSysStops | tags/20050824_1.0.1b1/TUI/TCC/TelTarget.py:116-123 | a missing or empty system clears the approximated system and the position, raises nothing, and leaves the recorded system and the motion fields unchanged |
| TelTarget.FullDictRecorded | tags/20050824_1.0.1b1/TUI/TCC/TelTarget.py:124-150 | once every conversion succeeds, the system is recorded and approximated and the position, proper motion, parallax and radial velocity come from the dictionary with their defaults |
| TelTarget.Parallax | tags/20050824_1.0.1b1/TUI/TCC/TelTarget.py:143-149 | a distance gives its inverse when positive and 0 otherwise; without a distance the parallax entry is used |
| TelTarget.GetAzAlt | tags/20050824_1.0.1b1/TUI/TCC/TelTarget.py:49-66 | no position exactly without a coordinate system; otherwise the converted position |
| TelTarget.CSysPartParses | tags/20050824_1.0.1b1/TUI/TCC/TelTarget.py:156-158 | the system and date read back from "system=date"; without a date there is no "=" |
| TelTarget.TargetString | tags/20050824_1.0.1b1/TUI/TCC/TelTarget.py:153-159 | an error exactly when no system was ever recorded or there is no position; otherwise the text starts with the name's repr and ends with the system part |
| TelTarget.Target.constructor | tags/20050824_1.0.1b1/TUI/TCC/TelTarget.py:46-47 | a new target is the blank target after setValueDict |
| TelTarget.Target.SetValueDict | tags/20050824_1.0.1b1/TUI/TCC/TelTarget.py:73-150 | the new fields and the outcome are those of SetValueDictState, including which fields an error leaves untouched |
| TelTarget.Target.SetMotion | tags/20050824_1.0.1b1/TUI/TCC/TelTarget.py:136-150 | the motion steps perform MotionState |
| TelTarget.DispColor | tags/20050824_1.0.1b1/TUI/TCC/TelTarget.py:213-227 | the default colour for None or a colour Tk rejects, else the colour asked for |
| TelTarget.Catalog.constructor | tags/20050824_1.0.1b1/TUI/TCC/TelTarget.py:176-194 | the catalogue keeps its name, objects and display flag, and its colour is DispColor of the one asked for; the callbacks have run twice and stderr holds the colour warning exactly when Tk rejects the colour |
| TelTarget.Catalog.SetDispColor | tags/20050824_1.0.1b1/TUI/TCC/TelTarget.py:213-228 | the colour becomes DispColor; a warning is returned and appended to stderr exactly for a colour Tk rejects; the callbacks run once |
| TelTarget.Catalog.SetDoDisplay | tags/20050824_1.0.1b1/TUI/TCC/TelTarget.py:230-235 | the display flag is set and the callbacks run once |
| TelTarget.NewCatalog | tags/20050824_1.0.1b1/TUI/TCC/TelTarget.py:176-191 | a RuntimeError exactly when the object list is not a sequence; otherwise a new catalogue with those objects, flag and colour, and the colour warning on stderr exactly when Tk rejects the colour |
| FTPGet.StateName | tags/20041119_0.931/RO/Comm/FTPGet.py:41-49 | a state has a name exactly when it is one of the seven known codes |
| FTPGet.StateStrIdentifies | tags/20041119_0.931/RO/Comm/FTPGet.py:182-193 | a known state's string identifies the state: no other code, known or unknown, has it |
| FTPGet.UnknownStateStr | tags/20041119_0.931/RO/Comm/FTPGet.py:182-193 | an unknown code is shown as "Unknown (<code>)" |
| FTPGet.StateStrMaxLenIsMax | tags/20041119_0.931/RO/Comm/FTPGet.py:55-58 | StateStrMaxLen is the length of the longest state name |
| FTPGet.TerminalStates | tags/20041119_0.931/RO/Comm/FTPGet.py:31-39 | among the known codes, finished means Done, Aborted or Failed |
| FTPGet.CleanupCode | tags/20041119_0.931/RO/Comm/FTPGet.py:233-236 | an unknown new state is recorded as Failed; a known one as itself |
| FTPGet.AbortOutcome | tags/20041119_0.931/RO/Comm/FTPGet.py:150-164 | abort leaves a known state; an unfinished transfer becomes Aborted or Aborting; Aborted results exactly from Queued or Aborted |
| FTPGet.TerminalIsFinal | tags/20041119_0.931/RO/Comm/FTPGet.py:238-246 | once finished, neither abort nor cleanup changes the state; cleanup to a finished or unknown state always finishes the transfer |
| FTPGet.EndIndex | tags/20041119_0.931/RO/Comm/FTPGet.py:307-311 | the transfer ends at the first empty read: every read before it is non-empty |
| FTPGet.ReadLoopExit | tags/20041119_0.931/RO/Comm/FTPGet.py:307-318 | at each read the loop fails on the failing read, aborts on a non-empty read after an abort, finishes Done at end of file, or goes on |
| FTPGet.FinalStateOutcome | tags/20041119_0.931/RO/Comm/FTPGet.py:265-320 | every run finishes in a known finished state; Done when nothing aborts or fails; Failed exactly when the failing read comes no later than the end of file and the abort; Aborted only when the abort came first |
| FTPGet.ConcatLength | tags/20041119_0.931/RO/Comm/FTPGet.py:314-315 | the byte counter equals the length of what was written |
| FTPGet.Transfer.constructor | tags/20041119_0.931/RO/Comm/FTPGet.py:88-134 | a new transfer is Queued (Connecting when started at once) with nothing read or written |
| FTPGet.Transfer.Start | tags/20041119_0.931/RO/Comm/FTPGet.py:136-148 | only a queued transfer starts (becoming Connecting); otherwise a RuntimeError naming the state, and nothing changes |
| FTPGet.Transfer.Abort | tags/20041119_0.931/RO/Comm/FTPGet.py:150-164 | the state becomes AfterAbort of the old one; the callbacks run exactly when a queued transfer is aborted |
| FTPGet.Transfer.Cleanup | tags/20041119_0.931/RO/Comm/FTPGet.py:208-256 | a finished transfer is left alone; otherwise the state is recorded, the file deleted on Aborted or Failed, the exception kept on Failed, and the callbacks run |
| FTPGet.Transfer.GetTask | tags/20041119_0.931/RO/Comm/FTPGet.py:265-320 | a connection error fails the transfer and deletes the file; otherwise the final state is FinalState, the file holds exactly the reads processed, the byte counter matches, and the file is deleted unless Done; the callbacks run once per chunk written and once at the end |
| FileGetter.NewlyActive | branches/betterGet/TUI/Inst/FileGetter.py:202-206 | exactly the downloads started in this round that have not already finished |
| FileGetter.HandleOff | branches/betterGet/TUI/Inst/FileGetter.py:164-169 | with downloads switched off the queue is emptied and nothing starts or stops |
| FileGetter.HandleBusy | branches/betterGet/TUI/Inst/FileGetter.py:171-181 | while an unfinished download is active nothing new starts, the queue is kept, and only finished downloads leave the active set |
| FileGetter.HandlePositive | branches/betterGet/TUI/Inst/FileGetter.py:184-192 | with autoGetNum n > 0 and nothing active: once n batches are pending the oldest n-1 are discarded, the n-th starts and the rest keep their order; with fewer nothing happens |
| FileGetter.HandleNegative | branches/betterGet/TUI/Inst/FileGetter.py:195-200 | with negative autoGetNum and nothing active only the newest pending batch starts and the queue is left empty |
| FileGetter.HandleKeepsQueueOk | branches/betterGet/TUI/Inst/FileGetter.py:202-206 | every started download that has not finished becomes active, and the active set only names started downloads |
| FileGetter.ArgsFor | branches/betterGet/TUI/Inst/FileGetter.py:135-155 | the display string is program dir + user dir + file name; the URL is "http://" + host + root + display string; binary, no overwrite, create directories; the camera is the file's position in the camera list, if any |
| FileGetter.BatchForShape | branches/betterGet/TUI/Inst/FileGetter.py:130-155 | one download per file name other than "None", each built from one such file |
| FileGetter.ScreenQueuesExactly | branches/betterGet/TUI/Inst/FileGetter.py:97-125 | files are queued exactly when the report is current and genuine, downloads are on, the http root is known, the program matches (or the user is APO) and the files are the user's own or collaborator files are wanted |
| FileGetter.FileGetter.constructor | branches/betterGet/TUI/Inst/FileGetter.py:26-47 | nothing pending, active or started |
| FileGetter.FileGetter.HandlePendingDownloads | branches/betterGet/TUI/Inst/FileGetter.py:160-206 | the new queue is Handle of the old one, and every active download was started |
| FileGetter.FileGetter.DownloadFinished | branches/betterGet/TUI/Inst/FileGetter.py:49-58 | the finished download leaves the active set (an internal error is logged when it was not there) and the queue is handled again |
| FileGetter.FileGetter.UpdFiles | branches/betterGet/TUI/Inst/FileGetter.py:85-158 | a ValueError exactly for a cmdr that is not "progID.username"; a missing http root logs a warning; a refused report changes nothing (or only clears the queue when downloads are off); an accepted one appends the batch and handles the queue |
| GuideImage.DoneAndFailed | trunk/TUI/Guide/GuideImage.py:27-34 | the failed states are exactly FileReadFailed, DownloadFailed and Expired; the done states are Downloaded plus the failed ones; the only states not done are Ready and Downloading |
| GuideImage.StateTextInjective | trunk/TUI/Guide/GuideImage.py:27-32 | distinct states have distinct display texts, so the state can be recovered from its text |
| GuideImage.StateStr | trunk/TUI/Guide/GuideImage.py:142-146 | the state string always begins with the state text, and it is exactly the state text iff there is no (non-empty) error message |
| GuideImage.LocalPathSimpleName | trunk/TUI/Guide/GuideImage.py:57-63 | for a simple slash-separated image name, splitting on "/" and re-joining gives the same local path as the plain join used for local images |
| GuideImage.BasicImage.constructor | trunk/TUI/Guide/GuideImage.py:36-63 | a local image starts Downloaded and out of sequence, a remote one Ready and in sequence; no error message; local path joined from base dir and image name |
| GuideImage.BasicImage.SetState | trunk/TUI/Guide/GuideImage.py:161-172 | a done image ignores new states; otherwise the state is set, the error message is kept only for a failed state, the callback is called once and dropped on reaching a done state |
| GuideImage.BasicImage.Expire | trunk/TUI/Guide/GuideImage.py:70-88 | only a remote Downloaded image expires, without a callback, deleting the file if it exists; every other image is unchanged |
| GuideImage.BasicImage.FetchFile | trunk/TUI/Guide/GuideImage.py:90-116 | a local image becomes Downloaded; a missing httpRoot host or directory gives DownloadFailed with its message; otherwise the image becomes Downloading and one request for http://host+dir+name to the local path is queued |
| GuideImage.BasicImage.FetchDone | trunk/TUI/Guide/GuideImage.py:152-159 | a finished download makes the image Downloaded, any other outcome DownloadFailed with the transfer's error message |
| GuideImage.BasicImage.GetFITSObj | trunk/TUI/Guide/GuideImage.py:118-136 | an object is returned iff the image is Downloaded and opens with data; no data or an open error makes it FileReadFailed with the matching message; otherwise nothing changes |
| GuideWdgOld.DoneFailedExclusive | tags/20050627_1.0b1/TUI/Guide/GuideWdg.py:199-205 | in this version "done" means only Downloaded: no state is both done and failed, the remaining states are Ready and Downloading, and the failed states agree with the later GuideImage ones |
| GuideWdgOld.BasicImObj.constructor | tags/20050627_1.0b1/TUI/Guide/GuideWdg.py:179-197 | a local image starts Downloaded and out of sequence, a remote one Ready and in sequence; no exception, no mask |
| GuideWdgOld.BasicImObj.DoCallback | tags/20050627_1.0b1/TUI/Guide/GuideWdg.py:292-296 | the callback, if any, is called with the current state and dropped once the image is downloaded |
| GuideWdgOld.BasicImObj.FetchFile | tags/20050627_1.0b1/TUI/Guide/GuideWdg.py:207-241 | a local image becomes Downloaded with a callback; a missing imageRoot host or directory gives DownloadFailed with its message and a callback; otherwise the image becomes Downloading and one binary FTP request (user "images", path root dir + name, to the local path) is queued, with no callback yet |
| GuideWdgOld.BasicImObj.FetchCallFunc | tags/20050627_1.0b1/TUI/Guide/GuideWdg.py:277-290 | transfer reports before the end change nothing; at the end the image is Downloaded (Done) or DownloadFailed with the transfer's exception, and the callback runs |
| GuideWdgOld.BasicImObj.GetFITSObj | tags/20050627_1.0b1/TUI/Guide/GuideWdg.py:243-261 | an object is returned iff the image is Downloaded and opens with data; no data or an open error makes it FileReadFailed with the matching message; otherwise nothing changes |
| GuideWdgOld.BasicImObj.Expire | tags/20050627_1.0b1/TUI/Guide/GuideWdg.py:298-316 | the mask is dropped; only a remote Downloaded image expires, deleting the file if it exists; every other image keeps its state |
| GuideWdgOld.TypeTagColor | tags/20050627_1.0b1/TUI/Guide/GuideWdg.py:161-165 | only the centroid ("c") and found-star ("f") type characters have a tag and colour |
| GuideWdgOld.ImObj.constructor | tags/20050627_1.0b1/TUI/Guide/GuideWdg.py:322-351 | the given command character, no star data yet, the given defaults, no current radMult or threshold |
| GuideWdgOld.ImObj.UpdStar | tags/20050627_1.0b1/TUI/Guide/GuideWdg.py:1749-1769 | an unknown type character raises RuntimeError and changes nothing; otherwise the star is filed as AddStar says and the result tells whether it was the command's first star (the selection reset) |
| GuideWdgOld.ReplayAccumulates | tags/20050627_1.0b1/TUI/Guide/GuideWdg.py:1755-1769 | after a command's stars arrive on an image whose seen types were cleared, the seen types are exactly the types that arrived; each of them holds exactly its stars in arrival order, and every other type keeps the stars it had |
| GuideWdgOld.NewImageAccumulates | tags/20050627_1.0b1/TUI/Guide/GuideWdg.py:1755-1769 | on a new image the star types present are exactly those that arrived, each with its stars in arrival order |
| GuideWdgOld.StaleTypesSurvive | tags/20050627_1.0b1/TUI/Guide/GuideWdg.py:1086-1107 | a type that a later command does not report keeps its earlier stars: clearing the seen types does not clear the star data |
| GuideWdgOld.DoExistingImage | tags/20050627_1.0b1/TUI/Guide/GuideWdg.py:1086-1107 | data for an unknown image, or from another commander, changes nothing; otherwise the image takes the new command character and (cmdr, cmdID), its seen types are cleared, and its star data and thresholds are kept |
| GuideWdgOld.ReplaySelectsFirst | tags/20050627_1.0b1/TUI/Guide/GuideWdg.py:1762-1765 | after a command's stars arrive, the selection is the first star that arrived, in its type's colour; with no star the selection is unchanged |
| GuideWdgOld.ImObj.UpdRadMult | tags/20050627_1.0b1/TUI/Guide/GuideWdg.py:1803-1805 | the reported radMult becomes current, and also the default when it is the first one reported |
| GuideWdgOld.ImObj.UpdThresh | tags/20050627_1.0b1/TUI/Guide/GuideWdg.py:1822-1824 | the reported threshold becomes current, and also the default when it is the first one reported |
| GuideWdgOld.FindStars | tags/20050627_1.0b1/TUI/Guide/GuideWdg.py:1192-1213 | "No guide image" when nothing is displayed; no command and no change when a field is empty or both values equal the current ones; otherwise both become current and the command is findstars file=<repr name> thresh=<t> radMult=<r> |
| GuideWdgOld.FindImage | tags/20050627_1.0b1/TUI/Guide/GuideWdg.py:1478-1486 | the first image whose (cmdr, cmdID) matches the keyword's; none exactly when the keyword has none or no image matches |
| GuideWdgOld.ExpArgStrTokens | tags/20050627_1.0b1/TUI/Guide/GuideWdg.py:1429-1456 | with blank-free fields, the argument string splits back into exactly the non-blank fields in the order exptime, bin, radMult, thresh; by default (threshold on, radMult off) radMult never appears |
| GuideWdgOld.HistIndex | tags/20050627_1.0b1/TUI/Guide/GuideWdg.py:1458-1473 | the position of the displayed image in the newest-first history, none exactly when nothing is displayed or it is not in the history |
| GuideWdgOld.IsGuiding | tags/20050627_1.0b1/TUI/Guide/GuideWdg.py:1492-1498 | not guiding exactly when the guide state is unknown or "off" in any letter case |
| GuideWdgOld.Present | tags/20050627_1.0b1/TUI/Guide/GuideWdg.py:1723 | each guide-state item maps to its text, a missing one to the empty string, keeping the length |
| GuideWdgOld.GuideStateStrParts | tags/20050627_1.0b1/TUI/Guide/GuideWdg.py:1723-1724 | the guide-state string is empty exactly when no item is a non-empty string; when no item contains "-", splitting it at "-" gives back the non-empty items in order |
| GuideWdgOld.NextImWrapsAround | tags/20050627_1.0b1/TUI/Guide/GuideWdg.py:1263-1276 | as written, asking for the next image while the newest is shown displays the oldest one |
| GuideWdgOld.NextIm | tags/20050627_1.0b1/TUI/Guide/GuideWdg.py:1263-1276 | the corrected rule: show the next newer image when there is one, report "Showing newest image" at the newest, report an unknown position otherwise |
| GuideWdgOld.NextImAsWrittenDiffers | tags/20050627_1.0b1/TUI/Guide/GuideWdg.py:1270-1274 | the code as written and the corrected rule agree exactly away from the newest image; at the newest the code shows the oldest |
| GuideWdgOld.PrevIm | tags/20050627_1.0b1/TUI/Guide/GuideWdg.py:1278-1293 | show the next older image when there is one, "Showing oldest image" past the oldest, and "Position in history unknown" (an error in this version) when the position is unknown |
| GuideWdgOld.PurgeKeepsNewestAndDisplayed | tags/20050627_1.0b1/TUI/Guide/GuideWdg.py:1693-1710 | with distinct names the purge keeps the nToSave newest images in order plus the displayed image, at most one extra; every other image is purged, and no image is lost or invented |
| GuideWdgOld.KeepOnlyAtMostOne | tags/20050627_1.0b1/TUI/Guide/GuideWdg.py:1701-1705 | among distinct names past the newest nToSave, at most one (the displayed one) survives |
| GuideWdgOld.GuideWdg.constructor | tags/20050627_1.0b1/TUI/Guide/GuideWdg.py:397-401 | an empty history of capacity 100, nothing displayed, nothing expired |
| GuideWdgOld.GuideWdg.AddImToHist | tags/20050627_1.0b1/TUI/Guide/GuideWdg.py:898-903 | a new image name becomes the newest history entry; a name already present keeps its place |
| GuideWdgOld.GuideWdg.PurgeHistory | tags/20050627_1.0b1/TUI/Guide/GuideWdg.py:1693-1710 | the history becomes Kept, the purged images are expired in order, and the displayed image is marked out of sequence when a purged image was newer than it |
| GuideWdgTrunk.StateStr | trunk/TUI/Guide/GuideWdg.py:197-201 | the state string begins with the state text, and is exactly that text iff there is no (non-empty) exception |
| GuideWdgTrunk.BasicImObj.constructor | trunk/TUI/Guide/GuideWdg.py:129-141 | a new image is Ready with no exception, no callback calls and no requests |
| GuideWdgTrunk.BasicImObj.FetchFileAsWritten | trunk/TUI/Guide/GuideWdg.py:143-172 | as written: an unknown image root fails the image with its message but makes no callback call (the callback is named, not called); a known root queues one FTP request (no overwrite) and leaves the state as it was |
| GuideWdgTrunk.FetchWithoutRootAsWritten | trunk/TUI/Guide/GuideWdg.py:148-153 | a concrete image fetched without an image root ends DownloadFailed with zero callback calls |
| GuideWdgTrunk.BasicImObj.FetchFile | trunk/TUI/Guide/GuideWdg.py:143-172 | corrected: an unknown image root fails the image with its message and calls the callback once with DownloadFailed; a known root queues the FTP request, changing nothing else |
| GuideWdgTrunk.FetchWithoutRoot | trunk/TUI/Guide/GuideWdg.py:148-153 | with the correction, the same fetch ends DownloadFailed and the callback sees exactly that state once |
| GuideWdgTrunk.BasicImObj.FetchCallFunc | trunk/TUI/Guide/GuideWdg.py:203-216 | transfer reports before the end change nothing; at the end the image is Downloaded (Done) or DownloadFailed with the transfer's exception, and the callback (kept in this version) is called with that state |
| GuideWdgTrunk.BasicImObj.GetFITSObj | trunk/TUI/Guide/GuideWdg.py:179-191 | an object is returned iff the image is Downloaded and opens; an open error makes it FileReadFailed with that exception; otherwise nothing changes |
| GuideWdgTrunk.ImObj.constructor | trunk/TUI/Guide/GuideWdg.py:236-259 | a Ready image file, the given command character and (cmdr, cmdID), no stars, no default or current threshold |
| GuideWdgTrunk.Match | trunk/TUI/Guide/GuideWdg.py:1273-1279 | the first image whose (cmdr, cmdID) is the keyword's; none exactly when no image has it |
| GuideWdgTrunk.DeleteFront | trunk/TUI/Guide/GuideWdg.py:1254-1255 | deleting the first name past the kept part removes that one entry and nothing else, when names are unique |
| GuideWdgTrunk.InsertKeepsNames | trunk/TUI/Guide/GuideWdg.py:1236 | assigning an image into the history keeps the names unique |
| GuideWdgTrunk.GuideWdg.constructor | trunk/TUI/Guide/GuideWdg.py:273-276 | an empty history of capacity 100, nothing displayed |
| GuideWdgTrunk.GuideWdg.HistInfo | trunk/TUI/Guide/GuideWdg.py:1073-1085 | the position of the displayed image in the newest-first history, none exactly when nothing is displayed or it is not in the history |
| GuideWdgTrunk.GuideWdg.Purge | trunk/TUI/Guide/GuideWdg.py:1251-1255 | the history keeps exactly its nToSave newest entries, the displayed image included in the purge, and its names stay unique |
| GuideWdgTrunk.GuideWdg.UpdStar | trunk/TUI/Guide/GuideWdg.py:1257-1302 | data that is not current or matches no image is ignored; on the first matching image an unknown type raises RuntimeError and changes nothing, a known one is filed as AddStar says and the result tells whether the selection was reset |
| GuideWdgTrunk.StarsAccumulate | trunk/TUI/Guide/GuideWdg.py:1288-1302 | after the stars of one command arrive on an image whose seen types were cleared, the seen types are exactly the types that arrived, each holding exactly its stars in arrival order; every other type keeps its earlier stars |
| GuideWdgTrunk.GuideWdg.DoExistingImage | trunk/TUI/Guide/GuideWdg.py:718-738 | data for an image not in the history, or from another commander, changes nothing; otherwise that image takes the new command character and (cmdr, cmdID), so later star data matches it, its seen types are cleared, and its star data and thresholds are kept |
| GuideWdgTrunk.GuideWdg.UpdThresh | trunk/TUI/Guide/GuideWdg.py:1325-1343 | on the first matching image the threshold becomes current, and the default too while no current one was known; the star data is untouched |
| GuideWdgTrunk.GuideWdg.FindStars | trunk/TUI/Guide/GuideWdg.py:773-787 | "No guide image" when nothing is displayed; no command when the threshold equals the current one; otherwise it becomes current and the command is findstars file=<repr name> thresh=<t> |
| GuideWdgTrunk.GuideWdg.NewImage | trunk/TUI/Guide/GuideWdg.py:1222-1255 | the new image (with the fetch callback) is assigned into the history and its file is fetched as written: one request with a known image root, and without one the image fails with no callback call; the history is cut to its nToSave newest entries |
| GuideWdgTrunk.GuideWdg.NextIm | trunk/TUI/Guide/GuideWdg.py:873-886 | "Position in history unknown" when the position is unknown, "Showing newest image" at the newest; otherwise the image just newer than the displayed one is shown. Its `currInd > 0` test is the rule GuideWdgOld.NextIm adopts as the correction |
| GuideWdgTrunk.GuideWdg.PrevIm | trunk/TUI/Guide/GuideWdg.py:888-903 | "Position in history unknown" when the position is unknown, "Showing oldest image" at the oldest; otherwise the image just older than the displayed one is shown |
| GuideWdgTrunk.ExpArgStrTokens | trunk/TUI/Guide/GuideWdg.py:1053-1071 | with blank-free fields the argument string splits back into exactly the non-blank exptime and bin fields, then thresh only when asked for |
| ExposeModel.MakeExpInfo | trunk/TUI/Inst/ExposeModel.py:87-112 | the instrument actor defaults to the lower-cased name, the expose actor appends "Expose", and a missing camera list means one unnamed camera; the other settings are kept |
| ExposeModel.LastWith | trunk/TUI/Inst/ExposeModel.py:148-150 | the position of the last entry whose lower-cased name is the key, or -1 when none has it |
| ExposeModel.InfoMapLookup | trunk/TUI/Inst/ExposeModel.py:148-150 | a name is a key of the instrument dictionary exactly when some entry has it lower-cased, and it maps to the last such entry |
| ExposeModel.GetInstInfoDict | trunk/TUI/Inst/ExposeModel.py:117-151 | the loop builds exactly the dictionary InfoMap describes |
| ExposeModel.InstTable | trunk/TUI/Inst/ExposeModel.py:119-146 | every known instrument has at least one camera |
| ExposeModel.Model.constructor | trunk/TUI/Inst/ExposeModel.py:182-186 | the model keeps the name, its lower-cased form, the instrument's information and its expose actor |
| ExposeModel.ModelCache.constructor | trunk/TUI/Inst/ExposeModel.py:154-158 | the model cache starts empty over the instrument dictionary |
| ExposeModel.ModelCache.GetModel | trunk/TUI/Inst/ExposeModel.py:172-179 | a cached model (looked up by lower-cased name) is returned unchanged; an unknown instrument raises KeyError and caches nothing; otherwise a new model is made, cached under the lower-cased name and returned |
| ExposeModel.ModelCache.GetModelTwice | trunk/TUI/Inst/ExposeModel.py:172-179 | two names differing only in case give the same model object, for any known instrument |
| ExposeModel.Model.FormatExpCmd | trunk/TUI/Inst/ExposeModel.py:411-464 | the loop and checks of formatExpCmd compute ExpCmd: the command or the ValueError it raises |
| ExposeModel.CameraTokens | trunk/TUI/Inst/ExposeModel.py:436-442 | the cameras, lower-cased, in order; the first one that is not the instrument's raises ValueError "unknown camera" |
| ExposeModel.FirstBadCam | trunk/TUI/Inst/ExposeModel.py:438-441 | none exactly when every camera, lower-cased, is one of the instrument's; otherwise an unknown camera from the list |
| ExposeModel.AppendOptional | trunk/TUI/Inst/ExposeModel.py:455-462 | the start number, total number and comment tokens are appended, each only when given, in that order |
| ExposeModel.ExpCmdSteps | trunk/TUI/Inst/ExposeModel.py:424-464 | the checks happen in source order: unknown type, then missing time for a non-bias exposure, then unknown camera, then empty file name, else the joined tokens |
| ExposeModel.ExpCmdRefusals | trunk/TUI/Inst/ExposeModel.py:424-464 | the command is refused exactly when the type is unknown, a non-bias exposure has no time, a camera is unknown or the file name is empty, and every refusal is a ValueError |
| ExposeModel.TokensLayout | trunk/TUI/Inst/ExposeModel.py:429-462 | the type comes first, the time second except for a bias, then the cameras, the count, the name and the sequencing token, then only the optional tokens |
| ExposeModel.ExpCmdSplits | trunk/TUI/Inst/ExposeModel.py:464 | a formatted command whose tokens hold no blanks splits back into exactly its tokens |
| ExposeModel.ScreenAgreesWithFileGetter | trunk/TUI/Inst/ExposeModel.py:327-351 | the exposure model's screening of files reports accepts exactly the reports the file getter's screening accepts |
| ExposeModel.FilesWatcher.constructor | trunk/TUI/Inst/ExposeModel.py:181-187 | no downloads and no log messages yet |
| ExposeModel.FilesWatcher.FilesCallback | trunk/TUI/Inst/ExposeModel.py:315-384 | a ValueError exactly for a cmdr that is not "progID.username"; a missing http root logs a warning; a refused report requests nothing and logs nothing else; an accepted one requests the batch of its file names and logs a warning per named file past the last camera; a report of the keyword's 5 + cameras values logs at most the http-root warning |
| ExposeModel.FilesWatcher.QueueDownloads | trunk/TUI/Inst/ExposeModel.py:356-384 | one binary download per file name other than "None", from http://host+root+progDir+userDir+name to the joined local path, with the camera attached only when images are viewed; the log gains exactly the "More files than known cameras" warnings |
| ExposeModel.MoreFilesLogEmpty | trunk/TUI/Inst/ExposeModel.py:366-374 | with no more file names than cameras, or when images are not viewed, no "More files" warning is logged |
| ExposeModel.MoreFilesLogNames | trunk/TUI/Inst/ExposeModel.py:366-374 | when images are viewed, every named file past the last camera gets its warning |
| SPIcam.TimeLim | tags/1.4.4/TUI/Inst/SPIcam/StatusConfigWdg.py:187-190 | the time limit is 80 seconds exactly for commands starting with "filter", 10 otherwise |
| SPIcam.FailureTypes | tags/1.4.4/TUI/Inst/SPIcam/StatusConfigWdg.py:170 | the failure test is a substring test on "f!", so it accepts exactly the reply types "", "f", "!" and "f!" |
| SPIcam.NotFailures | tags/1.4.4/TUI/Inst/SPIcam/StatusConfigWdg.py:167-174 | ":" (done) and the informational reply types ("i", "w", ">") never abort the queue |
| SPIcam.Dispatched | tags/1.4.4/TUI/Inst/SPIcam/StatusConfigWdg.py:192-198 | the commands dispatched are drawn from the events, never more of them than events |
| SPIcam.DispatchedAppend | tags/1.4.4/TUI/Inst/SPIcam/StatusConfigWdg.py:192-198 | the commands dispatched by two runs of events are those of the first followed by those of the second |
| SPIcam.ConfigWdg.constructor | tags/1.4.4/TUI/Inst/SPIcam/StatusConfigWdg.py:21-112 | no waiting commands; Apply enabled and Cancel disabled |
| SPIcam.ConfigWdg.SetApplyState | tags/1.4.4/TUI/Inst/SPIcam/StatusConfigWdg.py:200-209 | Apply gets the requested state and Cancel the opposite |
| SPIcam.ConfigWdg.DoNextCmd | tags/1.4.4/TUI/Inst/SPIcam/StatusConfigWdg.py:176-198 | the oldest waiting command is sent (with its time limit) and Apply disabled; with none left Apply is re-enabled and the done sound plays |
| SPIcam.ConfigWdg.DoApply | tags/1.4.4/TUI/Inst/SPIcam/StatusConfigWdg.py:114-127 | refused with RuntimeError while commands wait; a ValueError from the inputs is shown and nothing is sent; other exceptions pass through; otherwise the new list is queued and its first command sent |
| SPIcam.ConfigWdg.DoCancel | tags/1.4.4/TUI/Inst/SPIcam/StatusConfigWdg.py:129-139 | the waiting commands are dropped and Apply re-enabled; only temporary messages are cleared while commands were waiting, the whole status otherwise |
| SPIcam.ConfigWdg.DoCurrent | tags/1.4.4/TUI/Inst/SPIcam/StatusConfigWdg.py:141-150 | the inputs' defaults are restored and the status cleared (only temporary messages while commands wait); the queue is kept |
| SPIcam.ConfigWdg.CmdCallback | tags/1.4.4/TUI/Inst/SPIcam/StatusConfigWdg.py:164-180 | ":" sends the next command with Apply disabled (or finishes with the done sound); a failure type drops the rest, re-enables Apply and plays the failure sound; any other reply changes nothing |
| SPIcam.ApplyAndFinish | tags/1.4.4/TUI/Inst/SPIcam/StatusConfigWdg.py:114-198 | applying a list and answering ":" to every command sends the whole list in order, one command per reply, and ends with Apply enabled and the done sound |
| AgileStatusOld.ConnStateCases | tags/1.6/TUI/Inst/Agile/StatusConfigInputWdg.py:373-389 | a connection state is normal exactly when it is "connected" in any case; an empty state shows "?" and warns; a state containing "fail" (any case) is shown with the prefix "Connection " |
| AgileStatusOld.TempTextCases | tags/1.6/TUI/Inst/Agile/StatusConfigInputWdg.py:260-271 | with no status the reading ("?" when missing) is shown alone and is normal; "normal" is normal, "low"/"high" warn, "verylow"/"veryhigh" are errors, and any other status warns and is appended lower-cased |
| AgileStatusOld.LimitSigns | tags/1.6/TUI/Inst/Agile/StatusConfigInputWdg.py:296-307 | a limit is hidden exactly when missing; limits 0 and 2 show as non-positive, 1 and 3 as non-negative, always with the reported magnitude |
| AgileStatusOld.MaskHitBasics | tags/1.6/TUI/Inst/Agile/StatusConfigInputWdg.py:316-324 | the bit test: no mask hits the zero word, the zero mask hits nothing, and a non-zero mask hits itself |
| AgileStatusOld.FWMotorCases | tags/1.6/TUI/Inst/Agile/StatusConfigInputWdg.py:309-328 | the motor is "OK" exactly when the word is known and none of the masks 0x0201, 0x004, 0x008, 0x0400, 0x1002 hits it, and "OK" is the only normal state |
| AgileStatusOld.NTPServerStr | tags/1.6/TUI/Inst/Agile/StatusConfigInputWdg.py:349-352 | the server shown is a prefix of the reported name with no "." in it |
| AgileStatusOld.NTPSeverityCases | tags/1.6/TUI/Inst/Agile/StatusConfigInputWdg.py:343-347 | NTP is normal exactly when running with a known server and a stratum; it is an error exactly when not running |
| AgileStatusOld.SummaryCases | tags/1.6/TUI/Inst/Agile/StatusConfigInputWdg.py:363-371 | the summary is normal exactly when it reads "OK" or the first entry is normal; otherwise it begins with the entry's name and ": " and carries its severity |
| AgileStatusOld.StatusWdg.constructor | tags/1.6/TUI/Inst/Agile/StatusConfigInputWdg.py:49-232 | an empty environment state set |
| AgileStatusOld.StatusWdg.UpdCameraConnState | tags/1.6/TUI/Inst/Agile/StatusConfigInputWdg.py:250-253 | the camera label and its environment entry show the parsed connection state (always recorded, never cleared) |
| AgileStatusOld.StatusWdg.UpdFWConnState | tags/1.6/TUI/Inst/Agile/StatusConfigInputWdg.py:255-258 | the filter wheel connection label and its entry show the parsed connection state |
| AgileStatusOld.StatusWdg.UpdCCDTemp | tags/1.6/TUI/Inst/Agile/StatusConfigInputWdg.py:260-276 | the CCD temperature label shows the reading and status; its entry is cleared exactly when current and normal, recorded otherwise |
| AgileStatusOld.StatusWdg.UpdCCDSetTemp | tags/1.6/TUI/Inst/Agile/StatusConfigInputWdg.py:278-294 | the same for the CCD set temperature |
| AgileStatusOld.StatusWdg.UpdCCDTempLimits | tags/1.6/TUI/Inst/Agile/StatusConfigInputWdg.py:296-307 | each of the four limit widgets is hidden (keeping its value) when its limit is missing, and otherwise shown with the signed magnitude |
| AgileStatusOld.StatusWdg.UpdFWStatus | tags/1.6/TUI/Inst/Agile/StatusConfigInputWdg.py:309-330 | the motor label and its entry show the decoded motor state (always recorded) |
| AgileStatusOld.StatusWdg.UpdGPSSynced | tags/1.6/TUI/Inst/Agile/StatusConfigInputWdg.py:332-339 | synced is normal "Yes", not synced an error "No", unknown a warning "?"; the entry is cleared exactly when current and normal |
| AgileStatusOld.StatusWdg.UpdNTPStatus | tags/1.6/TUI/Inst/Agile/StatusConfigInputWdg.py:341-361 | the three NTP labels share one severity; the entry holds running state, server and stratum and is cleared exactly when current and normal |
| AgileStatusOld.StatusWdg.UpdEnvironStateSet | tags/1.6/TUI/Inst/Agile/StatusConfigInputWdg.py:363-371 | the summary follows the state set's first entry: "OK" when there is none or it is normal, else "name: state" with its severity |
| AgileStatusTrunk.CameraConnStateCases | trunk/TUI/Inst/Agile/StatusConfigInputWdg.py:293-302 | the camera state is normal exactly when "connected" in any case; an empty state shows "?" and warns; any other state, a failing one included, is shown as it is (where tag 1.6 added "Connection ") |
| AgileStatusTrunk.SummaryCases | trunk/TUI/Inst/Agile/StatusConfigInputWdg.py:388-396 | the summary reads "OK" exactly when the state set is empty; otherwise it carries the first entry's severity and currency, even for a normal entry that tag 1.6 summarised as "OK" |
| AgileStatusTrunk.FilterStateCases | trunk/TUI/Inst/Agile/StatusConfigInputWdg.py:398-417 | the filter is an error exactly when its name is "unknown" in any case, and then has no default; otherwise it is normal and the name is the default |
| AgileStatusTrunk.MaxLen | trunk/TUI/Inst/Agile/StatusConfigInputWdg.py:428 | the longest name length: no name is longer, and some name has it |
| AgileStatusTrunk.AllNames | trunk/TUI/Inst/Agile/StatusConfigInputWdg.py:420 | the names are usable exactly when the list is non-empty and holds no None, and then they are the list's names in order |
| AgileStatusTrunk.StatusWdg.constructor | trunk/TUI/Inst/Agile/StatusConfigInputWdg.py:44-291 | an empty environment state set and the current filter shown instead of the timer |
| AgileStatusTrunk.StatusWdg.UpdCameraConnState | trunk/TUI/Inst/Agile/StatusConfigInputWdg.py:293-304 | the camera label and its entry (now with currency) show the connection state |
| AgileStatusTrunk.StatusWdg.UpdCCDTemp | trunk/TUI/Inst/Agile/StatusConfigInputWdg.py:306-322 | the CCD temperature label shows the reading and status (tag 1.6's table); its entry is cleared exactly when current and normal |
| AgileStatusTrunk.StatusWdg.UpdCCDSetTemp | trunk/TUI/Inst/Agile/StatusConfigInputWdg.py:325-341 | the same for the CCD set temperature |
| AgileStatusTrunk.StatusWdg.UpdCCDTempLimits | trunk/TUI/Inst/Agile/StatusConfigInputWdg.py:343-354 | each limit widget is hidden when its limit is missing, otherwise shown with the signed magnitude (negative at indices 0 and 2) |
| AgileStatusTrunk.StatusWdg.UpdGPSSynced | trunk/TUI/Inst/Agile/StatusConfigInputWdg.py:356-363 | the GPS label follows the synced table; its entry is cleared exactly when current and normal |
| AgileStatusTrunk.StatusWdg.UpdNTPStatus | trunk/TUI/Inst/Agile/StatusConfigInputWdg.py:366-386 | the three NTP labels share one severity; the entry is cleared exactly when current and normal |
| AgileStatusTrunk.StatusWdg.UpdEnvironStateSet | trunk/TUI/Inst/Agile/StatusConfigInputWdg.py:388-396 | the summary is the Summary of the state set's first entry |
| AgileStatusTrunk.StatusWdg.UpdFilter | trunk/TUI/Inst/Agile/StatusConfigInputWdg.py:398-417 | the timer is hidden, the current filter shows the name, and its severity and the menu default follow FilterState (the callback's registration is commented out in this version) |
| AgileStatusTrunk.StatusWdg.UpdFilterNames | trunk/TUI/Inst/Agile/StatusConfigInputWdg.py:419-430 | an empty list or one holding None changes nothing; otherwise the names become the menu items and the label width is the longest name length, at least 3 (the callback's registration is commented out in this version) |

## Left out

- Tk widgets, layout, colours, help text and sounds are not modelled. Where a rule's effect is visible only in a widget, the widget is a record or a field.
- Keyword-variable dispatch (`RO.KeyVariable`) is not part of this model. Callbacks receive their values, currency and genuineness as parameters.
- Networking, sockets and the FTP/HTTP transfer itself are not modelled. FTPGet's byte counting is a loop over the chunks the connection returns.
- Threads and locks in FTPGet are not modelled, so the model has no concurrency.
- FTPGet.Transfer.Abort: an abort that arrives while the transfer is Connecting is overwritten by the thread's move to Running. The model follows the state codes only.
- FTPGet.Transfer.GetTask: `abortAt` models an abort observed before a read. Aborts racing with the thread at other points are not modelled.
- The filesystem (existence checks, deletion, directory creation), pyfits and ds9 are not modelled. A file's existence and the outcome of opening an image are parameters.
- FileGetter.FileGetter.DownloadFinished: the ds9 display of the downloaded image is not modelled.
- FileGetter.FileGetter.UpdFiles: the camera warnings logged for an accepted report are not stated in the contract.
- The download-finished handler of the exposure model (`_downloadFinished`, ds9 display) is not modelled.
- The trunk image object's `__del__` is not modelled. It deletes the file when Python's garbage collector runs, which the model does not capture.
- The early return of the trunk `updFiles` when the window is not shown is not modelled. `GuideWdgTrunk.GuideWdg.NewImage` is the path taken when the window is shown.
- The trunk `doPrevIm` also switches the "Current" checkbox off. The model covers only the image the button chooses.
- Guide image display, annotations, drag and click handling, and guide-on/off commands are widget behaviour and are not modelled.
- Floating-point values are Dafny `real`s, and `"%0.1f"`, `"%.2f"` and `"%s"` of a float are function parameters. Where the source does integer arithmetic on positions, the model uses `int` with Python floor division.
- NICFPS focus:
  - the initial "fowler nfs=1" command is not among the modelled moves;
  - the best-focus fit (a least-squares fit) is a parameter;
  - the FWHM measurement and the plot are not modelled.
- Kosmos: the input-container list (TUI/Inst/Kosmos/StatusConfigInputWdg.py:521-559), which says which entries are sent by menu index and which as name=value, is not modelled. Its formatters come from RO.InputCont, which is not part of this model. Only `indFormat` is modelled, as IndFormat.
- AgileStatusOld.StatusWdg.UpdEnvironStateSet: the first entry of the state set is a parameter (`first`). The model does not track the order of the entries in RO's StateSet, so it does not say which entry is first.
- Kosmos `_updCamfocState` and `_updColfocState` only show the raw value. They are not modelled.
- GetPointingData: the window centred on a star position in `recordUserParams` uses float pixel arithmetic and is not modelled.
- Main: importing a window module and adding its window are parameters. The traceback printed for a module that fails to load is not modelled.
- TelTarget: a key present with the value None is treated like a missing key.
- TelTarget.Target.SetValueDict: for a coordinate system the coordinate-system module does not know, the source fails in `getSysConst` before `csysConst` is assigned. The model records `csysConst` first and fails when converting the position, so that attribute's value after the failure differs.
- AgileStatusTrunk.StatusWdg.UpdFilter and UpdFilterNames model callbacks whose registrations are commented out in trunk/TUI/Inst/Agile/StatusConfigInputWdg.py (lines 108 and 248). The trunk window never calls them.
- AgileStatusOld: a connection state of None is treated like the empty string, which shows "?".
- Python integers are unbounded, like Dafny's, so no wrap-around is modelled.

## Findings

| source | as written | input that shows it | evidently intended | confidence | as-written member | corrected member |
|---|---|---|---|---|---|---|
| trunk/TUI/Guide/GuideWdg.py:148-153 | with no image root, `fetchFile` fails the image but writes `self.fetchCallFunc` without calling it | fetching an image while imageRoot is (None, "/data/") | the callback is called with the failed image, as on every other path that finishes a fetch (lines 177 and 216) | not executed | GuideWdgTrunk.FetchWithoutRootAsWritten | GuideWdgTrunk.FetchWithoutRoot |
| tags/20050627_1.0b1/TUI/Guide/GuideWdg.py:1270-1274 | `doNextIm` reads `revHist[currInd-1]` and relies on IndexError; at index 0 Python's negative index gives the oldest image | pressing "next" while the newest of three images is shown | report "Showing newest image" and stay, as the trunk's `currInd > 0` test does | not executed | GuideWdgOld.NextImWrapsAround | GuideWdgOld.NextIm |
| tags/20060519_1.2b5/TUI/Scripts/NICFPS/Focus.py:296, 421-422 | the backlash position is `focPos - abs(BacklashComp) * self.focDir`, where `focDir` is a boolean | a scan with endFocPos < startFocPos (focDir False) | move the full compensation behind the focus position in either direction, so the last move is in the scan direction | not executed | NicfpsFocus.BacklashAsWrittenSkipsDownward | NicfpsFocus.BacklashApproachesInScanDirection |
| TUI/Inst/Arctic/ArcticWindow.py:44-58 | the actor is looked up from the loop variable `cmdStr` after the loop | applying with no settings changed (empty command list) | send nothing when there is nothing to set | not executed | Arctic.DoConfigAsWritten | Arctic.DoConfigResult |
| TUI/Inst/GIFS/StatusConfigInputWdg.py:83-88 | `getCmd` tests and sends the reported-position widget (`currWdg`), not the user's setting | a current collimator status "spect_pinhole_red" while the user picked "imaging_green" | command the user's setting unless it equals the reported position | not executed | GIFS.CommandAsWrittenIgnoresUser | GIFS.Command |
| TUI/Inst/GIFS/StatusConfigInputWdg.py:100-106 | `statusCallback` takes field 3 (the commanded position) as the move duration, and the cal mirror shows field 0 (is moving) as its position | collimator status "1, spect_pinhole_red, imaging_green, -3.2, 32450.0, 1.5"; cal mirror status "0, in, 0.0, 0.0" | time the bar with field 5 (time to arrive) and show field 1 for the cal mirror, per the keyword layout in TUI/Inst/GIFS/GIFSModel.py:43-57 and 125-133 | not executed | GIFS.StatusFieldsAsWrittenMisread | GIFS.StatusUpdateShows |
| trunk/TUI/Scripts/GetPointingData.py:400-406 | `formatWindowArg` reads `self.doWindow`, `self.windowOrigin` and `self.windowIsInclusive`, which the script class never assigns | `waitCentroid` (line 540) calling `formatExposeArgs()`, whose `doWindow` defaults to True | window the exposure according to the script's own window settings | not executed | PointingData.WindowArgAsWrittenFails | PointingData.WindowArg |
| trunk/TUI/Main.py:120-142 | the docstring of `loadWindows` promises a RuntimeError when loadFirst is given and no modules are found; the code never raises one | loadWindows on a directory with no "*Window.py" file and loadFirst "Inst" | raise RuntimeError as documented | not executed | MainWindows.NoModulesFoundAsWritten | MainWindows.DocumentedLoadError |
