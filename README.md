# FreeOS' terminal core in Dafny

This project models the core of `freeos.py` (FreeOS 2.0): a Tk application that imitates a
console. The parts modelled are:

- the terminal session: banner, output log, command history with up/down browsing, the
  Enter handler, and the pending "play" selector that captures the next line;
- command dispatch through the registry of `CommandSpec` rows, with case folding and aliases;
- the handlers whose behaviour is state and text: `cd` with its back-navigation history,
  `play` with its numbered selection, `msg`, `minuteur`, `Stop m`, `stop all`, `exitapp`,
  `shutup`;
- the countdown timer: parsing `hh:mm[:ss]`, formatting `HH:MM:SS`, and the one-second tick
  that stops on its cancel token;
- child windows and cancel tokens as objects that commands destroy or set;
- three games: Pendu (hangman), Morpion (ASCII tic-tac-toe) and the chess move validator.

## Modules

- `Text`: the Python string services the program relies on, over `seq<char>`. This covers
  `strip`, ASCII/Latin-1 `lower`, whitespace `split`, `split(':')`, `join`, `find`, `str` of
  an integer, `int()` of a decimal string, and the `:02d` / `:>2` formats.
- `Registry`: `CommandSpec`, the registration table in insertion order (a Python `dict`
  keeps insertion order), alias resolution, and the table `_register_commands` builds.
- `History`: the history cursor that the up and down arrows move.
- `Clock`: `_parse_hms` and `_fmt_hhmmss`.
- `Resources`: `Window`, which has a `destroy`, and `CancelToken`, which stands for
  `threading.Event`.
- `Timers`: the countdown's tick as a pure step function, plus a `Countdown` class whose
  `Tick` is proved against it.
- `Session`: the `TerminalApp` class. Its fields mirror the instance attributes, and its
  methods mirror `on_enter`, `execute_command` and the modelled `cmd_*` handlers. The file
  system, the browser and process launching are reached through an `Env` value of oracle
  functions.
- `Pendu`, `Morpion`, `Chess`: each game has a pure specification and a class or
  array-based method proved against it.

## Model

| member | source | states |
|---|---|---|
| Text.Lower | freeos.py:398 | lower-casing keeps the length and folds every upper-case letter position by position |
| Text.LowerNoSpace | freeos.py:383-389 | lower-casing a whitespace-free word keeps it whitespace-free, so a folded command word is still one shell word |
| Text.StripSpec | freeos.py:363 | `strip` returns the longest middle slice that starts and ends with a non-space; everything cut away is whitespace |
| Text.StripBlank | freeos.py:363 | whitespace around a text that starts and ends with a non-space is removed and the text itself kept |
| Text.SplitWs | freeos.py:383-389 | whitespace splitting yields only non-empty words that contain no whitespace |
| Text.SplitWsBlank | freeos.py:383-389 | the split is empty exactly when the line is blank |
| Text.SplitWsWord | freeos.py:383-389 | a non-empty word without whitespace splits into itself alone |
| Text.SplitWsCons | freeos.py:383-389 | splitting at a whitespace character splits the two sides independently and concatenates the results |
| Text.SplitOnCons | freeos.py:1400 | splitting `a + sep + b` on `sep` when `a` has no `sep` gives `a` followed by the parts of `b` |
| Text.Find | freeos.py:1222 | `find` returns -1 exactly when the character is absent, otherwise its first index |
| Text.IntToStrRoundTrip | freeos.py:1402-1405 | `int(str(n)) == n` for every integer |
| Text.Pad2RoundTrip | freeos.py:1412-1414 | `int` reads back every `:02d`-formatted field |
| Text.ParseDecimal | freeos.py:1402-1405 | `int()` accepts an optional sign and decimal digits surrounded by whitespace, and returns their value |
| Text.ParseBareDigits | freeos.py:1402-1405 | `int()` of a bare string of digits is their value |
| Text.ParseNegativeDigits | freeos.py:1402-1405 | `int()` of a minus sign and digits is the negated value |
| Registry.Register | freeos.py:470-472 | `_add_cmd` appends a new name at the end and keeps a repeated name in place; the spec is in the table afterwards, and unique names stay unique |
| Registry.Resolve | freeos.py:398-402 | the first row whose name or alias equals the word is chosen; no earlier row matches it; `None` means no row matches |
| Registry.Lookup | freeos.py:400-402 | the dispatch loop over `commands.items()` finds exactly the row `Resolve` names |
| Registry.RegisterOverwrites | freeos.py:470-472 | registering a name that is already present replaces that row and nothing else |
| Registry.RegisterAllFresh | freeos.py:423-468 | registering rows with fresh names, one after another, appends them in order |
| Registry.StandardRegistration | freeos.py:423-468 | the 28 `_add_cmd` calls build exactly the standard table |
| Registry.StandardNamesUnique | freeos.py:423-468 | no two standard commands share a name |
| Registry.StandardRowDiffers | freeos.py:423-468 | any two distinct rows of the standard table carry different names |
| Registry.StandardAliases | freeos.py:423-468 | only `cln` (alias `cls`) and `dir` (alias `ls`) have aliases, and no name equals an alias |
| Registry.StandardDistinctKeys | freeos.py:423-468 | all names and aliases in the standard table are distinct |
| Registry.StandardResolvesOwnKey | freeos.py:398-402 | each standard name or alias dispatches to its own row |
| Registry.ClsIsClear | freeos.py:425 | `cls` dispatches to the `cln` row and its clear handler |
| Registry.LsIsDir | freeos.py:428 | `ls` dispatches to the `dir` row and its handler |
| Registry.LowerIsStop | freeos.py:398 | lower-casing gives `stop` exactly for the spellings of `stop` in any mix of cases |
| Registry.StopWordReachesStop | freeos.py:455-456 | a four-letter word reaches the `stop` row after lower-casing exactly when it spells `stop` in any mix of cases, and that row's handler is the stop command |
| Registry.UppercaseStopUnreachable | freeos.py:455 | the row named `Stop` is never chosen, because the typed word is lower-cased before lookup |
| Registry.StopAllNeedsQuoting | freeos.py:457 | `stop all` is only reachable as one quoted word; no unquoted single word reaches it |
| History.Up | freeos.py:340-349 | with an empty history nothing moves; otherwise the cursor goes to the last line, or one line earlier, never below 0 |
| History.Down | freeos.py:351-359 | without a cursor nothing moves; otherwise it shows the next line and drops the cursor when it reaches the last line |
| History.UpMoves | freeos.py:340-349 | the up arrow always leaves a cursor on a valid line of a non-empty history |
| History.DownMoves | freeos.py:351-359 | from line i the down arrow shows line `min(i+1, n-1)`, and ends browsing exactly when that is the last line |
| History.UpsFromTop | freeos.py:340-349 | k presses of up from no cursor land on line `max(0, n-k)` |
| History.UpsFromLine | freeos.py:340-349 | k presses of up from line i land on line `max(0, i-k)` |
| History.ThreeLineScenario | freeos.py:340-359 | over three lines, up shows lines 2, 1, 0 and then stays on 0; down from 0 shows 1, and down from 1 shows 2 and ends browsing; down without a cursor does nothing |
| Clock.ParseHms | freeos.py:1399-1410 | `_parse_hms` succeeds exactly for two or three `:`-separated fields that `int()` accepts |
| Clock.HmsDecomposition | freeos.py:1412-1414 | hours, minutes and seconds put back together give the total |
| Clock.FmtParseValue | freeos.py:1399-1414 | parsing the formatted text of a non-negative total gives the total back |
| Clock.FmtParseRoundTrip | freeos.py:1399-1414 | `_parse_hms(_fmt_hhmmss(t)) == t` for every `t >= 0` |
| Clock.ParseThreeFields | freeos.py:1404-1408 | three integer fields give `h*3600 + m*60 + s` |
| Clock.ParseTwoFields | freeos.py:1402-1408 | two integer fields give `h*3600 + m*60` (seconds are 0) |
| Clock.ThreeFieldsUnchecked | freeos.py:1404-1408 | fields are not range-checked: any three integers, negative or over 59 included, give their weighted sum |
| Clock.TwoFieldsAreHoursMinutes | freeos.py:1402-1403 | `h:m` means hours and minutes, not minutes and seconds |
| Clock.OneFieldRejected | freeos.py:1406-1407 | text without `:` is refused |
| Clock.FourFieldsRejected | freeos.py:1406-1407 | four or more fields are refused |
| Resources.Window.constructor | freeos.py:194-202 | a new window is alive |
| Resources.Window.Destroy | freeos.py:203-205 | a destroyed window is no longer alive |
| Resources.CancelToken.constructor | freeos.py:1360 | a new stop event is clear |
| Resources.CancelToken.Set | freeos.py:1374 | setting the event makes it set |
| Resources.SetTwice | freeos.py:1374 | setting an event twice leaves it set |
| Timers.TickStep | freeos.py:1362-1372 | a stopped tick changes nothing, a positive total drops by one and schedules the next tick, a zero total starts the alarm; a non-negative total never goes negative |
| Timers.CountdownRun | freeos.py:1362-1372 | an uncancelled countdown from t reaches `max(0, t-n)` after n ticks, and alarms exactly when `n > t` |
| Timers.StoppedRunFreezes | freeos.py:1364-1365 | once the stop event is set, ticking changes neither the total nor the alarm |
| Timers.RunBounds | freeos.py:1362-1372 | the remaining time never grows and never goes below zero from a non-negative start |
| Timers.Countdown.constructor | freeos.py:1355-1361 | a new tracker holds the total, its stop event and its window |
| Timers.Countdown.Tick | freeos.py:1362-1372 | one tick updates the tracker exactly as `TickStep` says |
| Timers.Countdown.ClickLabel | freeos.py:1374 | clicking the label sets the stop event |
| Session.DispatchCalls | freeos.py:391-404 | a line makes at most one handler call, and makes one exactly when it has a first word that resolves after lower-casing; the call is to the first matching row, with the remaining words as arguments |
| Session.BackSteps | freeos.py:536-537 | `-`, `--` and `---` mean 1, 2 and 3 steps back; every other argument means 0 |
| Session.PopBack | freeos.py:541-547 | going back keeps a non-empty prefix of the history: it pops `steps` entries but never the first one |
| Session.PopBackTop | freeos.py:541-547 | after going back, the current directory is the entry `steps` places below the top, or the first entry when the history is shorter |
| Session.FilterMatches | freeos.py:624-626 | the candidates are exactly the directory entries whose lower-cased name contains the needle |
| Session.FilterMatchesAppend | freeos.py:624-626 | one more directory entry adds itself at the end of the candidates when its lower-cased name contains the needle, and nothing otherwise; the listing order is kept |
| Session.ChoiceLines | freeos.py:639-641 | one numbered line per match, numbered from 1 |
| Session.Choice | freeos.py:643-652 | a selection line picks match k-1 exactly when `int(line.strip())` is k with `1 <= k <= n` |
| Session.ChoiceOfNumber | freeos.py:643-652 | typing the number k selects match k-1 when k is in range and cancels otherwise |
| Session.SelectionOpensOnlyInRange | freeos.py:643-653 | a selection is not reported as cancelled exactly when the typed line is a number within range and opening that match succeeds |
| Session.TerminalApp.constructor | freeos.py:213-236 | a new terminal prints the banner, holds the standard command table, and starts with empty history, selector, windows and countdowns |
| Session.TerminalApp.Write | freeos.py:322-326 | `write` appends one line to the output |
| Session.TerminalApp.Clear | freeos.py:328-331 | `clear` empties the output |
| Session.TerminalApp.Banner | freeos.py:334-337 | the banner appends the welcome line, the current directory and a blank line |
| Session.TerminalApp.AddCmd | freeos.py:470-472 | `_add_cmd` updates the table as `Register` says |
| Session.TerminalApp.AddCmds | freeos.py:470-472 | registering rows with fresh names appends them in order |
| Session.TerminalApp.RegisterCommands | freeos.py:423-468 | `_register_commands` leaves exactly the standard table |
| Session.TerminalApp.HistoryUp | freeos.py:340-349 | the up arrow moves the cursor as `Up` says and puts that history line in the entry |
| Session.TerminalApp.HistoryDown | freeos.py:351-359 | the down arrow moves the cursor as `Down` says and puts that history line in the entry |
| Session.TerminalApp.OnEnter | freeos.py:362-381 | the entry is cleared; a blank line does nothing else; any other line is echoed, appended to the history, ends browsing, and then goes to the pending selector (which is used once) or to dispatch; after dispatch the echo stays first unless the call is `clear`, a line of no words leaves only the echo, an unknown word adds its line after the echo, and a caught exception leaves exactly the echo and its `[erreur] …` line |
| Session.TerminalApp.EchoAndSubmit | freeos.py:366-381 | a non-empty line is echoed and recorded, then handled as `OnEnter` states |
| Session.TerminalApp.Submit | freeos.py:371-381 | a pending selector consumes the line and is dropped; otherwise the line makes the calls `DispatchCalls` lists, the output only grows unless the call is `clear`, and a handler's exception adds exactly its `[erreur] …` line |
| Session.TerminalApp.ExecuteCommand | freeos.py:391-404 | the line makes exactly the calls `DispatchCalls` lists; an unknown first word writes the "commande inconnue" line with the word as typed; the exception escaping is the one the dispatched handler raises, and then nothing was written |
| Session.TerminalApp.Invoke | freeos.py:400-402 | a dispatched handler is recorded with its arguments; only `play` can install a selector; the exception it raises is `HandlerFault` (a failed listing for `play`, the oracle's for a handler left out, none otherwise) and leaves the output as it was; every handler but `clear` only appends; `clear`, `msg` and `shutup` leave the directory, windows and countdowns alone, and a handler left out changes nothing |
| Session.TerminalApp.InvokeShell | freeos.py:400-402 | the `clear`, `cd`, `play`, `msg` and `shutup` handlers raise exactly `HandlerFault`, write nothing when they raise, and only `cd` moves the directory |
| Session.TerminalApp.InvokeTimers | freeos.py:400-402 | the `minuteur`, `stop`, `stopall` and `exitapp` handlers only append to the output |
| Session.TerminalApp.RegisterWindow | freeos.py:407-408 | the window joins the child windows |
| Session.TerminalApp.UnregisterWindow | freeos.py:410-412 | the window leaves the child windows; an unknown window is ignored |
| Session.TerminalApp.CloseWindow | freeos.py:203-205 | closing a child window destroys it and unregisters it |
| Session.TerminalApp.CloseAllWindows | freeos.py:414-420 | every child window is destroyed and the set becomes empty |
| Session.TerminalApp.CmdCd | freeos.py:531-567 | no argument prints the cwd; a back argument with a one-entry history prints "historique vide" and changes nothing, otherwise it pops as `PopBack` says and moves to the new top; a path moves there and records it, or reports "dossier introuvable" and changes nothing |
| Session.TerminalApp.CmdPlay | freeos.py:621-654 | no argument prints the usage line; zero matches print "aucune correspondance"; one match is opened; several are listed with numbers and a selector over them is installed |
| Session.TerminalApp.WriteChoices | freeos.py:639-641 | the numbered lines are written in order |
| Session.TerminalApp.RunSelector | freeos.py:643-653 | the selection writes `[ouvert] name` for a number in range whose opening succeeds, and `[info] sélection annulée.` for anything else, an exception included, as `SelectionMessage` says |
| Session.TerminalApp.CmdMsg | freeos.py:656-657 | `msg` writes its arguments joined by single spaces |
| Session.TerminalApp.CmdMinuteur | freeos.py:1340-1376 | no argument prints the usage line; bad text prints the format error and starts nothing; good text opens a window and registers a tracker whose tick state is the parsed total |
| Session.TerminalApp.CmdStop | freeos.py:1416-1430 | `Stop m…` sets every tracker's stop event, destroys its window, empties the list and reports the count; any other argument prints the usage line and changes nothing |
| Session.TerminalApp.CmdStopAll | freeos.py:1432-1436 | every countdown is stopped, every child window is destroyed, and the count and the "stop all" line are written |
| Session.TerminalApp.CmdExitApp | freeos.py:1464-1466 | every child window is destroyed and the countdowns are left running |
| Session.TerminalApp.CmdShutUp | freeos.py:1471-1472 | `shutup` writes `ok` at once |
| Pendu.Insert | freeos.py:1023 | inserting a letter into an ascending list keeps it ascending and adds exactly that letter |
| Pendu.Sorted | freeos.py:1023 | `sorted(tried)` is ascending and a permutation of the tried letters |
| Pendu.Mask | freeos.py:1013 | the starting mask hides every letter with `_` and shows every other character |
| Pendu.Begin | freeos.py:1012-1017 | a new round has 8 tries, no tried letters, the mask of the lower-cased word, and is sound |
| Pendu.Reveal | freeos.py:1034-1035 | revealing a letter uncovers exactly its positions in the word |
| Pendu.ScoredKeepsSound | freeos.py:1030-1043 | scoring a guess keeps the invariant: every hidden cell is the word's character, or `_` for a letter not yet tried; tried letters appear once |
| Pendu.GuessKeepsSound | freeos.py:1025-1048 | a whole Enter press keeps that invariant |
| Pendu.ScoredEffect | freeos.py:1030-1043 | a new letter is recorded; a letter in the word is uncovered at no cost; a letter not in the word or a wrong word costs one try; the right word uncovers everything |
| Pendu.GuessEffect | freeos.py:1025-1048 | the word never changes, uncovered cells stay uncovered, the tried letters grow by at most the guessed one, and a try is lost exactly for a new letter the word lacks or a wrong whole word; an empty or repeated guess changes nothing; otherwise the info line is rebuilt, the win notice is posted when nothing is hidden, else the loss notice when no tries are left, else no notice |
| Pendu.RepeatIsIgnored | freeos.py:1031 | guessing an already tried letter changes nothing, not even the info line |
| Pendu.WordGuessWins | freeos.py:1039-1046 | guessing the whole word uncovers it and posts the win notice |
| Pendu.WonMeansUncovered | freeos.py:1045 | in a sound round, no `_` left means the whole word is shown |
| Pendu.Window.constructor | freeos.py:1010-1017 | the window's state is `Begin` of the chosen word |
| Pendu.Window.RevealLetter | freeos.py:1034-1035 | the in-place loop leaves the hidden cells as `Reveal` says |
| Pendu.Window.RevealAll | freeos.py:1040-1041 | the in-place loop shows the whole word |
| Pendu.Window.Score | freeos.py:1030-1043 | the window's state moves as `Scored` says |
| Pendu.Window.Guess | freeos.py:1025-1048 | the window's state moves as `NextRound` says |
| Morpion.LineCells | freeos.py:1071 | each of the eight lines is three distinct cells of the 3x3 board |
| Morpion.FirstWin | freeos.py:1072-1074 | the scan finds a mark exactly when some line from j on is complete, and the mark is that line's |
| Morpion.Winner | freeos.py:1070-1077 | the result is a win exactly when some line has three equal non-blank marks, and names that line's mark; a draw exactly when no line is complete and the board is full |
| Morpion.NewWinIsMover | freeos.py:1094-1100 | if the previous board had no winner, a win after placing a mark is the mover's |
| Morpion.Render | freeos.py:1061-1066 | the 57-character drawing shows each cell at its fixed position |
| Morpion.RenderInjective | freeos.py:1061-1066 | different boards give different drawings |
| Morpion.CellOf | freeos.py:1087-1090 | the input is accepted exactly when it is one digit 1..9, and names cell k with `str(k+1)` equal to the input |
| Morpion.Start | freeos.py:1057-1058 | the opening game is sound: an empty board with X to play |
| Morpion.PlaceKeepsSound | freeos.py:1094-1102 | placing a mark keeps the board made of blanks, X and O, and keeps X or O to play |
| Morpion.PlayKeepsSound | freeos.py:1085-1102 | a whole Enter press keeps the game sound |
| Morpion.PlayRefusals | freeos.py:1087-1093 | bad input says "Entrez 1..9."; a taken cell says "Case déjà prise."; neither changes the board or the player |
| Morpion.PlayAccepted | freeos.py:1085-1102 | accepted input on a free cell is exactly placing the mover's mark there |
| Morpion.PlaceOutcome | freeos.py:1094-1102 | placing fills that cell only, redraws, and then announces a draw, announces the win, or passes the turn to the other player |
| Morpion.Window.constructor | freeos.py:1055-1059 | a new window's state is the opening game |
| Morpion.Window.RenderBoard | freeos.py:1061-1068 | `render` redraws the board and writes the turn line |
| Morpion.Window.PlaceMark | freeos.py:1094-1102 | the window's state moves as `Place` says |
| Morpion.Window.PlayEntry | freeos.py:1085-1102 | the window's state moves as `Play` says and stays sound |
| Chess.StartPosition | freeos.py:1188-1201 | the start position is eight rows of eight squares |
| Chess.StartBoard | freeos.py:1188-1201 | a fresh 8x8 board holding the start position |
| Chess.FileIndex | freeos.py:1222 | the file letter's index, or -1 exactly when it is not a..h |
| Chess.FileIndexIsFind | freeos.py:1222 | `FileIndex` agrees with `"abcdefgh".find` |
| Chess.SqToIdx | freeos.py:1221-1226 | as written: fails only on a short name or a non-digit rank; the row can be -1 or 8 and the column -1 |
| Chess.PyIndex | freeos.py:1238 | Python list indexing accepts `-n <= i < n` and wraps a negative index |
| Chess.OffBoardNamesPass | freeos.py:1221-1238 | as written, `z9` is read as row -1, column -1, which wraps to h1's square; `a0` gives row 8, which raises IndexError, not the coordinates message |
| Chess.ParseSquare | freeos.py:1221-1237 | corrected parser: accepted exactly for a file a..h followed by a rank 1..8, always on the board, and agreeing with the as-written parser there |
| Chess.SquareRoundTrip | freeos.py:1221-1229 | naming a square and parsing the name gives the square back |
| Chess.NameRoundTrip | freeos.py:1221-1229 | parsing a name and naming the square gives back its first two characters |
| Chess.Kind | freeos.py:1249 | `upper()` maps a lower-case piece letter to its capital |
| Chess.PathStaysOnBoard | freeos.py:1251-1261 | walking from the source toward the target in unit steps stays between them and arrives after `Dist` steps |
| Chess.Apply | freeos.py:1288-1289 | a move empties the source, puts the piece on the target, and leaves every other square unchanged |
| Chess.MoveOutcome | freeos.py:1231-1290 | a move succeeds exactly when its message is "ok"; a refused move leaves the board unchanged; an accepted one changes only the two squares |
| Chess.MoveRefusals | freeos.py:1238-1245 | an empty source, the wrong side's piece and an allied target give their messages in the source's order; a move is accepted exactly when it passes these checks and the piece's rule, else "Coup illégal." |
| Chess.PlayedMoveRespectsSides | freeos.py:1238-1245 | an accepted move moves the side to play's own piece onto an empty or enemy square |
| Chess.KnightRule | freeos.py:1274-1275 | a knight's move passes exactly for (1,2) and (2,1) jumps |
| Chess.KingRule | freeos.py:1282-1283 | a king's move passes exactly for one step in any direction |
| Chess.SliderRule | freeos.py:1276-1281 | a bishop, rook or queen move passes exactly along its lines with every intermediate square empty |
| Chess.PawnRule | freeos.py:1264-1273 | a pawn moves one square forward onto an empty square, two from its start row over two empty squares, or one diagonal onto an enemy piece |
| Chess.OpeningPawnDoubleStep | freeos.py:1264-1271 | from the start, white e2-e4 is accepted |
| Chess.OpeningKnightJump | freeos.py:1274-1275 | from the start, white g1-f3 is accepted |
| Chess.OpeningBishopBlocked | freeos.py:1276-1277 | from the start, white f1-c4 is refused as illegal because e2 blocks it |
| Chess.OpeningWrongSide | freeos.py:1241 | from the start, white may not move the black pawn e7 |
| Chess.OpeningEmptySource | freeos.py:1239-1240 | from the start, e3 is an empty source |
| Chess.OpeningAllyTarget | freeos.py:1243-1245 | from the start, a1-a2 is blocked by a white pawn |
| Chess.Cells | freeos.py:1231 | the 8x8 array read as eight rows |
| Chess.PathClear | freeos.py:1251-1261 | the stepping loop answers exactly whether every square strictly between source and target is empty, and refuses a null move |
| Chess.CheckRule | freeos.py:1263-1283 | the rule check on the array equals `Legal` on its contents |
| Chess.TryMove | freeos.py:1231-1290 | the in-place move returns the result and message of `Attempt` and leaves the array as `Attempt` says |

## Left out

- Tk widgets, fonts, colours, theming (`set_colors`, `themify`), the context menu and
  `help`'s layout: these are presentation only.
- Registry.Register: command descriptions are not kept, because only the name, the handler
  and the aliases take part in dispatch.
- Session.SplitCmd: `shlex.split` is an oracle of `Env`, with the whitespace split as the
  fallback when it raises; shell quoting rules are not modelled.
- The alarm loop (`_minuteur_alarm_loop`) with its threads, sleeps, beeps and flashing: only
  its start (`alarming`) and its stop condition are modelled.
- The stopwatch, `calc`, `cal`, `date`, `rec` and the other commands that wrap the clock,
  floating point, audio or the file system are recorded as dispatched calls with no effect.
  A fault they might raise is an `Env` oracle.
- Randomness: the hangman word is a parameter of `Pendu.Begin`.
- File system, browser and process launching (`Path.resolve`, `exists`, `is_dir`,
  `os.chdir`, `iterdir`, `open_system_path`) are `Env` oracles; after a successful
  `chdir`, `cwd` is the resolved path.
- Session.TerminalApp.CmdShutUp: the delayed `stop all` and `exit` one second later are not
  modelled, since they need the Tk event loop; `exit` (destroying the root) is left out for
  the same reason.
- Text: `lower` folds ASCII and Latin-1 letters only, and `int()` accepts only ASCII
  digits; Unicode case tables and digits are not modelled.
- Chess.Kind: `upper()` is folded for ASCII letters only, which covers every piece letter.
- Pendu.Round: the set `tried` is represented as a duplicate-free sequence in guessing
  order; only its sorted listing is ever shown.
- The chess board drawing (`_chess_board_ascii`, the piece symbols) and the chess game
  window with its two entries are not modelled; the move validator is.
- Timers.Countdown.Tick: the tick does not check whether its window still exists, exactly
  as in the source.
- Session.TerminalApp.Invoke: the effects of `cd`, `play`, `minuteur`, `stop`, `stopall` and
  `exitapp` are stated on their own `Cmd*` methods and are not repeated in `Invoke`'s
  contract, which states only the exception, the output prefix and the unchanged state.
- Morpion.Window.RenderBoard: the turn line shown after every accepted move names the player
  who has just moved, because the source renders before it switches players.

## Findings

| source | as written | input that shows it | evidently intended | confidence | as-written member | corrected member |
|---|---|---|---|---|---|---|
| freeos.py:1221-1237 | `_chess_sq_to_idx` uses `find` and `int` without a range check, so only a short name or a non-digit rank reaches "Coordonnées invalides." | `z9` gives (-1, -1), which Python's negative indexing turns into the h1 square, so `z9` moves whatever sits on h1; `a0` gives row 8 and raises IndexError | a name that is not a..h followed by 1..8 is refused with "Coordonnées invalides." | not executed; medium | Chess.OffBoardNamesPass | Chess.ParseSquare |
