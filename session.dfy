/** The console session of TerminalApp (freeos.py:212-236, 322-420, 508-509,
    531-567, 621-657, 1340-1376, 1416-1436, 1464-1476): the output pane, the
    entry line, the command history and its browse cursor, the one-shot pending
    selector, the command registry, the working-directory stack, the child
    windows and the active countdowns. */
module Session {
  import opened Text
  import opened Clock
  import opened Resources
  import opened Timers
  import opened History
  import opened Registry

  /** What Path.iterdir gives: the names of the entries, or the text of the
      exception it raised. */
  datatype Listing = Listed(names: seq<string>) | ListError(msg: string)

  /** The parts of the world the session consults but does not own. A result
      `None` of an `Option<string>` oracle means "no exception"; `Some(e)` is the
      text of the exception. */
  datatype Env = Env(
    shlex: string -> Option<seq<string>>,             // shlex.split; None when it raises
    iterdir: string -> Listing,                       // list(cwd.iterdir())
    openPath: (string, string) -> Option<string>,     // open_system_path(dir / name)
    resolve: (string, string) -> string,              // (cwd / target).resolve(), or Path(target).resolve()
    isDir: string -> bool,                            // path.exists() and path.is_dir()
    chdir: string -> Option<string>,                  // os.chdir
    raises: (Handler, seq<string>) -> Option<string>  // an exception escaping a handler this model leaves out
  )

  /** The continuation `cmd_play` leaves in `pending_selector`: the closure over
      the directory listed and its matching entries. */
  datatype Selector = PlaySelection(dir: string, matches: seq<string>)

  /** One `spec.func(args)` call made by execute_command. */
  datatype Call = Call(handler: Handler, args: seq<string>)

  // ---- Lines the console writes ----

  function EchoLine(line: string): string { "> " + line }

  function UnknownLine(raw: string): string { "[commande inconnue] '" + raw + "'. Essayez 'help'." }

  function ErrorLine(e: string): string { "[erreur] " + e }

  function BannerLines(cwd: string): seq<string>
  {
    ["Welcome to FreeOS'  |  tapez 'help' pour l’aide", "Dossier courant: " + cwd, ""]
  }

  const EmptyHistoryLine := "[info] historique vide."

  function NotFoundLine(path: string): string { "[erreur] dossier introuvable : " + path }

  const PlayUsageLine := "[usage] play <nom_partiel_ou_exact>"
  const NoMatchLine := "[info] aucune correspondance."
  const SeveralMatchesLine := "Plusieurs correspondances :"
  const ChooseLine := "Choisissez un numéro puis appuyez Entrée."
  const CancelledLine := "[info] sélection annulée."

  function OpenedLine(name: string): string { "[ouvert] " + name }

  const MinuteurUsageLine := "[usage] minuteur <hh:mm[:ss]>"
  const BadFormatLine := "[erreur] format invalide (hh:mm[:ss])"

  function StoppedLine(n: int): string { "[minuteur] arrêté(s) : " + IntToStr(n) }

  const StopUsageLine := "Usage: Stop m  (arrête le minuteur)"
  const StopAllLine := "[stop all] toutes les sous‑fenêtres/timers arrêtés."
  const ExitAppLine := "[exitapp] fenêtres/outils fermés."

  // ---- Pure parts of the command handlers ----

  /** _split_cmd: shlex.split, and on its failure the white-space split of the
      stripped line. */
  function SplitCmd(env: Env, line: string): seq<string>
  {
    match env.shlex(line)
    case Some(parts) => parts
    case None => SplitWs(Strip(line))
  }

  /** The call execute_command makes for these tokens, if any: the handler of
      the first entry matching the lower-cased first token, with the rest. */
  function DispatchCalls(table: seq<CommandSpec>, parts: seq<string>): (r: seq<Call>)
    ensures |r| <= 1
    ensures r != [] <==> parts != [] && Resolve(table, Lower(parts[0])).Some?
    ensures r != [] ==> exists i :: 0 <= i < |table| && Matches(table[i], Lower(parts[0]))
                                    && (forall j :: 0 <= j < i ==> !Matches(table[j], Lower(parts[0])))
                                    && r[0] == Call(table[i].func, parts[1..])
  {
    if parts == [] then []
    else match Resolve(table, Lower(parts[0]))
      case None => []
      case Some(i) => [Call(table[i].func, parts[1..])]
  }

  /** The number of `-` in a `cd` back target: 1, 2 or 3 for `-`, `--`, `---`;
      0 for any other target. */
  function BackSteps(target: string): (n: nat)
    ensures n <= 3
    ensures n > 0 <==> target in ["-", "--", "---"]
    ensures n > 0 ==> |target| == n && forall i :: 0 <= i < n ==> target[i] == '-'
  {
    if target == "-" then 1 else if target == "--" then 2 else if target == "---" then 3 else 0
  }

  /** dir_history after up to `steps` pops, each made only while more than one
      entry is left. */
  function PopBack(h: seq<string>, steps: nat): (r: seq<string>)
    requires |h| >= 1
    ensures 1 <= |r| <= |h| && r == h[..|r|]
    ensures |r| + steps >= |h|
    ensures |r| == 1 || |r| + steps == |h|
  {
    h[..if |h| - steps >= 1 then |h| - steps else 1]
  }

  /** `[p for p in entries if needle in p.name.lower()]`, in listing order. */
  function FilterMatches(names: seq<string>, needle: string): (r: seq<string>)
    ensures |r| <= |names|
    ensures forall x :: x in r <==> x in names && Contains(Lower(x), needle)
  {
    if names == [] then []
    else (if Contains(Lower(names[0]), needle) then [names[0]] else []) + FilterMatches(names[1..], needle)
  }

  /** Filtering a listing with one more entry at the end gives the earlier
      matches, in order, followed by that entry when it matches. */
  lemma {:induction false} FilterMatchesAppend(names: seq<string>, x: string, needle: string)
    ensures FilterMatches(names + [x], needle)
            == FilterMatches(names, needle) + (if Contains(Lower(x), needle) then [x] else [])
  {
    if names == [] {
      assert names + [x] == [x];
      assert [x][1..] == [];
    } else {
      assert (names + [x])[0] == names[0];
      assert (names + [x])[1..] == names[1..] + [x];
      FilterMatchesAppend(names[1..], x, needle);
    }
  }

  /** `f"  {i:>2}: {p.name}"` */
  function ChoiceLine(i: int, name: string): string { "  " + RightAlign2(i) + ": " + name }

  /** The numbered list cmd_play writes, starting at 1. */
  function ChoiceLines(ms: seq<string>): (r: seq<string>)
    ensures |r| == |ms|
    ensures forall j :: 0 <= j < |ms| ==> r[j] == ChoiceLine(j + 1, ms[j])
  {
    seq(|ms|, j requires 0 <= j < |ms| => ChoiceLine(j + 1, ms[j]))
  }

  /** What opening one match writes. */
  function OpenLine(env: Env, dir: string, name: string): string
  {
    match env.openPath(dir, name)
    case None => OpenedLine(name)
    case Some(e) => ErrorLine(e)
  }

  /** The handlers whose effect this model leaves out; they can only raise. */
  predicate Unmodelled(h: Handler)
  {
    !(h.Minuteur? || h.Stop? || h.StopAll? || h.ExitApp? || h.Clear? || h.Cd? || h.Play? || h.Msg? || h.ShutUp?)
  }

  /** The exception a handler lets escape to on_enter's `except`: play's failed
      listing of the directory, whatever a handler left out raises, and nothing
      for the other handlers, which catch their own errors. */
  function HandlerFault(h: Handler, args: seq<string>, env: Env, cwd: string): Option<string>
  {
    if h == Play then
      if args != [] && env.iterdir(cwd).ListError? then Some(env.iterdir(cwd).msg) else None
    else if Unmodelled(h) then env.raises(h, args)
    else None
  }

  /** The exception escaping the call a line dispatches, if it dispatches one. */
  function DispatchFault(calls: seq<Call>, env: Env, cwd: string): Option<string>
  {
    if calls == [] then None else HandlerFault(calls[0].handler, calls[0].args, env, cwd)
  }

  /** What on_enter leaves after echoing `line` and dispatching it: the calls
      made, the echo kept unless the call clears the pane, and the echo followed
      by the unknown-command line or the caught exception's line. */
  predicate EnteredCommand(before: seq<string>, calls0: seq<Call>, line: string, calls: seq<Call>,
                           parts: seq<string>, fault: Option<string>, after: seq<string>, calls1: seq<Call>)
  {
    && calls1 == calls0 + calls
    && (KeepsOutput(calls) ==> before + [EchoLine(line)] <= after)
    && (parts == [] ==> after == before + [EchoLine(line)])
    && (parts != [] && calls == [] ==> after == before + [EchoLine(line), UnknownLine(parts[0])])
    && (fault.Some? ==> after == before + [EchoLine(line), ErrorLine(fault.value)])
  }

  /** The dispatched call, if any, may empty the output pane only when it is clear. */
  predicate KeepsOutput(calls: seq<Call>)
  {
    calls == [] || calls[0].handler != Clear
  }

  /** The index (from 0) the selection handler opens for this line: int(line)
      must parse and lie in 1..n. */
  function Choice(line: string, n: nat): (r: Option<nat>)
    ensures r.Some? ==> r.value < n && ParseInt(line) == Some(r.value as int + 1)
    ensures r.None? ==> ParseInt(line).None? || !(1 <= ParseInt(line).value <= n)
  {
    match ParseInt(line)
    case Some(k) => if 1 <= k <= n then Some(k - 1) else None
    case None => None
  }

  /** The one line selection_handler writes: the opened name, or the
      cancellation when the line is no number in range or opening fails. */
  function SelectionMessage(sel: Selector, line: string, env: Env): string
  {
    match Choice(line, |sel.matches|)
    case None => CancelledLine
    case Some(k) =>
      if env.openPath(sel.dir, sel.matches[k]).None? then OpenedLine(sel.matches[k]) else CancelledLine
  }

  /** Typing the number k of the list printed by `play` picks the k-th match,
      exactly for 1 <= k <= n. */
  lemma ChoiceOfNumber(k: int, n: nat)
    ensures Choice(IntToStr(k), n) == if 1 <= k <= n then Some(k - 1) else None
  {
    IntToStrRoundTrip(k);
  }

  /** The selection writes `[ouvert]` exactly for a number in range whose
      opening raises nothing; every other line cancels. */
  lemma SelectionOpensOnlyInRange(sel: Selector, line: string, env: Env)
    ensures SelectionMessage(sel, line, env) != CancelledLine
            <==> Choice(line, |sel.matches|).Some?
                 && env.openPath(sel.dir, sel.matches[Choice(line, |sel.matches|).value]).None?
  {
    var c := Choice(line, |sel.matches|);
    if c.Some? {
      var name := sel.matches[c.value];
      assert OpenedLine(name)[..9] == "[ouvert] ";
      assert CancelledLine[..9] == "[info] sé";
    }
  }

  /** The pops of `cd -`/`--`/`---` never empty the stack; a stack of one entry
      is left as it is; the new top is the entry `steps` below the old one when
      there are that many. */
  lemma PopBackTop(h: seq<string>, steps: nat)
    requires |h| >= 1
    ensures |h| == 1 ==> PopBack(h, steps) == h
    ensures steps < |h| ==> PopBack(h, steps)[|PopBack(h, steps)| - 1] == h[|h| - 1 - steps]
    ensures steps >= |h| ==> PopBack(h, steps) == [h[0]]
  {
  }

  /** The console window: every field of TerminalApp the console commands read
      or write. `dispatched` records the handler calls made by execute_command. */
  class TerminalApp {
    var output: seq<string>
    var entry: string
    var cmdHistory: seq<string>
    var historyIndex: Option<nat>
    var pendingSelector: Option<Selector>
    var commands: seq<CommandSpec>
    var cwd: string
    var dirHistory: seq<string>
    var childWindows: set<Window>
    var activeCountdowns: seq<Countdown>
    ghost var dispatched: seq<Call>

    ghost predicate Valid()
      reads this
    {
      CursorOk(|cmdHistory|, historyIndex) && |dirHistory| >= 1
    }

    /** The stop flags and windows of the tracked countdowns. */
    ghost function Trackers(): set<object>
      reads this
    {
      (set c | c in activeCountdowns :: c.token as object) + (set c | c in activeCountdowns :: c.win as object)
    }

    /** Every object a command may change besides the session itself. */
    ghost function Resources(): set<object>
      reads this
    {
      Trackers() + childWindows
    }

    /** The session state apart from the output pane. */
    ghost function Core(): (string, seq<string>, Option<nat>, Option<Selector>, seq<CommandSpec>,
                            string, seq<string>, set<Window>, seq<Countdown>, seq<Call>)
      reads this
    {
      (entry, cmdHistory, historyIndex, pendingSelector, commands,
       cwd, dirHistory, childWindows, activeCountdowns, dispatched)
    }

    /** __init__ from the current directory: empty history, no selector, the
        registry of _register_commands, then the banner. */
    constructor (startDir: string)
      ensures Valid()
      ensures output == BannerLines(startDir)
      ensures commands == StandardCommands()
      ensures cwd == startDir && dirHistory == [startDir]
      ensures entry == "" && cmdHistory == [] && historyIndex.None? && pendingSelector.None?
      ensures childWindows == {} && activeCountdowns == [] && dispatched == []
    {
      output := [];
      entry := "";
      cmdHistory := [];
      historyIndex := None;
      pendingSelector := None;
      commands := [];
      cwd := startDir;
      dirHistory := [startDir];
      childWindows := {};
      activeCountdowns := [];
      dispatched := [];
      new;
      RegisterCommands();
      Banner();
    }

    /** write(text): one more line in the output pane. */
    method Write(text: string)
      modifies this`output
      ensures output == old(output) + [text]
    {
      output := output + [text];
    }

    /** clear(): the output pane is emptied. */
    method Clear()
      modifies this`output
      ensures output == []
    {
      output := [];
    }

    method Banner()
      modifies this`output
      ensures output == old(output) + BannerLines(cwd)
    {
      Write("Welcome to FreeOS'  |  tapez 'help' pour l’aide");
      Write("Dossier courant: " + cwd);
      Write("");
    }

    /** _add_cmd: `self.commands[name] = CommandSpec(...)`. */
    method AddCmd(spec: CommandSpec)
      modifies this`commands
      ensures commands == Register(old(commands), spec)
    {
      commands := Register(commands, spec);
    }

    /** A run of `_add_cmd` calls, in order, none of which repeats a key: each
        one appends its entry. */
    method AddCmds(adds: seq<CommandSpec>)
      requires UniqueNames(commands + adds)
      modifies this`commands
      ensures commands == old(commands) + adds
    {
      var i := 0;
      while i < |adds|
        invariant 0 <= i <= |adds|
        invariant commands == old(commands) + adds[..i]
      {
        NextNameIsNew(old(commands), adds, i);
        AddCmd(adds[i]);
        assert adds[..i + 1] == adds[..i] + [adds[i]];
        i := i + 1;
      }
      assert adds[..i] == adds;
    }

    /** _register_commands on the empty dict of __init__: the `_add_cmd` calls
        in the order they are written, taken from the table of their arguments. */
    method RegisterCommands()
      requires commands == []
      modifies this`commands
      ensures commands == StandardCommands()
    {
      StandardNamesUnique();
      assert commands + StandardCommands() == StandardCommands();
      AddCmds(StandardCommands());
    }

    /** on_history_up: nothing on an empty history; else the cursor moves to the
        last line (from None) or one line back, and that line fills the entry. */
    method HistoryUp()
      requires Valid()
      modifies this`historyIndex, this`entry
      ensures Valid()
      ensures var b := Up(|cmdHistory|, old(historyIndex));
              historyIndex == b.cursor
              && entry == (if b.shown.Some? then cmdHistory[b.shown.value] else old(entry))
    {
      if cmdHistory == [] {
        return;
      }
      if historyIndex.None? {
        historyIndex := Some(|cmdHistory| - 1);
      } else {
        historyIndex := Some(if historyIndex.value >= 1 then historyIndex.value - 1 else 0);
      }
      entry := cmdHistory[historyIndex.value];
    }

    /** on_history_down: nothing while not browsing; else one line forward
        (clamped to the last), shown in the entry, and browsing ends on the last line. */
    method HistoryDown()
      requires Valid()
      modifies this`historyIndex, this`entry
      ensures Valid()
      ensures var b := Down(|cmdHistory|, old(historyIndex));
              historyIndex == b.cursor
              && entry == (if b.shown.Some? then cmdHistory[b.shown.value] else old(entry))
    {
      if historyIndex.None? {
        return;
      }
      var j := if historyIndex.value + 1 <= |cmdHistory| - 1 then historyIndex.value + 1 else |cmdHistory| - 1;
      historyIndex := Some(j);
      entry := cmdHistory[j];
      if j == |cmdHistory| - 1 {
        historyIndex := None;
      }
    }

    /** The directory and window state no console-line bookkeeping touches. */
    ghost function Places(): (string, seq<string>, set<Window>, seq<Countdown>)
      reads this
    {
      (cwd, dirHistory, childWindows, activeCountdowns)
    }

    /** on_enter: the stripped entry is echoed and recorded, then submitted. */
    method OnEnter(env: Env)
      requires Valid()
      modifies this, Resources()
      ensures Valid()
      ensures entry == "" && commands == old(commands)
      ensures var line := Strip(old(entry));
              line == [] ==> output == old(output) && cmdHistory == old(cmdHistory)
                             && historyIndex == old(historyIndex) && pendingSelector == old(pendingSelector)
                             && Places() == old(Places()) && dispatched == old(dispatched) && unchanged(Resources())
      ensures var line := Strip(old(entry));
              line != [] ==> cmdHistory == old(cmdHistory) + [line] && historyIndex.None?
      ensures var line := Strip(old(entry));
              line != [] && old(pendingSelector).Some? ==>
                pendingSelector.None? && dispatched == old(dispatched)
                && output == old(output) + [EchoLine(line), SelectionMessage(old(pendingSelector).value, line, env)]
                && Places() == old(Places()) && unchanged(Resources())
      ensures var line := Strip(old(entry));
              line != [] && old(pendingSelector).None? ==>
                EnteredCommand(old(output), old(dispatched), line, DispatchCalls(commands, SplitCmd(env, line)),
                               SplitCmd(env, line), DispatchFault(DispatchCalls(commands, SplitCmd(env, line)), env, old(cwd)),
                               output, dispatched)
    {
      var line := Strip(entry);
      entry := "";
      if line == [] {
        return;
      }
      EchoAndSubmit(line, env);
    }

    /** The part of on_enter after a non-empty line is read. */
    method EchoAndSubmit(line: string, env: Env)
      requires Valid()
      modifies this`output, this`cmdHistory, this`historyIndex, this`cwd, this`dirHistory, this`pendingSelector,
               this`childWindows, this`activeCountdowns, this`dispatched, Resources()
      ensures Valid()
      ensures cmdHistory == old(cmdHistory) + [line] && historyIndex.None?
      ensures old(pendingSelector).Some? ==>
                pendingSelector.None? && dispatched == old(dispatched)
                && output == old(output) + [EchoLine(line), SelectionMessage(old(pendingSelector).value, line, env)]
                && Places() == old(Places()) && unchanged(Resources())
      ensures old(pendingSelector).None? ==>
                EnteredCommand(old(output), old(dispatched), line, DispatchCalls(commands, SplitCmd(env, line)),
                               SplitCmd(env, line), DispatchFault(DispatchCalls(commands, SplitCmd(env, line)), env, old(cwd)),
                               output, dispatched)
    {
      Write(EchoLine(line));
      cmdHistory := cmdHistory + [line];
      historyIndex := None;
      Submit(line, env);
    }

    /** The rest of on_enter: a pending selector is cleared and then called with
        the line, which never reaches dispatch; otherwise the line is dispatched
        and an exception escaping the handler is written as `[erreur] ...`. */
    method Submit(line: string, env: Env)
      requires Valid()
      modifies this`output, this`cwd, this`dirHistory, this`pendingSelector, this`childWindows,
               this`activeCountdowns, this`dispatched, Resources()
      ensures Valid()
      ensures entry == old(entry) && cmdHistory == old(cmdHistory) && historyIndex == old(historyIndex)
      ensures commands == old(commands)
      ensures old(pendingSelector).Some? ==>
                pendingSelector.None? && dispatched == old(dispatched)
                && output == old(output) + [SelectionMessage(old(pendingSelector).value, line, env)]
                && Places() == old(Places()) && unchanged(Resources())
      ensures old(pendingSelector).None? ==>
                var parts := SplitCmd(env, line);
                var calls := DispatchCalls(commands, parts);
                dispatched == old(dispatched) + calls
                && (KeepsOutput(calls) ==> old(output) <= output)
                && (parts == [] ==> output == old(output))
                && (parts != [] && calls == [] ==> output == old(output) + [UnknownLine(parts[0])])
                && (DispatchFault(calls, env, old(cwd)).Some? ==>
                      output == old(output) + [ErrorLine(DispatchFault(calls, env, old(cwd)).value)])
    {
      if pendingSelector.Some? {
        var handler := pendingSelector.value;
        pendingSelector := None;
        RunSelector(handler, line, env);
        return;
      }
      var fault := ExecuteCommand(line, env);
      if fault.Some? {
        Write(ErrorLine(fault.value));
      }
    }

    /** execute_command: no tokens is a no-op; the lower-cased first token
        selects the first matching entry, whose handler gets the other tokens;
        an unknown word writes one line naming it as typed. The result is the
        text of an exception the handler let escape. */
    method ExecuteCommand(line: string, env: Env) returns (fault: Option<string>)
      requires Valid()
      modifies this`output, this`cwd, this`dirHistory, this`pendingSelector, this`childWindows,
               this`activeCountdowns, this`dispatched, Resources()
      ensures Valid()
      ensures entry == old(entry) && cmdHistory == old(cmdHistory) && historyIndex == old(historyIndex)
      ensures commands == old(commands)
      ensures dispatched == old(dispatched) + DispatchCalls(commands, SplitCmd(env, line))
      ensures fault == DispatchFault(DispatchCalls(commands, SplitCmd(env, line)), env, old(cwd))
      ensures fault.Some? ==> output == old(output)
      ensures KeepsOutput(DispatchCalls(commands, SplitCmd(env, line))) ==> old(output) <= output
      ensures var parts := SplitCmd(env, line);
              parts == [] ==> fault.None? && Core() == old(Core()) && output == old(output) && unchanged(Resources())
      ensures var parts := SplitCmd(env, line);
              parts != [] && Resolve(commands, Lower(parts[0])).None? ==>
                fault.None? && Core() == old(Core()) && output == old(output) + [UnknownLine(parts[0])]
                && unchanged(Resources())
    {
      var parts := SplitCmd(env, line);
      if parts == [] {
        return None;
      }
      var cmdRaw := parts[0];
      var args := parts[1..];
      var cmd := Lower(cmdRaw);
      var found := Lookup(commands, cmd);
      if found.Some? {
        fault := Invoke(commands[found.value].func, args, env);
        return;
      }
      Write(UnknownLine(cmdRaw));
      return None;
    }

    /** `spec.func(args)` for each bound handler. The effect of `cd`, `play`,
        `minuteur`, `stop`, `stopall` and `exitapp` is the one the matching
        `Cmd*` method states; a handler left out of the model only raises. */
    method Invoke(h: Handler, args: seq<string>, env: Env) returns (fault: Option<string>)
      requires Valid()
      modifies this`output, this`cwd, this`dirHistory, this`pendingSelector, this`childWindows,
               this`activeCountdowns, this`dispatched, Resources()
      ensures Valid()
      ensures entry == old(entry) && cmdHistory == old(cmdHistory) && historyIndex == old(historyIndex)
      ensures commands == old(commands)
      ensures dispatched == old(dispatched) + [Call(h, args)]
      ensures h != Play ==> pendingSelector == old(pendingSelector)
      ensures fault == HandlerFault(h, args, env, old(cwd))
      ensures fault.Some? ==> output == old(output)
      ensures !h.Clear? ==> old(output) <= output
      ensures h.Clear? ==> output == [] && Places() == old(Places())
      ensures h == Msg ==> output == old(output) + [Join(args, " ")] && Places() == old(Places())
      ensures h == ShutUp ==> output == old(output) + ["ok"] && Places() == old(Places())
      ensures Unmodelled(h) ==> output == old(output) && Places() == old(Places()) && unchanged(Resources())
    {
      dispatched := dispatched + [Call(h, args)];
      if h.Minuteur? || h.Stop? || h.StopAll? || h.ExitApp? {
        InvokeTimers(h, args);
        fault := None;
      } else if Unmodelled(h) {
        fault := env.raises(h, args);
      } else {
        fault := InvokeShell(h, args, env);
      }
    }

    /** The handlers that touch only the transcript, the directory or the selector. */
    method InvokeShell(h: Handler, args: seq<string>, env: Env) returns (fault: Option<string>)
      requires h.Clear? || h.Cd? || h.Play? || h.Msg? || h.ShutUp?
      requires Valid()
      modifies this`output, this`cwd, this`dirHistory, this`pendingSelector
      ensures Valid()
      ensures !h.Cd? ==> cwd == old(cwd) && dirHistory == old(dirHistory)
      ensures !h.Play? ==> pendingSelector == old(pendingSelector)
      ensures fault == HandlerFault(h, args, env, old(cwd))
      ensures fault.Some? ==> output == old(output)
      ensures !h.Clear? ==> old(output) <= output
      ensures h.Clear? ==> output == []
      ensures h.Msg? ==> output == old(output) + [Join(args, " ")]
      ensures h.ShutUp? ==> output == old(output) + ["ok"]
    {
      fault := None;
      match h {
        case Clear => this.Clear();
        case Cd => CmdCd(args, env);
        case Play => fault := CmdPlay(args, env);
        case Msg => CmdMsg(args);
        case ShutUp => CmdShutUp();
      }
    }

    /** The handlers that start or stop countdowns and windows; each only
        appends to the transcript. */
    method InvokeTimers(h: Handler, args: seq<string>)
      requires h.Minuteur? || h.Stop? || h.StopAll? || h.ExitApp?
      modifies this`output, this`childWindows, this`activeCountdowns, Resources()
      ensures old(output) <= output
    {
      match h {
        case Minuteur => CmdMinuteur(args);
        case Stop => CmdStop(args);
        case StopAll => CmdStopAll();
        case ExitApp => CmdExitApp();
      }
    }

    /** register_window */
    method RegisterWindow(w: Window)
      modifies this`childWindows
      ensures childWindows == old(childWindows) + {w}
    {
      childWindows := childWindows + {w};
    }

    /** unregister_window: removes the window when it is tracked, else nothing. */
    method UnregisterWindow(w: Window)
      modifies this`childWindows
      ensures childWindows == old(childWindows) - {w}
    {
      if w in childWindows {
        childWindows := childWindows - {w};
      }
    }

    /** ThemedToplevel.on_close: untrack, then destroy. */
    method CloseWindow(w: Window)
      modifies this`childWindows, w
      ensures childWindows == old(childWindows) - {w} && !w.alive
    {
      UnregisterWindow(w);
      w.Destroy();
    }

    /** close_all_windows: every tracked window is destroyed and the set emptied. */
    method CloseAllWindows()
      modifies this`childWindows, childWindows
      ensures childWindows == {}
      ensures forall w :: w in old(childWindows) ==> !w.alive
    {
      var ws := childWindows;
      while ws != {}
        invariant ws <= old(childWindows)
        invariant forall w :: w in old(childWindows) && w !in ws ==> !w.alive
        decreases |ws|
      {
        var w :| w in ws;
        w.Destroy();
        ws := ws - {w};
      }
      childWindows := {};
    }

    /** cmd_cd: no argument writes the current directory; `-`, `--`, `---` pop
        the history (never below one entry) and change to its new top; any other
        target is resolved, checked and pushed. */
    method CmdCd(args: seq<string>, env: Env)
      requires Valid()
      modifies this`output, this`cwd, this`dirHistory
      ensures Valid()
      ensures args == [] ==> output == old(output) + [old(cwd)] && cwd == old(cwd) && dirHistory == old(dirHistory)
      ensures args != [] && BackSteps(args[0]) > 0 && |old(dirHistory)| == 1 ==>
                output == old(output) + [EmptyHistoryLine] && cwd == old(cwd) && dirHistory == old(dirHistory)
      ensures args != [] && BackSteps(args[0]) > 0 && |old(dirHistory)| > 1 ==>
                dirHistory == PopBack(old(dirHistory), BackSteps(args[0]))
                && var top := dirHistory[|dirHistory| - 1];
                   match env.chdir(top)
                   case None => cwd == top && output == old(output) + [top]
                   case Some(e) => cwd == old(cwd) && output == old(output) + [ErrorLine(e)]
      ensures args != [] && BackSteps(args[0]) == 0 ==>
                var path := env.resolve(old(cwd), args[0]);
                if !env.isDir(path) then
                  output == old(output) + [NotFoundLine(path)] && cwd == old(cwd) && dirHistory == old(dirHistory)
                else match env.chdir(path)
                  case None => cwd == path && dirHistory == old(dirHistory) + [path] && output == old(output) + [path]
                  case Some(e) => cwd == old(cwd) && dirHistory == old(dirHistory) && output == old(output) + [ErrorLine(e)]
    {
      if args == [] {
        Write(cwd);
        return;
      }
      var target := args[0];
      if target == "-" || target == "--" || target == "---" {
        var steps := |target|;
        if |dirHistory| <= 1 {
          Write(EmptyHistoryLine);
          return;
        }
        var i := 0;
        while i < steps
          invariant 0 <= i <= steps
          invariant dirHistory == PopBack(old(dirHistory), i)
          invariant output == old(output) && cwd == old(cwd)
        {
          if |dirHistory| > 1 {
            dirHistory := dirHistory[..|dirHistory| - 1];
          } else {
            break;
          }
          i := i + 1;
        }
        assert dirHistory == PopBack(old(dirHistory), steps);
        var newDir := dirHistory[|dirHistory| - 1];
        var err := env.chdir(newDir);
        if err.None? {
          cwd := newDir;
          Write(cwd);
        } else {
          Write(ErrorLine(err.value));
        }
        return;
      }
      var path := env.resolve(cwd, target);
      if !env.isDir(path) {
        Write(NotFoundLine(path));
        return;
      }
      var err := env.chdir(path);
      if err.None? {
        cwd := path;
        dirHistory := dirHistory + [cwd];
        Write(cwd);
      } else {
        Write(ErrorLine(err.value));
      }
    }

    /** cmd_play: the entries of the current directory whose lower-cased name
        contains the lower-cased argument; one is opened at once, several are
        listed and a selector is armed. A failing listing escapes as an exception. */
    method CmdPlay(args: seq<string>, env: Env) returns (fault: Option<string>)
      modifies this`output, this`pendingSelector
      ensures args == [] ==> fault.None? && output == old(output) + [PlayUsageLine]
                             && pendingSelector == old(pendingSelector)
      ensures args != [] && env.iterdir(cwd).ListError? ==>
                fault == Some(env.iterdir(cwd).msg) && output == old(output) && pendingSelector == old(pendingSelector)
      ensures args != [] && env.iterdir(cwd).Listed? ==>
                fault.None?
                && var ms := FilterMatches(env.iterdir(cwd).names, Lower(args[0]));
                   (|ms| == 0 ==> output == old(output) + [NoMatchLine] && pendingSelector == old(pendingSelector))
                   && (|ms| == 1 ==> output == old(output) + [OpenLine(env, cwd, ms[0])]
                                     && pendingSelector == old(pendingSelector))
                   && (|ms| >= 2 ==> output == old(output) + [SeveralMatchesLine] + ChoiceLines(ms) + [ChooseLine]
                                     && pendingSelector == Some(PlaySelection(cwd, ms)))
    {
      if args == [] {
        Write(PlayUsageLine);
        return None;
      }
      var needle := Lower(args[0]);
      var listing := env.iterdir(cwd);
      if listing.ListError? {
        return Some(listing.msg);
      }
      var matches := FilterMatches(listing.names, needle);
      if |matches| == 0 {
        Write(NoMatchLine);
        return None;
      }
      if |matches| == 1 {
        var err := env.openPath(cwd, matches[0]);
        if err.None? {
          Write(OpenedLine(matches[0]));
        } else {
          Write(ErrorLine(err.value));
        }
        return None;
      }
      Write(SeveralMatchesLine);
      WriteChoices(matches);
      Write(ChooseLine);
      pendingSelector := Some(PlaySelection(cwd, matches));
      return None;
    }

    /** The `for i, p in enumerate(matches, 1)` loop of cmd_play. */
    method WriteChoices(ms: seq<string>)
      modifies this`output
      ensures output == old(output) + ChoiceLines(ms)
    {
      var i := 0;
      while i < |ms|
        invariant 0 <= i <= |ms|
        invariant output == old(output) + ChoiceLines(ms[..i])
      {
        assert ChoiceLines(ms[..i + 1]) == ChoiceLines(ms[..i]) + [ChoiceLine(i + 1, ms[i])];
        Write(ChoiceLine(i + 1, ms[i]));
        i := i + 1;
      }
      assert ms[..i] == ms;
    }

    /** selection_handler(line) */
    method RunSelector(sel: Selector, line: string, env: Env)
      modifies this`output
      ensures output == old(output) + [SelectionMessage(sel, line, env)]
    {
      var k := Choice(line, |sel.matches|);
      if k.Some? {
        var err := env.openPath(sel.dir, sel.matches[k.value]);
        if err.None? {
          Write(OpenedLine(sel.matches[k.value]));
        } else {
          Write(CancelledLine);
        }
      } else {
        Write(CancelledLine);
      }
    }

    /** cmd_msg: the arguments joined by single spaces. */
    method CmdMsg(args: seq<string>)
      modifies this`output
      ensures output == old(output) + [Join(args, " ")]
    {
      Write(Join(args, " "));
    }

    /** cmd_minuteur: a parsable duration opens a tracked window with a fresh
        stop flag, appends the tracker, and runs the first `countdown` at once. */
    method CmdMinuteur(args: seq<string>)
      modifies this`output, this`childWindows, this`activeCountdowns
      ensures args == [] ==> output == old(output) + [MinuteurUsageLine]
                             && childWindows == old(childWindows) && activeCountdowns == old(activeCountdowns)
      ensures args != [] && ParseHms(args[0]).None? ==>
                output == old(output) + [BadFormatLine]
                && childWindows == old(childWindows) && activeCountdowns == old(activeCountdowns)
      ensures args != [] && ParseHms(args[0]).Some? ==>
                output == old(output)
                && |activeCountdowns| == |old(activeCountdowns)| + 1
                && activeCountdowns[..|old(activeCountdowns)|] == old(activeCountdowns)
                && var tr := activeCountdowns[|old(activeCountdowns)|];
                   fresh(tr) && fresh(tr.token) && fresh(tr.win)
                   && !tr.token.isSet && tr.win.alive && childWindows == old(childWindows) + {tr.win}
                   && tr.Valid() && tr.State() == TickStep(TickState(ParseHms(args[0]).value, true, false), false)
    {
      if args == [] {
        Write(MinuteurUsageLine);
        return;
      }
      var total := ParseHms(args[0]);
      if total.None? {
        Write(BadFormatLine);
        return;
      }
      var win := new Window();
      RegisterWindow(win);
      var stopEvent := new CancelToken();
      var tracker := new Countdown(total.value, stopEvent, win);
      activeCountdowns := activeCountdowns + [tracker];
      tracker.Tick();
    }

    /** cmd_stop: with a first argument starting with "m" (after lower-casing)
        every tracked countdown gets its flag set and its window destroyed, the
        list is emptied and the count written; otherwise only the usage line. */
    method CmdStop(args: seq<string>)
      modifies this`output, this`activeCountdowns, Trackers()
      ensures childWindows == old(childWindows)
      ensures args != [] && StartsWith(Lower(args[0]), "m") ==>
                activeCountdowns == [] && output == old(output) + [StoppedLine(|old(activeCountdowns)|)]
                && forall c :: c in old(activeCountdowns) ==> c.token.isSet && !c.win.alive
      ensures !(args != [] && StartsWith(Lower(args[0]), "m")) ==>
                output == old(output) + [StopUsageLine] && activeCountdowns == old(activeCountdowns)
                && unchanged(Trackers())
    {
      if args != [] && StartsWith(Lower(args[0]), "m") {
        var stopped := 0;
        var i := 0;
        while i < |activeCountdowns|
          invariant 0 <= i <= |activeCountdowns| && stopped == i
          invariant activeCountdowns == old(activeCountdowns) && output == old(output)
          invariant forall j :: 0 <= j < i ==> activeCountdowns[j].token.isSet && !activeCountdowns[j].win.alive
        {
          var tr := activeCountdowns[i];
          tr.token.Set();
          stopped := stopped + 1;
          if tr.win.alive {
            tr.win.Destroy();
          }
          i := i + 1;
        }
        activeCountdowns := [];
        Write(StoppedLine(stopped));
      } else {
        Write(StopUsageLine);
      }
    }

    /** cmd_stop_all: `Stop m`, then close_all_windows, then its own line. */
    method CmdStopAll()
      modifies this`output, this`activeCountdowns, this`childWindows, Trackers(), childWindows
      ensures activeCountdowns == [] && childWindows == {}
      ensures forall c :: c in old(activeCountdowns) ==> c.token.isSet && !c.win.alive
      ensures forall w :: w in old(childWindows) ==> !w.alive
      ensures output == old(output) + [StoppedLine(|old(activeCountdowns)|), StopAllLine]
    {
      assert Lower("m") == "m";
      CmdStop(["m"]);
      CloseAllWindows();
      Write(StopAllLine);
    }

    /** cmd_exitapp: the child windows are closed; the countdowns are not stopped. */
    method CmdExitApp()
      modifies this`output, this`childWindows, childWindows
      ensures childWindows == {} && forall w :: w in old(childWindows) ==> !w.alive
      ensures activeCountdowns == old(activeCountdowns)
      ensures output == old(output) + [ExitAppLine]
    {
      CloseAllWindows();
      Write(ExitAppLine);
    }

    /** cmd_shutup: writes `ok` at once (the delayed stop all and exit are not modelled). */
    method CmdShutUp()
      modifies this`output
      ensures output == old(output) + ["ok"]
    {
      Write("ok");
    }
  }
}
