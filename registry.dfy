/** The command registry of the console: one CommandSpec per `_add_cmd` call,
    kept in the insertion order of the Python dict `self.commands`, and the
    name-or-alias lookup of execute_command (freeos.py:187-191, 391-404, 423-472). */
module Registry {
  import opened Text

  /** The bound `cmd_*` method a CommandSpec holds. */
  datatype Handler =
    | Help | Clear | Dir | Cd | Cds | CFile | Play | Msg | OpenSite | Random | Password
    | Count | Calc | Color | Audio | Game | Time | Timer | Minuteur | Stop | StopAll
    | Cal | Date | Rec | ExitApp | Exit | ShutUp

  /** A dict entry `name -> CommandSpec(func, desc, aliases)`; the description is only
      read by `help`, whose layout is not modelled, so it is not kept. */
  datatype CommandSpec = CommandSpec(name: string, func: Handler, aliases: seq<string>)

  /** `cmd == name or cmd in spec.aliases` */
  predicate Matches(spec: CommandSpec, cmd: string)
  {
    cmd == spec.name || cmd in spec.aliases
  }

  function Names(table: seq<CommandSpec>): (ns: seq<string>)
    ensures |ns| == |table| && forall i :: 0 <= i < |table| ==> ns[i] == table[i].name
  {
    if table == [] then [] else [table[0].name] + Names(table[1..])
  }

  /** Dict keys are unique. */
  predicate UniqueNames(table: seq<CommandSpec>)
  {
    forall i, j :: 0 <= i < j < |table| ==> table[i].name != table[j].name
  }

  /** Position of the entry with this key. */
  function IndexOfName(table: seq<CommandSpec>, name: string): (r: Option<nat>)
    ensures r.Some? ==> r.value < |table| && table[r.value].name == name
    ensures r.None? <==> name !in Names(table)
  {
    if table == [] then None
    else if table[0].name == name then Some(0)
    else match IndexOfName(table[1..], name)
      case Some(k) => Some(k + 1)
      case None => None
  }

  /** `self.commands[name] = spec`: an existing key keeps its place and gets the
      new entry; a new key is appended at the end. */
  function Register(table: seq<CommandSpec>, spec: CommandSpec): (r: seq<CommandSpec>)
    ensures spec.name in Names(table) ==> |r| == |table| && Names(r) == Names(table)
    ensures spec.name !in Names(table) ==> r == table + [spec]
    ensures spec in r
    ensures UniqueNames(table) ==> UniqueNames(r)
  {
    match IndexOfName(table, spec.name)
    case Some(i) => table[i := spec]
    case None => table + [spec]
  }

  /** The loop of execute_command: the first entry, in registration order, that
      the (already lower-cased) command word names or aliases. */
  function Resolve(table: seq<CommandSpec>, cmd: string): (r: Option<nat>)
    ensures r.Some? ==> r.value < |table| && Matches(table[r.value], cmd)
    ensures r.Some? ==> forall j :: 0 <= j < r.value ==> !Matches(table[j], cmd)
    ensures r.None? ==> forall j :: 0 <= j < |table| ==> !Matches(table[j], cmd)
  {
    if table == [] then None
    else if Matches(table[0], cmd) then Some(0)
    else match Resolve(table[1..], cmd)
      case Some(k) => Some(k + 1)
      case None => None
  }

  /** The `for name, spec in self.commands.items()` loop itself. */
  method Lookup(table: seq<CommandSpec>, cmd: string) returns (found: Option<nat>)
    ensures found == Resolve(table, cmd)
  {
    var i := 0;
    while i < |table|
      invariant 0 <= i <= |table|
      invariant forall j :: 0 <= j < i ==> !Matches(table[j], cmd)
    {
      if cmd == table[i].name || cmd in table[i].aliases {
        return Some(i);
      }
      i := i + 1;
    }
    return None;
  }

  /** No string is the name or an alias of two different entries. */
  ghost predicate DistinctKeys(table: seq<CommandSpec>)
  {
    forall i, j, k :: 0 <= i < j < |table| && Matches(table[i], k) ==> !Matches(table[j], k)
  }

  /** With distinct keys, every name and every alias resolves to its own entry. */
  lemma ResolveOwnKey(table: seq<CommandSpec>, i: nat, k: string)
    requires DistinctKeys(table) && i < |table| && Matches(table[i], k)
    ensures Resolve(table, k) == Some(i)
  {
    var r := Resolve(table, k);
    if r.Some? && r.value > i {
    }
  }

  /** The table `_register_commands` builds, in insertion order. */
  function StandardCommands(): seq<CommandSpec>
  {
    [
      CommandSpec("help", Help, []),
      CommandSpec("cln", Clear, ["cls"]),
      CommandSpec("dir", Dir, ["ls"]),
      CommandSpec("cd", Cd, []),
      CommandSpec("cds", Cds, []),
      CommandSpec("cfile", CFile, []),
      CommandSpec("play", Play, []),
      CommandSpec("msg", Msg, []),
      CommandSpec("i", OpenSite, []),
      CommandSpec("random", Random, []),
      CommandSpec("password", Password, []),
      CommandSpec("count", Count, []),
      CommandSpec("calc", Calc, []),
      CommandSpec("color", Color, []),
      CommandSpec("audio", Audio, []),
      CommandSpec("game", Game, []),
      CommandSpec("time", Time, []),
      CommandSpec("timer", Timer, []),
      CommandSpec("minuteur", Minuteur, []),
      CommandSpec("Stop", Stop, []),
      CommandSpec("stop", Stop, []),
      CommandSpec("stop all", StopAll, []),
      CommandSpec("cal", Cal, []),
      CommandSpec("date", Date, []),
      CommandSpec("rec", Rec, []),
      CommandSpec("exitapp", ExitApp, []),
      CommandSpec("exit", Exit, []),
      CommandSpec("shutup", ShutUp, [])
    ]
  }

  /** `_register_commands`: the `_add_cmd` calls applied one after another. */
  function RegisterAll(table: seq<CommandSpec>, adds: seq<CommandSpec>): (r: seq<CommandSpec>)
    decreases |adds|
  {
    if adds == [] then table else RegisterAll(Register(table, adds[0]), adds[1..])
  }

  /** With no key repeated, the i-th of a run of `_add_cmd` calls meets a name
      not yet in the dict. */
  lemma NextNameIsNew(table: seq<CommandSpec>, adds: seq<CommandSpec>, i: nat)
    requires UniqueNames(table + adds) && i < |adds|
    ensures adds[i].name !in Names(table + adds[..i])
  {
    var all := table + adds;
    var pre := table + adds[..i];
    assert all[|table| + i] == adds[i];
    forall j | 0 <= j < |pre| ensures Names(pre)[j] != adds[i].name {
      assert pre[j] == all[j];
    }
  }

  /** When no key repeats, every `_add_cmd` appends: the dict holds the specs in call order. */
  lemma {:induction false} RegisterAllFresh(table: seq<CommandSpec>, adds: seq<CommandSpec>)
    requires UniqueNames(table + adds)
    ensures RegisterAll(table, adds) == table + adds
    decreases |adds|
  {
    if adds != [] {
      var a := adds[0];
      assert a.name !in Names(table) by {
        assert (table + adds)[|table|] == a;
        forall i | 0 <= i < |table| ensures Names(table)[i] != a.name {
          assert (table + adds)[i] == table[i];
        }
      }
      assert Register(table, a) == table + [a];
      assert (table + [a]) + adds[1..] == table + adds;
      RegisterAllFresh(table + [a], adds[1..]);
    }
  }

  /** A later `_add_cmd` with a name already in the dict replaces that entry in place. */
  lemma RegisterOverwrites(table: seq<CommandSpec>, i: nat, spec: CommandSpec)
    requires UniqueNames(table) && i < |table| && table[i].name == spec.name
    ensures Register(table, spec) == table[i := spec]
  {
    var r := IndexOfName(table, spec.name);
    assert r.Some?;
  }
  /** Row i's name differs from the name of every later row. */
  lemma StandardRowDiffers(i: nat, j: nat)
    requires i < j < 28
    ensures StandardCommands()[i].name != StandardCommands()[j].name
  {
    var t := StandardCommands();
    assert i == 0 || i == 1 || i == 2 || i == 3 || i == 4 || i == 5 || i == 6 || i == 7 || i == 8 || i == 9 || i == 10 || i == 11 || i == 12 || i == 13 || i == 14 || i == 15 || i == 16 || i == 17 || i == 18 || i == 19 || i == 20 || i == 21 || i == 22 || i == 23 || i == 24 || i == 25 || i == 26;
  }

  /** The 28 names passed to `_add_cmd` are pairwise different. */
  lemma StandardNamesUnique()
    ensures UniqueNames(StandardCommands())
  {
    var t := StandardCommands();
    forall i, j | 0 <= i < j < |t| ensures t[i].name != t[j].name {
      StandardRowDiffers(i, j);
    }
  }
  /** Only `cln` and `dir` carry aliases, and no name equals one. */
  lemma StandardAliases()
    ensures StandardCommands()[1].aliases == ["cls"] && StandardCommands()[2].aliases == ["ls"]
    ensures forall j :: 0 <= j < 28 && j != 1 && j != 2 ==> StandardCommands()[j].aliases == []
    ensures forall j :: 0 <= j < 28 ==> StandardCommands()[j].name != "cls" && StandardCommands()[j].name != "ls"
  {
    var t := StandardCommands();
    forall j | 0 <= j < 28 ensures (j != 1 && j != 2 ==> t[j].aliases == []) && t[j].name != "cls" && t[j].name != "ls" {
      assert j == 0 || j == 1 || j == 2 || j == 3 || j == 4 || j == 5 || j == 6 || j == 7 || j == 8 || j == 9 || j == 10 || j == 11 || j == 12 || j == 13 || j == 14 || j == 15 || j == 16 || j == 17 || j == 18 || j == 19 || j == 20 || j == 21 || j == 22 || j == 23 || j == 24 || j == 25 || j == 26 || j == 27;
    }
  }

  /** The dict `_register_commands` leaves behind, starting from the empty dict
      of __init__, is exactly the table, in call order. */
  lemma StandardRegistration(empty: seq<CommandSpec>)
    requires empty == []
    ensures RegisterAll(empty, StandardCommands()) == StandardCommands()
    ensures |StandardCommands()| == 28
  {
    StandardNamesUnique();
    assert empty + StandardCommands() == StandardCommands();
    RegisterAllFresh(empty, StandardCommands());
  }

  /** In the registered table no word is the name or alias of two entries. */
  lemma StandardDistinctKeys()
    ensures DistinctKeys(StandardCommands())
  {
    var t := StandardCommands();
    StandardNamesUnique();
    StandardAliases();
    forall i, j, k | 0 <= i < j < |t| && Matches(t[i], k) ensures !Matches(t[j], k) {
      if i == 1 || i == 2 {
        assert k == t[i].name || k == t[i].aliases[0];
      } else {
        assert k == t[i].name;
      }
    }
  }

  /** Every name and alias of the registered table dispatches to its own entry. */
  lemma StandardResolvesOwnKey(i: nat, k: string)
    requires i < |StandardCommands()| && Matches(StandardCommands()[i], k)
    ensures Resolve(StandardCommands(), k) == Some(i)
  {
    StandardDistinctKeys();
    ResolveOwnKey(StandardCommands(), i, k);
  }

  /** "cls" reaches cln through its alias. */
  lemma ClsIsClear(word: string)
    requires word == "cls"
    ensures Resolve(StandardCommands(), word) == Some(1) && StandardCommands()[1].func == Clear
  {
    assert StandardCommands()[1] == CommandSpec("cln", Clear, ["cls"]);
    assert Matches(StandardCommands()[1], word);
    StandardResolvesOwnKey(1, word);
  }

  /** "ls" reaches dir through its alias. */
  lemma LsIsDir(word: string)
    requires word == "ls"
    ensures Resolve(StandardCommands(), word) == Some(2) && StandardCommands()[2].func == Dir
  {
    assert StandardCommands()[2] == CommandSpec("dir", Dir, ["ls"]);
    assert Matches(StandardCommands()[2], word);
    StandardResolvesOwnKey(2, word);
  }

  /** The four letters of `stop`, each in either case. */
  predicate StopSpelling(word: string)
  {
    |word| == 4 && (word[0] == 's' || word[0] == 'S') && (word[1] == 't' || word[1] == 'T')
    && (word[2] == 'o' || word[2] == 'O') && (word[3] == 'p' || word[3] == 'P')
  }

  /** Lower-casing gives `stop` for exactly the spellings of `stop` in any mix of cases. */
  lemma LowerIsStop(word: string)
    ensures Lower(word) == "stop" <==> StopSpelling(word)
  {
    if Lower(word) == "stop" {
      assert LowerChar(word[0]) == 's' && LowerChar(word[1]) == 't';
      assert LowerChar(word[2]) == 'o' && LowerChar(word[3]) == 'p';
    }
    if StopSpelling(word) {
      assert Lower(word) == "stop";
    }
  }

  /** The lower-case `stop` entry is reached by exactly the spellings of `stop`
      in any mix of cases. */
  lemma StopWordReachesStop(word: string)
    ensures StopSpelling(word) ==> Lower(word) == "stop"
    ensures Resolve(StandardCommands(), Lower(word)) == Some(20) <==> StopSpelling(word)
    ensures StandardCommands()[20].func == Stop
  {
    LowerIsStop(word);
    assert StandardCommands()[20] == CommandSpec("stop", Stop, []);
    if StopSpelling(word) {
      StandardResolvesOwnKey(20, "stop");
    }
  }

  /** The entry registered as `Stop` cannot be reached: the command word is
      lower-cased before the lookup, and that entry has no alias. */
  lemma UppercaseStopUnreachable(word: string)
    ensures StandardCommands()[19].name == "Stop"
    ensures Resolve(StandardCommands(), Lower(word)) != Some(19)
  {
    StandardAliases();
    var low := Lower(word);
    if |low| > 0 {
      LowerHasNoUpper(word, 0);
    }
    assert low != "Stop";
    assert !Matches(StandardCommands()[19], low);
  }

  /** The `stop all` entry needs a command word holding a space, which only a
      quoted token can be; a quoted `"stop all"` does reach it. */
  lemma StopAllNeedsQuoting(word: string)
    requires NoSpace(word)
    ensures Resolve(StandardCommands(), Lower(word)) != Some(21)
    ensures Resolve(StandardCommands(), "stop all") == Some(21) && StandardCommands()[21].func == StopAll
  {
    StandardAliases();
    LowerNoSpace(word);
    var low := Lower(word);
    if |low| == 8 {
      assert !IsSpace(low[4]);
    }
    assert low != "stop all";
    assert !Matches(StandardCommands()[21], low);
    StandardResolvesOwnKey(21, "stop all");
  }
}
