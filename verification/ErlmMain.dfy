/** The command line of erlm: the option table and the decisions of main in src/erlm.c. */
module ErlmMain {
  import opened Options
  import opened ArgparseSpec
  import opened ArgparseProperties
  import opened ArgparseWriting
  import opened Argparse

  const NO_RUN: nat := 0
  const VERBOSE: nat := 1

  const HELP_OPTION := Opt(Boolean, Some('h'), Some("help"), None, 0, Help, false)
  const NO_RUN_OPTION := Opt(Boolean, Some('n'), Some("no-run"), Some(NO_RUN), 0, NoCallback, false)
  const VERBOSE_OPTION := Opt(Boolean, Some('v'), Some("verbose"), Some(VERBOSE), 0, NoCallback, false)

  function Table(strtol: string -> Number): Config {
    Config([HELP_OPTION, NO_RUN_OPTION, VERBOSE_OPTION], false, strtol)
  }

  /** What main goes on to do. */
  datatype Launch =
    | Start(path: string, noRun: bool, verbose: bool)
    | UsageError
    | Exits(outcome: Outcome)

  /** What a command line means, token by token: the counts of -n and -v and their negations decide, and
      exactly one argument must remain. */
  function LaunchFor(strtol: string -> Number, line: seq<string>): Launch {
    var reading := ReadAlone(Table(strtol), line);
    if !reading.outcome.Finished? then Exits(reading.outcome)
    else
      var positional := NonOptions(line) + AfterDashes(line);
      if |positional| != 1 then UsageError
      else Start(positional[0],
                 SaturatingSum(0, Steps(reading.actions, NO_RUN)) > 0,
                 SaturatingSum(0, Steps(reading.actions, VERBOSE)) > 0)
  }

  // ---- The line by its characters ----

  /** What a token does to the two counters, or that it ends the program. */
  datatype Meaning = Counts(noRun: seq<int>, verbose: seq<int>) | WantsHelp | Strange

  predicate Dashed(token: string) {
    |token| > 1 && token[0] == '-'
  }

  /** The name alone, or followed by an equals sign and anything. */
  predicate Spelled(body: string, name: string) {
    name <= body && (|body| == |name| || body[|name|] == '=')
  }

  function LongMeaning(body: string): Meaning {
    if Spelled(body, "help") || Spelled(body, "no-help") then WantsHelp
    else if Spelled(body, "no-run") then Counts([1], [])
    else if Spelled(body, "no-no-run") then Counts([-1], [])
    else if Spelled(body, "verbose") then Counts([], [1])
    else if Spelled(body, "no-verbose") then Counts([], [-1])
    else Strange
  }

  function LettersMeaning(letters: string): Meaning {
    if letters == "" then Counts([], [])
    else if letters[0] == 'h' then WantsHelp
    else if letters[0] != 'n' && letters[0] != 'v' then Strange
    else
      var rest := LettersMeaning(letters[1..]);
      if !rest.Counts? then rest
      else if letters[0] == 'n' then Counts([1] + rest.noRun, rest.verbose)
      else Counts(rest.noRun, [1] + rest.verbose)
  }

  function TokenMeaning(token: string): Meaning
    requires Dashed(token)
  {
    if token[1] == '-' then LongMeaning(token[2..]) else LettersMeaning(token[1..])
  }

  /** What a line does to the counters, or why it ends the program. */
  datatype LineMeaning = Runs(noRun: seq<int>, verbose: seq<int>) | Ends(outcome: Outcome)

  function MeaningOf(line: seq<string>): LineMeaning {
    if line == [] || line[0] == "--" then Runs([], [])
    else if !Dashed(line[0]) then MeaningOf(line[1..])
    else
      match TokenMeaning(line[0])
      case WantsHelp => Ends(HelpShown)
      case Strange => Ends(UnknownOption(line[0]))
      case Counts(noRun, verbose) =>
        var rest := MeaningOf(line[1..]);
        if rest.Ends? then rest else Runs(noRun + rest.noRun, verbose + rest.verbose)
  }

  /** The tokens that are no options: undashed ones before a double dash, and all behind it. */
  function Words(line: seq<string>): seq<string> {
    if line == [] then []
    else if line[0] == "--" then line[1..]
    else (if Dashed(line[0]) then [] else [line[0]]) + Words(line[1..])
  }

  /** What main makes of a line. */
  function LaunchByCharacters(line: seq<string>): Launch {
    match MeaningOf(line)
    case Ends(outcome) => Exits(outcome)
    case Runs(noRun, verbose) =>
      if |Words(line)| != 1 then UsageError
      else Start(Words(line)[0], SaturatingSum(0, noRun) > 0, SaturatingSum(0, verbose) > 0)
  }

  /** main, up to the call of do_something. */
  method ParseCommandLine(strtol: string -> Number, argc: nat, argv: array<Arg>) returns (launch: Launch)
    requires 1 <= argc <= argv.Length
    requires forall i :: 1 <= i < argc ==> argv[i].Some?
    modifies argv
    ensures launch == LaunchByCharacters(old(Texts(argv[1..argc])))
  {
    ghost var line := Texts(argv[1..argc]);
    var start := Values(map[NO_RUN := 0, VERBOSE := 0], map[]);
    var parser := new Parser(Table(strtol), start);
    var r := parser.Parse(argc, argv);
    LineReadAlone(strtol, line, start);
    LaunchIsByCharacters(strtol, line);
    if r.Exited? {
      return Exits(r.outcome);
    }
    if r.n != 1 {
      return UsageError;
    }
    assert argv[..1] == Args(NonOptions(line) + AfterDashes(line));
    assert argv[0] == argv[..1][0];
    launch := Start(argv[0].value, IntAt(parser.values, NO_RUN) > 0, IntAt(parser.values, VERBOSE) > 0);
  }

  predicate NoGroups(cfg: Config) {
    forall i :: 0 <= i < |cfg.options| ==> !cfg.options[i].kind.Group?
  }

  /** The table holds flags only, and both of its variables are counters. */
  lemma {:induction false} TableOfFlags(strtol: string -> Number)
    ensures var cfg := Table(strtol);
            FlagsOnly(cfg) && NoGroups(cfg) && OnlyCounts(cfg, NO_RUN) && OnlyCounts(cfg, VERBOSE)
            && !cfg.stopAtNonOption && cfg.strtol == strtol
  {
  }

  lemma {:induction false} FlagLine(cfg: Config, line: seq<string>)
    requires FlagsOnly(cfg) && !cfg.stopAtNonOption
    ensures var reading := Read(cfg, line, None);
            && reading == ReadAlone(cfg, line)
            && (reading.outcome.Finished? ==>
                  Kept(reading.actions) == NonOptions(line) && reading.outcome.unread == AfterDashes(line))
  {
    FlagsReadAlone(cfg, line, None);
    if ReadAlone(cfg, line).outcome.Finished? {
      FlagPositionals(cfg, line);
    }
  }

  /** On erlm's table the stateful reading is the token-by-token one. */
  lemma {:induction false} LineReadAlone(strtol: string -> Number, line: seq<string>, start: Values)
    ensures var cfg := Table(strtol);
            var reading := Read(cfg, line, None);
            && reading == ReadAlone(cfg, line)
            && (reading.outcome.Finished? ==>
                  Kept(reading.actions) == NonOptions(line) && reading.outcome.unread == AfterDashes(line))
            && IntAt(ApplyAll(strtol, start, reading.actions), NO_RUN)
               == SaturatingSum(IntAt(start, NO_RUN), Steps(reading.actions, NO_RUN))
            && IntAt(ApplyAll(strtol, start, reading.actions), VERBOSE)
               == SaturatingSum(IntAt(start, VERBOSE), Steps(reading.actions, VERBOSE))
  {
    var cfg := Table(strtol);
    TableOfFlags(strtol);
    FlagLine(cfg, line);
    CounterIsSaturatingSum(cfg, line, None, start, NO_RUN);
    CounterIsSaturatingSum(cfg, line, None, start, VERBOSE);
  }

  /** erlm exits early only for its help or for an unknown option. */
  lemma {:induction false} EarlyExits(strtol: string -> Number, line: seq<string>)
    ensures var launch := LaunchFor(strtol, line);
            launch.Exits? ==> launch.outcome.HelpShown? || launch.outcome.UnknownOption?
  {
    TableOfFlags(strtol);
    OnlyKnownExits(Table(strtol), line);
  }

  lemma {:induction false} OnlyKnownExits(cfg: Config, line: seq<string>)
    requires FlagsOnly(cfg) && NoGroups(cfg)
    ensures var outcome := ReadAlone(cfg, line).outcome;
            outcome.Finished? || outcome.HelpShown? || outcome.UnknownOption?
  {
    if line != [] {
      OnlyKnownExits(cfg, line[1..]);
      if IsOption(line[0]) && line[0] != "--" {
        TokenExits(cfg, [line[0]]);
      }
    }
  }

  lemma {:induction false} TokenExits(cfg: Config, tokens: seq<string>)
    requires FlagsOnly(cfg) && NoGroups(cfg) && tokens != [] && IsOption(tokens[0]) && tokens[0] != "--"
    ensures var e := TakeToken(cfg, tokens, None);
            e.Halt? ==> e.outcome.HelpShown? || e.outcome.UnknownOption?
  {
    if tokens[0][1] == '-' {
      LongFromTable(cfg.options, tokens[0][2..]);
      var pick := FindLong(cfg.options, tokens[0][2..]);
      if pick.Some? {
        OptionExits(cfg, pick.value.opt, pick.value.unset, pick.value.value, tokens);
      }
    } else {
      ClusterExits(cfg, tokens[0][1..], tokens);
    }
  }

  lemma {:induction false} OptionExits(cfg: Config, opt: Opt, unset: bool, carry: Option<string>, tokens: seq<string>)
    requires FlagsOnly(cfg) && NoGroups(cfg) && opt in cfg.options && tokens != []
    ensures var e := TakeOption(cfg, opt, unset, carry, tokens);
            e.Halt? ==> e.outcome.HelpShown?
  {
    var i :| 0 <= i < |cfg.options| && cfg.options[i] == opt;
  }

  lemma {:induction false} ClusterExits(cfg: Config, letters: string, tokens: seq<string>)
    requires FlagsOnly(cfg) && NoGroups(cfg) && letters != "" && tokens != []
    ensures var e := TakeCluster(cfg, letters, tokens);
            e.Halt? ==> e.outcome.HelpShown? || e.outcome.UnknownOption?
    decreases |letters|
  {
    ShortFromTable(cfg.options, letters[0]);
    var opt := FindShort(cfg.options, letters[0]);
    if opt.Some? {
      OptionExits(cfg, opt.value, false, if |letters| > 1 then Some(letters[1..]) else None, tokens);
    }
    var first := TakeLetter(cfg, letters, tokens);
    if first.Go? && first.carry.Some? {
      ClusterExits(cfg, first.carry.value, first.tokens);
    }
  }

  // ---- Why reading by characters is reading by the table ----

  lemma {:induction false} StepsMore(a: seq<Action>, b: seq<Action>, loc: nat)
    ensures Steps(a + b, loc) == Steps(a, loc) + Steps(b, loc)
  {
    if b == [] {
      assert a + b == a;
    } else {
      StepsMore(a, b[..|b| - 1], loc);
      assert (a + b)[..|a + b| - 1] == a + b[..|b| - 1];
    }
  }

  lemma {:induction false} NoSteps(loc: nat)
    ensures Steps([], loc) == []
  {
  }

  /** An entry of the table is picked by its name and its negated name. */
  lemma {:induction false} NameSpelled(opt: Opt, name: string, body: string)
    requires opt.longName == Some(name) && Negatable(opt) && !(name <= "no-" + name)
    ensures TryLong(opt, body).Some? <==> Spelled(body, name) || Spelled(body, "no-" + name)
    ensures TryLong(opt, body).Some? ==>
              TryLong(opt, body).value.opt == opt && TryLong(opt, body).value.unset == !Spelled(body, name)
  {
    var negated := "no-" + name;
    if name <= body {
      assert |body[|name|..]| > 0 ==> body[|name|..][0] == body[|name|];
    } else if "no-" <= body {
      assert name <= body[3..] <==> negated <= body by {
        if negated <= body {
          assert body[3..][..|name|] == negated[3..];
        }
        if name <= body[3..] {
          assert body[..|negated|] == "no-" + body[3..][..|name|];
        }
      }
      if negated <= body {
        assert body[3..][|name|..] == body[|negated|..];
        assert |body| > |negated| ==> body[|negated|..][0] == body[|negated|];
      }
    }
  }

  lemma {:induction false} NamesOfTable()
    ensures !("help" <= "no-" + "help") && "no-" + "help" == "no-help"
    ensures !("no-run" <= "no-" + "no-run") && "no-" + "no-run" == "no-no-run"
    ensures !("verbose" <= "no-" + "verbose") && "no-" + "verbose" == "no-verbose"
  {
    assert "help"[0] != ("no-" + "help")[0];
    assert "no-run"[3] != ("no-" + "no-run")[3];
    assert "verbose"[0] != ("no-" + "verbose")[0];
  }

  /** What the table makes of a long token. */
  lemma {:induction false} LongByTable(options: seq<Opt>, body: string)
    requires options == [HELP_OPTION, NO_RUN_OPTION, VERBOSE_OPTION]
    ensures var pick := FindLong(options, body);
            match LongMeaning(body)
            case WantsHelp => pick.Some? && pick.value.opt == HELP_OPTION
            case Strange => pick.None?
            case Counts(noRun, verbose) =>
              && pick.Some?
              && var step := [if pick.value.unset then -1 else 1];
                 || (pick.value.opt == NO_RUN_OPTION && noRun == step && verbose == [])
                 || (pick.value.opt == VERBOSE_OPTION && noRun == [] && verbose == step)
  {
    NamesOfTable();
    NameSpelled(HELP_OPTION, "help", body);
    NameSpelled(NO_RUN_OPTION, "no-run", body);
    NameSpelled(VERBOSE_OPTION, "verbose", body);
    var second, third := options[1..], options[1..][1..];
    assert second == [NO_RUN_OPTION, VERBOSE_OPTION] && third == [VERBOSE_OPTION] && third[1..] == [];
    assert FindLong(third, body) == TryLong(VERBOSE_OPTION, body);
    assert FindLong(second, body) ==
           if TryLong(NO_RUN_OPTION, body).Some? then TryLong(NO_RUN_OPTION, body) else FindLong(third, body);
  }

  lemma {:induction false} TableLetters(cfg: Config)
    requires cfg.options == [HELP_OPTION, NO_RUN_OPTION, VERBOSE_OPTION]
    ensures HasErlmLetters(cfg)
  {
    var second, third := cfg.options[1..], cfg.options[1..][1..];
    assert second == [NO_RUN_OPTION, VERBOSE_OPTION] && third == [VERBOSE_OPTION] && third[1..] == [];
    forall c: char
      ensures FindShort(cfg.options, c) ==
              if c == 'h' then Some(HELP_OPTION) else if c == 'n' || c == 'v' then Some(OptionOf(c)) else None
    {
      assert FindShort(third, c) == if c == 'v' then Some(VERBOSE_OPTION) else None;
      assert FindShort(second, c) == if c == 'n' then Some(NO_RUN_OPTION) else FindShort(third, c);
    }
  }

  /** An effect that means this. */
  predicate Means(e: Effect, m: Meaning, token: string) {
    match m
    case WantsHelp => e.Halt? && e.outcome == HelpShown
    case Strange => e.Halt? && e.outcome == UnknownOption(token)
    case Counts(noRun, verbose) =>
      e.Go? && Steps(e.actions, NO_RUN) == noRun && Steps(e.actions, VERBOSE) == verbose
  }

  lemma {:induction false} OneStep(opt: Opt, unset: bool)
    requires opt == NO_RUN_OPTION || opt == VERBOSE_OPTION
    ensures var step := [if unset then -1 else 1];
            && Steps([Store(opt, unset, "")], NO_RUN) == (if opt == NO_RUN_OPTION then step else [])
            && Steps([Store(opt, unset, "")], VERBOSE) == (if opt == NO_RUN_OPTION then [] else step)
  {
    var stored := [Store(opt, unset, "")];
    assert stored[..0] == [];
  }

  lemma {:induction false} LongMeans(strtol: string -> Number, token: string)
    requires Dashed(token) && token[1] == '-'
    ensures Means(TakeLong(Table(strtol), token[2..], None, [token]), LongMeaning(token[2..]), token)
  {
    var cfg := Table(strtol);
    LongByTable(cfg.options, token[2..]);
    var pick := FindLong(cfg.options, token[2..]);
    if pick.Some? && pick.value.opt != HELP_OPTION {
      OneStep(pick.value.opt, pick.value.unset);
    }
  }

  function OptionOf(letter: char): Opt {
    if letter == 'n' then NO_RUN_OPTION else VERBOSE_OPTION
  }

  /** The table knows the letters h, n and v. */
  ghost predicate HasErlmLetters(cfg: Config) {
    forall c: char :: FindShort(cfg.options, c) ==
      if c == 'h' then Some(HELP_OPTION) else if c == 'n' || c == 'v' then Some(OptionOf(c)) else None
  }

  /** A cluster, by its first letter. */
  lemma {:induction false} ClusterCases(cfg: Config, letters: string, token: string)
    requires letters != "" && HasErlmLetters(cfg)
    ensures TakeCluster(cfg, letters, [token]) ==
            if letters[0] == 'h' then Halt([], HelpShown)
            else if letters[0] != 'n' && letters[0] != 'v' then Halt([], UnknownOption(token))
            else
              var stored := [Store(OptionOf(letters[0]), false, "")];
              if letters[1..] == "" then Go(stored, 0, None, [token])
              else Before(stored, TakeCluster(cfg, letters[1..], [token]))
  {
    var c, more := letters[0], letters[1..];
    assert letters == [c] + more;
    assert FindShort(cfg.options, c) ==
           if c == 'h' then Some(HELP_OPTION) else if c == 'n' || c == 'v' then Some(OptionOf(c)) else None;
    if c == 'h' {
      HelpLetterHalts(cfg, HELP_OPTION, more, [token]);
    } else if c != 'n' && c != 'v' {
      StrangeLetterHalts(cfg, c, more, [token]);
    } else {
      PlainLetter(cfg, OptionOf(c), more, [token]);
    }
  }

  lemma {:induction false} LettersMean(cfg: Config, letters: string, token: string)
    requires letters != "" && HasErlmLetters(cfg)
    ensures Means(TakeCluster(cfg, letters, [token]), LettersMeaning(letters), token)
    decreases |letters|
  {
    ClusterCases(cfg, letters, token);
    if letters[0] == 'n' || letters[0] == 'v' {
      if letters[1..] == "" {
        OneLetterMeans(OptionOf(letters[0]), token);
        MeaningUnfolds(letters, Counts([], []));
      } else {
        var m := LettersMeaning(letters[1..]);
        LettersMean(cfg, letters[1..], token);
        OneStepBefore(OptionOf(letters[0]), TakeCluster(cfg, letters[1..], [token]), m, token);
        MeaningUnfolds(letters, m);
      }
    }
  }

  lemma {:induction false} OneLetterMeans(opt: Opt, token: string)
    requires opt == NO_RUN_OPTION || opt == VERBOSE_OPTION
    ensures Means(Go([Store(opt, false, "")], 0, None, [token]), WithStep(opt, Counts([], [])), token)
  {
    OneStep(opt, false);
  }

  lemma {:induction false} MeaningUnfolds(letters: string, m: Meaning)
    requires letters != "" && (letters[0] == 'n' || letters[0] == 'v') && LettersMeaning(letters[1..]) == m
    ensures LettersMeaning(letters) == WithStep(OptionOf(letters[0]), m)
  {
  }

  function WithStep(opt: Opt, m: Meaning): Meaning {
    if !m.Counts? then m
    else if opt == NO_RUN_OPTION then Counts([1] + m.noRun, m.verbose)
    else Counts(m.noRun, [1] + m.verbose)
  }

  lemma {:induction false} OneStepBefore(opt: Opt, e: Effect, m: Meaning, token: string)
    requires (opt == NO_RUN_OPTION || opt == VERBOSE_OPTION) && Means(e, m, token)
    ensures Means(Before([Store(opt, false, "")], e), WithStep(opt, m), token)
  {
    OneStep(opt, false);
    StepsMore([Store(opt, false, "")], e.actions, NO_RUN);
    StepsMore([Store(opt, false, "")], e.actions, VERBOSE);
  }

  lemma {:induction false} TokenMeans(strtol: string -> Number, token: string)
    requires Dashed(token) && token != "--"
    ensures Means(TakeToken(Table(strtol), [token], None), TokenMeaning(token), token)
  {
    if token[1] == '-' {
      LongMeans(strtol, token);
    } else {
      TableLetters(Table(strtol));
      LettersMean(Table(strtol), token[1..], token);
    }
  }

  /** The line read by the table does what its characters say. */
  lemma {:induction false} LineMeans(strtol: string -> Number, line: seq<string>)
    ensures var reading := ReadAlone(Table(strtol), line);
            match MeaningOf(line)
            case Ends(outcome) => reading.outcome == outcome && !outcome.Finished?
            case Runs(noRun, verbose) =>
              && reading.outcome.Finished?
              && Steps(reading.actions, NO_RUN) == noRun && Steps(reading.actions, VERBOSE) == verbose
  {
    var cfg := Table(strtol);
    if line == [] || line[0] == "--" {
      NoSteps(NO_RUN);
    } else if !Dashed(line[0]) {
      LineMeans(strtol, line[1..]);
      KeepHasNoSteps(line[0], ReadAlone(cfg, line[1..]).actions);
    } else {
      TokenMeans(strtol, line[0]);
      var e, rest := TakeToken(cfg, [line[0]], None), ReadAlone(cfg, line[1..]);
      LineMeans(strtol, line[1..]);
      StepsMore(e.actions, rest.actions, NO_RUN);
      StepsMore(e.actions, rest.actions, VERBOSE);
    }
  }

  lemma {:induction false} KeepHasNoSteps(token: string, actions: seq<Action>)
    ensures forall loc: nat :: Steps([Keep(token)] + actions, loc) == Steps(actions, loc)
  {
    forall loc: nat ensures Steps([Keep(token)] + actions, loc) == Steps(actions, loc) {
      StepsMore([Keep(token)], actions, loc);
      assert [Keep(token)][..0] == [];
    }
  }

  lemma {:induction false} WordsAreNonOptions(line: seq<string>)
    ensures Words(line) == NonOptions(line) + AfterDashes(line)
  {
    if line != [] && line[0] != "--" {
      WordsAreNonOptions(line[1..]);
    }
  }

  lemma {:induction false} LaunchIsByCharacters(strtol: string -> Number, line: seq<string>)
    ensures LaunchFor(strtol, line) == LaunchByCharacters(line)
  {
    LineMeans(strtol, line);
    WordsAreNonOptions(line);
  }
}
