/** The parser of lib/argparse/argparse.c, compacting its argument vector in place. */
module Argparse {
  import opened Bits
  import opened Options
  import opened ArgparseSpec

  /** A slot of the argument vector; the C code stores NULL behind the last argument. */
  type Arg = Option<string>

  /** What a step of the parser returns, or the way in which it exits the program. */
  datatype Result = Code(code: int) | Exit(outcome: Outcome)

  /** The whole parse either returns the number of remaining arguments or exits. */
  datatype Parsed = Count(n: nat) | Exited(outcome: Outcome)

  function Texts(args: seq<Arg>): (r: seq<string>)
    requires forall i :: 0 <= i < |args| ==> args[i].Some?
    ensures |r| == |args|
    ensures forall i :: 0 <= i < |args| ==> args[i] == Some(r[i])
  {
    seq(|args|, i requires 0 <= i < |args| => args[i].value)
  }

  function Args(texts: seq<string>): (r: seq<Arg>)
    ensures |r| == |texts|
    ensures forall i :: 0 <= i < |texts| ==> r[i] == Some(texts[i])
  {
    seq(|texts|, i requires 0 <= i < |texts| => Some(texts[i]))
  }

  lemma {:induction false} ArgsConcat(a: seq<string>, b: seq<string>)
    ensures Args(a + b) == Args(a) + Args(b)
  {
  }

  /** prefix_cmp: 0 if s starts with prefix, otherwise the difference of the first unequal characters,
      the end of s counting as 0. */
  method PrefixCmp(s: string, prefix: string) returns (d: int)
    requires forall i :: 0 <= i < |prefix| ==> prefix[i] != 0 as char
    ensures d == 0 <==> prefix <= s
    ensures d != 0 ==> exists k ::
              && 0 <= k < |prefix| && k <= |s| && s[..k] == prefix[..k]
              && d == prefix[k] as int - (if k < |s| then s[k] as int else 0)
  {
    var i := 0;
    while i < |prefix|
      invariant 0 <= i <= |prefix| && i <= |s|
      invariant s[..i] == prefix[..i]
    {
      if i == |s| || s[i] != prefix[i] {
        d := prefix[i] as int - (if i < |s| then s[i] as int else 0);
        return;
      }
      i := i + 1;
    }
    d := 0;
  }

  /** memmove of n slots to a lower place. */
  method MoveDown(a: array<Arg>, to: nat, from: nat, n: nat)
    requires to <= from && from + n <= a.Length
    modifies a
    ensures a[to..to + n] == old(a[from..from + n])
    ensures forall i :: 0 <= i < a.Length && !(to <= i < to + n) ==> a[i] == old(a[i])
  {
    forall i | 0 <= i < n {
      a[to + i] := a[from + i];
    }
  }

  /** A vector that held argv0 and now starts with out and a NULL. */
  ghost predicate HoldsOutput(argv: seq<Arg>, out: seq<string>, argv0: seq<Arg>) {
    && |out| < |argv| == |argv0|
    && argv[..|out|] == Args(out)
    && argv[|out|] == None
    && argv[|out| + 1..] == argv0[|out| + 1..]
  }

  /** Kept and unread tokens in their places, and the NULL behind them. */
  lemma {:induction false} OutputShape(argv: seq<Arg>, kept: seq<string>, unread: seq<string>, argv0: seq<Arg>)
    requires var m, n := |kept|, |kept| + |unread|;
             && n < |argv| == |argv0|
             && argv[..m] == Args(kept) && argv[m..n] == Args(unread)
             && argv[n + 1..] == argv0[n + 1..]
    ensures HoldsOutput(argv[|kept| + |unread| := None], kept + unread, argv0)
  {
    var m, n := |kept|, |kept| + |unread|;
    ArgsConcat(kept, unread);
    assert argv[n := None][..n] == argv[..m] + argv[m..n];
  }

  class Parser {
    const cfg: Config
    var argc: nat
    var argv: array<Arg>
    var pos: nat
    var cpidx: nat
    var optvalue: Option<string>
    var values: Values

    /** The tokens not yet passed, the current one first. */
    ghost var tokens: seq<string>

    /** argparse_init. */
    constructor (cfg: Config, values: Values)
      ensures this.cfg == cfg && this.values == values
      ensures cpidx == 0 && optvalue == None
    {
      this.cfg := cfg;
      this.values := values;
      argc, pos, cpidx, optvalue := 0, 0, 0, None;
      argv, tokens := new Arg[0], [];
    }

    /** The unread part of the vector holds the tokens, and output is written strictly before it. */
    ghost predicate Valid()
      reads this, argv
    {
      && cpidx < pos
      && |tokens| == argc
      && pos + argc <= argv.Length
      && forall i :: 0 <= i < argc ==> argv[pos + i] == Some(tokens[i])
    }

    /** *++self->argv after self->argc--: the next token becomes the current one. */
    method Advance() returns (text: string)
      requires Valid() && argc > 1
      modifies this`argc, this`pos, this`tokens
      ensures Valid() && pos + argc == old(pos + argc)
      ensures text == old(tokens)[1] && tokens == old(tokens)[1..]
    {
      assert argv[pos + 1] == Some(tokens[1]);
      argc := argc - 1;
      pos := pos + 1;
      tokens := tokens[1..];
      text := argv[pos].value;
    }

    /** The value of a String or Integer option; None when there is none left. */
    method FetchText() returns (text: Option<string>)
      requires Valid() && argc > 0
      modifies this`argc, this`pos, this`tokens, this`optvalue
      ensures Valid() && pos + argc == old(pos + argc)
      ensures match ValueFor(old(optvalue), old(tokens))
              case None => text == None
              case Some((t, rest)) => text == Some(t) && optvalue == None && tokens == rest
    {
      if optvalue.Some? {
        text := optvalue;
        optvalue := None;
      } else if argc > 1 {
        var next := Advance();
        text := Some(next);
      } else {
        text := None;
      }
    }

    /** The switch of argparse_getvalue, up to the label `skipped`. */
    method StoreValue(opt: Opt, unset: bool) returns (r: Result)
      requires Valid() && argc > 0
      modifies this`argc, this`pos, this`tokens, this`optvalue, this`values
      ensures Valid() && pos + argc == old(pos + argc)
      ensures Follows(TakeValue(cfg, opt, unset, old(optvalue), old(tokens)), old(values), r)
    {
      if opt.target.None? {
        return Code(0);
      }
      if opt.kind.Group? {
        return Exit(BadKind);
      }
      if opt.kind.Boolean? || opt.kind.Bit? {
        ApplyOne(cfg.strtol, values, Store(opt, unset, ""));
        StoreFlag(opt, unset);
        return Code(0);
      }
      var text := FetchText();
      if text.None? {
        return Exit(ValueMissing(opt));
      }
      ApplyOne(cfg.strtol, values, Store(opt, unset, text.value));
      StoreText(opt, unset, text.value);
      if opt.kind.Integer? && cfg.strtol(text.value).rest != "" {
        return Exit(NotANumber(opt));
      }
      return Code(0);
    }

    method StoreFlag(opt: Opt, unset: bool)
      requires opt.target.Some? && (opt.kind.Boolean? || opt.kind.Bit?)
      modifies this`values
      ensures values == Apply(cfg.strtol, old(values), Store(opt, unset, ""))
    {
      var loc := opt.target.value;
      var was := IntAt(values, loc);
      if opt.kind.Boolean? {
        var v := if unset then was - 1 else was + 1;
        if v < 0 {
          v := 0;
        }
        values := values.(ints := values.ints[loc := v]);
      } else {
        var v := if unset then ClearBits(was, opt.data) else SetBits(was, opt.data);
        values := values.(ints := values.ints[loc := v]);
      }
    }

    method StoreText(opt: Opt, ghost unset: bool, text: string)
      requires opt.target.Some? && (opt.kind.String? || opt.kind.Integer?)
      modifies this`values
      ensures values == Apply(cfg.strtol, old(values), Store(opt, unset, text))
    {
      var loc := opt.target.value;
      if opt.kind.String? {
        values := values.(strings := values.strings[loc := text]);
      } else {
        values := values.(ints := values.ints[loc := cfg.strtol(text).value]);
      }
    }

    /** argparse_getvalue. */
    method GetValue(opt: Opt, unset: bool) returns (r: Result)
      requires Valid() && argc > 0
      modifies this`argc, this`pos, this`tokens, this`optvalue, this`values
      ensures Valid() && pos + argc == old(pos + argc)
      ensures Follows(TakeOption(cfg, opt, unset, old(optvalue), old(tokens)), old(values), r)
    {
      r := StoreValue(opt, unset);
      if r.Exit? {
        return;
      }
      match opt.callback {
        case NoCallback => r := Code(0);
        case Help => r := Exit(HelpShown);
        case Returns(code) => r := Code(code);
      }
    }

    /** argparse_short_opt, on the first letter of optvalue. */
    method ShortOpt() returns (r: Result)
      requires Valid() && argc > 0 && optvalue.Some? && optvalue.value != ""
      modifies this`argc, this`pos, this`tokens, this`optvalue, this`values
      ensures Valid() && pos + argc == old(pos + argc)
      ensures Follows(LetterEffect(cfg, old(optvalue.value), old(tokens)), old(values), r)
    {
      ghost var letters := optvalue.value;
      var i := 0;
      while i < |cfg.options|
        invariant 0 <= i <= |cfg.options|
        invariant FindShort(cfg.options, letters[0]) == FindShort(cfg.options[i..], letters[0])
      {
        var opt := cfg.options[i];
        if opt.shortName == Some(optvalue.value[0]) {
          optvalue := if |optvalue.value| > 1 then Some(optvalue.value[1..]) else None;
          r := GetValue(opt, false);
          return;
        }
        i := i + 1;
      }
      return Code(-2);
    }

    /** argparse_long_opt, on the current token. */
    method LongOpt() returns (r: Result)
      requires Valid() && argc > 0 && |tokens[0]| >= 2
      modifies this`argc, this`pos, this`tokens, this`optvalue, this`values
      ensures Valid() && pos + argc == old(pos + argc)
      ensures Follows(LongEffect(cfg, old(tokens)[0][2..], old(optvalue), old(tokens)), old(values), r)
    {
      var body := argv[pos].value[2..];
      var i := 0;
      while i < |cfg.options|
        invariant 0 <= i <= |cfg.options|
        invariant FindLong(cfg.options, body) == FindLong(cfg.options[i..], body)
        invariant Valid() && pos == old(pos) && argc == old(argc) && tokens == old(tokens)
        invariant optvalue == old(optvalue) && values == old(values)
      {
        var opt := cfg.options[i];
        i := i + 1;
        var rest, unset := LongRest(opt, body);
        if rest.None? {
          continue;
        }
        if rest.value != "" {
          if rest.value[0] != '=' {
            continue;
          }
          optvalue := Some(rest.value[1..]);
        }
        r := GetValue(opt, unset);
        return;
      }
      return Code(-2);
    }

    /** The name tests of argparse_long_opt. */
    method LongRest(opt: Opt, body: string) returns (rest: Option<string>, unset: bool)
      ensures AfterName(opt, body) == if rest.Some? then Some((unset, rest.value)) else None
    {
      unset := false;
      if opt.longName.None? {
        return None, false;
      }
      rest := Skip(body, opt.longName.value);
      if rest.None? {
        if opt.noNegation {
          return;
        }
        if !opt.kind.Boolean? && !opt.kind.Bit? {
          return;
        }
        var d := PrefixCmp(body, "no-");
        if d != 0 {
          return;
        }
        rest := Skip(body[3..], opt.longName.value);
        if rest.None? {
          return;
        }
        unset := true;
      }
    }

    /** The label `unknown`: a code of -2 ends the program, naming the current token. */
    method CheckCode(code: Result) returns (r: Result)
      requires Valid() && argc > 0
      ensures r == if code == Code(-2) then Exit(UnknownOption(tokens[0])) else code
    {
      assert argv[pos + 0] == Some(tokens[0]);
      r := if code == Code(-2) then Exit(UnknownOption(argv[pos].value)) else code;
    }

    /** One argparse_short_opt with its code checked. */
    method Letter() returns (r: Result)
      requires Valid() && argc > 0 && optvalue.Some? && optvalue.value != ""
      modifies this`argc, this`pos, this`tokens, this`optvalue, this`values
      ensures Valid() && pos + argc == old(pos + argc)
      ensures Ends(TakeLetter(cfg, old(optvalue.value), old(tokens)), old(values), r)
    {
      ghost var e := LetterEffect(cfg, optvalue.value, tokens);
      r := ShortOpt();
      assert Follows(e, old(values), r);
      if r.Code? {
        assert e.Go?;
        assert tokens == e.tokens;
        assert |tokens| > 0;
        r := CheckCode(r);
      }
    }

    /** A long option with its code checked. */
    method LongToken() returns (r: Result)
      requires Valid() && argc > 0 && |tokens[0]| >= 2
      modifies this`argc, this`pos, this`tokens, this`optvalue, this`values
      ensures Valid() && pos + argc == old(pos + argc)
      ensures Ends(TakeLong(cfg, old(tokens)[0][2..], old(optvalue), old(tokens)), old(values), r)
    {
      ghost var e := LongEffect(cfg, tokens[0][2..], optvalue, tokens);
      r := LongOpt();
      assert Follows(e, old(values), r);
      if r.Code? {
        assert e.Go?;
        assert tokens == e.tokens;
        assert |tokens| > 0;
        r := CheckCode(r);
      }
    }

    /** The letters of the cluster in optvalue: a first one, then more as long as some are left. */
    method Cluster() returns (r: Result)
      requires Valid() && argc > 0 && optvalue.Some? && optvalue.value != ""
      modifies this`argc, this`pos, this`tokens, this`optvalue, this`values
      ensures Valid() && pos + argc == old(pos + argc)
      ensures Ends(TakeCluster(cfg, old(optvalue.value), old(tokens)), old(values), r)
    {
      ghost var whole := TakeCluster(cfg, optvalue.value, tokens);
      ghost var before: seq<Action> := [];
      ghost var letters, at := optvalue.value, tokens;
      BeforeNothing(whole);
      r := Letter();
      while optvalue.Some? && r.Code?
        invariant Valid() && pos + argc == old(pos + argc) && letters != "" && at != []
        invariant whole == Before(before, TakeCluster(cfg, letters, at))
        invariant Ends(TakeLetter(cfg, letters, at), ApplyAll(cfg.strtol, old(values), before), r)
        decreases |letters|
      {
        ghost var e := TakeLetter(cfg, letters, at);
        ClusterGoesOn(cfg, letters, at, before);
        ApplyMore(cfg.strtol, old(values), before, e.actions);
        before := before + e.actions;
        letters, at := e.carry.value, e.tokens;
        r := Letter();
      }
      ghost var last := TakeLetter(cfg, letters, at);
      ApplyMore(cfg.strtol, old(values), before, last.actions);
      assert whole == Before(before, last);
    }

    /** One option token: a cluster or a long option. */
    method OptionToken() returns (r: Result)
      requires Valid() && argc > 0 && IsOption(tokens[0]) && tokens[0] != "--"
      modifies this`argc, this`pos, this`tokens, this`optvalue, this`values
      ensures Valid() && pos + argc == old(pos + argc)
      ensures Ends(TakeToken(cfg, old(tokens), old(optvalue)), old(values), r)
    {
      assert argv[pos + 0] == Some(tokens[0]);
      var arg := argv[pos].value;
      if arg[1] != '-' {
        optvalue := Some(arg[1..]);
        r := Cluster();
      } else {
        r := LongToken();
      }
    }

    /** How far the loop of argparse_parse has come: the actions done so far have had their effect on the
        option variables and on the output, and the vector is untouched from the output on. */
    ghost predicate Progress(line: Reading, done: seq<Action>, values0: Values, argv0: seq<Arg>)
      reads this, argv
    {
      && Valid()
      && |argv0| == argv.Length
      && line == Onto(done, Read(cfg, tokens, optvalue))
      && values == ApplyAll(cfg.strtol, values0, done)
      && Compacted(done, argv0)
    }

    /** The kept tokens lead the vector, and from there on it is as it was. */
    ghost predicate Compacted(done: seq<Action>, argv0: seq<Arg>)
      requires cpidx <= argv.Length == |argv0|
      reads this, argv
    {
      && cpidx == |Kept(done)|
      && argv[..cpidx] == Args(Kept(done))
      && argv[cpidx..] == argv0[cpidx..]
    }

    /** self->argc--, self->argv++. */
    method PassToken()
      requires Valid() && argc > 0
      modifies this`argc, this`pos, this`tokens
      ensures Valid() && argc == old(argc) - 1 && pos == old(pos) + 1 && tokens == old(tokens)[1..]
    {
      argc, pos, tokens := argc - 1, pos + 1, tokens[1..];
    }

    /** Copies the current token to the output and passes it. */
    method KeepToken(ghost line: Reading, ghost done: seq<Action>, ghost values0: Values, ghost argv0: seq<Arg>)
      requires Progress(line, done, values0, argv0)
      requires argc > 0 && !IsOption(tokens[0]) && !cfg.stopAtNonOption
      modifies this`argc, this`pos, this`tokens, this`cpidx, argv
      ensures Progress(line, done + [Keep(old(tokens)[0])], values0, argv0)
      ensures argc == old(argc) - 1 && pos == old(pos) + 1
    {
      ghost var token := tokens[0];
      assert argv[pos + 0] == Some(token);
      OntoOnto(done, [Keep(token)], Read(cfg, tokens[1..], optvalue));
      KeptMore(done, [Keep(token)]);
      ApplyMore(cfg.strtol, values0, done, [Keep(token)]);
      ApplyOne(cfg.strtol, values, Keep(token));
      argv[cpidx] := argv[pos];
      cpidx := cpidx + 1;
      assert argv[..cpidx] == Args(Kept(done)) + [Some(token)];
      argc, pos, tokens := argc - 1, pos + 1, tokens[1..];
    }

    /** Handles the current token as an option and passes it, together with a value it may have taken. */
    method OptionStep(ghost line: Reading, ghost done: seq<Action>, ghost values0: Values, ghost argv0: seq<Arg>)
      returns (r: Result, ghost more: seq<Action>)
      requires Progress(line, done, values0, argv0)
      requires argc > 0 && IsOption(tokens[0]) && tokens[0] != "--"
      modifies this`argc, this`pos, this`tokens, this`optvalue, this`values
      ensures pos + argc == old(pos + argc)
      ensures r.Code? ==> Progress(line, done + more, values0, argv0) && argc < old(argc)
      ensures r.Exit? ==> line.outcome == r.outcome && !r.outcome.Finished?
      ensures r.Exit? ==> values == ApplyAll(cfg.strtol, values0, line.actions)
    {
      ghost var e := TakeToken(cfg, tokens, optvalue);
      more := e.actions;
      KeptMore(done, more);
      ApplyMore(cfg.strtol, values0, done, more);
      r := OptionToken();
      if r.Code? {
        OntoOnto(done, more, Read(cfg, tokens[1..], optvalue));
        PassToken();
      }
    }

    /** The label `end`: moves the unread arguments down behind the output and ends it with NULL. */
    method Finish(ghost done: seq<Action>, ghost argv0: seq<Arg>) returns (r: Parsed)
      requires Valid() && argv.Length == |argv0| && Compacted(done, argv0)
      modifies argv
      ensures r == Count(|Kept(done) + tokens|)
      ensures HoldsOutput(argv[..], Kept(done) + tokens, argv0)
    {
      assert argv[pos..pos + argc] == Args(tokens);
      MoveDown(argv, cpidx, pos, argc);
      ghost var moved := argv[..];
      argv[cpidx + argc] := None;
      assert argv[..] == moved[cpidx + argc := None];
      OutputShape(moved, Kept(done), tokens, argv0);
      r := Count(cpidx + argc);
    }

    /** argparse_parse. The vector ends up holding the positional arguments and then the unread ones, in
        order, with NULL behind them; the slots beyond stay as they were. */
    method Parse(argc0: nat, argv0: array<Arg>) returns (r: Parsed)
      requires cpidx == 0
      requires 1 <= argc0 <= argv0.Length
      requires forall i :: 1 <= i < argc0 ==> argv0[i].Some?
      modifies this, argv0
      ensures var line := Read(cfg, old(Texts(argv0[1..argc0])), old(optvalue));
              && values == ApplyAll(cfg.strtol, old(values), line.actions)
              && match line.outcome
                 case Finished(unread) =>
                   var out := Kept(line.actions) + unread;
                   r == Count(|out|) && |out| < argc0 && HoldsOutput(argv0[..], out, old(argv0[..]))
                 case exit => r == Exited(exit)
    {
      ghost var start := argv0[..];
      argc, argv, pos := argc0 - 1, argv0, 1;
      tokens := Texts(argv0[1..argc0]);
      ghost var line := Read(cfg, tokens, optvalue);
      OntoNothing(line);
      var step := ReadLine(line, values, start);
      if step.Exit? {
        return Exited(step.outcome);
      }
      r := Finish(line.actions, start);
    }

    /** The loop of argparse_parse, up to the label `end`. */
    method ReadLine(ghost line: Reading, ghost values0: Values, ghost argv0: seq<Arg>) returns (r: Result)
      requires Progress(line, [], values0, argv0)
      modifies this`argc, this`pos, this`tokens, this`optvalue, this`values, this`cpidx, argv
      ensures pos + argc == old(pos + argc)
      ensures values == ApplyAll(cfg.strtol, values0, line.actions)
      ensures r.Exit? ==> line.outcome == r.outcome && !r.outcome.Finished?
      ensures r.Code? ==> Valid() && Compacted(line.actions, argv0) && line.outcome == Finished(tokens)
    {
      ghost var done: seq<Action> := [];
      while argc > 0
        invariant pos + argc == old(pos + argc)
        invariant Progress(line, done, values0, argv0)
        decreases argc
      {
        assert argv[pos + 0] == Some(tokens[0]);
        var arg := argv[pos].value;
        if |arg| < 2 || arg[0] != '-' {
          if cfg.stopAtNonOption {
            break;
          }
          KeepToken(line, done, values0, argv0);
          done := done + [Keep(arg)];
        } else if arg == "--" {
          PassToken();
          break;
        } else {
          var step;
          ghost var more;
          step, more := OptionStep(line, done, values0, argv0);
          if step.Exit? {
            return step;
          }
          done := done + more;
        }
      }
      assert line.actions == done + [] == done;
      r := Code(0);
    }

    /** The parser's state and the returned code are what the effect e prescribes. */
    ghost predicate Follows(e: Effect, before: Values, r: Result)
      reads this
    {
      && values == ApplyAll(cfg.strtol, before, e.actions)
      && match e
         case Go(_, code, carry, rest) => r == Code(code) && optvalue == carry && tokens == rest
         case Halt(_, outcome) => r == Exit(outcome)
    }

    /** Like Follows, after the code has been checked. */
    ghost predicate Ends(e: Effect, before: Values, r: Result)
      reads this
    {
      && values == ApplyAll(cfg.strtol, before, e.actions)
      && match e
         case Go(_, _, carry, rest) => r.Code? && optvalue == carry && tokens == rest
         case Halt(_, outcome) => r == Exit(outcome)
    }
  }
}
