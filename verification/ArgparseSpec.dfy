/** A pure reading of command lines, for lib/argparse/argparse.c: what the tokens mean, without argument
    vector, compaction or option variables. */
module ArgparseSpec {
  import opened Bits
  import opened Options

  /** The end-of-table marker is the end of the sequence of options. */
  datatype Kind = Group | Boolean | Bit | Integer | String

  /** Help prints the usage and exits; any other callback is known by the code it returns. */
  datatype Callback = NoCallback | Help | Returns(code: int)

  /** target names the variable that the option's value pointer designates. */
  datatype Opt = Opt(
    kind: Kind,
    shortName: Option<char>,
    longName: Option<string>,
    target: Option<nat>,
    data: int,
    callback: Callback,
    noNegation: bool)

  datatype Number = Number(value: int, rest: string)

  /** strtol is the C library's conversion: a value and the text it did not consume. */
  datatype Config = Config(options: seq<Opt>, stopAtNonOption: bool, strtol: string -> Number)

  // ---- Option variables ----

  /** A variable holds an int or a string, by the kind of the options that point to it. */
  datatype Values = Values(ints: map<nat, int>, strings: map<nat, string>)

  function IntAt(values: Values, loc: nat): int {
    if loc in values.ints then values.ints[loc] else 0
  }

  /** The ways a token, or a part of one, takes effect: kept as a positional argument, or stored through
      an option. */
  datatype Action =
    | Keep(token: string)
    | Store(opt: Opt, unset: bool, text: string)

  /** Stores one option value; counters never go below zero. */
  function Apply(strtol: string -> Number, values: Values, a: Action): Values {
    if a.Keep? || a.opt.target.None? then values
    else
      var loc := a.opt.target.value;
      var was := IntAt(values, loc);
      match a.opt.kind
      case Boolean =>
        var v := if a.unset then was - 1 else was + 1;
        values.(ints := values.ints[loc := if v < 0 then 0 else v])
      case Bit =>
        var v := if a.unset then ClearBits(was, a.opt.data) else SetBits(was, a.opt.data);
        values.(ints := values.ints[loc := v])
      case Integer => values.(ints := values.ints[loc := strtol(a.text).value])
      case String => values.(strings := values.strings[loc := a.text])
      case Group => values
  }

  function ApplyAll(strtol: string -> Number, values: Values, actions: seq<Action>): Values {
    if actions == [] then values
    else Apply(strtol, ApplyAll(strtol, values, actions[..|actions| - 1]), actions[|actions| - 1])
  }

  /** The positional tokens among the actions. */
  function Kept(actions: seq<Action>): seq<string> {
    if actions == [] then []
    else Kept(actions[..|actions| - 1])
         + if actions[|actions| - 1].Keep? then [actions[|actions| - 1].token] else []
  }

  // ---- Choosing an option ----

  function FindShort(options: seq<Opt>, c: char): Option<Opt> {
    if options == [] then None
    else if options[0].shortName == Some(c) then Some(options[0])
    else FindShort(options[1..], c)
  }

  /** How a long token picks an option: negated or not, and with what follows an equals sign. */
  datatype Pick = Pick(opt: Opt, unset: bool, value: Option<string>)

  function Skip(s: string, prefix: string): Option<string> {
    if prefix <= s then Some(s[|prefix|..]) else None
  }

  predicate Negatable(opt: Opt) {
    !opt.noNegation && (opt.kind.Boolean? || opt.kind.Bit?)
  }

  /** What is left of a long token, without its dashes, behind the name of opt or behind its negated
      name; the plain name is tried first. */
  function AfterName(opt: Opt, body: string): Option<(bool, string)> {
    if opt.longName.None? then None
    else
      var plain := Skip(body, opt.longName.value);
      if plain.Some? then Some((false, plain.value))
      else if !Negatable(opt) || !("no-" <= body) then None
      else
        var negated := Skip(body[3..], opt.longName.value);
        if negated.Some? then Some((true, negated.value)) else None
  }

  function TryLong(opt: Opt, body: string): Option<Pick> {
    var left := AfterName(opt, body);
    if left.None? then None
    else
      var (unset, rest) := left.value;
      if rest == "" then Some(Pick(opt, unset, None))
      else if rest[0] == '=' then Some(Pick(opt, unset, Some(rest[1..])))
      else None
  }

  function FindLong(options: seq<Opt>, body: string): Option<Pick> {
    if options == [] then None
    else
      var pick := TryLong(options[0], body);
      if pick.Some? then pick else FindLong(options[1..], body)
  }

  // ---- Reading tokens ----

  /** How reading ends: with the tokens not looked at, or with the program exiting. */
  datatype Outcome =
    | Finished(unread: seq<string>)
    | UnknownOption(token: string)
    | ValueMissing(opt: Opt)
    | NotANumber(opt: Opt)
    | HelpShown
    | BadKind

  /** The effect of one option: it goes on with a callback code, a carried option value and the tokens
      from the current one on, or it ends the program. */
  datatype Effect =
    | Go(actions: seq<Action>, code: int, carry: Option<string>, tokens: seq<string>)
    | Halt(actions: seq<Action>, outcome: Outcome)

  function RunCallback(opt: Opt, actions: seq<Action>, carry: Option<string>, tokens: seq<string>): Effect {
    match opt.callback
    case NoCallback => Go(actions, 0, carry, tokens)
    case Help => Halt(actions, HelpShown)
    case Returns(code) => Go(actions, code, carry, tokens)
  }

  /** The value of a String or Integer option: the carried value, or else the next token. */
  function ValueFor(carry: Option<string>, tokens: seq<string>): Option<(string, seq<string>)>
    requires tokens != []
  {
    if carry.Some? then Some((carry.value, tokens))
    else if |tokens| > 1 then Some((tokens[1], tokens[1..]))
    else None
  }

  predicate AllStores(actions: seq<Action>) {
    forall i :: 0 <= i < |actions| ==> actions[i].Store?
  }

  /** Options never contribute positional arguments, and only exits halt. */
  predicate WellFormed(e: Effect) {
    AllStores(e.actions) && (e.Halt? ==> !e.outcome.Finished?)
  }

  /** The effect on the option's variable. */
  function TakeValue(cfg: Config, opt: Opt, unset: bool, carry: Option<string>, tokens: seq<string>): (e: Effect)
    requires tokens != []
    ensures WellFormed(e)
    ensures e.Go? ==> e.carry == carry || e.carry == None
    ensures e.Go? ==> e.tokens == tokens || (|tokens| > 1 && e.tokens == tokens[1..])
  {
    if opt.target.None? then Go([], 0, carry, tokens)
    else if opt.kind.Group? then Halt([], BadKind)
    else if opt.kind.Boolean? || opt.kind.Bit? then Go([Store(opt, unset, "")], 0, carry, tokens)
    else
      var v := ValueFor(carry, tokens);
      if v.None? then Halt([], ValueMissing(opt))
      else if opt.kind.Integer? && cfg.strtol(v.value.0).rest != ""
      then Halt([Store(opt, unset, v.value.0)], NotANumber(opt))
      else Go([Store(opt, unset, v.value.0)], 0, None, v.value.1)
  }

  function TakeOption(cfg: Config, opt: Opt, unset: bool, carry: Option<string>, tokens: seq<string>): (e: Effect)
    requires tokens != []
    ensures WellFormed(e)
    ensures e.Go? ==> e.carry == carry || e.carry == None
    ensures e.Go? ==> e.tokens == tokens || (|tokens| > 1 && e.tokens == tokens[1..])
  {
    var e := TakeValue(cfg, opt, unset, carry, tokens);
    if e.Halt? then e else RunCallback(opt, e.actions, e.carry, e.tokens)
  }

  /** A callback code of -2 makes the parser treat the option as unknown. */
  function Checked(e: Effect): Effect
    requires e.Go? ==> e.tokens != []
  {
    if e.Go? && e.code == -2 then Halt(e.actions, UnknownOption(e.tokens[0])) else e
  }

  function Before(actions: seq<Action>, e: Effect): Effect {
    match e
    case Go(more, code, carry, tokens) => Go(actions + more, code, carry, tokens)
    case Halt(more, outcome) => Halt(actions + more, outcome)
  }

  /** The first letter of a cluster of short options; what follows the letter is carried. Like a
      callback, an unmatched letter reports -2. */
  function LetterEffect(cfg: Config, letters: string, tokens: seq<string>): (e: Effect)
    requires letters != "" && tokens != []
    ensures WellFormed(e)
    ensures e.Go? ==> e.tokens == tokens || (|tokens| > 1 && e.tokens == tokens[1..])
  {
    var opt := FindShort(cfg.options, letters[0]);
    if opt.None? then Go([], -2, Some(letters), tokens)
    else TakeOption(cfg, opt.value, false, if |letters| > 1 then Some(letters[1..]) else None, tokens)
  }

  function TakeLetter(cfg: Config, letters: string, tokens: seq<string>): (e: Effect)
    requires letters != "" && tokens != []
    ensures WellFormed(e)
    ensures e.Go? && e.carry.Some? ==> e.carry.value == letters[1..] && |letters| > 1
    ensures e.Go? ==> e.tokens == tokens || (|tokens| > 1 && e.tokens == tokens[1..])
  {
    Checked(LetterEffect(cfg, letters, tokens))
  }

  /** A whole cluster: it goes on as long as an option leaves letters carried. */
  function TakeCluster(cfg: Config, letters: string, tokens: seq<string>): (e: Effect)
    requires letters != "" && tokens != []
    ensures WellFormed(e)
    ensures e.Go? ==> e.carry == None
    ensures e.Go? ==> 0 < |e.tokens| <= |tokens| && e.tokens == tokens[|tokens| - |e.tokens|..]
    decreases |letters|
  {
    var first := TakeLetter(cfg, letters, tokens);
    if first.Go? && first.carry.Some?
    then Before(first.actions, TakeCluster(cfg, first.carry.value, first.tokens))
    else first
  }

  /** A long token, without its dashes; a value behind an equals sign replaces the carried one. */
  function LongEffect(cfg: Config, body: string, carry: Option<string>, tokens: seq<string>): (e: Effect)
    requires tokens != []
    ensures WellFormed(e)
    ensures e.Go? ==> e.tokens == tokens || (|tokens| > 1 && e.tokens == tokens[1..])
  {
    var pick := FindLong(cfg.options, body);
    if pick.None? then Go([], -2, carry, tokens)
    else
      var p := pick.value;
      TakeOption(cfg, p.opt, p.unset, if p.value.Some? then p.value else carry, tokens)
  }

  function TakeLong(cfg: Config, body: string, carry: Option<string>, tokens: seq<string>): (e: Effect)
    requires tokens != []
    ensures WellFormed(e)
    ensures e.Go? ==> e.tokens == tokens || (|tokens| > 1 && e.tokens == tokens[1..])
  {
    Checked(LongEffect(cfg, body, carry, tokens))
  }

  predicate IsOption(token: string) {
    |token| > 1 && token[0] == '-'
  }

  /** An option token other than the double dash: a long option or a cluster of short ones. */
  function TakeToken(cfg: Config, tokens: seq<string>, carry: Option<string>): (e: Effect)
    requires tokens != [] && IsOption(tokens[0]) && tokens[0] != "--"
    ensures WellFormed(e)
    ensures e.Go? ==> 0 < |e.tokens| <= |tokens| && e.tokens == tokens[|tokens| - |e.tokens|..]
  {
    if tokens[0][1] == '-' then TakeLong(cfg, tokens[0][2..], carry, tokens)
    else TakeCluster(cfg, tokens[0][1..], tokens)
  }

  /** What a whole command line amounts to. */
  datatype Reading = Reading(actions: seq<Action>, outcome: Outcome)

  function Onto(actions: seq<Action>, r: Reading): Reading {
    Reading(actions + r.actions, r.outcome)
  }

  /** Reads tokens from left to right, with an option value carried over from earlier ones. */
  function Read(cfg: Config, tokens: seq<string>, carry: Option<string>): Reading
    decreases |tokens|
  {
    if tokens == [] then Reading([], Finished([]))
    else if !IsOption(tokens[0]) then
      if cfg.stopAtNonOption then Reading([], Finished(tokens))
      else Onto([Keep(tokens[0])], Read(cfg, tokens[1..], carry))
    else if tokens[0] == "--" then Reading([], Finished(tokens[1..]))
    else
      match TakeToken(cfg, tokens, carry)
      case Halt(actions, outcome) => Reading(actions, outcome)
      case Go(actions, _, carry', tokens') => Onto(actions, Read(cfg, tokens'[1..], carry'))
  }

  // ---- Concatenation ----

  lemma {:induction false} ApplyMore(strtol: string -> Number, values: Values, a: seq<Action>, b: seq<Action>)
    ensures ApplyAll(strtol, values, a + b) == ApplyAll(strtol, ApplyAll(strtol, values, a), b)
  {
    if b == [] {
      assert a + b == a;
    } else {
      ApplyMore(strtol, values, a, b[..|b| - 1]);
      assert (a + b)[..|a + b| - 1] == a + b[..|b| - 1];
    }
  }

  lemma {:induction false} ClusterGoesOn(cfg: Config, letters: string, tokens: seq<string>, before: seq<Action>)
    requires letters != "" && tokens != []
    requires TakeLetter(cfg, letters, tokens).Go? && TakeLetter(cfg, letters, tokens).carry.Some?
    ensures var e := TakeLetter(cfg, letters, tokens);
            && e.tokens != [] && e.carry.value != "" && |e.carry.value| < |letters|
            && Before(before, TakeCluster(cfg, letters, tokens)) ==
               Before(before + e.actions, TakeCluster(cfg, e.carry.value, e.tokens))
  {
    var e := TakeLetter(cfg, letters, tokens);
    BeforeBefore(before, e.actions, TakeCluster(cfg, e.carry.value, e.tokens));
  }

  lemma {:induction false} KeptMore(a: seq<Action>, b: seq<Action>)
    ensures Kept(a + b) == Kept(a) + Kept(b)
    ensures AllStores(b) ==> Kept(b) == []
    ensures |b| == 1 && b[0].Keep? ==> Kept(b) == [b[0].token]
  {
    if b == [] {
      assert a + b == a;
    } else {
      KeptMore(a, b[..|b| - 1]);
      assert (a + b)[..|a + b| - 1] == a + b[..|b| - 1];
    }
  }

  lemma {:induction false} OntoNothing(r: Reading)
    ensures Onto([], r) == r
  {
    assert [] + r.actions == r.actions;
  }

  lemma {:induction false} OntoOnto(a: seq<Action>, b: seq<Action>, r: Reading)
    ensures Onto(a, Onto(b, r)) == Onto(a + b, r)
  {
    assert a + (b + r.actions) == a + b + r.actions;
  }

  lemma {:induction false} BeforeNothing(e: Effect)
    ensures Before([], e) == e
  {
    assert [] + e.actions == e.actions;
  }

  lemma {:induction false} BeforeBefore(a: seq<Action>, b: seq<Action>, e: Effect)
    ensures Before(a, Before(b, e)) == Before(a + b, e)
  {
    assert a + (b + e.actions) == a + b + e.actions;
  }

  lemma {:induction false} ApplyOne(strtol: string -> Number, values: Values, a: Action)
    ensures ApplyAll(strtol, values, [a]) == Apply(strtol, values, a)
  {
    assert [a][..0] == [];
    assert ApplyAll(strtol, values, [a]) == Apply(strtol, ApplyAll(strtol, values, [a][..0]), a);
  }
}
