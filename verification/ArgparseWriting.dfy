/** Command lines as they are written: what each way of writing an option means when the line is read. */
module ArgparseWriting {
  import opened Options
  import Bits
  import opened ArgparseSpec
  import opened ArgparseProperties

  // ---- Clusters of letters ----

  predicate NeverNegated(actions: seq<Action>) {
    forall i :: 0 <= i < |actions| ==> actions[i].Store? && !actions[i].unset
  }

  lemma {:induction false} LetterNeverNegates(cfg: Config, letters: string, tokens: seq<string>)
    requires letters != "" && tokens != []
    ensures NeverNegated(TakeLetter(cfg, letters, tokens).actions)
  {
  }

  /** A letter never negates its option. */
  lemma {:induction false} LettersNeverNegate(cfg: Config, letters: string, tokens: seq<string>)
    requires letters != "" && tokens != []
    ensures NeverNegated(TakeCluster(cfg, letters, tokens).actions)
    decreases |letters|
  {
    LetterNeverNegates(cfg, letters, tokens);
    var first := TakeLetter(cfg, letters, tokens);
    if first.Go? && first.carry.Some? {
      var rest := TakeCluster(cfg, first.carry.value, first.tokens);
      LettersNeverNegate(cfg, first.carry.value, first.tokens);
      assert TakeCluster(cfg, letters, tokens).actions == first.actions + rest.actions;
    }
  }

  /** One action for each letter: that of the table's first entry with it, unless this has no variable. */
  function StoresOf(options: seq<Opt>, letters: string): seq<Action> {
    if letters == "" then []
    else
      var opt := FindShort(options, letters[0]);
      (if opt.Some? && opt.value.target.Some? then [Store(opt.value, false, "")] else [])
      + StoresOf(options, letters[1..])
  }

  /** With a table of flags, an accepted cluster consists of letters in the table, and stores them in order. */
  lemma {:induction false} FlagClusterStores(cfg: Config, letters: string, tokens: seq<string>)
    requires FlagsOnly(cfg) && letters != "" && tokens != [] && TakeCluster(cfg, letters, tokens).Go?
    ensures TakeCluster(cfg, letters, tokens).actions == StoresOf(cfg.options, letters)
    ensures forall i :: 0 <= i < |letters| ==> FindShort(cfg.options, letters[i]).Some?
    decreases |letters|
  {
    FlagLetterStores(cfg, letters, tokens);
    if |letters| > 1 {
      FlagLetterGoesOn(cfg, letters, tokens);
      FlagClusterStores(cfg, letters[1..], tokens);
      assert forall i :: 1 <= i < |letters| ==> letters[i] == letters[1..][i - 1];
    } else {
      assert letters[1..] == "";
      assert StoresOf(cfg.options, "") == [];
    }
  }

  lemma {:induction false} FlagLetterGoesOn(cfg: Config, letters: string, tokens: seq<string>)
    requires |letters| > 1 && tokens != [] && TakeLetter(cfg, letters, tokens).Go?
    requires TakeLetter(cfg, letters, tokens).carry == Some(letters[1..])
    requires TakeLetter(cfg, letters, tokens).tokens == tokens
    ensures TakeCluster(cfg, letters, tokens) ==
            Before(TakeLetter(cfg, letters, tokens).actions, TakeCluster(cfg, letters[1..], tokens))
  {
  }

  lemma {:induction false} FlagLetterStores(cfg: Config, letters: string, tokens: seq<string>)
    requires FlagsOnly(cfg) && letters != "" && tokens != [] && TakeLetter(cfg, letters, tokens).Go?
    ensures var opt := FindShort(cfg.options, letters[0]);
            && opt.Some?
            && var e := TakeLetter(cfg, letters, tokens);
            && e.actions == (if opt.value.target.Some? then [Store(opt.value, false, "")] else [])
            && e.tokens == tokens && e.carry == if |letters| > 1 then Some(letters[1..]) else None
  {
    ShortFromTable(cfg.options, letters[0]);
    var opt := FindShort(cfg.options, letters[0]);
    if opt.Some? {
      FlagValue(cfg, opt.value, false, if |letters| > 1 then Some(letters[1..]) else None, tokens);
    }
  }

  /** An option that takes no value and has no callback. */
  predicate Plain(opt: Opt) {
    opt.callback.NoCallback? && (opt.target.Some? ==> opt.kind.Boolean? || opt.kind.Bit?)
  }

  /** An option that takes this text as its value, and has no callback. */
  predicate Accepts(cfg: Config, opt: Opt, text: string) {
    && opt.callback.NoCallback? && opt.target.Some?
    && (opt.kind.String? || (opt.kind.Integer? && cfg.strtol(text).rest == ""))
  }

  /** The effect of giving a plain option. */
  function Given(opt: Opt, unset: bool): seq<Action> {
    if opt.target.Some? then [Store(opt, unset, "")] else []
  }

  predicate HasLetter(cfg: Config, opt: Opt) {
    opt.shortName.Some? && FindShort(cfg.options, opt.shortName.value) == Some(opt)
  }

  /** The letters of options, which the table has under these letters. */
  function Letters(opts: seq<Opt>): string
    requires forall i :: 0 <= i < |opts| ==> opts[i].shortName.Some?
  {
    if opts == [] then "" else [opts[0].shortName.value] + Letters(opts[1..])
  }

  function GivenAll(opts: seq<Opt>): seq<Action> {
    if opts == [] then [] else Given(opts[0], false) + GivenAll(opts[1..])
  }

  predicate PlainLetters(cfg: Config, opts: seq<Opt>) {
    forall i :: 0 <= i < |opts| ==> Plain(opts[i]) && HasLetter(cfg, opts[i])
  }

  /** Plain letters take effect one after the other, and then what stands behind them does. */
  lemma {:induction false} PlainLettersFirst(cfg: Config, opts: seq<Opt>, more: string, tokens: seq<string>)
    requires PlainLetters(cfg, opts) && tokens != [] && Letters(opts) + more != ""
    ensures TakeCluster(cfg, Letters(opts) + more, tokens) ==
            if more == "" then Go(GivenAll(opts), 0, None, tokens)
            else Before(GivenAll(opts), TakeCluster(cfg, more, tokens))
    decreases |opts|
  {
    if opts == [] {
      assert "" + more == more;
      BeforeNothing(TakeCluster(cfg, more, tokens));
    } else {
      var rest := Letters(opts[1..]) + more;
      PlainLetter(cfg, opts[0], rest, tokens);
      LettersUnfold(opts, more);
      if rest == "" {
        OnlyLetter(opts);
      } else {
        PlainLettersFirst(cfg, opts[1..], more, tokens);
        if more != "" {
          BeforeBefore(Given(opts[0], false), GivenAll(opts[1..]), TakeCluster(cfg, more, tokens));
        }
      }
    }
  }

  lemma {:induction false} LettersUnfold(opts: seq<Opt>, more: string)
    requires opts != [] && forall i :: 0 <= i < |opts| ==> opts[i].shortName.Some?
    ensures Letters(opts) + more == [opts[0].shortName.value] + (Letters(opts[1..]) + more)
    ensures opts[1..] != [] ==> Letters(opts[1..]) != ""
  {
  }

  lemma {:induction false} OnlyLetter(opts: seq<Opt>)
    requires opts != [] && opts[1..] == []
    ensures GivenAll(opts) == Given(opts[0], false)
  {
    assert GivenAll(opts[1..]) == [];
  }

  lemma {:induction false} PlainLetter(cfg: Config, opt: Opt, rest: string, tokens: seq<string>)
    requires Plain(opt) && HasLetter(cfg, opt) && tokens != []
    ensures TakeCluster(cfg, [opt.shortName.value] + rest, tokens) ==
            if rest == "" then Go(Given(opt, false), 0, None, tokens)
            else Before(Given(opt, false), TakeCluster(cfg, rest, tokens))
  {
    var letters := [opt.shortName.value] + rest;
    assert letters[1..] == rest;
    assert TakeLetter(cfg, letters, tokens) ==
           Go(Given(opt, false), 0, if rest == "" then None else Some(rest), tokens);
  }

  /** A letter whose option takes a value: the text behind the letter, if there is any. */
  lemma {:induction false} ValueBehindLetter(cfg: Config, opt: Opt, text: string, tokens: seq<string>)
    requires HasLetter(cfg, opt) && tokens != [] && text != "" && Accepts(cfg, opt, text)
    ensures TakeCluster(cfg, [opt.shortName.value] + text, tokens) == Go([Store(opt, false, text)], 0, None, tokens)
  {
    var letters := [opt.shortName.value] + text;
    assert letters[1..] == text;
    assert LetterEffect(cfg, letters, tokens) == TakeOption(cfg, opt, false, Some(text), tokens);
    assert TakeLetter(cfg, letters, tokens) == Go([Store(opt, false, text)], 0, None, tokens);
  }

  /** Otherwise the next token. */
  lemma {:induction false} ValueAfterLetter(cfg: Config, opt: Opt, tokens: seq<string>)
    requires HasLetter(cfg, opt) && |tokens| > 1 && Accepts(cfg, opt, tokens[1])
    ensures TakeCluster(cfg, [opt.shortName.value], tokens) == Go([Store(opt, false, tokens[1])], 0, None, tokens[1..])
  {
    var letters := [opt.shortName.value];
    assert LetterEffect(cfg, letters, tokens) == TakeOption(cfg, opt, false, None, tokens);
    assert TakeLetter(cfg, letters, tokens) == Go([Store(opt, false, tokens[1])], 0, None, tokens[1..]);
  }

  // ---- Items of a line ----

  /** The ways of writing an argument or an option, alone or behind plain letters. */
  datatype Item =
    | Word(text: string)
    | Long(opt: Opt, unset: bool)
    | LongEquals(opt: Opt, text: string)
    | LongNext(opt: Opt, text: string)
    | Cluster(opts: seq<Opt>)
    | ClusterValue(opts: seq<Opt>, opt: Opt, text: string)
    | ClusterNext(opts: seq<Opt>, opt: Opt, text: string)

  /** The table picks the option by its long name. */
  predicate HasName(cfg: Config, opt: Opt, unset: bool, value: Option<string>) {
    && opt.longName.Some?
    && Spelling(opt.longName.value, unset, value) != ""
    && FindLong(cfg.options, Spelling(opt.longName.value, unset, value)) == Some(Pick(opt, unset, value))
  }

  predicate Writable(cfg: Config, item: Item) {
    match item
    case Word(text) => |text| <= 1 || text[0] != '-'
    case Long(opt, unset) => Plain(opt) && HasName(cfg, opt, unset, None)
    case LongEquals(opt, text) => Accepts(cfg, opt, text) && HasName(cfg, opt, false, Some(text))
    case LongNext(opt, text) => Accepts(cfg, opt, text) && HasName(cfg, opt, false, None)
    case Cluster(opts) => opts != [] && PlainLetters(cfg, opts) && Letters(opts)[0] != '-'
    case ClusterValue(opts, opt, text) =>
      && PlainLetters(cfg, opts) && HasLetter(cfg, opt) && Accepts(cfg, opt, text) && text != ""
      && (Letters(opts) + [opt.shortName.value])[0] != '-'
    case ClusterNext(opts, opt, text) =>
      && PlainLetters(cfg, opts) && HasLetter(cfg, opt) && Accepts(cfg, opt, text)
      && (Letters(opts) + [opt.shortName.value])[0] != '-'
  }

  /** The tokens an item is written as. */
  function Tokens(cfg: Config, item: Item): seq<string>
    requires Writable(cfg, item)
  {
    match item
    case Word(text) => [text]
    case Long(opt, unset) => ["--" + Spelling(opt.longName.value, unset, None)]
    case LongEquals(opt, text) => ["--" + Spelling(opt.longName.value, false, Some(text))]
    case LongNext(opt, text) => ["--" + Spelling(opt.longName.value, false, None), text]
    case Cluster(opts) => ["-" + Letters(opts)]
    case ClusterValue(opts, opt, text) => ["-" + (Letters(opts) + ([opt.shortName.value] + text))]
    case ClusterNext(opts, opt, text) => ["-" + (Letters(opts) + [opt.shortName.value]), text]
  }

  /** What it means. */
  function Meaning(item: Item): seq<Action> {
    match item
    case Word(text) => [Keep(text)]
    case Long(opt, unset) => Given(opt, unset)
    case LongEquals(opt, text) => [Store(opt, false, text)]
    case LongNext(opt, text) => [Store(opt, false, text)]
    case Cluster(opts) => GivenAll(opts)
    case ClusterValue(opts, opt, text) => GivenAll(opts) + [Store(opt, false, text)]
    case ClusterNext(opts, opt, text) => GivenAll(opts) + [Store(opt, false, text)]
  }

  lemma {:induction false} LongTaken(cfg: Config, body: string, tokens: seq<string>, e: Effect)
    requires body != "" && tokens != [] && tokens[0] == "--" + body && TakeLong(cfg, body, None, tokens) == e
    ensures Read(cfg, tokens, None) ==
            match e
            case Halt(actions, outcome) => Reading(actions, outcome)
            case Go(actions, _, carry, tokens') => Onto(actions, Read(cfg, tokens'[1..], carry))
  {
    var token := tokens[0];
    assert token[0] == '-' && token[1] == '-' && |token| > 2 && token[2..] == body;
    assert TakeToken(cfg, tokens, None) == e;
  }

  lemma {:induction false} ClusterTaken(cfg: Config, letters: string, tokens: seq<string>, e: Effect)
    requires letters != "" && letters[0] != '-' && tokens != [] && tokens[0] == "-" + letters
    requires TakeCluster(cfg, letters, tokens) == e
    ensures Read(cfg, tokens, None) ==
            match e
            case Halt(actions, outcome) => Reading(actions, outcome)
            case Go(actions, _, carry, tokens') => Onto(actions, Read(cfg, tokens'[1..], carry))
  {
    var token := tokens[0];
    assert token[0] == '-' && token[1] == letters[0] && token[1..] == letters;
    assert TakeToken(cfg, tokens, None) == e;
  }

  /** An item in front of a line is read as what it means. */
  lemma {:induction false} ItemIsRead(cfg: Config, item: Item, rest: seq<string>)
    requires Writable(cfg, item) && !cfg.stopAtNonOption
    ensures Read(cfg, Tokens(cfg, item) + rest, None) == Onto(Meaning(item), Read(cfg, rest, None))
  {
    match item
    case Word(text) =>
      assert ([text] + rest)[1..] == rest;
    case Long(opt, unset) => LongIsRead(cfg, opt, unset, rest);
    case LongEquals(opt, text) => EqualsIsRead(cfg, opt, text, rest);
    case LongNext(opt, text) => NextIsRead(cfg, opt, text, rest);
    case Cluster(opts) => ClusterIsRead(cfg, opts, rest);
    case ClusterValue(opts, opt, text) => ClusterValueIsRead(cfg, opts, opt, text, rest);
    case ClusterNext(opts, opt, text) => ClusterNextIsRead(cfg, opts, opt, text, rest);
  }

  lemma {:induction false} LongIsRead(cfg: Config, opt: Opt, unset: bool, rest: seq<string>)
    requires Plain(opt) && HasName(cfg, opt, unset, None)
    ensures Read(cfg, ["--" + Spelling(opt.longName.value, unset, None)] + rest, None) ==
            Onto(Given(opt, unset), Read(cfg, rest, None))
  {
    var body := Spelling(opt.longName.value, unset, None);
    var tokens := ["--" + body] + rest;
    assert tokens[1..] == rest;
    LongTaken(cfg, body, tokens, Go(Given(opt, unset), 0, None, tokens));
  }

  lemma {:induction false} EqualsIsRead(cfg: Config, opt: Opt, text: string, rest: seq<string>)
    requires Accepts(cfg, opt, text) && HasName(cfg, opt, false, Some(text))
    ensures Read(cfg, ["--" + Spelling(opt.longName.value, false, Some(text))] + rest, None) ==
            Onto([Store(opt, false, text)], Read(cfg, rest, None))
  {
    var body := Spelling(opt.longName.value, false, Some(text));
    var tokens := ["--" + body] + rest;
    assert tokens[1..] == rest;
    LongTaken(cfg, body, tokens, Go([Store(opt, false, text)], 0, None, tokens));
  }

  lemma {:induction false} NextIsRead(cfg: Config, opt: Opt, text: string, rest: seq<string>)
    requires Accepts(cfg, opt, text) && HasName(cfg, opt, false, None)
    ensures Read(cfg, ["--" + Spelling(opt.longName.value, false, None), text] + rest, None) ==
            Onto([Store(opt, false, text)], Read(cfg, rest, None))
  {
    var body := Spelling(opt.longName.value, false, None);
    var tokens := ["--" + body, text] + rest;
    assert tokens[1..][1..] == rest;
    LongTaken(cfg, body, tokens, Go([Store(opt, false, text)], 0, None, tokens[1..]));
  }

  lemma {:induction false} ClusterIsRead(cfg: Config, opts: seq<Opt>, rest: seq<string>)
    requires opts != [] && PlainLetters(cfg, opts) && Letters(opts)[0] != '-'
    ensures Read(cfg, ["-" + Letters(opts)] + rest, None) == Onto(GivenAll(opts), Read(cfg, rest, None))
  {
    var tokens := ["-" + Letters(opts)] + rest;
    assert tokens[1..] == rest;
    assert Letters(opts) + "" == Letters(opts);
    PlainLettersFirst(cfg, opts, "", tokens);
    ClusterTaken(cfg, Letters(opts), tokens, Go(GivenAll(opts), 0, None, tokens));
  }

  lemma {:induction false} ClusterValueIsRead(cfg: Config, opts: seq<Opt>, opt: Opt, text: string, rest: seq<string>)
    requires Writable(cfg, ClusterValue(opts, opt, text))
    ensures Read(cfg, Tokens(cfg, ClusterValue(opts, opt, text)) + rest, None) ==
            Onto(GivenAll(opts) + [Store(opt, false, text)], Read(cfg, rest, None))
  {
    var more := [opt.shortName.value] + text;
    var tokens := ["-" + (Letters(opts) + more)] + rest;
    assert tokens[1..] == rest;
    assert (Letters(opts) + more)[0] == (Letters(opts) + [opt.shortName.value])[0];
    PlainLettersFirst(cfg, opts, more, tokens);
    ValueBehindLetter(cfg, opt, text, tokens);
    ClusterTaken(cfg, Letters(opts) + more, tokens, Go(GivenAll(opts) + [Store(opt, false, text)], 0, None, tokens));
  }

  lemma {:induction false} ClusterNextIsRead(cfg: Config, opts: seq<Opt>, opt: Opt, text: string, rest: seq<string>)
    requires Writable(cfg, ClusterNext(opts, opt, text))
    ensures Read(cfg, Tokens(cfg, ClusterNext(opts, opt, text)) + rest, None) ==
            Onto(GivenAll(opts) + [Store(opt, false, text)], Read(cfg, rest, None))
  {
    var more := [opt.shortName.value];
    var tokens := ["-" + (Letters(opts) + more), text] + rest;
    assert tokens[1..][1..] == rest;
    PlainLettersFirst(cfg, opts, more, tokens);
    ValueAfterLetter(cfg, opt, tokens);
    ClusterTaken(cfg, Letters(opts) + more, tokens,
                 Go(GivenAll(opts) + [Store(opt, false, text)], 0, None, tokens[1..]));
  }

  function Line(cfg: Config, items: seq<Item>): seq<string>
    requires forall i :: 0 <= i < |items| ==> Writable(cfg, items[i])
  {
    if items == [] then [] else Tokens(cfg, items[0]) + Line(cfg, items[1..])
  }

  function LineMeaning(items: seq<Item>): seq<Action> {
    if items == [] then [] else Meaning(items[0]) + LineMeaning(items[1..])
  }

  /** Reading a line gives back what was written, item by item, and then reads what follows. */
  lemma {:induction false} WrittenLineIsRead(cfg: Config, items: seq<Item>, rest: seq<string>)
    requires (forall i :: 0 <= i < |items| ==> Writable(cfg, items[i])) && !cfg.stopAtNonOption
    ensures Read(cfg, Line(cfg, items) + rest, None) == Onto(LineMeaning(items), Read(cfg, rest, None))
  {
    if items == [] {
      assert [] + rest == rest;
      OntoNothing(Read(cfg, rest, None));
    } else {
      var later := Line(cfg, items[1..]) + rest;
      assert Line(cfg, items) + rest == Tokens(cfg, items[0]) + later;
      ItemIsRead(cfg, items[0], later);
      WrittenLineIsRead(cfg, items[1..], rest);
      OntoOnto(Meaning(items[0]), LineMeaning(items[1..]), Read(cfg, rest, None));
    }
  }

  /** A double dash ends the line: everything behind it stays as it is. */
  lemma {:induction false} WrittenTail(cfg: Config, items: seq<Item>, tail: seq<string>)
    requires (forall i :: 0 <= i < |items| ==> Writable(cfg, items[i])) && !cfg.stopAtNonOption
    ensures Read(cfg, Line(cfg, items), None) == Reading(LineMeaning(items), Finished([]))
    ensures Read(cfg, Line(cfg, items) + (["--"] + tail), None) == Reading(LineMeaning(items), Finished(tail))
  {
    WrittenLineIsRead(cfg, items, []);
    assert Line(cfg, items) + [] == Line(cfg, items);
    WrittenLineIsRead(cfg, items, ["--"] + tail);
    assert (["--"] + tail)[1..] == tail;
    assert LineMeaning(items) + [] == LineMeaning(items);
  }

  // ---- What a line can end with ----

  /** The ways of ending the program. */
  datatype Stop =
    | StrangeName(body: string)
    | StrangeLetter(opts: seq<Opt>, letter: char, more: string)
    | NoValue(opt: Opt)
    | NoValueForLetter(opts: seq<Opt>, opt: Opt)
    | BadNumber(opt: Opt, text: string)
    | HelpByName(opt: Opt)
    | HelpByLetter(opts: seq<Opt>, opt: Opt, more: string)

  predicate Stops(cfg: Config, stop: Stop) {
    match stop
    case StrangeName(body) => body != "" && FindLong(cfg.options, body).None?
    case StrangeLetter(opts, letter, more) =>
      PlainLetters(cfg, opts) && FindShort(cfg.options, letter).None? && (Letters(opts) + [letter])[0] != '-'
    case NoValue(opt) => TakesValue(opt) && HasName(cfg, opt, false, None)
    case NoValueForLetter(opts, opt) =>
      && PlainLetters(cfg, opts) && TakesValue(opt) && HasLetter(cfg, opt)
      && (Letters(opts) + [opt.shortName.value])[0] != '-'
    case BadNumber(opt, text) =>
      && opt.target.Some? && opt.kind.Integer? && cfg.strtol(text).rest != ""
      && HasName(cfg, opt, false, Some(text))
    case HelpByName(opt) => opt.target.None? && opt.callback.Help? && HasName(cfg, opt, false, None)
    case HelpByLetter(opts, opt, more) =>
      && PlainLetters(cfg, opts) && opt.target.None? && opt.callback.Help? && HasLetter(cfg, opt)
      && (Letters(opts) + [opt.shortName.value])[0] != '-'
  }

  function StopToken(cfg: Config, stop: Stop): string
    requires Stops(cfg, stop)
  {
    match stop
    case StrangeName(body) => "--" + body
    case StrangeLetter(opts, letter, more) => "-" + (Letters(opts) + ([letter] + more))
    case NoValue(opt) => "--" + Spelling(opt.longName.value, false, None)
    case NoValueForLetter(opts, opt) => "-" + (Letters(opts) + [opt.shortName.value])
    case BadNumber(opt, text) => "--" + Spelling(opt.longName.value, false, Some(text))
    case HelpByName(opt) => "--" + Spelling(opt.longName.value, false, None)
    case HelpByLetter(opts, opt, more) => "-" + (Letters(opts) + ([opt.shortName.value] + more))
  }

  function StopReading(cfg: Config, stop: Stop): Reading
    requires Stops(cfg, stop)
  {
    match stop
    case StrangeName(_) => Reading([], UnknownOption(StopToken(cfg, stop)))
    case StrangeLetter(opts, _, _) => Reading(GivenAll(opts), UnknownOption(StopToken(cfg, stop)))
    case NoValue(opt) => Reading([], ValueMissing(opt))
    case NoValueForLetter(opts, opt) => Reading(GivenAll(opts), ValueMissing(opt))
    case BadNumber(opt, text) => Reading([Store(opt, false, text)], NotANumber(opt))
    case HelpByName(_) => Reading([], HelpShown)
    case HelpByLetter(opts, _, _) => Reading(GivenAll(opts), HelpShown)
  }

  /** A value can only be missing at the end of the line. */
  predicate AtEnd(stop: Stop, rest: seq<string>) {
    stop.NoValue? || stop.NoValueForLetter? ==> rest == []
  }

  lemma {:induction false} StopIsRead(cfg: Config, stop: Stop, rest: seq<string>)
    requires Stops(cfg, stop) && AtEnd(stop, rest)
    ensures Read(cfg, [StopToken(cfg, stop)] + rest, None) == StopReading(cfg, stop)
  {
    match stop
    case StrangeLetter(opts, letter, more) =>
      assert (Letters(opts) + ([letter] + more))[0] == (Letters(opts) + [letter])[0];
      StrangeLetterHalts(cfg, letter, more, [StopToken(cfg, stop)] + rest);
      ClusterStops(cfg, opts, [letter] + more, rest, UnknownOption(StopToken(cfg, stop)));
    case NoValueForLetter(opts, opt) =>
      ValuelessLetterHalts(cfg, opt, StopToken(cfg, stop));
      assert [StopToken(cfg, stop)] + rest == [StopToken(cfg, stop)];
      ClusterStops(cfg, opts, [opt.shortName.value], rest, ValueMissing(opt));
    case HelpByLetter(opts, opt, more) =>
      assert (Letters(opts) + ([opt.shortName.value] + more))[0] == (Letters(opts) + [opt.shortName.value])[0];
      HelpLetterHalts(cfg, opt, more, [StopToken(cfg, stop)] + rest);
      ClusterStops(cfg, opts, [opt.shortName.value] + more, rest, HelpShown);
    case _ => NameStops(cfg, stop, rest);
  }

  lemma {:induction false} NameStops(cfg: Config, stop: Stop, rest: seq<string>)
    requires Stops(cfg, stop) && AtEnd(stop, rest)
    requires stop.StrangeName? || stop.NoValue? || stop.BadNumber? || stop.HelpByName?
    ensures Read(cfg, [StopToken(cfg, stop)] + rest, None) == StopReading(cfg, stop)
  {
    var r := StopReading(cfg, stop);
    var token := StopToken(cfg, stop);
    assert token == "--" + token[2..];
    LongTaken(cfg, token[2..], [token] + rest, Halt(r.actions, r.outcome));
  }

  /** A cluster that ends the program behind plain letters. */
  lemma {:induction false} ClusterStops(
      cfg: Config, opts: seq<Opt>, letters: string, rest: seq<string>, outcome: Outcome)
    requires PlainLetters(cfg, opts) && letters != "" && (Letters(opts) + letters)[0] != '-'
    requires TakeCluster(cfg, letters, ["-" + (Letters(opts) + letters)] + rest) == Halt([], outcome)
    ensures Read(cfg, ["-" + (Letters(opts) + letters)] + rest, None) == Reading(GivenAll(opts), outcome)
  {
    var tokens := ["-" + (Letters(opts) + letters)] + rest;
    PlainLettersFirst(cfg, opts, letters, tokens);
    assert GivenAll(opts) + [] == GivenAll(opts);
    ClusterTaken(cfg, Letters(opts) + letters, tokens, Halt(GivenAll(opts), outcome));
  }

  lemma {:induction false} StrangeLetterHalts(cfg: Config, letter: char, more: string, tokens: seq<string>)
    requires FindShort(cfg.options, letter).None? && tokens != []
    ensures TakeCluster(cfg, [letter] + more, tokens) == Halt([], UnknownOption(tokens[0]))
  {
  }

  lemma {:induction false} ValuelessLetterHalts(cfg: Config, opt: Opt, token: string)
    requires TakesValue(opt) && HasLetter(cfg, opt)
    ensures TakeCluster(cfg, [opt.shortName.value], [token]) == Halt([], ValueMissing(opt))
  {
    var letters := [opt.shortName.value];
    assert LetterEffect(cfg, letters, [token]) == TakeOption(cfg, opt, false, None, [token]);
    assert TakeValue(cfg, opt, false, None, [token]) == Halt([], ValueMissing(opt));
    assert TakeLetter(cfg, letters, [token]) == Halt([], ValueMissing(opt));
  }

  lemma {:induction false} HelpLetterHalts(cfg: Config, opt: Opt, more: string, tokens: seq<string>)
    requires opt.target.None? && opt.callback.Help? && HasLetter(cfg, opt) && tokens != []
    ensures TakeCluster(cfg, [opt.shortName.value] + more, tokens) == Halt([], HelpShown)
  {
  }

  /** A line that stops somewhere has the effect of what stands before, and ends for the reason given. */
  lemma {:induction false} StoppedLineIsRead(cfg: Config, items: seq<Item>, stop: Stop, rest: seq<string>)
    requires (forall i :: 0 <= i < |items| ==> Writable(cfg, items[i])) && !cfg.stopAtNonOption
    requires Stops(cfg, stop) && AtEnd(stop, rest)
    ensures Read(cfg, Line(cfg, items) + ([StopToken(cfg, stop)] + rest), None) ==
            Onto(LineMeaning(items), StopReading(cfg, stop))
  {
    WrittenLineIsRead(cfg, items, [StopToken(cfg, stop)] + rest);
    StopIsRead(cfg, stop, rest);
  }

  /** The code of a callback makes the option unknown if it is -2, and changes nothing otherwise. */
  lemma {:induction false} CallbackRefuses(cfg: Config, opt: Opt, unset: bool, rest: seq<string>)
    requires opt.callback.Returns? && (opt.target.Some? ==> opt.kind.Boolean? || opt.kind.Bit?)
    requires HasName(cfg, opt, unset, None)
    ensures var token := "--" + Spelling(opt.longName.value, unset, None);
            Read(cfg, [token] + rest, None) ==
            if opt.callback.code == -2 then Reading(Given(opt, unset), UnknownOption(token))
            else Onto(Given(opt, unset), Read(cfg, rest, None))
  {
    var body := Spelling(opt.longName.value, unset, None);
    var tokens := ["--" + body] + rest;
    assert tokens[1..] == rest;
    LongTaken(cfg, body, tokens, if opt.callback.code == -2 then Halt(Given(opt, unset), UnknownOption(tokens[0]))
                                 else Go(Given(opt, unset), opt.callback.code, None, tokens));
  }

  // ---- What the variables hold in the end ----

  /** From action k on, the variable is not touched again. */
  predicate LastFor(actions: seq<Action>, k: nat, loc: nat) {
    && k < |actions| && actions[k].Store? && actions[k].opt.target == Some(loc)
    && forall j :: k < j < |actions| && actions[j].Store? ==> actions[j].opt.target != Some(loc)
  }

  /** A text or a number is the one stored last. */
  lemma {:induction false} LastStoreCounts(
      strtol: string -> Number, values: Values, actions: seq<Action>, k: nat, loc: nat)
    requires LastFor(actions, k, loc)
    ensures var r := ApplyAll(strtol, values, actions);
            && (actions[k].opt.kind.String? ==> loc in r.strings && r.strings[loc] == actions[k].text)
            && (actions[k].opt.kind.Integer? ==> loc in r.ints && r.ints[loc] == strtol(actions[k].text).value)
  {
    var n := |actions| - 1;
    if k < n {
      LastStoreCounts(strtol, values, actions[..n], k, loc);
    }
  }

  /** From action k on, bit i of the variable is not touched again. */
  predicate LastForBit(actions: seq<Action>, k: nat, loc: nat, i: nat) {
    && k < |actions| && actions[k].Store? && actions[k].opt.target == Some(loc)
    && actions[k].opt.kind.Bit? && Bits.Bit(Bits.Pattern(actions[k].opt.data), i)
    && forall j :: k < j < |actions| && actions[j].Store? && actions[j].opt.target == Some(loc) ==>
         actions[j].opt.kind.Bit? && !Bits.Bit(Bits.Pattern(actions[j].opt.data), i)
  }

  /** A bit is set or cleared by the last option whose mask has it. */
  lemma {:induction false} LastBitCounts(
      strtol: string -> Number, values: Values, actions: seq<Action>, k: nat, loc: nat, i: nat)
    requires LastForBit(actions, k, loc, i)
    ensures Bits.Bit(Bits.Pattern(IntAt(ApplyAll(strtol, values, actions), loc)), i) <==> !actions[k].unset
  {
    var n := |actions| - 1;
    var before := ApplyAll(strtol, values, actions[..n]);
    if actions[n].Store? && actions[n].opt.target == Some(loc) {
      Bits.MaskedBits(IntAt(before, loc), actions[n].opt.data, i);
    }
    if k < n {
      LastBitCounts(strtol, values, actions[..n], k, loc, i);
    }
  }
}
