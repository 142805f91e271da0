/** What the command-line parser guarantees, proved on its pure reading. */
module ArgparseProperties {
  import opened Options
  import opened ArgparseSpec
  import opened Sequences

  // ---- Which option a token picks ----

  /** The spelling of a long option, without its dashes. */
  function Spelling(name: string, unset: bool, value: Option<string>): string {
    (if unset then "no-" else "") + name + (if value.Some? then "=" + value.value else "")
  }

  /** An option is picked by exactly its spellings; a negated spelling works only for a negatable option
      whose name is not a prefix of its own negation. */
  lemma {:induction false} PickedBySpelling(opt: Opt, body: string, unset: bool, value: Option<string>)
    ensures TryLong(opt, body) == Some(Pick(opt, unset, value)) <==>
            && opt.longName.Some?
            && body == Spelling(opt.longName.value, unset, value)
            && (unset ==> !opt.noNegation && (opt.kind.Boolean? || opt.kind.Bit?)
                          && !(opt.longName.value <= "no-" + opt.longName.value))
  {
    if opt.longName.Some? {
      var name := opt.longName.value;
      if body == Spelling(name, unset, value) {
        SpellingPicks(opt, unset, value);
      }
      if TryLong(opt, body) == Some(Pick(opt, unset, value)) {
        PickSpells(opt, body, unset, value);
      }
    }
  }

  lemma {:induction false} SpellingPicks(opt: Opt, unset: bool, value: Option<string>)
    requires opt.longName.Some?
    ensures var name := opt.longName.value;
            TryLong(opt, Spelling(name, unset, value)) == Some(Pick(opt, unset, value)) <==>
            (unset ==> Negatable(opt) && !(name <= "no-" + name))
  {
    var tail := if value.Some? then "=" + value.value else "";
    if unset {
      NegatedSpelling(opt, tail);
    } else {
      PlainSpelling(opt, tail);
    }
  }

  lemma {:induction false} PlainSpelling(opt: Opt, tail: string)
    requires opt.longName.Some?
    ensures AfterName(opt, "" + opt.longName.value + tail) == Some((false, tail))
  {
    var name := opt.longName.value;
    assert "" + name + tail == name + tail;
    assert (name + tail)[|name|..] == tail;
  }

  lemma {:induction false} NegatedSpelling(opt: Opt, tail: string)
    requires opt.longName.Some?
    ensures var name := opt.longName.value;
            var left := AfterName(opt, "no-" + name + tail);
            if Negatable(opt) && !(name <= "no-" + name) then left == Some((true, tail))
            else left.None? || !left.value.0
  {
    var name := opt.longName.value;
    var body := "no-" + name + tail;
    assert name <= body <==> name <= "no-" + name by {
      assert body[..|name|] == ("no-" + name)[..|name|];
    }
    assert body[3..] == name + tail;
    assert (name + tail)[|name|..] == tail;
  }

  lemma {:induction false} PickSpells(opt: Opt, body: string, unset: bool, value: Option<string>)
    requires TryLong(opt, body) == Some(Pick(opt, unset, value))
    ensures opt.longName.Some? && body == Spelling(opt.longName.value, unset, value)
  {
    var (negated, rest) := AfterName(opt, body).value;
    AfterNameSplits(opt, body, negated, rest);
    var tail := if value.Some? then "=" + value.value else "";
    assert rest == tail;
  }

  lemma {:induction false} AfterNameSplits(opt: Opt, body: string, unset: bool, rest: string)
    requires AfterName(opt, body) == Some((unset, rest))
    ensures opt.longName.Some? && body == (if unset then "no-" else "") + opt.longName.value + rest
  {
    var name := opt.longName.value;
    if unset {
      assert body == "no-" + body[3..];
      assert body[3..] == name + rest;
      assert "no-" + (name + rest) == "no-" + name + rest;
    } else {
      assert body == name + rest;
      assert "" + name == name;
    }
  }

  /** Of several options that a long token spells, the first in the table is picked. */
  lemma {:induction false} FirstLongWins(options: seq<Opt>, body: string)
    ensures FindLong(options, body).None? <==> forall i :: 0 <= i < |options| ==> TryLong(options[i], body).None?
    ensures FindLong(options, body).Some? ==>
              exists i :: 0 <= i < |options| && TryLong(options[i], body) == FindLong(options, body)
                          && forall j :: 0 <= j < i ==> TryLong(options[j], body).None?
  {
    if options != [] && TryLong(options[0], body).None? {
      FirstLongWins(options[1..], body);
      assert forall i :: 1 <= i < |options| ==> options[i] == options[1..][i - 1];
      if FindLong(options, body).Some? {
        var i :| 0 <= i < |options[1..]| && TryLong(options[1..][i], body) == FindLong(options[1..], body)
                 && forall j :: 0 <= j < i ==> TryLong(options[1..][j], body).None?;
        assert TryLong(options[i + 1], body) == FindLong(options, body);
      } else {
        assert forall i :: 0 <= i < |options[1..]| ==> TryLong(options[1..][i], body).None?;
      }
    }
  }

  /** The same for letters. */
  lemma {:induction false} FirstShortWins(options: seq<Opt>, c: char)
    ensures FindShort(options, c).None? <==> forall i :: 0 <= i < |options| ==> options[i].shortName != Some(c)
    ensures FindShort(options, c).Some? ==>
              exists i :: 0 <= i < |options| && FindShort(options, c) == Some(options[i])
                          && options[i].shortName == Some(c)
                          && forall j :: 0 <= j < i ==> options[j].shortName != Some(c)
  {
    if options != [] && options[0].shortName != Some(c) {
      FirstShortWins(options[1..], c);
      assert forall i :: 1 <= i < |options| ==> options[i] == options[1..][i - 1];
      if FindShort(options, c).Some? {
        var i :| 0 <= i < |options[1..]| && FindShort(options[1..], c) == Some(options[1..][i])
                 && options[1..][i].shortName == Some(c)
                 && forall j :: 0 <= j < i ==> options[1..][j].shortName != Some(c);
        assert options[i + 1].shortName == Some(c);
      }
    }
  }

  // ---- Positional arguments ----

  lemma {:induction false} KeptFirst(token: string, more: seq<Action>)
    ensures Kept([Keep(token)] + more) == [token] + Kept(more)
  {
    KeptMore([Keep(token)], more);
    assert [Keep(token)][..0] == [];
  }

  /** What a reading to the end does with the tokens: the unread ones are a tail, behind a double dash or,
      where that stops the reading, from a positional one on; the kept ones are non-options and a
      subsequence of the tokens before that tail. */
  predicate InOrder(cfg: Config, tokens: seq<string>, kept: seq<string>, unread: seq<string>) {
    var n := |tokens| - |unread|;
    && 0 <= n
    && unread == tokens[n..]
    && IsSubsequence(kept, tokens[..n])
    && (forall i :: 0 <= i < |kept| ==> !IsOption(kept[i]))
    && (n < |tokens| ==> (n > 0 && tokens[n - 1] == "--") || (cfg.stopAtNonOption && !IsOption(tokens[n])))
  }

  lemma {:induction false} PositionalsInOrder(cfg: Config, tokens: seq<string>, carry: Option<string>)
    requires Read(cfg, tokens, carry).outcome.Finished?
    ensures var r := Read(cfg, tokens, carry); InOrder(cfg, tokens, Kept(r.actions), r.outcome.unread)
    decreases |tokens|
  {
    if tokens == [] {
    } else if !IsOption(tokens[0]) {
      if !cfg.stopAtNonOption {
        var r := Read(cfg, tokens[1..], carry);
        PositionalsInOrder(cfg, tokens[1..], carry);
        KeptFirst(tokens[0], r.actions);
        OneMoreKept(cfg, tokens, Kept(r.actions), r.outcome.unread);
      }
    } else if tokens[0] != "--" {
      var e := TakeToken(cfg, tokens, carry);
      var k := |tokens| - |e.tokens| + 1;
      assert e.tokens[1..] == tokens[k..];
      var r := Read(cfg, tokens[k..], e.carry);
      PositionalsInOrder(cfg, tokens[k..], e.carry);
      KeptMore(e.actions, r.actions);
      KeptMore([], e.actions);
      assert [] + Kept(r.actions) == Kept(r.actions);
      MorePassed(cfg, tokens, k, Kept(r.actions), r.outcome.unread);
    }
  }

  lemma {:induction false} OneMoreKept(cfg: Config, tokens: seq<string>, kept: seq<string>, unread: seq<string>)
    requires tokens != [] && !IsOption(tokens[0]) && InOrder(cfg, tokens[1..], kept, unread)
    ensures InOrder(cfg, tokens, [tokens[0]] + kept, unread)
  {
    var n := |tokens| - |unread|;
    assert tokens[1..][n - 1..] == tokens[n..];
    assert tokens[..n][1..] == tokens[1..][..n - 1];
    assert ([tokens[0]] + kept)[1..] == kept;
  }

  lemma {:induction false} MorePassed(cfg: Config, tokens: seq<string>, k: nat, kept: seq<string>, unread: seq<string>)
    requires k <= |tokens| && InOrder(cfg, tokens[k..], kept, unread)
    ensures InOrder(cfg, tokens, kept, unread)
  {
    var n := |tokens| - |unread|;
    assert tokens[k..][n - k..] == tokens[n..];
    assert tokens[..n][k..] == tokens[k..][..n - k];
    SubsequenceOfTail(kept, tokens[..n], k);
  }

  // ---- Counters ----

  /** The +1 and -1 steps that the actions make on one variable. */
  function Steps(actions: seq<Action>, loc: nat): seq<int> {
    if actions == [] then []
    else
      var a := actions[|actions| - 1];
      Steps(actions[..|actions| - 1], loc)
      + if a.Store? && a.opt.target == Some(loc) then [if a.unset then -1 else 1] else []
  }

  /** Counting that never goes below zero. */
  function SaturatingSum(start: int, steps: seq<int>): int {
    if steps == [] then start
    else
      var v := SaturatingSum(start, steps[..|steps| - 1]) + steps[|steps| - 1];
      if v < 0 then 0 else v
  }

  predicate OnlyCounts(cfg: Config, loc: nat) {
    forall i :: 0 <= i < |cfg.options| && cfg.options[i].target == Some(loc) ==> cfg.options[i].kind.Boolean?
  }

  predicate FromTable(cfg: Config, actions: seq<Action>) {
    forall i :: 0 <= i < |actions| && actions[i].Store? ==> actions[i].opt in cfg.options
  }

  lemma {:induction false} ShortFromTable(options: seq<Opt>, c: char)
    ensures FindShort(options, c).Some? ==> FindShort(options, c).value in options
  {
    if options != [] && options[0].shortName != Some(c) {
      ShortFromTable(options[1..], c);
    }
  }

  lemma {:induction false} LongFromTable(options: seq<Opt>, body: string)
    ensures FindLong(options, body).Some? ==> FindLong(options, body).value.opt in options
  {
    if options != [] && TryLong(options[0], body).None? {
      LongFromTable(options[1..], body);
    }
  }

  lemma {:induction false} ClusterFromTable(cfg: Config, letters: string, tokens: seq<string>)
    requires letters != "" && tokens != []
    ensures FromTable(cfg, TakeCluster(cfg, letters, tokens).actions)
    decreases |letters|
  {
    LetterFromTable(cfg, letters, tokens);
    var first := TakeLetter(cfg, letters, tokens);
    if first.Go? && first.carry.Some? {
      ClusterFromTable(cfg, first.carry.value, first.tokens);
    }
  }

  lemma {:induction false} LetterFromTable(cfg: Config, letters: string, tokens: seq<string>)
    requires letters != "" && tokens != []
    ensures FromTable(cfg, TakeLetter(cfg, letters, tokens).actions)
  {
    ShortFromTable(cfg.options, letters[0]);
    var opt := FindShort(cfg.options, letters[0]);
    if opt.Some? {
      OptionFromTable(cfg, opt.value, false, if |letters| > 1 then Some(letters[1..]) else None, tokens);
    }
  }

  lemma {:induction false} OptionFromTable(cfg: Config, opt: Opt, unset: bool, carry: Option<string>,
                                           tokens: seq<string>)
    requires tokens != [] && opt in cfg.options
    ensures FromTable(cfg, TakeOption(cfg, opt, unset, carry, tokens).actions)
  {
    var e := TakeOption(cfg, opt, unset, carry, tokens);
    assert forall i :: 0 <= i < |e.actions| ==> e.actions[i].opt == opt;
  }

  lemma {:induction false} TokenFromTable(cfg: Config, tokens: seq<string>, carry: Option<string>)
    requires tokens != [] && IsOption(tokens[0]) && tokens[0] != "--"
    ensures FromTable(cfg, TakeToken(cfg, tokens, carry).actions)
  {
    if tokens[0][1] == '-' {
      LongFromTable(cfg.options, tokens[0][2..]);
      var pick := FindLong(cfg.options, tokens[0][2..]);
      if pick.Some? {
        var p := pick.value;
        OptionFromTable(cfg, p.opt, p.unset, if p.value.Some? then p.value else carry, tokens);
      }
    } else {
      ClusterFromTable(cfg, tokens[0][1..], tokens);
    }
  }

  /** Every stored value comes from an entry of the table. */
  lemma {:induction false} ReadFromTable(cfg: Config, tokens: seq<string>, carry: Option<string>)
    ensures FromTable(cfg, Read(cfg, tokens, carry).actions)
    decreases |tokens|
  {
    if tokens != [] {
      if !IsOption(tokens[0]) {
        ReadFromTable(cfg, tokens[1..], carry);
      } else if tokens[0] != "--" {
        TokenFromTable(cfg, tokens, carry);
        var e := TakeToken(cfg, tokens, carry);
        if e.Go? {
          ReadFromTable(cfg, e.tokens[1..], e.carry);
        }
      }
    }
  }

  lemma {:induction false} ApplyCountsOne(cfg: Config, values: Values, a: Action, loc: nat)
    requires a.Store? ==> a.opt in cfg.options
    requires OnlyCounts(cfg, loc)
    ensures IntAt(Apply(cfg.strtol, values, a), loc) ==
            if a.Store? && a.opt.target == Some(loc)
            then SaturatingSum(IntAt(values, loc), [if a.unset then -1 else 1])
            else IntAt(values, loc)
  {
    if a.Store? {
      var i :| 0 <= i < |cfg.options| && cfg.options[i] == a.opt;
      var step := [if a.unset then -1 else 1];
      assert step[..0] == [];
      assert SaturatingSum(IntAt(values, loc), step[..0]) == IntAt(values, loc);
    }
  }

  lemma {:induction false} SaturatingSumMore(start: int, steps: seq<int>, step: int)
    ensures SaturatingSum(start, steps + [step]) == SaturatingSum(SaturatingSum(start, steps), [step])
  {
    assert (steps + [step])[..|steps|] == steps;
    assert [step][..0] == [];
    assert SaturatingSum(SaturatingSum(start, steps), [step][..0]) == SaturatingSum(start, steps);
  }

  lemma {:induction false} ApplyCounts(cfg: Config, values: Values, actions: seq<Action>, loc: nat)
    requires FromTable(cfg, actions) && OnlyCounts(cfg, loc)
    ensures IntAt(ApplyAll(cfg.strtol, values, actions), loc) ==
            SaturatingSum(IntAt(values, loc), Steps(actions, loc))
  {
    if actions != [] {
      var a := actions[|actions| - 1];
      var before := Steps(actions[..|actions| - 1], loc);
      ApplyCounts(cfg, values, actions[..|actions| - 1], loc);
      ApplyCountsOne(cfg, ApplyAll(cfg.strtol, values, actions[..|actions| - 1]), a, loc);
      SaturatingSumMore(IntAt(values, loc), before, if a.Store? && a.unset then -1 else 1);
      assert before + [] == before;
    }
  }

  /** A variable that only boolean options point to ends as the saturating sum of its occurrences. */
  lemma {:induction false} CounterIsSaturatingSum(cfg: Config, tokens: seq<string>, carry: Option<string>,
                                                  values: Values, loc: nat)
    requires OnlyCounts(cfg, loc)
    ensures var actions := Read(cfg, tokens, carry).actions;
            IntAt(ApplyAll(cfg.strtol, values, actions), loc) == SaturatingSum(IntAt(values, loc), Steps(actions, loc))
  {
    ReadFromTable(cfg, tokens, carry);
    ApplyCounts(cfg, values, Read(cfg, tokens, carry).actions, loc);
  }

  function Sum(steps: seq<int>): int {
    if steps == [] then 0 else Sum(steps[..|steps| - 1]) + steps[|steps| - 1]
  }

  lemma {:induction false} SumOfTail(steps: seq<int>, i: nat)
    requires i < |steps|
    ensures Sum(steps[i..]) == Sum(steps[i..|steps| - 1]) + steps[|steps| - 1]
  {
    assert steps[i..][..|steps[i..]| - 1] == steps[i..|steps| - 1];
  }

  /** Seen from the end, the saturating sum is the best of the plain total and of the totals of the last
      steps alone. */
  lemma {:induction false} SaturatingSumIsBestTail(start: nat, steps: seq<int>)
    ensures SaturatingSum(start, steps) >= start + Sum(steps)
    ensures forall i :: 0 <= i <= |steps| ==> SaturatingSum(start, steps) >= Sum(steps[i..])
    ensures SaturatingSum(start, steps) == start + Sum(steps)
            || exists i :: 0 <= i <= |steps| && SaturatingSum(start, steps) == Sum(steps[i..])
  {
    var n := |steps|;
    if n > 0 {
      var before, last := steps[..n - 1], steps[n - 1];
      SaturatingSumIsBestTail(start, before);
      assert steps[n..] == [];
      forall i | 0 <= i <= n ensures SaturatingSum(start, steps) >= Sum(steps[i..]) {
        if i < n {
          SumOfTail(steps, i);
          assert before[i..] == steps[i..n - 1];
        }
      }
      if SaturatingSum(start, before) + last < 0 {
        assert SaturatingSum(start, steps) == Sum(steps[n..]);
      } else if SaturatingSum(start, before) != start + Sum(before) {
        var i :| 0 <= i <= n - 1 && SaturatingSum(start, before) == Sum(before[i..]);
        SumOfTail(steps, i);
        assert before[i..] == steps[i..n - 1];
        assert SaturatingSum(start, steps) == Sum(steps[i..]);
      }
    } else {
      assert steps[0..] == [];
    }
  }

  // ---- Tables of flags ----

  /** No entry takes a value. */
  predicate FlagsOnly(cfg: Config) {
    forall i :: 0 <= i < |cfg.options| && cfg.options[i].target.Some? ==>
      cfg.options[i].kind.Boolean? || cfg.options[i].kind.Bit?
  }

  /** Reading each token on its own. */
  function ReadAlone(cfg: Config, tokens: seq<string>): Reading {
    if tokens == [] then Reading([], Finished([]))
    else if !IsOption(tokens[0]) then
      if cfg.stopAtNonOption then Reading([], Finished(tokens))
      else Onto([Keep(tokens[0])], ReadAlone(cfg, tokens[1..]))
    else if tokens[0] == "--" then Reading([], Finished(tokens[1..]))
    else
      match TakeToken(cfg, [tokens[0]], None)
      case Halt(actions, outcome) => Reading(actions, outcome)
      case Go(actions, _, _, _) => Onto(actions, ReadAlone(cfg, tokens[1..]))
  }

  /** An effect that leaves the tokens alone and does not look at the carried value. */
  predicate SameEffect(e: Effect, e': Effect, tokens: seq<string>) {
    && e.actions == e'.actions
    && (e.Halt? <==> e'.Halt?)
    && (e.Halt? ==> e.outcome == e'.outcome && !e.outcome.ValueMissing? && !e.outcome.NotANumber?)
    && (e.Go? ==> e.code == e'.code && e.tokens == tokens)
  }

  lemma {:induction false} FlagValue(cfg: Config, opt: Opt, unset: bool, carry: Option<string>, tokens: seq<string>)
    requires FlagsOnly(cfg) && opt in cfg.options && tokens != []
    ensures TakeValue(cfg, opt, unset, carry, tokens) ==
            Go(if opt.target.None? then [] else [Store(opt, unset, "")], 0, carry, tokens)
  {
    var i :| 0 <= i < |cfg.options| && cfg.options[i] == opt;
  }

  lemma {:induction false} FlagEffect(cfg: Config, opt: Opt, unset: bool, carry: Option<string>, carry': Option<string>,
                                      tokens: seq<string>)
    requires FlagsOnly(cfg) && opt in cfg.options && tokens != []
    ensures SameEffect(TakeOption(cfg, opt, unset, carry, tokens),
                       TakeOption(cfg, opt, unset, carry', [tokens[0]]), tokens)
    ensures TakeOption(cfg, opt, unset, carry, tokens).Go? ==>
              TakeOption(cfg, opt, unset, carry, tokens).carry == carry
  {
    FlagValue(cfg, opt, unset, carry, tokens);
    FlagValue(cfg, opt, unset, carry', [tokens[0]]);
  }

  lemma {:induction false} FlagLetter(cfg: Config, letters: string, tokens: seq<string>)
    requires FlagsOnly(cfg) && letters != "" && tokens != []
    ensures SameEffect(TakeLetter(cfg, letters, tokens), TakeLetter(cfg, letters, [tokens[0]]), tokens)
    ensures var carry := if |letters| > 1 then Some(letters[1..]) else None;
            && (TakeLetter(cfg, letters, tokens).Go? ==> TakeLetter(cfg, letters, tokens).carry == carry)
            && (TakeLetter(cfg, letters, [tokens[0]]).Go? ==>
                  TakeLetter(cfg, letters, [tokens[0]]).carry == carry
                  && TakeLetter(cfg, letters, [tokens[0]]).tokens == [tokens[0]])
  {
    ShortFromTable(cfg.options, letters[0]);
    var opt := FindShort(cfg.options, letters[0]);
    if opt.Some? {
      var carry := if |letters| > 1 then Some(letters[1..]) else None;
      FlagEffect(cfg, opt.value, false, carry, carry, tokens);
      FlagEffect(cfg, opt.value, false, carry, carry, [tokens[0]]);
    }
  }

  lemma {:induction false} FlagCluster(cfg: Config, letters: string, tokens: seq<string>)
    requires FlagsOnly(cfg) && letters != "" && tokens != []
    ensures SameEffect(TakeCluster(cfg, letters, tokens), TakeCluster(cfg, letters, [tokens[0]]), tokens)
    decreases |letters|
  {
    FlagLetter(cfg, letters, tokens);
    if |letters| > 1 && TakeLetter(cfg, letters, tokens).Go? {
      FlagCluster(cfg, letters[1..], tokens);
    }
  }

  lemma {:induction false} FlagLong(cfg: Config, body: string, carry: Option<string>, tokens: seq<string>)
    requires FlagsOnly(cfg) && tokens != []
    ensures SameEffect(TakeLong(cfg, body, carry, tokens), TakeLong(cfg, body, None, [tokens[0]]), tokens)
  {
    LongFromTable(cfg.options, body);
    var pick := FindLong(cfg.options, body);
    if pick.Some? {
      var p := pick.value;
      FlagEffect(cfg, p.opt, p.unset, if p.value.Some? then p.value else carry, p.value, tokens);
      FlagEffect(cfg, p.opt, p.unset, p.value, p.value, [tokens[0]]);
    }
  }

  lemma {:induction false} FlagToken(cfg: Config, tokens: seq<string>, carry: Option<string>)
    requires FlagsOnly(cfg) && tokens != [] && IsOption(tokens[0]) && tokens[0] != "--"
    ensures SameEffect(TakeToken(cfg, tokens, carry), TakeToken(cfg, [tokens[0]], None), tokens)
  {
    if tokens[0][1] == '-' {
      FlagLong(cfg, tokens[0][2..], carry, tokens);
    } else {
      FlagCluster(cfg, tokens[0][1..], tokens);
    }
  }

  /** With a table of flags, every token means the same wherever it stands and whatever was carried, and
      no value can be missing or malformed. */
  lemma {:induction false} FlagsReadAlone(cfg: Config, tokens: seq<string>, carry: Option<string>)
    requires FlagsOnly(cfg)
    ensures Read(cfg, tokens, carry) == ReadAlone(cfg, tokens)
    ensures var outcome := Read(cfg, tokens, carry).outcome; !outcome.ValueMissing? && !outcome.NotANumber?
    decreases |tokens|
  {
    if tokens != [] {
      if !IsOption(tokens[0]) {
        FlagsReadAlone(cfg, tokens[1..], carry);
      } else if tokens[0] != "--" {
        FlagToken(cfg, tokens, carry);
        var e := TakeToken(cfg, tokens, carry);
        if e.Go? {
          FlagsReadAlone(cfg, tokens[1..], e.carry);
        }
      }
    }
  }

  /** The tokens before a double dash that are no options. */
  function NonOptions(tokens: seq<string>): seq<string> {
    if tokens == [] || tokens[0] == "--" then []
    else (if IsOption(tokens[0]) then [] else [tokens[0]]) + NonOptions(tokens[1..])
  }

  function AfterDashes(tokens: seq<string>): seq<string> {
    if tokens == [] then [] else if tokens[0] == "--" then tokens[1..] else AfterDashes(tokens[1..])
  }

  /** With a table of flags, the positional arguments of an accepted line are its non-options before a
      double dash and everything behind it. */
  lemma {:induction false} FlagPositionals(cfg: Config, tokens: seq<string>)
    requires FlagsOnly(cfg) && !cfg.stopAtNonOption && ReadAlone(cfg, tokens).outcome.Finished?
    ensures Kept(ReadAlone(cfg, tokens).actions) == NonOptions(tokens)
    ensures ReadAlone(cfg, tokens).outcome == Finished(AfterDashes(tokens))
  {
    if tokens != [] && tokens[0] != "--" {
      FlagPositionals(cfg, tokens[1..]);
      var rest := ReadAlone(cfg, tokens[1..]);
      if !IsOption(tokens[0]) {
        KeptFirst(tokens[0], rest.actions);
      } else {
        var e := TakeToken(cfg, [tokens[0]], None);
        KeptMore(e.actions, rest.actions);
        KeptMore([], e.actions);
        assert Kept(e.actions) + Kept(rest.actions) == Kept(rest.actions);
      }
    }
  }

  // ---- Values that outlive their token ----

  predicate TakesValue(opt: Opt) {
    opt.target.Some? && (opt.kind.String? || opt.kind.Integer?)
  }

  /** Reading that forgets a carried value at every token. */
  function ReadFresh(cfg: Config, tokens: seq<string>): Reading
    decreases |tokens|
  {
    if tokens == [] then Reading([], Finished([]))
    else if !IsOption(tokens[0]) then
      if cfg.stopAtNonOption then Reading([], Finished(tokens))
      else Onto([Keep(tokens[0])], ReadFresh(cfg, tokens[1..]))
    else if tokens[0] == "--" then Reading([], Finished(tokens[1..]))
    else
      match TakeToken(cfg, tokens, None)
      case Halt(actions, outcome) => Reading(actions, outcome)
      case Go(actions, _, _, tokens') => Onto(actions, ReadFresh(cfg, tokens'[1..]))
  }

  /** How a long token wants its value: it picks an option that takes one and brings none itself. */
  predicate WantsValue(cfg: Config, token: string) {
    IsOption(token) && token[1] == '-' &&
    var pick := FindLong(cfg.options, token[2..]);
    pick.Some? && pick.value.value.None? && TakesValue(pick.value.opt)
  }

  /** The value that a long token gives to an option that takes none. */
  function GivenAway(cfg: Config, token: string): Option<string> {
    if !IsOption(token) || token[1] != '-' then None
    else
      var pick := FindLong(cfg.options, token[2..]);
      if pick.Some? && !TakesValue(pick.value.opt) then pick.value.value else None
  }

  /** Whether reading the tokens reaches an option that wants a value and finds one carried. */
  predicate UsesCarried(cfg: Config, tokens: seq<string>, carry: Option<string>)
    decreases |tokens|
  {
    tokens != [] && tokens[0] != "--" &&
    if !IsOption(tokens[0]) then !cfg.stopAtNonOption && UsesCarried(cfg, tokens[1..], carry)
    else
      || (WantsValue(cfg, tokens[0]) && carry.Some?)
      || var e := TakeToken(cfg, tokens, carry); (e.Go? && UsesCarried(cfg, e.tokens[1..], e.carry))
  }

  /** Whether a value is pending behind an option token, when open tells whether one was before it: it is
      if the token gives a value away, and stays so across long options that take no value. */
  predicate OpenAfter(cfg: Config, token: string, open: bool) {
    IsOption(token) && token[1] == '-' &&
    var pick := FindLong(cfg.options, token[2..]);
    pick.Some? && !TakesValue(pick.value.opt) && (pick.value.value.Some? || open)
  }

  /** The same question answered without carrying values: every token is read on its own with what
      follows it, and only whether a value would be pending is remembered. */
  predicate Stale(cfg: Config, tokens: seq<string>, open: bool)
    decreases |tokens|
  {
    tokens != [] && tokens[0] != "--" &&
    if !IsOption(tokens[0]) then !cfg.stopAtNonOption && Stale(cfg, tokens[1..], open)
    else
      || (WantsValue(cfg, tokens[0]) && open)
      || var e := TakeToken(cfg, tokens, None);
         (e.Go? && Stale(cfg, e.tokens[1..], OpenAfter(cfg, tokens[0], open)))
  }

  /** Effects that differ at most in the value carried on. */
  predicate SameButCarry(e: Effect, e': Effect) {
    && e.actions == e'.actions
    && (e.Halt? <==> e'.Halt?)
    && (e.Halt? ==> e.outcome == e'.outcome)
    && (e.Go? ==> e.code == e'.code && e.tokens == e'.tokens)
  }

  lemma {:induction false} ValuelessOption(cfg: Config, opt: Opt, unset: bool, carry: Option<string>,
                                           tokens: seq<string>)
    requires tokens != [] && !TakesValue(opt)
    ensures SameButCarry(TakeOption(cfg, opt, unset, carry, tokens), TakeOption(cfg, opt, unset, None, tokens))
    ensures var e := TakeOption(cfg, opt, unset, carry, tokens); e.Go? ==> e.carry == carry
  {
  }

  lemma {:induction false} ValueOption(cfg: Config, opt: Opt, unset: bool, carry: Option<string>, tokens: seq<string>)
    requires tokens != [] && TakesValue(opt)
    ensures var e := TakeOption(cfg, opt, unset, carry, tokens);
            && (e.Go? ==> e.carry == None)
            && (carry.Some? ==> e.actions == [Store(opt, unset, carry.value)] && (e.Go? ==> e.tokens == tokens))
  {
  }

  /** A long token that does not take a carried value: its effect is that of the token alone, and a value
      is pending behind it exactly if OpenAfter says so. */
  lemma {:induction false} LongSame(cfg: Config, tokens: seq<string>, carry: Option<string>)
    requires tokens != [] && IsOption(tokens[0]) && tokens[0][1] == '-'
    requires !(WantsValue(cfg, tokens[0]) && carry.Some?)
    ensures var e := TakeLong(cfg, tokens[0][2..], carry, tokens);
            && SameButCarry(e, TakeLong(cfg, tokens[0][2..], None, tokens))
            && (e.Go? ==> e.carry.Some? == OpenAfter(cfg, tokens[0], carry.Some?))
            && (e.Go? && e.carry.Some? ==> e.carry == carry || e.carry == GivenAway(cfg, tokens[0]))
  {
    var pick := FindLong(cfg.options, tokens[0][2..]);
    if pick.Some? {
      var p := pick.value;
      var given := if p.value.Some? then p.value else carry;
      if TakesValue(p.opt) {
        ValueOption(cfg, p.opt, p.unset, given, tokens);
      } else {
        ValuelessOption(cfg, p.opt, p.unset, given, tokens);
        ValuelessOption(cfg, p.opt, p.unset, p.value, tokens);
      }
    }
  }

  /** The same for any option token; a cluster never looks at the carried value. */
  lemma {:induction false} TokenSame(cfg: Config, tokens: seq<string>, carry: Option<string>)
    requires tokens != [] && IsOption(tokens[0]) && tokens[0] != "--"
    requires !(WantsValue(cfg, tokens[0]) && carry.Some?)
    ensures var e := TakeToken(cfg, tokens, carry);
            && SameButCarry(e, TakeToken(cfg, tokens, None))
            && (e.Go? ==> e.carry.Some? == OpenAfter(cfg, tokens[0], carry.Some?))
            && (e.Go? && e.carry.Some? ==> e.carry == carry || e.carry == GivenAway(cfg, tokens[0]))
  {
    if tokens[0][1] == '-' {
      LongSame(cfg, tokens, carry);
    }
  }

  /** The exact condition under which some option takes a value that was given to another one. */
  lemma {:induction false} CarriedIffStale(cfg: Config, tokens: seq<string>, carry: Option<string>)
    ensures UsesCarried(cfg, tokens, carry) <==> Stale(cfg, tokens, carry.Some?)
    decreases |tokens|
  {
    if tokens != [] && tokens[0] != "--" {
      if !IsOption(tokens[0]) {
        CarriedIffStale(cfg, tokens[1..], carry);
      } else if !(WantsValue(cfg, tokens[0]) && carry.Some?) {
        TokenSame(cfg, tokens, carry);
        var e := TakeToken(cfg, tokens, carry);
        if e.Go? {
          CarriedIffStale(cfg, e.tokens[1..], e.carry);
        }
      }
    }
  }

  /** On every other line, forgetting carried values at each token reads the same. */
  lemma {:induction false} NothingCarriedOver(cfg: Config, tokens: seq<string>, carry: Option<string>)
    requires !Stale(cfg, tokens, carry.Some?)
    ensures Read(cfg, tokens, carry) == ReadFresh(cfg, tokens)
    decreases |tokens|
  {
    if tokens != [] && tokens[0] != "--" {
      if !IsOption(tokens[0]) {
        if !cfg.stopAtNonOption {
          NothingCarriedOver(cfg, tokens[1..], carry);
        }
      } else {
        TokenSame(cfg, tokens, carry);
        var e := TakeToken(cfg, tokens, carry);
        if e.Go? {
          NothingCarriedOver(cfg, e.tokens[1..], e.carry);
        }
      }
    }
  }

  /** Token j wants a value and gets the one that token i, or for i == -1 the start, gave away. */
  predicate TakesFrom(cfg: Config, tokens: seq<string>, carry: Option<string>, i: int, j: int, actions: seq<Action>) {
    && -1 <= i < j < |tokens|
    && WantsValue(cfg, tokens[j])
    && var given := if i < 0 then carry else GivenAway(cfg, tokens[i]);
       var pick := FindLong(cfg.options, tokens[j][2..]).value;
       given.Some? && Store(pick.opt, pick.unset, given.value) in actions
  }

  /** On a stale line, an option is stored with the text that an earlier token gave to an option without
      values. */
  lemma {:induction false} StaleValue(cfg: Config, tokens: seq<string>, carry: Option<string>)
    returns (i: int, j: int)
    requires Stale(cfg, tokens, carry.Some?)
    ensures TakesFrom(cfg, tokens, carry, i, j, Read(cfg, tokens, carry).actions)
    decreases |tokens|
  {
    if !IsOption(tokens[0]) {
      i, j := StaleValue(cfg, tokens[1..], carry);
      i, j := TakesFromLater(cfg, tokens, carry, 1, carry, [Keep(tokens[0])], i, j,
                             Read(cfg, tokens[1..], carry).actions);
    } else if WantsValue(cfg, tokens[0]) && carry.Some? {
      var p := FindLong(cfg.options, tokens[0][2..]).value;
      ValueOption(cfg, p.opt, p.unset, carry, tokens);
      i, j := -1, 0;
      assert Store(p.opt, p.unset, carry.value) in TakeToken(cfg, tokens, carry).actions;
    } else {
      TokenSame(cfg, tokens, carry);
      var e := TakeToken(cfg, tokens, carry);
      var k := |tokens| - |e.tokens| + 1;
      assert e.tokens[1..] == tokens[k..];
      i, j := StaleValue(cfg, tokens[k..], e.carry);
      i, j := TakesFromLater(cfg, tokens, carry, k, e.carry, e.actions, i, j, Read(cfg, tokens[k..], e.carry).actions);
    }
  }

  lemma {:induction false} TakesFromLater(cfg: Config, tokens: seq<string>, carry: Option<string>, k: nat,
                                          later: Option<string>, first: seq<Action>, i: int, j: int,
                                          actions: seq<Action>)
    returns (i': int, j': int)
    requires 0 < k <= |tokens| && TakesFrom(cfg, tokens[k..], later, i, j, actions)
    requires later.Some? ==> later == carry || later == GivenAway(cfg, tokens[0])
    ensures TakesFrom(cfg, tokens, carry, i', j', first + actions)
  {
    assert tokens[k..][j] == tokens[k + j];
    i' := if i >= 0 then k + i else if later == carry then -1 else 0;
    j' := k + j;
    if i >= 0 {
      assert tokens[k..][i] == tokens[k + i];
    }
  }

  const FLAG := Opt(Boolean, None, Some("flag"), Some(0), 0, NoCallback, false)
  const NAME := Opt(String, None, Some("name"), Some(1), 0, NoCallback, false)

  /** Reading past one long token. */
  lemma {:induction false} ReadStep(cfg: Config, line: seq<string>, carry: Option<string>, e: Effect)
    requires line != [] && IsOption(line[0]) && line[0] != "--" && line[0][1] == '-'
    requires TakeLong(cfg, line[0][2..], carry, line) == e && e.Go?
    ensures Read(cfg, line, carry) == Onto(e.actions, Read(cfg, e.tokens[1..], e.carry))
    ensures carry == None ==> ReadFresh(cfg, line) == Onto(e.actions, ReadFresh(cfg, e.tokens[1..]))
  {
  }

  lemma {:induction false} ReadOne(cfg: Config, token: string)
    requires !IsOption(token) && !cfg.stopAtNonOption
    ensures Read(cfg, [token], None) == Reading([Keep(token)], Finished([]))
  {
    assert [token][1..] == [];
    assert Read(cfg, [token], None) == Onto([Keep(token)], Read(cfg, [token][1..], None));
  }

  /** What `--name y` means with and without a carried value. */
  lemma {:induction false} NameTakes(cfg: Config, line: seq<string>, x: string, y: string)
    requires line == ["--name", y] && !IsOption(y) && !cfg.stopAtNonOption
    requires FindLong(cfg.options, "name") == Some(Pick(NAME, false, None))
    ensures Read(cfg, line, Some(x)) == Reading([Store(NAME, false, x), Keep(y)], Finished([]))
    ensures ReadFresh(cfg, line) == Reading([Store(NAME, false, y)], Finished([]))
  {
    assert line[0][2..] == "name" && line[1..] == [y] && line[1..][1..] == [];
    ReadOne(cfg, y);
    ReadStep(cfg, line, Some(x), Go([Store(NAME, false, x)], 0, None, line));
    ReadStep(cfg, line, None, Go([Store(NAME, false, y)], 0, None, line[1..]));
    assert [Store(NAME, false, x)] + [Keep(y)] == [Store(NAME, false, x), Keep(y)];
    assert [Store(NAME, false, y)] + [] == [Store(NAME, false, y)];
  }

  /** What `--flag=x` means. */
  lemma {:induction false} FlagGives(cfg: Config, line: seq<string>, rest: seq<string>)
    requires line == ["--flag=x"] + rest
    requires FindLong(cfg.options, "flag=x") == Some(Pick(FLAG, false, Some("x")))
    ensures Read(cfg, line, None) == Onto([Store(FLAG, false, "")], Read(cfg, rest, Some("x")))
    ensures ReadFresh(cfg, line) == Onto([Store(FLAG, false, "")], ReadFresh(cfg, rest))
  {
    assert line[0][2..] == "flag=x" && line[1..] == rest;
    ReadStep(cfg, line, None, Go([Store(FLAG, false, "")], 0, Some("x"), line));
  }

  /** A stale line: the name becomes x, and y a positional argument. */
  lemma {:induction false} StaleLine(cfg: Config, line: seq<string>)
    requires cfg.options == [FLAG, NAME] && !cfg.stopAtNonOption && line == ["--flag=x", "--name", "y"]
    ensures Stale(cfg, line, false)
    ensures Read(cfg, line, None) ==
            Reading([Store(FLAG, false, ""), Store(NAME, false, "x"), Keep("y")], Finished([]))
    ensures ReadFresh(cfg, line) == Reading([Store(FLAG, false, ""), Store(NAME, false, "y")], Finished([]))
  {
    var rest := line[1..];
    assert rest == ["--name", "y"] && line == ["--flag=x"] + rest;
    StalePicks(cfg);
    FlagGives(cfg, line, rest);
    NameTakes(cfg, rest, "x", "y");
    Joined(Store(FLAG, false, ""), Store(NAME, false, "x"), Keep("y"));
    Joined(Store(FLAG, false, ""), Store(NAME, false, "y"), Keep("y"));
    DifferentIsStale(cfg, line);
  }

  lemma {:induction false} Joined(a: Action, b: Action, c: Action)
    ensures [a] + [b] == [a, b] && [a] + [b, c] == [a, b, c]
  {
  }

  lemma {:induction false} DifferentIsStale(cfg: Config, tokens: seq<string>)
    ensures |Read(cfg, tokens, None).actions| != |ReadFresh(cfg, tokens).actions| ==> Stale(cfg, tokens, false)
  {
    if !Stale(cfg, tokens, false) {
      NothingCarriedOver(cfg, tokens, None);
    }
  }

  lemma {:induction false} StalePicks(cfg: Config)
    requires cfg.options == [FLAG, NAME]
    ensures FindLong(cfg.options, "flag=x") == Some(Pick(FLAG, false, Some("x")))
    ensures FindLong(cfg.options, "name") == Some(Pick(NAME, false, None))
  {
    assert "flag=x"[4..] == "=x" && "=x"[1..] == "x";
    assert "name"[4..] == "";
    assert cfg.options[1..] == [NAME];
    assert TryLong(FLAG, "name").None? by {
      assert "flag"[0] != "name"[0];
      assert "no-"[1] != "name"[1];
    }
    assert TryLong(NAME, "name") == Some(Pick(NAME, false, None));
  }
}
