/** What survives a trip through the bridge. */
module BridgeProperties {
  import opened Options
  import opened Texts
  import opened JsValues
  import opened ErlTerms
  import opened BridgeSpec

  // ---- Normal form of one round trip ----

  /** Values that reach Erlang as iolists: strings, and arrays made of nothing but such values. */
  predicate Collapses(v: Js) {
    match v
    case Str(_) => true
    case Arr(elems, _) => forall i :: 0 <= i < |elems| ==> Collapses(elems[i])
    case Obj(props) => props == []
    case Fun(_, props) => props == []
    case _ => false
  }

  /** All the text inside a collapsing value, in order. */
  function Flatten(v: Js): Text
    requires Collapses(v)
    decreases v, 1
  {
    match v
    case Str(s) => CStr(s)
    case Arr(elems, _) => FlattenAll(elems)
    case _ => []
  }

  function FlattenAll(elems: seq<Js>): Text
    requires forall i :: 0 <= i < |elems| ==> Collapses(elems[i])
    decreases elems, 0
  {
    if elems == [] then [] else Flatten(elems[0]) + FlattenAll(elems[1..])
  }

  /** The value that comes back when v is sent to Erlang and pushed again. */
  function Norm(v: Js): Js
    decreases v, 1
  {
    match v
    case Undefined => Str("undefined")
    case Null => Str("null")
    case Bool(b) => Str(if b then "true" else "false")
    case Num(_) => v
    case Str(s) => Str(CStr(s))
    case Arr(elems, _) => if Collapses(v) then Str(Flatten(v)) else Arr(NormAll(elems), [])
    case Obj(props) => NormObject(props)
    case Fun(_, props) => NormObject(props)
    case Opaque => Str("undefined")
  }

  function NormAll(elems: seq<Js>): (r: seq<Js>)
    ensures |r| == |elems|
    ensures forall i :: 0 <= i < |elems| ==> r[i] == Norm(elems[i])
    decreases elems, 0
  {
    if elems == [] then [] else [Norm(elems[0])] + NormAll(elems[1..])
  }

  function NormObject(props: seq<Prop>): Js
    decreases props, 1
  {
    if props == [] then Str([]) else Arr(NormProps(props), [])
  }

  function NormProps(props: seq<Prop>): (r: seq<Js>)
    ensures |r| == |props|
    ensures forall j {:trigger r[j]} :: 0 <= j < |props| ==> r[j] == NormProp(props[|props| - 1 - j])
    decreases props, 0
  {
    if props == [] then []
    else [NormProp(props[|props| - 1])] + NormProps(props[..|props| - 1])
  }

  function NormProp(p: Prop): Js
    decreases p, 2
  {
    Arr([Str(CStr(p.key)), Norm(p.val)], [])
  }

  lemma {:induction false} StringIsIodata(s: Text)
    ensures IsIodata(MkString(s)) && IoText(MkString(s)) == s
  {
    if s != [] {
      StringIsIodata(s[1..]);
    }
  }

  /** A non-empty list of pairs is neither an iolist nor object-alike: its keys are charlists. */
  lemma {:induction false} PropsNotEntries(props: seq<Prop>)
    requires props != []
    ensures !AllEntries(PropsToErl(props)) && !IsIodata(PropsToErl(props))
  {
    assert !MkString(CStr(props[|props| - 1].key)).Atom?;
  }

  lemma {:induction false} CollapseIsIodata(v: Js)
    ensures IsIodata(ToErl(v)) <==> Collapses(v)
    ensures Collapses(v) ==> IoText(ToErl(v)) == Flatten(v) && NulFree(Flatten(v))
    decreases v, 1
  {
    match v
    case Str(s) => StringIsIodata(CStr(s));
    case Arr(elems, _) => CollapseAllIsIodata(elems);
    case Obj(props) => if props != [] { PropsNotEntries(props); }
    case Fun(_, props) => if props != [] { PropsNotEntries(props); }
    case _ =>
  }

  lemma {:induction false} CollapseAllIsIodata(elems: seq<Js>)
    ensures IsIodata(ElemsToErl(elems)) <==> forall i :: 0 <= i < |elems| ==> Collapses(elems[i])
    ensures IsIodata(ElemsToErl(elems)) ==>
              IoText(ElemsToErl(elems)) == FlattenAll(elems) && NulFree(FlattenAll(elems))
    decreases elems, 0
  {
    if elems != [] {
      CollapseIsIodata(elems[0]);
      CollapseAllIsIodata(elems[1..]);
      assert forall i :: 1 <= i < |elems| ==> elems[i] == elems[1..][i - 1];
    }
  }

  /** One round trip gives exactly Norm(v); the trip never aborts and never leaves supported ground. */
  lemma {:induction false} RoundTripIsNorm(v: Js)
    ensures Supported(ToErl(v))
    ensures ToJs(ToErl(v)) == Some(Norm(v))
    decreases v, 1
  {
    if IsNamed(v) {
      RoundTripNamed(v);
    } else if v.Arr? {
      RoundTripArray(v);
    } else if v.Obj? || v.Fun? {
      RoundTripObject(v.props);
    } else if v.Str? {
      StringIsIodata(CStr(v.s));
    }
  }

  predicate IsNamed(v: Js) {
    v.Undefined? || v.Null? || v.Bool? || v.Opaque?
  }

  lemma {:induction false} RoundTripNamed(v: Js)
    requires IsNamed(v)
    ensures Supported(ToErl(v))
    ensures ToJs(ToErl(v)) == Some(Norm(v))
  {
    assert NulFree("undefined") && NulFree("null") && NulFree("true") && NulFree("false");
  }

  lemma {:induction false} RoundTripArray(v: Js)
    requires v.Arr?
    ensures Supported(ToErl(v))
    ensures ToJs(ToErl(v)) == Some(Norm(v))
    decreases v, 0
  {
    CollapseIsIodata(v);
    if !Collapses(v) {
      RoundTripElems(v.elems);
    }
  }

  lemma {:induction false} RoundTripObject(props: seq<Prop>)
    ensures Supported(PropsToErl(props))
    ensures ToJs(PropsToErl(props)) == Some(NormObject(props))
    decreases props, 1
  {
    RoundTripProps(props);
    if props != [] {
      PropsNotEntries(props);
    }
  }

  lemma {:induction false} RoundTripElems(elems: seq<Js>)
    ensures SupportedCells(ElemsToErl(elems))
    ensures ListToJs(ElemsToErl(elems)) == Some(NormAll(elems))
    decreases elems, 0
  {
    if elems != [] {
      RoundTripIsNorm(elems[0]);
      RoundTripElems(elems[1..]);
    }
  }

  lemma {:induction false} RoundTripProps(props: seq<Prop>)
    ensures SupportedCells(PropsToErl(props))
    ensures ListToJs(PropsToErl(props)) == Some(NormProps(props))
    decreases props, 0
  {
    if props != [] {
      RoundTripPair(props[|props| - 1]);
      RoundTripProps(props[..|props| - 1]);
    }
  }

  lemma {:induction false} TupleOfTwo(a: Term, b: Term)
    ensures TupleToJs([a, b]) == Prepend(ToJs(a), Prepend(ToJs(b), Some([])))
    ensures Supported(Tuple([a, b])) <==> Supported(a) && Supported(b)
  {
    assert [a, b][1..] == [b] && [b][1..] == [];
    assert TupleToJs([b]) == Prepend(ToJs(b), TupleToJs([b][1..]));
    assert a in [a, b] && b in [a, b];
  }

  lemma {:induction false} RoundTripPair(p: Prop)
    ensures Supported(PairToErl(p))
    ensures ToJs(PairToErl(p)) == Some(NormProp(p))
    decreases p, 0
  {
    var key, val := MkString(CStr(p.key)), ToErl(p.val);
    StringIsIodata(CStr(p.key));
    RoundTripIsNorm(p.val);
    assert ToJs(key) == Some(Str(CStr(p.key)));
    TupleOfTwo(key, val);
    assert ToJs(Tuple([key, val])) == AsArray(TupleToJs([key, val]));
    assert [Str(CStr(p.key))] + ([Norm(p.val)] + []) == [Str(CStr(p.key)), Norm(p.val)];
  }

  /** No list that comes out of a JavaScript value and is no iolist looks like an object, so that the
      object-alike branch of the way back is never taken. */
  lemma {:induction false} SentListsAreNotObjectAlike(v: Js)
    ensures ToErl(v).Cons? && !IsIodata(ToErl(v)) ==> !ObjectAlike(ToErl(v))
  {
    match v
    case Str(s) => StringIsIodata(CStr(s));
    case Arr(elems, _) => if elems != [] { assert !ToErl(elems[0]).Tuple?; }
    case Obj(props) => if props != [] { PropsNotEntries(props); }
    case Fun(_, props) => if props != [] { PropsNotEntries(props); }
    case _ =>
  }

  // ---- Positions ----

  /** The n-th cell of a list. */
  function Nth(t: Term, n: nat): Option<Term> {
    if !t.Cons? then None else if n == 0 then Some(t.hd) else Nth(t.tl, n - 1)
  }

  /** Array elements keep their index. */
  lemma {:induction false} ElementAt(elems: seq<Js>, i: nat)
    ensures Nth(ElemsToErl(elems), i) == if i < |elems| then Some(ToErl(elems[i])) else None
  {
    if elems != [] && i > 0 {
      ElementAt(elems[1..], i - 1);
    }
  }

  /** Properties appear in the reverse of their enumeration order. */
  lemma {:induction false} PropertyAt(props: seq<Prop>, i: nat)
    ensures Nth(PropsToErl(props), i) == if i < |props| then Some(PairToErl(props[|props| - 1 - i])) else None
  {
    if props != [] && i > 0 {
      PropertyAt(props[..|props| - 1], i - 1);
    }
  }

  // ---- Fixed points ----

  predicate ContainsNum(v: Js) {
    match v
    case Num(_) => true
    case Arr(elems, _) => exists i :: 0 <= i < |elems| && ContainsNum(elems[i])
    case Obj(props) => exists i :: 0 <= i < |props| && ContainsNum(props[i].val)
    case Fun(_, props) => exists i :: 0 <= i < |props| && ContainsNum(props[i].val)
    case _ => false
  }

  /** Values with strings and numbers as only leaves and no named properties. */
  predicate Plain(v: Js) {
    match v
    case Num(_) => true
    case Str(s) => NulFree(s)
    case Arr(elems, props) => props == [] && forall i :: 0 <= i < |elems| ==> Plain(elems[i])
    case _ => false
  }

  /** Numbers, C strings, and plain arrays in which every array holds a number at some depth. */
  predicate Canonical(v: Js) {
    match v
    case Num(_) => true
    case Str(s) => NulFree(s)
    case Arr(elems, props) =>
      props == [] && ContainsNum(v) && forall i :: 0 <= i < |elems| ==> Canonical(elems[i])
    case _ => false
  }

  lemma {:induction false} NumNeverCollapses(v: Js)
    requires ContainsNum(v)
    ensures !Collapses(v)
  {
    if v.Arr? {
      var i :| 0 <= i < |v.elems| && ContainsNum(v.elems[i]);
      NumNeverCollapses(v.elems[i]);
    }
  }

  lemma {:induction false} PlainWithoutNumCollapses(v: Js)
    requires Plain(v) && !ContainsNum(v)
    ensures Collapses(v)
  {
    if v.Arr? {
      forall i | 0 <= i < |v.elems| ensures Collapses(v.elems[i]) {
        PlainWithoutNumCollapses(v.elems[i]);
      }
    }
  }

  lemma {:induction false} CanonicalIsPlain(v: Js)
    requires Canonical(v)
    ensures Plain(v)
  {
    if v.Arr? {
      forall i | 0 <= i < |v.elems| ensures Plain(v.elems[i]) {
        CanonicalIsPlain(v.elems[i]);
      }
    }
  }

  lemma {:induction false} CanonicalIsFixed(v: Js)
    requires Canonical(v)
    ensures Norm(v) == v
  {
    if v.Arr? {
      NumNeverCollapses(v);
      forall i | 0 <= i < |v.elems| ensures Norm(v.elems[i]) == v.elems[i] {
        CanonicalIsFixed(v.elems[i]);
      }
      assert NormAll(v.elems) == v.elems;
    }
  }

  lemma {:induction false} FixedIsCanonical(v: Js)
    requires Norm(v) == v
    ensures Canonical(v)
  {
    if v.Arr? {
      forall i | 0 <= i < |v.elems| ensures Canonical(v.elems[i]) {
        assert NormAll(v.elems)[i] == Norm(v.elems[i]);
        FixedIsCanonical(v.elems[i]);
      }
      var i :| 0 <= i < |v.elems| && !Collapses(v.elems[i]);
      if !ContainsNum(v.elems[i]) {
        CanonicalIsPlain(v.elems[i]);
        PlainWithoutNumCollapses(v.elems[i]);
      }
    }
  }

  /** The values that a round trip gives back unchanged are exactly the canonical ones. */
  lemma {:induction false} FixedPoints(v: Js)
    ensures ToJs(ToErl(v)) == Some(v) <==> Canonical(v)
  {
    RoundTripIsNorm(v);
    if Canonical(v) {
      CanonicalIsFixed(v);
    }
    if Norm(v) == v {
      FixedIsCanonical(v);
    }
  }

  // ---- Iterating the trip ----

  /** Whether a single trip already reaches a fixed point: every array that does not collapse to a
      string, and every property of every object, holds a number at some depth. */
  predicate SettlesAtOnce(v: Js) {
    match v
    case Arr(elems, _) =>
      Collapses(v) || (ContainsNum(v) && forall i :: 0 <= i < |elems| ==> SettlesAtOnce(elems[i]))
    case Obj(props) => SettlingProps(props)
    case Fun(_, props) => SettlingProps(props)
    case _ => true
  }

  predicate SettlingProps(props: seq<Prop>) {
    forall i :: 0 <= i < |props| ==> ContainsNum(props[i].val) && SettlesAtOnce(props[i].val)
  }

  /** A trip leaves a plain value, and neither loses nor invents numbers. */
  lemma {:induction false} NormKeepsNums(v: Js)
    ensures Plain(Norm(v))
    ensures ContainsNum(Norm(v)) <==> ContainsNum(v)
    decreases v
  {
    match v
    case Arr(elems, _) =>
      if Collapses(v) {
        CollapseIsIodata(v);
        if ContainsNum(v) { NumNeverCollapses(v); }
      } else {
        forall i | 0 <= i < |elems|
          ensures Plain(NormAll(elems)[i]) && (ContainsNum(NormAll(elems)[i]) <==> ContainsNum(elems[i]))
        {
          NormKeepsNums(elems[i]);
        }
      }
    case Obj(props) => NormKeepsNumsInProps(props);
    case Fun(_, props) => NormKeepsNumsInProps(props);
    case _ =>
  }

  lemma {:induction false} NormKeepsNumsInProps(props: seq<Prop>)
    ensures Plain(NormObject(props))
    ensures ContainsNum(NormObject(props)) <==> exists i :: 0 <= i < |props| && ContainsNum(props[i].val)
    decreases props
  {
    var r, n := NormProps(props), |props|;
    forall j | 0 <= j < n ensures Plain(r[j]) && (ContainsNum(r[j]) <==> ContainsNum(props[n - 1 - j].val)) {
      NormKeepsNums(props[n - 1 - j].val);
      PairHolds(props[n - 1 - j]);
    }
    forall i | 0 <= i < n && ContainsNum(props[i].val) ensures ContainsNum(NormObject(props)) {
      assert ContainsNum(r[n - 1 - i]);
    }
  }

  lemma {:induction false} PairHolds(p: Prop)
    ensures Plain(NormProp(p)) <==> Plain(Norm(p.val))
    ensures ContainsNum(NormProp(p)) <==> ContainsNum(Norm(p.val))
    ensures Canonical(NormProp(p)) <==> Canonical(Norm(p.val)) && ContainsNum(Norm(p.val))
  {
    var pair := NormProp(p).elems;
    assert |pair| == 2 && pair[0] == Str(CStr(p.key)) && pair[1] == Norm(p.val);
  }

  lemma {:induction false} SettlesIsCanonical(v: Js)
    ensures Canonical(Norm(v)) <==> SettlesAtOnce(v)
    decreases v
  {
    NormKeepsNums(v);
    match v
    case Arr(elems, _) =>
      if !Collapses(v) {
        forall i | 0 <= i < |elems|
          ensures Canonical(NormAll(elems)[i]) <==> SettlesAtOnce(elems[i])
        {
          SettlesIsCanonical(elems[i]);
        }
      } else {
        CollapseIsIodata(v);
      }
    case Obj(props) => SettlesInProps(props);
    case Fun(_, props) => SettlesInProps(props);
    case _ =>
  }

  lemma {:induction false} SettlesInProps(props: seq<Prop>)
    ensures Canonical(NormObject(props)) <==> SettlingProps(props)
    decreases props, 1
  {
    NormKeepsNumsInProps(props);
    AllSettle(props);
    if props != [] && SettlingProps(props) {
      assert ContainsNum(props[0].val);
    }
  }

  predicate AllCanonical(elems: seq<Js>) {
    forall i :: 0 <= i < |elems| ==> Canonical(elems[i])
  }

  lemma {:induction false} AllSettle(props: seq<Prop>)
    ensures AllCanonical(NormProps(props)) <==> SettlingProps(props)
    decreases props, 0
  {
    if props != [] {
      var last, before := props[|props| - 1], props[..|props| - 1];
      NormKeepsNums(last.val);
      PairHolds(last);
      SettlesIsCanonical(last.val);
      AllSettle(before);
      CanonicalSplits(NormProp(last), NormProps(before));
      SettlingSplits(props);
    }
  }

  lemma {:induction false} CanonicalSplits(first: Js, rest: seq<Js>)
    ensures AllCanonical([first] + rest) <==> Canonical(first) && AllCanonical(rest)
  {
    if AllCanonical([first] + rest) {
      assert Canonical(([first] + rest)[0]);
      forall i | 0 <= i < |rest| ensures Canonical(rest[i]) {
        assert rest[i] == ([first] + rest)[i + 1];
      }
    }
  }

  lemma {:induction false} SettlingSplits(props: seq<Prop>)
    requires props != []
    ensures var last := props[|props| - 1].val;
            SettlingProps(props) <==> ContainsNum(last) && SettlesAtOnce(last) && SettlingProps(props[..|props| - 1])
  {
    var before := props[..|props| - 1];
    if SettlingProps(props) {
      forall i | 0 <= i < |before| ensures ContainsNum(before[i].val) && SettlesAtOnce(before[i].val) {
        assert before[i] == props[i];
      }
    }
    if SettlingProps(before) {
      forall i | 0 <= i < |before| ensures ContainsNum(props[i].val) && SettlesAtOnce(props[i].val) {
        assert before[i] == props[i];
      }
    }
  }

  /** Two trips reach a fixed point from anywhere. */
  lemma {:induction false} ThirdTripChangesNothing(v: Js)
    ensures Norm(Norm(Norm(v))) == Norm(Norm(v))
  {
    NormKeepsNums(v);
    PlainSettles(Norm(v));
    SettlesIsCanonical(Norm(v));
    CanonicalIsFixed(Norm(Norm(v)));
  }

  lemma {:induction false} PlainSettles(v: Js)
    requires Plain(v)
    ensures SettlesAtOnce(v)
  {
    if v.Arr? && !Collapses(v) {
      if !ContainsNum(v) { PlainWithoutNumCollapses(v); }
      forall i | 0 <= i < |v.elems| ensures SettlesAtOnce(v.elems[i]) {
        PlainSettles(v.elems[i]);
      }
    }
  }

  /** One trip suffices exactly for the values of SettlesAtOnce. */
  lemma {:induction false} OneTripSuffices(v: Js)
    ensures Norm(Norm(v)) == Norm(v) <==> SettlesAtOnce(v)
  {
    SettlesIsCanonical(v);
    if Canonical(Norm(v)) {
      CanonicalIsFixed(Norm(v));
    }
    if Norm(Norm(v)) == Norm(v) {
      FixedIsCanonical(Norm(v));
    }
  }

  /** The array [true] needs both trips. */
  lemma {:induction false} OneTripIsNotEnough()
    ensures var v := Arr([Bool(true)], []);
            && Norm(v) == Arr([Str("true")], [])
            && Norm(Norm(v)) == Str("true")
  {
    var v, w := Arr([Bool(true)], []), Arr([Str("true")], []);
    assert !Collapses(v.elems[0]);
    assert NormAll(v.elems) == w.elems;
    assert NulFree("true");
    SingletonCollapses("true");
  }

  lemma {:induction false} SingletonCollapses(s: Text)
    requires NulFree(s)
    ensures Norm(Arr([Str(s)], [])) == Str(s)
  {
    var elems: seq<Js> := [Str(s)];
    assert elems[1..] == [];
    assert FlattenAll(elems) == Flatten(elems[0]) + FlattenAll(elems[1..]);
    assert Flatten(elems[0]) + [] == s;
    assert Collapses(elems[0]) && Collapses(Arr(elems, []));
  }

  // ---- The other direction: terms that come back ----

  /** Flat charlists without NUL. */
  predicate IsCharlist(t: Term) {
    t.Nil? || (t.Cons? && IsByte(t.hd) && t.hd.i != 0 && IsCharlist(t.tl))
  }

  predicate CanonicalCells(t: Term)
    decreases t, 0
  {
    t.Nil? || (t.Cons? && CanonicalTerm(t.hd) && CanonicalCells(t.tl))
  }

  /** Floats, flat charlists, and proper lists of such terms that are not iolists. */
  predicate CanonicalTerm(t: Term)
    decreases t, 1
  {
    t.Float? || IsCharlist(t) || (t.Cons? && !IsIodata(t) && CanonicalCells(t))
  }

  /** Pushing t and reading it back gives t. */
  predicate ComesBack(t: Term) {
    ToJs(t).Some? && ToErl(ToJs(t).value) == t
  }

  lemma {:induction false} CharlistIsString(t: Term)
    requires IsCharlist(t)
    ensures IsIodata(t) && NulFree(IoText(t)) && MkString(IoText(t)) == t
  {
    if t.Cons? {
      CharlistIsString(t.tl);
    }
  }

  lemma {:induction false} StringIsCharlist(s: Text)
    requires NulFree(s)
    ensures IsCharlist(MkString(s))
  {
    if s != [] {
      StringIsCharlist(s[1..]);
    }
  }

  lemma {:induction false} CellsAreProper(t: Term)
    requires CanonicalCells(t)
    ensures Proper(t) && (t.Cons? ==> !AllEntries(t))
  {
    if t.Cons? {
      CellsAreProper(t.tl);
    }
  }

  lemma {:induction false} CanonicalComesBack(t: Term)
    requires CanonicalTerm(t)
    ensures ComesBack(t)
    decreases t, 1
  {
    if IsCharlist(t) {
      CharlistIsString(t);
    } else if t.Cons? {
      CellsAreProper(t);
      CellsComeBack(t);
    }
  }

  lemma {:induction false} CellsComeBack(t: Term)
    requires CanonicalCells(t) && Proper(t)
    ensures ListToJs(t).Some? && ElemsToErl(ListToJs(t).value) == t
    decreases t, 0
  {
    if t.Cons? {
      CanonicalComesBack(t.hd);
      CellsComeBack(t.tl);
      var head, rest := ToJs(t.hd).value, ListToJs(t.tl).value;
      assert ([head] + rest)[1..] == rest;
    }
  }

  lemma {:induction false} ComingBackIsCanonical(t: Term)
    requires ComesBack(t)
    ensures CanonicalTerm(t)
    decreases t, 1
  {
    if t.IsList() {
      if IsIodata(t) {
        StringIsCharlist(CStr(IoText(t)));
      } else {
        assert Proper(t);
        assert ElemsToErl([]) == Nil;
        assert !AllEntries(t);
        CellsBackAreCanonical(t);
      }
    }
  }

  lemma {:induction false} CellsBackAreCanonical(t: Term)
    requires Proper(t) && ListToJs(t).Some? && ElemsToErl(ListToJs(t).value) == t
    ensures CanonicalCells(t)
    decreases t, 0
  {
    if t.Cons? {
      var head, rest := ToJs(t.hd).value, ListToJs(t.tl).value;
      assert ([head] + rest)[1..] == rest;
      ComingBackIsCanonical(t.hd);
      CellsBackAreCanonical(t.tl);
    }
  }

  /** The terms that a round trip gives back unchanged are exactly the canonical ones. */
  lemma {:induction false} TermFixedPoints(t: Term)
    ensures ComesBack(t) <==> CanonicalTerm(t)
  {
    if CanonicalTerm(t) {
      CanonicalComesBack(t);
    }
    if ComesBack(t) {
      ComingBackIsCanonical(t);
    }
  }

  /** Reading and pushing are mutually inverse bijections between canonical values and terms. */
  lemma {:induction false} CanonicalBijection(v: Js, t: Term)
    ensures Canonical(v) && t == ToErl(v) <==> CanonicalTerm(t) && ToJs(t) == Some(v)
  {
    FixedPoints(v);
    TermFixedPoints(t);
    if Canonical(v) && t == ToErl(v) {
      CanonicalIsFixed(v);
      RoundTripIsNorm(v);
    }
  }

  // ---- Object-alike lists ----

  /** The entries of an object-alike list, in order, as keys and values. */
  function EntryAssignments(t: Term): Option<seq<Prop>>
    requires Proper(t) && AllEntries(t)
  {
    if t.Nil? then Some([])
    else
      var val, rest := ToJs(t.hd.elems[1]), EntryAssignments(t.tl);
      if val.Some? && rest.Some? then Some([Prop(CStr(t.hd.elems[0].name), val.value)] + rest.value)
      else None
  }

  /** The value of the last assignment to key. */
  function LastValue(writes: seq<Prop>, key: Text): Option<Js> {
    if writes == [] then None
    else if writes[|writes| - 1].key == key then Some(writes[|writes| - 1].val)
    else LastValue(writes[..|writes| - 1], key)
  }

  lemma {:induction false} LookupAfterAssign(props: seq<Prop>, key: Text, val: Js, k: Text)
    ensures Lookup(Assign(props, key, val), k) == if k == key then Some(val) else Lookup(props, k)
  {
    if props != [] && props[0].key != key {
      LookupAfterAssign(props[1..], key, val, k);
    }
  }

  lemma {:induction false} LastOfCons(p: Prop, writes: seq<Prop>, k: Text)
    ensures LastValue([p] + writes, k) ==
            if LastValue(writes, k).Some? then LastValue(writes, k)
            else if p.key == k then Some(p.val) else None
  {
    var all := [p] + writes;
    if writes != [] {
      assert all[..|all| - 1] == [p] + writes[..|writes| - 1];
      LastOfCons(p, writes[..|writes| - 1], k);
    } else {
      assert all[..0] == [];
    }
  }

  /** A later entry overrides an earlier one with the same key, and no other key appears. */
  lemma {:induction false} EntriesOverride(t: Term, acc: seq<Prop>, k: Text)
    requires Proper(t) && AllEntries(t)
    ensures EntriesToJs(t, acc).Some? <==> EntryAssignments(t).Some?
    ensures EntriesToJs(t, acc).Some? ==>
              var last := LastValue(EntryAssignments(t).value, k);
              Lookup(EntriesToJs(t, acc).value, k) == if last.Some? then last else Lookup(acc, k)
  {
    if t.Cons? {
      var key, val := CStr(t.hd.elems[0].name), ToJs(t.hd.elems[1]);
      if val.Some? {
        EntriesOverride(t.tl, Assign(acc, key, val.value), k);
        LookupAfterAssign(acc, key, val.value, k);
        if EntryAssignments(t.tl).Some? {
          LastOfCons(Prop(key, val.value), EntryAssignments(t.tl).value, k);
        }
      }
    }
  }

  /** A non-empty object-alike list that is no iolist arrives as an empty array carrying the entries
      as named properties; sending that array back yields the empty list. */
  lemma {:induction false} ObjectAlikeIsLost(t: Term, k: Text)
    requires t.Cons? && ObjectAlike(t) && !IsIodata(t) && ToJs(t).Some?
    ensures ToJs(t).value.Arr? && ToJs(t).value.elems == []
    ensures Proper(t) ==> EntryAssignments(t).Some? &&
                          Lookup(ToJs(t).value.props, k) == LastValue(EntryAssignments(t).value, k)
    ensures ToErl(ToJs(t).value) == Nil
  {
    if Proper(t) {
      EntriesOverride(t, [], k);
    }
  }

  // ---- Normal form of a term ----

  /** Every element is a pair that starts with an atom. */
  predicate KeywordList(elems: seq<Term>) {
    forall i :: 0 <= i < |elems| ==> elems[i].Tuple? && |elems[i].elems| == 2 && elems[i].elems[0].Atom?
  }

  /** The term that comes back when t is pushed and sent to Erlang again. */
  function TermNorm(t: Term): Term
    decreases t, 1
  {
    match t
    case Int(i) => Float(i as real)
    case UInt(u) => Float((if u < 0x8000_0000 then u else u - 0x1_0000_0000) as real)
    case Float(_) => t
    case Atom(name) => MkString(CStr(name))
    case Tuple(elems) => TermNormAll(elems)
    case Binary(bytes) => MkString(CStr(bytes))
    case Nil => Nil
    case Cons(_, _) =>
      if IsIodata(t) then MkString(CStr(IoText(t)))
      else if !Proper(t) || KeywordList(Heads(t)) then Nil
      else TermNormCells(t)
    case Other => Other
  }

  function TermNormAll(elems: seq<Term>): Term
    decreases elems, 0
  {
    if elems == [] then Nil else Cons(TermNorm(elems[0]), TermNormAll(elems[1..]))
  }

  function TermNormCells(t: Term): Term
    requires Proper(t)
    decreases t, 0
  {
    if t.Nil? then Nil else Cons(TermNorm(t.hd), TermNormCells(t.tl))
  }

  lemma {:induction false} EntriesElements(t: Term)
    ensures AllEntries(t) <==> KeywordList(Heads(t))
  {
    if t.Cons? {
      EntriesElements(t.tl);
      assert Heads(t) == [t.hd] + Heads(t.tl);
      if KeywordList(Heads(t)) {
        assert Heads(t)[0] == t.hd;
        assert forall i :: 0 <= i < |Heads(t.tl)| ==> Heads(t.tl)[i] == Heads(t)[i + 1];
      }
    }
  }

  /** What is object-alike, element by element. */
  lemma {:induction false} ObjectAlikeElements(t: Term)
    requires t.IsList()
    ensures ObjectAlike(t) <==> !Proper(t) || KeywordList(Heads(t))
  {
    EntriesElements(t);
  }

  /** A term that can be pushed comes back as its normal form. */
  lemma {:induction false} TermRoundTrip(t: Term)
    requires ToJs(t).Some?
    ensures ToErl(ToJs(t).value) == TermNorm(t)
    decreases t, 1
  {
    match t
    case Tuple(elems) => TermRoundTripAll(elems);
    case Cons(_, _) =>
      EntriesElements(t);
      if !IsIodata(t) && Proper(t) && !AllEntries(t) {
        TermRoundTripCells(t);
      }
    case _ =>
  }

  lemma {:induction false} TermRoundTripAll(elems: seq<Term>)
    requires TupleToJs(elems).Some?
    ensures ElemsToErl(TupleToJs(elems).value) == TermNormAll(elems)
    decreases elems, 0
  {
    if elems != [] {
      TermRoundTrip(elems[0]);
      TermRoundTripAll(elems[1..]);
    }
  }

  lemma {:induction false} TermRoundTripCells(t: Term)
    requires Proper(t) && ListToJs(t).Some?
    ensures ElemsToErl(ListToJs(t).value) == TermNormCells(t)
    decreases t, 0
  {
    if t.Cons? {
      TermRoundTrip(t.hd);
      TermRoundTripCells(t.tl);
    }
  }
}
