/** What the term bridge of src/duk_erlang.c computes, as functions on whole values. */
module BridgeSpec {
  import opened Options
  import opened Texts
  import opened JsValues
  import opened ErlTerms

  // ---- JavaScript value to Erlang term ----

  function ToErl(v: Js): Term
    decreases v, 1
  {
    match v
    case Undefined => Atom("undefined")
    case Null => Atom("null")
    case Bool(b) => if b then Atom("true") else Atom("false")
    case Num(n) => Float(n)
    case Str(s) => MkString(CStr(s))
    case Arr(elems, _) => ElemsToErl(elems)
    case Obj(props) => PropsToErl(props)
    case Fun(_, props) => PropsToErl(props)
    case Opaque => Atom("undefined")
  }

  /** Array elements become a list in index order. */
  function ElemsToErl(elems: seq<Js>): (t: Term)
    ensures Proper(t)
    decreases elems, 0
  {
    if elems == [] then Nil else Cons(ToErl(elems[0]), ElemsToErl(elems[1..]))
  }

  function PairToErl(p: Prop): Term
    decreases p, 2
  {
    Tuple([MkString(CStr(p.key)), ToErl(p.val)])
  }

  /** Properties become a list of pairs, last enumerated first. */
  function PropsToErl(props: seq<Prop>): (t: Term)
    ensures Proper(t)
    decreases props, 0
  {
    if props == [] then Nil
    else Cons(PairToErl(props[|props| - 1]), PropsToErl(props[..|props| - 1]))
  }

  // ---- Erlang term to JavaScript value ----

  predicate IsEntry(t: Term) {
    t.Tuple? && |t.elems| == 2 && t.elems[0].Atom?
  }

  /** Every cell of the list, up to its tail, holds a 2-tuple with an atom in front. */
  predicate AllEntries(t: Term) {
    t.Cons? ==> IsEntry(t.hd) && AllEntries(t.tl)
  }

  /** The reading of duk_erlang_is_object_alike: erl_length is -1 on an improper list, so that no
      element is inspected. */
  predicate ObjectAlike(t: Term) {
    t.IsList() && (Proper(t) ==> AllEntries(t))
  }

  /** The value a term is pushed as; None when some part of it has an unsupported type, on which
      the program aborts. */
  function ToJs(t: Term): Option<Js>
    decreases t, 1
  {
    match t
    case Int(i) => Some(Num(i as real))
    case UInt(u) => Some(Num(AsSigned(u) as real))
    case Float(f) => Some(Num(f))
    case Atom(name) => Some(Str(CStr(name)))
    case Tuple(elems) => AsArray(TupleToJs(elems))
    case Binary(bytes) => Some(Str(bytes))
    case Nil => Some(Str([]))
    case Cons(_, _) =>
      if IsIodata(t) then Some(Str(IoText(t)))
      else if !Proper(t) then Some(Arr([], []))
      else if AllEntries(t) then AsKeyed(EntriesToJs(t, []))
      else AsArray(ListToJs(t))
    case Other => None
  }

  function AsArray(elems: Option<seq<Js>>): Option<Js> {
    if elems.Some? then Some(Arr(elems.value, [])) else None
  }

  function AsKeyed(props: Option<seq<Prop>>): Option<Js> {
    if props.Some? then Some(Arr([], props.value)) else None
  }

  function Prepend(first: Option<Js>, rest: Option<seq<Js>>): Option<seq<Js>> {
    if first.Some? && rest.Some? then Some([first.value] + rest.value) else None
  }

  function TupleToJs(elems: seq<Term>): Option<seq<Js>>
    decreases elems, 0
  {
    if elems == [] then Some([]) else Prepend(ToJs(elems[0]), TupleToJs(elems[1..]))
  }

  function ListToJs(t: Term): Option<seq<Js>>
    requires Proper(t)
    decreases t, 0
  {
    if t.Nil? then Some([]) else Prepend(ToJs(t.hd), ListToJs(t.tl))
  }

  /** The entries assigned one after the other on top of the properties in acc. */
  function EntriesToJs(t: Term, acc: seq<Prop>): Option<seq<Prop>>
    requires Proper(t) && AllEntries(t)
    decreases t, 0
  {
    if t.Nil? then Some(acc)
    else
      var val := ToJs(t.hd.elems[1]);
      if val.None? then None
      else EntriesToJs(t.tl, Assign(acc, CStr(t.hd.elems[0].name), val.value))
  }

  /** The terms whose pushing stays inside the documented ground: no NUL byte inside an iolist
      (erl_iolist_to_string has no C string for it), and no key of an object-alike list that an
      array treats specially. */
  predicate Supported(t: Term)
    decreases t, 1
  {
    match t
    case Tuple(elems) => forall e :: e in elems ==> Supported(e)
    case Cons(_, _) =>
      if IsIodata(t) then NulFree(IoText(t))
      else if !Proper(t) then true
      else if AllEntries(t) then SupportedEntries(t)
      else SupportedCells(t)
    case _ => true
  }

  predicate SupportedEntries(t: Term)
    requires Proper(t) && AllEntries(t)
    decreases t, 0
  {
    t.Cons? ==>
      && PlainKey(CStr(t.hd.elems[0].name))
      && Supported(t.hd.elems[1])
      && SupportedEntries(t.tl)
  }

  predicate SupportedCells(t: Term)
    requires Proper(t)
    decreases t, 0
  {
    t.Cons? ==> Supported(t.hd) && SupportedCells(t.tl)
  }
}
