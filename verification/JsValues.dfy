/** JavaScript values as finite trees. */
module JsValues {
  import opened Options
  import opened Texts

  datatype Prop = Prop(key: Text, val: Js)

  /** Objects and functions list their own enumerable properties in enumeration order. Arrays are
      dense, and may carry named properties next to their elements. Opaque stands for the remaining
      Duktape types (buffers and pointers). */
  datatype Js =
    | Undefined
    | Null
    | Bool(b: bool)
    | Num(n: real)
    | Str(s: Text)
    | Arr(elems: seq<Js>, props: seq<Prop>)
    | Obj(props: seq<Prop>)
    | Fun(id: nat, props: seq<Prop>)
    | Opaque
  {
    predicate IsObjectType() {
      Arr? || Obj? || Fun?
    }
  }

  /** Own property lookup. */
  function Lookup(props: seq<Prop>, key: Text): Option<Js> {
    if props == [] then None
    else if props[0].key == key then Some(props[0].val)
    else Lookup(props[1..], key)
  }

  /** Assignment to a property: an existing key keeps its place, a new one goes last. */
  function Assign(props: seq<Prop>, key: Text, val: Js): seq<Prop> {
    if props == [] then [Prop(key, val)]
    else if props[0].key == key then [Prop(key, val)] + props[1..]
    else [props[0]] + Assign(props[1..], key, val)
  }

  /** The entries an enumeration of array indices visits. */
  function IndexEntries(elems: seq<Js>): (r: seq<Prop>)
    ensures |r| == |elems|
    ensures forall i :: 0 <= i < |elems| ==> r[i] == Prop(IndexText(i), elems[i])
  {
    seq(|elems|, i requires 0 <= i < |elems| => Prop(IndexText(i), elems[i]))
  }

  /** The index that key spells, if it is below n. */
  function IndexOf(key: Text, n: nat): (i: Option<nat>)
    ensures i.Some? ==> i.value < n && IndexText(i.value) == key
  {
    if n == 0 then None else if IndexText(n - 1) == key then Some(n - 1) else IndexOf(key, n - 1)
  }

  /** An own property; an array also has its elements and its length. */
  function OwnProp(v: Js, key: Text): Option<Js>
    requires v.IsObjectType()
  {
    var named := Lookup(v.props, key);
    if !v.Arr? then named
    else
      var i := IndexOf(key, |v.elems|);
      if i.Some? then Some(v.elems[i.value])
      else if named.Some? then named
      else if key == "length" then Some(Num(|v.elems| as real))
      else None
  }

  /** v is an object with an own property of that name. */
  predicate HasOwn(v: Js, key: Text) {
    v.IsObjectType() && OwnProp(v, key).Some?
  }

  predicate DistinctKeys(props: seq<Prop>) {
    forall i, j :: 0 <= i < j < |props| ==> props[i].key != props[j].key
  }

  lemma {:induction false} LookupDistinct(props: seq<Prop>, i: nat)
    requires DistinctKeys(props) && i < |props|
    ensures Lookup(props, props[i].key) == Some(props[i].val)
  {
    if i > 0 {
      assert DistinctKeys(props[1..]);
      LookupDistinct(props[1..], i - 1);
    }
  }

  lemma {:induction false} IndexFound(i: nat, n: nat)
    requires i < n
    ensures IndexOf(IndexText(i), n).Some?
  {
    if i < n - 1 {
      IndexFound(i, n - 1);
    }
  }

  /** What `v.key` evaluates to; None when the access throws (undefined and null have no properties).
      Only own properties of objects are seen. */
  function GetProp(v: Js, key: Text): Option<Js> {
    match v
    case Undefined => None
    case Null => None
    case Arr(_, _) => Some(OrUndefined(OwnProp(v, key)))
    case Obj(_) => Some(OrUndefined(OwnProp(v, key)))
    case Fun(_, _) => Some(OrUndefined(OwnProp(v, key)))
    case _ => Some(Undefined)
  }

  /** What `v[i]` evaluates to; None when the access throws. */
  function GetIndex(v: Js, i: nat): Option<Js> {
    match v
    case Undefined => None
    case Null => None
    case Str(s) => Some(if i < |s| then Str([s[i]]) else Undefined)
    case Arr(elems, _) => Some(if i < |elems| then elems[i] else Undefined)
    case Obj(props) => Some(OrUndefined(Lookup(props, IndexText(i))))
    case Fun(_, props) => Some(OrUndefined(Lookup(props, IndexText(i))))
    case _ => Some(Undefined)
  }

  function OrUndefined(o: Option<Js>): Js {
    if o.Some? then o.value else Undefined
  }

  predicate HasProp(v: Js, key: Text)
    requires v.IsObjectType()
  {
    OwnProp(v, key).Some?
  }

  predicate AllDigits(s: Text) {
    forall i :: 0 <= i < |s| ==> '0' <= s[i] <= '9'
  }

  function DecimalValue(s: Text): nat
    requires AllDigits(s)
  {
    if s == [] then 0
    else 10 * DecimalValue(s[..|s| - 1]) + (s[|s| - 1] as int - '0' as int)
  }

  /** Canonical spellings of 0 .. 2^32 - 2. */
  predicate IsArrayIndex(s: Text) {
    && s != []
    && AllDigits(s)
    && (s[0] == '0' ==> |s| == 1)
    && DecimalValue(s) < 0xffff_ffff
  }

  /** Keys whose assignment on an array only adds or replaces a named property. */
  predicate PlainKey(s: Text) {
    && s != "length"
    && s != "__proto__"
    && !IsArrayIndex(s)
  }
}
