/** The translators of src/duk_erlang.c as programs over the value stack. */
module Bridge {
  import opened Options
  import opened Texts
  import opened JsValues
  import opened ErlTerms
  import opened BridgeSpec
  import opened Duktape

  /** duk_erlang_get_array: translates into a buffer front to back, then conses it up back to front. */
  method GetArray(ctx: Context, idx: int) returns (list: Term)
    requires ctx.HoldsValue(idx) && ctx.At(idx).v.Arr?
    modifies ctx`stack
    ensures ctx.stack == old(ctx.stack)
    ensures list == ElemsToErl(old(ctx.At(idx)).v.elems)
    decreases ctx.At(idx).v, 1
  {
    ghost var elems := ctx.At(idx).v.elems;
    var length := |ctx.At(idx).v.elems|;
    var buffer := new Term[length];
    FillBuffer(ctx, idx, buffer);
    list := Nil;
    var i := length - 1;
    while i >= 0
      invariant -1 <= i < length
      invariant list == ElemsToErl(elems[i + 1..])
    {
      list := Cons(buffer[i], list);
      i := i - 1;
    }
  }

  /** The enumeration loop of duk_erlang_get_array; no entry falls outside the buffer. */
  method FillBuffer(ctx: Context, idx: int, buffer: array<Term>)
    requires ctx.HoldsValue(idx) && ctx.At(idx).v.Arr?
    requires buffer.Length == |ctx.At(idx).v.elems|
    modifies ctx`stack, buffer
    ensures ctx.stack == old(ctx.stack)
    ensures forall k :: 0 <= k < buffer.Length ==> buffer[k] == ToErl(old(ctx.At(idx)).v.elems[k])
    decreases ctx.At(idx).v, 0
  {
    ghost var elems := ctx.At(idx).v.elems;
    ghost var entries := IndexEntries(elems);
    ctx.EnumIndices(idx);
    var i := 0;
    assert entries[0..] == entries;
    while true
      invariant 0 <= i <= buffer.Length
      invariant forall k :: 0 <= k < i ==> buffer[k] == ToErl(elems[k])
      invariant Enumerating(ctx.stack, old(ctx.stack), entries, i)
      decreases buffer.Length - i
    {
      var more := NextPair(ctx, old(ctx.stack), entries, i);
      if !more {
        break;
      }
      buffer[i] := GetTerm(ctx, -1);
      PopPair(ctx, old(ctx.stack), entries, i);
      i := i + 1;
    }
    ctx.Pop(1);
  }

  /** duk_erlang_get_object. */
  method GetObject(ctx: Context, idx: int) returns (pairs: Term)
    requires ctx.HoldsValue(idx) && ctx.At(idx).v.IsObjectType() && !ctx.At(idx).v.Arr?
    modifies ctx`stack
    ensures ctx.stack == old(ctx.stack)
    ensures pairs == PropsToErl(old(ctx.At(idx)).v.props)
    decreases ctx.At(idx).v, 0
  {
    var props := ctx.At(idx).v.props;
    pairs := Nil;
    ctx.EnumOwn(idx);
    ghost var i := 0;
    assert props[0..] == props;
    while true
      invariant 0 <= i <= |props|
      invariant pairs == PropsToErl(props[..i])
      invariant Enumerating(ctx.stack, old(ctx.stack), props, i)
      decreases |props| - i
    {
      var more := NextPair(ctx, old(ctx.stack), props, i);
      if !more {
        break;
      }
      var key := MkString(CStr(ctx.At(-2).v.s));
      var value := GetTerm(ctx, -1);
      pairs := Cons(Tuple([key, value]), pairs);
      PopPair(ctx, old(ctx.stack), props, i);
      assert props[..i + 1][..i] == props[..i];
      i := i + 1;
    }
    assert props[..i] == props;
    ctx.Pop(1);
  }

  /** duk_erlang_get_term. */
  method GetTerm(ctx: Context, idx: int) returns (term: Term)
    requires ctx.HoldsValue(idx)
    modifies ctx`stack
    ensures ctx.stack == old(ctx.stack)
    ensures term == ToErl(old(ctx.At(idx)).v)
    decreases ctx.At(idx).v, 2
  {
    match ctx.At(idx).v {
      case Undefined => term := Atom("undefined");
      case Null => term := Atom("null");
      case Bool(b) => term := if b then Atom("true") else Atom("false");
      case Num(n) => term := Float(n);
      case Str(s) => term := MkString(CStr(s));
      case Arr(_, _) => term := GetArray(ctx, idx);
      case Obj(_) => term := GetObject(ctx, idx);
      case Fun(_, _) => term := GetObject(ctx, idx);
      case Opaque => term := Atom("undefined");
    }
  }

  /** duk_erlang_is_object_alike. */
  method IsObjectAlike(t: Term) returns (alike: bool)
    ensures alike <==> ObjectAlike(t)
  {
    if !t.IsList() {
      return false;
    }
    var term := t;
    var length := ErlLength(term);
    var i := 0;
    while i < length
      invariant length >= 0 ==> i <= length && Proper(term) && ErlLength(term) == length - i
      invariant Proper(t) <==> length >= 0
      invariant length >= 0 ==> (AllEntries(t) <==> AllEntries(term))
    {
      var elem := term.hd;
      if !elem.Tuple? || |elem.elems| != 2 {
        return false;
      }
      if !elem.elems[0].Atom? {
        return false;
      }
      term := term.tl;
      i := i + 1;
    }
    return true;
  }

  /** What a term still has to contribute after the elements already placed. */
  ghost function After(placed: seq<Js>, rest: Option<seq<Js>>): Option<seq<Js>> {
    if rest.Some? then Some(placed + rest.value) else None
  }

  lemma {:induction false} AfterNothing(rest: Option<seq<Js>>)
    ensures After([], rest) == rest
  {
    if rest.Some? {
      assert [] + rest.value == rest.value;
    }
  }

  lemma {:induction false} AfterOneMore(placed: seq<Js>, first: Option<Js>, rest: Option<seq<Js>>)
    ensures first.Some? ==> After(placed, Prepend(first, rest)) == After(placed + [first.value], rest)
    ensures first.None? ==> After(placed, Prepend(first, rest)) == None
  {
    if first.Some? && rest.Some? {
      assert placed + ([first.value] + rest.value) == placed + [first.value] + rest.value;
    }
  }

  /** duk_erlang_push_term. When it returns false the program has aborted on an unsupported type. */
  method PushTerm(ctx: Context, t: Term) returns (ok: bool)
    requires Supported(t)
    modifies ctx`stack
    ensures ok <==> ToJs(t).Some?
    ensures ok ==> ctx.stack == old(ctx.stack) + [Val(ToJs(t).value)]
    decreases t, 2
  {
    match t {
      case Int(i) => var _ := ctx.Push(Val(Num(i as real))); return true;
      case UInt(u) => var _ := ctx.Push(Val(Num(AsSigned(u) as real))); return true;
      case Float(f) => var _ := ctx.Push(Val(Num(f))); return true;
      case Atom(name) => var _ := ctx.Push(Val(Str(CStr(name)))); return true;
      case Tuple(_) => ok := PushTuple(ctx, t);
      case Binary(bytes) => var _ := ctx.Push(Val(Str(bytes))); return true;
      case Nil => var _ := ctx.Push(Val(Str([]))); return true;
      case Cons(_, _) => ok := PushList(ctx, t);
      case Other => return false;
    }
  }

  method PushTuple(ctx: Context, t: Term) returns (ok: bool)
    requires t.Tuple? && Supported(t)
    modifies ctx`stack
    ensures ok <==> ToJs(t).Some?
    ensures ok ==> ctx.stack == old(ctx.stack) + [Val(ToJs(t).value)]
    decreases t, 0
  {
    var _ := ctx.Push(Val(Arr([], [])));
    var i := 0;
    ghost var placed: seq<Js> := [];
    assert t.elems[0..] == t.elems;
    AfterNothing(TupleToJs(t.elems));
    while i < |t.elems|
      invariant 0 <= i <= |t.elems| && |placed| == i
      invariant ctx.stack == old(ctx.stack) + [Val(Arr(placed, []))]
      invariant TupleToJs(t.elems) == After(placed, TupleToJs(t.elems[i..]))
    {
      assert t.elems[i..][0] == t.elems[i] && t.elems[i..][1..] == t.elems[i + 1..];
      AfterOneMore(placed, ToJs(t.elems[i]), TupleToJs(t.elems[i + 1..]));
      var pushed := PushTerm(ctx, t.elems[i]);
      if !pushed {
        return false;
      }
      ctx.PutPropIndex(-2, i);
      placed := placed + [ToJs(t.elems[i]).value];
      i := i + 1;
    }
    assert placed + [] == placed;
    return true;
  }

  /** The list branch: an iolist, an object-alike list, or any other list. */
  method PushList(ctx: Context, t: Term) returns (ok: bool)
    requires t.Cons? && Supported(t)
    modifies ctx`stack
    ensures ok <==> ToJs(t).Some?
    ensures ok ==> ctx.stack == old(ctx.stack) + [Val(ToJs(t).value)]
    decreases t, 1
  {
    if IsIodata(t) {
      var _ := ctx.Push(Val(Str(CStr(IoText(t)))));
      return true;
    }
    var alike := IsObjectAlike(t);
    if alike {
      ok := PushEntries(ctx, t);
    } else {
      ok := PushCells(ctx, t);
    }
  }

  /** An object-alike list becomes an array with named properties. */
  method PushEntries(ctx: Context, t: Term) returns (ok: bool)
    requires t.Cons? && Supported(t) && !IsIodata(t) && ObjectAlike(t)
    modifies ctx`stack
    ensures ok <==> ToJs(t).Some?
    ensures ok ==> ctx.stack == old(ctx.stack) + [Val(ToJs(t).value)]
    decreases t, 0
  {
    var term := t;
    var length := ErlLength(term);
    var arrayIndex := ctx.Push(Val(Arr([], [])));
    var i := 0;
    ghost var props: seq<Prop> := [];
    while i < length
      invariant length >= 0 ==> i <= length && Proper(term) && ErlLength(term) == length - i
      invariant length >= 0 ==> AllEntries(term) && SupportedEntries(term)
      invariant length >= 0 ==> EntriesToJs(t, []) == EntriesToJs(term, props)
      invariant length < 0 ==> props == []
      invariant ctx.stack == old(ctx.stack) + [Val(Arr([], props))]
      invariant term.Cons? ==> term == t || term < t
    {
      var elem := term.hd;
      var key := CStr(elem.elems[0].name);
      var pushed := PushTerm(ctx, elem.elems[1]);
      if !pushed {
        return false;
      }
      ctx.PutPropString(arrayIndex, key);
      props := Assign(props, key, ToJs(elem.elems[1]).value);
      term := term.tl;
      i := i + 1;
    }
    return true;
  }

  /** Any other proper list becomes an array of its elements. */
  method PushCells(ctx: Context, t: Term) returns (ok: bool)
    requires t.Cons? && Supported(t) && !IsIodata(t) && !ObjectAlike(t)
    modifies ctx`stack
    ensures ok <==> ToJs(t).Some?
    ensures ok ==> ctx.stack == old(ctx.stack) + [Val(ToJs(t).value)]
    decreases t, 0
  {
    var term := t;
    var length := ErlLength(term);
    var arrayIndex := ctx.Push(Val(Arr([], [])));
    var i := 0;
    ghost var placed: seq<Js> := [];
    AfterNothing(ListToJs(t));
    while i < length
      invariant 0 <= i <= length && |placed| == i
      invariant Proper(term) && ErlLength(term) == length - i && SupportedCells(term)
      invariant ctx.stack == old(ctx.stack) + [Val(Arr(placed, []))]
      invariant ListToJs(t) == After(placed, ListToJs(term))
      invariant term.Cons? ==> term == t || term < t
    {
      AfterOneMore(placed, ToJs(term.hd), ListToJs(term.tl));
      var pushed := PushTerm(ctx, term.hd);
      if !pushed {
        return false;
      }
      ctx.PutPropIndex(arrayIndex, i);
      placed := placed + [ToJs(term.hd).value];
      term := term.tl;
      i := i + 1;
    }
    assert placed + [] == placed;
    return true;
  }
}
