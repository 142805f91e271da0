/** The part of the Duktape API that erlm uses, over one value-stack frame. */
module Duktape {
  import opened Options
  import opened Texts
  import opened JsValues

  /** A stack slot holds a value, an enumerator with the entries still to be visited, or a reference
      to one of the two shared objects: the global stash and the stash's timer table. */
  datatype Slot =
    | Val(v: Js)
    | Enumerator(pending: seq<Prop>)
    | Stash
    | Timeouts

  /** A call of a function made through the stack, as the callee sees it, and whether the callee threw. */
  datatype Call = Call(callee: Slot, args: seq<Slot>, threw: bool)

  predicate IsFunction(s: Slot) {
    s.Val? && s.v.Fun?
  }

  class Context {
    var stack: seq<Slot>
    var timeouts: map<int, Js>
    var eventsManager: int
    var timersEventsManager: int
    var calls: seq<Call>

    constructor ()
      ensures stack == [] && timeouts == map[] && calls == []
    {
      stack, timeouts, calls := [], map[], [];
    }

    /** duk_normalize_index. */
    function Abs(idx: int): int
      reads this`stack
    {
      if idx < 0 then |stack| + idx else idx
    }

    predicate Valid(idx: int)
      reads this`stack
    {
      0 <= Abs(idx) < |stack|
    }

    function At(idx: int): Slot
      requires Valid(idx)
      reads this`stack
    {
      stack[Abs(idx)]
    }

    predicate HoldsValue(idx: int)
      reads this`stack
    {
      Valid(idx) && At(idx).Val?
    }

    method Push(s: Slot) returns (idx: nat)
      modifies this`stack
      ensures stack == old(stack) + [s] && idx == |old(stack)|
    {
      idx := |stack|;
      stack := stack + [s];
    }

    method Pop(n: nat)
      requires n <= |stack|
      modifies this`stack
      ensures stack == old(stack)[..|old(stack)| - n]
    {
      stack := stack[..|stack| - n];
    }

    method Dup(idx: int)
      requires Valid(idx)
      modifies this`stack
      ensures stack == old(stack) + [old(At(idx))]
    {
      stack := stack + [At(idx)];
    }

    /** Moves the top slot down to idx, shifting the slots from there up. */
    method Insert(idx: int)
      requires Valid(idx)
      modifies this`stack
      ensures var n, k := |old(stack)| - 1, old(Abs(idx));
              stack == old(stack)[..k] + [old(stack)[n]] + old(stack)[k..n]
    {
      var n, k := |stack| - 1, Abs(idx);
      stack := stack[..k] + [stack[n]] + stack[k..n];
    }

    method Remove(idx: int)
      requires Valid(idx)
      modifies this`stack
      ensures stack == old(stack)[..old(Abs(idx))] + old(stack)[old(Abs(idx)) + 1..]
    {
      stack := stack[..Abs(idx)] + stack[Abs(idx) + 1..];
    }

    /** duk_get_int: numbers are truncated towards zero and clamped, anything else reads as 0. */
    function GetInt(idx: int): int
      requires Valid(idx)
      reads this`stack
    {
      if At(idx).Val? && At(idx).v.Num? then ToInt(At(idx).v.n) else 0
    }

    /** Pushes the property of the object at idx; ok is false when the access throws. */
    method GetPropString(idx: int, key: Text) returns (ok: bool)
      requires Valid(idx) && At(idx) != Stash
      modifies this`stack
      ensures ok <==> SlotProp(old(At(idx)), key).Some?
      ensures stack == if ok then old(stack) + [SlotProp(old(At(idx)), key).value] else old(stack)
    {
      var prop := SlotProp(At(idx), key);
      ok := prop.Some?;
      if ok {
        stack := stack + [prop.value];
      }
    }

    /** duk_get_prop_index on a value. */
    method GetPropIndex(idx: int, i: nat) returns (ok: bool)
      requires HoldsValue(idx)
      modifies this`stack
      ensures ok <==> GetIndex(old(At(idx)).v, i).Some?
      ensures stack == if ok then old(stack) + [Val(GetIndex(old(At(idx)).v, i).value)] else old(stack)
    {
      var prop := GetIndex(At(idx).v, i);
      ok := prop.Some?;
      if ok {
        stack := stack + [Val(prop.value)];
      }
    }

    /** duk_get_prop_string on the global stash. */
    method GetStashProp(idx: int, key: Text)
      requires Valid(idx) && At(idx) == Stash
      modifies this`stack
      ensures stack == old(stack) + [StashSlot(key)]
    {
      stack := stack + [StashSlot(key)];
    }

    function StashSlot(key: Text): Slot
      reads this`eventsManager, this`timersEventsManager
    {
      if key == "timeoutCallbacks" then Timeouts
      else if key == "eventsManager" then Val(Num(eventsManager as real))
      else if key == "timersEventsManager" then Val(Num(timersEventsManager as real))
      else Val(Undefined)
    }

    /** Pushes the entry of the timer table at the given id. */
    method GetTimeout(idx: int, id: int)
      requires Valid(idx) && At(idx) == Timeouts
      modifies this`stack
      ensures stack == old(stack) + [Val(if id in timeouts then timeouts[id] else Undefined)]
    {
      stack := stack + [Val(if id in timeouts then timeouts[id] else Undefined)];
    }

    method PutTimeout(idx: int, id: int)
      requires Valid(idx) && At(idx) == Timeouts && HoldsValue(-1)
      modifies this`stack, this`timeouts
      ensures stack == old(stack)[..|old(stack)| - 1]
      ensures timeouts == old(timeouts)[id := old(At(-1)).v]
    {
      timeouts := timeouts[id := At(-1).v];
      stack := stack[..|stack| - 1];
    }

    method DelTimeout(idx: int, id: int)
      requires Valid(idx) && At(idx) == Timeouts
      modifies this`timeouts
      ensures timeouts == old(timeouts) - {id}
    {
      timeouts := timeouts - {id};
    }

    /** Sets an element of the array at idx to the top value and pops it; arrays stay dense. */
    method PutPropIndex(idx: int, i: nat)
      requires Valid(idx) && Abs(idx) < |stack| - 1 && At(idx).Val? && At(idx).v.Arr?
      requires HoldsValue(-1) && i <= |At(idx).v.elems|
      modifies this`stack
      ensures var n, k := |old(stack)| - 1, old(Abs(idx));
              var a, v := old(stack)[k].v, old(stack)[n].v;
              stack == old(stack)[..n][k := Val(Arr(SetElem(a.elems, i, v), a.props))]
    {
      var n, k := |stack| - 1, Abs(idx);
      var a, v := stack[k].v, stack[n].v;
      stack := stack[..n][k := Val(Arr(SetElem(a.elems, i, v), a.props))];
    }

    /** Sets a named property of the object at idx to the top value and pops it. */
    method PutPropString(idx: int, key: Text)
      requires Valid(idx) && Abs(idx) < |stack| - 1 && At(idx).Val? && At(idx).v.IsObjectType()
      requires HoldsValue(-1) && PlainKey(key)
      modifies this`stack
      ensures var n, k := |old(stack)| - 1, old(Abs(idx));
              stack == old(stack)[..n][k := Val(SetProp(old(stack)[k].v, key, old(stack)[n].v))]
    {
      var n, k := |stack| - 1, Abs(idx);
      stack := stack[..n][k := Val(SetProp(stack[k].v, key, stack[n].v))];
    }

    /** DUK_ENUM_ARRAY_INDICES_ONLY on an array. */
    method EnumIndices(idx: int)
      requires HoldsValue(idx) && At(idx).v.Arr?
      modifies this`stack
      ensures stack == old(stack) + [Enumerator(IndexEntries(old(At(idx)).v.elems))]
    {
      stack := stack + [Enumerator(IndexEntries(At(idx).v.elems))];
    }

    /** DUK_ENUM_OWN_PROPERTIES_ONLY. */
    method EnumOwn(idx: int)
      requires HoldsValue(idx) && At(idx).v.IsObjectType()
      modifies this`stack
      ensures stack == old(stack) + [Enumerator(OwnEntries(old(At(idx)).v))]
    {
      stack := stack + [Enumerator(OwnEntries(At(idx).v))];
    }

    /** Advances the enumerator at idx, pushing the key and, when asked for, the value. */
    method Next(idx: int, getValue: bool) returns (more: bool)
      requires Valid(idx) && At(idx).Enumerator?
      modifies this`stack
      ensures more <==> old(At(idx)).pending != []
      ensures stack ==
              if !more then old(stack)
              else
                var k, pending := old(Abs(idx)), old(At(idx)).pending;
                old(stack)[k := Enumerator(pending[1..])] + [Val(Str(pending[0].key))]
                + if getValue then [Val(pending[0].val)] else []
    {
      var k, pending := Abs(idx), At(idx).pending;
      more := pending != [];
      if more {
        stack := stack[k := Enumerator(pending[1..])] + [Val(Str(pending[0].key))]
                 + if getValue then [Val(pending[0].val)] else [];
      }
    }

    /** duk_get_prop: replaces the key on top by the property of the object at idx; an index that is not on
        the stack is an error. */
    method GetProp(idx: int) returns (ok: bool)
      requires Valid(idx) ==> At(idx) != Stash && HoldsValue(-1) && At(-1).v.Str?
      modifies this`stack
      ensures !old(Valid(idx)) ==> !ok
      ensures old(Valid(idx)) ==>
                var n := |old(stack)| - 1;
                var prop := SlotProp(old(At(idx)), old(stack)[n].v.s);
                && (ok <==> prop.Some?)
                && (ok ==> stack == old(stack)[..n] + [prop.value])
    {
      if !Valid(idx) {
        return false;
      }
      var n := |stack| - 1;
      var prop := SlotProp(At(idx), stack[n].v.s);
      ok := prop.Some?;
      if ok {
        stack := stack[..n] + [prop.value];
      }
    }

    /** duk_pcall: replaces the callee and its arguments by a result or an error. What the callee
        returns is not known; a call of something that is not a function reaches nobody. */
    method PCall(nargs: nat) returns (failed: bool)
      requires nargs + 1 <= |stack|
      modifies this`stack, this`calls
      ensures var k := |old(stack)| - nargs - 1;
              && |stack| == k + 1 && stack[..k] == old(stack)[..k] && stack[k].Val?
              && (!IsFunction(old(stack)[k]) ==> failed)
              && calls == old(calls) + Reached(old(stack)[k], old(stack)[k + 1..], failed)
    {
      var k := |stack| - nargs - 1;
      var result: Js :| true;
      failed := !IsFunction(stack[k]);
      if !failed {
        failed :| true;
      }
      calls := calls + Reached(stack[k], stack[k + 1..], failed);
      stack := stack[..k] + [Val(result)];
    }

    /** duk_pcall_prop without arguments: the key on top is replaced by the result of calling that
        property of the object at idx, or by an error, also when the lookup itself throws. */
    method PCallProp(idx: int) returns (failed: bool)
      requires Valid(idx) && At(idx) != Stash && HoldsValue(-1) && At(-1).v.Str?
      modifies this`stack, this`calls
      ensures var n := |old(stack)| - 1;
              var callee := SlotProp(old(At(idx)), old(stack)[n].v.s);
              && |stack| == n + 1 && stack[..n] == old(stack)[..n] && stack[n].Val?
              && (callee.None? || !IsFunction(callee.value) ==> failed)
              && calls == old(calls) + ReachedProp(callee, [], failed)
    {
      var n := |stack| - 1;
      var callee := SlotProp(At(idx), stack[n].v.s);
      var result: Js :| true;
      failed := callee.None? || !IsFunction(callee.value);
      if !failed {
        failed :| true;
      }
      calls := calls + ReachedProp(callee, [], failed);
      stack := stack[..n] + [Val(result)];
    }

    /** duk_call: like PCall, but an error leaves through ok = false and ends the program. */
    method Call(nargs: nat) returns (ok: bool)
      requires nargs + 1 <= |stack|
      modifies this`stack, this`calls
      ensures var k := |old(stack)| - nargs - 1;
              && |stack| == k + 1 && stack[..k] == old(stack)[..k] && stack[k].Val?
              && (ok ==> IsFunction(old(stack)[k]))
              && calls == old(calls) + Reached(old(stack)[k], old(stack)[k + 1..], !ok)
    {
      var failed := PCall(nargs);
      ok := !failed;
    }
  }

  /** The calls that take place when a property is called that may not even be readable. */
  function ReachedProp(callee: Option<Slot>, args: seq<Slot>, threw: bool): seq<Call> {
    if callee.Some? then Reached(callee.value, args, threw) else []
  }

  /** The call that takes place when callee is applied to args: none unless it is a function. */
  function Reached(callee: Slot, args: seq<Slot>, threw: bool): seq<Call> {
    if IsFunction(callee) then [Call(callee, args, threw)] else []
  }

  /** Property access on a slot; None when it throws. */
  function SlotProp(s: Slot, key: Text): Option<Slot>
    requires s != Stash
  {
    if s.Val? then
      var p := GetProp(s.v, key);
      if p.Some? then Some(Val(p.value)) else None
    else Some(Val(Undefined))
  }

  predicate IsObjectSlot(s: Slot) {
    !s.Val? || s.v.IsObjectType()
  }

  function SetProp(v: Js, key: Text, val: Js): Js
    requires v.IsObjectType()
  {
    match v
    case Arr(elems, props) => Arr(elems, Assign(props, key, val))
    case Obj(props) => Obj(Assign(props, key, val))
    case Fun(id, props) => Fun(id, Assign(props, key, val))
  }

  function ToInt(r: real): int {
    var truncated := if r >= 0.0 then r.Floor else -((-r).Floor);
    if truncated < -0x8000_0000 then -0x8000_0000
    else if truncated > 0x7fff_ffff then 0x7fff_ffff
    else truncated
  }

  function SetElem(elems: seq<Js>, i: nat, v: Js): seq<Js>
    requires i <= |elems|
  {
    if i == |elems| then elems + [v] else elems[i := v]
  }

  /** Own enumerable properties; an array lists its elements before its named properties. */
  function OwnEntries(v: Js): seq<Prop>
    requires v.IsObjectType()
  {
    if v.Arr? then IndexEntries(v.elems) + v.props else v.props
  }

  /** What an enumeration visits under a key is what a lookup of that key finds. */
  lemma {:induction false} EntryIsProperty(v: Js, i: nat)
    requires v.IsObjectType() && DistinctKeys(OwnEntries(v)) && i < |OwnEntries(v)|
    ensures OwnProp(v, OwnEntries(v)[i].key) == Some(OwnEntries(v)[i].val)
  {
    if v.Arr? {
      ElementIsProperty(v, i);
    } else {
      LookupDistinct(v.props, i);
    }
  }

  lemma {:induction false} ElementIsProperty(v: Js, i: nat)
    requires v.Arr? && DistinctKeys(OwnEntries(v)) && i < |OwnEntries(v)|
    ensures OwnProp(v, OwnEntries(v)[i].key) == Some(OwnEntries(v)[i].val)
  {
    var entries, n := OwnEntries(v), |v.elems|;
    var at := IndexOf(entries[i].key, n);
    if at.Some? {
      assert entries[at.value].key == entries[i].key;
    }
    if i < n {
      IndexFound(i, n);
    } else {
      assert forall k :: 0 <= k < |v.props| ==> v.props[k] == entries[n + k];
      LookupDistinct(v.props, i - n);
    }
  }

  // ---- Enumeration loops ----

  /** An enumeration on top of below that has visited the first i entries. */
  ghost predicate Enumerating(stack: seq<Slot>, below: seq<Slot>, entries: seq<Prop>, i: nat) {
    i <= |entries| && stack == below + [Enumerator(entries[i..])]
  }

  /** The same with the key and the value of entry i pushed. */
  ghost predicate Visiting(stack: seq<Slot>, below: seq<Slot>, entries: seq<Prop>, i: nat) {
    && i < |entries|
    && stack == below + [Enumerator(entries[i + 1..]), Val(Str(entries[i].key)), Val(entries[i].val)]
  }

  /** duk_next(ctx, -1, 1) in such a loop. */
  method NextPair(ctx: Context, ghost below: seq<Slot>, ghost entries: seq<Prop>, ghost i: nat) returns (more: bool)
    requires Enumerating(ctx.stack, below, entries, i)
    modifies ctx`stack
    ensures more <==> i < |entries|
    ensures if more then Visiting(ctx.stack, below, entries, i) else ctx.stack == old(ctx.stack)
  {
    more := ctx.Next(-1, true);
    if more {
      assert entries[i..][1..] == entries[i + 1..];
    }
  }

  /** duk_pop_2 on a visited pair. */
  method PopPair(ctx: Context, ghost below: seq<Slot>, ghost entries: seq<Prop>, ghost i: nat)
    requires Visiting(ctx.stack, below, entries, i)
    modifies ctx`stack
    ensures Enumerating(ctx.stack, below, entries, i + 1)
  {
    ctx.Pop(2);
  }
}
