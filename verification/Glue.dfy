/** The glue of src/duk_util.c, src/duk_elm.c and src/erlm.c: exact stack shapes. */
module Glue {
  import opened Options
  import opened Texts
  import opened JsValues
  import opened Duktape

  predicate IsArraySlot(s: Slot) {
    s.Val? && s.v.Arr?
  }

  function AsSlots(elems: seq<Js>): (r: seq<Slot>)
    ensures |r| == |elems|
    ensures forall i :: 0 <= i < |elems| ==> r[i] == Val(elems[i])
  {
    seq(|elems|, i requires 0 <= i < |elems| => Val(elems[i]))
  }

  lemma {:induction false} RemoveMiddle(below: seq<Slot>, s: Slot, above: seq<Slot>)
    ensures var all := below + [s] + above;
            all[..|below|] + all[|below| + 1..] == below + above
  {
  }

  lemma {:induction false} UnrollStep(below: seq<Slot>, entries: seq<Prop>, elems: seq<Js>, i: nat)
    requires i < |elems| && entries == IndexEntries(elems)
    ensures var stack := below + [Enumerator(entries[i..])] + AsSlots(elems[..i]);
            stack[|below| := Enumerator(entries[i..][1..])]
            + [Val(Str(entries[i..][0].key))] + [Val(entries[i..][0].val)]
            == below + [Enumerator(entries[i + 1..])] + AsSlots(elems[..i])
               + [Val(Str(entries[i].key))] + [Val(elems[i])]
    ensures AsSlots(elems[..i]) + [Val(elems[i])] == AsSlots(elems[..i + 1])
  {
    assert entries[i..][1..] == entries[i + 1..];
  }

  // ---- src/duk_util.c ----

  /** duk_util_unroll_array: an array on top is replaced by its elements; anything else stays. */
  method UnrollArray(ctx: Context) returns (count: nat)
    requires |ctx.stack| > 0
    modifies ctx`stack
    ensures !IsArraySlot(old(ctx.At(-1))) ==> count == 0 && ctx.stack == old(ctx.stack)
    ensures IsArraySlot(old(ctx.At(-1))) ==>
              && count == |old(ctx.At(-1)).v.elems|
              && ctx.stack == old(ctx.stack)[..|old(ctx.stack)| - 1] + AsSlots(old(ctx.At(-1)).v.elems)
  {
    if !IsArraySlot(ctx.At(-1)) {
      return 0;
    }
    ghost var elems := ctx.At(-1).v.elems;
    ghost var below := ctx.stack;
    ctx.EnumIndices(-1);
    var enumIndex := ctx.Abs(-1);
    count := UnrollEntries(ctx, enumIndex, elems);
    RemoveMiddle(below, Enumerator([]), AsSlots(elems));
    ctx.Remove(enumIndex);
    assert below == below[..|below| - 1] + [below[|below| - 1]];
    RemoveMiddle(below[..|below| - 1], below[|below| - 1], AsSlots(elems));
    ctx.Remove(enumIndex - 1);
  }

  /** The loop of duk_util_unroll_array: the values pile up above the enumerator, without their keys. */
  method UnrollEntries(ctx: Context, enumIndex: nat, ghost elems: seq<Js>) returns (count: nat)
    requires |ctx.stack| == enumIndex + 1 && ctx.stack[enumIndex] == Enumerator(IndexEntries(elems))
    modifies ctx`stack
    ensures count == |elems|
    ensures ctx.stack == old(ctx.stack)[..enumIndex] + [Enumerator([])] + AsSlots(elems)
  {
    ghost var below := ctx.stack[..enumIndex];
    ghost var entries := IndexEntries(elems);
    count := 0;
    assert entries[0..] == entries && AsSlots(elems[..0]) == [];
    while true
      invariant count <= |elems|
      invariant ctx.stack == below + [Enumerator(entries[count..])] + AsSlots(elems[..count])
      decreases |elems| - count
    {
      ghost var placed := AsSlots(elems[..count]);
      var more := ctx.Next(enumIndex, true);
      if !more {
        break;
      }
      UnrollStep(below, entries, elems, count);
      RemoveMiddle(below + [Enumerator(entries[count + 1..])] + placed,
                   Val(Str(entries[count].key)), [Val(elems[count])]);
      ctx.Remove(-2);
      assert ctx.stack == below + [Enumerator(entries[count + 1..])] + (placed + [Val(elems[count])]);
      count := count + 1;
    }
    assert elems[..count] == elems;
  }

  /** duk_util_put_first_prop_name: pushes the first property name. An object without properties is
      itself replaced by the spent enumerator. */
  method PutFirstPropName(ctx: Context)
    requires ctx.HoldsValue(-1) && ctx.At(-1).v.IsObjectType()
    modifies ctx`stack
    ensures var entries := OwnEntries(old(ctx.At(-1)).v);
            ctx.stack == if entries != [] then old(ctx.stack) + [Val(Str(entries[0].key))]
                         else old(ctx.stack)[..|old(ctx.stack)| - 1] + [Enumerator([])]
  {
    ghost var below, target := ctx.stack[..|ctx.stack| - 1], ctx.At(-1);
    ghost var entries := OwnEntries(target.v);
    ctx.EnumOwn(-1);
    assert ctx.stack == below + [target, Enumerator(entries)];
    var more := ctx.Next(-1, false);
    if more {
      assert ctx.stack == below + [target] + [Enumerator(entries[1..]), Val(Str(entries[0].key))];
    }
    ctx.Insert(-2);
    ctx.Pop(1);
    if more {
      assert ctx.stack == below + [target] + [Val(Str(entries[0].key))];
    } else {
      assert ctx.stack == below + [Enumerator([])];
    }
  }

  // ---- src/duk_elm.c: starting the program ----

  /** duk_elm_peval_file after the module has been evaluated: the module's exports on top are replaced
      by what `worker` of the first export returns, or by the error it throws. An error escapes, and ok is
      false, exactly when there is no first export; the exports are alone on the stack then. */
  method StartWorker(ctx: Context) returns (ok: bool, failed: bool)
    requires ctx.HoldsValue(-1) && !ctx.At(-1).v.Opaque?
    requires Exported(ctx.At(-1).v) == [] ==> |ctx.stack| == 1
    modifies ctx`stack, ctx`calls
    ensures ok <==> Exported(old(ctx.At(-1)).v) != []
    ensures ok ==>
              var exports := old(ctx.At(-1));
              var elm := SlotProp(exports, Exported(exports.v)[0].key);
              && elm.Some?
              && var worker := SlotProp(elm.value, "worker");
              && |ctx.stack| == |old(ctx.stack)|
              && ctx.stack[..|ctx.stack| - 1] == old(ctx.stack)[..|old(ctx.stack)| - 1]
              && ctx.HoldsValue(-1)
              && (worker.None? || !IsFunction(worker.value) ==> failed)
              && ctx.calls == old(ctx.calls) + ReachedProp(worker, [], failed)
    ensures !ok ==> ctx.calls == old(ctx.calls)
  {
    failed := true;
    ghost var below, exports := ctx.stack[..|ctx.stack| - 1], ctx.At(-1);
    assert ctx.stack == below + [exports];
    if !IsObjectSlot(ctx.At(-1)) {
      return false, true;
    }
    PutFirstPropName(ctx);
    assert OwnEntries(exports.v) != [] ==>
        ctx.stack == below + [exports, Val(Str(OwnEntries(exports.v)[0].key))];
    ok := ctx.GetProp(-2);
    if ok {
      assert ctx.stack == below + [exports, ctx.At(-1)];
      failed := CallWorker(ctx);
    }
  }

  /** The properties of a module's exports; only an object has any. */
  function Exported(exports: Js): seq<Prop> {
    if exports.IsObjectType() then OwnEntries(exports) else []
  }

  /** The rest of duk_elm_peval_file: calls `worker` of the value on top and drops the two values that
      led there. */
  method CallWorker(ctx: Context) returns (failed: bool)
    requires |ctx.stack| >= 2 && ctx.At(-1) != Stash
    modifies ctx`stack, ctx`calls
    ensures var n, worker := |old(ctx.stack)| - 2, SlotProp(old(ctx.At(-1)), "worker");
            && |ctx.stack| == n + 1 && ctx.stack[..n] == old(ctx.stack)[..n] && ctx.stack[n].Val?
            && (worker.None? || !IsFunction(worker.value) ==> failed)
            && ctx.calls == old(ctx.calls) + ReachedProp(worker, [], failed)
  {
    ghost var n := |ctx.stack| - 2;
    var _ := ctx.Push(Val(Str("worker")));
    failed := ctx.PCallProp(-2);
    ghost var result := ctx.At(-1);
    assert ctx.stack == old(ctx.stack) + [result];
    ctx.Insert(-3);
    assert ctx.stack == old(ctx.stack)[..n] + [result] + old(ctx.stack)[n..];
    ctx.Pop(1);
    ctx.Pop(1);
    assert ctx.stack == old(ctx.stack)[..n] + [result];
  }

  // ---- src/duk_elm.c: collecting ports ----

  datatype Direction = Input | Output

  predicate IsPort(d: Direction, v: Js) {
    v.IsObjectType() &&
    match d
    case Input => HasProp(v, "send")
    case Output => HasProp(v, "subscribe") && HasProp(v, "unsubscribe")
  }

  /** The names of the ports of one direction, in enumeration order. */
  function Matching(props: seq<Prop>, d: Direction): seq<Text> {
    if props == [] then []
    else Matching(props[..|props| - 1], d)
         + if IsPort(d, props[|props| - 1].val) then [props[|props| - 1].key] else []
  }

  function First(names: seq<Text>, n: nat): seq<Text> {
    if |names| <= n then names else names[..n]
  }

  lemma {:induction false} MatchingSplits(props: seq<Prop>, i: nat, d: Direction)
    requires i <= |props|
    ensures Matching(props[..i], d) <= Matching(props, d)
  {
    if i == |props| {
      assert props[..i] == props;
    } else {
      MatchingSplits(props[..|props| - 1], i, d);
      assert props[..|props| - 1][..i] == props[..i];
    }
  }

  lemma {:induction false} MatchingOneMore(props: seq<Prop>, i: nat, d: Direction)
    requires i < |props|
    ensures Matching(props[..i + 1], d) ==
            Matching(props[..i], d) + if IsPort(d, props[i].val) then [props[i].key] else []
  {
    assert props[..i + 1][..i] == props[..i];
  }

  /** Stopping in front of entry i with the capacity filled yields the first names. */
  lemma {:induction false} FilledAt(props: seq<Prop>, i: nat, d: Direction, capacity: nat)
    requires i < |props| && |Matching(props[..i], d)| == capacity
    ensures First(Matching(props, d), capacity) == Matching(props[..i], d)
    ensures |Matching(props[..|props| - 1], d)| >= capacity
  {
    MatchingSplits(props, i, d);
    assert props[..|props| - 1][..i] == props[..i];
    MatchingSplits(props[..|props| - 1], i, d);
  }

  /** The places of the matching entries. */
  lemma {:induction false} MatchingAt(props: seq<Prop>, d: Direction) returns (at: seq<nat>)
    ensures Increasing(at) && Picked(props, d, Matching(props, d), at)
    ensures forall j :: 0 <= j < |props| && IsPort(d, props[j].val) ==> j in at
  {
    at := [];
    if props != [] {
      var n := |props| - 1;
      var before := MatchingAt(props[..n], d);
      assert Picked(props, d, Matching(props[..n], d), before);
      at := before;
      if IsPort(d, props[n].val) {
        at := before + [n];
        OneMorePicked(props, d, Matching(props[..n], d), before, n);
      }
    }
  }

  /** These names are those of the entries at these places, all of them ports. */
  predicate Picked(props: seq<Prop>, d: Direction, names: seq<Text>, at: seq<nat>) {
    && |at| == |names|
    && forall k :: 0 <= k < |at| ==> at[k] < |props| && names[k] == props[at[k]].key && IsPort(d, props[at[k]].val)
  }

  lemma {:induction false} OneMorePicked(props: seq<Prop>, d: Direction, names: seq<Text>, at: seq<nat>, n: nat)
    requires n < |props| && Picked(props, d, names, at) && IsPort(d, props[n].val)
    ensures Picked(props, d, names + [props[n].key], at + [n])
    ensures n in at + [n] && forall j :: j in at ==> j in at + [n]
  {
  }

  predicate Increasing(at: seq<nat>) {
    forall k, l :: 0 <= k < l < |at| ==> at[k] < at[l]
  }

  /** Of all entries that are objects with an own `send`, the first ones are collected, and no others. */
  lemma {:induction false} CollectedInputs(props: seq<Prop>, capacity: nat) returns (at: seq<nat>)
    ensures |at| == |First(Matching(props, Input), capacity)| <= capacity && Increasing(at)
    ensures forall k :: 0 <= k < |at| ==>
              && at[k] < |props| && First(Matching(props, Input), capacity)[k] == props[at[k]].key
              && HasOwn(props[at[k]].val, "send")
    ensures forall j :: 0 <= j < |props| && HasOwn(props[j].val, "send") ==>
              j in at || (|at| == capacity && forall k :: 0 <= k < |at| ==> at[k] < j)
  {
    var all := MatchingAt(props, Input);
    at := FirstOf(all, capacity);
  }

  /** The same for entries that are objects with an own `subscribe` and an own `unsubscribe`. */
  lemma {:induction false} CollectedOutputs(props: seq<Prop>, capacity: nat) returns (at: seq<nat>)
    ensures |at| == |First(Matching(props, Output), capacity)| <= capacity && Increasing(at)
    ensures forall k :: 0 <= k < |at| ==>
              && at[k] < |props| && First(Matching(props, Output), capacity)[k] == props[at[k]].key
              && HasOwn(props[at[k]].val, "subscribe") && HasOwn(props[at[k]].val, "unsubscribe")
    ensures forall j | 0 <= j < |props| && HasOwn(props[j].val, "subscribe") && HasOwn(props[j].val, "unsubscribe") ::
              j in at || (|at| == capacity && forall k :: 0 <= k < |at| ==> at[k] < j)
  {
    var all := MatchingAt(props, Output);
    at := FirstOf(all, capacity);
  }

  lemma {:induction false} FirstOf(all: seq<nat>, capacity: nat) returns (at: seq<nat>)
    requires Increasing(all)
    ensures at == if |all| <= capacity then all else all[..capacity]
    ensures Increasing(at)
    ensures forall j :: j in all ==> j in at || (|at| == capacity && forall k :: 0 <= k < |at| ==> at[k] < j)
  {
    at := if |all| <= capacity then all else all[..capacity];
    forall i | 0 <= i < |all|
      ensures all[i] in at || (|at| == capacity && forall k :: 0 <= k < |at| ==> at[k] < all[i])
    {
      if i < |at| {
        assert at[i] == all[i];
      }
    }
  }

  /** duk_elm_is_input_port and duk_elm_is_output_port, on the value on top. */
  predicate IsPortOnTop(ctx: Context, d: Direction)
    requires ctx.HoldsValue(-1)
    reads ctx`stack
  {
    IsPort(d, ctx.At(-1).v)
  }

  /** The `ports` object that both collectors enumerate, when there is one. */
  function PortsOf(instance: Slot): Option<Js>
    requires instance != Stash
  {
    var ports := SlotProp(instance, "ports");
    if IsObjectSlot(instance) && ports.Some? && ports.value.Val? && ports.value.v.IsObjectType()
    then Some(ports.value.v) else None
  }

  /** The stack after a collector found no `ports` object: when the instance is an object at all, the value
      found under `ports` stays on it. */
  function WithoutPorts(stack: seq<Slot>): seq<Slot>
    requires |stack| > 0 && stack[|stack| - 1] != Stash
  {
    var instance := stack[|stack| - 1];
    if IsObjectSlot(instance) then stack + [SlotProp(instance, "ports").value] else stack
  }

  /** The body of both loops below the capacity test: takes the name of a port and passes the entry. */
  method TakeName(ctx: Context, d: Direction, ports: array<Text>, nport: nat,
                  ghost below: seq<Slot>, ghost props: seq<Prop>, ghost i: nat) returns (count: nat)
    requires Visiting(ctx.stack, below, props, i)
    requires nport < ports.Length && ports[..nport] == Matching(props[..i], d)
    modifies ctx`stack, ports
    ensures Enumerating(ctx.stack, below, props, i + 1)
    ensures count <= nport + 1 <= ports.Length && ports[..count] == Matching(props[..i + 1], d)
  {
    MatchingOneMore(props, i, d);
    count := nport;
    if IsPortOnTop(ctx, d) {
      ports[nport] := ctx.At(-2).v.s;
      count := nport + 1;
    }
    PopPair(ctx, below, props, i);
  }

  /** duk_elm_get_input_ports. */
  method GetInputPorts(ctx: Context, ports: array<Text>, capacity: nat) returns (count: int)
    requires |ctx.stack| > 0 && ctx.At(-1) != Stash && capacity <= ports.Length
    modifies ctx`stack, ports
    ensures PortsOf(old(ctx.At(-1))).None? ==> count == -1 && ctx.stack == WithoutPorts(old(ctx.stack))
    ensures PortsOf(old(ctx.At(-1))).Some? ==>
              var names := First(Matching(OwnEntries(PortsOf(old(ctx.At(-1))).value), Input), capacity);
              && count == |names| && ports[..count] == names
              && ctx.stack == old(ctx.stack)
  {
    if !IsObjectSlot(ctx.At(-1)) {
      return -1;
    }
    var _ := ctx.GetPropString(-1, "ports");
    if !IsObjectSlot(ctx.At(-1)) {
      return -1;
    }
    ctx.EnumOwn(-1);
    count := CollectInputs(ctx, ports, capacity);
    ctx.Pop(2);
  }

  /** The loop of duk_elm_get_input_ports: leaves only the enumerator it was given. */
  method CollectInputs(ctx: Context, ports: array<Text>, capacity: nat) returns (nport: nat)
    requires ctx.Valid(-1) && ctx.At(-1).Enumerator? && capacity <= ports.Length
    modifies ctx`stack, ports
    ensures var names := First(Matching(old(ctx.At(-1)).pending, Input), capacity);
            nport == |names| && ports[..nport] == names
    ensures |ctx.stack| == |old(ctx.stack)|
    ensures ctx.stack[..|ctx.stack| - 1] == old(ctx.stack)[..|ctx.stack| - 1]
  {
    ghost var below, props := ctx.stack[..|ctx.stack| - 1], ctx.At(-1).pending;
    nport := 0;
    ghost var i := 0;
    assert ctx.stack == below + [Enumerator(props[0..])];
    while true
      invariant 0 <= i <= |props| && nport <= capacity
      invariant ports[..nport] == Matching(props[..i], Input)
      invariant Enumerating(ctx.stack, below, props, i)
      decreases |props| - i
    {
      var more := NextPair(ctx, below, props, i);
      if !more {
        assert props[..i] == props;
        break;
      }
      if nport >= capacity {
        FilledAt(props, i, Input, capacity);
        PopPair(ctx, below, props, i);
        break;
      }
      nport := TakeName(ctx, Input, ports, nport, below, props, i);
      i := i + 1;
    }
  }

  /** Whether a property follows the one that fills the capacity. */
  predicate Overruns(props: seq<Prop>, capacity: nat) {
    props != [] && |Matching(props[..|props| - 1], Output)| >= capacity
  }

  /** duk_elm_get_output_ports. Its loop leaves the pair it stopped at, so that the final pops remove
      that pair and not the enumerator and the `ports` object. */
  method GetOutputPorts(ctx: Context, ports: array<Text>, capacity: nat) returns (count: int)
    requires |ctx.stack| > 0 && ctx.At(-1) != Stash && capacity <= ports.Length
    modifies ctx`stack, ports
    ensures PortsOf(old(ctx.At(-1))).None? ==> count == -1 && ctx.stack == WithoutPorts(old(ctx.stack))
    ensures PortsOf(old(ctx.At(-1))).Some? ==>
              var found := PortsOf(old(ctx.At(-1))).value;
              var names := First(Matching(OwnEntries(found), Output), capacity);
              && count == |names| && ports[..count] == names
              && (if Overruns(OwnEntries(found), capacity) then
                    && |ctx.stack| == |old(ctx.stack)| + 2
                    && ctx.stack[..|ctx.stack| - 1] == old(ctx.stack) + [Val(found)]
                    && ctx.At(-1).Enumerator?
                  else ctx.stack == old(ctx.stack))
  {
    if !IsObjectSlot(ctx.At(-1)) {
      return -1;
    }
    var _ := ctx.GetPropString(-1, "ports");
    if !IsObjectSlot(ctx.At(-1)) {
      return -1;
    }
    ctx.EnumOwn(-1);
    ghost var stopped;
    count, stopped := CollectOutputs(ctx, ports, capacity);
    ctx.Pop(2);
  }

  /** The loop of duk_elm_get_output_ports. */
  method CollectOutputs(ctx: Context, ports: array<Text>, capacity: nat) returns (nport: nat, ghost stopped: bool)
    requires ctx.Valid(-1) && ctx.At(-1).Enumerator? && capacity <= ports.Length
    modifies ctx`stack, ports
    ensures var names := First(Matching(old(ctx.At(-1)).pending, Output), capacity);
            nport == |names| && ports[..nport] == names
    ensures stopped <==> Overruns(old(ctx.At(-1)).pending, capacity)
    ensures |ctx.stack| == |old(ctx.stack)| + if stopped then 2 else 0
    ensures var n := |old(ctx.stack)| - 1;
            ctx.stack[..n] == old(ctx.stack)[..n] && ctx.stack[n].Enumerator?
  {
    ghost var below, props := ctx.stack[..|ctx.stack| - 1], ctx.At(-1).pending;
    nport := 0;
    stopped := false;
    ghost var i := 0;
    assert ctx.stack == below + [Enumerator(props[0..])];
    while true
      invariant 0 <= i <= |props| && nport <= capacity
      invariant ports[..nport] == Matching(props[..i], Output)
      invariant Enumerating(ctx.stack, below, props, i)
      invariant !stopped
      invariant i > 0 ==> |Matching(props[..i - 1], Output)| < capacity
      decreases |props| - i
    {
      var more := NextPair(ctx, below, props, i);
      if !more {
        assert props[..i] == props;
        break;
      }
      if nport >= capacity {
        FilledAt(props, i, Output, capacity);
        stopped := true;
        break;
      }
      nport := TakeName(ctx, Output, ports, nport, below, props, i);
      i := i + 1;
    }
  }
}
