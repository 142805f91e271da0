/** The port handling of src/erlm.c: subscribing to output ports and delivering input packets. */
module Ports {
  import opened Options
  import opened Texts
  import opened JsValues
  import opened ErlTerms
  import opened BridgeSpec
  import opened BridgeProperties
  import opened Bridge
  import opened Duktape
  import opened Glue

  const MAX_PORT_COUNT: nat := 128

  /** The identity of the C function erlm_output_port_handler. */
  const OUTPUT_PORT_HANDLER: nat := 0

  // ---- Output ports ----

  /** The handler as subscribed to one port. */
  function HandlerFor(name: Text): Slot {
    Val(Fun(OUTPUT_PORT_HANDLER, [Prop("portName", Str(name))]))
  }

  /** The calls that subscribing to the named ports amounts to, in order, when none of them throws. */
  function Subscriptions(ports: Slot, names: seq<Text>): seq<Call>
    requires ports != Stash
  {
    if names == [] then []
    else Subscriptions(ports, names[..|names| - 1]) + SubscribeTo(ports, names[|names| - 1], false)
  }

  function SubscribeTo(ports: Slot, name: Text, threw: bool): seq<Call>
    requires ports != Stash
  {
    var port := SlotProp(ports, name);
    if port.None? then [] else ReachedProp(SlotProp(port.value, "subscribe"), [HandlerFor(name)], threw)
  }

  /** One turn of the loop of erlm_subscribe_all_output_ports. ok is false when an error escapes. */
  method Subscribe(ctx: Context, name: Text) returns (ok: bool)
    requires |ctx.stack| > 0 && ctx.At(-1) != Stash
    modifies ctx`stack, ctx`calls
    ensures ok ==> SubscribeTo(old(ctx.At(-1)), name, false) != [] && ctx.stack == old(ctx.stack)
    ensures ctx.calls == old(ctx.calls) + SubscribeTo(old(ctx.At(-1)), name, !ok)
  {
    ok := ctx.GetPropString(-1, name);
    if !ok {
      return;
    }
    ok := ctx.GetPropString(-1, "subscribe");
    if !ok {
      return;
    }
    PushHandler(ctx, name);
    assert ctx.stack[|ctx.stack| - 1..] == [HandlerFor(name)];
    ghost var below := ctx.stack[..|ctx.stack| - 2];
    assert below[..|below| - 1] == old(ctx.stack);
    ok := ctx.Call(1);
    assert ctx.stack[..|ctx.stack| - 2] == below[..|below| - 1];
    ctx.Pop(2);
  }

  /** Pushes the handler with its port name attached. */
  method PushHandler(ctx: Context, name: Text)
    modifies ctx`stack
    ensures ctx.stack == old(ctx.stack) + [HandlerFor(name)]
  {
    var _ := ctx.Push(Val(Fun(OUTPUT_PORT_HANDLER, [])));
    var _ := ctx.Push(Val(Str(name)));
    var key: Text := "portName";
    assert key[0] == 'p';
    ctx.PutPropString(-2, key);
  }

  /** Whether subscribing can go on from this instance: it holds a `ports` object with no more output ports
      than fit, or none, but then a value that another `ports` can be read from. */
  predicate Subscribable(instance: Slot)
    requires instance != Stash
  {
    var ports := PortsOf(instance);
    if ports.Some? then !Overruns(OwnEntries(ports.value), MAX_PORT_COUNT)
    else
      var stack := WithoutPorts([instance]);
      SlotProp(stack[|stack| - 1], "ports").Some?
  }

  /** erlm_subscribe_all_output_ports. Without a `ports` object nobody is subscribed, and the program goes on
      unless reading `ports` once more throws. ok is false when an error escapes. */
  method SubscribeAll(ctx: Context) returns (ok: bool)
    requires |ctx.stack| > 0 && ctx.At(-1) != Stash
    modifies ctx`stack, ctx`calls
    ensures PortsOf(old(ctx.At(-1))).None? ==>
              var stack := WithoutPorts(old(ctx.stack));
              && (ok <==> SlotProp(stack[|stack| - 1], "ports").Some?)
              && (ok ==> ctx.stack == stack)
              && ctx.calls == old(ctx.calls)
    ensures PortsOf(old(ctx.At(-1))).Some? ==>
              var ports := PortsOf(old(ctx.At(-1))).value;
              && (ok ==> ctx.stack == old(ctx.stack))
              && SubscribedTo(ports, ok, old(ctx.calls), ctx.calls)
    ensures ok ==> Subscribable(old(ctx.At(-1))) && |ctx.stack| > 0 && ctx.At(-1) != Stash
    ensures ok && old(ctx.At(-1)).Val? ==> ctx.At(-1).Val?
    ensures !ok && Subscribable(old(ctx.At(-1))) ==> PortsOf(old(ctx.At(-1))).Some?
  {
    var ports := new Text[MAX_PORT_COUNT](_ => []);
    ghost var instance := ctx.At(-1);
    ghost var entries := if PortsOf(instance).Some? then OwnEntries(PortsOf(instance).value) else [];
    var count := GetOutputPorts(ctx, ports, MAX_PORT_COUNT);
    if Overruns(entries, MAX_PORT_COUNT) {
      OverrunFills(entries, MAX_PORT_COUNT);
    }
    ok := SubscribeListed(ctx, ports, if count < 0 then 0 else count);
  }

  /** What erlm_subscribe_all_output_ports does with the names collected. */
  method SubscribeListed(ctx: Context, ports: array<Text>, count: nat) returns (ok: bool)
    requires |ctx.stack| > 0 && ctx.At(-1) != Stash && count <= ports.Length
    modifies ctx`stack, ctx`calls
    ensures ok ==> ctx.stack == old(ctx.stack)
    ensures match SlotProp(old(ctx.At(-1)), "ports")
            case None => !ok && ctx.calls == old(ctx.calls)
            case Some(target) => EachSubscribed(target, ports[..count], ok, old(ctx.calls), ctx.calls)
  {
    ok := ctx.GetPropString(-1, "ports");
    if ok {
      ok := SubscribeEach(ctx, ports, count);
      if ok {
        ctx.Pop(1);
      }
    }
  }

  /** The calls made while subscribing under these names: one for each, or those before a name that leads to
      no function or to one that throws, and this last call; none when the first name leads nowhere. */
  ghost predicate EachSubscribed(target: Slot, names: seq<Text>, ok: bool, before: seq<Call>, after: seq<Call>)
    requires target != Stash
  {
    && (ok ==> after == before + Subscriptions(target, names)
               && forall k :: 0 <= k < |names| ==> SubscribeTo(target, names[k], false) != [])
    && (!ok ==> exists k :: 0 <= k < |names|
                  && after == before + Subscriptions(target, names[..k]) + SubscribeTo(target, names[k], true))
    && (names != [] && SubscribeTo(target, names[0], false) == [] ==> !ok && after == before)
  }

  /** The calls made while subscribing to the ports of a `ports` object: all of them, or those up to the one
      that threw; none when there are more ports than fit. */
  ghost predicate SubscribedTo(ports: Js, ok: bool, before: seq<Call>, after: seq<Call>)
    requires ports.IsObjectType()
  {
    var names := First(Matching(OwnEntries(ports), Output), MAX_PORT_COUNT);
    if Overruns(OwnEntries(ports), MAX_PORT_COUNT) then !ok && after == before
    else EachSubscribed(Val(ports), names, ok, before, after)
  }

  /** The loop of erlm_subscribe_all_output_ports, over the value that the names are looked up in. */
  method SubscribeEach(ctx: Context, ports: array<Text>, count: nat) returns (ok: bool)
    requires |ctx.stack| > 0 && ctx.At(-1) != Stash && count <= ports.Length
    modifies ctx`stack, ctx`calls
    ensures ok ==> ctx.stack == old(ctx.stack)
    ensures EachSubscribed(old(ctx.At(-1)), ports[..count], ok, old(ctx.calls), ctx.calls)
  {
    ghost var target, names := ctx.At(-1), ports[..count];
    for i := 0 to count
      invariant ctx.stack == old(ctx.stack)
      invariant ctx.calls == old(ctx.calls) + Subscriptions(target, names[..i])
      invariant forall k :: 0 <= k < i ==> SubscribeTo(target, names[k], false) != []
    {
      ok := Subscribe(ctx, ports[i]);
      assert names[..i + 1][..i] == names[..i];
      if !ok {
        assert ctx.calls == old(ctx.calls) + Subscriptions(target, names[..i]) + SubscribeTo(target, names[i], true);
        return;
      }
    }
    assert names[..count] == names;
    ok := true;
  }

  /** Subscribing comes out the same with either value on top. */
  predicate Alike(instance: Slot, top: Slot)
    requires instance != Stash && top != Stash
  {
    || instance == top
    || (PortsOf(top).None?
        && (Subscribable(instance) <==> Subscribable(top))
        && (PortsOf(instance).Some? ==> !Subscribable(instance)))
  }

  /** erlm_print_ports_info, as far as the stack goes. */
  method PrintPortsInfo(ctx: Context)
    requires |ctx.stack| > 0 && ctx.At(-1) != Stash
    modifies ctx`stack
    ensures PortsOf(old(ctx.At(-1))).None? ==> ctx.stack == WithoutPorts(old(ctx.stack))
    ensures PortsOf(old(ctx.At(-1))).Some? ==>
              if Overruns(OwnEntries(PortsOf(old(ctx.At(-1))).value), MAX_PORT_COUNT)
              then |ctx.stack| == |old(ctx.stack)| + 2 && ctx.At(-1).Enumerator?
              else ctx.stack == old(ctx.stack)
    ensures |ctx.stack| > 0 && ctx.At(-1) != Stash && Alike(old(ctx.At(-1)), ctx.At(-1))
    ensures Subscribable(ctx.At(-1)) && old(ctx.At(-1)).Val? ==> ctx.At(-1).Val?
  {
    var ports := new Text[MAX_PORT_COUNT](_ => []);
    var _ := GetInputPorts(ctx, ports, MAX_PORT_COUNT);
    if PortsOf(old(ctx.At(-1))).None? {
      assert PortsOf(ctx.At(-1)).None? && WithoutPorts(ctx.stack) == ctx.stack;
    }
    var _ := GetOutputPorts(ctx, ports, MAX_PORT_COUNT);
  }

  lemma {:induction false} OverrunFills(entries: seq<Prop>, capacity: nat)
    requires Overruns(entries, capacity)
    ensures |First(Matching(entries, Output), capacity)| == capacity
  {
    MatchingSplits(entries, |entries| - 1, Output);
  }

  /** Subscribing without an error calls the `subscribe` of every entry of `ports` that is an output port, once
      and in order, with a handler that knows the entry's name, and calls nothing else. */
  lemma {:induction false} SubscribedOnce(ports: Js, before: seq<Call>, after: seq<Call>) returns (at: seq<nat>)
    requires ports.IsObjectType() && DistinctKeys(OwnEntries(ports)) && SubscribedTo(ports, true, before, after)
    ensures Increasing(at) && forall k :: 0 <= k < |at| ==> at[k] < |OwnEntries(ports)|
    ensures forall j | 0 <= j < |OwnEntries(ports)| :: j in at <==>
              HasOwn(OwnEntries(ports)[j].val, "subscribe") && HasOwn(OwnEntries(ports)[j].val, "unsubscribe")
    ensures |after| == |before| + |at| && after[..|before|] == before
    ensures forall k :: 0 <= k < |at| ==> IsSubscription(after[|before| + k], OwnEntries(ports)[at[k]])
  {
    var entries := OwnEntries(ports);
    var names := Matching(entries, Output);
    at := MatchingAt(entries, Output);
    NoneLeftOut(entries);
    SubscriptionsAt(Val(ports), names);
    forall k | 0 <= k < |at| ensures IsSubscription(after[|before| + k], entries[at[k]]) {
      OneSubscription(ports, at[k]);
      assert [Subscriptions(Val(ports), names)[k]] == SubscribeTo(Val(ports), names[k], false);
    }
  }

  /** With more than 128 output ports, nobody is subscribed and the program ends; with fewer, all of them are. */
  lemma {:induction false} PortLimit(ports: Js, ok: bool, before: seq<Call>, after: seq<Call>)
    requires ports.IsObjectType() && SubscribedTo(ports, ok, before, after)
    ensures |Matching(OwnEntries(ports), Output)| > 128 ==> !ok && after == before
    ensures |Matching(OwnEntries(ports), Output)| < 128 ==>
              EachSubscribed(Val(ports), Matching(OwnEntries(ports), Output), ok, before, after)
  {
    var entries := OwnEntries(ports);
    if entries != [] {
      MatchingSplits(entries, |entries| - 1, Output);
    }
  }

  lemma {:induction false} NoneLeftOut(entries: seq<Prop>)
    requires !Overruns(entries, MAX_PORT_COUNT)
    ensures First(Matching(entries, Output), MAX_PORT_COUNT) == Matching(entries, Output)
  {
  }

  lemma {:induction false} OneSubscription(ports: Js, j: nat)
    requires ports.IsObjectType() && DistinctKeys(OwnEntries(ports)) && j < |OwnEntries(ports)|
    requires HasOwn(OwnEntries(ports)[j].val, "subscribe")
    requires SubscribeTo(Val(ports), OwnEntries(ports)[j].key, false) != []
    ensures var calls := SubscribeTo(Val(ports), OwnEntries(ports)[j].key, false);
            |calls| == 1 && IsSubscription(calls[0], OwnEntries(ports)[j])
  {
    EntryIsProperty(ports, j);
  }

  /** The call subscribes, without throwing, to the port held by this entry. */
  predicate IsSubscription(call: Call, entry: Prop) {
    && HasOwn(entry.val, "subscribe")
    && call.callee == Val(OwnProp(entry.val, "subscribe").value)
    && !call.threw
    && call.args == [Val(Fun(OUTPUT_PORT_HANDLER, [Prop("portName", Str(entry.key))]))]
  }

  lemma {:induction false} SubscriptionsAt(target: Slot, names: seq<Text>)
    requires target != Stash && forall k :: 0 <= k < |names| ==> SubscribeTo(target, names[k], false) != []
    ensures |Subscriptions(target, names)| == |names|
    ensures forall k :: 0 <= k < |names| ==> [Subscriptions(target, names)[k]] == SubscribeTo(target, names[k], false)
  {
    if names != [] {
      SubscriptionsAt(target, names[..|names| - 1]);
    }
  }

  // ---- Input packets ----

  /** What `<instance>.ports.<name>.send` evaluates to; None when an access on the way throws. */
  function SendOf(instance: Slot, name: Text): Option<Slot>
    requires instance != Stash
  {
    var ports := SlotProp(instance, "ports");
    if ports.None? then None
    else
      var port := SlotProp(ports.value, name);
      if port.None? then None else SlotProp(port.value, "send")
  }

  /** The instance has a port of that name whose own `send` is a function. */
  predicate ReachesSend(instance: Slot, name: Text) {
    && instance.Val? && HasOwn(instance.v, "ports")
    && var ports := OwnProp(instance.v, "ports").value;
       && HasOwn(ports, name)
       && var port := OwnProp(ports, name).value;
          HasOwn(port, "send") && OwnProp(port, "send").value.Fun?
  }

  lemma {:induction false} SendIsReached(instance: Js, name: Text)
    requires HasOwn(instance, "ports") && HasOwn(OwnProp(instance, "ports").value, name)
    requires HasOwn(OwnProp(OwnProp(instance, "ports").value, name).value, "send")
    ensures var ports := OwnProp(instance, "ports").value;
            SendOf(Val(instance), name) == Some(Val(OwnProp(OwnProp(ports, name).value, "send").value))
  {
    var ports := OwnProp(instance, "ports").value;
    OwnIsRead(instance, "ports");
    OwnIsRead(ports, name);
    OwnIsRead(OwnProp(ports, name).value, "send");
  }

  lemma {:induction false} OwnIsRead(v: Js, key: Text)
    requires HasOwn(v, key)
    ensures SlotProp(Val(v), key) == Some(Val(OwnProp(v, key).value))
  {
  }

  /** One more call if callee is a function, whatever comes of it. */
  predicate Called(before: seq<Call>, after: seq<Call>, callee: Slot, args: seq<Slot>) {
    after == before + Reached(callee, args, false) || after == before + Reached(callee, args, true)
  }

  /** Exactly one more call, of f with these values. */
  predicate CalledWith(before: seq<Call>, after: seq<Call>, f: Js, values: seq<Js>) {
    && |after| == |before| + 1 && after[..|before|] == before
    && after[|before|].callee == Val(f)
    && |after[|before|].args| == |values|
    && forall i :: 0 <= i < |values| ==> after[|before|].args[i] == Val(values[i])
  }

  predicate Deliverable(instance: Slot, name: Text, args: Term)
    requires instance != Stash
  {
    SendOf(instance, name).Some? && ToJs(args).Some?
  }

  /** A packet for any collected input port whose `send` is a function calls that very function. */
  lemma {:induction false} InputPortsAnswer(instance: Js, capacity: nat) returns (at: seq<nat>)
    requires HasOwn(instance, "ports") && OwnProp(instance, "ports").value.IsObjectType()
    requires DistinctKeys(OwnEntries(OwnProp(instance, "ports").value))
    ensures PortsOf(Val(instance)) == OwnProp(instance, "ports")
    ensures var entries := OwnEntries(OwnProp(instance, "ports").value);
            var names := First(Matching(entries, Input), capacity);
            && |at| == |names|
            && forall k | 0 <= k < |at| ::
                 at[k] < |entries| && names[k] == entries[at[k]].key && InputPortAnswers(instance, entries[at[k]])
  {
    var ports := OwnProp(instance, "ports").value;
    at := CollectedInputs(OwnEntries(ports), capacity);
    forall k | 0 <= k < |at| ensures InputPortAnswers(instance, OwnEntries(ports)[at[k]]) {
      InputPortFound(instance, at[k]);
    }
  }

  /** `<instance>.ports.<key>.send` is the property that made the entry an input port, and a packet reaches it
      if it is a function. */
  predicate InputPortAnswers(instance: Js, entry: Prop) {
    && HasOwn(entry.val, "send")
    && var f := OwnProp(entry.val, "send").value;
       && SendOf(Val(instance), entry.key) == Some(Val(f))
       && (f.Fun? ==> ReachesSend(Val(instance), entry.key))
  }

  lemma {:induction false} InputPortFound(instance: Js, j: nat)
    requires HasOwn(instance, "ports") && OwnProp(instance, "ports").value.IsObjectType()
    requires var entries := OwnEntries(OwnProp(instance, "ports").value);
             DistinctKeys(entries) && j < |entries| && HasOwn(entries[j].val, "send")
    ensures InputPortAnswers(instance, OwnEntries(OwnProp(instance, "ports").value)[j])
  {
    var ports := OwnProp(instance, "ports").value;
    EntryIsProperty(ports, j);
    SendIsReached(instance, OwnEntries(ports)[j].key);
  }

  /** The stack after a delivery: arguments that are no array leave the `ports` object behind. */
  function AfterDelivery(stack: seq<Slot>, args: Term): seq<Slot>
    requires |stack| > 0 && stack[|stack| - 1] != Stash
    requires SlotProp(stack[|stack| - 1], "ports").Some? && ToJs(args).Some?
  {
    if ToJs(args).value.Arr? then stack else stack + [SlotProp(stack[|stack| - 1], "ports").value]
  }

  /** erlm_handle_input_event on a decoded packet {name, args}; ok is false when the program ends on an
      uncaught error or on an unsupported term. */
  method HandleInput(ctx: Context, name: Text, args: Term) returns (ok: bool)
    requires |ctx.stack| > 0 && ctx.At(-1) != Stash && Supported(args)
    modifies ctx`stack, ctx`calls
    ensures ok <==> Deliverable(old(ctx.At(-1)), name, args)
    ensures ok ==> ctx.stack == AfterDelivery(old(ctx.stack), args)
    ensures if ok && ToJs(args).value.Arr?
            then Called(old(ctx.calls), ctx.calls, SendOf(old(ctx.At(-1)), name).value, AsSlots(ToJs(args).value.elems))
            else ctx.calls == old(ctx.calls)
    ensures ReachesSend(old(ctx.At(-1)), name) && SpreadsOut(args) && ToJs(args).Some? ==>
              && ok
              && var ports := OwnProp(old(ctx.At(-1)).v, "ports").value;
                 var f := OwnProp(OwnProp(ports, name).value, "send").value;
                 CalledWith(old(ctx.calls), ctx.calls, f, ToJs(args).value.elems)
  {
    if ReachesSend(ctx.At(-1), name) && ToJs(args).Some? {
      SendIsReached(ctx.At(-1).v, name);
      ArrayIffSpreadsOut(args);
    }
    ok := PushPath(ctx, name);
    if ok {
      ok := Deliver(ctx, args);
    }
  }

  /** The first half: pushes `ports`, the port and its `send`. */
  method PushPath(ctx: Context, name: Text) returns (ok: bool)
    requires |ctx.stack| > 0 && ctx.At(-1) != Stash
    modifies ctx`stack
    ensures ok <==> SendOf(old(ctx.At(-1)), name).Some?
    ensures ok ==>
              && |ctx.stack| == |old(ctx.stack)| + 3
              && ctx.stack[..|ctx.stack| - 2] == old(ctx.stack) + [SlotProp(old(ctx.At(-1)), "ports").value]
              && ctx.stack[..|ctx.stack| - 3] == old(ctx.stack)
              && ctx.At(-1) == SendOf(old(ctx.At(-1)), name).value
  {
    ok := ctx.GetPropString(-1, "ports");
    if !ok {
      return;
    }
    ok := ctx.GetPropString(-1, name);
    if !ok {
      return;
    }
    ok := ctx.GetPropString(-1, "send");
  }

  /** The second half: pushes the arguments onto [.., ports, port, send], spreads them out, calls, and
      drops three slots. */
  method Deliver(ctx: Context, args: Term) returns (ok: bool)
    requires |ctx.stack| >= 3 && Supported(args)
    modifies ctx`stack, ctx`calls
    ensures ok <==> ToJs(args).Some?
    ensures ok && ToJs(args).value.Arr? ==>
              && ctx.stack == old(ctx.stack)[..|old(ctx.stack)| - 3]
              && Called(old(ctx.calls), ctx.calls, old(ctx.At(-1)), AsSlots(ToJs(args).value.elems))
    ensures ok && !ToJs(args).value.Arr? ==>
              ctx.stack == old(ctx.stack)[..|old(ctx.stack)| - 2] && ctx.calls == old(ctx.calls)
    ensures !ok ==> ctx.calls == old(ctx.calls)
  {
    ghost var path := ctx.stack;
    ok := PushTerm(ctx, args);
    if !ok {
      return;
    }
    ghost var pushed := ctx.At(-1);
    var argCount := UnrollArray(ctx);
    if pushed.v.Arr? {
      assert ctx.stack == path + AsSlots(pushed.v.elems);
    } else {
      assert ctx.stack == path + [pushed];
    }
    var _ := ctx.PCall(argCount);
    ctx.Pop(3);
  }

  // ---- Runs of input packets ----

  datatype Packet = Packet(name: Text, args: Term)

  /** The stack after a sequence of input packets; None when the program has ended on the way. */
  function RunInputs(stack: seq<Slot>, packets: seq<Packet>): Option<seq<Slot>>
    requires |stack| > 0 && stack[|stack| - 1].Val?
    decreases packets
  {
    if packets == [] then Some(stack)
    else if !Deliverable(stack[|stack| - 1], packets[0].name, packets[0].args) then None
    else RunInputs(AfterDelivery(stack, packets[0].args), packets[1..])
  }

  /** The terms that reach `send` as an argument list: tuples, and lists that are no iolists. */
  predicate SpreadsOut(args: Term) {
    args.Tuple? || (args.Cons? && !IsIodata(args))
  }

  lemma {:induction false} ArrayIffSpreadsOut(args: Term)
    requires ToJs(args).Some?
    ensures ToJs(args).value.Arr? <==> SpreadsOut(args)
  {
  }

  /** The arguments that a packet means to pass: the elements of a tuple, or the heads of a list. */
  function Arguments(args: Term): seq<Term> {
    if args.Tuple? then args.elems else Heads(args)
  }

  /** Every argument has its value at its place, and there are no others. */
  predicate Arrive(args: seq<Term>, values: seq<Js>) {
    |args| == |values| && forall i :: 0 <= i < |args| ==> ToJs(args[i]) == Some(values[i])
  }

  lemma {:induction false} TupleArrives(elems: seq<Term>)
    requires TupleToJs(elems).Some?
    ensures Arrive(elems, TupleToJs(elems).value)
  {
    if elems != [] {
      TupleArrives(elems[1..]);
    }
  }

  lemma {:induction false} ListArrives(t: Term)
    requires Proper(t) && ListToJs(t).Some?
    ensures Arrive(Heads(t), ListToJs(t).value)
  {
    if t.Cons? {
      ListArrives(t.tl);
    }
  }

  /** The arguments of a packet reach `send`, in order, exactly if they are not an object-alike list. */
  lemma {:induction false} ArgumentsArrive(args: Term)
    requires SpreadsOut(args) && ToJs(args).Some?
    ensures Arrive(Arguments(args), ToJs(args).value.elems) <==> !ObjectAlike(args)
  {
    if args.Tuple? {
      TupleArrives(args.elems);
    } else if !ObjectAlike(args) {
      ListArrives(args);
    } else {
      ObjectAlikeIsLost(args, []);
    }
  }

  /** `send` is called without arguments exactly for object-alike lists and for the empty tuple. */
  lemma {:induction false} KeywordArgsVanish(args: Term)
    requires SpreadsOut(args) && ToJs(args).Some?
    ensures AsSlots(ToJs(args).value.elems) == [] <==> ObjectAlike(args) || args == Tuple([])
  {
    ArgumentsArrive(args);
    if ObjectAlike(args) {
      ObjectAlikeIsLost(args, []);
    }
  }

  /** The value under `ports` of the instance on top. */
  function PortsValue(stack: seq<Slot>): Js
    requires |stack| > 0 && stack[|stack| - 1].Val?
  {
    var ports := GetProp(stack[|stack| - 1].v, "ports");
    if ports.Some? then ports.value else Undefined
  }

  /** A `ports` object in the place of the instance: it takes packets only if it has a port that is named
      `ports` itself, and only those addressed to a property of that port. */
  predicate TakesPackets(ports: Js, name: Text) {
    HasOwn(ports, "ports") && HasOwn(OwnProp(ports, "ports").value, name) &&
    var prop := OwnProp(OwnProp(ports, "ports").value, name).value;
    !prop.Undefined? && !prop.Null?
  }

  /** Once a packet left the `ports` object behind, a further packet ends the program unless that object
      takes it. */
  lemma {:induction false} StrandedInstance(stack: seq<Slot>, packet: Packet, next: Packet)
    requires |stack| > 0 && stack[|stack| - 1].Val?
    requires Deliverable(stack[|stack| - 1], packet.name, packet.args) && !SpreadsOut(packet.args)
    ensures var after := AfterDelivery(stack, packet.args);
            && after == stack + [Val(PortsValue(stack))]
            && (Deliverable(after[|after| - 1], next.name, next.args) <==>
                TakesPackets(PortsValue(stack), next.name) && ToJs(next.args).Some?)
  {
    ArrayIffSpreadsOut(packet.args);
  }

  /** A run of deliverable packets, none of which the `ports` object would take, survives exactly when every
      packet before the last one spreads out, and it restores the stack exactly when all of them do. */
  lemma {:induction false} InputRuns(stack: seq<Slot>, packets: seq<Packet>)
    requires |stack| > 0 && stack[|stack| - 1].Val?
    requires forall i :: 0 <= i < |packets| ==> Deliverable(stack[|stack| - 1], packets[i].name, packets[i].args)
    requires forall i :: 0 <= i < |packets| ==> !TakesPackets(PortsValue(stack), packets[i].name)
    ensures RunInputs(stack, packets).Some? <==>
            forall i :: 0 <= i < |packets| - 1 ==> SpreadsOut(packets[i].args)
    ensures RunInputs(stack, packets) == Some(stack) <==>
            forall i :: 0 <= i < |packets| ==> SpreadsOut(packets[i].args)
  {
    if packets != [] {
      ArrayIffSpreadsOut(packets[0].args);
      if SpreadsOut(packets[0].args) {
        var rest := packets[1..];
        InputRuns(stack, rest);
        assert RunInputs(stack, packets) == RunInputs(stack, rest);
        assert forall i :: 1 <= i < |packets| ==> packets[i] == rest[i - 1];
        assert forall i :: 0 <= i < |rest| ==> rest[i] == packets[i + 1];
      } else {
        StrandedRun(stack, packets);
      }
    }
  }

  lemma {:induction false} StrandedRun(stack: seq<Slot>, packets: seq<Packet>)
    requires |stack| > 0 && stack[|stack| - 1].Val? && packets != []
    requires Deliverable(stack[|stack| - 1], packets[0].name, packets[0].args) && !SpreadsOut(packets[0].args)
    requires |packets| > 1 ==> !TakesPackets(PortsValue(stack), packets[1].name)
    ensures RunInputs(stack, packets).Some? <==> |packets| == 1
    ensures RunInputs(stack, packets) != Some(stack)
  {
    var after := AfterDelivery(stack, packets[0].args);
    StrandedInstance(stack, packets[0], packets[if |packets| > 1 then 1 else 0]);
    assert RunInputs(stack, packets) == RunInputs(after, packets[1..]);
    if |packets| > 1 {
      assert packets[1..][0] == packets[1];
      assert RunInputs(after, packets[1..]) == None;
    }
  }
}
