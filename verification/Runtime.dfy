/** The running program: src/erlm.c's handlers and event loop over the value stack, the event registry and
    the standard streams, tied to the state machine of EventMachine. */
module Runtime {
  import opened Options
  import opened Texts
  import opened JsValues
  import opened ErlTerms
  import opened BridgeSpec
  import opened BridgeProperties
  import opened Bridge
  import opened Duktape
  import opened Glue
  import opened PacketIo
  import opened EventMachine
  import opened Events
  import opened Timers
  import Ports

  /** A decoded input packet whose arguments the bridge supports. */
  type Input = p: Ports.Packet | Supported(p.args) witness Ports.Packet([], Nil)

  /** What JavaScript code does to the program while it runs: call setTimeout, clearTimeout, or a handler
      subscribed to an output port, with any arguments. self is the handler's `this`. */
  datatype JsCall =
    | CallSetTimeout(args: seq<Js>)
    | CallClearTimeout(args: seq<Js>)
    | CallOutputPort(self: Js, args: seq<Js>)

  /** How do_something ends: regularly, with an error that it reports, or with one that nobody catches. */
  datatype Ending =
    | Done
    | WorkerFailed
    | NoExport
    | SubscriptionThrew
    | CallbackThrew
    | PacketUndeliverable

  function TimerKey(b: Backend, id: int): Key {
    KeyOf(b, Timer, id)
  }

  function WriteKey(b: Backend): Key {
    KeyOf(b, Write, 1)
  }

  /** Whether stdin is watched for input. */
  ghost predicate Listens(b: Backend, registry: map<Key, Registration>, listening: bool) {
    var key := KeyOf(b, Read, 0);
    if listening then key in registry && registry[key] == Registration(Event(Read, 0, None), false, true)
    else key !in registry
  }

  /** The registry holds exactly the armed timers and the pending write of the state, next to stdin. */
  ghost predicate Registered(b: Backend, registry: map<Key, Registration>, s: State, listening: bool) {
    && Listens(b, registry, listening)
    && (forall id :: id in s.armed <==> TimerKey(b, id) in registry && registry[TimerKey(b, id)] == TimerFor(id))
    && (if s.pending.Some? then WriteKey(b) in registry && registry[WriteKey(b)] == WriteOf(s.pending.value)
        else WriteKey(b) !in registry)
    && (forall key :: key in registry && registry[key].enabled ==>
          var event := registry[key].event;
          && key == KeyOf(b, event.kind, event.id)
          && ((event.kind.Timer? && event.id in s.armed)
              || (event.kind.Write? && event.id == 1 && s.pending.Some?)
              || (event.kind.Read? && event.id == 0 && !registry[key].oneShot)))
  }

  lemma {:induction false} SetRegistered(b: Backend, registry: map<Key, Registration>, s: State, listening: bool,
                                         id: int, callback: Js)
    requires Registered(b, registry, s, listening) && id !in s.issued
    requires b.Epoll? ==> id != 0 && id != 1 && TimerKey(b, id) !in registry
    ensures Registered(b, registry[TimerKey(b, id) := TimerFor(id)], Next(b, s, Set(id, callback)).value, listening)
  {
  }

  /** What registering a write does to the registry: nothing under epoll while one is registered. */
  function WithWrite(b: Backend, registry: map<Key, Registration>, payload: Bytes): map<Key, Registration> {
    if b.Epoll? && WriteKey(b) in registry then registry else registry[WriteKey(b) := WriteOf(payload)]
  }

  lemma {:induction false} EmitRegistered(b: Backend, registry: map<Key, Registration>, s: State, listening: bool,
                                          payload: Bytes)
    requires Registered(b, registry, s, listening)
    ensures Registered(b, WithWrite(b, registry, payload), Next(b, s, Emit(payload)).value, listening)
  {
    var t := Next(b, s, Emit(payload)).value;
    var r := WithWrite(b, registry, payload);
    forall id ensures id in t.armed <==> TimerKey(b, id) in r && r[TimerKey(b, id)] == TimerFor(id) {
      if TimerKey(b, id) == WriteKey(b) {
        assert WriteKey(b) in registry ==> registry[WriteKey(b)] != TimerFor(id);
      }
    }
  }

  /** Ids handed out are descriptors in use other than the standard ones, or lie within the counter. */
  ghost predicate Issued(manager: Manager, s: State)
    reads manager
  {
    IssuedFrom(manager.backend, manager.registry.Keys, manager.openFds, manager.lastId, s.issued)
  }

  ghost predicate IssuedFrom(b: Backend, keys: set<Key>, openFds: set<int>, lastId: int, issued: set<int>) {
    if b.Epoll? then
      && {0, 1} <= openFds && issued <= openFds - {0, 1}
      && forall key :: key in keys ==> key.Descriptor? && key.fd in openFds
    else forall id :: id in issued ==> id <= lastId
  }

  lemma {:induction false} SetIssued(
      b: Backend, keys: set<Key>, openFds: set<int>, lastId: int, issued: set<int>, id: int)
    requires IssuedFrom(b, keys, openFds, lastId, issued)
    requires b.Epoll? ==> id !in openFds
    requires b.Kqueue? ==> id == lastId + 1
    ensures id !in issued && (b.Epoll? ==> id != 0 && id != 1 && TimerKey(b, id) !in keys)
    ensures var openFds' := if b.Epoll? then openFds + {id} else openFds;
            var lastId' := if b.Epoll? then lastId else id;
            IssuedFrom(b, keys + {TimerKey(b, id)}, openFds', lastId', issued + {id})
  {
  }

  lemma {:induction false} WriteIssued(
      b: Backend, keys: set<Key>, openFds: set<int>, lastId: int, issued: set<int>, keys': set<Key>)
    requires IssuedFrom(b, keys, openFds, lastId, issued) && keys' <= keys + {WriteKey(b)}
    ensures IssuedFrom(b, keys', openFds, lastId, issued)
  {
  }

  class Program {
    const ctx: Context
    const manager: Manager
    const stdin: Source
    const stdout: Sink

    /** erl_encode and erl_decode, and whether char is signed. */
    const encode: Term -> Bytes
    const decode: Bytes -> Input
    const signedChar: bool

    /** The steps taken so far and the state they lead to. */
    ghost var steps: seq<Step>
    ghost var state: State

    /** All of stdin, and the packets taken from it so far, one for every input event. */
    ghost const input: Bytes
    ghost var inputs: seq<Input>

    /** Whether erlm_listen_input_event has been called. */
    ghost var listening: bool

    ghost predicate Valid()
      reads this, ctx`timeouts, manager, stdin, stdout
    {
      && Consistent()
      && Registered(manager.backend, manager.registry, state, listening)
      && Issued(manager, state)
    }

    /** The history agrees with the timer table and with the streams. */
    ghost predicate Consistent()
      reads this, ctx`timeouts, stdin, stdout
    {
      && Run(manager.backend, steps) == Some(state)
      && state.table == ctx.timeouts
      && (!stdout.failed ==> stdout.written == Frames(state.written))
      && (!stdin.failed ==> Heard(decode, ReadFrames(signedChar, input, |inputs|), inputs, stdin.rest))
    }

    constructor (backend: Backend, input: Bytes, encode: Term -> Bytes, decode: Bytes -> Input, signedChar: bool)
      ensures Valid() && steps == [] && inputs == [] && !listening
      ensures fresh(ctx) && fresh(manager) && fresh(stdin) && fresh(stdout)
      ensures manager.backend == backend && this.encode == encode && this.decode == decode
      ensures this.input == input && this.signedChar == signedChar
      ensures ctx.stack == []
    {
      ctx := new Context();
      manager := new Manager(backend, {0, 1, 2});
      stdin := new Source(input);
      stdout := new Sink();
      this.input, inputs, listening := input, [], false;
      this.encode, this.decode, this.signedChar := encode, decode, signedChar;
      steps, state := [], START;
    }

    /** Records a step. */
    ghost method Take(step: Step)
      requires Run(manager.backend, steps) == Some(state) && Next(manager.backend, state, step).Some?
      modifies this`steps, this`state
      ensures steps == old(steps) + [step]
      ensures state == Next(manager.backend, old(state), step).value
      ensures Run(manager.backend, steps) == Some(state)
    {
      state := Next(manager.backend, state, step).value;
      steps := steps + [step];
      assert steps[..|steps| - 1] == old(steps);
    }

    /** JavaScript calling setTimeout. */
    method JsSetTimeout(args: seq<Js>)
      requires Valid()
      modifies this`steps, this`state, ctx`stack, ctx`timeouts,
               manager`registry, manager`openFds, manager`lastId, manager`delays
      ensures Valid() && ctx.stack == old(ctx.stack) && state.running == old(state.running)
      ensures IsPrefix(old(steps), steps) && Records(encode, CallSetTimeout(args), steps[|old(steps)|..])
    {
      var frame := ctx.stack;
      ctx.stack := AsSlots(args);
      var ret;
      ghost var id;
      ret, id := SetTimeout(ctx, manager);
      if |args| == 2 {
        SetIssued(manager.backend, old(manager.registry.Keys), old(manager.openFds), old(manager.lastId),
                  state.issued, id);
        SetRegistered(manager.backend, old(manager.registry), state, listening, id, args[0]);
        assert manager.registry.Keys == old(manager.registry.Keys) + {TimerKey(manager.backend, id)};
        Take(Set(id, args[0]));
      }
      ctx.stack := frame;
    }

    /** JavaScript calling clearTimeout. */
    method JsClearTimeout(args: seq<Js>)
      requires Valid()
      modifies this`steps, this`state, ctx`stack, ctx`timeouts
      ensures Valid() && ctx.stack == old(ctx.stack) && state.running == old(state.running)
      ensures IsPrefix(old(steps), steps) && Records(encode, CallClearTimeout(args), steps[|old(steps)|..])
    {
      var frame := ctx.stack;
      ctx.stack := AsSlots(args);
      var ret := ClearTimeout(ctx);
      if |args| == 1 {
        Take(Clear(IdOf(args[0])));
      }
      ctx.stack := frame;
    }

    /** Elm calling erlm_output_port_handler; the last argument is what gets sent. */
    method JsOutputPort(self: Js, args: seq<Js>)
      requires Valid()
      modifies this`steps, this`state, ctx`stack, manager`registry
      ensures Valid() && ctx.stack == old(ctx.stack) && state.running == old(state.running)
      ensures IsPrefix(old(steps), steps) && Records(encode, CallOutputPort(self, args), steps[|old(steps)|..])
    {
      var frame := ctx.stack;
      ctx.stack := AsSlots(args);
      var ok := SendArgument(self, args);
      if ok {
        RecordEmit(old(manager.registry), encode(Payload(args)));
      }
      ctx.stack := frame;
    }

    /** Records the emission that has led to the registry. */
    ghost method RecordEmit(registry: map<Key, Registration>, payload: Bytes)
      requires Consistent() && Registered(manager.backend, registry, state, listening)
      requires IssuedFrom(manager.backend, registry.Keys, manager.openFds, manager.lastId, state.issued)
      requires manager.registry == WithWrite(manager.backend, registry, payload)
      modifies this`steps, this`state
      ensures Valid() && steps == old(steps) + [Emit(payload)] && state.running == old(state.running)
    {
      EmitRegistered(manager.backend, registry, state, listening, payload);
      WriteIssued(manager.backend, registry.Keys, manager.openFds, manager.lastId, state.issued, manager.registry.Keys);
      Take(Emit(payload));
    }

    /** erlm_output_port_handler in its own frame: reads the name of the port from this[0], translates the
        argument on top and asks for its writing. ok is false when reading the name throws. */
    method SendArgument(self: Js, ghost args: seq<Js>) returns (ok: bool)
      requires ctx.stack == AsSlots(args)
      modifies ctx`stack, manager`registry
      ensures ok <==> NamesPort(self)
      ensures manager.registry ==
              if ok then WithWrite(manager.backend, old(manager.registry), encode(Payload(args)))
              else old(manager.registry)
    {
      ok := ReadPortName(self);
      if !ok {
        return;
      }
      var term := Atom("undefined");
      if |ctx.stack| > 0 {
        term := GetTerm(ctx, -1);
      }
      var _ := manager.SubscribeWrite(encode(term));
    }

    /** The start of erlm_output_port_handler; the name itself is only logged. */
    method ReadPortName(self: Js) returns (ok: bool)
      modifies ctx`stack
      ensures ok <==> NamesPort(self)
      ensures ok ==> ctx.stack == old(ctx.stack)
    {
      var _ := ctx.Push(Val(self));
      ok := ctx.GetPropIndex(-1, 0);
      if !ok {
        return;
      }
      ok := ctx.GetPropString(-1, "portName");
      if ok {
        ctx.Pop(3);
        var _ := ctx.Push(Stash);
        ctx.GetStashProp(-1, "eventsManager");
        ctx.Pop(2);
      }
    }

    /** JavaScript code that makes these calls and returns. */
    method RunScript(script: seq<JsCall>)
      requires Valid()
      modifies this`steps, this`state, ctx`stack, ctx`timeouts,
               manager`registry, manager`openFds, manager`lastId, manager`delays
      ensures Valid() && ctx.stack == old(ctx.stack) && state.running == old(state.running)
      ensures Ran(encode, script, old(steps), steps)
    {
      assert steps[|steps|..] == [];
      for i := 0 to |script|
        invariant Valid() && ctx.stack == old(ctx.stack) && state.running == old(state.running)
        invariant Ran(encode, script[..i], old(steps), steps)
      {
        ghost var before := steps;
        match script[i] {
          case CallSetTimeout(args) => JsSetTimeout(args);
          case CallClearTimeout(args) => JsClearTimeout(args);
          case CallOutputPort(self, args) => JsOutputPort(self, args);
        }
        RanOneMore(encode, script, i, old(steps), before, steps);
      }
      assert script[..|script|] == script;
    }

    /** erlm_listen_input_event. */
    method Listen()
      requires Valid() && !listening
      modifies manager`registry, this`listening
      ensures Valid() && listening
    {
      ReadRegistered(manager.backend, manager.registry, state);
      var _ := manager.SubscribeRead(0);
      assert manager.registry == WithRead(manager.backend, old(manager.registry));
      listening := true;
    }

    /** events_wait in the loop; delivering a timer is the Fire step. */
    method Await() returns (event: Option<Event>)
      requires Valid() && state.running.None?
      modifies this`steps, this`state, manager`registry, manager`waits
      ensures Valid() && manager.waits == old(manager.waits) + 1
      ensures state.pending == old(state.pending) && state.table == old(state.table)
      ensures event.None? || !event.value.kind.Timer? ==> steps == old(steps) && state == old(state)
      ensures event.Some? && event.value.kind.Timer? ==>
                && steps == old(steps) + [Fire(event.value.id)]
                && state.running == if Calls(state, event.value.id) then Some(event.value.id) else None
      ensures event.Some? && event.value.kind.Write? ==>
                event.value.id == 1 && state.pending.Some? && event.value.data == state.pending
      ensures event.Some? && event.value.kind.Read? ==> event.value.id == 0
    {
      ghost var key;
      event, key := manager.Wait();
      if event.Some? && event.value.kind.Timer? {
        FireRegistered(manager.backend, old(manager.registry), state, listening, key, manager.registry);
        Take(Fire(event.value.id));
      }
    }

    /** duk_timers_handle_event. The callback runs script; alive is false when it ends the program by
        throwing. */
    method HandleTimer(event: Event, script: seq<JsCall>) returns (alive: bool)
      requires Valid()
      requires if event.kind.Timer? && Calls(state, event.id) then state.running == Some(event.id)
               else state.running.None?
      modifies this`steps, this`state, ctx`stack, ctx`timeouts, ctx`calls,
               manager`registry, manager`openFds, manager`lastId, manager`delays
      ensures old(state.running).None? ==>
                && alive && Valid() && state == old(state) && steps == old(steps)
                && ctx.stack == old(ctx.stack) && ctx.calls == old(ctx.calls)
                && manager.registry == old(manager.registry)
      ensures old(state.running).Some? && alive ==>
                && Valid() && state.running.None? && ctx.stack == old(ctx.stack)
                && |steps| > 0 && steps[|steps| - 1] == Return && Ran(encode, script, old(steps), steps[..|steps| - 1])
      ensures old(state.running).Some? && !alive ==>
                Valid() && state.running == old(state.running) && Ran(encode, script, old(steps), steps)
      ensures old(state.running).Some? ==>
                ctx.calls == old(ctx.calls) + [Call(Val(old(ctx.timeouts[event.id])), [], !alive)]
    {
      if event.kind != Timer {
        return true;
      }
      PushEntry(ctx, event.id);
      if IsFunction(ctx.At(-1)) {
        alive := CallTimer(event.id, script);
      } else {
        ctx.Pop(3);
        alive := true;
      }
    }

    /** The call in duk_timers_handle_event, with the stash, the timer table and the callback on top. */
    method CallTimer(id: int, script: seq<JsCall>) returns (alive: bool)
      requires Valid() && state.running == Some(id)
      requires |ctx.stack| >= 3 && ctx.At(-2) == Timeouts && IsFunction(ctx.At(-1))
      modifies this`steps, this`state, ctx`stack, ctx`timeouts, ctx`calls,
               manager`registry, manager`openFds, manager`lastId, manager`delays
      ensures alive ==>
                && Valid() && state.running.None? && ctx.stack == old(ctx.stack)[..|old(ctx.stack)| - 3]
                && |steps| > 0 && steps[|steps| - 1] == Return && Ran(encode, script, old(steps), steps[..|steps| - 1])
      ensures !alive ==> Valid() && state.running == Some(id) && Ran(encode, script, old(steps), steps)
      ensures ctx.calls == old(ctx.calls) + [Call(old(ctx.At(-1)), [], !alive)]
    {
      RunScript(script);
      ghost var ran := steps;
      alive := CompleteCall(id);
      assert alive ==> steps[..|steps| - 1] == ran;
    }

    /** The call itself, whose outcome decides whether there is anything after it. */
    method CompleteCall(id: int) returns (alive: bool)
      requires Valid() && state.running == Some(id)
      requires |ctx.stack| >= 3 && ctx.At(-2) == Timeouts && IsFunction(ctx.At(-1))
      modifies this`steps, this`state, ctx`stack, ctx`timeouts, ctx`calls
      ensures Valid() && (alive ==> state.running.None? && ctx.stack == old(ctx.stack)[..|old(ctx.stack)| - 3])
      ensures !alive ==> state == old(state)
      ensures steps == if alive then old(steps) + [Return] else old(steps)
      ensures ctx.calls == old(ctx.calls) + [Call(old(ctx.At(-1)), [], !alive)]
    {
      alive := CallOnTop();
      if alive {
        FinishCall(id);
      }
    }

    /** duk_call without arguments. */
    method CallOnTop() returns (alive: bool)
      requires |ctx.stack| > 0 && IsFunction(ctx.At(-1))
      modifies ctx`stack, ctx`calls
      ensures |ctx.stack| == |old(ctx.stack)|
      ensures ctx.stack[..|ctx.stack| - 1] == old(ctx.stack)[..|ctx.stack| - 1]
      ensures ctx.calls == old(ctx.calls) + [Call(old(ctx.At(-1)), [], !alive)]
    {
      assert ctx.stack[|ctx.stack|..] == [];
      alive := ctx.Call(0);
    }

    /** After the call: drops its result, deletes the entry, drops the table and the stash. */
    method FinishCall(id: int)
      requires Valid() && state.running == Some(id)
      requires |ctx.stack| >= 3 && ctx.At(-2) == Timeouts
      modifies this`steps, this`state, ctx`stack, ctx`timeouts
      ensures Valid() && state.running.None? && steps == old(steps) + [Return]
      ensures ctx.stack == old(ctx.stack)[..|old(ctx.stack)| - 3]
    {
      ctx.Pop(1);
      ctx.DelTimeout(-1, id);
      ctx.Pop(2);
      Take(Return);
    }

    /** erlm_handle_output_event: writes the pending packet and frees the slot. */
    method HandleOutput(event: Event)
      requires Valid() && state.running.None?
      requires event.kind.Write? && event.id == 1 ==> state.pending.Some? && event.data == state.pending
      modifies this`steps, this`state, manager`registry, stdout
      ensures Valid() && state.running.None?
      ensures steps == if event.kind.Write? && event.id == 1 then old(steps) + [Drain] else old(steps)
    {
      if event.id != 1 || event.kind != Write {
        return;
      }
      var payload := event.data.value;
      DrainRegistered(manager.backend, manager.registry, state, listening);
      FramesMore(state.written, payload);
      var _ := IoWritePacket2(stdout, payload);
      manager.Unsubscribe(event);
      Take(Drain);
    }

    /** erlm_handle_input_event. The called port, if one is reached, runs script; alive is false when the
        program ends. */
    method HandleInputEvent(event: Event, script: seq<JsCall>) returns (alive: bool)
      requires Valid() && |ctx.stack| > 0 && ctx.At(-1).Val?
      modifies this`steps, this`state, this`inputs, ctx`stack, ctx`timeouts, ctx`calls,
               manager`registry, manager`openFds, manager`lastId, manager`delays, stdin
      ensures Valid() && state.running == old(state.running)
      ensures alive ==> |ctx.stack| > 0 && ctx.At(-1).Val?
      ensures steps == old(steps) || (alive && Ran(encode, script, old(steps), steps))
      ensures |ctx.calls| == |old(ctx.calls)| ==> steps == old(steps)
      ensures event.kind.Read? && event.id == 0 ==>
                && OneMoreInput(old(inputs), inputs)
                && var packet := inputs[|old(inputs)|];
                && (!stdin.failed ==> TakenFrom(decode, ReadFrame(signedChar, old(stdin.rest)), packet, stdin.rest))
                && (alive <==> Ports.Deliverable(old(ctx.At(-1)), packet.name, packet.args))
                && (alive ==> ctx.stack == Ports.AfterDelivery(old(ctx.stack), packet.args))
                && if alive && ToJs(packet.args).value.Arr?
                   then Ports.Called(old(ctx.calls), ctx.calls, Ports.SendOf(old(ctx.At(-1)), packet.name).value,
                                     AsSlots(ToJs(packet.args).value.elems))
                   else ctx.calls == old(ctx.calls)
      ensures !(event.kind.Read? && event.id == 0) ==>
                alive && steps == old(steps) && ctx.stack == old(ctx.stack) && state == old(state)
                && ctx.calls == old(ctx.calls) && inputs == old(inputs)
    {
      if event.id != 0 || event.kind != Read {
        return true;
      }
      var packet := TakePacket();
      var reached := |ctx.calls|;
      alive := Ports.HandleInput(ctx, packet.name, packet.args);
      if alive && |ctx.calls| > reached {
        RunScript(script);
      }
    }

    /** The start of erlm_handle_input_event: reads a packet into a buffer that holds anything before, and
        decodes the buffer without looking at the result of reading. */
    method TakePacket() returns (packet: Input)
      requires Valid()
      modifies this`inputs, stdin
      ensures Valid() && inputs == old(inputs) + [packet]
      ensures !stdin.failed ==> TakenFrom(decode, ReadFrame(signedChar, old(stdin.rest)), packet, stdin.rest)
    {
      var buffer := new Byte[0xffff];
      var r := IoReadPacket2(stdin, buffer, signedChar);
      packet := decode(buffer[..]);
      ghost var frame := ReadFrame(signedChar, old(stdin.rest));
      if !stdin.failed {
        if frame.Packet? {
          assert buffer[..] == frame.payload + buffer[r..];
        }
        HeardMore(decode, signedChar, input, inputs, old(stdin.rest), packet, stdin.rest);
      }
      inputs := inputs + [packet];
    }

    /** One turn of the event loop of do_something: waits for an event and offers it to the three handlers.
        Without an event, waiting has failed. */
    method Turn(script: seq<JsCall>) returns (event: Option<Event>, alive: bool)
      requires Valid() && state.running.None? && |ctx.stack| > 0 && ctx.At(-1).Val?
      modifies this`steps, this`state, this`inputs, ctx`stack, ctx`timeouts, ctx`calls, manager, stdin, stdout
      ensures Valid() && manager.waits == old(manager.waits) + 1
      ensures event.None? ==> alive && steps == old(steps) && ctx.stack == old(ctx.stack) && ctx.calls == old(ctx.calls)
      ensures if event.Some? && event.value.kind.Read? then OneMoreInput(old(inputs), inputs)
              else inputs == old(inputs)
      ensures alive ==> state.running.None? && |ctx.stack| > 0 && ctx.At(-1).Val?
      ensures alive && event.Some? ==> TurnTaken(encode, script, old(steps), old(state), event.value, steps)
      ensures event.Some? && event.value.kind.Timer? ==>
                TimerCalled(old(ctx.calls), ctx.calls, old(ctx.timeouts), event.value.id, !alive)
      ensures CallsExtend(old(ctx.calls), ctx.calls)
      ensures !alive ==> event.Some? && KilledBy(
                event.value, encode, script, old(steps), steps, state, old(ctx.At(-1)), inputs)
      ensures !alive && event.value.kind.Timer? ==> LastThrew(|old(ctx.calls)|, ctx.calls)
    {
      alive := true;
      event := Await();
      if event.Some? {
        alive := Dispatch(event.value, script);
      }
    }

    /** The three handlers, one after the other, on an event just delivered. */
    method Dispatch(event: Event, script: seq<JsCall>) returns (alive: bool)
      requires Valid() && |ctx.stack| > 0 && ctx.At(-1).Val?
      requires if event.kind.Timer? && Calls(state, event.id) then state.running == Some(event.id)
               else state.running.None?
      requires event.kind.Write? ==> event.id == 1 && state.pending.Some? && event.data == state.pending
      requires event.kind.Read? ==> event.id == 0
      modifies this`steps, this`state, this`inputs, ctx`stack, ctx`timeouts, ctx`calls, stdin, stdout,
               manager`registry, manager`openFds, manager`lastId, manager`delays
      ensures Valid()
      ensures if event.kind.Read? then OneMoreInput(old(inputs), inputs) else inputs == old(inputs)
      ensures alive ==> state.running.None? && |ctx.stack| > 0 && ctx.At(-1).Val?
      ensures alive ==> Dispatched(encode, script, old(steps), old(state.running).Some?, event, steps)
      ensures event.kind.Timer? ==>
                TimerCalled(old(ctx.calls), ctx.calls, old(ctx.timeouts), event.id, !alive)
      ensures CallsExtend(old(ctx.calls), ctx.calls)
      ensures !alive ==>
                match event.kind
                case Timer =>
                  && state.running.Some? && Ran(encode, script, old(steps), steps)
                  && LastThrew(|old(ctx.calls)|, ctx.calls)
                case Read => state.running.None? && steps == old(steps) && Undeliverable(old(ctx.At(-1)), inputs)
                case _ => false
    {
      alive := HandleTimer(event, script);
      if alive {
        alive := OfferToStreams(event, script);
      }
    }

    /** The handlers of input and output. */
    method OfferToStreams(event: Event, script: seq<JsCall>) returns (alive: bool)
      requires Valid() && state.running.None? && |ctx.stack| > 0 && ctx.At(-1).Val?
      requires event.kind.Write? ==> event.id == 1 && state.pending.Some? && event.data == state.pending
      requires event.kind.Read? ==> event.id == 0
      modifies this`steps, this`state, this`inputs, ctx`stack, ctx`timeouts, ctx`calls, stdin, stdout,
               manager`registry, manager`openFds, manager`lastId, manager`delays
      ensures Valid() && state.running.None?
      ensures if event.kind.Read? then OneMoreInput(old(inputs), inputs) else inputs == old(inputs)
      ensures alive ==> |ctx.stack| > 0 && ctx.At(-1).Val?
      ensures event.kind.Write? ==> alive && steps == old(steps) + [Drain]
      ensures event.kind.Timer? || event.kind.Custom? ==> alive && steps == old(steps) && ctx.calls == old(ctx.calls)
      ensures CallsExtend(old(ctx.calls), ctx.calls)
      ensures event.kind.Read? ==> steps == old(steps) || (alive && Ran(encode, script, old(steps), steps))
      ensures !alive ==> steps == old(steps) && Undeliverable(old(ctx.At(-1)), inputs)
    {
      alive := HandleInputEvent(event, script);
      if alive {
        HandleOutput(event);
      }
    }

    /** The event loop of do_something: ten turns, unless waiting fails. What JavaScript does in turn i is
        scripts[i]. receiver is the value on top of the stack in the last turn. */
    method EventLoop(scripts: seq<seq<JsCall>>)
      returns (ending: Ending, turns: nat, waitFailed: bool, ghost receiver: Slot)
      requires Valid() && state.running.None? && |ctx.stack| > 0 && ctx.At(-1).Val?
      requires |scripts| == TURNS
      modifies this`steps, this`state, this`inputs, ctx`stack, ctx`timeouts, ctx`calls, manager, stdin, stdout
      ensures Valid() && IsPrefix(old(steps), steps) && |old(inputs)| <= |inputs|
      ensures CallsExtend(old(ctx.calls), ctx.calls)
      ensures Handled(steps) <= Handled(old(steps)) + turns + if ending.Done? then 0 else 1
      ensures turns <= 10 && manager.waits == old(manager.waits) + turns + if ending.Done? && !waitFailed then 0 else 1
      ensures if ending.Done? then (turns == 10) == !waitFailed else turns < 10
      ensures LoopEnding(ending, state, receiver, |old(inputs)|, inputs, |old(ctx.calls)|, ctx.calls)
    {
      ending, turns, waitFailed, receiver := Done, 0, false, ctx.At(-1);
      for i := 0 to TURNS
        invariant Valid() && state.running.None? && |ctx.stack| > 0 && ctx.At(-1).Val?
        invariant IsPrefix(old(steps), steps) && Handled(steps) <= Handled(old(steps)) + turns
        invariant |old(inputs)| <= |inputs| && CallsExtend(old(ctx.calls), ctx.calls)
        invariant turns == i && !waitFailed && manager.waits == old(manager.waits) + i
      {
        ghost var before, s := steps, state;
        receiver := ctx.At(-1);
        var event, alive := Turn(scripts[i]);
        if event.None? {
          waitFailed := true;
          break;
        }
        if !alive {
          ending := if event.value.kind.Timer? then CallbackThrew else PacketUndeliverable;
          KilledHandlesOne(encode, scripts[i], before, event.value, steps);
          return;
        }
        turns := turns + 1;
        TurnHandlesOne(encode, scripts[i], before, s, event.value, steps);
      }
    }

    /** What do_something does once the compiled program is evaluated to its exports: it starts the worker,
        lists the ports if asked to, subscribes to the output ports, listens to stdin and enters the loop.
        setup is what JavaScript does until then. instance is what the worker has returned, and started the calls
        made until then. */
    method Start(exports: Js, noRun: bool, verbose: bool, setup: seq<JsCall>, scripts: seq<seq<JsCall>>)
      returns (ending: Ending, ghost instance: Slot, ghost receiver: Slot, ghost started: seq<Call>)
      requires Valid() && steps == [] && inputs == [] && ctx.stack == [] && ctx.calls == [] && !listening
      requires |scripts| == TURNS && !exports.Opaque?
      modifies this`steps, this`state, this`inputs, this`listening, ctx`stack, ctx`timeouts, ctx`calls,
               manager, stdin, stdout
      ensures Valid()
      ensures ending.NoExport? <==> Exported(exports) == []
      ensures ending.NoExport? || ending.WorkerFailed? ==> Handled(steps) == 0 && inputs == [] && !listening
      ensures !ending.NoExport? ==>
                var elm := SlotProp(Val(exports), Exported(exports)[0].key);
                && elm.Some?
                && WorkerOutcome(SlotProp(elm.value, "worker"), ending.WorkerFailed?, started)
      ensures CallsExtend(started, ctx.calls) && (ending.NoExport? || ending.WorkerFailed? ==> started == ctx.calls)
      ensures !ending.NoExport? && !ending.WorkerFailed? ==>
                instance.Val? && Handled(steps) <= 10 && Served(noRun, instance, ending, receiver, started)
    {
      instance, receiver := Val(Undefined), Val(Undefined);
      var ok, failed := Launch(exports, setup);
      started := ctx.calls;
      if !ok {
        ending := NoExport;
      } else if failed {
        ending := WorkerFailed;
      } else {
        instance := ctx.At(-1);
        ending, receiver := Proceed(noRun, verbose, scripts);
      }
    }

    /** The part of do_something that starts the worker. */
    method Launch(exports: Js, setup: seq<JsCall>) returns (ok: bool, failed: bool)
      requires Valid() && steps == [] && inputs == [] && ctx.stack == [] && ctx.calls == [] && !listening
      requires !exports.Opaque?
      modifies this`steps, this`state, ctx`stack, ctx`timeouts, ctx`calls,
               manager`registry, manager`openFds, manager`lastId, manager`delays
      ensures Valid() && state.running.None? && Handled(steps) == 0
      ensures ok <==> Exported(exports) != []
      ensures ok ==>
                var elm := SlotProp(Val(exports), Exported(exports)[0].key);
                elm.Some? && WorkerOutcome(SlotProp(elm.value, "worker"), failed, ctx.calls)
      ensures ok ==> |ctx.stack| == 1 && ctx.At(-1).Val?
    {
      RunScript(setup);
      RanExtends(encode, setup, [], steps);
      ExtendsHandlesNothing([], steps);
      var _ := ctx.Push(Val(exports));
      ok, failed := StartWorker(ctx);
    }

    /** The part of do_something that follows a successful start of the worker. */
    method Proceed(noRun: bool, verbose: bool, scripts: seq<seq<JsCall>>) returns (ending: Ending, ghost receiver: Slot)
      requires Valid() && state.running.None? && |ctx.stack| > 0 && ctx.At(-1).Val? && |scripts| == TURNS
      requires Handled(steps) == 0 && inputs == [] && !listening
      modifies this`steps, this`state, this`inputs, this`listening, ctx`stack, ctx`timeouts, ctx`calls,
               manager, stdin, stdout
      ensures Valid() && Handled(steps) <= 10 && CallsExtend(old(ctx.calls), ctx.calls)
      ensures !ending.NoExport? && !ending.WorkerFailed?
      ensures Served(noRun, old(ctx.At(-1)), ending, receiver, old(ctx.calls))
    {
      ending, receiver := Done, ctx.At(-1);
      ghost var before := ctx.calls;
      if verbose {
        Ports.PrintPortsInfo(ctx);
      }
      ghost var top := ctx.At(-1);
      if !noRun {
        ending, receiver := Serve(scripts);
        ServedAlike(old(ctx.At(-1)), top, ending, receiver, before);
      }
    }

    /** The part of do_something that -n leaves out. */
    method Serve(scripts: seq<seq<JsCall>>) returns (ending: Ending, ghost receiver: Slot)
      requires Valid() && state.running.None? && |ctx.stack| > 0 && ctx.At(-1) != Stash && |scripts| == TURNS
      requires Ports.Subscribable(ctx.At(-1)) ==> ctx.At(-1).Val?
      requires Handled(steps) == 0 && inputs == [] && !listening
      modifies this`steps, this`state, this`inputs, this`listening, ctx`stack, ctx`timeouts, ctx`calls,
               manager, stdin, stdout
      ensures Valid() && Handled(steps) <= 10 && CallsExtend(old(ctx.calls), ctx.calls)
      ensures !ending.NoExport? && !ending.WorkerFailed?
      ensures Served(false, old(ctx.At(-1)), ending, receiver, old(ctx.calls))
    {
      receiver := ctx.At(-1);
      var ok := Ports.SubscribeAll(ctx);
      if !ok {
        SubscribedPrefix(old(ctx.At(-1)), old(ctx.calls), ctx.calls);
        return SubscriptionThrew, receiver;
      }
      ghost var subscribed := ctx.calls;
      Listen();
      var turns, waitFailed;
      ending, turns, waitFailed, receiver := EventLoop(scripts);
      SubscribedThen(old(ctx.At(-1)), ending, old(ctx.calls), subscribed, ctx.calls);
      assert LoopEnding(ending, state, receiver, 0, inputs, |old(ctx.calls)|, ctx.calls);
    }

    /** What becomes of a program with this instance: nothing with -n; otherwise it subscribes, listens and
        enters the loop, unless subscribing throws. */
    ghost predicate Served(noRun: bool, instance: Slot, ending: Ending, receiver: Slot, before: seq<Call>)
      requires instance != Stash
      reads this, ctx`calls
    {
      if noRun then ending.Done? && Handled(steps) == 0 && inputs == [] && !listening && ctx.calls == before
      else
        && Subscribed(instance, ending, before, ctx.calls)
        && listening == !ending.SubscriptionThrew?
        && if ending.SubscriptionThrew? then Handled(steps) == 0 && inputs == []
           else LoopEnding(ending, state, receiver, 0, inputs, |before|, ctx.calls)
    }

    lemma {:induction false} ServedAlike(instance: Slot, top: Slot, ending: Ending, receiver: Slot, before: seq<Call>)
      requires instance != Stash && top != Stash && Ports.Alike(instance, top)
      requires Served(false, top, ending, receiver, before)
      ensures Served(false, instance, ending, receiver, before)
    {
    }

    /** What every history of the program guarantees about a timer: its callback has been called at most
        once, and its entry is in the table exactly while it may still be called, is being called, or is no
        function. */
    lemma {:induction false} TimerGuarantees(id: int)
      requires Valid()
      ensures CallCount(manager.backend, steps, id) <= 1
      ensures id in ctx.timeouts <==>
                && CallbackOf(steps, id).Some? && !Cleared(steps, id)
                && (FireCount(steps, id) == 0 || state.running == Some(id) || !CallbackOf(steps, id).value.Fun?)
      ensures id in ctx.timeouts ==> CallbackOf(steps, id) == Some(ctx.timeouts[id])
    {
      CalledAtMostOnce(manager.backend, steps, id);
      TimerStates(manager.backend, steps, id);
    }

    /** As long as stdin works, the packets taken from it are the ones Erlang sent, in order, and the next
        one stands at the front, provided each is an encoded term with a length that survives the wire. */
    lemma {:induction false} ErlangIsHeard(payloads: seq<Bytes>, rest: Bytes)
      requires Valid() && !stdin.failed
      requires input == Frames(payloads) + rest && AllReadable(signedChar, payloads)
      requires |inputs| <= |payloads|
      requires forall i :: 0 <= i < |payloads| ==> SelfDelimiting(decode, payloads[i])
      ensures forall i :: 0 <= i < |inputs| ==> inputs[i] == decode(payloads[i])
      ensures stdin.rest == Frames(payloads[|inputs|..]) + rest
    {
      var n := |inputs|;
      var taken, behind := payloads[..n], Frames(payloads[n..]) + rest;
      FramesSplit(payloads, n);
      assert input == Frames(taken) + behind;
      StreamRoundTrip(signedChar, taken, behind);
      assert ReadFrames(signedChar, input, n) == Some((taken, behind));
      forall i | 0 <= i < n ensures inputs[i] == decode(payloads[i]) {
        assert DecodedFrom(decode, taken[i], inputs[i]) && SelfDelimiting(decode, payloads[i]);
      }
    }

    /** As long as stdout works, what the Erlang side reads, two unsigned length bytes per packet, is the
        sequence of survivors of the bursts between drains, provided each fits its length field. */
    lemma {:induction false} ErlangReads()
      requires Valid() && !stdout.failed
      requires forall i :: 0 <= i < |state.written| ==> |state.written[i]| < 0x1_0000
      ensures forall i :: 0 <= i < |Bursts(steps)| ==> Bursts(steps)[i] != []
      ensures ReadFrames(false, stdout.written, |Bursts(steps)|)
              == Some((Survivors(manager.backend, Bursts(steps)), []))
    {
      OutputIsSurvivors(manager.backend, steps);
      StreamRoundTrip(false, state.written, []);
      assert Frames(state.written) + [] == stdout.written;
    }
  }

  const TURNS: nat := 10

  ghost predicate CallsExtend(before: seq<Call>, after: seq<Call>) {
    |before| <= |after| && after[..|before|] == before
  }

  ghost predicate LastThrew(called: nat, calls: seq<Call>) {
    |calls| > called && calls[|calls| - 1].threw
  }

  /** A delivered timer makes one call if its entry is a function, and none otherwise. */
  ghost predicate TimerCalled(before: seq<Call>, after: seq<Call>, table: map<int, Js>, id: int, threw: bool) {
    after == before + if id in table && table[id].Fun? then [Call(Val(table[id]), [], threw)] else []
  }

  /** A turn that ended the program: the callback of a timer threw, or a packet could not be delivered. */
  ghost predicate KilledBy(
      event: Event, encode: Term -> Bytes, script: seq<JsCall>, before: seq<Step>, after: seq<Step>, s: State,
      receiver: Slot, inputs: seq<Input>) {
    match event.kind
    case Timer =>
      s.running.Some? && Ran(encode, script, before + [Fire(event.id)], after)
    case Read => s.running.None? && after == before && Undeliverable(receiver, inputs)
    case _ => false
  }

  /** Why the loop ended: regularly, or since a timer's callback threw, being called, or since the last packet
      could not be delivered to the value on top of the stack. */
  ghost predicate LoopEnding(
      ending: Ending, s: State, receiver: Slot, heard: nat, inputs: seq<Input>, called: nat, calls: seq<Call>) {
    match ending
    case Done => s.running.None?
    case CallbackThrew => s.running.Some? && LastThrew(called, calls)
    case PacketUndeliverable => s.running.None? && |inputs| > heard && Undeliverable(receiver, inputs)
    case _ => false
  }

  /** The start failed exactly if there is no function to call as worker, or the call of it threw; the call is
      the first one made. */
  ghost predicate WorkerOutcome(worker: Option<Slot>, failed: bool, calls: seq<Call>) {
    if worker.Some? && IsFunction(worker.value)
    then calls != [] && calls[0] == Call(worker.value, [], failed)
    else failed && calls == []
  }

  lemma {:induction false} SubscribedThen(
      instance: Slot, ending: Ending, before: seq<Call>, subscribed: seq<Call>, after: seq<Call>)
    requires instance != Stash && Ports.Subscribable(instance) && !ending.SubscriptionThrew?
    requires if PortsOf(instance).None? then subscribed == before
             else Ports.SubscribedTo(PortsOf(instance).value, true, before, subscribed)
    requires CallsExtend(subscribed, after)
    ensures Subscribed(instance, ending, before, after) && |before| <= |subscribed| && CallsExtend(before, after)
  {
    assert after[..|before|] == subscribed[..|before|];
  }

  lemma {:induction false} SubscribedPrefix(instance: Slot, before: seq<Call>, after: seq<Call>)
    requires instance != Stash
    requires if PortsOf(instance).None? then after == before
             else Ports.SubscribedTo(PortsOf(instance).value, false, before, after)
    ensures CallsExtend(before, after)
  {
  }

  /** Subscribing made the calls it should, and ended the program exactly if it threw; without a `ports` object
      it makes none. */
  ghost predicate Subscribed(instance: Slot, ending: Ending, before: seq<Call>, after: seq<Call>)
    requires instance != Stash
  {
    var ports := PortsOf(instance);
    if ports.None? then
      (ending.SubscriptionThrew? <==> !Ports.Subscribable(instance)) && CallsExtend(before, after)
      && (ending.SubscriptionThrew? ==> after == before)
    else if ending.SubscriptionThrew? then Ports.SubscribedTo(ports.value, false, before, after)
    else exists calls :: Ports.SubscribedTo(ports.value, true, before, calls) && CallsExtend(calls, after)
  }

  /** The last packet cannot be delivered. */
  predicate Undeliverable(receiver: Slot, inputs: seq<Input>) {
    && inputs != [] && receiver.Val?
    && var packet := inputs[|inputs| - 1];
       !Ports.Deliverable(receiver, packet.name, packet.args)
  }

  // ---- Input packets ----

  predicate OneMoreInput(before: seq<Input>, after: seq<Input>) {
    |after| == |before| + 1 && after[..|before|] == before
  }

  /** The packet comes from this payload, whatever stands behind it in the buffer. */
  ghost predicate DecodedFrom(decode: Bytes -> Input, payload: Bytes, packet: Input) {
    exists junk: Bytes :: packet == decode(payload + junk)
  }

  /** The packet is the one framed at the front of stdin, if there is one, and is consumed. */
  ghost predicate TakenFrom(decode: Bytes -> Input, frame: Received, packet: Input, rest: Bytes) {
    frame.Packet? ==> DecodedFrom(decode, frame.payload, packet) && rest == frame.rest
  }

  /** The packets come from the frames read, in order, and the rest is what follows these. */
  ghost predicate Heard(decode: Bytes -> Input, frames: Option<(seq<Bytes>, Bytes)>, inputs: seq<Input>, rest: Bytes) {
    frames.Some? ==>
      && |frames.value.0| == |inputs| && rest == frames.value.1
      && forall i :: 0 <= i < |inputs| ==> DecodedFrom(decode, frames.value.0[i], inputs[i])
  }

  lemma {:induction false} HeardMore(decode: Bytes -> Input, signedChar: bool, input: Bytes, inputs: seq<Input>,
                                     before: Bytes, packet: Input, after: Bytes)
    requires Heard(decode, ReadFrames(signedChar, input, |inputs|), inputs, before)
    requires TakenFrom(decode, ReadFrame(signedChar, before), packet, after)
    ensures Heard(decode, ReadFrames(signedChar, input, |inputs| + 1), inputs + [packet], after)
  {
    ReadFramesMore(signedChar, input, |inputs|);
  }

  /** erl_decode takes one term from the front of what it is given; so this holds of every encoded term. */
  ghost predicate SelfDelimiting(decode: Bytes -> Input, payload: Bytes) {
    forall junk: Bytes :: decode(payload + junk) == decode(payload)
  }

  lemma {:induction false} FramesSplit(payloads: seq<Bytes>, n: nat)
    requires n <= |payloads|
    ensures Frames(payloads) == Frames(payloads[..n]) + Frames(payloads[n..])
  {
    if n > 0 {
      FramesSplit(payloads[1..], n - 1);
      assert payloads[..n][1..] == payloads[1..][..n - 1];
      assert payloads[1..][n - 1..] == payloads[n..];
    } else {
      assert payloads[0..] == payloads;
    }
  }

  ghost predicate IsPrefix(before: seq<Step>, after: seq<Step>) {
    |before| <= |after| && after[..|before|] == before
  }

  /** The steps one event leads to: a delivery, with a whole call when the timer's entry is a function; one
      drain; or what an input packet makes JavaScript do. */
  ghost predicate TurnTaken(
      encode: Term -> Bytes, script: seq<JsCall>, before: seq<Step>, s: State, event: Event, after: seq<Step>) {
    var fired := if event.kind.Timer? then before + [Fire(event.id)] else before;
    Dispatched(encode, script, fired, Calls(s, event.id), event, after)
  }

  /** The part of those steps that the handlers take. */
  ghost predicate Dispatched(
      encode: Term -> Bytes, script: seq<JsCall>, before: seq<Step>, calling: bool, event: Event, after: seq<Step>) {
    match event.kind
    case Timer =>
      if calling then |after| > 0 && after[|after| - 1] == Return && Ran(encode, script, before, after[..|after| - 1])
      else after == before
    case Write => after == before + [Drain]
    case Read => after == before || Ran(encode, script, before, after)
    case Custom => after == before
  }

  /** The number of events in a history that delivered a timer or wrote a packet. */
  function Handled(steps: seq<Step>): nat {
    if steps == [] then 0
    else
      var last := steps[|steps| - 1];
      Handled(steps[..|steps| - 1]) + if last.Fire? || last.Drain? then 1 else 0
  }

  lemma {:induction false} ExtendsHandlesNothing(before: seq<Step>, after: seq<Step>)
    requires Extends(before, after)
    ensures Handled(after) == Handled(before)
  {
    if |after| == |before| {
      assert after == before;
    } else {
      assert after[..|after| - 1][..|before|] == after[..|before|];
      ExtendsHandlesNothing(before, after[..|after| - 1]);
    }
  }

  lemma {:induction false} TurnHandlesOne(
      encode: Term -> Bytes, script: seq<JsCall>, before: seq<Step>, s: State, event: Event, after: seq<Step>)
    requires TurnTaken(encode, script, before, s, event, after)
    ensures IsPrefix(before, after) && Handled(after) <= Handled(before) + 1
  {
    match event.kind
    case Timer =>
      var fired := before + [Fire(event.id)];
      assert fired[..|fired| - 1] == before;
      if Calls(s, event.id) {
        RanExtends(encode, script, fired, after[..|after| - 1]);
        ExtendsHandlesNothing(fired, after[..|after| - 1]);
        assert after[..|before|] == after[..|after| - 1][..|fired|][..|before|];
      }
    case Write =>
      assert after[..|after| - 1] == before;
    case Read =>
      if after != before {
        RanExtends(encode, script, before, after);
        ExtendsHandlesNothing(before, after);
      }
    case Custom =>
  }

  /** A turn that ended the program. */
  lemma {:induction false} KilledHandlesOne(
      encode: Term -> Bytes, script: seq<JsCall>, before: seq<Step>, event: Event, after: seq<Step>)
    requires if event.kind.Timer? then Ran(encode, script, before + [Fire(event.id)], after) else after == before
    ensures IsPrefix(before, after) && Handled(after) <= Handled(before) + 1
  {
    if event.kind.Timer? {
      var fired := before + [Fire(event.id)];
      assert fired[..|fired| - 1] == before;
      RanExtends(encode, script, fired, after);
      ExtendsHandlesNothing(fired, after);
      assert after[..|before|] == after[..|fired|][..|before|];
    }
  }

  lemma {:induction false} RanExtends(encode: Term -> Bytes, script: seq<JsCall>, before: seq<Step>, after: seq<Step>)
    requires Ran(encode, script, before, after)
    ensures Extends(before, after)
  {
    AllRecordsExtend(encode, script, after[|before|..]);
    forall i | |before| <= i < |after| ensures after[i].Set? || after[i].Clear? || after[i].Emit? {
      assert after[i] == after[|before|..][i - |before|];
    }
  }

  lemma {:induction false} AllRecordsExtend(encode: Term -> Bytes, script: seq<JsCall>, added: seq<Step>)
    requires AllRecords(encode, script, added)
    ensures forall i :: 0 <= i < |added| ==> added[i].Set? || added[i].Clear? || added[i].Emit?
  {
    if script != [] {
      var k := |added| - StepsOf(script[|script| - 1]);
      AllRecordsExtend(encode, script[..|script| - 1], added[..k]);
      forall i | 0 <= i < |added| ensures added[i].Set? || added[i].Clear? || added[i].Emit? {
        if i < k {
          assert added[i] == added[..k][i];
        } else {
          assert added[i] == added[k..][i - k];
        }
      }
    }
  }

  lemma {:induction false} RanOneMore(
      encode: Term -> Bytes, script: seq<JsCall>, i: nat, start: seq<Step>, before: seq<Step>, after: seq<Step>)
    requires i < |script| && Ran(encode, script[..i], start, before)
    requires IsPrefix(before, after) && Records(encode, script[i], after[|before|..])
    ensures Ran(encode, script[..i + 1], start, after)
  {
    var added := after[|start|..];
    var k := |added| - StepsOf(script[i]);
    assert script[..i + 1][..i] == script[..i];
    assert added[..k] == before[|start|..];
    assert added[k..] == after[|before|..];
    assert after[..|start|] == before[..|start|];
  }

  function WithRead(b: Backend, registry: map<Key, Registration>): map<Key, Registration> {
    if b.Epoll? && KeyOf(b, Read, 0) in registry then registry
    else registry[KeyOf(b, Read, 0) := Registration(Event(Read, 0, None), false, true)]
  }

  lemma {:induction false} ReadRegistered(b: Backend, registry: map<Key, Registration>, s: State)
    requires Registered(b, registry, s, false)
    ensures Registered(b, WithRead(b, registry), s, true)
  {
  }

  lemma {:induction false} FireRegistered(
      b: Backend, registry: map<Key, Registration>, s: State, listening: bool, key: Key,
      after: map<Key, Registration>)
    requires Registered(b, registry, s, listening) && s.running.None?
    requires key in registry && registry[key].enabled && registry[key].event.kind.Timer?
    requires after == if !registry[key].oneShot then registry
                      else if b.Epoll? then registry[key := registry[key].(enabled := false)] else registry - {key}
    ensures Next(b, s, Fire(registry[key].event.id)).Some?
    ensures Registered(b, after, Next(b, s, Fire(registry[key].event.id)).value, listening)
  {
  }

  lemma {:induction false} DrainRegistered(b: Backend, registry: map<Key, Registration>, s: State, listening: bool)
    requires Registered(b, registry, s, listening) && s.running.None? && s.pending.Some?
    ensures Registered(b, registry - {WriteKey(b)}, Next(b, s, Drain).value, listening)
  {
  }

  lemma {:induction false} FramesMore(payloads: seq<Bytes>, payload: Bytes)
    ensures Frames(payloads + [payload]) == Frames(payloads) + Frame(payload)
  {
    if payloads == [] {
      assert [payload][1..] == [];
      assert Frames([payload]) == Frame(payload) + Frames([payload][1..]);
    } else {
      FramesMore(payloads[1..], payload);
      assert (payloads + [payload])[1..] == payloads[1..] + [payload];
    }
  }

  /** The id that clearTimeout reads from its argument. */
  function IdOf(v: Js): int {
    if v.Num? then ToInt(v.n) else 0
  }

  /** The term an output port sends. */
  function Payload(args: seq<Js>): Term {
    if args == [] then Atom("undefined") else ToErl(args[|args| - 1])
  }

  /** Whether this[0].portName can be read in a handler: this[0] must not be undefined or null. */
  predicate NamesPort(self: Js) {
    var first := GetIndex(self, 0);
    first.Some? && GetProp(first.value, "portName").Some?
  }

  /** What setTimeout returned is the id that clearTimeout reads. */
  lemma {:induction false} ReturnedIdIsRead(id: int)
    requires -0x8000_0000 <= id <= 0x7fff_ffff
    ensures IdOf(Num(id as real)) == id
  {
    IdRoundTrip(id);
  }

  /** What an output port sends pushes as the normal form of its last argument. */
  lemma {:induction false} LastArgumentIsSent(args: seq<Js>)
    requires args != []
    ensures ToJs(Payload(args)) == Some(Norm(args[|args| - 1]))
  {
    RoundTripIsNorm(args[|args| - 1]);
  }

  /** A handler as subscribed carries the name of its port where it is looked for when it is called as an
      element of an array of handlers, which is how Elm calls it. */
  lemma {:induction false} SubscribedHandlerNamesPort(name: Text, others: seq<Js>)
    ensures var handler := Ports.HandlerFor(name).v;
            && GetIndex(Arr([handler] + others, []), 0) == Some(handler)
            && GetProp(handler, "portName") == Some(Str(name))
            && NamesPort(Arr([handler] + others, []))
  {
  }

  /** How many steps a call takes: one, unless a timer function is called with the wrong number of
      arguments, or a handler with a `this` that names no port. */
  function StepsOf(call: JsCall): nat {
    match call
    case CallSetTimeout(args) => if |args| == 2 then 1 else 0
    case CallClearTimeout(args) => if |args| == 1 then 1 else 0
    case CallOutputPort(self, _) => if NamesPort(self) then 1 else 0
  }

  /** The steps are those of the call. */
  ghost predicate Records(encode: Term -> Bytes, call: JsCall, added: seq<Step>) {
    |added| == StepsOf(call) &&
    match call
    case CallSetTimeout(args) => |args| == 2 ==> added[0].Set? && added[0].callback == args[0]
    case CallClearTimeout(args) => |args| == 1 ==> added[0] == Clear(IdOf(args[0]))
    case CallOutputPort(self, args) => NamesPort(self) ==> added[0] == Emit(encode(Payload(args)))
  }

  ghost predicate AllRecords(encode: Term -> Bytes, script: seq<JsCall>, added: seq<Step>) {
    if script == [] then added == []
    else
      var last := script[|script| - 1];
      var k := |added| - StepsOf(last);
      0 <= k && Records(encode, last, added[k..]) && AllRecords(encode, script[..|script| - 1], added[..k])
  }

  /** The steps added are those of the script, call by call. */
  ghost predicate Ran(encode: Term -> Bytes, script: seq<JsCall>, before: seq<Step>, after: seq<Step>) {
    IsPrefix(before, after) && AllRecords(encode, script, after[|before|..])
  }

  /** More sets, clears and emissions, but no deliveries, returns or drains. */
  ghost predicate Extends(before: seq<Step>, after: seq<Step>) {
    && |before| <= |after| && after[..|before|] == before
    && forall i :: |before| <= i < |after| ==> after[i].Set? || after[i].Clear? || after[i].Emit?
  }
}
