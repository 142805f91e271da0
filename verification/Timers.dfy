/** The C functions behind setTimeout and clearTimeout, from src/duk_timers.c. Each runs in a stack frame of
    its own that starts with the arguments of the JavaScript call. */
module Timers {
  import opened JsValues
  import opened ErlTerms
  import opened BridgeSpec
  import opened Duktape
  import opened Events

  const DUK_RET_ERROR := -1

  predicate AllValues(stack: seq<Slot>) {
    forall i :: 0 <= i < |stack| ==> stack[i].Val?
  }

  /** duk_timers_set_timeout. */
  method SetTimeout(ctx: Context, manager: Manager) returns (ret: int, ghost id: int)
    requires AllValues(ctx.stack)
    requires manager.backend.Epoll? ==>
               forall key :: key in manager.registry ==> key.Descriptor? && key.fd in manager.openFds
    modifies ctx`stack, ctx`timeouts, manager`registry, manager`openFds, manager`lastId, manager`delays
    ensures |old(ctx.stack)| != 2 ==>
              && ret == DUK_RET_ERROR && ctx.timeouts == old(ctx.timeouts)
              && manager.registry == old(manager.registry)
              && manager.openFds == old(manager.openFds) && manager.lastId == old(manager.lastId)
              && manager.delays == old(manager.delays)
    ensures |old(ctx.stack)| == 2 ==>
              && ret == 1 && ctx.stack == [Val(Num(id as real))]
              && ctx.timeouts == old(ctx.timeouts)[id := old(ctx.stack)[0].v]
              && manager.delays == old(manager.delays)[id := DelayFor(manager.backend, old(ctx.GetInt(1)))]
              && manager.registry == old(manager.registry)[KeyOf(manager.backend, Timer, id) := TimerFor(id)]
              && (manager.backend.Epoll? ==>
                    id !in old(manager.openFds) && manager.openFds == old(manager.openFds) + {id}
                    && manager.lastId == old(manager.lastId))
              && (manager.backend.Kqueue? ==>
                    id == manager.lastId == old(manager.lastId) + 1 && manager.openFds == old(manager.openFds))
  {
    id := 0;
    if |ctx.stack| != 2 {
      return DUK_RET_ERROR, id;
    }
    ghost var args := ctx.stack;
    var _ := ctx.Push(Stash);
    ctx.GetStashProp(-1, "timersEventsManager");
    ctx.Pop(1);
    var timeout := ctx.GetInt(-2);
    assert ctx.stack == args + [Stash];
    var timerId := manager.SendTimeout(timeout);
    StoreCallback(ctx, timerId);
    return 1, timerId;
  }

  /** The rest of duk_timers_set_timeout: files the callback under the id and leaves only the id. */
  method StoreCallback(ctx: Context, timerId: int)
    requires |ctx.stack| == 3 && ctx.stack[0].Val? && ctx.stack[2] == Stash
    modifies ctx`stack, ctx`timeouts
    ensures ctx.stack == [Val(Num(timerId as real))]
    ensures ctx.timeouts == old(ctx.timeouts)[timerId := old(ctx.stack)[0].v]
  {
    ghost var below := ctx.stack;
    ctx.GetStashProp(-1, "timeoutCallbacks");
    ctx.Dup(-4);
    ctx.PutTimeout(-2, timerId);
    assert ctx.stack == below + [Timeouts];
    ctx.Pop(4);
    var _ := ctx.Push(Val(Num(timerId as real)));
  }

  /** duk_timers_clear_timeout. */
  method ClearTimeout(ctx: Context) returns (ret: int)
    requires AllValues(ctx.stack)
    modifies ctx`stack, ctx`timeouts
    ensures |old(ctx.stack)| != 1 ==> ret == DUK_RET_ERROR && ctx.timeouts == old(ctx.timeouts)
    ensures |old(ctx.stack)| == 1 ==>
              && ret == 0 && ctx.stack == []
              && ctx.timeouts == old(ctx.timeouts) - {old(ctx.GetInt(-1))}
  {
    if |ctx.stack| != 1 {
      return DUK_RET_ERROR;
    }
    var timerId := ctx.GetInt(-1);
    ctx.Pop(1);
    var _ := ctx.Push(Stash);
    ctx.GetStashProp(-1, "timeoutCallbacks");
    ctx.DelTimeout(-1, timerId);
    ctx.Pop(2);
    return 0;
  }

  /** The start of duk_timers_handle_event: pushes the stash, the timer table and the entry of the id. */
  method PushEntry(ctx: Context, id: int)
    modifies ctx`stack
    ensures ctx.stack == old(ctx.stack)
                         + [Stash, Timeouts, Val(if id in ctx.timeouts then ctx.timeouts[id] else Undefined)]
  {
    var _ := ctx.Push(Stash);
    ctx.GetStashProp(-1, "timeoutCallbacks");
    ctx.GetTimeout(-1, id);
  }

  /** The id that setTimeout returns to JavaScript is the one clearTimeout reads back. */
  lemma {:induction false} IdRoundTrip(id: int)
    requires -0x8000_0000 <= id <= 0x7fff_ffff
    ensures ToInt(id as real) == id
  {
    if id < 0 {
      assert -(id as real) == (-id) as real;
    }
  }

  /** Numbers are cut off towards zero, and clamped to a C int. */
  lemma {:induction false} IntIsTruncated(r: real)
    ensures -0x8000_0000 <= ToInt(r) <= 0x7fff_ffff
    ensures -0x8000_0001 as real < r < 0x8000_0000 as real ==>
              var n := ToInt(r) as real; if r >= 0.0 then n <= r < n + 1.0 else n - 1.0 < r <= n
    ensures r >= 0x8000_0000 as real ==> ToInt(r) == 0x7fff_ffff
    ensures r <= -0x8000_0001 as real ==> ToInt(r) == -0x8000_0000
  {
  }

  /** An integer pushed from Erlang reads as the same C int in C, an unsigned one as its two's complement. */
  lemma {:induction false} IntegerReadsBack(i: Int32, u: UInt32)
    ensures var v := ToJs(Int(i)); v.Some? && v.value.Num? && ToInt(v.value.n) == i
    ensures var v := ToJs(UInt(u)); v.Some? && v.value.Num? && (ToInt(v.value.n) - u) % 0x1_0000_0000 == 0
  {
    IdRoundTrip(i);
    IdRoundTrip(AsSigned(u));
  }
}
