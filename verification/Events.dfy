/** The registries of src/events.c, one interface over epoll and kqueue. */
module Events {
  import opened Options
  import opened PacketIo
  import opened EventMachine

  datatype EventType = Custom | Read | Timer | Write

  /** struct event; the data of interest is the packet to write. */
  datatype Event = Event(kind: EventType, id: int, data: Option<Bytes>)

  /** What the kernel keys a registration by: epoll by descriptor, kqueue by filter and identifier. */
  datatype Key = Descriptor(fd: int) | Filter(kind: EventType, ident: int)

  /** A registration; a one-shot one is disabled by its delivery. */
  datatype Registration = Registration(event: Event, oneShot: bool, enabled: bool)

  function KeyOf(b: Backend, kind: EventType, id: int): Key {
    if b.Epoll? then Descriptor(id) else Filter(kind, id)
  }

  function TimerFor(id: int): Registration {
    Registration(Event(Timer, id, None), true, true)
  }

  function WriteOf(payload: Bytes): Registration {
    Registration(Event(Write, 1, Some(payload)), false, true)
  }

  /** The delay of a timer in nanoseconds; under epoll it is never negative. */
  function DelayFor(b: Backend, timeout: int): int {
    if b.Epoll? && timeout <= 0 then 0 else timeout * 1_000_000
  }

  lemma {:induction false} SomeBound(s: set<int>) returns (bound: int)
    ensures forall x :: x in s ==> x < bound
    decreases s
  {
    bound := 0;
    if x :| x in s {
      var lower := SomeBound(s - {x});
      bound := if x < lower then lower else x + 1;
      forall y | y in s ensures y < bound {
        assert y == x || y in s - {x};
      }
    }
  }

  class Manager {
    const backend: Backend
    var registry: map<Key, Registration>
    var openFds: set<int>
    var lastId: int

    /** After how many nanoseconds the kernel reports each timer. */
    var delays: map<int, int>

    /** How often it has been waited for an event. */
    var waits: nat

    constructor (backend: Backend, openFds: set<int>)
      ensures this.backend == backend && this.openFds == openFds && registry == map[] && lastId == 0 && waits == 0
    {
      this.backend, this.openFds := backend, openFds;
      registry, lastId, delays, waits := map[], 0, map[], 0;
    }

    /** timerfd_create or eventfd: any descriptor not in use. */
    method NewDescriptor() returns (fd: int)
      modifies this`openFds
      ensures fd !in old(openFds) && fd >= 0 && openFds == old(openFds) + {fd}
    {
      ghost var bound := SomeBound(openFds + {0});
      assert bound >= 0 && bound !in openFds;
      fd :| fd >= 0 && fd !in openFds;
      openFds := openFds + {fd};
    }

    /** epoll_ctl(EPOLL_CTL_ADD) fails on a descriptor that is registered already; EV_ADD replaces. */
    method Register(registration: Registration) returns (ok: bool)
      modifies this`registry
      ensures var key := KeyOf(backend, registration.event.kind, registration.event.id);
              && (ok <==> backend.Kqueue? || key !in old(registry))
              && registry == if ok then old(registry)[key := registration] else old(registry)
    {
      var key := KeyOf(backend, registration.event.kind, registration.event.id);
      ok := backend.Kqueue? || key !in registry;
      if ok {
        registry := registry[key := registration];
      }
    }

    /** events_send_timeout, for a number of milliseconds. Under epoll a timer is a timerfd set in seconds and
        nanoseconds, or an eventfd when it is already due; under kqueue it is numbered by a counter. */
    method SendTimeout(timeout: int) returns (id: int)
      requires backend.Epoll? ==> forall key :: key in registry ==> key.Descriptor? && key.fd in openFds
      modifies this`registry, this`openFds, this`lastId, this`delays
      ensures registry == old(registry)[KeyOf(backend, Timer, id) := TimerFor(id)]
      ensures backend.Epoll? ==> id !in old(openFds) && openFds == old(openFds) + {id} && lastId == old(lastId)
      ensures backend.Kqueue? ==> id == lastId == old(lastId) + 1 && openFds == old(openFds)
      ensures delays == old(delays)[id := DelayFor(backend, timeout)]
      ensures timeout > 0 ==> delays[id] == timeout * 1_000_000
      ensures timeout <= 0 && backend.Epoll? ==> delays[id] == 0
    {
      if backend.Epoll? {
        id := NewDescriptor();
        var seconds, nanoseconds := timeout / 1000, timeout % 1000 * 1_000_000;
        delays := delays[id := if timeout <= 0 then 0 else seconds * 1_000_000_000 + nanoseconds];
      } else {
        lastId := lastId + 1;
        id := lastId;
        delays := delays[id := timeout * 1_000_000];
      }
      var ok := Register(TimerFor(id));
      assert ok;
    }

    /** events_subscribe_read. */
    method SubscribeRead(fd: int) returns (r: int)
      modifies this`registry
      ensures var key := KeyOf(backend, Read, fd);
              if backend.Epoll? && key in old(registry) then r == -1 && registry == old(registry)
              else r == fd && registry == old(registry)[key := Registration(Event(Read, fd, None), false, true)]
    {
      var ok := Register(Registration(Event(Read, fd, None), false, true));
      r := if ok then fd else -1;
    }

    /** events_subscribe_write on stdout. */
    method SubscribeWrite(payload: Bytes) returns (r: int)
      modifies this`registry
      ensures var key := KeyOf(backend, Write, 1);
              if backend.Epoll? && key in old(registry) then r == -1 && registry == old(registry)
              else r == 1 && registry == old(registry)[key := WriteOf(payload)]
    {
      var ok := Register(WriteOf(payload));
      r := if ok then 1 else -1;
    }

    /** events_unsubscribe: epoll removes the descriptor, kqueue a read or write filter. */
    method Unsubscribe(event: Event)
      modifies this`registry
      ensures registry == if backend.Epoll? || event.kind.Read? || event.kind.Write?
                          then old(registry) - {KeyOf(backend, event.kind, event.id)} else old(registry)
    {
      if backend.Epoll? || event.kind.Read? || event.kind.Write? {
        registry := registry - {KeyOf(backend, event.kind, event.id)};
      }
    }

    /** events_wait for one event: any enabled registration, or an error. A one-shot registration is
        disabled under epoll and removed under kqueue. */
    method Wait() returns (event: Option<Event>, ghost key: Key)
      modifies this`registry, this`waits
      ensures waits == old(waits) + 1
      ensures event.None? ==> registry == old(registry)
      ensures event.Some? ==>
                && key in old(registry) && old(registry)[key].enabled && old(registry)[key].event == event.value
                && registry == if !old(registry)[key].oneShot then old(registry)
                               else if backend.Epoll? then old(registry)[key := old(registry)[key].(enabled := false)]
                               else old(registry) - {key}
    {
      key := Descriptor(0);
      event := None;
      waits := waits + 1;
      if * {
        return;
      }
      if k :| k in registry && registry[k].enabled {
        key := k;
        event := Some(registry[k].event);
        if registry[k].oneShot {
          registry := if backend.Epoll? then registry[k := registry[k].(enabled := false)] else registry - {k};
        }
      }
    }
  }
}
