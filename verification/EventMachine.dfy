/** The event, timer and output behaviour of erlm as a state machine over its steps, with what every run
    guarantees. src/events.c has two backends; they differ in what a second write request on stdout does. */
module EventMachine {
  import opened Options
  import opened JsValues
  import opened PacketIo
  import opened Sequences

  datatype Backend = Epoll | Kqueue

  /** issued: timer ids handed out; armed: timers that will still be delivered; table: timeoutCallbacks;
      running: the timer whose callback is being called; pending: the packet in the write slot of stdout. */
  datatype State = State(
    issued: set<int>,
    armed: set<int>,
    table: map<int, Js>,
    running: Option<int>,
    pending: Option<Bytes>,
    written: seq<Bytes>,
    dropped: seq<Bytes>)

  datatype Step =
    | Set(id: int, callback: Js)
    | Clear(id: int)
    | Fire(id: int)
    | Return
    | Emit(payload: Bytes)
    | Drain

  const START := State({}, {}, map[], None, None, [], [])

  /** Whether delivering timer id now calls its callback. */
  predicate Calls(s: State, id: int) {
    id in s.table && s.table[id].Fun?
  }

  /** One step; None when it cannot happen. Timer ids are new when issued, a timer is delivered once and
      not while a callback runs, and only a pending packet is drained. */
  function Next(b: Backend, s: State, step: Step): Option<State> {
    match step
    case Set(id, callback) =>
      if id in s.issued then None
      else Some(s.(issued := s.issued + {id}, armed := s.armed + {id}, table := s.table[id := callback]))
    case Clear(id) => Some(s.(table := s.table - {id}))
    case Fire(id) =>
      if id !in s.armed || s.running.Some? then None
      else Some(s.(armed := s.armed - {id}, running := if Calls(s, id) then Some(id) else None))
    case Return =>
      if s.running.None? then None
      else Some(s.(table := s.table - {s.running.value}, running := None))
    case Emit(payload) =>
      if s.pending.None? then Some(s.(pending := Some(payload)))
      else if b.Epoll? then Some(s.(dropped := s.dropped + [payload]))
      else Some(s.(pending := Some(payload), dropped := s.dropped + [s.pending.value]))
    case Drain =>
      if s.pending.None? || s.running.Some? then None
      else Some(s.(pending := None, written := s.written + [s.pending.value]))
  }

  function Run(b: Backend, steps: seq<Step>): Option<State> {
    if steps == [] then Some(START)
    else
      var before := Run(b, steps[..|steps| - 1]);
      if before.None? then None else Next(b, before.value, steps[|steps| - 1])
  }

  lemma {:induction false} RunPrefix(b: Backend, steps: seq<Step>, n: nat)
    requires n <= |steps| && Run(b, steps).Some?
    ensures Run(b, steps[..n]).Some?
  {
    if n == |steps| {
      assert steps[..n] == steps;
    } else {
      RunPrefix(b, steps[..|steps| - 1], n);
      assert steps[..|steps| - 1][..n] == steps[..n];
    }
  }

  // ---- Timers: what the history says ----

  /** The callback that timer id was set with. */
  function CallbackOf(steps: seq<Step>, id: int): Option<Js> {
    if steps == [] then None
    else
      var last := steps[|steps| - 1];
      if last.Set? && last.id == id then Some(last.callback) else CallbackOf(steps[..|steps| - 1], id)
  }

  /** Whether timer id has been cleared since it was set. */
  predicate Cleared(steps: seq<Step>, id: int) {
    steps != [] &&
    var last, before := steps[|steps| - 1], steps[..|steps| - 1];
    if last == Clear(id) then CallbackOf(before, id).Some?
    else !(last.Set? && last.id == id) && Cleared(before, id)
  }

  function FireCount(steps: seq<Step>, id: int): nat {
    if steps == [] then 0
    else FireCount(steps[..|steps| - 1], id) + if steps[|steps| - 1] == Fire(id) then 1 else 0
  }

  /** How often the callback of timer id has been called. */
  function CallCount(b: Backend, steps: seq<Step>, id: int): nat
    requires Run(b, steps).Some?
  {
    if steps == [] then 0
    else
      var before := steps[..|steps| - 1];
      RunPrefix(b, steps, |steps| - 1);
      CallCount(b, before, id)
      + if steps[|steps| - 1] == Fire(id) && Calls(Run(b, before).value, id) then 1 else 0
  }

  /** The reachable timer states, one id at a time: an id is armed from its Set to its one Fire; its table
      entry lasts until it is cleared or its call returns, and an entry that is no function is never
      removed by its delivery. */
  lemma {:induction false} TimerStates(b: Backend, steps: seq<Step>, id: int)
    requires Run(b, steps).Some?
    ensures var s := Run(b, steps).value;
            && (id in s.issued <==> CallbackOf(steps, id).Some?)
            && (id in s.armed <==> CallbackOf(steps, id).Some? && FireCount(steps, id) == 0)
            && FireCount(steps, id) <= 1
            && (FireCount(steps, id) == 1 ==> CallbackOf(steps, id).Some?)
            && (id in s.table <==>
                  && CallbackOf(steps, id).Some? && !Cleared(steps, id)
                  && (FireCount(steps, id) == 0 || s.running == Some(id) || !CallbackOf(steps, id).value.Fun?))
            && (id in s.table ==> s.table[id] == CallbackOf(steps, id).value)
            && (s.running == Some(id) ==> FireCount(steps, id) == 1 && CallbackOf(steps, id).value.Fun?)
            && (CallbackOf(steps, id).None? ==> !Cleared(steps, id))
  {
    if steps != [] {
      var before := steps[..|steps| - 1];
      TimerStates(b, before, id);
    }
  }

  lemma {:induction false} CallsAreFires(b: Backend, steps: seq<Step>, id: int)
    requires Run(b, steps).Some?
    ensures CallCount(b, steps, id) <= FireCount(steps, id)
  {
    if steps != [] {
      RunPrefix(b, steps, |steps| - 1);
      CallsAreFires(b, steps[..|steps| - 1], id);
    }
  }

  /** Over every run, including sets and clears made inside callbacks, no callback is called twice. */
  lemma {:induction false} CalledAtMostOnce(b: Backend, steps: seq<Step>, id: int)
    requires Run(b, steps).Some?
    ensures CallCount(b, steps, id) <= 1
  {
    CallsAreFires(b, steps, id);
    TimerStates(b, steps, id);
  }

  /** No step after k sets or clears the timer. */
  predicate Untouched(steps: seq<Step>, id: int, k: nat) {
    forall m :: k < m < |steps| ==> steps[m] != Clear(id) && !(steps[m].Set? && steps[m].id == id)
  }

  lemma {:induction false} SetAndNotCleared(steps: seq<Step>, id: int, callback: Js)
    ensures CallbackOf(steps, id) == Some(callback) && !Cleared(steps, id) <==>
            exists k :: 0 <= k < |steps| && steps[k] == Set(id, callback) && Untouched(steps, id, k)
  {
    if steps != [] {
      var n := |steps| - 1;
      var before, last := steps[..n], steps[n];
      SetAndNotCleared(before, id, callback);
      if last == Set(id, callback) {
        assert Untouched(steps, id, n);
      } else if last != Clear(id) && !(last.Set? && last.id == id) {
        if k :| 0 <= k < n && before[k] == Set(id, callback) && Untouched(before, id, k) {
          assert steps[k] == Set(id, callback) && Untouched(steps, id, k);
        }
        if k :| 0 <= k < |steps| && steps[k] == Set(id, callback) && Untouched(steps, id, k) {
          assert before[k] == Set(id, callback);
          forall m | k < m < n ensures before[m] != Clear(id) && !(before[m].Set? && before[m].id == id) {
            assert before[m] == steps[m];
          }
        }
      }
    }
  }

  /** A delivery calls exactly the function that its timer was set with, and exactly when no clear of that
      id lies between. */
  lemma {:induction false} DeliveryCalls(b: Backend, steps: seq<Step>, j: nat, id: int, callback: Js)
    requires Run(b, steps).Some? && j < |steps| && steps[j] == Fire(id)
    ensures Run(b, steps[..j]).Some?
    ensures var s := Run(b, steps[..j]).value;
            Calls(s, id) && s.table[id] == callback <==>
            callback.Fun? &&
            exists k :: 0 <= k < j && steps[k] == Set(id, callback) && forall m :: k < m < j ==> steps[m] != Clear(id)
  {
    var before := steps[..j];
    RunPrefix(b, steps, j);
    RunPrefix(b, steps, j + 1);
    assert steps[..j + 1][..j] == before && steps[..j + 1][j] == Fire(id);
    TimerStates(b, before, id);
    SetAndNotCleared(before, id, callback);
    if k :| 0 <= k < j && steps[k] == Set(id, callback) && forall m :: k < m < j ==> steps[m] != Clear(id) {
      SetOnlyOnce(b, before, id, k);
      assert before[k] == Set(id, callback);
      assert Untouched(before, id, k);
    }
    if k :| 0 <= k < j && before[k] == Set(id, callback) && Untouched(before, id, k) {
      forall m | k < m < j ensures steps[m] != Clear(id) {
        assert before[m] == steps[m];
      }
      assert steps[k] == Set(id, callback);
    }
  }

  lemma {:induction false} SetOnlyOnce(b: Backend, steps: seq<Step>, id: int, k: nat)
    requires Run(b, steps).Some? && k < |steps| && steps[k].Set? && steps[k].id == id
    ensures forall m :: k < m < |steps| ==> !(steps[m].Set? && steps[m].id == id)
  {
    forall m | k < m < |steps| ensures !(steps[m].Set? && steps[m].id == id) {
      RunPrefix(b, steps, m);
      RunPrefix(b, steps, m + 1);
      assert steps[..m + 1][..m] == steps[..m];
      SetIsIssued(b, steps[..m], id, k);
    }
  }

  lemma {:induction false} SetIsIssued(b: Backend, steps: seq<Step>, id: int, k: nat)
    requires Run(b, steps).Some? && k < |steps| && steps[k].Set? && steps[k].id == id
    ensures id in Run(b, steps).value.issued
  {
    if k < |steps| - 1 {
      SetIsIssued(b, steps[..|steps| - 1], id, k);
    }
  }

  /** An entry left over by a timer that is neither armed nor being called: one that was set with something
      that is no function, delivered, and not cleared. */
  lemma {:induction false} OrphanedEntries(b: Backend, steps: seq<Step>, id: int)
    requires Run(b, steps).Some?
    ensures var s := Run(b, steps).value;
            id in s.table && id !in s.armed && s.running != Some(id) <==>
            && CallbackOf(steps, id).Some? && !CallbackOf(steps, id).value.Fun?
            && FireCount(steps, id) == 1 && !Cleared(steps, id)
  {
    TimerStates(b, steps, id);
  }

  lemma {:induction false} OrphanExists(b: Backend)
    ensures var steps := [Set(7, Undefined), Fire(7)];
            Run(b, steps).Some? && 7 in Run(b, steps).value.table && 7 !in Run(b, steps).value.armed
  {
    var steps := [Set(7, Undefined), Fire(7)];
    assert steps[..1] == [Set(7, Undefined)] && steps[..1][..0] == [];
    assert Run(b, steps[..1][..0]) == Some(START);
    assert Run(b, steps[..1]) == Next(b, START, Set(7, Undefined));
  }

  /** While a callback runs, nothing else is delivered. */
  lemma {:induction false} NoDeliveryDuringCall(b: Backend, before: seq<Step>, during: seq<Step>, id: int)
    requires Run(b, before + during).Some? && Run(b, before).Some? && Run(b, before).value.running.Some?
    requires Return !in during
    ensures Run(b, before + during).value.running == Run(b, before).value.running
    ensures FireCount(before + during, id) == FireCount(before, id)
  {
    if during == [] {
      assert before + during == before;
    } else {
      var n := |during| - 1;
      assert (before + during)[..|before + during| - 1] == before + during[..n];
      NoDeliveryDuringCall(b, before, during[..n], id);
    }
  }

  /** The deletion after a call never hits a timer created during the call. */
  lemma {:induction false} NewTimersSurviveTheCall(b: Backend, before: seq<Step>, fired: int, during: seq<Step>,
                                                   id: int)
    requires var start := before + [Fire(fired)];
             && Run(b, start).Some? && Run(b, start).value.running == Some(fired)
             && Return !in during
             && Run(b, start + during + [Return]).Some?
             && CallbackOf(before, id).None?
             && CallbackOf(start + during, id).Some? && !Cleared(start + during, id)
    ensures var s := Run(b, before + [Fire(fired)] + during + [Return]).value;
            id in s.table && id in s.armed
  {
    var start := before + [Fire(fired)];
    var called := start + during;
    var all := called + [Return];
    assert all[..|all| - 1] == called;
    assert start[..|start| - 1] == before;
    NoDeliveryDuringCall(b, start, during, id);
    TimerStates(b, before, id);
    TimerStates(b, start, id);
    TimerStates(b, called, id);
  }

  // ---- Output: what the history says ----

  /** All packets emitted, in order. */
  function Emits(steps: seq<Step>): seq<Bytes> {
    if steps == [] then []
    else
      var before, last := Emits(steps[..|steps| - 1]), steps[|steps| - 1];
      if last.Emit? then before + [last.payload] else before
  }

  /** The packets emitted since the last drain. */
  function Burst(steps: seq<Step>): seq<Bytes> {
    if steps == [] || steps[|steps| - 1].Drain? then []
    else
      var before, last := Burst(steps[..|steps| - 1]), steps[|steps| - 1];
      if last.Emit? then before + [last.payload] else before
  }

  /** The earlier bursts, one for each drain. */
  function Bursts(steps: seq<Step>): seq<seq<Bytes>> {
    if steps == [] then []
    else
      var before, last := Bursts(steps[..|steps| - 1]), steps[|steps| - 1];
      if last.Drain? then before + [Burst(steps[..|steps| - 1])] else before
  }

  /** The one packet of a burst that survives: the first under epoll, whose second registration of stdout
      fails; the last under kqueue, where it replaces the first. */
  function Survivor(b: Backend, burst: seq<Bytes>): Bytes
    requires burst != []
  {
    if b.Epoll? then burst[0] else burst[|burst| - 1]
  }

  function Survivors(b: Backend, bursts: seq<seq<Bytes>>): (r: seq<Bytes>)
    requires forall i :: 0 <= i < |bursts| ==> bursts[i] != []
    ensures |r| == |bursts|
    ensures forall i :: 0 <= i < |bursts| ==> r[i] == Survivor(b, bursts[i])
  {
    seq(|bursts|, i requires 0 <= i < |bursts| => Survivor(b, bursts[i]))
  }

  /** Over every run, the packets written are the survivors of the bursts between drains, and the pending
      one is the survivor of the burst going on. */
  lemma {:induction false} OutputIsSurvivors(b: Backend, steps: seq<Step>)
    requires Run(b, steps).Some?
    ensures forall i :: 0 <= i < |Bursts(steps)| ==> Bursts(steps)[i] != []
    ensures var s := Run(b, steps).value;
            && s.written == Survivors(b, Bursts(steps))
            && s.pending == if Burst(steps) == [] then None else Some(Survivor(b, Burst(steps)))
  {
    if steps != [] {
      var before := steps[..|steps| - 1];
      OutputIsSurvivors(b, before);
    }
  }

  function Slot(pending: Option<Bytes>): seq<Bytes> {
    if pending.Some? then [pending.value] else []
  }

  /** All the packets a state still accounts for. */
  function Held(s: State): multiset<Bytes> {
    multiset(s.written) + multiset(Slot(s.pending)) + multiset(s.dropped)
  }

  lemma {:induction false} AppendCounts(packets: seq<Bytes>, p: Bytes)
    ensures multiset(packets + [p]) == multiset(packets) + multiset{p}
  {
  }

  lemma {:induction false} EmitConserves(b: Backend, s: State, p: Bytes)
    ensures Held(Next(b, s, Emit(p)).value) == Held(s) + multiset{p}
  {
    if s.pending.Some? {
      AppendCounts(s.dropped, if b.Epoll? then p else s.pending.value);
    }
  }

  lemma {:induction false} DrainConserves(b: Backend, s: State)
    requires Next(b, s, Drain).Some?
    ensures Held(Next(b, s, Drain).value) == Held(s)
  {
    AppendCounts(s.written, s.pending.value);
  }

  /** Conservation: every emitted packet is written, pending or dropped. */
  lemma {:induction false} OutputConserved(b: Backend, steps: seq<Step>)
    requires Run(b, steps).Some?
    ensures multiset(Emits(steps)) == Held(Run(b, steps).value)
  {
    if steps != [] {
      var before, last := steps[..|steps| - 1], steps[|steps| - 1];
      OutputConserved(b, before);
      if last.Emit? {
        EmitConserves(b, Run(b, before).value, last.payload);
        AppendCounts(Emits(before), last.payload);
      } else if last.Drain? {
        DrainConserves(b, Run(b, before).value);
      }
    }
  }

  lemma {:induction false} OutputCounted(b: Backend, steps: seq<Step>)
    requires Run(b, steps).Some?
    ensures var s := Run(b, steps).value;
            |Emits(steps)| == |s.written| + |Slot(s.pending)| + |s.dropped|
  {
    if steps != [] {
      OutputCounted(b, steps[..|steps| - 1]);
    }
  }

  /** What is written keeps the order of emission, also together with what is pending. */
  lemma {:induction false} OutputInOrder(b: Backend, steps: seq<Step>)
    requires Run(b, steps).Some?
    ensures var s := Run(b, steps).value;
            IsSubsequence(s.written, Emits(steps)) && IsSubsequence(s.written + Slot(s.pending), Emits(steps))
  {
    if steps != [] {
      var before := steps[..|steps| - 1];
      OutputInOrder(b, before);
      var s := Run(b, before).value;
      var step := steps[|steps| - 1];
      match step
      case Emit(payload) =>
        LongerSubsequence(s.written, Emits(before), payload);
        LongerSubsequence(s.written + Slot(s.pending), Emits(before), payload);
        assert s.written + [] == s.written;
      case Drain =>
        assert s.written + [s.pending.value] + [] == s.written + [s.pending.value];
      case _ =>
    }
  }

  predicate NoLongBurst(steps: seq<Step>) {
    |Burst(steps)| <= 1 && forall i :: 0 <= i < |Bursts(steps)| ==> |Bursts(steps)[i]| <= 1
  }

  lemma {:induction false} NothingDropped(b: Backend, steps: seq<Step>)
    requires Run(b, steps).Some?
    ensures Run(b, steps).value.dropped == [] <==> NoLongBurst(steps)
  {
    if steps != [] {
      var before, last := steps[..|steps| - 1], steps[|steps| - 1];
      NothingDropped(b, before);
      OutputIsSurvivors(b, before);
      var s := Run(b, before).value;
      if last.Drain? {
        DrainKeepsBursts(steps);
      } else {
        assert Bursts(steps) == Bursts(before);
        if last.Emit? {
          assert |Burst(steps)| == |Burst(before)| + 1;
          assert s.pending.None? <==> |Burst(before)| == 0;
        } else {
          assert Burst(steps) == Burst(before);
        }
      }
    }
  }

  lemma {:induction false} DrainKeepsBursts(steps: seq<Step>)
    requires steps != [] && steps[|steps| - 1].Drain?
    ensures NoLongBurst(steps) <==> NoLongBurst(steps[..|steps| - 1])
  {
    var before := steps[..|steps| - 1];
    var n := |Bursts(before)|;
    assert Bursts(steps)[n] == Burst(before);
    if NoLongBurst(steps) {
      forall i | 0 <= i < n ensures |Bursts(before)[i]| <= 1 {
        assert Bursts(before)[i] == Bursts(steps)[i];
      }
    }
  }

  lemma {:induction false} AllWrittenInOrder(b: Backend, steps: seq<Step>)
    requires Run(b, steps).Some? && Run(b, steps).value.dropped == []
    ensures var s := Run(b, steps).value; s.written + Slot(s.pending) == Emits(steps)
  {
    if steps != [] {
      var before := steps[..|steps| - 1];
      AllWrittenInOrder(b, before);
      var s := Run(b, before).value;
      assert s.written + [] == s.written;
    }
  }

  /** Nothing is lost exactly when no burst holds more than one packet, that is, when every emission but the
      first follows a drain. */
  lemma {:induction false} NothingLost(b: Backend, steps: seq<Step>)
    requires Run(b, steps).Some?
    ensures var s := Run(b, steps).value;
            s.written + Slot(s.pending) == Emits(steps) <==> NoLongBurst(steps)
  {
    NothingDropped(b, steps);
    OutputCounted(b, steps);
    if NoLongBurst(steps) {
      AllWrittenInOrder(b, steps);
    }
  }
}
