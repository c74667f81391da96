/** net/TimerQueue.cc in the form the source has: an object whose methods update its fields.
    Every C++ assert is an assert here, and every method is a step of TimerMachine. */
module TimerQueues {
  import opened Common
  import opened TimerMachine
  import opened TimerRuns

  /** What a user callback may do to the queue; the address of an added timer is the allocator's. */
  datatype CallbackOp =
    | Add(timer: Ptr, when: int, interval: int, repeat: bool, clock: int)
    | Remove(id: TimerId)

  class TimerQueue {
    var heap: map<Ptr, Timer>
    var numCreated: nat
    var timers: set<Entry>
    var active: set<TimerId>
    var calling: bool
    var canceling: set<TimerId>
    var alarm: Option<Alarm>
    ghost var phase: Phase
    ghost var queued: set<Ptr>
    ghost var issued: map<int, Ptr>

    ghost function View(): State
      reads this
    {
      State(heap, timers, active, canceling, phase, queued, issued, alarm)
    }

    ghost predicate Valid()
      reads this
    {
      Inv(View()) && calling == phase.Running? && numCreated == |issued|
    }

    constructor ()
      ensures Valid() && View() == Init
    {
      heap, numCreated, timers, active, calling, canceling, alarm := map[], 0, {}, {}, false, {}, None;
      phase, queued, issued := Idle, {}, map[];
    }

    /** The first half of addTimer: `new Timer`, at an address that holds no live timer. */
    method NewTimer(p: Ptr, when: int, interval: int, repeat: bool) returns (id: TimerId)
      requires Valid() && p !in heap && (repeat ==> interval >= 0)
      modifies this
      ensures Valid() && View() == Next(old(View()), Create(p, when, interval, repeat))
      ensures p in heap && p in queued && phase == old(phase)
      ensures id == IdOf(View(), p) && id.sequence !in old(issued)
      ensures heap == old(heap)[p := Timer(when, interval, repeat, id.sequence)]
    {
      hide Inv;
      NextNumberIsFresh(View(), p);
      InvNext(View(), Create(p, when, interval, repeat));
      numCreated := numCreated + 1;
      heap := heap[p := Timer(when, interval, repeat, numCreated)];
      queued := queued + {p};
      issued := issued[numCreated as int := p];
      id := TimerId(p, numCreated);
    }

    /** timers_.begin() of a non-empty set. */
    method First(entries: set<Entry>) returns (first: Entry)
      requires entries != {}
      ensures IsMin(first, entries) && first == Min(entries)
    {
      MinExists(entries);
      first :| first in entries && forall e | e in entries :: e == first || Less(first, e);
      assert IsMin(first, entries);
    }

    method Insert(timer: Ptr) returns (earliestChanged: bool)
      requires IndexesAgree(View()) && timer in heap && !IsActive(View(), timer)
      modifies `timers, `active
      ensures View() == TimerMachine.Insert(old(View()), timer)
      ensures earliestChanged <==> EarliestChanged(old(View()), heap[timer].expiration)
    {
      hide IndexesAgree, IsActive;
      InsertFacts(View(), timer);
      assert |timers| == |active|;
      earliestChanged := false;
      var when := heap[timer].expiration;
      if timers == {} {
        earliestChanged := true;
      } else {
        var first := First(timers);
        earliestChanged := when < first.when;
      }
      assert Entry(when, timer) !in timers;
      assert TimerId(timer, heap[timer].sequence) !in active;
      timers := timers + {Entry(when, timer)};
      active := active + {TimerId(timer, heap[timer].sequence)};
      assert |timers| == |active|;
    }

    method AddTimerInLoop(timer: Ptr, clock: int)
      requires Valid() && timer in queued
      modifies this
      ensures Valid() && View() == Next(old(View()), AddInLoop(timer, clock)) && phase == old(phase)
    {
      InvNext(View(), AddInLoop(timer, clock));
      var earliestChanged := Insert(timer);
      queued := queued - {timer};
      if earliestChanged {
        alarm := Some(ResetTimerfd(heap[timer].expiration, clock));
      }
    }

    method CancelInLoop(timerId: TimerId)
      requires Valid()
      modifies this
      ensures Valid() && View() == Next(old(View()), Cancel(timerId)) && phase == old(phase)
    {
      hide Inv;
      InvNext(View(), Cancel(timerId));
      CancelFacts(View(), timerId);
      assert |timers| == |active|;
      if timerId in active {
        var entry := Entry(heap[timerId.timer].expiration, timerId.timer);
        assert entry in timers;
        timers := timers - {entry};
        heap := heap - {timerId.timer};
        active := active - {timerId};
      } else if calling {
        canceling := canceling + {timerId};
      }
      assert |timers| == |active|;
    }

    /** std::copy of an ordered set into a vector. */
    method Copy(entries: set<Entry>) returns (copy: seq<Entry>)
      ensures copy == Ordered(entries)
    {
      hide Lists, Less, IsMin;
      copy := [];
      var rest := entries;
      while rest != {}
        invariant copy + Ordered(rest) == Ordered(entries)
      {
        var m := First(rest);
        assert Ordered(rest) == [m] + Ordered(rest - {m});
        copy := copy + [m];
        rest := rest - {m};
      }
    }

    method EraseActive(expired: seq<Entry>, ghost due: set<Entry>)
      requires IndexesAgree(View().(timers := timers + due)) && Lists(expired, due)
      modifies `active
      ensures active == old(active) - IdsOf(View(), due)
    {
      ghost var s := View().(timers := timers + due);
      hide IndexesAgree;
      var i := 0;
      while i < |expired|
        invariant 0 <= i <= |expired|
        invariant active == s.active - Ids(s, expired[..i])
      {
        DueIsActive(s, expired, due, i);
        var timer := TimerId(expired[i].timer, heap[expired[i].timer].sequence);
        assert timer in active;
        active := active - {timer};
        i := i + 1;
      }
      assert expired[..i] == expired;
      IdsOfBatch(s, View(), expired, due);
    }

    method GetExpired(now: int) returns (expired: seq<Entry>)
      requires IndexesAgree(View())
      modifies `timers, `active
      ensures expired == Ordered(Due(old(timers), now))
      ensures View() == DoAlarm(old(View()), now).(canceling := canceling, phase := phase, alarm := alarm)
    {
      hide IndexesAgree, Lists, Less, Due, IdsOf;
      ghost var s := View();
      SizesAroundAlarm(s, now);
      assert |timers| == |active|;
      var due := Due(timers, now);
      assert forall e | e in timers - due :: now < e.when;
      expired := Copy(due);
      timers := timers - due;
      assert timers + due == s.timers;
      EraseActive(expired, due);
      SameIds(s, View(), due);
      assert |timers| == |active|;
    }

    /** handleRead up to the first callback. */
    method BeginBatch(now: int) returns (expired: seq<Entry>)
      requires Valid() && phase.Idle? && now > 0
      modifies this
      ensures Valid() && View() == Next(old(View()), HandleAlarm(now))
      ensures expired == Ordered(Due(old(timers), now)) && phase == Running(expired, 0, now)
    {
      assert IndexesAgree(View());
      hide Inv, Next, IndexesAgree, Due;
      InvNext(View(), HandleAlarm(now));
      NextHandleAlarm(View(), now);
      expired := GetExpired(now);
      alarm := None;
      calling := true;
      canceling := {};
      phase := Running(expired, 0, now);
    }

    /** The body of reset()'s loop; `s` is the state when reset() was called. */
    method ResetOne(p: Ptr, now: int, ghost s: State, ghost done: set<nat>)
      requires Inv(s) && s.phase.Running? && s.phase.now == now && !calling && numCreated == |issued|
      requires done <= InFlight(s) && p in InFlight(s) && p !in done
      requires View() == ResetSome(s, done)
      modifies `heap, `timers, `active
      ensures View() == ResetSome(s, done + {p})
    {
      hide Inv;
      ResetSomeIndexes(s, done);
      ResetSomeStep(s, done, p);
      hide ResetSome;
      var timer := TimerId(p, heap[p].sequence);
      if heap[p].repeat && timer !in canceling {
        RestartKeepsIndexes(View(), p, now);
        heap := heap[p := Restarted(heap[p], now)];
        var _ := Insert(p);
      } else {
        heap := heap - {p};
      }
    }

    method Reset(expired: seq<Entry>, now: int, clock: int)
      requires Inv(View()) && !calling && numCreated == |issued|
      requires phase == Running(expired, |expired|, now)
      modifies this
      ensures Valid() && View() == Next(old(View()), Finish(clock))
    {
      hide Inv, Next;
      ghost var s := View();
      ResetAll(expired, now, s);
      phase := Idle;
      Rearm(s, clock);
    }

    /** reset()'s loop. */
    method ResetAll(expired: seq<Entry>, now: int, ghost s: State)
      requires Inv(s) && View() == s && !calling && numCreated == |issued|
      requires phase == Running(expired, |expired|, now)
      modifies `heap, `timers, `active
      ensures View() == ResetSome(s, InFlight(s))
    {
      hide Inv, Addresses;
      ResetNone(s);
      hide ResetSome;
      var i := 0;
      while i < |expired|
        invariant 0 <= i <= |expired|
        invariant View() == ResetSome(s, Addresses(expired[..i]))
      {
        BatchEntry(s, i);
        ResetOne(expired[i].timer, now, s, Addresses(expired[..i]));
        i := i + 1;
      }
      assert expired[..i] == expired;
    }

    /** The end of reset(): the next alarm, unless the earliest expiration is the invalid timestamp 0. */
    method Rearm(ghost s: State, clock: int)
      requires Inv(s) && Enabled(s, Finish(clock)) && View() == AfterReset(s)
      requires phase.Idle? && !calling && numCreated == |issued|
      modifies `alarm
      ensures Valid() && View() == Next(s, Finish(clock))
    {
      hide Inv, Next, AfterReset;
      InvNext(s, Finish(clock));
      NextFinish(s, clock);
      if timers != {} {
        var first := First(timers);
        if first.when != 0 {
          alarm := Some(ResetTimerfd(first.when, clock));
        }
      }
    }

    method RunAdd(p: Ptr, when: int, interval: int, repeat: bool, clock: int,
                  ghost states: seq<State>, ghost steps: seq<Step>)
      returns (ghost states': seq<State>, ghost steps': seq<Step>)
      requires Valid() && IsPath(states, steps) && states[|steps|] == View()
      requires p !in heap && (repeat ==> interval >= 0)
      modifies this
      ensures Valid() && phase == old(phase)
      ensures IsPath(states', steps') && states'[|steps'|] == View() && states <= states'
      ensures steps' == steps + [Create(p, when, interval, repeat), AddInLoop(p, clock)]
    {
      hide Inv, Next;
      var _ := NewTimer(p, when, interval, repeat);
      states', steps' := Extend(states, steps, Create(p, when, interval, repeat));
      AddTimerInLoop(p, clock);
      states', steps' := Extend(states', steps', AddInLoop(p, clock));
    }

    method RunOp(op: CallbackOp, ghost states: seq<State>, ghost steps: seq<Step>)
      returns (ghost states': seq<State>, ghost steps': seq<Step>)
      requires Valid() && IsPath(states, steps) && states[|steps|] == View()
      modifies this
      ensures Valid() && phase == old(phase)
      ensures IsPath(states', steps') && states'[|steps'|] == View()
      ensures states <= states' && steps <= steps'
      ensures forall k | |steps| <= k < |steps'| :: IsCallbackStep(steps'[k])
    {
      hide Inv, Next;
      match op
      case Add(p, when, interval, repeat, clock) =>
        if p !in heap && (repeat ==> interval >= 0) {
          states', steps' := RunAdd(p, when, interval, repeat, clock, states, steps);
        } else {
          states', steps' := states, steps;
        }
      case Remove(id) =>
        CancelInLoop(id);
        states', steps' := Extend(states, steps, Cancel(id));
    }

    /** One callback. An Add whose address still holds a live timer is no allocation and does nothing. */
    method RunCallback(ops: seq<CallbackOp>, ghost states: seq<State>, ghost steps: seq<Step>)
      returns (ghost states': seq<State>, ghost steps': seq<Step>)
      requires Valid() && IsPath(states, steps) && states[|steps|] == View()
      modifies this
      ensures Valid() && phase == old(phase)
      ensures IsPath(states', steps') && states'[|steps'|] == View()
      ensures states <= states' && steps <= steps'
      ensures forall k | |steps| <= k < |steps'| :: IsCallbackStep(steps'[k])
    {
      hide Inv, Next, Enabled;
      states', steps' := states, steps;
      for i := 0 to |ops|
        invariant Valid() && phase == old(phase)
        invariant IsPath(states', steps') && states'[|steps'|] == View()
        invariant states <= states' && steps <= steps'
        invariant forall k | |steps| <= k < |steps'| :: IsCallbackStep(steps'[k])
      {
        states', steps' := RunOp(ops[i], states', steps');
      }
    }

    /** The callbacks of one batch. */
    method RunExpired(expired: seq<Entry>, now: int, callbacks: seq<seq<CallbackOp>>,
                      ghost before: seq<State>, ghost first: seq<Step>)
      returns (ghost states: seq<State>, ghost steps: seq<Step>)
      requires Valid() && phase == Running(expired, 0, now)
      requires IsPath(before, first) && before[|first|] == View()
      modifies this
      ensures Valid() && phase == Running(expired, |expired|, now)
      ensures IsPath(states, steps) && states[|steps|] == View()
      ensures before <= states && first <= steps
      ensures Runs(steps) == Runs(first) + |expired|
    {
      hide Inv, Next, Enabled;
      states, steps := before, first;
      var i := 0;
      while i < |expired|
        invariant 0 <= i <= |expired|
        invariant Valid() && phase == Running(expired, i, now)
        invariant IsPath(states, steps) && states[|steps|] == View()
        invariant before <= states && first <= steps
        invariant Runs(steps) == Runs(first) + i
      {
        states, steps := RunOne(i, if i < |callbacks| then callbacks[i] else [], states, steps);
        i := i + 1;
      }
    }

    method RunOne(i: nat, ops: seq<CallbackOp>, ghost before: seq<State>, ghost first: seq<Step>)
      returns (ghost states: seq<State>, ghost steps: seq<Step>)
      requires Valid() && phase.Running? && phase.next == i < |phase.expired|
      requires IsPath(before, first) && before[|first|] == View()
      modifies this
      ensures Valid() && phase == old(phase).(next := i + 1)
      ensures IsPath(states, steps) && states[|steps|] == View()
      ensures before <= states && first <= steps
      ensures Runs(steps) == Runs(first) + 1
    {
      hide Inv, Next;
      BatchEntry(View(), i);
      assert phase.expired[i].timer in heap;
      InvNext(View(), RunNext);
      NextRunNext(View());
      phase := phase.(next := i + 1);
      states, steps := Extend(before, first, RunNext);
      ghost var started := steps;
      states, steps := RunCallback(ops, states, steps);
      RunsAppend(started, steps);
    }

    /** The alarm handler is a path of the step machine from HandleAlarm to Finish that runs the
        expired timers, one RunNext each, with the callbacks' own steps in between. */
    method HandleRead(now: int, callbacks: seq<seq<CallbackOp>>, clock: int)
      returns (ghost states: seq<State>, ghost steps: seq<Step>)
      requires Valid() && phase.Idle? && now > 0
      modifies this
      ensures Valid() && phase.Idle?
      ensures IsPath(states, steps) && states[0] == old(View()) && states[|steps|] == View()
      ensures |steps| >= 2 && steps[0] == HandleAlarm(now) && steps[|steps| - 1] == Finish(clock)
      ensures Runs(steps) == |Ordered(Due(old(timers), now))|
    {
      hide Inv, Next, Due, Ordered, IsPath, Enabled, Runs;
      MayHandleAlarm(View(), now);
      states, steps := Start(View(), HandleAlarm(now));
      var expired := BeginBatch(now);
      states, steps := RunExpired(expired, now, callbacks, states, steps);
      calling := false;
      MayFinish(View(), clock);
      NextFinish(View(), clock);
      Reset(expired, now, clock);
      states, steps := Extend(states, steps, Finish(clock));
    }
  }

  /** How many callbacks a path starts. */
  ghost function Runs(steps: seq<Step>): nat {
    if steps == [] then 0
    else Runs(steps[..|steps| - 1]) + (if steps[|steps| - 1].RunNext? then 1 else 0)
  }

  lemma {:induction false} RunsAppend(before: seq<Step>, after: seq<Step>)
    requires before <= after
    requires forall k | |before| <= k < |after| :: !after[k].RunNext?
    ensures Runs(after) == Runs(before)
    decreases |after|
  {
    if |before| < |after| {
      RunsAppend(before, after[..|after| - 1]);
    } else {
      assert before == after;
    }
  }

  ghost method Extend(states: seq<State>, steps: seq<Step>, a: Step) returns (states': seq<State>, steps': seq<Step>)
    requires IsPath(states, steps) && Enabled(states[|steps|], a)
    ensures steps' == steps + [a] && states' == states + [Next(states[|steps|], a)]
    ensures IsPath(states', steps') && Runs(steps') == Runs(steps) + (if a.RunNext? then 1 else 0)
  {
    states', steps' := states + [Next(states[|steps|], a)], steps + [a];
    assert steps'[..|steps|] == steps;
  }

  ghost method Start(s: State, a: Step) returns (states: seq<State>, steps: seq<Step>)
    requires Enabled(s, a)
    ensures states == [s, Next(s, a)] && steps == [a] && IsPath(states, steps)
    ensures Runs(steps) == if a.RunNext? then 1 else 0
  {
    states, steps := [s, Next(s, a)], [a];
    assert steps[..0] == [];
  }

  lemma MayHandleAlarm(s: State, now: int)
    requires s.phase.Idle? && now > 0
    ensures Enabled(s, HandleAlarm(now))
  {
  }

  lemma MayFinish(s: State, clock: int)
    requires s.phase.Running? && s.phase.next == |s.phase.expired|
    ensures Enabled(s, Finish(clock))
  {
  }

  /** The steps a user callback can take. */
  predicate IsCallbackStep(a: Step) { a.Create? || a.AddInLoop? || a.Cancel? }

  lemma NextNumberIsFresh(s: State, p: Ptr)
    requires Inv(s)
    ensures |s.issued| + 1 !in s.issued && |s.issued[|s.issued| + 1 := p]| == |s.issued| + 1
  {
  }

  lemma ResetNone(s: State)
    requires s.phase.Running?
    ensures Addresses(s.phase.expired[..0]) == {} && ResetSome(s, {}) == s
  {
    assert ResetSome(s, {}).heap == s.heap;
  }

  // The unfolding of Next, one step at a time

  lemma NextHandleAlarm(s: State, now: int)
    requires Enabled(s, HandleAlarm(now))
    ensures Next(s, HandleAlarm(now)) == DoAlarm(s, now)
  {
  }

  lemma NextRunNext(s: State)
    requires Enabled(s, RunNext)
    ensures Next(s, RunNext) == s.(phase := s.phase.(next := s.phase.next + 1))
  {
  }

  lemma NextFinish(s: State, clock: int)
    requires Enabled(s, Finish(clock))
    ensures Next(s, Finish(clock)) == DoFinish(s, clock)
  {
  }

  /** The ids of the timers in a list of entries. */
  function Ids(s: State, entries: seq<Entry>): set<TimerId> {
    set e | e in entries && e.timer in s.heap :: IdOf(s, e.timer)
  }

  lemma AlarmIndexes(s: State, now: int)
    requires IndexesAgree(s)
    ensures IndexesAgree(DoAlarm(s, now))
  {
    var t := DoAlarm(s, now);
    forall e | e in t.timers ensures IdOf(s, e.timer) in t.active {
      assert IdOf(s, e.timer) in s.active;
    }
  }

  lemma IdsOfBatch(s: State, t: State, expired: seq<Entry>, due: set<Entry>)
    requires t.heap == s.heap && Lists(expired, due)
    ensures Ids(s, expired) == IdsOf(s, due) == IdsOf(t, due)
  {
  }

  lemma InsertFacts(s: State, p: Ptr)
    requires IndexesAgree(s) && p in s.heap && !IsActive(s, p)
    ensures |s.timers| == |s.active| && |Insert(s, p).timers| == |Insert(s, p).active|
    ensures Entry(s.heap[p].expiration, p) !in s.timers && IdOf(s, p) !in s.active
  {
    SameSize(s);
    InsertIndexes(s, p);
    SameSize(Insert(s, p));
  }

  lemma CancelFacts(s: State, id: TimerId)
    requires Inv(s)
    ensures |s.timers| == |s.active|
    ensures id in s.active ==> id.timer in s.heap && Entry(s.heap[id.timer].expiration, id.timer) in s.timers
    ensures |DoCancel(s, id).timers| == |DoCancel(s, id).active|
  {
    SameSize(s);
    InvCancel(s, id);
    SameSize(DoCancel(s, id));
  }

  lemma SameIds(s: State, t: State, due: set<Entry>)
    requires t.heap == s.heap
    ensures IdsOf(s, due) == IdsOf(t, due)
  {
  }

  lemma SizesAroundAlarm(s: State, now: int)
    requires IndexesAgree(s)
    ensures |s.timers| == |s.active| && |DoAlarm(s, now).timers| == |DoAlarm(s, now).active|
    ensures Due(s.timers, now) <= s.timers
    ensures forall e | e in s.timers - Due(s.timers, now) :: now < e.when
  {
    SentrySplits(s, now);
    AlarmIndexes(s, now);
    SameSize(s);
    SameSize(DoAlarm(s, now));
  }

  lemma DueIsActive(s: State, expired: seq<Entry>, due: set<Entry>, i: nat)
    requires IndexesAgree(s) && due <= s.timers && Lists(expired, due) && i < |expired|
    ensures expired[i].timer in s.heap && IdOf(s, expired[i].timer) in s.active
    ensures IdOf(s, expired[i].timer) !in Ids(s, expired[..i])
    ensures Ids(s, expired[..i + 1]) == Ids(s, expired[..i]) + {IdOf(s, expired[i].timer)}
  {
    assert expired[i] in due;
    assert expired[..i + 1] == expired[..i] + [expired[i]];
    forall e | e in expired[..i] ensures e.timer != expired[i].timer {
      var k :| 0 <= k < i && expired[k] == e;
      assert Less(expired[k], expired[i]) && expired[k] in due;
    }
  }

  lemma BatchEntry(s: State, i: nat)
    requires Inv(s) && s.phase.Running? && i < |s.phase.expired|
    ensures var p, done := s.phase.expired[i].timer, Addresses(s.phase.expired[..i]);
            && done <= InFlight(s) && p in InFlight(s) && p in s.heap && p !in done
            && Addresses(s.phase.expired[..i + 1]) == done + {p}
  {
    var expired := s.phase.expired;
    assert expired[i] in expired;
    assert expired[..i + 1] == expired[..i] + [expired[i]];
    forall e | e in expired[..i] ensures e in expired && e.timer != expired[i].timer {
      var k :| 0 <= k < i && expired[k] == e;
    }
  }

  lemma ResetSomeStep(s: State, done: set<nat>, p: Ptr)
    requires Inv(s) && s.phase.Running? && done <= InFlight(s) && p in InFlight(s) && p !in done
    ensures p in s.heap && p in ResetSome(s, done).heap && ResetSome(s, done).heap[p] == s.heap[p]
    ensures ResetSome(s, done).canceling == s.canceling
    ensures !IsActive(ResetSome(s, done), p)
    ensures p in Kept(s) <==> s.heap[p].repeat && IdOf(s, p) !in s.canceling
    ensures var r := ResetSome(s, done);
            ResetSome(s, done + {p}) ==
              if p in Kept(s) then Insert(r.(heap := r.heap[p := Restarted(s.heap[p], s.phase.now)]), p)
              else r.(heap := r.heap - {p})
  {
    ResetSomeIndexes(s, done);
    assert p in s.heap;
    if p in Kept(s) {
      RestartOne(s, done, p);
    } else {
      DeleteOne(s, done, p);
    }
  }

  lemma DeleteOne(s: State, done: set<nat>, p: Ptr)
    requires s.phase.Running? && p in s.heap && p !in Kept(s)
    ensures var r := ResetSome(s, done);
            ResetSome(s, done + {p}) == r.(heap := r.heap - {p})
  {
    hide Kept;
    var r, t := ResetSome(s, done), ResetSome(s, done + {p});
    assert KeptOf(s, done + {p}) == KeptOf(s, done);
    assert t.heap == r.heap - {p};
  }

  lemma RestartOne(s: State, done: set<nat>, p: Ptr)
    requires s.phase.Running? && p in Kept(s) && p !in done
    ensures p in ResetSome(s, done).heap
    ensures var r := ResetSome(s, done);
            ResetSome(s, done + {p}) == Insert(r.(heap := r.heap[p := Restarted(s.heap[p], s.phase.now)]), p)
  {
    assert KeptOf(s, done + {p}) == KeptOf(s, done) + {p};
    hide Kept;
    RecycleOne(s, done, KeptOf(s, done), p, s.phase.now);
  }

  lemma RecycleOne(s: State, done: set<nat>, kept: set<Ptr>, p: Ptr, now: int)
    requires kept <= s.heap.Keys && p in s.heap && p !in done && p !in kept
    ensures p in Recycle(s, done, kept, now).heap
    ensures var r := Recycle(s, done, kept, now);
            Recycle(s, done + {p}, kept + {p}, now) == Insert(r.(heap := r.heap[p := Restarted(s.heap[p], now)]), p)
  {
    var r, t := Recycle(s, done, kept, now), Recycle(s, done + {p}, kept + {p}, now);
    assert t.heap == r.heap[p := Restarted(s.heap[p], now)];
  }

  lemma RestartKeepsIndexes(r: State, p: Ptr, now: int)
    requires IndexesAgree(r) && p in r.heap && !IsActive(r, p)
    ensures var t := r.(heap := r.heap[p := Restarted(r.heap[p], now)]);
            IndexesAgree(t) && !IsActive(t, p)
  {
    var t := r.(heap := r.heap[p := Restarted(r.heap[p], now)]);
    assert forall e | e in r.timers :: e.timer != p;
    assert forall id | id in r.active :: id.timer != p;
  }
}
