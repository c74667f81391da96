/** A condition variable with Mesa semantics: notify moves a sleeping thread to those waiting for the
    mutex, any sleeper may also wake spuriously, and nothing says who gets the mutex next. */
module Monitors {
  import opened Common

  type Thread = nat

  datatype Waiters = Waiters(asleep: set<Thread>, notified: set<Thread>, spurious: set<Thread>)

  const NoWaiters: Waiters := Waiters({}, {}, {})

  predicate Waits(w: Waiters, t: Thread) { t in w.asleep || t in w.notified || t in w.spurious }

  /** Woken, and entitled to the mutex. */
  predicate Woken(w: Waiters, t: Thread) { t in w.notified || t in w.spurious }

  predicate WellFormed(w: Waiters) { w.asleep !! w.notified !! w.spurious }

  function Leave(w: Waiters, t: Thread): Waiters {
    w.(notified := w.notified - {t}, spurious := w.spurious - {t})
  }

  /** wait(): a woken thread that finds its condition false goes back to sleep. */
  function Sleep(w: Waiters, t: Thread): Waiters {
    var v := Leave(w, t);
    v.(asleep := v.asleep + {t})
  }

  /** notify() wakes one sleeper, any one, if there is one. */
  predicate MayNotify(w: Waiters, pick: Option<Thread>) {
    if w.asleep == {} then pick.None? else pick.Some? && pick.value in w.asleep
  }

  function Notify(w: Waiters, pick: Option<Thread>): Waiters
    requires MayNotify(w, pick)
  {
    if pick.None? then w
    else w.(asleep := w.asleep - {pick.value}, notified := w.notified + {pick.value})
  }

  function NotifyAll(w: Waiters): Waiters { w.(asleep := {}, notified := w.notified + w.asleep) }

  function WakeSpuriously(w: Waiters, t: Thread): Waiters
    requires t in w.asleep
  {
    w.(asleep := w.asleep - {t}, spurious := w.spurious + {t})
  }

  /** A notify moves the picked sleeper, and nobody else, to those coming for the mutex; it is lost only
      if nobody sleeps. */
  lemma NotifyWakesOne(w: Waiters, pick: Option<Thread>)
    requires WellFormed(w) && MayNotify(w, pick)
    ensures var v := Notify(w, pick);
            && (forall x :: x in v.asleep <==> x in w.asleep && pick != Some(x))
            && (forall x :: x in v.notified <==> x in w.notified || pick == Some(x))
            && v.spurious == w.spurious
            && |v.asleep| == (if w.asleep == {} then 0 else |w.asleep| - 1)
            && |v.notified| == |w.notified| + (if w.asleep == {} then 0 else 1)
  {
  }

  /** notifyAll moves every sleeper there. */
  lemma NotifyAllWakesEveryone(w: Waiters)
    ensures var v := NotifyAll(w);
            && v.asleep == {} && v.spurious == w.spurious
            && forall x :: x in v.notified <==> x in w.notified || x in w.asleep
  {
  }

  /** A spurious wakeup takes nobody's signal: it moves one sleeper, who counts as not notified. */
  lemma SpuriousTakesNoSignal(w: Waiters, t: Thread)
    requires WellFormed(w) && t in w.asleep
    ensures var v := WakeSpuriously(w, t);
            && v.notified == w.notified
            && (forall x :: x in v.asleep <==> x in w.asleep && x != t)
            && (forall x :: x in v.spurious <==> x in w.spurious || x == t)
  {
  }

  /** What `resource` units are worth: while somebody sleeps, every unit has a notified thread coming
      for it. */
  predicate Signalled(w: Waiters, resource: int) { w.asleep != {} ==> resource <= |w.notified| }

  /** One more unit, and one notify: no signal is missed. */
  lemma NotifyKeepsSignalled(w: Waiters, pick: Option<Thread>, resource: int)
    requires WellFormed(w) && MayNotify(w, pick) && Signalled(w, resource)
    ensures WellFormed(Notify(w, pick)) && Signalled(Notify(w, pick), resource + 1)
    ensures forall x :: Waits(Notify(w, pick), x) <==> Waits(w, x)
    ensures w.asleep == {} ==> Notify(w, pick).asleep == {}
  {
  }

  /** One unit less, taken by a thread that need not have been notified. */
  lemma LeaveKeepsSignalled(w: Waiters, t: Thread, resource: int)
    requires WellFormed(w) && Signalled(w, resource) && t !in w.asleep
    ensures WellFormed(Leave(w, t)) && Signalled(Leave(w, t), resource - 1)
    ensures forall x :: Waits(Leave(w, t), x) <==> Waits(w, x) && x != t
    ensures Leave(w, t).asleep == w.asleep
  {
    if t in w.notified {
      assert |w.notified - {t}| == |w.notified| - 1;
    }
  }

  /** Going to sleep is safe when there is nothing to wait for. */
  lemma SleepKeepsSignalled(w: Waiters, t: Thread, resource: int)
    requires WellFormed(w) && resource <= 0 && t !in w.asleep
    ensures WellFormed(Sleep(w, t)) && Signalled(Sleep(w, t), resource)
    ensures forall x :: Waits(Sleep(w, t), x) <==> Waits(w, x) || x == t
  {
  }

  lemma NotifyAllKeepsSignalled(w: Waiters, resource: int)
    requires WellFormed(w)
    ensures WellFormed(NotifyAll(w)) && Signalled(NotifyAll(w), resource)
    ensures forall x :: Waits(NotifyAll(w), x) <==> Waits(w, x)
  {
  }

  lemma NothingToSignal(w: Waiters, resource: int)
    requires w.asleep == {} || resource <= 0
    ensures Signalled(w, resource)
  {
  }

  lemma SpuriousKeepsSignalled(w: Waiters, t: Thread, resource: int)
    requires WellFormed(w) && Signalled(w, resource) && t in w.asleep
    ensures WellFormed(WakeSpuriously(w, t)) && Signalled(WakeSpuriously(w, t), resource)
    ensures forall x :: Waits(WakeSpuriously(w, t), x) <==> Waits(w, x)
    ensures WakeSpuriously(w, t).asleep <= w.asleep
  {
  }
}

/** base/BoundedBlockingQueue.h: any number of threads in put and take. A step is one hold of the
    mutex, from taking it to releasing it in wait() or at the end. */
module BoundedQueues {
  import opened Common
  import opened Monitors

  type Item = nat

  datatype State = State(
    capacity: nat,
    queue: seq<Item>,             // queue_
    notEmpty: Waiters,
    notFull: Waiters,
    args: map<Thread, Item>,      // what each waiting putter wants to put
    accepted: seq<Item>,          // history: items pushed
    taken: seq<Item>)             // history: items returned by take

  datatype Step =
    | Put(thread: Thread, item: Item, pick: Option<Thread>)
    | Take(thread: Thread, pick: Option<Thread>)
    | SpuriousTaker(thread: Thread)
    | SpuriousPutter(thread: Thread)

  function Init(capacity: nat): State { State(capacity, [], NoWaiters, NoWaiters, map[], [], []) }

  predicate Full(s: State) { |s.queue| == s.capacity }

  predicate Enabled(s: State, a: Step) {
    match a
    case Put(t, x, pick) =>
      && !Waits(s.notEmpty, t)
      && t !in s.notFull.asleep
      && (Woken(s.notFull, t) ==> t in s.args && s.args[t] == x)
      && (!Full(s) ==> MayNotify(s.notEmpty, pick))
    case Take(t, pick) =>
      && !Waits(s.notFull, t)
      && t !in s.notEmpty.asleep
      && (s.queue != [] ==> MayNotify(s.notFull, pick))
    case SpuriousTaker(t) => t in s.notEmpty.asleep
    case SpuriousPutter(t) => t in s.notFull.asleep
  }

  function Next(s: State, a: Step): State
    requires Enabled(s, a)
  {
    match a
    case Put(t, x, pick) =>
      if Full(s) then s.(notFull := Sleep(s.notFull, t), args := s.args[t := x])
      else s.(queue := s.queue + [x], accepted := s.accepted + [x],
              notFull := Leave(s.notFull, t), args := s.args - {t},
              notEmpty := Notify(s.notEmpty, pick))
    case Take(t, pick) =>
      if s.queue == [] then s.(notEmpty := Sleep(s.notEmpty, t))
      else s.(queue := s.queue[1..], taken := s.taken + [s.queue[0]],
              notEmpty := Leave(s.notEmpty, t),
              notFull := Notify(s.notFull, pick))
    case SpuriousTaker(t) => s.(notEmpty := WakeSpuriously(s.notEmpty, t))
    case SpuriousPutter(t) => s.(notFull := WakeSpuriously(s.notFull, t))
  }

  ghost predicate IsRun(states: seq<State>, steps: seq<Step>) {
    && |states| == |steps| + 1 && states[0] == Init(states[0].capacity)
    && forall i | 0 <= i < |steps| :: Enabled(states[i], steps[i]) && states[i + 1] == Next(states[i], steps[i])
  }

  ghost predicate Inv(s: State) {
    && |s.queue| <= s.capacity
    && s.accepted == s.taken + s.queue
    && WellFormed(s.notEmpty) && WellFormed(s.notFull)
    && Signalled(s.notEmpty, |s.queue|)
    && Signalled(s.notFull, s.capacity - |s.queue|)
    && (forall t | Waits(s.notFull, t) :: t in s.args)
  }

  lemma InvPut(s: State, a: Step)
    requires Inv(s) && Enabled(s, a) && a.Put?
    ensures Inv(Next(s, a))
  {
    hide WellFormed, Signalled, Waits, Sleep, Leave, Notify, MayNotify, WakeSpuriously;
    if Full(s) {
      SleepKeepsSignalled(s.notFull, a.thread, 0);
    } else {
      LeaveKeepsSignalled(s.notFull, a.thread, s.capacity - |s.queue|);
      NotifyKeepsSignalled(s.notEmpty, a.pick, |s.queue|);
    }
  }

  lemma InvTake(s: State, a: Step)
    requires Inv(s) && Enabled(s, a) && a.Take?
    ensures Inv(Next(s, a))
  {
    hide WellFormed, Signalled, Waits, Sleep, Leave, Notify, MayNotify, WakeSpuriously;
    if s.queue == [] {
      SleepKeepsSignalled(s.notEmpty, a.thread, 0);
    } else {
      assert s.queue == [s.queue[0]] + s.queue[1..];
      LeaveKeepsSignalled(s.notEmpty, a.thread, |s.queue|);
      NotifyKeepsSignalled(s.notFull, a.pick, s.capacity - |s.queue|);
    }
  }

  lemma InvNext(s: State, a: Step)
    requires Inv(s) && Enabled(s, a)
    ensures Inv(Next(s, a))
  {
    hide WellFormed, Signalled, Waits, Sleep, Leave, Notify, MayNotify, WakeSpuriously;
    match a
    case Put(_, _, _) => InvPut(s, a);
    case Take(_, _) => InvTake(s, a);
    case SpuriousTaker(t) => SpuriousKeepsSignalled(s.notEmpty, t, |s.queue|);
    case SpuriousPutter(t) => SpuriousKeepsSignalled(s.notFull, t, s.capacity - |s.queue|);
  }

  lemma {:induction false} InvAlways(states: seq<State>, steps: seq<Step>, i: nat)
    requires IsRun(states, steps) && i < |states|
    ensures Inv(states[i]) && states[i].capacity == states[0].capacity
  {
    if i > 0 {
      InvAlways(states, steps, i - 1);
      InvNext(states[i - 1], steps[i - 1]);
    }
  }

  /** In every run, while a taker sleeps each queued item has a notified taker, and while a putter
      sleeps each free slot has a notified putter: no signal is missed. */
  lemma NoMissedSignal(states: seq<State>, steps: seq<Step>, i: nat)
    requires IsRun(states, steps) && i < |states|
    ensures var s := states[i];
            && (s.notEmpty.asleep != {} ==> |s.queue| <= |s.notEmpty.notified|)
            && (s.notFull.asleep != {} ==> s.capacity - |s.queue| <= |s.notFull.notified|)
  {
    InvAlways(states, steps, i);
  }

  /** Putters and takers asleep together, and no notify on its way to any of them. */
  predicate Stuck(s: State) {
    s.notEmpty.asleep != {} && s.notFull.asleep != {} && s.notEmpty.notified == {} && s.notFull.notified == {}
  }

  lemma NeverStuck(states: seq<State>, steps: seq<Step>, i: nat)
    requires IsRun(states, steps) && i < |states| && states[0].capacity >= 1
    ensures !Stuck(states[i])
  {
    InvAlways(states, steps, i);
  }

  /** A queue of capacity 0 does get stuck, so the bound is exact. */
  lemma ZeroCapacityGetsStuck(putter: Thread, taker: Thread, x: Item)
    requires putter != taker
    ensures var s1 := Next(Init(0), Put(putter, x, None));
            Enabled(s1, Take(taker, None)) && Stuck(Next(s1, Take(taker, None)))
  {
    var s1 := Next(Init(0), Put(putter, x, None));
    assert putter in s1.notFull.asleep;
    assert taker in Next(s1, Take(taker, None)).notEmpty.asleep;
  }

  /** Items leave in the order they were accepted, none lost or duplicated, and the circular buffer is
      never pushed into while full (it would overwrite its oldest item). */
  lemma QueueIsFifo(states: seq<State>, steps: seq<Step>, i: nat)
    requires IsRun(states, steps) && i < |states|
    ensures states[i].accepted == states[i].taken + states[i].queue
    ensures |states[i].queue| <= states[i].capacity
    ensures i < |steps| && states[i + 1].accepted != states[i].accepted ==> |states[i].queue| < states[i].capacity
  {
    InvAlways(states, steps, i);
  }

  /** Every asleep thread really has to wait, unless somebody has already been notified. */
  lemma SleepersAreBlocked(states: seq<State>, steps: seq<Step>, i: nat)
    requires IsRun(states, steps) && i < |states|
    ensures states[i].notEmpty.asleep != {} && states[i].notEmpty.notified == {} ==> states[i].queue == []
    ensures states[i].notFull.asleep != {} && states[i].notFull.notified == {} ==> Full(states[i])
  {
    InvAlways(states, steps, i);
  }
}

/** The queue in the form the source has. A thread's put or take is one or more calls: each is one hold
    of the mutex, which ends in wait() or in the function's return. */
module BoundedBlockingQueues {
  import opened Common
  import opened Monitors
  import opened BoundedQueues

  class BoundedBlockingQueue {
    const capacity: nat
    var queue: seq<Item>
    var notEmpty: Waiters
    var notFull: Waiters
    ghost var args: map<Thread, Item>
    ghost var accepted: seq<Item>
    ghost var taken: seq<Item>

    ghost function View(): State
      reads this
    {
      State(capacity, queue, notEmpty, notFull, args, accepted, taken)
    }

    ghost predicate Valid()
      reads this
    {
      Inv(View())
    }

    constructor (maxSize: nat)
      ensures Valid() && View() == Init(maxSize)
    {
      capacity := maxSize;
      queue, notEmpty, notFull := [], NoWaiters, NoWaiters;
      args, accepted, taken := map[], [], [];
    }

    method PutSection(thread: Thread, x: Item, pick: Option<Thread>) returns (done: bool)
      requires Valid() && Enabled(View(), Put(thread, x, pick))
      modifies this
      ensures Valid() && View() == Next(old(View()), Put(thread, x, pick))
      ensures done <==> old(|queue|) < capacity
      ensures done ==> queue == old(queue) + [x] && !Waits(notFull, thread)
      ensures !done ==> queue == old(queue) && thread in notFull.asleep
    {
      hide Inv;
      QueueBound(View());
      InvNext(View(), Put(thread, x, pick));
      if |queue| == capacity {
        notFull := Sleep(notFull, thread);
        args := args[thread := x];
        done := false;
      } else {
        assert |queue| < capacity;
        notFull := Leave(notFull, thread);
        args := args - {thread};
        queue := queue + [x];
        accepted := accepted + [x];
        notEmpty := Notify(notEmpty, pick);
        done := true;
      }
    }

    method TakeSection(thread: Thread, pick: Option<Thread>) returns (front: Option<Item>)
      requires Valid() && Enabled(View(), Take(thread, pick))
      modifies this
      ensures Valid() && View() == Next(old(View()), Take(thread, pick))
      ensures if old(queue) == [] then front == None && queue == [] && thread in notEmpty.asleep
              else front == Some(old(queue)[0]) && [front.value] + queue == old(queue) && !Waits(notEmpty, thread)
    {
      hide Inv;
      InvNext(View(), Take(thread, pick));
      if queue == [] {
        notEmpty := Sleep(notEmpty, thread);
        front := None;
      } else {
        notEmpty := Leave(notEmpty, thread);
        front := Some(queue[0]);
        taken := taken + [queue[0]];
        queue := queue[1..];
        notFull := Notify(notFull, pick);
      }
    }
  }

  lemma QueueBound(s: State)
    requires Inv(s)
    ensures |s.queue| <= s.capacity
  {
  }
}
