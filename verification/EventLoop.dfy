/** net/EventLoop.cc: the cross-thread functor queue and the eventfd that wakes poll().

    One loop thread and any number of other threads interleave freely. The steps are the
    accesses to shared state: a push under the mutex, a store to quit_, a write to the
    eventfd, poll's return, the read that drains the eventfd, the swap under the mutex, and
    the start of each functor. User code of the loop thread (channel handlers, running
    functors, code around loop()) may queue functors and call quit() at any point. */
module EventLoops {
  import opened Common

  type Functor = nat
  type Thread = nat

  /** The largest value an eventfd counter can hold; a write beyond it fails with EAGAIN. */
  const EVENTFD_MAX: nat := 0xffff_ffff_ffff_fffe

  /** Another thread between its store and its wakeup() write. */
  datatype Owes = AfterPush | AfterQuit

  datatype Pc =
    | Stopped                                                 // before loop(), or after it returned
    | Testing                                                 // while (not quit_)
    | Polling                                                 // in poller_->poll
    | Handling(drain: bool)                                   // channel handlers; drain: handleRead is still to run
    | Swapping                                                // callingPendingFunctors_ set, before the swap
    | Running(batch: seq<Functor>, next: nat, pushed: bool)   // pushed: a functor is between its push and its wakeup

  datatype State = State(
    pc: Pc,
    pending: seq<Functor>,        // pendingFunctors_
    calling: bool,                // callingPendingFunctors_
    quit: bool,                   // quit_
    counter: nat,                 // of the eventfd
    owing: map<Thread, Owes>,
    queued: seq<Functor>,         // history: every functor ever queued
    executed: seq<Functor>,       // history: every functor started
    early: nat)                   // pending functors the loop thread queued outside loop()

  datatype Step =
    | Push(thread: Thread, functor: Functor)
    | SetQuit(thread: Thread)
    | Wakeup(thread: Thread)
    | LoopPush(functor: Functor)
    | LoopWakeup
    | LoopQuit
    | StartLoop
    | Test
    | PollReturns(active: bool)
    | Drain
    | BeginFunctors
    | Swap
    | RunFunctor
    | EndFunctors

  const Init: State := State(Stopped, [], false, false, 0, map[], [], [], 0)

  /** Points at which the loop thread runs user code. */
  predicate InUserCode(s: State) {
    s.pc.Stopped? || s.pc.Handling? || (s.pc.Running? && s.pc.next > 0 && !s.pc.pushed)
  }

  predicate Enabled(s: State, a: Step) {
    match a
    case Push(t, _) => t !in s.owing
    case SetQuit(t) => t !in s.owing
    case Wakeup(t) => t in s.owing
    case LoopPush(_) => InUserCode(s)
    case LoopWakeup => s.pc.Running? && s.pc.pushed
    case LoopQuit => InUserCode(s)
    case StartLoop => s.pc.Stopped?
    case Test => s.pc.Testing?
    // a timeout, a signal or other descriptors may end poll without the eventfd
    case PollReturns(active) => s.pc.Polling? && (active ==> s.counter > 0)
    case Drain => s.pc.Handling? && s.pc.drain
    case BeginFunctors => s.pc.Handling? && !s.pc.drain
    case Swap => s.pc.Swapping?
    case RunFunctor => s.pc.Running? && !s.pc.pushed && s.pc.next < |s.pc.batch|
    case EndFunctors => s.pc.Running? && !s.pc.pushed && s.pc.next == |s.pc.batch|
  }

  function WriteEventfd(counter: nat): (r: nat)
    ensures r > 0
  {
    if counter < EVENTFD_MAX then counter + 1 else counter
  }

  function Next(s: State, a: Step): State
    requires Enabled(s, a)
  {
    match a
    case Push(t, f) => s.(pending := s.pending + [f], queued := s.queued + [f], owing := s.owing[t := AfterPush])
    case SetQuit(t) => s.(quit := true, owing := s.owing[t := AfterQuit])
    case Wakeup(t) => s.(counter := WriteEventfd(s.counter), owing := s.owing - {t})
    case LoopPush(f) =>
      var r := s.(pending := s.pending + [f], queued := s.queued + [f],
                  early := if s.pc.Stopped? then s.early + 1 else s.early);
      if s.calling && s.pc.Running? then r.(pc := s.pc.(pushed := true)) else r
    case LoopWakeup => s.(counter := WriteEventfd(s.counter), pc := s.pc.(pushed := false))
    case LoopQuit => s.(quit := true)
    case StartLoop => s.(pc := Testing, quit := false)
    case Test => s.(pc := if s.quit then Stopped else Polling)
    case PollReturns(active) => s.(pc := Handling(active))
    case Drain => s.(pc := Handling(false), counter := 0)
    case BeginFunctors => s.(pc := Swapping, calling := true)
    case Swap => s.(pc := Running(s.pending, 0, false), pending := [], early := 0)
    case RunFunctor => s.(pc := s.pc.(next := s.pc.next + 1), executed := s.executed + [s.pc.batch[s.pc.next]])
    case EndFunctors => s.(pc := Testing, calling := false)
  }

  ghost predicate IsPath(states: seq<State>, steps: seq<Step>) {
    && |states| == |steps| + 1
    && forall i | 0 <= i < |steps| :: Enabled(states[i], steps[i]) && states[i + 1] == Next(states[i], steps[i])
  }

  ghost predicate IsRun(states: seq<State>, steps: seq<Step>) { IsPath(states, steps) && states[0] == Init }

  // ----- Invariant -----

  ghost predicate SomeoneOwes(s: State, why: Owes) { exists t :: t in s.owing && s.owing[t] == why }

  /** A wakeup is in the eventfd or on its way there. */
  ghost predicate WakeupDue(s: State) {
    s.counter > 0 || SomeoneOwes(s, AfterPush) || (s.pc.Running? && s.pc.pushed)
  }

  /** The part of the current batch that has not started. */
  function Rest(s: State): seq<Functor> {
    if s.pc.Running? && s.pc.next <= |s.pc.batch| then s.pc.batch[s.pc.next..] else []
  }

  ghost predicate Inv(s: State) {
    && (s.calling <==> s.pc.Swapping? || s.pc.Running?)
    && (s.pc.Running? ==> s.pc.next <= |s.pc.batch|)
    && Accounted(s)
    && s.early <= |s.pending|
    // between draining the eventfd and the swap that follows, pending functors need no wakeup
    && (s.pc.Handling? || s.pc.Swapping? || |s.pending| == s.early || WakeupDue(s))
    && (s.pc.Polling? && s.quit ==> s.counter > 0 || SomeoneOwes(s, AfterQuit))
  }

  lemma InvNext(s: State, a: Step)
    requires Inv(s) && Enabled(s, a)
    ensures Inv(Next(s, a))
  {
    HistoryStep(s, a);
    CoverageStep(s, a);
    hide Rest, SomeoneOwes;
  }

  ghost predicate Accounted(s: State) { s.executed + Rest(s) + s.pending == s.queued }

  lemma HistoryStep(s: State, a: Step)
    requires Accounted(s) && (s.pc.Running? ==> s.pc.next <= |s.pc.batch|) && Enabled(s, a)
    ensures Accounted(Next(s, a))
  {
    match a
    case Push(_, f) => Associative(s.executed + Rest(s), s.pending, [f]);
    case LoopPush(f) =>
      Associative(s.executed + Rest(s), s.pending, [f]);
      assert Rest(Next(s, a)) == Rest(s);
    case Swap => SwapAccounted(s);
    case RunFunctor => RunAccounted(s);
    case _ => RestStays(s, a);
  }

  lemma SwapAccounted(s: State)
    requires Accounted(s) && Enabled(s, Swap)
    ensures Accounted(Next(s, Swap))
  {
    assert s.executed + [] == s.executed;
    assert s.pending[0..] == s.pending;
    assert s.executed + s.pending + [] == s.executed + s.pending;
  }

  lemma RunAccounted(s: State)
    requires Accounted(s) && Enabled(s, RunFunctor)
    ensures Accounted(Next(s, RunFunctor))
  {
    var f := s.pc.batch[s.pc.next];
    assert Rest(s) == [f] + Rest(Next(s, RunFunctor));
    Associative(s.executed, [f], Rest(Next(s, RunFunctor)));
  }

  lemma RestStays(s: State, a: Step)
    requires Enabled(s, a) && !a.Push? && !a.LoopPush? && !a.Swap? && !a.RunFunctor?
    requires s.pc.Running? ==> s.pc.next <= |s.pc.batch|
    ensures var t := Next(s, a);
            Rest(t) == Rest(s) && t.executed == s.executed && t.pending == s.pending && t.queued == s.queued
  {
    if a.EndFunctors? {
      assert s.pc.batch[s.pc.next..] == [];
    }
  }

  lemma CoverageStep(s: State, a: Step)
    requires Inv(s) && Enabled(s, a)
    ensures var t := Next(s, a);
            && (t.pc.Handling? || t.pc.Swapping? || |t.pending| == t.early || WakeupDue(t))
            && (t.pc.Polling? && t.quit ==> t.counter > 0 || SomeoneOwes(t, AfterQuit))
  {
    hide Rest, SomeoneOwes;
    if a.Push? || a.SetQuit? || a.Wakeup? {
      OwingStep(s, a);
    } else {
      SameOwing(s, Next(s, a));
    }
  }

  lemma SameOwing(s: State, t: State)
    requires t.owing == s.owing
    ensures forall why :: SomeoneOwes(t, why) <==> SomeoneOwes(s, why)
  {
  }

  lemma OwingStep(s: State, a: Step)
    requires Enabled(s, a) && (a.Push? || a.SetQuit? || a.Wakeup?)
    ensures var t := Next(s, a);
            forall why :: SomeoneOwes(s, why) ==> SomeoneOwes(t, why) || t.counter > 0
    ensures a.Push? ==> SomeoneOwes(Next(s, a), AfterPush)
    ensures a.SetQuit? ==> SomeoneOwes(Next(s, a), AfterQuit)
  {
    var t := Next(s, a);
    if a.Push? || a.SetQuit? {
      assert a.thread in t.owing;
    }
    forall why | SomeoneOwes(s, why) ensures SomeoneOwes(t, why) || t.counter > 0 {
      var th :| th in s.owing && s.owing[th] == why;
      if !a.Wakeup? {
        assert th in t.owing && t.owing[th] == why;
      }
    }
  }

  lemma {:induction false} InvAlways(states: seq<State>, steps: seq<Step>, i: nat)
    requires IsRun(states, steps) && i < |states|
    ensures Inv(states[i])
  {
    if i > 0 {
      InvAlways(states, steps, i - 1);
      InvNext(states[i - 1], steps[i - 1]);
    }
  }

  // ----- Theorems -----

  /** poll() may block although functors are pending, and no write to the eventfd is coming for them. */
  ghost predicate Uncovered(s: State) {
    s.pc.Polling? && s.pending != [] && s.counter == 0 && !SomeoneOwes(s, AfterPush)
  }

  /** No write to the eventfd is coming at all, be it after a push or after quit(). */
  predicate NoWakeup(s: State) { s.counter == 0 && s.owing == map[] }

  predicate LostWakeup(s: State) { s.pc.Polling? && s.pending != [] && NoWakeup(s) }

  /** In every interleaving: pending functors are left uncovered, let alone lost, only when every one of
      them was queued by the loop thread itself while loop() was not running. */
  lemma NoLostWakeup(states: seq<State>, steps: seq<Step>, i: nat)
    requires IsRun(states, steps) && i < |states| && (Uncovered(states[i]) || LostWakeup(states[i]))
    ensures states[i].early == |states[i].pending| > 0
  {
    InvAlways(states, steps, i);
  }

  /** So if the loop thread queues nothing outside loop(), no wakeup is ever lost. */
  lemma {:induction false} EarlyComesFromLoopThread(states: seq<State>, steps: seq<Step>, i: nat)
    requires IsRun(states, steps) && i < |states|
    requires forall k | 0 <= k < i :: !(steps[k].LoopPush? && states[k].pc.Stopped?)
    ensures states[i].early == 0 && !Uncovered(states[i]) && !LostWakeup(states[i])
  {
    if i > 0 {
      EarlyComesFromLoopThread(states, steps, i - 1);
    }
    if Uncovered(states[i]) || LostWakeup(states[i]) {
      NoLostWakeup(states, steps, i);
    }
  }

  /** And the exception is real: in any state outside loop(), a functor the loop thread queues is lost on
      the poll that follows, exactly if no wakeup is in the eventfd or owed by another thread. */
  lemma EarlyFunctorSleeps(states: seq<State>, steps: seq<Step>, i: nat, f: Functor)
    requires IsRun(states, steps) && i < |states| && states[i].pc.Stopped?
    ensures var s1 := Next(states[i], LoopPush(f));
            var s2 := Next(s1, StartLoop);
            LostWakeup(Next(s2, Test)) <==> states[i].counter == 0 && states[i].owing == map[]
  {
  }

  /** quit() from another thread is noticed: poll does not block on it. */
  lemma NoLostQuit(states: seq<State>, steps: seq<Step>, i: nat)
    requires IsRun(states, steps) && i < |states| && states[i].pc.Polling? && states[i].quit
    ensures states[i].counter > 0 || SomeoneOwes(states[i], AfterQuit)
  {
    InvAlways(states, steps, i);
  }

  /** Once quit() is called during loop(), the next test of quit_ leaves the loop; only a new call
      of loop() forgets it. */
  lemma {:induction false} QuitEndsLoop(states: seq<State>, steps: seq<Step>, i: nat, j: nat)
    requires IsRun(states, steps) && i < j < |steps|
    requires steps[i].SetQuit? || steps[i].LoopQuit?
    requires forall k | i < k < j :: !steps[k].StartLoop?
    ensures states[j].quit
    ensures steps[j].Test? ==> states[j + 1].pc.Stopped?
    decreases j
  {
    if j > i + 1 {
      QuitEndsLoop(states, steps, i, j - 1);
    }
  }

  /** In every run the functors started, the rest of the batch and the pending ones are, in order, all
      functors ever queued: none is lost, run twice or reordered. */
  lemma FunctorsAccountedFor(states: seq<State>, steps: seq<Step>, i: nat)
    requires IsRun(states, steps) && i < |states|
    ensures states[i].executed + Rest(states[i]) + states[i].pending == states[i].queued
    ensures states[i].executed <= states[i].queued
  {
    InvAlways(states, steps, i);
    var s := states[i];
    assert s.queued == s.executed + (Rest(s) + s.pending);
  }

  /** Queueing is the only way into `queued`: it lists the functors of the push steps, in run order. */
  function Pushed(steps: seq<Step>): seq<Functor> {
    if steps == [] then []
    else
      var a := steps[|steps| - 1];
      Pushed(steps[..|steps| - 1]) + (if a.Push? || a.LoopPush? then [a.functor] else [])
  }

  lemma {:induction false} QueuedIsPushed(states: seq<State>, steps: seq<Step>, i: nat)
    requires IsRun(states, steps) && i < |states|
    ensures states[i].queued == Pushed(steps[..i])
  {
    if i > 0 {
      QueuedIsPushed(states, steps, i - 1);
      assert steps[..i][..i - 1] == steps[..i - 1];
      QueuedStep(states[i - 1], steps[i - 1]);
      hide Next, Enabled;
    }
  }

  lemma QueuedStep(s: State, a: Step)
    requires Enabled(s, a)
    ensures Next(s, a).queued == s.queued + (if a.Push? || a.LoopPush? then [a.functor] else [])
  {
  }

  /** After a round of doPendingFunctors every functor queued before its swap has been started, and
      those queued by the functors themselves are left for the next round. */
  lemma {:induction false} RoundRunsItsBatch(states: seq<State>, steps: seq<Step>, i: nat, j: nat)
    requires IsRun(states, steps) && i < j < |states| && steps[i].Swap?
    requires forall k | i < k < j :: !steps[k].EndFunctors?
    ensures states[j].pc.Running? && states[j].pc.batch == states[i].pending && states[j].pc.next <= |states[i].pending|
    ensures states[j].executed == states[i].executed + states[i].pending[..states[j].pc.next]
    decreases j
  {
    if j == i + 1 {
      assert states[i].executed + [] == states[i].executed;
    } else {
      RoundRunsItsBatch(states, steps, i, j - 1);
      RoundStep(states[j - 1], steps[j - 1], states[i].executed);
    }
  }

  lemma RoundStep(s: State, a: Step, before: seq<Functor>)
    requires Enabled(s, a) && !a.EndFunctors? && s.pc.Running? && s.pc.next <= |s.pc.batch|
    requires s.executed == before + s.pc.batch[..s.pc.next]
    ensures var t := Next(s, a);
            && t.pc.Running? && t.pc.batch == s.pc.batch && t.pc.next <= |s.pc.batch|
            && t.executed == before + t.pc.batch[..t.pc.next]
  {
    if a.RunFunctor? {
      var n := s.pc.next;
      assert s.pc.batch[..n + 1] == s.pc.batch[..n] + [s.pc.batch[n]];
      Associative(before, s.pc.batch[..n], [s.pc.batch[n]]);
    }
  }
}

/** The loop in the form the source has. The loop thread's methods take the other threads' steps that
    happen meanwhile as arguments, and each method is shown to be a path of EventLoops. */
module EventLoopObjects {
  import opened EventLoops

  class EventLoop {
    var pending: seq<Functor>
    var calling: bool
    var quit: bool
    var counter: nat
    var owing: map<Thread, Owes>
    ghost var pc: Pc
    ghost var queued: seq<Functor>
    ghost var executed: seq<Functor>
    ghost var early: nat

    ghost function View(): State
      reads this
    {
      State(pc, pending, calling, quit, counter, owing, queued, executed, early)
    }

    ghost predicate Valid()
      reads this
    {
      Inv(View())
    }

    constructor ()
      ensures Valid() && View() == Init
    {
      pending, calling, quit, counter, owing := [], false, false, 0, map[];
      pc, queued, executed, early := Stopped, [], [], 0;
    }

    method Wakeup()
      modifies `counter
      ensures counter == WriteEventfd(old(counter)) > 0
    {
      counter := WriteEventfd(counter);
    }

    /** The push of queueInLoop, under the mutex, in the loop thread. */
    method PushBack(functor: Functor, ghost before: seq<State>, ghost done: seq<Step>)
      returns (ghost states: seq<State>, ghost steps: seq<Step>)
      requires Valid() && InUserCode(View()) && IsPath(before, done) && before[|done|] == View()
      modifies this
      ensures Valid() && (calling <==> old(pc).Running?)
      ensures pc == if old(pc).Running? then old(pc).(pushed := true) else old(pc)
      ensures IsPath(states, steps) && states[|steps|] == View() && before <= states
      ensures steps == done + [LoopPush(functor)]
      ensures executed == old(executed) && pending == old(pending) + [functor] && calling == old(calling)
      ensures !pc.Stopped? ==> early == old(early)
    {
      hide Inv;
      CallingInUserCode(View());
      InvNext(View(), LoopPush(functor));
      pending, queued := pending + [functor], queued + [functor];
      early := if pc.Stopped? then early + 1 else early;
      if calling {
        pc := pc.(pushed := true);
      }
      states, steps := Extend(before, done, LoopPush(functor));
    }

    /** queueInLoop in the loop thread: a wakeup only while functors are being called. */
    method QueueInLoop(functor: Functor, ghost before: seq<State>, ghost done: seq<Step>)
      returns (ghost states: seq<State>, ghost steps: seq<Step>)
      requires Valid() && InUserCode(View()) && IsPath(before, done) && before[|done|] == View()
      modifies this
      ensures Valid() && pc == old(pc) && InUserCode(View())
      ensures IsPath(states, steps) && states[|steps|] == View() && before <= states
      ensures steps == done + [LoopPush(functor)] + (if old(calling) then [LoopWakeup] else [])
      ensures executed == old(executed) && pending == old(pending) + [functor]
      ensures calling == old(calling) && (calling ==> counter > 0)
      ensures !pc.Stopped? ==> early == old(early)
    {
      hide Inv;
      states, steps := PushBack(functor, before, done);
      if calling {
        InvNext(View(), LoopWakeup);
        Wakeup();
        pc := pc.(pushed := false);
        states, steps := Extend(states, steps, LoopWakeup);
      }
    }

    /** Other threads run: pushes, quits and wakeups, in any order. A step its thread cannot take is
        passed over. */
    method Interfere(others: seq<Step>, ghost before: seq<State>, ghost done: seq<Step>)
      returns (ghost states: seq<State>, ghost steps: seq<Step>)
      requires Valid() && IsPath(before, done) && before[|done|] == View()
      modifies this
      ensures Valid() && pc == old(pc) && executed == old(executed) && calling == old(calling) && early == old(early)
      ensures IsPath(states, steps) && states[|steps|] == View() && before <= states && done <= steps
      ensures forall k | |done| <= k < |steps| :: IsForeign(steps[k])
      ensures old(pending) <= pending
    {
      hide Inv;
      states, steps := before, done;
      for i := 0 to |others|
        invariant Valid() && pc == old(pc) && executed == old(executed)
        invariant calling == old(calling) && early == old(early)
        invariant IsPath(states, steps) && states[|steps|] == View() && before <= states && done <= steps
        invariant forall k | |done| <= k < |steps| :: IsForeign(steps[k])
        invariant old(pending) <= pending
      {
        states, steps := InterfereOnce(others[i], states, steps);
      }
    }

    method InterfereOnce(a: Step, ghost before: seq<State>, ghost done: seq<Step>)
      returns (ghost states: seq<State>, ghost steps: seq<Step>)
      requires Valid() && IsPath(before, done) && before[|done|] == View()
      modifies this
      ensures Valid() && pc == old(pc) && executed == old(executed) && calling == old(calling) && early == old(early)
      ensures IsPath(states, steps) && states[|steps|] == View() && before <= states && done <= steps
      ensures forall k | |done| <= k < |steps| :: IsForeign(steps[k])
      ensures old(pending) <= pending
    {
      hide Inv;
      states, steps := before, done;
      match a
      case Push(t, f) =>
        if t !in owing {
          InvNext(View(), a);
          pending, queued, owing := pending + [f], queued + [f], owing[t := AfterPush];
          states, steps := Extend(before, done, a);
        }
      case SetQuit(t) =>
        if t !in owing {
          InvNext(View(), a);
          quit, owing := true, owing[t := AfterQuit];
          states, steps := Extend(before, done, a);
        }
      case Wakeup(t) =>
        if t in owing {
          InvNext(View(), a);
          Wakeup();
          owing := owing - {t};
          states, steps := Extend(before, done, a);
        }
      case _ =>
    }

    /** The start of a functor. */
    method Begin(functor: Functor, ghost before: seq<State>, ghost done: seq<Step>)
      returns (ghost states: seq<State>, ghost steps: seq<Step>)
      requires Valid() && pc.Running? && !pc.pushed && pc.next < |pc.batch| && functor == pc.batch[pc.next]
      requires IsPath(before, done) && before[|done|] == View()
      modifies `executed, `pc
      ensures Valid() && pc == old(pc).(next := old(pc).next + 1) && executed == old(executed) + [functor]
      ensures IsPath(states, steps) && states[|steps|] == View() && before <= states && done <= steps
    {
      hide Inv;
      InvNext(View(), RunFunctor);
      executed := executed + [functor];
      pc := pc.(next := pc.next + 1);
      states, steps := Extend(before, done, RunFunctor);
    }

    /** functors[i](): it queues the functors of `script`, while other threads run. */
    method RunOne(functor: Functor, script: seq<Functor>, others: seq<Step>,
                  ghost before: seq<State>, ghost done: seq<Step>)
      returns (ghost states: seq<State>, ghost steps: seq<Step>)
      requires Valid() && pc.Running? && !pc.pushed && pc.next < |pc.batch| && functor == pc.batch[pc.next]
      requires IsPath(before, done) && before[|done|] == View()
      modifies this
      ensures Valid() && pc == old(pc).(next := old(pc).next + 1) && executed == old(executed) + [functor]
      ensures IsPath(states, steps) && states[|steps|] == View() && before <= states && done <= steps
      ensures early == old(early)
    {
      hide Inv, Next, Enabled;
      states, steps := Begin(functor, before, done);
      for i := 0 to |script|
        invariant Valid() && pc == old(pc).(next := old(pc).next + 1) && early == old(early)
        invariant executed == old(executed) + [functor]
        invariant IsPath(states, steps) && states[|steps|] == View() && before <= states && done <= steps
      {
        states, steps := QueueInLoop(script[i], states, steps);
      }
      states, steps := Interfere(others, states, steps);
    }

    /** callingPendingFunctors_ set, and the swap. */
    method SwapOut(ghost before: seq<State>, ghost done: seq<Step>)
      returns (functors: seq<Functor>, ghost states: seq<State>, ghost steps: seq<Step>)
      requires Valid() && pc == Handling(false) && IsPath(before, done) && before[|done|] == View()
      modifies this
      ensures Valid() && functors == old(pending) && pc == Running(functors, 0, false)
      ensures executed == old(executed) && early == 0 && pending == []
      ensures IsPath(states, steps) && states[|steps|] == View() && before <= states && done <= steps
    {
      hide Inv;
      InvNext(View(), BeginFunctors);
      calling := true;
      pc := Swapping;
      states, steps := Extend(before, done, BeginFunctors);
      InvNext(View(), Swap);
      functors, pending := pending, [];
      pc, early := Running(functors, 0, false), 0;
      states, steps := Extend(states, steps, Swap);
    }

    /** doPendingFunctors: the functors queued before the swap run in order, once each; those queued
        meanwhile stay pending, with a wakeup due for them. */
    method DoPendingFunctors(scripts: seq<seq<Functor>>, others: seq<seq<Step>>,
                             ghost before: seq<State>, ghost done: seq<Step>)
      returns (ghost states: seq<State>, ghost steps: seq<Step>)
      requires Valid() && pc == Handling(false) && IsPath(before, done) && before[|done|] == View()
      modifies this
      ensures Valid() && pc == Testing && !calling
      ensures IsPath(states, steps) && states[|steps|] == View() && before <= states && done <= steps
      ensures executed == old(executed) + old(pending)
      ensures pending != [] ==> WakeupDue(View())
    {
      hide Inv, Next, Enabled;
      var functors;
      functors, states, steps := SwapOut(before, done);
      var i := 0;
      while i < |functors|
        invariant 0 <= i <= |functors|
        invariant Valid() && pc == Running(functors, i, false) && early == 0
        invariant executed == old(executed) + functors[..i]
        invariant IsPath(states, steps) && states[|steps|] == View() && before <= states && done <= steps
      {
        states, steps := RunOne(functors[i], if i < |scripts| then scripts[i] else [],
                                if i < |others| then others[i] else [], states, steps);
        assert functors[..i + 1] == functors[..i] + [functors[i]];
        i := i + 1;
      }
      assert functors[..i] == functors;
      states, steps := End(states, steps);
    }

    method End(ghost before: seq<State>, ghost done: seq<Step>)
      returns (ghost states: seq<State>, ghost steps: seq<Step>)
      requires Valid() && pc.Running? && !pc.pushed && pc.next == |pc.batch| && early == 0
      requires IsPath(before, done) && before[|done|] == View()
      modifies `calling, `pc
      ensures Valid() && pc == Testing && !calling
      ensures IsPath(states, steps) && states[|steps|] == View() && before <= states && done <= steps
      ensures pending != [] ==> WakeupDue(View())
    {
      hide Inv;
      EndCovered(View());
      calling := false;
      pc := Testing;
      states, steps := Extend(before, done, EndFunctors);
    }
  }

  predicate IsForeign(a: Step) { a.Push? || a.SetQuit? || a.Wakeup? }

  ghost method Extend(states: seq<State>, steps: seq<Step>, a: Step) returns (states': seq<State>, steps': seq<Step>)
    requires IsPath(states, steps) && Enabled(states[|steps|], a)
    ensures steps' == steps + [a] && states' == states + [Next(states[|steps|], a)] && IsPath(states', steps')
  {
    states', steps' := states + [Next(states[|steps|], a)], steps + [a];
  }

  lemma CallingInUserCode(s: State)
    requires Inv(s) && InUserCode(s)
    ensures s.calling <==> s.pc.Running?
  {
  }

  lemma EndCovered(s: State)
    requires Inv(s) && Enabled(s, EndFunctors) && s.early == 0
    ensures Inv(Next(s, EndFunctors)) && (s.pending != [] ==> WakeupDue(Next(s, EndFunctors)))
  {
    InvNext(s, EndFunctors);
  }
}
