/** The eventfd, the owed wakeups and quit_ of net/EventLoop.cc told by the steps of the run. */
module EventLoopHistories {
  import opened Common
  import opened EventLoops

  /** A wakeup was written since the eventfd was last drained. */
  function Woken(steps: seq<Step>): bool {
    if steps == [] then false
    else
      match steps[|steps| - 1]
      case Wakeup(_) => true
      case LoopWakeup => true
      case Drain => false
      case _ => Woken(steps[..|steps| - 1])
  }

  lemma CounterStep(s: State, a: Step)
    requires Enabled(s, a)
    ensures a.Wakeup? || a.LoopWakeup? ==> Next(s, a).counter > 0
    ensures a.Drain? ==> Next(s, a).counter == 0
    ensures !a.Wakeup? && !a.LoopWakeup? && !a.Drain? ==> Next(s, a).counter == s.counter
  {
  }

  /** In every run the eventfd is readable exactly if a wakeup was written since it was last drained; so
      after handleRead poll does not report it again until the next wakeup. */
  lemma {:induction false} ReadableExactly(states: seq<State>, steps: seq<Step>, i: nat)
    requires IsRun(states, steps) && i < |states|
    ensures states[i].counter > 0 <==> Woken(steps[..i])
    ensures states[i].pc.Polling? ==> (Enabled(states[i], PollReturns(true)) <==> Woken(steps[..i]))
  {
    if i > 0 {
      ReadableExactly(states, steps, i - 1);
      assert steps[..i][..i - 1] == steps[..i - 1];
      CounterStep(states[i - 1], steps[i - 1]);
      hide Next;
    }
  }

  /** The Drain steps from step i on, before step j. */
  function Drains(steps: seq<Step>, i: nat, j: nat): nat
    requires i <= j <= |steps|
  {
    if i == j then 0 else Drains(steps, i, j - 1) + Bit(steps[j - 1].Drain?)
  }

  lemma HandlingStep(s: State, a: Step)
    requires Enabled(s, a) && s.pc.Handling? && !a.BeginFunctors?
    ensures Next(s, a).pc == Handling(s.pc.drain && !a.Drain?) && (a.Drain? ==> s.pc.drain)
  {
  }

  lemma {:induction false} StillHandling(states: seq<State>, steps: seq<Step>, p: nat, j: nat)
    requires IsRun(states, steps) && p < j < |states| && steps[p].PollReturns?
    requires forall k | p < k < j :: !steps[k].BeginFunctors?
    ensures states[j].pc.Handling?
    ensures Drains(steps, p + 1, j) + Bit(states[j].pc.drain) == Bit(steps[p].active)
    decreases j
  {
    if j > p + 1 {
      StillHandling(states, steps, p, j - 1);
      HandlingStep(states[j - 1], steps[j - 1]);
      hide Next, Enabled;
    }
  }

  /** In every round, between poll's return and the functors, handleRead runs once if the eventfd was
      reported and not at all if it was not. */
  lemma DrainsOncePerReport(states: seq<State>, steps: seq<Step>, p: nat, b: nat)
    requires IsRun(states, steps) && p < b < |steps| && steps[p].PollReturns? && steps[b].BeginFunctors?
    requires forall k | p < k < b :: !steps[k].BeginFunctors?
    ensures Drains(steps, p + 1, b) == Bit(steps[p].active)
  {
    StillHandling(states, steps, p, b);
  }

  /** What thread t owes: it has pushed, or called quit(), and not written the eventfd since. */
  function Owed(steps: seq<Step>, t: Thread): Option<Owes> {
    if steps == [] then None
    else
      var a := steps[|steps| - 1];
      if a.Push? && a.thread == t then Some(AfterPush)
      else if a.SetQuit? && a.thread == t then Some(AfterQuit)
      else if a.Wakeup? && a.thread == t then None
      else Owed(steps[..|steps| - 1], t)
  }

  lemma OwedStep(s: State, a: Step, t: Thread)
    requires Enabled(s, a)
    ensures var u := Next(s, a);
            if (a.Push? || a.SetQuit?) && a.thread == t
            then t in u.owing && u.owing[t] == if a.Push? then AfterPush else AfterQuit
            else if a.Wakeup? && a.thread == t then t !in u.owing
            else (t in u.owing <==> t in s.owing) && (t in s.owing ==> u.owing[t] == s.owing[t])
  {
  }

  /** In every run the owed wakeups are exactly those. */
  lemma {:induction false} OwingIsOwed(states: seq<State>, steps: seq<Step>, i: nat, t: Thread)
    requires IsRun(states, steps) && i < |states|
    ensures if t in states[i].owing then Owed(steps[..i], t) == Some(states[i].owing[t])
            else Owed(steps[..i], t) == None
  {
    if i > 0 {
      OwingIsOwed(states, steps, i - 1, t);
      assert steps[..i][..i - 1] == steps[..i - 1];
      OwedStep(states[i - 1], steps[i - 1], t);
      hide Next, Enabled;
    }
  }

  /** quit() was called since loop() was last entered, or before the first time. */
  function QuitCalled(steps: seq<Step>): bool {
    if steps == [] then false
    else
      match steps[|steps| - 1]
      case SetQuit(_) => true
      case LoopQuit => true
      case StartLoop => false
      case _ => QuitCalled(steps[..|steps| - 1])
  }

  lemma QuitStep(s: State, a: Step)
    requires Enabled(s, a)
    ensures a.SetQuit? || a.LoopQuit? ==> Next(s, a).quit
    ensures a.StartLoop? ==> !Next(s, a).quit
    ensures !a.SetQuit? && !a.LoopQuit? && !a.StartLoop? ==> Next(s, a).quit == s.quit
  {
  }

  /** In every run quit_ says exactly that, and each test leaves the loop if it is set and goes on to poll
      if not. */
  lemma {:induction false} LeavesExactly(states: seq<State>, steps: seq<Step>, i: nat)
    requires IsRun(states, steps) && i < |states|
    ensures states[i].quit == QuitCalled(steps[..i])
    ensures i < |steps| && steps[i].Test? ==>
              states[i + 1].pc == if QuitCalled(steps[..i]) then Stopped else Polling
  {
    if i > 0 {
      LeavesExactly(states, steps, i - 1);
      assert steps[..i][..i - 1] == steps[..i - 1];
      QuitStep(states[i - 1], steps[i - 1]);
    }
  }

  /** In every run the loop thread goes round in the order test, poll, handlers, swap, functors, test, and
      leaves only at a test; other threads' steps, and user code, leave it where it is. */
  lemma GoesRound(states: seq<State>, steps: seq<Step>, i: nat)
    requires IsRun(states, steps) && i < |steps|
    ensures var before, after := states[i].pc, states[i + 1].pc;
            match steps[i]
            case StartLoop => before.Stopped? && after.Testing?
            case Test => before.Testing? && (after.Polling? || after.Stopped?)
            case PollReturns(_) => before.Polling? && after.Handling?
            case Drain => before.Handling? && after.Handling?
            case BeginFunctors => before.Handling? && after.Swapping?
            case Swap => before.Swapping? && after.Running?
            case RunFunctor => before.Running? && after.Running? && after.next == before.next + 1
            case LoopWakeup => before.Running? && after == before.(pushed := false)
            case EndFunctors => before.Running? && before.next == |before.batch| && after.Testing?
            case LoopPush(_) => after == if before.Running? then before.(pushed := true) else before
            case _ => after == before
  {
    InvAlways(states, steps, i);
  }
}
