/** The bounded queue and the thread pool told by the steps of their runs: who put what, who took what,
    who sleeps and who leaves (base/BoundedBlockingQueue.h, base/ThreadPool.cc). */
module QueueHistories {
  import opened Common
  import opened Monitors
  import opened BoundedQueues

  /** The items of the puts that found room, in order. */
  ghost function Puts(states: seq<State>, steps: seq<Step>, i: nat): seq<Item>
    requires IsRun(states, steps) && i <= |steps|
  {
    if i == 0 then []
    else
      var s, a := states[i - 1], steps[i - 1];
      Puts(states, steps, i - 1) + (if a.Put? && |s.queue| < s.capacity then [a.item] else [])
  }

  /** How many takes found an item. */
  ghost function Takes(states: seq<State>, steps: seq<Step>, i: nat): nat
    requires IsRun(states, steps) && i <= |steps|
  {
    if i == 0 then 0
    else Takes(states, steps, i - 1) + Bit(steps[i - 1].Take? && states[i - 1].queue != [])
  }

  lemma ItemStep(s: State, a: Step)
    requires Inv(s) && Enabled(s, a)
    ensures Next(s, a).accepted == s.accepted + (if a.Put? && |s.queue| < s.capacity then [a.item] else [])
    ensures |Next(s, a).taken| == |s.taken| + Bit(a.Take? && s.queue != [])
  {
    hide Sleep, Leave, Notify, MayNotify, WakeSpuriously, WellFormed, Signalled, Waits;
  }

  lemma {:induction false} HistoryAlways(states: seq<State>, steps: seq<Step>, i: nat)
    requires IsRun(states, steps) && i < |states|
    ensures states[i].accepted == Puts(states, steps, i) && |states[i].taken| == Takes(states, steps, i)
  {
    hide Next, Enabled, Inv;
    if i > 0 {
      HistoryAlways(states, steps, i - 1);
      InvAlways(states, steps, i - 1);
      ItemStep(states[i - 1], steps[i - 1]);
    }
  }

  /** In every run the queue is what the puts that found room put, less one from the front for each take
      that found an item. */
  lemma QueueIsPutsLessTakes(states: seq<State>, steps: seq<Step>, i: nat)
    requires IsRun(states, steps) && i < |states|
    ensures Takes(states, steps, i) <= |Puts(states, steps, i)|
    ensures states[i].queue == Puts(states, steps, i)[Takes(states, steps, i)..]
    ensures states[i].taken == Puts(states, steps, i)[..Takes(states, steps, i)]
  {
    HistoryAlways(states, steps, i);
    QueueIsFifo(states, steps, i);
  }

  /** In every run a put that finds the queue full, or a take that finds it empty, falls asleep and changes
      nothing else that is shared; one that does not leaves the monitor. */
  lemma SleepsExactly(states: seq<State>, steps: seq<Step>, i: nat)
    requires IsRun(states, steps) && i < |steps|
    ensures var s, t, a := states[i], states[i + 1], steps[i];
            && (a.Put? && |s.queue| == s.capacity ==>
                  a.thread in t.notFull.asleep && t.queue == s.queue && t.notEmpty == s.notEmpty)
            && (a.Put? && |s.queue| < s.capacity ==> !Waits(t.notFull, a.thread) && !Waits(t.notEmpty, a.thread))
            && (a.Take? && s.queue == [] ==>
                  a.thread in t.notEmpty.asleep && t.queue == [] && t.notFull == s.notFull)
            && (a.Take? && s.queue != [] ==> !Waits(t.notEmpty, a.thread) && !Waits(t.notFull, a.thread))
  {
    InvAlways(states, steps, i);
    SleepStep(states[i], steps[i]);
    hide Next, Enabled, Inv;
  }

  lemma SleepStep(s: State, a: Step)
    requires Inv(s) && Enabled(s, a)
    ensures var t := Next(s, a);
            && (a.Put? && |s.queue| == s.capacity ==>
                  a.thread in t.notFull.asleep && t.queue == s.queue && t.notEmpty == s.notEmpty)
            && (a.Put? && |s.queue| < s.capacity ==> !Waits(t.notFull, a.thread) && !Waits(t.notEmpty, a.thread))
            && (a.Take? && s.queue == [] ==>
                  a.thread in t.notEmpty.asleep && t.queue == [] && t.notFull == s.notFull)
            && (a.Take? && s.queue != [] ==> !Waits(t.notEmpty, a.thread) && !Waits(t.notFull, a.thread))
  {
  }
}

module PoolHistories {
  import opened Common
  import opened Monitors
  import opened ThreadPools

  ghost predicate Stopped(steps: seq<Step>) { Stop in steps }

  lemma {:induction false} RunningUntilStop(states: seq<State>, steps: seq<Step>, i: nat)
    requires IsRun(states, steps) && i < |states|
    ensures states[i].running <==> !Stopped(steps[..i])
  {
    if i > 0 {
      RunningUntilStop(states, steps, i - 1);
      assert steps[..i] == steps[..i - 1] + [steps[i - 1]];
      RunningStep(states[i - 1], steps[i - 1]);
      hide Next, Enabled;
    }
  }

  lemma RunningStep(s: State, a: Step)
    requires Enabled(s, a)
    ensures Next(s, a).running <==> s.running && !a.Stop?
    ensures Next(s, a).maxQueueSize == s.maxQueueSize
  {
  }

  // ----- Tasks -----

  /** The tasks of the runs that found room, in order. */
  ghost function Submits(states: seq<State>, steps: seq<Step>, i: nat): seq<Task>
    requires IsRun(states, steps) && i <= |steps|
  {
    if i == 0 then []
    else
      var s, a := states[i - 1], steps[i - 1];
      Submits(states, steps, i - 1)
      + (if a.Run? && !(s.maxQueueSize > 0 && |s.queue| >= s.maxQueueSize) then [a.task] else [])
  }

  ghost function Takes(states: seq<State>, steps: seq<Step>, i: nat): nat
    requires IsRun(states, steps) && i <= |steps|
  {
    if i == 0 then 0
    else Takes(states, steps, i - 1) + Bit(steps[i - 1].Take? && states[i - 1].queue != [])
  }

  lemma TaskStep(s: State, a: Step)
    requires Enabled(s, a)
    ensures Next(s, a).submitted
         == s.submitted + (if a.Run? && !(s.maxQueueSize > 0 && |s.queue| >= s.maxQueueSize) then [a.task] else [])
    ensures |Next(s, a).taken| == |s.taken| + Bit(a.Take? && s.queue != [])
  {
    hide Sleep, Leave, Notify, MayNotify, WakeSpuriously, NotifyAll, Waits;
  }

  lemma {:induction false} HistoryAlways(states: seq<State>, steps: seq<Step>, i: nat)
    requires IsRun(states, steps) && i < |states|
    ensures states[i].submitted == Submits(states, steps, i) && |states[i].taken| == Takes(states, steps, i)
  {
    hide Next, Enabled;
    if i > 0 {
      HistoryAlways(states, steps, i - 1);
      TaskStep(states[i - 1], steps[i - 1]);
    }
  }

  /** In every run the queue is what the runs that found room submitted, less one from the front for each
      take that found a task. */
  lemma QueueIsSubmitsLessTakes(states: seq<State>, steps: seq<Step>, i: nat)
    requires IsRun(states, steps) && i < |states|
    ensures Takes(states, steps, i) <= |Submits(states, steps, i)|
    ensures states[i].queue == Submits(states, steps, i)[Takes(states, steps, i)..]
    ensures states[i].taken == Submits(states, steps, i)[..Takes(states, steps, i)]
  {
    HistoryAlways(states, steps, i);
    TasksAccountedFor(states, steps, i);
  }

  /** In every run a producer that finds the queue full falls asleep, and a worker that finds it empty
      does exactly if the pool still runs; otherwise they leave the condition. */
  lemma SleepsExactly(states: seq<State>, steps: seq<Step>, i: nat)
    requires IsRun(states, steps) && i < |steps|
    ensures var s, t, a := states[i], states[i + 1], steps[i];
            && (a.Run? ==> (a.thread in t.notFull.asleep <==> s.maxQueueSize > 0 && |s.queue| >= s.maxQueueSize))
            && (a.Take? ==> (a.thread in t.notEmpty.asleep <==> s.queue == [] && !Stopped(steps[..i])))
  {
    InvAlways(states, steps, i);
    RunningUntilStop(states, steps, i);
    SleepStep(states[i], steps[i]);
    hide Next, Enabled, Inv;
  }

  lemma SleepStep(s: State, a: Step)
    requires Inv(s) && Enabled(s, a)
    ensures var t := Next(s, a);
            && (a.Run? ==> (a.thread in t.notFull.asleep <==> s.maxQueueSize > 0 && |s.queue| >= s.maxQueueSize))
            && (a.Take? ==> (a.thread in t.notEmpty.asleep <==> s.queue == [] && s.running))
  {
  }

  // ----- Workers -----

  /** How a step changes worker w. */
  lemma WorkerStep(s: State, a: Step, w: Thread)
    requires Enabled(s, a) && w in s.workers
    ensures w in Next(s, a).workers
    ensures var before, after := s.workers[w], Next(s, a).workers[w];
            if a == Check(w) then before.Looping? && after == if s.running then Taking else Exited
            else if a.Take? && a.thread == w then
              && before.Taking?
              && after == if s.queue != [] then Executing(s.queue[0]) else if s.running then Taking else Looping
            else if a == Complete(w) then before.Executing? && after.Looping?
            else after == before
  {
    hide Sleep, Leave, Notify, MayNotify, WakeSpuriously, NotifyAll, Waits;
  }

  lemma {:induction false} WorkersStay(states: seq<State>, steps: seq<Step>, i: nat)
    requires IsRun(states, steps) && i < |states|
    ensures states[i].workers.Keys == states[0].workers.Keys
  {
    hide Next, Enabled;
    if i > 0 {
      WorkersStay(states, steps, i - 1);
      SameWorkers(states[i - 1], steps[i - 1]);
    }
  }

  lemma SameWorkers(s: State, a: Step)
    requires Enabled(s, a)
    ensures Next(s, a).workers.Keys == s.workers.Keys
  {
    hide Sleep, Leave, Notify, MayNotify, WakeSpuriously, NotifyAll, Waits;
  }

  /** In every run no worker leaves before stop() is called. */
  lemma {:induction false} NobodyLeavesEarly(states: seq<State>, steps: seq<Step>, i: nat, w: Thread)
    requires IsRun(states, steps) && i < |states| && w in states[i].workers
    requires !Stopped(steps[..i])
    ensures !states[i].workers[w].Exited?
  {
    hide Next, Enabled;
    if i > 0 {
      assert steps[..i] == steps[..i - 1] + [steps[i - 1]];
      WorkersStay(states, steps, i);
      WorkersStay(states, steps, i - 1);
      NobodyLeavesEarly(states, steps, i - 1, w);
      RunningUntilStop(states, steps, i - 1);
      WorkerStep(states[i - 1], steps[i - 1], w);
    }
  }

  /** Worker w took `task` from the front of the queue in step h, and has done nothing of its own since. */
  ghost predicate TookInStep(states: seq<State>, steps: seq<Step>, h: nat, i: nat, w: Thread, task: Task)
    requires i < |states| == |steps| + 1
  {
    && h < i && steps[h].Take? && steps[h].thread == w && states[h].queue != [] && states[h].queue[0] == task
    && forall k | h < k < i :: !(IsWorkerStep(steps[k]) && steps[k].thread == w)
  }

  /** In every run the task a worker executes is the one it took. */
  lemma {:induction false} ExecutesWhatItTook(states: seq<State>, steps: seq<Step>, i: nat, w: Thread)
    requires IsRun(states, steps) && i < |states| && w in states[i].workers && states[i].workers[w].Executing?
    ensures exists h: nat :: TookInStep(states, steps, h, i, w, states[i].workers[w].task)
  {
    hide Next, Enabled;
    assert i > 0;
    WorkersStay(states, steps, i);
    WorkersStay(states, steps, i - 1);
    var s, a, task := states[i - 1], steps[i - 1], states[i].workers[w].task;
    WorkerStep(s, a, w);
    if IsWorkerStep(a) && a.thread == w {
      assert TookInStep(states, steps, i - 1, i, w, task);
    } else {
      ExecutesWhatItTook(states, steps, i - 1, w);
      var h: nat :| TookInStep(states, steps, h, i - 1, w, task);
      assert TookInStep(states, steps, h, i, w, task);
    }
  }
}
