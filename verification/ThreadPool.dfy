/** base/ThreadPool.cc, started with at least one thread: producers in run(), workers in runInThread
    and take(), and stop(). A step is one hold of the mutex, or one step of a worker outside it. */
module ThreadPools {
  import opened Common
  import opened Monitors

  type Task = nat

  datatype Worker =
    | Looping                 // while (running_), read without the mutex
    | Taking                  // in take(), waiting for the mutex or asleep on notEmpty_
    | Executing(task: Task)
    | Exited

  datatype State = State(
    maxQueueSize: nat,            // 0: unbounded
    running: bool,
    queue: seq<Task>,
    workers: map<Thread, Worker>,
    notEmpty: Waiters,
    notFull: Waiters,
    submitted: seq<Task>,         // history: tasks pushed by run()
    taken: seq<Task>)             // history: tasks handed to workers

  datatype Step =
    | Run(thread: Thread, task: Task, pick: Option<Thread>)
    | Check(thread: Thread)
    | Take(thread: Thread, pick: Option<Thread>)
    | Complete(thread: Thread)
    | Stop
    | SpuriousWorker(thread: Thread)
    | SpuriousProducer(thread: Thread)

  ghost predicate Started(s: State) {
    && s == State(s.maxQueueSize, true, [], s.workers, NoWaiters, NoWaiters, [], [])
    && (forall t | t in s.workers :: s.workers[t].Looping?)
  }

  predicate IsFull(s: State) { s.maxQueueSize > 0 && |s.queue| >= s.maxQueueSize }

  predicate Enabled(s: State, a: Step) {
    match a
    // a worker may call run() from the task it executes
    case Run(t, _, pick) =>
      && (t in s.workers ==> s.workers[t].Executing?)
      && t !in s.notFull.asleep
      && (!IsFull(s) ==> MayNotify(s.notEmpty, pick))
    case Check(t) => t in s.workers && s.workers[t].Looping?
    case Take(t, pick) =>
      && t in s.workers && s.workers[t].Taking? && t !in s.notEmpty.asleep
      && (s.queue != [] && s.maxQueueSize > 0 ==> MayNotify(s.notFull, pick))
    case Complete(t) => t in s.workers && s.workers[t].Executing? && !Waits(s.notFull, t)
    case Stop => s.running
    case SpuriousWorker(t) => t in s.notEmpty.asleep
    case SpuriousProducer(t) => t in s.notFull.asleep
  }

  function Next(s: State, a: Step): State
    requires Enabled(s, a)
  {
    match a
    case Run(t, task, pick) =>
      if IsFull(s) then s.(notFull := Sleep(s.notFull, t))
      else s.(queue := s.queue + [task], submitted := s.submitted + [task],
              notFull := Leave(s.notFull, t), notEmpty := Notify(s.notEmpty, pick))
    case Check(t) => s.(workers := s.workers[t := if s.running then Taking else Exited])
    case Take(t, pick) =>
      if s.queue == [] && s.running then s.(notEmpty := Sleep(s.notEmpty, t))
      else if s.queue == [] then s.(notEmpty := Leave(s.notEmpty, t), workers := s.workers[t := Looping])
      else s.(queue := s.queue[1..], taken := s.taken + [s.queue[0]],
              notEmpty := Leave(s.notEmpty, t), workers := s.workers[t := Executing(s.queue[0])],
              notFull := if s.maxQueueSize > 0 then Notify(s.notFull, pick) else s.notFull)
    case Complete(t) => s.(workers := s.workers[t := Looping])
    case Stop => s.(running := false, notEmpty := NotifyAll(s.notEmpty))
    case SpuriousWorker(t) => s.(notEmpty := WakeSpuriously(s.notEmpty, t))
    case SpuriousProducer(t) => s.(notFull := WakeSpuriously(s.notFull, t))
  }

  ghost predicate IsRun(states: seq<State>, steps: seq<Step>) {
    && |states| == |steps| + 1 && Started(states[0])
    && forall i | 0 <= i < |steps| :: Enabled(states[i], steps[i]) && states[i + 1] == Next(states[i], steps[i])
  }

  /** How many producers the bounded queue still has room for. */
  function Room(s: State): int { s.maxQueueSize - |s.queue| }

  ghost predicate Inv(s: State) {
    && s.submitted == s.taken + s.queue
    && (s.maxQueueSize > 0 ==> |s.queue| <= s.maxQueueSize)
    && Signalled(s.notFull, Room(s))
    && (s.maxQueueSize == 0 ==> forall t :: !Waits(s.notFull, t))
    && WellFormed(s.notEmpty) && WellFormed(s.notFull)
    && Signalled(s.notEmpty, |s.queue|)
    && (!s.running ==> s.notEmpty.asleep == {})
    && (forall t | Waits(s.notEmpty, t) :: t in s.workers && s.workers[t].Taking?)
    && (forall t | Waits(s.notFull, t) && t in s.workers :: s.workers[t].Executing?)
  }

  lemma InvRun(s: State, a: Step)
    requires Inv(s) && Enabled(s, a) && a.Run?
    ensures Inv(Next(s, a))
  {
    hide WellFormed, Signalled, Waits, Sleep, Leave, Notify, MayNotify, WakeSpuriously;
    if IsFull(s) {
      SleepKeepsSignalled(s.notFull, a.thread, Room(s));
    } else {
      LeaveKeepsSignalled(s.notFull, a.thread, Room(s));
      NotifyKeepsSignalled(s.notEmpty, a.pick, |s.queue|);
    }
  }

  lemma InvTake(s: State, a: Step)
    requires Inv(s) && Enabled(s, a) && a.Take?
    ensures Inv(Next(s, a))
  {
    hide WellFormed, Signalled, Waits, Sleep, Leave, Notify, MayNotify, WakeSpuriously;
    if s.queue == [] && s.running {
      SleepKeepsSignalled(s.notEmpty, a.thread, 0);
    } else {
      LeaveKeepsSignalled(s.notEmpty, a.thread, |s.queue|);
      if s.queue == [] {
        NothingToSignal(Leave(s.notEmpty, a.thread), 0);
      } else {
        assert s.queue == [s.queue[0]] + s.queue[1..];
        if s.maxQueueSize > 0 {
          NotifyKeepsSignalled(s.notFull, a.pick, Room(s));
        } else {
          NothingToSignal(s.notFull, Room(s) + 1);
        }
      }
    }
  }

  lemma InvNext(s: State, a: Step)
    requires Inv(s) && Enabled(s, a)
    ensures Inv(Next(s, a))
  {
    hide WellFormed, Signalled, Waits, Sleep, Leave, Notify, MayNotify, WakeSpuriously;
    match a
    case Run(_, _, _) => InvRun(s, a);
    case Take(_, _) => InvTake(s, a);
    case SpuriousWorker(t) => SpuriousKeepsSignalled(s.notEmpty, t, |s.queue|);
    case SpuriousProducer(t) => SpuriousKeepsSignalled(s.notFull, t, Room(s));
    case Stop => NotifyAllKeepsSignalled(s.notEmpty, |s.queue|);
    case _ =>
  }

  lemma {:induction false} InvAlways(states: seq<State>, steps: seq<Step>, i: nat)
    requires IsRun(states, steps) && i < |states|
    ensures Inv(states[i])
  {
    if i > 0 {
      InvAlways(states, steps, i - 1);
      InvNext(states[i - 1], steps[i - 1]);
    }
  }

  /** Tasks are handed out in the order they were submitted, each at most once, and a bounded queue
      keeps its bound. */
  lemma TasksAccountedFor(states: seq<State>, steps: seq<Step>, i: nat)
    requires IsRun(states, steps) && i < |states|
    ensures states[i].submitted == states[i].taken + states[i].queue
    ensures states[i].maxQueueSize > 0 ==> |states[i].queue| <= states[i].maxQueueSize
  {
    InvAlways(states, steps, i);
  }

  /** While the pool runs no worker sleeps beside a task nobody was notified for, nor a producer beside
      such a free place; once it is stopped no worker sleeps at all. */
  lemma NoWorkerForgotten(states: seq<State>, steps: seq<Step>, i: nat)
    requires IsRun(states, steps) && i < |states|
    ensures var s := states[i];
            && (s.running && s.notEmpty.asleep != {} ==> |s.queue| <= |s.notEmpty.notified|)
            && (s.maxQueueSize > 0 && s.notFull.asleep != {} ==> s.maxQueueSize - |s.queue| <= |s.notFull.notified|)
            && (!s.running ==> s.notEmpty.asleep == {})
  {
    InvAlways(states, steps, i);
  }

  // ----- Shutdown -----

  /** Steps left before a worker exits, once the pool is stopped. */
  function Rank(w: Worker): nat {
    match w
    case Taking => 3
    case Executing(_) => 2
    case Looping => 1
    case Exited => 0
  }

  predicate IsWorkerStep(a: Step) { a.Check? || a.Take? || a.Complete? }

  /** The steps worker w takes from state i to state j. */
  function OwnSteps(steps: seq<Step>, i: nat, j: nat, w: Thread): nat
    requires i <= j <= |steps|
  {
    if i == j then 0
    else OwnSteps(steps, i, j - 1, w) + (if IsWorkerStep(steps[j - 1]) && steps[j - 1].thread == w then 1 else 0)
  }

  /** After stop() every worker exits within three steps of its own: each brings it nearer to its exit, and
      no other step sets it back. */
  lemma {:induction false} StoppedWorkersFinish(states: seq<State>, steps: seq<Step>, i: nat, j: nat, w: Thread)
    requires IsRun(states, steps) && i <= j < |states| && !states[i].running && w in states[i].workers
    ensures !states[j].running && w in states[j].workers
    ensures OwnSteps(steps, i, j, w) + Rank(states[j].workers[w]) <= Rank(states[i].workers[w]) <= 3
    ensures OwnSteps(steps, i, j, w) == 3 ==> states[j].workers[w].Exited?
    decreases j
  {
    if i < j {
      StoppedWorkersFinish(states, steps, i, j - 1, w);
      StoppedStep(states[j - 1], steps[j - 1], w);
      hide Next, Enabled;
    }
  }

  lemma StoppedStep(s: State, a: Step, w: Thread)
    requires Enabled(s, a) && !s.running && w in s.workers
    ensures var t := Next(s, a);
            && !t.running && w in t.workers
            && if IsWorkerStep(a) && a.thread == w then Rank(t.workers[w]) < Rank(s.workers[w])
               else t.workers[w] == s.workers[w]
  {
    hide Sleep, Leave, Notify, MayNotify, WakeSpuriously, NotifyAll;
  }

  /** And a worker that has not exited can take its next step, unless its own task is blocked in run()
      on a full queue: join() does not hang on a worker asleep in take(). */
  lemma StoppedWorkersCanStep(states: seq<State>, steps: seq<Step>, i: nat, w: Thread)
    requires IsRun(states, steps) && i < |states| && !states[i].running && w in states[i].workers
    requires !states[i].workers[w].Exited? && !Waits(states[i].notFull, w)
    ensures exists a :: IsWorkerStep(a) && a.thread == w && Enabled(states[i], a)
  {
    InvAlways(states, steps, i);
    var s := states[i];
    match s.workers[w]
    case Looping => assert Enabled(s, Check(w));
    case Executing(_) => assert Enabled(s, Complete(w));
    case Taking =>
      if s.notFull.asleep == {} {
        assert Enabled(s, Take(w, None));
      } else {
        var p :| p in s.notFull.asleep;
        assert Enabled(s, Take(w, Some(p)));
      }
  }
}

/** The pool in the form the source has; each method is one hold of the mutex by one thread. */
module ThreadPoolObjects {
  import opened Common
  import opened Monitors
  import opened ThreadPools

  class ThreadPool {
    const maxQueueSize: nat
    var running: bool
    var queue: seq<Task>
    var notEmpty: Waiters
    var notFull: Waiters
    ghost var workers: map<Thread, Worker>
    ghost var submitted: seq<Task>
    ghost var taken: seq<Task>

    ghost function View(): State
      reads this
    {
      State(maxQueueSize, running, queue, workers, notEmpty, notFull, submitted, taken)
    }

    ghost predicate Valid()
      reads this
    {
      Inv(View())
    }

    constructor (maxSize: nat, ghost threads: set<Thread>)
      ensures Valid() && Started(View()) && workers.Keys == threads && maxQueueSize == maxSize
    {
      maxQueueSize := maxSize;
      running, queue, notEmpty, notFull := true, [], NoWaiters, NoWaiters;
      workers, submitted, taken := map t | t in threads :: Looping, [], [];
    }

    method RunSection(thread: Thread, task: Task, pick: Option<Thread>) returns (done: bool)
      requires Valid() && Enabled(View(), Run(thread, task, pick))
      modifies this
      ensures Valid() && View() == Next(old(View()), Run(thread, task, pick))
      ensures done <==> !(maxQueueSize > 0 && old(|queue|) >= maxQueueSize)
      ensures queue == if done then old(queue) + [task] else old(queue)
    {
      hide Inv;
      InvNext(View(), Run(thread, task, pick));
      if maxQueueSize > 0 && |queue| >= maxQueueSize {
        notFull := Sleep(notFull, thread);
        done := false;
      } else {
        notFull := Leave(notFull, thread);
        queue := queue + [task];
        submitted := submitted + [task];
        notEmpty := Notify(notEmpty, pick);
        done := true;
      }
    }

    /** One hold of the mutex in take(): the worker sleeps, gets a task, or, once the pool is stopped,
        comes back with none. */
    method TakeSection(thread: Thread, pick: Option<Thread>) returns (task: Option<Task>)
      requires Valid() && Enabled(View(), Take(thread, pick))
      modifies this
      ensures Valid() && View() == Next(old(View()), Take(thread, pick))
      ensures old(queue) != [] ==> task == Some(old(queue)[0]) && queue == old(queue)[1..]
      ensures old(queue) == [] ==> task == None && queue == [] && (thread in notEmpty.asleep <==> running)
    {
      hide Inv;
      StoppedNobodySleeps(View());
      InvNext(View(), Take(thread, pick));
      task := None;
      if queue == [] && running {
        notEmpty := Sleep(notEmpty, thread);
      } else {
        notEmpty := Leave(notEmpty, thread);
        if queue != [] {
          task := Some(queue[0]);
          queue := queue[1..];
          taken := taken + [task.value];
          workers := workers[thread := Executing(task.value)];
          if maxQueueSize > 0 {
            notFull := Notify(notFull, pick);
          }
        } else {
          workers := workers[thread := Looping];
        }
      }
    }

    method StopSection()
      requires Valid() && running
      modifies this
      ensures Valid() && View() == Next(old(View()), Stop)
      ensures !running && notEmpty.asleep == {} && old(notEmpty.asleep) <= notEmpty.notified
    {
      hide Inv;
      InvNext(View(), Stop);
      running := false;
      notEmpty := NotifyAll(notEmpty);
    }
  }

  lemma StoppedNobodySleeps(s: State)
    requires Inv(s)
    ensures !s.running ==> s.notEmpty.asleep == {}
  {
  }
}
