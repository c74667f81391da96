/** What becomes of each attempt of net/Connector.cc, over whole runs. */
module ConnectorHistories {
  import opened Common
  import opened ConnectorMachine

  // ----- connect_ -----

  /** The last call of start(), restart() or stop() was not stop(). */
  function Wanted(steps: seq<Step>): bool {
    if steps == [] then false
    else
      match steps[|steps| - 1]
      case Start(_) => true
      case CrossStart => true
      case Restart(_) => true
      case Stop => false
      case _ => Wanted(steps[..|steps| - 1])
  }

  lemma WantedStep(s: State, a: Step)
    requires Enabled(s, a)
    ensures a.Start? || a.CrossStart? || a.Restart? ==> Next(s, a).connect
    ensures a.Stop? ==> !Next(s, a).connect
    ensures !a.Start? && !a.CrossStart? && !a.Restart? && !a.Stop? ==> Next(s, a).connect == s.connect
  {
  }

  lemma {:induction false} ConnectIsWanted(states: seq<State>, steps: seq<Step>, i: nat)
    requires IsRun(states, steps) && i < |states|
    ensures states[i].connect == Wanted(steps[..i])
  {
    if i > 0 {
      ConnectIsWanted(states, steps, i - 1);
      assert steps[..i][..i - 1] == steps[..i - 1];
      WantedStep(states[i - 1], steps[i - 1]);
      hide Next, Enabled;
    }
  }

  // ----- Attempts -----

  /** In every run, whatever makes startInLoop run: an attempt is made exactly if one is wanted, on a new
      descriptor. It is then connecting on its channel, or the descriptor is closed at once; a retry is
      scheduled exactly for the errors that allow one. */
  lemma AttemptOutcome(states: seq<State>, steps: seq<Step>, i: nat)
    requires IsRun(states, steps) && i < |steps| && CallsStart(states[i], steps[i])
    ensures var s, t, fd := states[i], states[i + 1], states[i].created;
            && t.handed == s.handed && t.pending == s.pending
            && if !Wanted(steps[..i + 1]) then
                 t.created == s.created && t.closed == s.closed && t.link.Disconnected? && t.timer.None?
               else
                 && t.created == s.created + 1
                 && match steps[i].result
                    case InProgress =>
                      t.link.Connecting? && t.channel == Some(fd) && t.closed == s.closed && t.timer.None?
                    case Retryable =>
                      && t.link.Disconnected? && t.channel == s.channel && t.closed == s.closed + [fd]
                      && t.timer.Some?
                    case Fatal =>
                      && t.link.Disconnected? && t.channel == s.channel && t.closed == s.closed + [fd]
                      && t.timer.None?
  {
    QueueAlways(states, steps, i);
    ConnectIsWanted(states, steps, i + 1);
    AttemptStep(states[i], steps[i]);
    hide Next, Enabled, QueueInv, Wanted;
  }

  lemma AttemptStep(s: State, a: Step)
    requires QueueInv(s) && Enabled(s, a) && CallsStart(s, a)
    ensures var t, fd := Next(s, a), s.created;
            && t.handed == s.handed && t.pending == s.pending
            && if !t.connect then
                 t.created == s.created && t.closed == s.closed && t.link.Disconnected? && t.timer.None?
               else
                 && t.created == s.created + 1
                 && match a.result
                    case InProgress =>
                      t.link.Connecting? && t.channel == Some(fd) && t.closed == s.closed && t.timer.None?
                    case Retryable =>
                      && t.link.Disconnected? && t.channel == s.channel && t.closed == s.closed + [fd]
                      && t.timer.Some?
                    case Fatal =>
                      && t.link.Disconnected? && t.channel == s.channel && t.closed == s.closed + [fd]
                      && t.timer.None?
  {
    StartNeedsNoTimer(s, a);
    hide QueueInv;
  }

  lemma StartNeedsNoTimer(s: State, a: Step)
    requires QueueInv(s) && Enabled(s, a) && CallsStart(s, a)
    ensures s.timer.None? || a.TimerFires?
    ensures s.link.Disconnected? || a.Restart?
  {
    if a.RunTask? {
      HeadStart(s);
      PopLine(s);
      CountPop(Line(s));
    }
  }

  /** The attempt on channel fd is given up. */
  ghost predicate GivenUp(s: State, t: State, fd: nat) {
    && t.link.Disconnected? && t.channel == s.channel && t.closed == s.closed + [fd] && t.handed == s.handed
    && t.pending == s.pending + [ResetTask] && (t.timer.Some? <==> s.connect)
  }

  /** In every run handleWrite on an attempt that succeeded hands its descriptor to the callback if it is
      still wanted, and closes it if not; on one that failed, or met itself, it gives it up. */
  lemma WriteOutcome(states: seq<State>, steps: seq<Step>, i: nat)
    requires IsRun(states, steps) && i < |steps| && steps[i].HandleWrite? && states[i].link.Connecting?
    ensures states[i].channel.Some?
    ensures var s, t, fd := states[i], states[i + 1], states[i].channel.value;
            if steps[i].error || steps[i].selfConnect then GivenUp(s, t, fd)
            else
              && t.link.Connected? && t.channel == s.channel && t.pending == s.pending + [ResetTask] && t.timer.None?
              && t.handed == s.handed + (if Wanted(steps[..i]) then [fd] else [])
              && t.closed == s.closed + (if Wanted(steps[..i]) then [] else [fd])
  {
    QueueAlways(states, steps, i);
    ConnectIsWanted(states, steps, i);
    hide Wanted;
  }

  /** So does handleError, and stopInLoop; both do nothing when no attempt is under way. */
  lemma GiveUpOutcome(states: seq<State>, steps: seq<Step>, i: nat)
    requires IsRun(states, steps) && i < |steps|
    requires steps[i].HandleError? || (steps[i].RunTask? && states[i].batch[0].StopTask?)
    ensures var s, t := states[i], states[i + 1];
            if s.link.Connecting? then s.channel.Some? && GivenUp(s, t, s.channel.value)
            else t == s.(due := t.due, batch := t.batch)
  {
    QueueAlways(states, steps, i);
  }

  /** The step in which descriptor fd becomes a connection somebody wants. */
  predicate Succeeds(s: State, a: Step, fd: nat) {
    a == HandleWrite(false, false) && s.link.Connecting? && s.channel == Some(fd) && s.connect
  }

  lemma HandedStep(s: State, a: Step, fd: nat)
    requires QueueInv(s) && Enabled(s, a)
    ensures fd in Next(s, a).handed <==> fd in s.handed || Succeeds(s, a, fd)
  {
    hide QueueInv;
  }

  /** In every run the callback has been given exactly the descriptors of attempts that succeeded while
      they were wanted. */
  lemma {:induction false} HandedExactly(states: seq<State>, steps: seq<Step>, i: nat, fd: nat)
    requires IsRun(states, steps) && i < |states|
    ensures fd in states[i].handed <==> exists j :: 0 <= j < i && Succeeds(states[j], steps[j], fd)
  {
    hide Next, Enabled, Succeeds, QueueInv;
    if i > 0 {
      HandedExactly(states, steps, i - 1, fd);
      QueueAlways(states, steps, i - 1);
      HandedStep(states[i - 1], steps[i - 1], fd);
    }
  }

  // ----- The queue -----

  /** The step gives the connecting channel up, and queues its reset. */
  predicate Detaches(s: State, a: Step) {
    s.link.Connecting? && (a.HandleError? || a.HandleWrite? || (a.RunTask? && s.batch != [] && s.batch[0].StopTask?))
  }

  function Submits(s: State, a: Step): seq<Task> {
    if a.CrossStart? then [StartTask] else if a.Stop? then [StopTask] else if Detaches(s, a) then [ResetTask] else []
  }

  /** Every functor queued, in order. */
  ghost function Submitted(states: seq<State>, steps: seq<Step>, i: nat): seq<Task>
    requires IsRun(states, steps) && i <= |steps|
  {
    if i == 0 then [] else Submitted(states, steps, i - 1) + Submits(states[i - 1], steps[i - 1])
  }

  function Ran(steps: seq<Step>, i: nat): nat
    requires i <= |steps|
  {
    if i == 0 then 0 else Ran(steps, i - 1) + Bit(steps[i - 1].RunTask?)
  }

  lemma TaskQueue(s: State, r: ConnectResult)
    requires Enabled(s, RunTask(r))
    ensures Next(s, RunTask(r)).batch == s.batch[1..]
    ensures Next(s, RunTask(r)).pending == s.pending + Submits(s, RunTask(r))
  {
    assert s.pending + [] == s.pending;
  }

  lemma StepQueue(s: State, a: Step)
    requires Enabled(s, a) && !a.RunTask? && !a.Swap? && !a.EndRound?
    ensures Next(s, a).batch == s.batch && Next(s, a).pending == s.pending + Submits(s, a)
  {
    hide DoRunTask;
    assert s.pending + [] == s.pending;
  }

  lemma RoundQueue(s: State, a: Step)
    requires QueueInv(s) && Enabled(s, a) && (a.Swap? || a.EndRound?)
    ensures Line(Next(s, a)) == Line(s) && Submits(s, a) == []
  {
    assert a.Swap? ==> s.batch == [];
  }

  lemma LineStep(s: State, a: Step)
    requires QueueInv(s) && Enabled(s, a)
    ensures a.RunTask? ==> Line(s) != []
    ensures Line(Next(s, a)) == (if a.RunTask? then Line(s)[1..] else Line(s)) + Submits(s, a)
  {
    hide QueueInv, Next, Submits;
    if a.RunTask? {
      TaskQueue(s, a.result);
      PopLine(s);
      Associative(s.batch[1..], s.pending, Submits(s, a));
    } else if a.Swap? || a.EndRound? {
      RoundQueue(s, a);
      assert Line(s) + [] == Line(s);
    } else {
      StepQueue(s, a);
      Associative(s.batch, s.pending, Submits(s, a));
    }
  }

  /** In every run the functors run in the order they were queued, each once. */
  lemma {:induction false} TasksInOrder(states: seq<State>, steps: seq<Step>, i: nat)
    requires IsRun(states, steps) && i < |states|
    ensures Ran(steps, i) <= |Submitted(states, steps, i)|
    ensures Line(states[i]) == Submitted(states, steps, i)[Ran(steps, i)..]
  {
    hide Next, Enabled, QueueInv, Submits;
    if i > 0 {
      TasksInOrder(states, steps, i - 1);
      QueueAlways(states, steps, i - 1);
      LineStep(states[i - 1], steps[i - 1]);
    }
  }

  /** In every run the functors of a round are exactly those queued before its swap. */
  lemma {:induction false} RoundRunsQueued(states: seq<State>, steps: seq<Step>, w: nat, j: nat)
    requires IsRun(states, steps) && w < j < |states| && steps[w].Swap?
    requires forall k | w < k < j :: !steps[k].EndRound?
    ensures states[j].phase.Functors?
    ensures |states[j].batch| == |Submitted(states, steps, w)| - Ran(steps, j)
    ensures j < |steps| && steps[j].EndRound? ==> Ran(steps, j) == |Submitted(states, steps, w)|
    decreases j
  {
    hide Next, QueueInv, Submits;
    if j == w + 1 {
      QueueAlways(states, steps, w);
      TasksInOrder(states, steps, w);
      SwapStep(states[w]);
    } else {
      RoundRunsQueued(states, steps, w, j - 1);
      FunctorStep(states[j - 1], steps[j - 1]);
    }
  }

  lemma SwapStep(s: State)
    requires QueueInv(s) && Enabled(s, Swap)
    ensures Next(s, Swap).phase.Functors? && Next(s, Swap).batch == Line(s)
  {
    assert s.batch == [];
  }

  lemma FunctorStep(s: State, a: Step)
    requires Enabled(s, a) && s.phase.Functors? && !a.EndRound?
    ensures Next(s, a).phase.Functors?
    ensures |Next(s, a).batch| == |s.batch| - Bit(a.RunTask?)
  {
  }

  // ----- Retries -----

  /** The step schedules a retry. */
  predicate Schedules(s: State, a: Step, t: State) { t.timer.Some? && (s.timer.None? || a.TimerFires?) }

  /** Retries scheduled since the connector was made or last restarted. */
  ghost function Retries(states: seq<State>, steps: seq<Step>, i: nat): nat
    requires IsRun(states, steps) && i <= |steps|
  {
    if i == 0 then 0
    else
      (if steps[i - 1].Restart? then 0 else Retries(states, steps, i - 1))
      + Bit(Schedules(states[i - 1], steps[i - 1], states[i]))
  }

  ghost predicate CountsRetry(s: State, a: Step, t: State) {
    |t.delays| == (if a.Restart? then 0 else |s.delays|) + Bit(Schedules(s, a, t))
  }

  lemma RetryStep(s: State, a: Step)
    requires QueueInv(s) && Enabled(s, a)
    ensures CountsRetry(s, a, Next(s, a))
  {
    RetriesOnlyUntimed(s, a);
    hide QueueInv, Next, CountsRetry;
    if CallsStart(s, a) {
      RetryByAttempt(s, a);
    } else if a.RunTask? {
      RetryByTask(s, a.result);
    } else if a.HandleError? || a.HandleWrite? {
      RetryByHandler(s, a);
    } else {
      RetryByNone(s, a);
    }
  }

  lemma RetryByAttempt(s: State, a: Step)
    requires Enabled(s, a) && CallsStart(s, a) && (s.timer.None? || a.TimerFires?)
    ensures CountsRetry(s, a, Next(s, a))
  {
  }

  lemma RetryByTask(s: State, r: ConnectResult)
    requires Enabled(s, RunTask(r)) && !CallsStart(s, RunTask(r)) && (s.timer.Some? ==> s.link.Disconnected?)
    ensures CountsRetry(s, RunTask(r), Next(s, RunTask(r)))
  {
  }

  lemma RetryByHandler(s: State, a: Step)
    requires Enabled(s, a) && (a.HandleError? || a.HandleWrite?) && (s.timer.Some? ==> s.link.Disconnected?)
    ensures CountsRetry(s, a, Next(s, a))
  {
  }

  lemma RetryByNone(s: State, a: Step)
    requires Enabled(s, a) && !CallsStart(s, a) && !a.RunTask? && !a.HandleError? && !a.HandleWrite?
    ensures CountsRetry(s, a, Next(s, a))
  {
  }

  lemma RetriesOnlyUntimed(s: State, a: Step)
    requires QueueInv(s) && Enabled(s, a)
    ensures s.timer.Some? ==> s.link.Disconnected?
    ensures CallsStart(s, a) ==> s.timer.None? || a.TimerFires?
  {
    if a.RunTask? && s.batch[0].StartTask? {
      HeadStart(s);
      PopLine(s);
      CountPop(Line(s));
    }
  }

  /** In every run the delays listed are those of these retries, one each; the k-th is given by
      RetryDelays. */
  lemma {:induction false} DelaysAreRetries(states: seq<State>, steps: seq<Step>, i: nat)
    requires IsRun(states, steps) && i < |states|
    ensures |states[i].delays| == Retries(states, steps, i)
  {
    hide Next, Enabled, QueueInv, Schedules;
    if i > 0 {
      DelaysAreRetries(states, steps, i - 1);
      QueueAlways(states, steps, i - 1);
      RetryStep(states[i - 1], steps[i - 1]);
    }
  }
}
