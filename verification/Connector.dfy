/** net/Connector.cc: one connection attempt after another, over the loop's rounds.

    Each round of the loop handles events and timers and then runs the functors queued so far. How long
    handlers and functors take is not known, so a retry timer may fire whenever timers are handled. */
module ConnectorMachine {
  import opened Common

  datatype Link = Disconnected | Connecting | Connected

  datatype Task = StartTask | StopTask | ResetTask

  datatype Phase = Handling | Functors

  /** What Channel::handleEvent has still to call back, in this order; it does not look again at a
      channel removed since poll returned. */
  datatype Callbacks = Callbacks(error: bool, write: bool)

  const NoCallbacks: Callbacks := Callbacks(false, false)

  /** The three groups connect(2)'s errno falls into. */
  datatype ConnectResult = InProgress | Retryable | Fatal

  const INIT_RETRY_DELAY_MS: nat := 500
  const MAX_RETRY_DELAY_MS: nat := 30000

  datatype State = State(
    link: Link,                 // state_
    connect: bool,              // connect_
    channel: Option<nat>,       // channel_, by its descriptor
    delay: nat,                 // retryDelayMs_
    phase: Phase,
    due: Callbacks,
    round: nat,
    batch: seq<Task>,           // functors of this round still to run
    pending: seq<Task>,         // pendingFunctors_
    timer: Option<nat>,         // an outstanding retry timer, with its ClearRound (history)
    created: nat,                // descriptors 0, 1, ... created so far
    handed: seq<nat>,           // history: descriptors given to newConnectionCallback_
    closed: seq<nat>,           // history: descriptors closed here
    delays: seq<nat>)           // history: retry delays since the last restart

  datatype Step =
    | Start(result: ConnectResult)          // start() in the loop thread
    | CrossStart                            // start() in another thread
    | Stop
    | Restart(result: ConnectResult)
    | PollReturns(error: bool, writable: bool)
    | HandleError
    | HandleWrite(error: bool, selfConnect: bool)
    | TimerFires(result: ConnectResult)
    | Swap
    | RunTask(result: ConnectResult)
    | EndRound

  const Init: State :=
    State(Disconnected, false, None, INIT_RETRY_DELAY_MS, Handling, NoCallbacks, 0, [], [], None, 0, [], [], [])

  function Min(a: nat, b: nat): nat { if a < b then a else b }

  // ----- Handlers -----

  function Queue(s: State, t: Task): State { s.(pending := s.pending + [t]) }

  predicate Queued(s: State, t: Task) { t in s.batch || t in s.pending }

  /** The round whose functors run a queued reset. */
  function ResetRound(s: State): nat {
    if ResetTask in s.batch || s.phase.Handling? then s.round else s.round + 1
  }

  /** The first round whose handlers come after the reset that is queued now, if any. */
  function ClearRound(s: State): nat { if Queued(s, ResetTask) then ResetRound(s) + 1 else 0 }

  function Retry(s: State, fd: nat): State {
    var t := s.(link := Disconnected, closed := s.closed + [fd]);
    if !s.connect then t
    else t.(timer := Some(ClearRound(s)),
            delays := s.delays + [s.delay],
            delay := Min(s.delay * 2, MAX_RETRY_DELAY_MS))
  }

  /** The channel stays until its queued reset. */
  function RemoveAndResetChannel(s: State): State { Queue(s, ResetTask) }

  /** connect() on a fresh descriptor; connecting() asserts that there is no channel. */
  function DoConnect(s: State, r: ConnectResult): State {
    var fd := s.created;
    var t := s.(created := s.created + 1);
    match r
    case InProgress => t.(link := Connecting, channel := Some(fd))
    case Retryable => Retry(t, fd)
    case Fatal => t.(closed := t.closed + [fd])
  }

  /** Asserts that the link is down. */
  function StartInLoop(s: State, r: ConnectResult): State { if s.connect then DoConnect(s, r) else s }

  function StopInLoop(s: State): State
    requires s.link.Connecting? ==> s.channel.Some?
  {
    if s.link.Connecting? then Retry(RemoveAndResetChannel(s.(link := Disconnected)), s.channel.value) else s
  }

  /** Asserts that the link is down if it is not connecting. */
  function DoHandleWrite(s: State, error: bool, selfConnect: bool): State
    requires s.link.Connecting? ==> s.channel.Some?
  {
    if !s.link.Connecting? then s
    else
      var t, fd := RemoveAndResetChannel(s), s.channel.value;
      if error || selfConnect then Retry(t, fd)
      else if s.connect then t.(link := Connected, handed := t.handed + [fd])
      else t.(link := Connected, closed := t.closed + [fd])
  }

  function DoHandleError(s: State): State
    requires s.link.Connecting? ==> s.channel.Some?
  {
    if s.link.Connecting? then Retry(RemoveAndResetChannel(s), s.channel.value) else s
  }

  // ----- Steps -----

  /** No attempt, queued start or retry under way: when start() may be called. */
  predicate Quiet(s: State) { s.link.Disconnected? && s.timer.None? && !Queued(s, StartTask) }

  /** The retry timer may fire: the timerfd is a channel of its own, handled like any other. */
  predicate MayFire(s: State) { s.phase.Handling? && s.due == NoCallbacks && s.timer.Some? }

  /** connecting() asserts that there is no channel. */
  predicate AssertHolds(s: State, r: ConnectResult) { r.InProgress? ==> s.channel.None? }

  predicate Enabled(s: State, a: Step) {
    match a
    case Start(r) => Quiet(s) && AssertHolds(s, r)
    case CrossStart => Quiet(s)
    case Stop => true
    case Restart(r) => s.link.Connected? && AssertHolds(s, r)
    // the channel is registered while connecting; POLLERR and POLLOUT may be reported together
    case PollReturns(_, _) => s.phase.Handling? && s.due == NoCallbacks && s.link.Connecting?
    case HandleError => s.due.error && (s.link.Connecting? ==> s.channel.Some?)
    case HandleWrite(_, _) => s.due == Callbacks(false, true) && (s.link.Connecting? ==> s.channel.Some?)
    case TimerFires(r) => MayFire(s) && (s.connect ==> AssertHolds(s, r))
    case Swap => s.phase.Handling? && s.due == NoCallbacks
    case RunTask(_) => s.phase.Functors? && s.batch != [] && (s.link.Connecting? ==> s.channel.Some?)
    case EndRound => s.phase.Functors? && s.batch == []
  }

  function DoRunTask(s: State, r: ConnectResult): State
    requires s.batch != [] && (s.link.Connecting? ==> s.channel.Some?)
  {
    var t := s.(batch := s.batch[1..]);
    match s.batch[0]
    case StartTask => StartInLoop(t, r)
    case StopTask => StopInLoop(t)
    case ResetTask => t.(channel := None)
  }

  function Next(s: State, a: Step): State
    requires Enabled(s, a)
  {
    match a
    case Start(r) => StartInLoop(s.(connect := true), r)
    case CrossStart => Queue(s.(connect := true), StartTask)
    case Stop => Queue(s.(connect := false), StopTask)
    case Restart(r) =>
      StartInLoop(s.(link := Disconnected, delay := INIT_RETRY_DELAY_MS, delays := [], connect := true), r)
    case PollReturns(error, writable) => s.(due := Callbacks(error, writable))
    case HandleError => DoHandleError(s.(due := s.due.(error := false)))
    case HandleWrite(error, selfConnect) => DoHandleWrite(s.(due := NoCallbacks), error, selfConnect)
    case TimerFires(r) => StartInLoop(s.(timer := None), r)
    case Swap => s.(phase := Functors, batch := s.pending, pending := [])
    case RunTask(r) => DoRunTask(s, r)
    case EndRound => s.(phase := Handling, round := s.round + 1)
  }

  ghost predicate IsRun(states: seq<State>, steps: seq<Step>) {
    && |states| == |steps| + 1 && states[0] == Init
    && forall i | 0 <= i < |steps| :: Enabled(states[i], steps[i]) && states[i + 1] == Next(states[i], steps[i])
  }

  // ----- Channel and queue -----

  /** All queued functors in the order they will run. */
  function Line(s: State): seq<Task> { s.batch + s.pending }

  function Count(line: seq<Task>, t: Task): nat { multiset(line)[t] }

  lemma CountAppend(line: seq<Task>, t: Task)
    ensures forall x :: Count(line + [t], x) == Count(line, x) + (if x == t then 1 else 0)
  {
  }

  lemma CountPop(line: seq<Task>)
    requires line != []
    ensures forall x :: Count(line[1..], x) == Count(line, x) - (if x == line[0] then 1 else 0)
  {
    assert line == [line[0]] + line[1..];
  }

  /** A reset never waits behind a start. */
  predicate ResetsFirst(line: seq<Task>) {
    forall i, j | 0 <= i < j < |line| :: !(line[i].StartTask? && line[j].ResetTask?)
  }

  /** The first round whose handlers are still to come. */
  function NextHandling(s: State): nat { if s.phase.Handling? then s.round else s.round + 1 }

  ghost predicate QueueInv(s: State) {
    && (s.phase.Handling? ==> s.batch == [])
    // channel_ is set while connecting, and then until its one queued reset has run
    && Count(Line(s), ResetTask) == (if s.channel.Some? && !s.link.Connecting? then 1 else 0)
    && (s.link.Connecting? ==> s.channel.Some?)
    && ResetsFirst(Line(s))
    && Count(Line(s), StartTask) <= 1
    && (Count(Line(s), StartTask) == 1 ==> s.link.Disconnected? && s.timer.None?)
    && (s.timer.Some? ==> s.link.Disconnected?)
    && (s.timer.Some? && Count(Line(s), ResetTask) == 1 ==> s.timer.value == ResetRound(s) + 1)
    && (s.timer.Some? && Count(Line(s), ResetTask) == 0 ==> s.timer.value <= NextHandling(s))
    // a callback still to come finds the channel it was meant for, connecting or just given up
    && (s.due != NoCallbacks ==> s.phase.Handling? && s.channel.Some? && !s.link.Connected?)
  }

  lemma QueuedIsCounted(s: State, t: Task)
    ensures Queued(s, t) <==> Count(Line(s), t) > 0
  {
  }

  lemma QueueKeeps(s: State, t: Task)
    requires QueueInv(s) && t != ResetTask
    requires t == StartTask ==> s.link.Disconnected? && s.timer.None? && Count(Line(s), StartTask) == 0
    ensures QueueInv(Queue(s, t))
  {
    assert Line(Queue(s, t)) == Line(s) + [t];
    CountAppend(Line(s), t);
  }

  /** The state in which startInLoop may run. */
  ghost predicate Startable(s: State, r: ConnectResult) {
    && QueueInv(s) && s.link.Disconnected? && s.timer.None? && Count(Line(s), StartTask) == 0
    && (s.connect ==> AssertHolds(s, r))
  }

  lemma StartKeeps(s: State, r: ConnectResult)
    requires Startable(s, r)
    ensures QueueInv(StartInLoop(s, r))
  {
    assert Line(StartInLoop(s, r)) == Line(s);
    QueuedIsCounted(s, ResetTask);
  }

  /** Leaving kConnecting queues the one reset. */
  lemma DetachKeeps(s: State, t: State)
    requires QueueInv(s) && s.link.Connecting?
    requires t == s.(pending := s.pending + [ResetTask], link := t.link, timer := t.timer, delay := t.delay,
                     due := t.due, delays := t.delays, handed := t.handed, closed := t.closed)
    requires !t.link.Connecting?
    requires t.due != NoCallbacks ==> s.due != NoCallbacks && !t.link.Connected?
    requires t.timer.Some? ==>
               t.link.Disconnected? && t.timer.value == if s.phase.Handling? then s.round + 1 else s.round + 2
    ensures QueueInv(t)
  {
    assert Line(t) == Line(s) + [ResetTask];
    CountAppend(Line(s), ResetTask);
    assert StartTask !in Line(s) by { assert Count(Line(s), StartTask) == 0; }
    assert ResetTask !in Line(s) by { assert Count(Line(s), ResetTask) == 0; }
    assert ResetTask !in s.batch;
    assert ResetsFirst(Line(t)) by {
      forall i, j | 0 <= i < j < |Line(t)| ensures !(Line(t)[i].StartTask? && Line(t)[j].ResetTask?) {
        assert Line(t)[i] in Line(s);
      }
    }
  }

  lemma PopLine(s: State)
    requires s.batch != []
    ensures var t := s.(batch := s.batch[1..]); Line(s)[0] == s.batch[0] && Line(t) == Line(s)[1..]
  {
  }

  lemma NoResetAfterStart(line: seq<Task>)
    requires ResetsFirst(line) && line != [] && line[0].StartTask?
    ensures Count(line[1..], ResetTask) == 0
  {
    assert forall j | 0 <= j < |line[1..]| :: line[1..][j] == line[j + 1];
    assert ResetTask !in line[1..];
  }

  lemma RunTaskKeeps(s: State, r: ConnectResult)
    requires QueueInv(s) && Enabled(s, RunTask(r))
    ensures QueueInv(DoRunTask(s, r))
    ensures s.batch[0].StartTask? ==> s.channel.None? && s.link.Disconnected?
  {
    var t := s.(batch := s.batch[1..]);
    PopLine(s);
    CountPop(Line(s));
    assert ResetsFirst(Line(t));
    match s.batch[0]
    case StartTask =>
      NoResetAfterStart(Line(s));
      StartKeeps(t, r);
    case ResetTask => ResetKeeps(s, t);
    case StopTask =>
      PopKeeps(s, t);
      if s.link.Connecting? {
        AddedReset(t);
        DetachKeeps(t, StopInLoop(t));
      }
  }

  lemma ResetKeeps(s: State, t: State)
    requires QueueInv(s) && s.phase.Functors? && s.batch != [] && s.batch[0].ResetTask?
    requires t == s.(batch := s.batch[1..])
    requires Line(t) == Line(s)[1..] && ResetsFirst(Line(t))
    requires forall x :: Count(Line(t), x) == Count(Line(s), x) - (if x == ResetTask then 1 else 0)
    ensures QueueInv(t.(channel := None))
  {
    assert Line(t.(channel := None)) == Line(t);
    assert ResetTask in s.batch;
    assert Count(Line(s), ResetTask) == 1;
  }

  /** The retry that follows a detached channel. */
  lemma AddedReset(s: State)
    requires QueueInv(s) && s.link.Connecting?
    ensures ClearRound(RemoveAndResetChannel(s)) == if s.phase.Handling? then s.round + 1 else s.round + 2
  {
    QueuedIsCounted(s, ResetTask);
    assert (s.pending + [ResetTask])[|s.pending|] == ResetTask;
  }

  lemma PopKeeps(s: State, t: State)
    requires QueueInv(s) && s.batch != [] && s.batch[0].StopTask? && t == s.(batch := s.batch[1..])
    requires Line(t) == Line(s)[1..] && ResetsFirst(Line(t))
    requires forall x :: Count(Line(t), x) == Count(Line(s), x) - (if x == StopTask then 1 else 0)
    ensures QueueInv(t)
  {
    assert ResetTask in t.batch <==> ResetTask in s.batch by {
      assert s.batch == [StopTask] + t.batch;
    }
  }

  lemma CallbackKeeps(s: State, a: Step)
    requires QueueInv(s) && Enabled(s, a) && (a.HandleError? || a.HandleWrite?)
    ensures QueueInv(Next(s, a))
  {
    if s.link.Connecting? {
      AddedReset(s);
      DetachKeeps(s, Next(s, a));
    } else {
      assert Line(Next(s, a)) == Line(s);
    }
  }

  lemma RoundKeeps(s: State, a: Step)
    requires QueueInv(s) && Enabled(s, a) && (a.Swap? || a.EndRound?)
    ensures QueueInv(Next(s, a))
  {
    assert Line(Next(s, a)) == Line(s);
  }

  lemma QueueNext(s: State, a: Step)
    requires QueueInv(s) && Enabled(s, a)
    ensures QueueInv(Next(s, a))
  {
    QueuedIsCounted(s, StartTask);
    QueuedIsCounted(s, ResetTask);
    match a
    case Start(r) => StartKeeps(s.(connect := true), r);
    case CrossStart => QueueKeeps(s.(connect := true), StartTask);
    case Stop => QueueKeeps(s.(connect := false), StopTask);
    case Restart(r) =>
      StartKeeps(s.(link := Disconnected, delay := INIT_RETRY_DELAY_MS, delays := [], connect := true), r);
    case PollReturns(_, _) => assert Line(Next(s, a)) == Line(s);
    case HandleError => CallbackKeeps(s, a);
    case HandleWrite(_, _) => CallbackKeeps(s, a);
    case TimerFires(r) => StartKeeps(s.(timer := None), r);
    case Swap => RoundKeeps(s, a);
    case RunTask(r) => RunTaskKeeps(s, r);
    case EndRound => RoundKeeps(s, a);
  }

  lemma {:induction false} QueueAlways(states: seq<State>, steps: seq<Step>, i: nat)
    requires IsRun(states, steps) && i < |states|
    ensures QueueInv(states[i])
  {
    if i > 0 {
      QueueAlways(states, steps, i - 1);
      QueueNext(states[i - 1], steps[i - 1]);
    }
  }

  // ----- connecting()'s assert -----

  /** The step is about to run startInLoop. */
  predicate CallsStart(s: State, a: Step) {
    match a
    case Start(_) => Quiet(s)
    case Restart(_) => s.link.Connected?
    case TimerFires(_) => MayFire(s)
    case RunTask(_) => s.phase.Functors? && s.batch != [] && s.batch[0].StartTask?
    case _ => false
  }

  /** startInLoop's own assert holds wherever it runs (restart() has just set the link down), and a start
      queued by another thread always finds the reset done. */
  lemma StartFindsLinkDown(states: seq<State>, steps: seq<Step>, i: nat, a: Step)
    requires IsRun(states, steps) && i < |states| && CallsStart(states[i], a)
    ensures states[i].link.Disconnected? || a.Restart?
    ensures a.RunTask? ==> states[i].channel.None?
  {
    QueueAlways(states, steps, i);
    if a.RunTask? {
      HeadStart(states[i]);
    }
  }

  lemma HeadStart(s: State)
    requires QueueInv(s) && s.phase.Functors? && s.batch != [] && s.batch[0].StartTask?
    ensures s.link.Disconnected? && s.channel.None?
  {
    PopLine(s);
    CountPop(Line(s));
    NoResetAfterStart(Line(s));
  }

  /** In the loop thread nothing makes start() wait for the last channel's reset: when it may be called,
      the assert of connecting() holds exactly if no reset is queued... */
  lemma StartNeedsReset(states: seq<State>, steps: seq<Step>, i: nat)
    requires IsRun(states, steps) && i < |states| && Quiet(states[i])
    ensures states[i].channel.None? <==> !Queued(states[i], ResetTask)
  {
    QueueAlways(states, steps, i);
    QueuedIsCounted(states[i], ResetTask);
  }

  /** ...and so for restart()... */
  lemma RestartNeedsReset(states: seq<State>, steps: seq<Step>, i: nat)
    requires IsRun(states, steps) && i < |states| && states[i].link.Connected?
    ensures states[i].channel.None? <==> !Queued(states[i], ResetTask)
  {
    QueueAlways(states, steps, i);
    QueuedIsCounted(states[i], ResetTask);
  }

  /** ...and for the retry timer. In rounds: the timer finds no channel exactly if it fires after the
      functors of the round it was set in by a handler, or of the round after it was set by a functor,
      for those run the reset queued just before it. */
  lemma TimerNeedsReset(states: seq<State>, steps: seq<Step>, i: nat)
    requires IsRun(states, steps) && i < |states| && MayFire(states[i])
    ensures states[i].channel.None? <==> !Queued(states[i], ResetTask)
    ensures states[i].channel.None? <==> states[i].timer.value <= states[i].round
  {
    QueueAlways(states, steps, i);
    QueuedIsCounted(states[i], ResetTask);
  }

  /** What timer.value says: set with the channel just given up, it is the next round for a handler and
      the one after for a functor; set by connect() itself, where no reset is queued, it is no bound. */
  lemma TimerSetInStep(states: seq<State>, steps: seq<Step>, i: nat)
    requires IsRun(states, steps) && i < |steps| && states[i + 1].timer.Some? && states[i + 1].timer != states[i].timer
    ensures states[i + 1].timer.value == ClearRound(states[i + 1])
    ensures states[i].link.Connecting? ==>
              states[i + 1].timer.value
              == if states[i].phase.Handling? then states[i].round + 1 else states[i].round + 2
  {
    QueueAlways(states, steps, i);
    TimerSet(states[i], steps[i]);
  }

  lemma TimerSet(s: State, a: Step)
    requires QueueInv(s) && Enabled(s, a) && Next(s, a).timer.Some? && Next(s, a).timer != s.timer
    ensures Next(s, a).timer.value == ClearRound(Next(s, a))
    ensures s.link.Connecting? ==> Next(s, a).timer.value == if s.phase.Handling? then s.round + 1 else s.round + 2
  {
    RetriesFromQueue(s, a);
    hide ClearRound, Next;
    if s.link.Connecting? {
      if a.RunTask? {
        StopTaskKeeps(s);
        AddedReset(s.(batch := s.batch[1..]));
      } else {
        AddedReset(s);
      }
    }
  }

  /** A timer is set by retry(), after any reset was queued. */
  lemma RetriesFromQueue(s: State, a: Step)
    requires Enabled(s, a) && Next(s, a).timer.Some? && Next(s, a).timer != s.timer
    requires s.link.Connecting? ==> QueueInv(s)
    ensures Next(s, a).timer.value == ClearRound(Next(s, a))
    ensures s.link.Connecting? ==> a.HandleError? || a.HandleWrite? || (a.RunTask? && s.batch[0].StopTask?)
    ensures s.link.Connecting? && !a.RunTask? ==> ClearRound(Next(s, a)) == ClearRound(RemoveAndResetChannel(s))
    ensures s.link.Connecting? && a.RunTask? ==>
              ClearRound(Next(s, a)) == ClearRound(RemoveAndResetChannel(s.(batch := s.batch[1..])))
  {
    if s.link.Connecting? && a.RunTask? && !s.batch[0].StopTask? {
      NoQueuedStart(s);
    }
    hide QueueInv;
  }

  lemma NoQueuedStart(s: State)
    requires QueueInv(s) && s.link.Connecting?
    ensures StartTask !in s.batch && ResetTask !in s.batch
  {
    QueuedIsCounted(s, StartTask);
    QueuedIsCounted(s, ResetTask);
  }

  lemma StopTaskKeeps(s: State)
    requires QueueInv(s) && s.batch != [] && s.batch[0].StopTask?
    ensures QueueInv(s.(batch := s.batch[1..]))
  {
    PopLine(s);
    CountPop(Line(s));
    PopKeeps(s, s.(batch := s.batch[1..]));
  }

  /** If start() and restart() are called with no reset queued, and the retry timer outlasts the functors
      named above, connecting() never meets a channel: the queued reset of the last one has run. */
  lemma ConnectFindsNoChannel(states: seq<State>, steps: seq<Step>, i: nat, a: Step)
    requires IsRun(states, steps) && i < |states| && CallsStart(states[i], a)
    requires a.Start? || a.Restart? ==> !Queued(states[i], ResetTask)
    requires a.TimerFires? ==> states[i].timer.value <= states[i].round
    ensures states[i].channel.None?
  {
    match a
    case Start(_) => StartNeedsReset(states, steps, i);
    case Restart(_) => RestartNeedsReset(states, steps, i);
    case TimerFires(_) => TimerNeedsReset(states, steps, i);
    case RunTask(_) => StartFindsLinkDown(states, steps, i, a);
  }

  /** All three fail. An attempt that fails after stop() leaves nothing under way but its channel. */
  lemma QuietWithChannel()
    ensures var s1 := Next(Init, Start(InProgress));
            var s2 := Next(Next(s1, Stop), PollReturns(false, true));
            var s3 := Next(s2, HandleWrite(true, false));
            Quiet(s3) && s3.channel.Some?
  {
  }

  /** A successful attempt keeps its channel until the round's functors run. */
  lemma ConnectedWithChannel()
    ensures var s1 := Next(Init, Start(InProgress));
            var s2 := Next(Next(s1, PollReturns(false, true)), HandleWrite(false, false));
            s2.link.Connected? && s2.channel.Some?
  {
  }

  /** A start() that follows stop() is given up again by the queued stopInLoop, whose reset waits for the
      next round's functors: the retry timer comes first if the rest of this round takes 500 ms. */
  lemma TimerOvertakesReset()
    ensures var s1 := Next(Next(Init, Stop), Start(InProgress));
            var s2 := Next(Next(s1, Swap), RunTask(Fatal));
            var s3 := Next(s2, EndRound);
            && MayFire(s3) && s3.connect && s3.channel.Some? && s3.pending == [ResetTask] && s3.round == 1
            && !Enabled(s3, TimerFires(InProgress))
  {
    var s1 := Next(Next(Init, Stop), Start(InProgress));
    assert s1.pending == [StopTask];
    var s2 := Next(s1, Swap);
    assert s2.batch == [StopTask] && s2.batch[1..] == [] && s2.pending + [ResetTask] == [ResetTask];
  }

  /** Or the other handlers of the round in which an attempt fails take as long. */
  lemma TimerFiresInSameRound()
    ensures var s1 := Next(Init, Start(InProgress));
            var s2 := Next(Next(s1, PollReturns(true, false)), HandleError);
            MayFire(s2) && s2.connect && s2.channel.Some? && s2.round == 0
  {
  }

  /** handleWrite's assert holds: POLLERR reported together with POLLOUT makes handleError give the
      attempt up first, and no other attempt can begin or succeed before handleWrite is called. */
  lemma WriteFindsNoConnection(states: seq<State>, steps: seq<Step>, i: nat)
    requires IsRun(states, steps) && i < |steps| && steps[i].HandleWrite?
    ensures states[i].link.Connecting? || states[i].link.Disconnected?
    ensures states[i].link.Disconnected? ==> states[i + 1] == states[i].(due := NoCallbacks)
  {
    QueueAlways(states, steps, i);
  }

  // ----- Descriptor ownership -----

  /** In how many places a descriptor is: the connecting channel, the callback, closed. */
  function Owners(s: State, fd: nat): nat {
    (if s.link.Connecting? && s.channel == Some(fd) then 1 else 0) + multiset(s.handed)[fd] + multiset(s.closed)[fd]
  }

  ghost predicate OwnershipInv(s: State) {
    && (s.link.Connecting? ==> s.channel.Some?)
    && forall fd: nat :: Owners(s, fd) == if fd < s.created then 1 else 0
  }

  lemma ConnectOwns(s: State, r: ConnectResult)
    requires OwnershipInv(s) && !s.link.Connecting?
    ensures OwnershipInv(DoConnect(s, r))
  {
    var t := DoConnect(s, r);
    assert multiset(s.closed + [s.created]) == multiset(s.closed) + multiset{s.created};
    forall fd: nat ensures Owners(t, fd) == if fd < t.created then 1 else 0 {
      assert Owners(s, fd) == if fd < s.created then 1 else 0;
    }
  }

  /** The connecting channel's descriptor goes to exactly one of the two lists. */
  lemma DetachOwns(s: State, t: State)
    requires OwnershipInv(s) && s.link.Connecting? && !t.link.Connecting? && t.created == s.created
    requires var fd := s.channel.value;
             || (t.closed == s.closed + [fd] && t.handed == s.handed)
             || (t.handed == s.handed + [fd] && t.closed == s.closed)
    ensures OwnershipInv(t)
  {
    var x := s.channel.value;
    assert multiset(s.closed + [x]) == multiset(s.closed) + multiset{x};
    assert multiset(s.handed + [x]) == multiset(s.handed) + multiset{x};
    forall fd: nat ensures Owners(t, fd) == if fd < t.created then 1 else 0 {
      assert Owners(s, fd) == if fd < s.created then 1 else 0;
    }
  }

  lemma SameOwners(s: State, t: State)
    requires OwnershipInv(s) && t.created == s.created && t.closed == s.closed && t.handed == s.handed
    requires t.link.Connecting? == s.link.Connecting?
    requires s.link.Connecting? ==> t.channel == s.channel
    ensures OwnershipInv(t)
  {
    forall fd: nat ensures Owners(t, fd) == if fd < t.created then 1 else 0 {
      assert Owners(s, fd) == if fd < s.created then 1 else 0;
    }
  }

  lemma StartOwns(s: State, t: State, r: ConnectResult)
    requires OwnershipInv(s) && t.created == s.created && t.closed == s.closed && t.handed == s.handed
    requires !s.link.Connecting? && !t.link.Connecting?
    ensures OwnershipInv(StartInLoop(t, r))
  {
    SameOwners(s, t);
    ConnectOwns(t, r);
  }

  lemma OwnershipNext(s: State, a: Step)
    requires OwnershipInv(s) && QueueInv(s) && Enabled(s, a)
    ensures OwnershipInv(Next(s, a))
  {
    var t := Next(s, a);
    hide OwnershipInv, Owners;
    match a
    case Start(r) => StartOwns(s, s.(connect := true), r);
    case Restart(r) =>
      StartOwns(s, s.(link := Disconnected, delay := INIT_RETRY_DELAY_MS, delays := [], connect := true), r);
    case TimerFires(r) => StartOwns(s, s.(timer := None), r);
    case HandleError => if s.link.Connecting? { DetachOwns(s, t); } else { SameOwners(s, t); }
    case HandleWrite(_, _) => if s.link.Connecting? { DetachOwns(s, t); } else { SameOwners(s, t); }
    case RunTask(r) =>
      QueueNext(s, a);
      RunTaskKeeps(s, r);
      RunTaskOwns(s, r);
    case _ => SameOwners(s, t);
  }

  lemma RunTaskOwns(s: State, r: ConnectResult)
    requires OwnershipInv(s) && QueueInv(s) && Enabled(s, RunTask(r))
    requires s.batch[0].StartTask? ==> s.link.Disconnected?
    ensures OwnershipInv(DoRunTask(s, r))
  {
    var u := s.(batch := s.batch[1..]);
    match s.batch[0]
    case StartTask => StartOwns(s, u, r);
    case StopTask =>
      if s.link.Connecting? {
        DetachOwns(s, StopInLoop(u));
      } else {
        SameOwners(s, u);
      }
    case ResetTask =>
      assert !s.link.Connecting? by {
        PopLine(s);
        CountPop(Line(s));
      }
      SameOwners(s, u.(channel := None));
  }

  lemma {:induction false} OwnershipAlways(states: seq<State>, steps: seq<Step>, i: nat)
    requires IsRun(states, steps) && i < |states|
    ensures OwnershipInv(states[i])
  {
    if i > 0 {
      OwnershipAlways(states, steps, i - 1);
      QueueAlways(states, steps, i - 1);
      OwnershipNext(states[i - 1], steps[i - 1]);
    }
  }

  /** Every descriptor the connector ever created is in exactly one place: its connecting channel, the
      hands of the callback, or closed, once. */
  lemma DescriptorsOwned(states: seq<State>, steps: seq<Step>, i: nat, fd: nat)
    requires IsRun(states, steps) && i < |states| && fd < states[i].created
    ensures (if states[i].link.Connecting? && states[i].channel == Some(fd) then 1 else 0)
            + multiset(states[i].handed)[fd] + multiset(states[i].closed)[fd] == 1
  {
    OwnershipAlways(states, steps, i);
    assert Owners(states[i], fd) == 1;
  }

  // ----- Back-off -----

  function Pow2(k: nat): nat { if k == 0 then 1 else 2 * Pow2(k - 1) }

  function Backoff(k: nat): nat { Min(INIT_RETRY_DELAY_MS * Pow2(k), MAX_RETRY_DELAY_MS) }

  ghost predicate BackoffInv(s: State) {
    && s.delay == Backoff(|s.delays|)
    && forall k | 0 <= k < |s.delays| :: s.delays[k] == Backoff(k)
  }

  lemma RetryBackoff(s: State, fd: nat)
    requires BackoffInv(s)
    ensures BackoffInv(Retry(s, fd))
  {
    assert Pow2(|s.delays| + 1) == 2 * Pow2(|s.delays|);
  }

  lemma StartBackoff(s: State, r: ConnectResult)
    requires BackoffInv(s)
    ensures BackoffInv(StartInLoop(s, r))
  {
    RetryBackoff(s.(created := s.created + 1), s.created);
  }

  lemma BackoffNext(s: State, a: Step)
    requires BackoffInv(s) && Enabled(s, a)
    ensures BackoffInv(Next(s, a))
  {
    match a
    case Start(r) => StartBackoff(s.(connect := true), r);
    case Restart(r) =>
      StartBackoff(s.(link := Disconnected, delay := INIT_RETRY_DELAY_MS, delays := [], connect := true), r);
    case TimerFires(r) => StartBackoff(s.(timer := None), r);
    case HandleError =>
      if s.link.Connecting? {
        RetryBackoff(RemoveAndResetChannel(s.(due := s.due.(error := false))), s.channel.value);
      }
    case HandleWrite(_, _) =>
      if s.link.Connecting? {
        RetryBackoff(RemoveAndResetChannel(s.(due := NoCallbacks)), s.channel.value);
      }
    case RunTask(r) =>
      var t := s.(batch := s.batch[1..]);
      StartBackoff(t, r);
      if s.link.Connecting? {
        RetryBackoff(RemoveAndResetChannel(t.(link := Disconnected)), s.channel.value);
      }
    case _ =>
  }

  lemma {:induction false} BackoffAlways(states: seq<State>, steps: seq<Step>, i: nat)
    requires IsRun(states, steps) && i < |states|
    ensures BackoffInv(states[i])
  {
    if i > 0 {
      BackoffAlways(states, steps, i - 1);
      BackoffNext(states[i - 1], steps[i - 1]);
    }
  }

  /** The k-th retry since the connector was made or restarted waits min(500 * 2^k, 30000) ms. */
  lemma RetryDelays(states: seq<State>, steps: seq<Step>, i: nat, k: nat)
    requires IsRun(states, steps) && i < |states| && k < |states[i].delays|
    ensures states[i].delays[k] == Min(500 * Pow2(k), 30000)
  {
    BackoffAlways(states, steps, i);
  }
}

/** The connector in the form the source has. The loop's queue, round and timer are fields too, so that
    each method's whole effect is on the object. */
module Connectors {
  import opened Common
  import opened ConnectorMachine

  class Connector {
    var link: Link
    var connect: bool
    var channel: Option<nat>
    var retryDelayMs: nat
    var pending: seq<Task>
    ghost var timer: Option<nat>
    var created: nat
    var phase: Phase
    var due: Callbacks
    var round: nat
    var batch: seq<Task>
    ghost var handed: seq<nat>
    ghost var closed: seq<nat>
    ghost var delays: seq<nat>

    ghost function View(): State
      reads this
    {
      State(link, connect, channel, retryDelayMs, phase, due, round, batch, pending, timer,
            created, handed, closed, delays)
    }

    ghost predicate Valid()
      reads this
    {
      QueueInv(View()) && OwnershipInv(View()) && BackoffInv(View())
    }

    constructor ()
      ensures Valid() && View() == Init
    {
      link, connect, channel, retryDelayMs := Disconnected, false, None, INIT_RETRY_DELAY_MS;
      pending, timer, created, phase, due, round, batch := [], None, 0, Handling, NoCallbacks, 0, [];
      handed, closed, delays := [], [], [];
    }

    method Retry(fd: nat)
      modifies this
      ensures View() == ConnectorMachine.Retry(old(View()), fd)
    {
      closed := closed + [fd];
      link := Disconnected;
      if connect {
        timer := Some(ClearRound(View()));
        delays := delays + [retryDelayMs];
        retryDelayMs := Min(retryDelayMs * 2, MAX_RETRY_DELAY_MS);
      }
    }

    method RemoveAndResetChannel() returns (fd: nat)
      requires channel.Some?
      modifies this
      ensures View() == ConnectorMachine.RemoveAndResetChannel(old(View())) && Some(fd) == channel
    {
      fd := channel.value;
      pending := pending + [ResetTask];
    }

    method Connecting(fd: nat)
      requires channel.None?
      modifies `link, `channel
      ensures link == Link.Connecting && channel == Some(fd)
    {
      link := Link.Connecting;
      assert channel.None?;
      channel := Some(fd);
    }

    method Connect(result: ConnectResult)
      requires AssertHolds(View(), result)
      modifies this
      ensures View() == DoConnect(old(View()), result)
    {
      var fd := created;
      created := created + 1;
      match result
      case InProgress => Connecting(fd);
      case Retryable => Retry(fd);
      case Fatal => closed := closed + [fd];
    }

    method StartInLoop(result: ConnectResult)
      requires link.Disconnected? && (connect ==> AssertHolds(View(), result))
      modifies this
      ensures View() == ConnectorMachine.StartInLoop(old(View()), result)
    {
      if connect {
        Connect(result);
      }
    }

    method Start(result: ConnectResult)
      requires Valid() && Enabled(View(), Step.Start(result))
      modifies this
      ensures Valid() && View() == Next(old(View()), Step.Start(result))
    {
      KeepsAll(View(), Step.Start(result));
      hide QueueInv, OwnershipInv, BackoffInv;
      connect := true;
      StartInLoop(result);
    }

    method Restart(result: ConnectResult)
      requires Valid() && Enabled(View(), Step.Restart(result))
      modifies this
      ensures Valid() && View() == Next(old(View()), Step.Restart(result))
    {
      KeepsAll(View(), Step.Restart(result));
      hide QueueInv, OwnershipInv, BackoffInv;
      link := Disconnected;
      retryDelayMs, delays := INIT_RETRY_DELAY_MS, [];
      connect := true;
      StartInLoop(result);
    }

    /** startInLoop, called back by the retry timer. */
    method TimerFires(result: ConnectResult)
      requires Valid() && Enabled(View(), Step.TimerFires(result))
      modifies this
      ensures Valid() && View() == Next(old(View()), Step.TimerFires(result))
    {
      KeepsAll(View(), Step.TimerFires(result));
      TimerMeansDown(View());
      hide QueueInv, OwnershipInv, BackoffInv;
      timer := None;
      StartInLoop(result);
    }

    method Stop()
      requires Valid()
      modifies this
      ensures Valid() && View() == Next(old(View()), Step.Stop)
    {
      hide QueueInv, OwnershipInv, BackoffInv;
      KeepsAll(View(), Step.Stop);
      connect := false;
      pending := pending + [StopTask];
    }

    method StopInLoop()
      requires link.Connecting? ==> channel.Some?
      modifies this
      ensures View() == ConnectorMachine.StopInLoop(old(View()))
    {
      if link.Connecting? {
        link := Disconnected;
        var fd := RemoveAndResetChannel();
        Retry(fd);
      }
    }

    /** Poll found events for the connecting channel. */
    method PollReturns(error: bool, writable: bool)
      requires Valid() && Enabled(View(), Step.PollReturns(error, writable))
      modifies `due
      ensures Valid() && View() == Next(old(View()), Step.PollReturns(error, writable))
    {
      hide QueueInv, OwnershipInv, BackoffInv;
      KeepsAll(View(), Step.PollReturns(error, writable));
      due := Callbacks(error, writable);
    }

    method HandleWrite(error: bool, selfConnect: bool)
      requires Valid() && Enabled(View(), Step.HandleWrite(error, selfConnect))
      modifies this
      ensures Valid() && View() == Next(old(View()), Step.HandleWrite(error, selfConnect))
    {
      hide QueueInv, OwnershipInv, BackoffInv;
      KeepsAll(View(), Step.HandleWrite(error, selfConnect));
      DueFindsNoConnection(View());
      due := NoCallbacks;
      if link.Connecting? {
        var fd := RemoveAndResetChannel();
        if error {
          Retry(fd);
        } else if selfConnect {
          Retry(fd);
        } else {
          link := Connected;
          if connect {
            handed := handed + [fd];
          } else {
            closed := closed + [fd];
          }
        }
      } else {
        assert link.Disconnected?;
      }
    }

    method HandleError()
      requires Valid() && Enabled(View(), Step.HandleError)
      modifies this
      ensures Valid() && View() == Next(old(View()), Step.HandleError)
    {
      hide QueueInv, OwnershipInv, BackoffInv;
      KeepsAll(View(), Step.HandleError);
      due := due.(error := false);
      if link.Connecting? {
        var fd := RemoveAndResetChannel();
        Retry(fd);
      }
    }

    /** The loop runs the connector's next queued functor. */
    method RunTask(result: ConnectResult)
      requires Valid() && Enabled(View(), Step.RunTask(result))
      modifies this
      ensures Valid() && View() == Next(old(View()), Step.RunTask(result))
    {
      hide QueueInv, OwnershipInv, BackoffInv;
      KeepsAll(View(), Step.RunTask(result));
      RunTaskKeeps(View(), result);
      var task := batch[0];
      batch := batch[1..];
      match task
      case StartTask => StartInLoop(result);
      case StopTask => StopInLoop();
      case ResetTask => channel := None;
    }
  }

  lemma TimerMeansDown(s: State)
    requires QueueInv(s) && s.timer.Some?
    ensures s.link.Disconnected?
  {
  }

  lemma DueFindsNoConnection(s: State)
    requires QueueInv(s) && s.due != NoCallbacks
    ensures !s.link.Connected?
  {
  }

  lemma KeepsAll(s: State, a: Step)
    requires QueueInv(s) && OwnershipInv(s) && BackoffInv(s) && Enabled(s, a)
    ensures QueueInv(Next(s, a)) && OwnershipInv(Next(s, a)) && BackoffInv(Next(s, a))
  {
    QueueNext(s, a);
    OwnershipNext(s, a);
    BackoffNext(s, a);
  }
}
