/** The state of a connection told by the steps of its run: what came in, what went out, what was queued
    and what was announced (net/TcpConnection.cc). */
module TcpHistories {
  import opened Common
  import opened Buffers
  import opened TcpMachine
  import opened HalfClose

  // ----- Inbound -----

  /** Every byte that read(2) delivered. */
  function Arrived(steps: seq<Step>): Bytes {
    if steps == [] then []
    else
      var a := steps[|steps| - 1];
      Arrived(steps[..|steps| - 1]) + (if a.HandleRead? && a.count > 0 then a.bytes else [])
  }

  /** How many bytes the user has retrieved. */
  function Retrieved(steps: seq<Step>): nat {
    if steps == [] then 0
    else
      var a := steps[|steps| - 1];
      Retrieved(steps[..|steps| - 1]) + (if a.Consume? then a.length else 0)
  }

  lemma InputStep(s: State, a: Step)
    requires Enabled(s, a)
    ensures var t := Next(s, a);
            && t.consumed + t.input == s.consumed + s.input + (if a.HandleRead? && a.count > 0 then a.bytes else [])
            && |t.consumed| == |s.consumed| + (if a.Consume? then a.length else 0)
  {
    if a.HandleRead? {
      ReadInput(s, a.count, a.bytes);
    } else if a.Consume? {
      ConsumeInput(s, a.length);
    } else {
      SameInput(s, a);
      assert s.consumed + s.input + [] == s.consumed + s.input;
    }
    hide Next, Enabled;
  }

  lemma ReadInput(s: State, n: int, bytes: Bytes)
    requires Enabled(s, HandleRead(n, bytes))
    ensures var t := Next(s, HandleRead(n, bytes));
            && t.consumed + t.input == s.consumed + s.input + (if n > 0 then bytes else [])
            && t.consumed == s.consumed
  {
    Associative(s.consumed, s.input, bytes);
    assert s.consumed + s.input + [] == s.consumed + s.input;
  }

  lemma ConsumeInput(s: State, n: nat)
    requires Enabled(s, Consume(n))
    ensures var t := Next(s, Consume(n));
            t.consumed + t.input == s.consumed + s.input + [] && |t.consumed| == |s.consumed| + n
  {
    Associative(s.consumed, s.input[..n], s.input[n..]);
    assert s.input == s.input[..n] + s.input[n..];
  }

  lemma SameInput(s: State, a: Step)
    requires Enabled(s, a) && !a.HandleRead? && !a.Consume?
    ensures Next(s, a).consumed == s.consumed && Next(s, a).input == s.input
  {
    hide SendInLoop, DoRunTask, DoHandleWrite, ShutdownInLoop;
    match a
    case Send(message, r) => SendCases(s, message, r);
    case RunTask(r) => TaskKeepsInput(s, r);
    case Shutdown => ShutdownKeepsInput(s.(link := Disconnecting));
    case HandleWrite(r) => WriteKeepsInput(Called(s, NoCallbacks), r);
    case _ =>
  }

  lemma ShutdownKeepsInput(s: State)
    ensures ShutdownInLoop(s).consumed == s.consumed && ShutdownInLoop(s).input == s.input
  {
  }

  lemma TaskKeepsInput(s: State, r: WriteResult)
    requires Enabled(s, RunTask(r))
    ensures DoRunTask(s, r).consumed == s.consumed && DoRunTask(s, r).input == s.input
  {
    hide SendInLoop;
    if s.tasks[0].SendTask? {
      SendCases(s.(tasks := s.tasks[1..]), s.tasks[0].message, r);
    }
  }

  lemma WriteKeepsInput(s: State, r: WriteResult)
    requires r.count <= |s.output|
    ensures DoHandleWrite(s, r).consumed == s.consumed && DoHandleWrite(s, r).input == s.input
  {
  }

  /** In every run the bytes the user has retrieved, followed by the input buffer, are all the bytes
      read(2) delivered, in order; and the user has retrieved as many as it asked for. */
  lemma {:induction false} InboundStream(states: seq<State>, steps: seq<Step>, i: nat)
    requires IsRun(states, steps) && i < |states|
    ensures states[i].consumed + states[i].input == Arrived(steps[..i])
    ensures |states[i].consumed| == Retrieved(steps[..i])
  {
    if i > 0 {
      InboundStream(states, steps, i - 1);
      assert steps[..i][..i - 1] == steps[..i - 1];
      InputStep(states[i - 1], steps[i - 1]);
      hide Next, Enabled;
    }
  }

  // ----- Dispatch -----

  datatype Kind = OnClose | OnRead | OnWrite

  predicate IsKind(a: Step, kind: Kind) {
    match kind
    case OnClose => a.HandleHangup?
    case OnRead => a.HandleRead?
    case OnWrite => a.HandleWrite?
  }

  /** How often a callback is made from step i on, before step j. */
  function Calls(steps: seq<Step>, i: nat, j: nat, kind: Kind): nat
    requires i <= j <= |steps|
  {
    if i == j then 0 else Calls(steps, i, j - 1, kind) + Bit(IsKind(steps[j - 1], kind))
  }

  predicate IsCallback(a: Step) { a.HandleHangup? || a.HandleRead? || a.HandleWrite? }

  lemma SameDue(s: State, a: Step)
    requires Enabled(s, a) && !a.PollReturns? && !IsCallback(a)
    ensures Next(s, a).due == s.due && Next(s, a).handling == s.handling
  {
    hide SendInLoop;
    match a
    case Send(message, r) => SendEffect(s, message, r);
    case RunTask(r) =>
      if s.tasks[0].SendTask? {
        SendEffect(s.(tasks := s.tasks[1..]), s.tasks[0].message, r);
      }
    case _ =>
  }

  lemma CallbackDue(s: State, a: Step)
    requires Enabled(s, a) && IsCallback(a)
    ensures a.HandleHangup? ==> s.due.close && Next(s, a).due == s.due.(close := false)
    ensures a.HandleRead? ==> !s.due.close && s.due.read && Next(s, a).due == s.due.(read := false)
    ensures a.HandleWrite? ==> s.due == Callbacks(false, false, true) && Next(s, a).due == NoCallbacks
    ensures Next(s, a).handling <==> Next(s, a).due != NoCallbacks
  {
    hide DoHandleWrite;
    if a.HandleWrite? {
      HandleWriteEffect(Called(s, NoCallbacks), a.result);
    }
  }

  lemma DueStep(s: State, a: Step)
    requires Enabled(s, a) && !a.PollReturns?
    ensures var t := Next(s, a);
            && Bit(s.due.close) == Bit(t.due.close) + Bit(a.HandleHangup?)
            && Bit(s.due.read) == Bit(t.due.read) + Bit(a.HandleRead?)
            && Bit(s.due.write) == Bit(t.due.write) + Bit(a.HandleWrite?)
    ensures Next(s, a).handling == if IsCallback(a) then Next(s, a).due != NoCallbacks else s.handling
  {
    hide Next, Enabled;
    if IsCallback(a) {
      CallbackDue(s, a);
    } else {
      SameDue(s, a);
    }
  }

  /** In every run, since poll reported `v`: the callbacks made and those still due are together the close
      callback exactly for POLLHUP without POLLIN, the read callback exactly for POLLIN or POLLPRI, and the
      write callback exactly for POLLOUT, once each. */
  lemma {:induction false} CallbacksOncePerReport(states: seq<State>, steps: seq<Step>, p: nat, j: nat)
    requires IsRun(states, steps) && p < j < |states| && steps[p].PollReturns?
    requires forall k | p < k < j :: !steps[k].PollReturns?
    ensures var v, due := steps[p].revents, states[j].due;
            && Calls(steps, p + 1, j, OnClose) + Bit(due.close) == Bit(v.hangup && !v.readable)
            && Calls(steps, p + 1, j, OnRead) + Bit(due.read) == Bit(v.readable || v.urgent)
            && Calls(steps, p + 1, j, OnWrite) + Bit(due.write) == Bit(v.writable)
    ensures j < |steps| && steps[j].RunTask? ==> states[j].due == NoCallbacks
    decreases j
  {
    hide Next, Enabled;
    if j > p + 1 {
      CallbacksOncePerReport(states, steps, p, j - 1);
      DueStep(states[j - 1], steps[j - 1]);
    } else {
      ReportStep(states[p], steps[p]);
    }
    if j < |steps| && steps[j].RunTask? {
      RunsHead(states[j], steps[j]);
    }
  }

  lemma ReportStep(s: State, a: Step)
    requires Enabled(s, a) && a.PollReturns?
    ensures var v, due := a.revents, Next(s, a).due;
            && (due.close <==> v.hangup && !v.readable)
            && (due.read <==> v.readable || v.urgent)
            && (due.write <==> v.writable)
  {
  }

  /** In every run the dispatch is under way exactly between the first and the last of its callbacks. */
  lemma {:induction false} HandlingExactly(states: seq<State>, steps: seq<Step>, p: nat, j: nat)
    requires IsRun(states, steps) && p < j < |states| && steps[p].PollReturns?
    requires forall k | p < k < j :: !steps[k].PollReturns?
    ensures states[j].handling <==> states[j].due != NoCallbacks && exists k :: p < k < j && IsCallback(steps[k])
    decreases j
  {
    hide Next, Enabled, IsCallback, InterestInv;
    if j > p + 1 {
      HandlingExactly(states, steps, p, j - 1);
      DueStep(states[j - 1], steps[j - 1]);
      StaysEmpty(states[j - 1], steps[j - 1]);
    } else {
      HandlingMeansDue(states, steps, p);
      PollStep(states[p], steps[p]);
    }
  }

  lemma StaysEmpty(s: State, a: Step)
    requires Enabled(s, a) && !a.PollReturns?
    ensures IsCallback(a) ==> s.due != NoCallbacks
    ensures !IsCallback(a) ==> Next(s, a).due == s.due
  {
    if !IsCallback(a) {
      SameDue(s, a);
    }
  }

  lemma PollStep(s: State, a: Step)
    requires Enabled(s, a) && a.PollReturns?
    ensures s.due == NoCallbacks && Next(s, a).handling == s.handling
  {
  }

  lemma {:induction false} HandlingMeansDue(states: seq<State>, steps: seq<Step>, p: nat)
    requires IsRun(states, steps) && p < |states|
    ensures states[p].handling ==> states[p].due != NoCallbacks
  {
    hide Next, Enabled;
    if p > 0 {
      HandlingMeansDue(states, steps, p - 1);
      if steps[p - 1].PollReturns? {
        PollStep(states[p - 1], steps[p - 1]);
      } else {
        DueStep(states[p - 1], steps[p - 1]);
        StaysEmpty(states[p - 1], steps[p - 1]);
      }
    }
  }

  // ----- Outbound -----

  /** The bytes write(2) took in a step. It is called by handleWrite while the channel watches for
      writability, and by sendInLoop when nothing is waiting to be written. */
  function WriteCount(s: State, a: Step): nat
    requires Enabled(s, a)
  {
    match a
    case Send(_, r) => if s.link.Connected? && !s.writing && s.output == [] && r.count > 0 then r.count else 0
    case RunTask(r) =>
      if s.tasks[0].SendTask? && !s.link.Disconnected? && !s.writing && s.output == [] && r.count > 0 then r.count
      else 0
    case HandleWrite(r) => if s.writing && r.count > 0 then r.count else 0
    case _ => 0
  }

  ghost function Handed(states: seq<State>, steps: seq<Step>, i: nat): nat
    requires IsRun(states, steps) && i <= |steps|
  {
    if i == 0 then 0 else Handed(states, steps, i - 1) + WriteCount(states[i - 1], steps[i - 1])
  }

  lemma WireShut(calls: seq<Call>)
    ensures Wire(calls + [ShutdownWrite]) == Wire(calls)
  {
    WireAppend(calls, ShutdownWrite);
  }

  lemma SendHands(s: State, message: Bytes, r: WriteResult)
    requires r.count <= |message|
    ensures |Wire(SendInLoop(s, message, r).calls)| == |Wire(s.calls)|
              + (if !s.link.Disconnected? && !s.writing && s.output == [] && r.count > 0 then r.count else 0)
  {
    hide Wire, SendInLoop;
    SendCases(s, message, r);
    if r.count > 0 {
      WireAppend(s.calls, Write(message[..r.count]));
    }
  }

  lemma WriteHands(s: State, r: WriteResult)
    requires r.count <= |s.output|
    ensures |Wire(DoHandleWrite(s, r).calls)| == |Wire(s.calls)| + (if s.writing && r.count > 0 then r.count else 0)
  {
    hide Wire, DoHandleWrite;
    HandleWriteEffect(s, r);
    if r.count > 0 {
      WireAppend(s.calls, Write(s.output[..r.count]));
      WireShut(s.calls + [Write(s.output[..r.count])]);
    }
  }

  lemma TaskHands(s: State, r: WriteResult)
    requires Enabled(s, RunTask(r))
    ensures |Wire(Next(s, RunTask(r)).calls)| == |Wire(s.calls)| + WriteCount(s, RunTask(r))
  {
    hide Wire, SendInLoop;
    match s.tasks[0]
    case SendTask(message) => SendHands(s.(tasks := s.tasks[1..]), message, r);
    case ShutdownTask => WireShut(s.calls);
    case ForceCloseTask =>
  }

  lemma HandStep(s: State, a: Step)
    requires Enabled(s, a)
    ensures |Wire(Next(s, a).calls)| == |Wire(s.calls)| + WriteCount(s, a)
  {
    hide Wire, SendInLoop, DoHandleWrite, DoRunTask;
    match a
    case Send(message, r) => SendHands(s, message, r);
    case RunTask(r) => TaskHands(s, r);
    case HandleWrite(r) => WriteHands(Called(s, NoCallbacks), r);
    case Shutdown => WireShut(s.calls);
    case CrossSend(_) => QueueingEffect(s, a);
    case CrossShutdown => QueueingEffect(s, a);
    case ForceClose => QueueingEffect(s, a);
    case _ => IdleEffect(s, a);
  }

  lemma {:induction false} HandedAlways(states: seq<State>, steps: seq<Step>, i: nat)
    requires IsRun(states, steps) && i < |states|
    ensures |Wire(states[i].calls)| == Handed(states, steps, i)
  {
    hide Next, Enabled, Wire, WriteCount;
    if i > 0 {
      HandedAlways(states, steps, i - 1);
      HandStep(states[i - 1], steps[i - 1]);
    } else {
      NothingOnWire();
    }
  }

  lemma NothingOnWire()
    ensures Wire([]) == []
  {
  }

  /** In every run the wire holds exactly as many of the accepted bytes as write(2) took, from the first
      on, and the output buffer the others. */
  lemma WireIsWhatWasTaken(states: seq<State>, steps: seq<Step>, i: nat)
    requires IsRun(states, steps) && i < |states|
    ensures Handed(states, steps, i) <= |Accepted(states[i].log)|
    ensures Wire(states[i].calls) == Accepted(states[i].log)[..Handed(states, steps, i)]
    ensures states[i].output == Accepted(states[i].log)[Handed(states, steps, i)..]
  {
    StreamConservation(states, steps, i);
    HandedAlways(states, steps, i);
  }

  /** The messages that reached sendInLoop, in order. */
  ghost function Arrivals(states: seq<State>, steps: seq<Step>, i: nat): seq<Bytes>
    requires IsRun(states, steps) && i <= |steps|
  {
    if i == 0 then []
    else
      var s, a := states[i - 1], steps[i - 1];
      Arrivals(states, steps, i - 1) +
      match a
      case Send(message, _) => if s.link.Connected? then [message] else []
      case RunTask(_) => if s.tasks[0].SendTask? then [s.tasks[0].message] else []
      case _ => []
  }

  /** In every run the log lists those messages, and no others. */
  lemma {:induction false} LogIsArrivals(states: seq<State>, steps: seq<Step>, i: nat)
    requires IsRun(states, steps) && i < |states|
    ensures |states[i].log| == |Arrivals(states, steps, i)|
    ensures forall k | 0 <= k < |states[i].log| :: states[i].log[k].message == Arrivals(states, steps, i)[k]
  {
    if i > 0 {
      LogIsArrivals(states, steps, i - 1);
      LogStep(states[i - 1], steps[i - 1]);
      hide Next, GivesUp;
    }
  }

  // ----- The queue -----

  /** The functors the connection has queued in its loop, in order. */
  ghost function Submitted(states: seq<State>, steps: seq<Step>, i: nat): seq<Task>
    requires IsRun(states, steps) && i <= |steps|
  {
    if i == 0 then [] else Submitted(states, steps, i - 1) + Queued(states[i - 1], steps[i - 1])
  }

  /** How many of them have run. */
  function Ran(steps: seq<Step>, i: nat): nat
    requires i <= |steps|
  {
    if i == 0 then 0 else Ran(steps, i - 1) + Bit(steps[i - 1].RunTask?)
  }

  lemma TaskStep(s: State, a: Step)
    requires Enabled(s, a)
    ensures a.RunTask? ==> s.tasks != [] && Next(s, a).tasks == s.tasks[1..]
    ensures !a.RunTask? ==> Next(s, a).tasks == s.tasks + Queued(s, a)
  {
    hide SendInLoop, DoHandleWrite;
    match a
    case Send(message, r) => SendEffect(s, message, r);
    case RunTask(r) =>
      if s.tasks[0].SendTask? {
        SendEffect(s.(tasks := s.tasks[1..]), s.tasks[0].message, r);
      }
    case HandleWrite(r) => HandleWriteEffect(Called(s, NoCallbacks), r);
    case _ =>
  }

  /** In every run functors run in the order they were queued, each once. */
  lemma {:induction false} TasksInOrder(states: seq<State>, steps: seq<Step>, i: nat)
    requires IsRun(states, steps) && i < |states|
    ensures Ran(steps, i) <= |Submitted(states, steps, i)|
    ensures states[i].tasks == Submitted(states, steps, i)[Ran(steps, i)..]
  {
    if i > 0 {
      TasksInOrder(states, steps, i - 1);
      TaskStep(states[i - 1], steps[i - 1]);
      hide Next, Enabled;
    }
  }

  lemma {:induction false} SubmittedGrows(states: seq<State>, steps: seq<Step>, i: nat, j: nat)
    requires IsRun(states, steps) && i <= j <= |steps|
    ensures Submitted(states, steps, i) <= Submitted(states, steps, j)
    decreases j
  {
    if i < j {
      SubmittedGrows(states, steps, i, j - 1);
    }
  }

  // ----- Closing -----

  lemma ForceCloseTaskCloses(s: State, r: WriteResult)
    requires Enabled(s, RunTask(r)) && s.tasks[0].ForceCloseTask? && !s.link.Connecting?
    ensures Next(s, RunTask(r)).link.Disconnected?
  {
  }

  lemma DownStaysDown(s: State, a: Step)
    requires Enabled(s, a) && s.link.Disconnected?
    ensures Next(s, a).link.Disconnected?
  {
    hide SendInLoop, DoHandleWrite;
    match a
    case RunTask(r) => TaskEffect(s, r);
    case HandleWrite(r) => HandleWriteEffect(Called(s, NoCallbacks), r);
    case _ =>
  }

  /** In every run a forced close takes hold as soon as the functors queued until then have run. */
  lemma {:induction false} ForcedCloseTakesHold(states: seq<State>, steps: seq<Step>, i: nat, j: nat)
    requires IsRun(states, steps) && i < j < |states| && steps[i].ForceClose? && IsUp(states[i])
    requires Ran(steps, j) >= |Submitted(states, steps, i + 1)|
    ensures states[j].link.Disconnected?
    decreases j
  {
    hide Next, Enabled, InterestInv, Submitted, Queued;
    ForceCloseIsLast(states, steps, i);
    if j > i + 1 && Ran(steps, j - 1) >= |Submitted(states, steps, i + 1)| {
      ForcedCloseTakesHold(states, steps, i, j - 1);
      DownStaysDown(states[j - 1], steps[j - 1]);
    } else {
      var s := states[j - 1];
      ReachedInQueue(states, steps, i, j);
      InterestAlways(states, steps, j - 1);
      QueuedMeansBegun(s);
      ForceCloseTaskCloses(s, steps[j - 1].result);
    }
  }

  lemma ForceCloseIsLast(states: seq<State>, steps: seq<Step>, i: nat)
    requires IsRun(states, steps) && i < |steps| && steps[i].ForceClose? && IsUp(states[i])
    ensures var all := Submitted(states, steps, i + 1); all != [] && all[|all| - 1] == ForceCloseTask
    ensures Ran(steps, i + 1) < |Submitted(states, steps, i + 1)|
  {
    hide Next, Enabled;
    TasksInOrder(states, steps, i);
  }

  /** The step that brings the count up to the forced close runs it. */
  lemma ReachedInQueue(states: seq<State>, steps: seq<Step>, i: nat, j: nat)
    requires IsRun(states, steps) && i < j < |states| && steps[i].ForceClose? && IsUp(states[i])
    requires Ran(steps, j) >= |Submitted(states, steps, i + 1)|
    requires j > i + 1 ==> Ran(steps, j - 1) < |Submitted(states, steps, i + 1)|
    ensures steps[j - 1].RunTask? && states[j - 1].tasks != [] && states[j - 1].tasks[0].ForceCloseTask?
  {
    hide Next, Enabled, Submitted, Queued;
    ForceCloseIsLast(states, steps, i);
    assert j > i + 1;
    TasksInOrder(states, steps, j - 1);
    SubmittedGrows(states, steps, i + 1, j - 1);
    RunsHead(states[j - 1], steps[j - 1]);
  }

  lemma QueuedMeansBegun(s: State)
    requires InterestInv(s) && s.tasks != []
    ensures !s.link.Connecting?
  {
  }

  lemma RunsHead(s: State, a: Step)
    requires Enabled(s, a) && a.RunTask?
    ensures s.due == NoCallbacks && s.tasks != []
  {
  }

  /** Delayed forced closes that have not fired. */
  ghost function Delayed(states: seq<State>, steps: seq<Step>, i: nat): int
    requires IsRun(states, steps) && i <= |steps|
  {
    if i == 0 then 0
    else
      var s, a := states[i - 1], steps[i - 1];
      Delayed(states, steps, i - 1) + Bit(a.ForceCloseWithDelay? && IsUp(s)) - Bit(a.TimerFires?)
  }

  lemma DelayStep(s: State, a: Step)
    requires Enabled(s, a)
    ensures Next(s, a).timers == s.timers + Bit(a.ForceCloseWithDelay? && IsUp(s)) - Bit(a.TimerFires?)
  {
    hide SendInLoop, DoHandleWrite;
    match a
    case Send(message, r) => SendEffect(s, message, r);
    case RunTask(r) =>
      if s.tasks[0].SendTask? {
        SendEffect(s.(tasks := s.tasks[1..]), s.tasks[0].message, r);
      }
    case HandleWrite(r) => HandleWriteEffect(Called(s, NoCallbacks), r);
    case _ =>
  }

  lemma {:induction false} DelayedCloses(states: seq<State>, steps: seq<Step>, i: nat)
    requires IsRun(states, steps) && i < |states|
    ensures states[i].timers == Delayed(states, steps, i)
    ensures states[i].timers > 0 ==> !states[i].link.Connecting?
    ensures i > 0 && steps[i - 1].TimerFires? ==> states[i].link.Disconnected?
  {
    if i > 0 {
      DelayedCloses(states, steps, i - 1);
      DelayStep(states[i - 1], steps[i - 1]);
      LinkStep(states[i - 1], steps[i - 1]);
      hide Next, Enabled;
    }
  }

  /** How a step changes the state of the connection. */
  lemma LinkStep(s: State, a: Step)
    requires Enabled(s, a)
    ensures var t := Next(s, a);
            match a
            case Establish => t.link.Connected?
            case Shutdown => t.link == if s.link.Connected? then Disconnecting else s.link
            case CrossShutdown => t.link == if s.link.Connected? then Disconnecting else s.link
            case ForceClose => t.link == if IsUp(s) then Disconnecting else s.link
            case ForceCloseWithDelay => t.link == if IsUp(s) then Disconnecting else s.link
            case TimerFires => t.link == if IsUp(s) then Disconnected else s.link
            case RunTask(_) => t.link == if s.tasks[0].ForceCloseTask? && IsUp(s) then Disconnected else s.link
            case HandleHangup => t.link.Disconnected?
            case HandleRead(n, _) => t.link == if n == 0 then Disconnected else s.link
            case Destroy => t.link.Disconnected?
            case _ => t.link == s.link
  {
    hide SendInLoop, DoHandleWrite;
    match a
    case Send(message, r) => SendEffect(s, message, r);
    case RunTask(r) =>
      if s.tasks[0].SendTask? {
        SendEffect(s.(tasks := s.tasks[1..]), s.tasks[0].message, r);
      }
    case HandleWrite(r) => HandleWriteEffect(Called(s, NoCallbacks), r);
    case _ =>
  }

  // ----- Notices -----

  /** handleWrite queues the write-complete callback exactly when it empties the output buffer. */
  lemma WriteNotices(s: State, r: WriteResult)
    requires InterestInv(s) && !s.link.Connecting? && r.count <= |s.output|
    ensures var t := DoHandleWrite(s, r);
            t.notices == s.notices + (if s.writing && t.output == [] then [WriteComplete] else [])
  {
    assert s.notices + [] == s.notices;
  }

  /** In every run: a message that reaches sendInLoop queues callbacks as SendNotices says, handleWrite
      queues write-complete exactly when it empties the buffer, and no other step queues any. */
  lemma NoticesExactly(states: seq<State>, steps: seq<Step>, i: nat)
    requires IsRun(states, steps) && i < |steps|
    ensures steps[i].HandleWrite? ==>
              states[i + 1].notices
              == states[i].notices + (if states[i].output != [] && states[i + 1].output == [] && states[i].writing
                                      then [WriteComplete] else [])
    ensures Arriving(states[i], steps[i]).None? && !steps[i].HandleWrite? ==> states[i + 1].notices == states[i].notices
  {
    InterestAlways(states, steps, i);
    NoticeStep(states[i], steps[i]);
    hide Next, Enabled;
  }

  lemma NoticeStep(s: State, a: Step)
    requires InterestInv(s) && Enabled(s, a)
    ensures a.HandleWrite? ==>
              Next(s, a).notices
              == s.notices + (if s.output != [] && Next(s, a).output == [] && s.writing then [WriteComplete] else [])
    ensures Arriving(s, a).None? && !a.HandleWrite? ==> Next(s, a).notices == s.notices
  {
    hide SendInLoop, DoHandleWrite;
    if a.HandleWrite? {
      WriteNotices(Called(s, NoCallbacks), a.result);
    }
  }
}
