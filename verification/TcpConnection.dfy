/** net/TcpConnection.cc as a step machine over the loop thread's handlers, calls from other
    threads, and an environment that may write short, fail or close at any time.

    Both buffers are byte FIFOs, as Buffers.Buffer is proved to be. */
module TcpMachine {
  import opened Common
  import opened Buffers

  datatype Link = Disconnected | Connecting | Connected | Disconnecting

  /** Functors the connection has queued in its loop. */
  datatype Task = SendTask(message: Bytes) | ShutdownTask | ForceCloseTask

  datatype Errno = EWouldBlock | EPipe | EConnReset | OtherErrno

  /** What write(2) returned. errno means something only if count <= 0, and may then be stale. */
  datatype WriteResult = WriteResult(count: int, errno: Errno)

  /** History: calls on the socket that took effect. */
  datatype Call = Write(bytes: Bytes) | ShutdownWrite

  /** History: each message that reached sendInLoop, and whether it was accepted. */
  datatype Sent = Sent(message: Bytes, accepted: bool)

  /** History: user callbacks queued. */
  datatype Notice = WriteComplete | HighWaterMark(size: nat)

  /** What poll reported for the channel: POLLIN, POLLPRI, POLLOUT, POLLHUP. POLLERR only logs. */
  datatype Revents = Revents(readable: bool, urgent: bool, writable: bool, hangup: bool)

  /** The callbacks Channel::handleEvent has still to make, in this order. */
  datatype Callbacks = Callbacks(close: bool, read: bool, write: bool)

  const NoCallbacks: Callbacks := Callbacks(false, false, false)

  /** They are settled by the report: handleEvent does not look at the interest again. */
  function Reported(r: Revents): Callbacks {
    Callbacks(r.hangup && !r.readable, r.readable || r.urgent, r.writable)
  }

  datatype State = State(
    link: Link,               // state_
    reading: bool,            // channel_ interest
    writing: bool,
    output: Bytes,            // readable bytes of outputBuffer_
    input: Bytes,             // readable bytes of inputBuffer_
    mark: nat,                // highWaterMark_
    tasks: seq<Task>,
    timers: nat,              // forceCloseWithDelay timers not yet fired
    removed: bool,            // connectDestroyed has run
    due: Callbacks,           // reported by poll, not called back yet
    handling: bool,           // inside handleEvent, between two callbacks
    calls: seq<Call>,
    log: seq<Sent>,
    notices: seq<Notice>,
    received: Bytes,          // every byte readFd delivered
    consumed: Bytes)          // every byte the user retrieved

  datatype Step =
    | Establish
    | Send(message: Bytes, result: WriteResult)
    | CrossSend(message: Bytes)
    | RunTask(result: WriteResult)
    | Shutdown
    | CrossShutdown
    | ForceClose
    | ForceCloseWithDelay
    | TimerFires
    | PollReturns(revents: Revents)
    | HandleHangup
    | HandleRead(count: int, bytes: Bytes)
    | HandleWrite(result: WriteResult)
    | Consume(length: nat)
    | Destroy

  function Init(mark: nat): State {
    State(Connecting, false, false, [], [], mark, [], 0, false, NoCallbacks, false, [], [], [], [], [])
  }

  // ----- Handlers -----

  predicate WritesDirectly(s: State) { !s.writing && s.output == [] }

  /** EPIPE or ECONNRESET on the direct write: the message is given up. */
  predicate FaultError(s: State, r: WriteResult) {
    WritesDirectly(s) && r.count <= 0 && (r.errno == EPipe || r.errno == EConnReset)
  }

  function SendInLoop(s: State, message: Bytes, r: WriteResult): State
    requires r.count <= |message|
  {
    if s.link.Disconnected? then s.(log := s.log + [Sent(message, false)])
    else
      var wrote := if WritesDirectly(s) && r.count > 0 then r.count else 0;
      var remaining := message[wrote..];
      var fault := FaultError(s, r);
      var buffered := !fault && remaining != [];
      var crosses := buffered && |s.output| < s.mark <= |s.output| + |remaining|;
      s.(output := if buffered then s.output + remaining else s.output,
         writing := s.writing || buffered,
         calls := if wrote > 0 then s.calls + [Write(message[..wrote])] else s.calls,
         log := s.log + [Sent(message, !fault)],
         notices := if wrote > 0 && remaining == [] then s.notices + [WriteComplete]
                    else if crosses then s.notices + [HighWaterMark(|s.output| + |remaining|)]
                    else s.notices)
  }

  function ShutdownInLoop(s: State): State {
    if s.writing then s else s.(calls := s.calls + [ShutdownWrite])
  }

  function DoHandleWrite(s: State, r: WriteResult): State
    requires r.count <= |s.output|
  {
    if !s.writing || r.count <= 0 then s
    else
      var t := s.(output := s.output[r.count..], calls := s.calls + [Write(s.output[..r.count])]);
      if t.output != [] then t
      else
        var u := t.(writing := false, notices := t.notices + [WriteComplete]);
        if u.link.Disconnecting? then ShutdownInLoop(u) else u
  }

  predicate IsUp(s: State) { s.link.Connected? || s.link.Disconnecting? }

  /** It asserts IsUp(s). */
  function HandleClose(s: State): State { s.(link := Disconnected, reading := false, writing := false) }

  function ForceCloseInLoop(s: State): State {
    if IsUp(s) then HandleClose(s) else s
  }

  /** handleEvent goes on, with these callbacks still to make. */
  function Called(s: State, rest: Callbacks): State { s.(due := rest, handling := rest != NoCallbacks) }

  function DoHandleRead(s: State, n: int, bytes: Bytes): State {
    if n > 0 then s.(input := s.input + bytes, received := s.received + bytes)
    else if n == 0 then HandleClose(s)
    else s
  }

  function DoRunTask(s: State, r: WriteResult): State
    requires s.tasks != [] && (s.tasks[0].SendTask? ==> r.count <= |s.tasks[0].message|)
  {
    var t := s.(tasks := s.tasks[1..]);
    match s.tasks[0]
    case SendTask(message) => SendInLoop(t, message, r)
    case ShutdownTask => ShutdownInLoop(t)
    case ForceCloseTask => ForceCloseInLoop(t)
  }

  predicate Enabled(s: State, a: Step) {
    match a
    case Establish => s.link.Connecting? && !s.removed
    case Send(message, r) => r.count <= |message|
    // functors run after every active channel was handled
    case RunTask(r) =>
      s.due == NoCallbacks && s.tasks != [] && (s.tasks[0].SendTask? ==> r.count <= |s.tasks[0].message|)
    // the timerfd is a channel of its own: before, between or after, but not inside this one's dispatch
    case TimerFires => s.timers > 0 && !s.handling
    case PollReturns(v) =>
      && s.due == NoCallbacks && (s.reading || s.writing)
      && (v.readable || v.urgent ==> s.reading) && (v.writable ==> s.writing)
    case HandleHangup => s.due.close
    case HandleRead(n, bytes) => !s.due.close && s.due.read && (n > 0 ==> |bytes| == n)
    case HandleWrite(r) => s.due == Callbacks(false, false, true) && r.count <= |s.output|
    case Consume(n) => n <= |s.input|
    // Channel::remove asserts that no event is left enabled, EventLoop::removeChannel that the channel
    // is not waiting for its dispatch, the poller that it is registered
    case Destroy => !s.removed && (s.link.Connected? || s.link.Disconnected?) && (s.due == NoCallbacks || s.handling)
    case _ => true
  }

  function Next(s: State, a: Step): State
    requires Enabled(s, a)
  {
    match a
    case Establish => s.(link := Connected, reading := true)
    case Send(message, r) => if s.link.Connected? then SendInLoop(s, message, r) else s
    case CrossSend(message) => if s.link.Connected? then s.(tasks := s.tasks + [SendTask(message)]) else s
    case RunTask(r) => DoRunTask(s, r)
    case Shutdown => if s.link.Connected? then ShutdownInLoop(s.(link := Disconnecting)) else s
    case CrossShutdown =>
      if s.link.Connected? then s.(link := Disconnecting, tasks := s.tasks + [ShutdownTask]) else s
    case ForceClose =>
      if IsUp(s) then s.(link := Disconnecting, tasks := s.tasks + [ForceCloseTask]) else s
    case ForceCloseWithDelay =>
      if IsUp(s) then s.(link := Disconnecting, timers := s.timers + 1) else s
    case TimerFires => ForceCloseInLoop(s.(timers := s.timers - 1))
    case PollReturns(v) => s.(due := Reported(v))
    case HandleHangup => HandleClose(Called(s, s.due.(close := false)))
    case HandleRead(n, bytes) => DoHandleRead(Called(s, s.due.(read := false)), n, bytes)
    case HandleWrite(r) => DoHandleWrite(Called(s, NoCallbacks), r)
    case Consume(n) => s.(input := s.input[n..], consumed := s.consumed + s.input[..n])
    case Destroy =>
      s.(link := if s.link.Connected? then Disconnected else s.link,
         reading := false, writing := false, removed := true)
  }

  ghost predicate IsRun(states: seq<State>, steps: seq<Step>) {
    && |states| == |steps| + 1 && states[0] == Init(states[0].mark)
    && forall i | 0 <= i < |steps| :: Enabled(states[i], steps[i]) && states[i + 1] == Next(states[i], steps[i])
  }

  // ----- Histories -----

  /** The bytes handed to the kernel, in order. */
  function Wire(calls: seq<Call>): Bytes {
    if calls == [] then []
    else
      var c := calls[|calls| - 1];
      Wire(calls[..|calls| - 1]) + (if c.Write? then c.bytes else [])
  }

  /** The accepted messages, end to end. */
  function Accepted(log: seq<Sent>): Bytes {
    if log == [] then []
    else
      var m := log[|log| - 1];
      Accepted(log[..|log| - 1]) + (if m.accepted then m.message else [])
  }

  lemma WireAppend(calls: seq<Call>, c: Call)
    ensures Wire(calls + [c]) == Wire(calls) + (if c.Write? then c.bytes else [])
  {
    assert (calls + [c])[..|calls|] == calls;
  }

  lemma AcceptedAppend(log: seq<Sent>, m: Sent)
    ensures Accepted(log + [m]) == Accepted(log) + (if m.accepted then m.message else [])
  {
    assert (log + [m])[..|log|] == log;
  }

  // ----- Byte-stream conservation -----

  ghost predicate Conserved(s: State) {
    Wire(s.calls) + s.output == Accepted(s.log) && s.consumed + s.input == s.received
  }

  /** sendInLoop in its three cases. */
  lemma SendCases(s: State, message: Bytes, r: WriteResult)
    requires r.count <= |message|
    ensures var t := SendInLoop(s, message, r);
            && t.consumed == s.consumed && t.input == s.input && t.received == s.received
            && t.link == s.link && t.due == s.due
            && if s.link.Disconnected? || FaultError(s, r) then
                 t.log == s.log + [Sent(message, false)] && t.calls == s.calls && t.output == s.output
               else if WritesDirectly(s) && r.count > 0 then
                 && t.log == s.log + [Sent(message, true)] && t.output == message[r.count..]
                 && t.calls == s.calls + [Write(message[..r.count])]
               else
                 t.log == s.log + [Sent(message, true)] && t.calls == s.calls && t.output == s.output + message
  {
    assert message[0..] == message;
  }

  lemma SendConserves(s: State, message: Bytes, r: WriteResult)
    requires Conserved(s) && r.count <= |message|
    ensures Conserved(SendInLoop(s, message, r))
  {
    hide Wire, Accepted, SendInLoop, FaultError;
    SendCases(s, message, r);
    var t := SendInLoop(s, message, r);
    var wire := Wire(s.calls);
    if s.link.Disconnected? || FaultError(s, r) {
      AcceptedAppend(s.log, Sent(message, false));
    } else {
      AcceptedAppend(s.log, Sent(message, true));
      if WritesDirectly(s) && r.count > 0 {
        WireAppend(s.calls, Write(message[..r.count]));
        DirectWrite(wire, message, r.count, t.output);
        assert wire + [] == wire;
      } else {
        assert wire + s.output + message == wire + (s.output + message);
      }
    }
  }

  lemma DirectWrite(wire: Bytes, message: Bytes, n: nat, rest: Bytes)
    requires n <= |message| && rest == message[n..]
    ensures wire + message[..n] + rest == wire + message
  {
    assert message == message[..n] + message[n..];
  }

  lemma ShutdownConserves(s: State)
    requires Conserved(s)
    ensures Conserved(ShutdownInLoop(s))
  {
    WireAppend(s.calls, ShutdownWrite);
  }

  lemma HandleWriteConserves(s: State, r: WriteResult)
    requires Conserved(s) && r.count <= |s.output|
    ensures Conserved(DoHandleWrite(s, r))
  {
    hide Conserved;
    if s.writing && r.count > 0 {
      var t := s.(output := s.output[r.count..], calls := s.calls + [Write(s.output[..r.count])]);
      DrainConserves(s, r.count);
      SameStream(t, t.(writing := false, notices := t.notices + [WriteComplete]));
      ShutdownConserves(t.(writing := false, notices := t.notices + [WriteComplete]));
    }
  }

  lemma DrainConserves(s: State, n: nat)
    requires Conserved(s) && n <= |s.output|
    ensures Conserved(s.(output := s.output[n..], calls := s.calls + [Write(s.output[..n])]))
  {
    hide Wire, Accepted;
    WireAppend(s.calls, Write(s.output[..n]));
    DirectWrite(Wire(s.calls), s.output, n, s.output[n..]);
  }

  /** Conservation looks at nothing but the buffers and the histories. */
  lemma SameStream(s: State, t: State)
    requires Conserved(s) && t.calls == s.calls && t.output == s.output && t.log == s.log
    requires t.consumed == s.consumed && t.input == s.input && t.received == s.received
    ensures Conserved(t)
  {
  }

  lemma RunTaskConserves(s: State, r: WriteResult)
    requires Conserved(s) && Enabled(s, RunTask(r))
    ensures Conserved(DoRunTask(s, r))
  {
    hide Conserved, SendInLoop, ShutdownInLoop;
    var t := s.(tasks := s.tasks[1..]);
    SameStream(s, t);
    match s.tasks[0]
    case SendTask(message) => SendConserves(t, message, r);
    case ShutdownTask => ShutdownConserves(t);
    case ForceCloseTask => SameStream(t, ForceCloseInLoop(t));
  }

  lemma ReadConserves(s: State, n: int, bytes: Bytes)
    requires Conserved(s)
    ensures Conserved(DoHandleRead(s, n, bytes))
  {
    hide Wire, Accepted;
    Associative(s.consumed, s.input, bytes);
  }

  lemma ConsumeConserves(s: State, n: nat)
    requires Conserved(s) && n <= |s.input|
    ensures Conserved(s.(input := s.input[n..], consumed := s.consumed + s.input[..n]))
  {
    hide Wire, Accepted;
    Associative(s.consumed, s.input[..n], s.input[n..]);
    assert s.input == s.input[..n] + s.input[n..];
  }

  lemma NextConserves(s: State, a: Step)
    requires Conserved(s) && Enabled(s, a)
    ensures Conserved(Next(s, a))
  {
    hide Conserved, SendInLoop, ShutdownInLoop, DoRunTask, DoHandleWrite, DoHandleRead;
    match a
    case Send(message, r) => SendConserves(s, message, r);
    case RunTask(r) => RunTaskConserves(s, r);
    case Shutdown =>
      SameStream(s, s.(link := Disconnecting));
      ShutdownConserves(s.(link := Disconnecting));
    case HandleRead(n, bytes) =>
      var t := Called(s, s.due.(read := false));
      SameStream(s, t);
      ReadConserves(t, n, bytes);
    case HandleWrite(r) =>
      SameStream(s, Called(s, NoCallbacks));
      HandleWriteConserves(Called(s, NoCallbacks), r);
    case Consume(n) => ConsumeConserves(s, n);
    case _ => OtherStepsConserve(s, a);
  }

  lemma OtherStepsConserve(s: State, a: Step)
    requires Conserved(s) && Enabled(s, a)
    requires !a.Send? && !a.RunTask? && !a.Shutdown? && !a.HandleRead? && !a.HandleWrite? && !a.Consume?
    ensures Conserved(Next(s, a))
  {
    hide Conserved, Next, Enabled;
    OtherStepsKeep(s, a);
    SameStream(s, Next(s, a));
  }

  lemma OtherStepsKeep(s: State, a: Step)
    requires Enabled(s, a)
    requires !a.Send? && !a.RunTask? && !a.Shutdown? && !a.HandleRead? && !a.HandleWrite? && !a.Consume?
    ensures var t := Next(s, a);
            && t.calls == s.calls && t.output == s.output && t.log == s.log
            && t.consumed == s.consumed && t.input == s.input && t.received == s.received
  {
  }

  lemma {:induction false} ConservedAlways(states: seq<State>, steps: seq<Step>, i: nat)
    requires IsRun(states, steps) && i < |states|
    ensures Conserved(states[i])
  {
    if i > 0 {
      ConservedAlways(states, steps, i - 1);
      NextConserves(states[i - 1], steps[i - 1]);
    }
  }

  /** In every run the bytes on the wire, followed by the output buffer, are the accepted messages in
      order: nothing is lost, duplicated or reordered, whatever write(2) returned. Inbound bytes reach
      the user in the same way. */
  lemma StreamConservation(states: seq<State>, steps: seq<Step>, i: nat)
    requires IsRun(states, steps) && i < |states|
    ensures Wire(states[i].calls) + states[i].output == Accepted(states[i].log)
    ensures Wire(states[i].calls) <= Accepted(states[i].log)
    ensures states[i].consumed + states[i].input == states[i].received
  {
    ConservedAlways(states, steps, i);
  }

  /** The message that reaches sendInLoop in a step, with what write(2) would return for it. */
  function Arriving(s: State, a: Step): Option<(Bytes, WriteResult)>
    requires Enabled(s, a)
  {
    match a
    case Send(message, r) => if s.link.Connected? then Some((message, r)) else None
    case RunTask(r) => if s.tasks[0].SendTask? then Some((s.tasks[0].message, r)) else None
    case _ => None
  }

  /** Why sendInLoop gives a message up: a closed connection, or EPIPE or ECONNRESET on its own write. */
  predicate GivesUp(s: State, r: WriteResult) {
    || s.link.Disconnected?
    || (!s.writing && s.output == [] && r.count <= 0 && (r.errno == EPipe || r.errno == EConnReset))
  }

  lemma SendLogs(s: State, message: Bytes, r: WriteResult)
    requires r.count <= |message|
    ensures var t := SendInLoop(s, message, r);
            t.log == s.log + [Sent(message, !GivesUp(s, r))] && (GivesUp(s, r) ==> t == s.(log := t.log))
  {
  }

  lemma LogStep(s: State, a: Step)
    requires Enabled(s, a)
    ensures match Arriving(s, a)
            case None => Next(s, a).log == s.log
            case Some((message, r)) =>
              && Next(s, a).log == s.log + [Sent(message, !GivesUp(s, r))]
              && (GivesUp(s, r) ==> Next(s, a) == s.(log := Next(s, a).log, tasks := Next(s, a).tasks))
  {
    hide SendInLoop, GivesUp;
    match a
    case Send(message, r) => SendLogs(s, message, r);
    case RunTask(r) => TaskLogs(s, r);
    case _ =>
  }

  lemma TaskLogs(s: State, r: WriteResult)
    requires Enabled(s, RunTask(r))
    ensures match s.tasks[0]
            case SendTask(message) =>
              var t := DoRunTask(s, r);
              && t.log == s.log + [Sent(message, !GivesUp(s, r))]
              && (GivesUp(s, r) ==> t == s.(log := t.log, tasks := t.tasks))
            case _ => DoRunTask(s, r).log == s.log
  {
    hide SendInLoop;
    if s.tasks[0].SendTask? {
      SendLogs(s.(tasks := s.tasks[1..]), s.tasks[0].message, r);
    }
  }

  /** Entry k of the log arrived in step j, and was given up only for one of the two reasons; the step
      then touched neither the wire, nor the output buffer, nor the notices, nor the channel. */
  ghost predicate Explained(states: seq<State>, steps: seq<Step>, j: nat, k: nat, entry: Sent)
    requires IsRun(states, steps) && j < |steps|
  {
    var s, t := states[j], states[j + 1];
    && Arriving(s, steps[j]).Some? && Arriving(s, steps[j]).value.0 == entry.message
    && |s.log| == k && t.log == s.log + [entry]
    && (entry.accepted <==> !GivesUp(s, Arriving(s, steps[j]).value.1))
    && (!entry.accepted ==> t == s.(log := t.log, tasks := t.tasks))
  }

  /** In every run each message that reached sendInLoop is accepted, unless it met a closed connection
      or EPIPE or ECONNRESET on its own direct write; then it was dropped whole. */
  lemma {:induction false} DroppedWhole(states: seq<State>, steps: seq<Step>, i: nat, k: nat)
    requires IsRun(states, steps) && i < |states| && k < |states[i].log|
    ensures exists j :: 0 <= j < i && Explained(states, steps, j, k, states[i].log[k])
  {
    assert i > 0;
    hide Next, Enabled, GivesUp;
    LogStep(states[i - 1], steps[i - 1]);
    if k < |states[i - 1].log| {
      DroppedWhole(states, steps, i - 1, k);
      assert states[i - 1].log[k] == states[i].log[k];
    } else {
      assert Explained(states, steps, i - 1, k, states[i].log[k]);
    }
  }

  /** The high-water-mark callback is queued exactly when a send carries the output buffer from below
      the mark to it or beyond, and the write-complete callback exactly when the message went out whole. */
  lemma SendNotices(s: State, message: Bytes, r: WriteResult)
    requires r.count <= |message| && !s.link.Disconnected?
    ensures var t := SendInLoop(s, message, r);
            && (t.notices == s.notices + [HighWaterMark(|t.output|)] <==> |s.output| < s.mark <= |t.output|)
            && (t.notices == s.notices + [WriteComplete] <==>
                  s.output == [] == t.output && t.calls == s.calls + [Write(message)] && message != [])
            && (|t.notices| <= |s.notices| + 1)
  {
    var t := SendInLoop(s, message, r);
    if t.notices == s.notices + [WriteComplete] {
      assert message[..|message|] == message;
    }
    if t.calls == s.calls + [Write(message)] {
      assert t.calls[|s.calls|] == Write(message);
    }
    assert forall n, m :: s.notices + [n] == s.notices + [m] ==> n == m by {
      forall n, m | s.notices + [n] == s.notices + [m] ensures n == m {
        assert (s.notices + [n])[|s.notices|] == n && (s.notices + [m])[|s.notices|] == m;
      }
    }
  }

  // ----- Interest and life cycle -----

  ghost predicate InterestInv(s: State) {
    && (s.reading <==> !s.removed && IsUp(s))
    && (!s.link.Disconnected? && !s.removed ==> (s.writing <==> s.output != []))
    && (s.link.Disconnected? || s.removed ==> !s.writing)
    && (s.link.Connecting? ==> !s.writing && s.tasks == [] && s.calls == [] && s.due == NoCallbacks)
    && (s.removed ==> s.link.Disconnected?)
  }

  lemma SendKeepsInterest(s: State, message: Bytes, r: WriteResult)
    requires InterestInv(s) && r.count <= |message| && !s.link.Connecting?
    ensures InterestInv(SendInLoop(s, message, r))
  {
  }

  lemma HandleWriteKeepsInterest(s: State, r: WriteResult)
    requires InterestInv(s) && r.count <= |s.output| && !s.link.Connecting?
    ensures InterestInv(DoHandleWrite(s, r))
  {
  }

  lemma RunTaskKeepsInterest(s: State, r: WriteResult)
    requires InterestInv(s) && Enabled(s, RunTask(r))
    ensures InterestInv(DoRunTask(s, r))
  {
    hide SendInLoop;
    if s.tasks[0].SendTask? {
      SendKeepsInterest(s.(tasks := s.tasks[1..]), s.tasks[0].message, r);
    }
  }

  lemma InterestNext(s: State, a: Step)
    requires InterestInv(s) && Enabled(s, a)
    ensures InterestInv(Next(s, a))
  {
    hide SendInLoop, DoRunTask, DoHandleWrite;
    match a
    case Send(message, r) => if s.link.Connected? { SendKeepsInterest(s, message, r); }
    case RunTask(r) => RunTaskKeepsInterest(s, r);
    case HandleWrite(r) => HandleWriteKeepsInterest(Called(s, NoCallbacks), r);
    case _ =>
  }

  lemma {:induction false} InterestAlways(states: seq<State>, steps: seq<Step>, i: nat)
    requires IsRun(states, steps) && i < |states|
    ensures InterestInv(states[i])
  {
    if i > 0 {
      InterestAlways(states, steps, i - 1);
      InterestNext(states[i - 1], steps[i - 1]);
    }
  }

  /** While the connection is up, the poller watches for writability exactly when bytes wait to be
      written. */
  lemma WritingMeansBuffered(states: seq<State>, steps: seq<Step>, i: nat)
    requires IsRun(states, steps) && i < |states| && !states[i].link.Disconnected? && !states[i].removed
    ensures states[i].writing <==> states[i].output != []
  {
    InterestAlways(states, steps, i);
  }

  /** connectDestroyed disables the channel only in kConnected: Channel::remove's assert that no event
      is enabled holds exactly when the connection is not in kDisconnecting. */
  lemma DestroyAssertExactly(states: seq<State>, steps: seq<Step>, i: nat)
    requires IsRun(states, steps) && i < |states| && !states[i].removed
    ensures var s := states[i];
            var d := if s.link.Connected? then s.(link := Disconnected, reading := false, writing := false) else s;
            !d.reading && !d.writing <==> !s.link.Disconnecting?
  {
    InterestAlways(states, steps, i);
  }

  /** Such a connection: established, and shut down by its user. */
  lemma DestroyedWhileDisconnecting(mark: nat)
    ensures var s := Next(Next(Init(mark), Establish), Shutdown);
            s.link.Disconnecting? && s.reading && !s.removed && !Enabled(s, Destroy)
  {
  }

  // ----- handleClose's assert -----

  /** Steps outside the channel's own dispatch that take the connection down. */
  predicate ClosesFromOutside(a: Step) { a.TimerFires? || a.Destroy? }

  /** Since poll reported `all` no other report came; `calm`: nothing outside closed meanwhile. */
  ghost predicate DispatchInv(s: State, all: Callbacks, calm: bool) {
    && !s.link.Connecting?
    && (s.due.close ==> all.close && s.due == all)
    && (!calm ==> s.link.Disconnected?)
    && (all.close && !s.due.close ==> s.link.Disconnected?)
    && (calm && (s.due.close || (s.due.read && !all.close)) ==> IsUp(s))
  }

  lemma CallEffect(s: State, a: Step)
    requires Enabled(s, a) && (a.HandleHangup? || a.HandleRead? || a.HandleWrite?)
    ensures Next(s, a).link == s.link || Next(s, a).link.Disconnected?
    ensures a.HandleHangup? ==> Next(s, a).link.Disconnected?
    ensures !Next(s, a).due.close && (Next(s, a).due.read ==> a.HandleHangup?)
    ensures s.due.close <==> a.HandleHangup?
  {
  }

  /** Any other step leaves the report alone, and takes the connection down only from outside. */
  lemma OtherEffect(s: State, a: Step)
    requires Enabled(s, a) && !a.PollReturns? && !a.HandleHangup? && !a.HandleRead? && !a.HandleWrite?
    requires !s.link.Connecting?
    ensures Next(s, a).due == s.due && !Next(s, a).link.Connecting?
    ensures s.link.Disconnected? || ClosesFromOutside(a) ==> Next(s, a).link.Disconnected?
    ensures s.due != NoCallbacks && !ClosesFromOutside(a) && IsUp(s) ==> IsUp(Next(s, a))
  {
    hide SendInLoop, ShutdownInLoop, DoRunTask;
    match a
    case Send(message, r) => SendCases(s, message, r);
    case Shutdown => ShutdownKeepsLink(s.(link := Disconnecting));
    case RunTask(r) => TaskEffect(s, r);
    case _ =>
  }

  lemma ShutdownKeepsLink(s: State)
    ensures ShutdownInLoop(s).link == s.link && ShutdownInLoop(s).due == s.due
  {
  }

  lemma TaskEffect(s: State, r: WriteResult)
    requires Enabled(s, RunTask(r))
    ensures DoRunTask(s, r).due == s.due
    ensures DoRunTask(s, r).link == s.link || DoRunTask(s, r).link.Disconnected?
  {
    hide SendInLoop;
    if s.tasks[0].SendTask? {
      SendCases(s.(tasks := s.tasks[1..]), s.tasks[0].message, r);
    }
  }

  lemma DispatchNext(s: State, a: Step, all: Callbacks, calm: bool)
    requires DispatchInv(s, all, calm) && Enabled(s, a) && !a.PollReturns?
    ensures DispatchInv(Next(s, a), all, calm && !ClosesFromOutside(a))
  {
    hide Next, Enabled;
    if a.HandleHangup? || a.HandleRead? || a.HandleWrite? {
      CallEffect(s, a);
    } else {
      OtherEffect(s, a);
    }
  }

  lemma PollStartsDispatch(s: State, v: Revents)
    requires InterestInv(s) && Enabled(s, PollReturns(v))
    ensures DispatchInv(Next(s, PollReturns(v)), Reported(v), true)
  {
  }

  predicate Calm(steps: seq<Step>, p: nat, i: nat)
    requires i <= |steps|
  {
    forall k | p < k < i :: !ClosesFromOutside(steps[k])
  }

  lemma {:induction false} DispatchAlways(states: seq<State>, steps: seq<Step>, p: nat, i: nat)
    requires IsRun(states, steps) && p < i < |states| && steps[p].PollReturns?
    requires forall k | p < k < i :: !steps[k].PollReturns?
    ensures DispatchInv(states[i], Reported(steps[p].revents), Calm(steps, p, i))
    decreases i
  {
    if i == p + 1 {
      InterestAlways(states, steps, p);
      PollStartsDispatch(states[p], steps[p].revents);
    } else {
      DispatchAlways(states, steps, p, i - 1);
      hide DispatchInv;
      assert Calm(steps, p, i) == (Calm(steps, p, i - 1) && !ClosesFromOutside(steps[i - 1]));
      DispatchNext(states[i - 1], steps[i - 1], Reported(steps[p].revents), Calm(steps, p, i - 1));
    }
  }

  /** handleClose asserts that the connection is up, and Channel::handleEvent does not look again at a
      channel that went down since poll returned. So when the hang-up callback, or a read of 0 bytes,
      calls it, the assert holds exactly if neither a forced close nor a removal came in between, and
      the read does not follow the hang-up callback of the same report. */
  lemma CloseAssertExactly(states: seq<State>, steps: seq<Step>, p: nat, i: nat)
    requires IsRun(states, steps) && p < i < |steps| && steps[p].PollReturns?
    requires forall k | p < k < i :: !steps[k].PollReturns?
    requires steps[i].HandleHangup? || (steps[i].HandleRead? && steps[i].count == 0)
    ensures IsUp(states[i]) <==>
              && (forall k | p < k < i :: !steps[k].TimerFires? && !steps[k].Destroy?)
              && !(steps[i].HandleRead? && steps[p].revents.hangup && !steps[p].revents.readable)
  {
    DispatchAlways(states, steps, p, i);
    assert Calm(steps, p, i) <==> forall k | p < k < i :: !steps[k].TimerFires? && !steps[k].Destroy?;
  }

  /** Such a report: POLLHUP and POLLPRI without POLLIN, and then a read of 0 bytes. */
  lemma ClosedTwice(mark: nat)
    ensures var s1 := Next(Init(mark), Establish);
            var s2 := Next(s1, PollReturns(Revents(false, true, false, true)));
            var s3 := Next(s2, HandleHangup);
            Enabled(s3, HandleRead(0, [])) && !IsUp(s3)
  {
  }
}

/** The connection in the form the source has: an object over two Buffer objects. Every handler is
    the corresponding function or step of TcpMachine, so it keeps InterestInv and takes part in the
    whole-run results above. */
module TcpConnections {
  import opened Buffers
  import opened TcpMachine

  class TcpConnection {
    var link: Link
    var reading: bool
    var writing: bool
    const inputBuffer: Buffer
    const outputBuffer: Buffer
    const highWaterMark: nat
    var tasks: seq<Task>
    var timers: nat
    var removed: bool
    var due: Callbacks
    var handling: bool
    ghost var calls: seq<Call>
    ghost var log: seq<Sent>
    ghost var notices: seq<Notice>
    ghost var received: Bytes
    ghost var consumed: Bytes

    ghost predicate Valid()
      reads this, inputBuffer, outputBuffer
    {
      inputBuffer != outputBuffer && inputBuffer.Valid() && outputBuffer.Valid() && InterestInv(View())
    }

    ghost function View(): State
      requires inputBuffer.Valid() && outputBuffer.Valid()
      reads this, inputBuffer, outputBuffer
    {
      State(link, reading, writing, outputBuffer.Readable(), inputBuffer.Readable(), highWaterMark,
            tasks, timers, removed, due, handling, calls, log, notices, received, consumed)
    }

    constructor (mark: nat)
      ensures Valid() && View() == Init(mark) && fresh(inputBuffer) && fresh(outputBuffer)
    {
      link, reading, writing, tasks, timers, removed := Connecting, false, false, [], 0, false;
      due, handling := NoCallbacks, false;
      calls, log, notices, received, consumed := [], [], [], [], [];
      highWaterMark := mark;
      var i := new Buffer();
      var o := new Buffer();
      inputBuffer, outputBuffer := i, o;
    }

    method ConnectEstablished()
      requires Valid() && link.Connecting? && !removed
      modifies this
      ensures Valid() && View() == Next(old(View()), Establish)
    {
      link := Connected;
      reading := true;
    }

    method SendInLoop(message: Bytes, result: WriteResult)
      requires Valid() && result.count <= |message| && !link.Connecting?
      modifies this, outputBuffer
      ensures Valid() && View() == TcpMachine.SendInLoop(old(View()), message, result)
    {
      hide InterestInv;
      SendKeepsInterest(View(), message, result);
      if link.Disconnected? {
        log := log + [Sent(message, false)];
        return;
      }
      var nwrote := 0;
      var faultError := false;
      if !writing && outputBuffer.ReadableBytes() == 0 {
        nwrote, faultError := WriteDirectly(message, result);
      }
      var remaining := |message| - nwrote;
      assert remaining <= |message|;
      if !faultError && remaining > 0 {
        BufferRest(message[nwrote..]);
      }
      log := log + [Sent(message, !faultError)];
    }

    /** What could not be written is buffered, and the poller asked to watch for writability. */
    method BufferRest(rest: Bytes)
      requires inputBuffer != outputBuffer && inputBuffer.Valid() && outputBuffer.Valid()
      modifies `notices, `writing, outputBuffer
      ensures outputBuffer.Valid() && outputBuffer.Readable() == old(outputBuffer.Readable()) + rest && writing
      ensures var n := old(|outputBuffer.Readable()|);
              notices == if n < highWaterMark <= n + |rest| then old(notices) + [HighWaterMark(n + |rest|)]
                         else old(notices)
    {
      var oldLen := outputBuffer.ReadableBytes();
      if oldLen + |rest| >= highWaterMark && oldLen < highWaterMark {
        notices := notices + [HighWaterMark(oldLen + |rest|)];
      }
      outputBuffer.Append(rest);
      if !writing {
        writing := true;
      }
    }

    /** The write that sendInLoop tries before it buffers anything. */
    method WriteDirectly(message: Bytes, result: WriteResult) returns (nwrote: nat, faultError: bool)
      requires result.count <= |message|
      modifies `calls, `notices
      ensures nwrote == if result.count > 0 then result.count else 0
      ensures faultError <==> result.count <= 0 && (result.errno == EPipe || result.errno == EConnReset)
      ensures calls == if nwrote > 0 then old(calls) + [Write(message[..nwrote])] else old(calls)
      ensures notices == if 0 < nwrote == |message| then old(notices) + [WriteComplete] else old(notices)
    {
      nwrote, faultError := 0, false;
      if result.count > 0 {
        nwrote := result.count;
        calls := calls + [Write(message[..nwrote])];
        if |message| - nwrote == 0 {
          notices := notices + [WriteComplete];
        }
      } else if result.errno != EWouldBlock {
        if result.errno == EPipe || result.errno == EConnReset {
          faultError := true;
        }
      }
    }

    method Send(message: Bytes, result: WriteResult)
      requires Valid() && result.count <= |message|
      modifies this, outputBuffer
      ensures Valid() && View() == Next(old(View()), Step.Send(message, result))
    {
      if link.Connected? {
        SendInLoop(message, result);
      }
    }

    method Shutdown()
      requires Valid()
      modifies this
      ensures Valid() && View() == Next(old(View()), Step.Shutdown)
    {
      if link.Connected? {
        link := Disconnecting;
        ShutdownInLoop();
      }
    }

    method ShutdownInLoop()
      requires inputBuffer.Valid() && outputBuffer.Valid()
      modifies `calls
      ensures View() == TcpMachine.ShutdownInLoop(old(View()))
    {
      if !writing {
        calls := calls + [ShutdownWrite];
      }
    }

    method ForceClose()
      requires Valid()
      modifies this
      ensures Valid() && View() == Next(old(View()), Step.ForceClose)
    {
      if link.Connected? || link.Disconnecting? {
        link := Disconnecting;
        tasks := tasks + [ForceCloseTask];
      }
    }

    method ForceCloseInLoop()
      requires Valid()
      modifies this
      ensures Valid() && View() == TcpMachine.ForceCloseInLoop(old(View()))
    {
      if link.Connected? || link.Disconnecting? {
        var held := HandleClose();
        assert held;
      }
    }

    /** `held`: the source's assert held. */
    method HandleClose() returns (held: bool)
      requires Valid() && !link.Connecting?
      modifies this
      ensures Valid() && View() == TcpMachine.HandleClose(old(View())) && held == old(IsUp(View()))
    {
      held := link.Connected? || link.Disconnecting?;
      link := Disconnected;
      reading, writing := false, false;
    }

    /** handleEvent is about to call back. */
    method Call(rest: Callbacks)
      requires Valid() && !link.Connecting?
      modifies `due, `handling
      ensures Valid() && View() == Called(old(View()), rest)
    {
      due, handling := rest, rest != NoCallbacks;
    }

    /** Poll found events for the channel. */
    method PollReturns(revents: Revents)
      requires Valid() && Enabled(View(), Step.PollReturns(revents))
      modifies `due
      ensures Valid() && View() == Next(old(View()), Step.PollReturns(revents))
    {
      InterestNext(View(), Step.PollReturns(revents));
      due := Reported(revents);
    }

    method HandleHangup() returns (held: bool)
      requires Valid() && Enabled(View(), Step.HandleHangup)
      modifies this
      ensures Valid() && View() == Next(old(View()), Step.HandleHangup) && held == old(IsUp(View()))
    {
      Call(due.(close := false));
      held := HandleClose();
    }

    /** `count` is what readFd returned, `bytes` what it read. */
    method HandleRead(count: int, bytes: Bytes) returns (held: bool)
      requires Valid() && Enabled(View(), Step.HandleRead(count, bytes))
      requires count <= inputBuffer.WritableBytes() + (if inputBuffer.WritableBytes() < EXTRA_BUF then EXTRA_BUF else 0)
      modifies this, inputBuffer
      ensures Valid() && View() == Next(old(View()), Step.HandleRead(count, bytes))
      ensures held == (count == 0 ==> old(IsUp(View())))
      ensures inputBuffer.Readable() == old(inputBuffer.Readable()) + (if count > 0 then bytes else [])
    {
      Call(due.(read := false));
      held := true;
      var n := inputBuffer.ReadFd(count, if count > 0 then bytes else []);
      if n > 0 {
        received := received + bytes;
      } else if n == 0 {
        held := HandleClose();
      }
    }

    method HandleWrite(result: WriteResult)
      requires Valid() && Enabled(View(), Step.HandleWrite(result))
      modifies this, outputBuffer
      ensures Valid() && View() == Next(old(View()), Step.HandleWrite(result))
    {
      Call(NoCallbacks);
      WriteOut(result);
    }

    method WriteOut(result: WriteResult)
      requires Valid() && result.count <= outputBuffer.ReadableBytes() && !link.Connecting?
      modifies this, outputBuffer
      ensures Valid() && View() == DoHandleWrite(old(View()), result)
    {
      hide InterestInv;
      HandleWriteKeepsInterest(View(), result);
      if writing {
        var n := result.count;
        if n > 0 {
          var bytes := outputBuffer.Peek();
          calls := calls + [Write(bytes[..n])];
          outputBuffer.Retrieve(n);
          if outputBuffer.ReadableBytes() == 0 {
            writing := false;
            notices := notices + [WriteComplete];
            if link.Disconnecting? {
              ShutdownInLoop();
            }
          }
        }
      }
    }

    method ConnectDestroyed()
      requires Valid() && Enabled(View(), Destroy)
      modifies this
      ensures Valid() && View() == Next(old(View()), Destroy)
    {
      if link.Connected? {
        link := Disconnected;
        reading, writing := false, false;
      }
      assert !reading && !writing;
      removed := true;
    }
  }
}
