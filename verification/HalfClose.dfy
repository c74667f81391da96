/** The half-close of net/TcpConnection.cc over whole runs: SHUT_WR is put off until the output buffer is
    drained.

    send() and shutdown() go through runInLoop, so a call from another thread waits in the loop's queue
    while the loop thread goes on. What exactly that costs is stated here for every reachable state. */
module HalfClose {
  import opened Common
  import opened Buffers
  import opened TcpMachine

  predicate HasShut(calls: seq<Call>) { exists i :: 0 <= i < |calls| && calls[i].ShutdownWrite? }

  /** Nothing follows a SHUT_WR: it is issued at most once, and no byte is written after it. */
  predicate ShutdownIsLast(calls: seq<Call>) {
    forall i | 0 <= i < |calls| - 1 :: calls[i].Write?
  }

  /** No byte is written after a SHUT_WR. */
  predicate WritesFirst(calls: seq<Call>) {
    forall i, j | 0 <= i < j < |calls| :: calls[i].ShutdownWrite? ==> calls[j].ShutdownWrite?
  }

  lemma ShutAppend(calls: seq<Call>, c: Call)
    ensures HasShut(calls + [c]) <==> HasShut(calls) || c.ShutdownWrite?
    ensures !HasShut(calls) ==> ShutdownIsLast(calls + [c])
    ensures HasShut(calls) ==> !ShutdownIsLast(calls + [c])
    ensures WritesFirst(calls) && (HasShut(calls) ==> c.ShutdownWrite?) ==> WritesFirst(calls + [c])
  {
    var all := calls + [c];
    assert forall i | 0 <= i < |calls| :: all[i] == calls[i];
    assert all[|calls|] == c;
    if HasShut(calls) {
      var i :| 0 <= i < |calls| && calls[i].ShutdownWrite?;
      assert all[i].ShutdownWrite?;
    }
  }

  // ----- The queue -----

  predicate HasBytes(t: Task) { t.SendTask? && t.message != [] }

  /** Queued sends of at least one byte. */
  function Sends(tasks: seq<Task>): nat {
    if tasks == [] then 0 else Bit(HasBytes(tasks[0])) + Sends(tasks[1..])
  }

  function Shutdowns(tasks: seq<Task>): nat {
    if tasks == [] then 0 else Bit(tasks[0].ShutdownTask?) + Shutdowns(tasks[1..])
  }

  lemma {:induction false} CountAppend(tasks: seq<Task>, t: Task)
    ensures Sends(tasks + [t]) == Sends(tasks) + Bit(HasBytes(t))
    ensures Shutdowns(tasks + [t]) == Shutdowns(tasks) + Bit(t.ShutdownTask?)
  {
    if tasks == [] {
      assert tasks + [t] == [t] && [t][1..] == [];
    } else {
      CountAppend(tasks[1..], t);
      assert (tasks + [t])[1..] == tasks[1..] + [t];
    }
  }

  predicate AllSends(tasks: seq<Task>) { forall i | 0 <= i < |tasks| :: tasks[i].SendTask? }

  /** send() and shutdown() are refused once the link is on its way down. */
  predicate SendsFirst(tasks: seq<Task>) {
    forall i, j | 0 <= i < j < |tasks| :: tasks[j].SendTask? ==> tasks[i].SendTask?
  }

  lemma {:induction false} NoShutdowns(tasks: seq<Task>)
    requires AllSends(tasks)
    ensures Shutdowns(tasks) == 0
  {
    if tasks != [] {
      NoShutdowns(tasks[1..]);
    }
  }

  lemma {:induction false} NoSends(tasks: seq<Task>)
    requires forall i | 0 <= i < |tasks| :: !tasks[i].SendTask?
    ensures Sends(tasks) == 0
  {
    if tasks != [] {
      NoSends(tasks[1..]);
    }
  }

  /** What every step of every thread keeps. */
  ghost predicate QueueInv(s: State) {
    && InterestInv(s)
    && (s.link.Connected? || s.link.Connecting? ==> !HasShut(s.calls) && AllSends(s.tasks))
    && SendsFirst(s.tasks)
  }

  /** What sendInLoop does to the channel and the wire. */
  lemma SendEffect(s: State, message: Bytes, r: WriteResult)
    requires r.count <= |message|
    ensures var t := SendInLoop(s, message, r);
            && t == s.(calls := t.calls, output := t.output, writing := t.writing, log := t.log, notices := t.notices)
            && (s.writing ==> t.writing)
            && (t.calls == s.calls || (r.count > 0 && t.calls == s.calls + [Write(message[..r.count])]))
            && (message == [] || s.link.Disconnected? ==> t.calls == s.calls && t.writing == s.writing)
            && (s.writing ==> t.calls == s.calls)
  {
  }

  /** A send of at least one byte with nothing else under way. */
  lemma DirectSendEffect(s: State, message: Bytes, r: WriteResult)
    requires r.count <= |message| && message != [] && WritesDirectly(s) && !s.link.Disconnected?
    ensures var t := SendInLoop(s, message, r);
            && (r.count == 0 && r.errno == EWouldBlock ==> t.writing && t.calls == s.calls)
            && (r.count == |message| ==> t.calls == s.calls + [Write(message[..r.count])])
  {
  }

  lemma HandleWriteEffect(s: State, r: WriteResult)
    requires r.count <= |s.output|
    ensures var t := DoHandleWrite(s, r);
            && t == s.(calls := t.calls, output := t.output, writing := t.writing, notices := t.notices)
            && if !s.writing || r.count <= 0 then t == s
               else if r.count < |s.output| || !s.link.Disconnecting? then
                 t.calls == s.calls + [Write(s.output[..r.count])] && (t.writing <==> r.count < |s.output|)
               else
                 t.calls == s.calls + [Write(s.output[..r.count])] + [ShutdownWrite] && !t.writing
  {
  }

  /** The other handlers touch neither the wire nor the queue. */
  predicate LeavesWire(a: Step) {
    || a.Establish? || a.ForceCloseWithDelay? || a.TimerFires? || a.PollReturns? || a.HandleHangup?
    || a.HandleRead? || a.Consume? || a.Destroy?
  }

  lemma IdleEffect(s: State, a: Step)
    requires Enabled(s, a) && LeavesWire(a)
    ensures var t := Next(s, a);
            t.calls == s.calls && t.tasks == s.tasks && t.output == s.output && (t.writing ==> s.writing)
  {
  }

  /** What a call adds to the queue. */
  function Queued(s: State, a: Step): seq<Task> {
    match a
    case CrossSend(message) => if s.link.Connected? then [SendTask(message)] else []
    case CrossShutdown => if s.link.Connected? then [ShutdownTask] else []
    case ForceClose => if IsUp(s) then [ForceCloseTask] else []
    case _ => []
  }

  lemma QueueingEffect(s: State, a: Step)
    requires a.CrossSend? || a.CrossShutdown? || a.ForceClose?
    ensures Next(s, a) == s.(link := Next(s, a).link, tasks := s.tasks + Queued(s, a))
  {
  }

  lemma CountQueued(s: State, a: Step)
    requires a.CrossSend? || a.CrossShutdown? || a.ForceClose?
    ensures Sends(s.tasks + Queued(s, a)) == Sends(s.tasks) + Bit(a.CrossSend? && s.link.Connected? && a.message != [])
    ensures Shutdowns(s.tasks + Queued(s, a)) == Shutdowns(s.tasks) + Bit(a.CrossShutdown? && s.link.Connected?)
  {
    if Queued(s, a) == [] {
      assert s.tasks + [] == s.tasks;
    } else {
      CountAppend(s.tasks, Queued(s, a)[0]);
    }
  }

  lemma PopKeepsOrder(tasks: seq<Task>)
    requires tasks != [] && SendsFirst(tasks)
    ensures SendsFirst(tasks[1..]) && (AllSends(tasks) ==> AllSends(tasks[1..]))
    ensures !tasks[0].SendTask? ==> Sends(tasks) == 0
    ensures Sends(tasks) == Bit(HasBytes(tasks[0])) + Sends(tasks[1..])
    ensures Shutdowns(tasks) == Bit(tasks[0].ShutdownTask?) + Shutdowns(tasks[1..])
  {
    if !tasks[0].SendTask? {
      NoSends(tasks);
    }
  }

  lemma AppendKeepsOrder(tasks: seq<Task>, t: Task)
    requires SendsFirst(tasks) && (t.SendTask? ==> AllSends(tasks))
    ensures SendsFirst(tasks + [t]) && (t.SendTask? ==> AllSends(tasks + [t]))
  {
  }

  lemma RunTaskKeepsQueue(s: State, r: WriteResult)
    requires QueueInv(s) && Enabled(s, RunTask(r))
    ensures QueueInv(Next(s, RunTask(r)))
  {
    hide HasShut, SendsFirst, AllSends, InterestInv, SendInLoop;
    InterestNext(s, RunTask(r));
    PopKeepsOrder(s.tasks);
    HeadIsSend(s);
    var t := s.(tasks := s.tasks[1..]);
    if s.tasks[0].SendTask? {
      SendEffect(t, s.tasks[0].message, r);
      if r.count > 0 {
        ShutAppend(s.calls, Write(s.tasks[0].message[..r.count]));
      }
    }
  }

  lemma HeadIsSend(s: State)
    requires QueueInv(s) && s.tasks != []
    ensures s.link.Connected? || s.link.Connecting? ==> s.tasks[0].SendTask?
  {
  }

  lemma QueueNext(s: State, a: Step)
    requires QueueInv(s) && Enabled(s, a)
    ensures QueueInv(Next(s, a))
  {
    InterestNext(s, a);
    hide HasShut, SendsFirst, AllSends, InterestInv, SendInLoop, DoHandleWrite;
    match a
    case Send(message, r) =>
      SendEffect(s, message, r);
      if r.count > 0 {
        ShutAppend(s.calls, Write(message[..r.count]));
      }
    case CrossSend(message) =>
      if s.link.Connected? {
        AppendKeepsOrder(s.tasks, SendTask(message));
      }
    case CrossShutdown => AppendKeepsOrder(s.tasks, ShutdownTask);
    case ForceClose => AppendKeepsOrder(s.tasks, ForceCloseTask);
    case RunTask(r) => RunTaskKeepsQueue(s, r);
    case HandleWrite(r) =>
      HandleWriteEffect(Called(s, NoCallbacks), r);
      if r.count > 0 {
        ShutAppend(s.calls, Write(s.output[..r.count]));
      }
    case _ =>
  }

  lemma {:induction false} QueueAlways(states: seq<State>, steps: seq<Step>, i: nat)
    requires IsRun(states, steps) && i < |states|
    ensures QueueInv(states[i])
  {
    if i > 0 {
      QueueAlways(states, steps, i - 1);
      QueueNext(states[i - 1], steps[i - 1]);
    }
  }

  // ----- The exact condition -----

  /** The connection is down before the next functor runs: a reported hang-up is handled first. */
  predicate GoingDown(s: State) { s.link.Disconnected? || s.due.close }

  /** Everything that has ended, or may yet end, in a SHUT_WR while the link is closing: the one issued,
      the drained output buffer, a queued send (by way of the buffer), a queued shutdown. */
  function Claims(s: State): nat {
    Bit(HasShut(s.calls)) + Bit(s.writing) + Sends(s.tasks) + Shutdowns(s.tasks)
  }

  predicate Safe(s: State) {
    && ShutdownIsLast(s.calls)
    && if GoingDown(s) then Bit(HasShut(s.calls)) + Shutdowns(s.tasks) <= 1
       else if s.link.Connected? then Sends(s.tasks) == 0
       else Claims(s) <= 1
  }

  /** send() and shutdown() called in the loop thread. */
  predicate FromLoopThread(a: Step) { !a.CrossSend? && !a.CrossShutdown? }

  ghost predicate IsPath(states: seq<State>, steps: seq<Step>) {
    && |states| == |steps| + 1
    && forall i | 0 <= i < |steps| ::
         Enabled(states[i], steps[i]) && states[i + 1] == Next(states[i], steps[i]) && FromLoopThread(steps[i])
  }

  /** However the loop thread goes on, nothing will follow the half-close. */
  ghost predicate StaysClean(s: State) {
    forall states: seq<State>, steps: seq<Step> ::
      IsPath(states, steps) && states[0] == s ==> ShutdownIsLast(states[|steps|].calls)
  }

  lemma ConnectedIsUnshut(s: State)
    requires QueueInv(s) && (s.link.Connected? || s.link.Connecting?)
    ensures !HasShut(s.calls) && Shutdowns(s.tasks) == 0
    ensures s.link.Connecting? ==> Sends(s.tasks) == 0 && !s.writing
  {
    NoShutdowns(s.tasks);
  }

  lemma SendKeepsSafe(s: State, message: Bytes, r: WriteResult)
    requires QueueInv(s) && Safe(s) && s.link.Connected? && r.count <= |message|
    ensures Safe(SendInLoop(s, message, r))
  {
    hide HasShut, ShutdownIsLast, SendInLoop, Sends, Shutdowns, QueueInv;
    ConnectedIsUnshut(s);
    SendEffect(s, message, r);
    if r.count > 0 {
      ShutAppend(s.calls, Write(message[..r.count]));
    }
  }

  lemma RunTaskKeepsSafe(s: State, r: WriteResult)
    requires QueueInv(s) && Safe(s) && Enabled(s, RunTask(r))
    ensures Safe(Next(s, RunTask(r)))
  {
    hide HasShut, ShutdownIsLast, SendInLoop, Sends, Shutdowns, SendsFirst, InterestInv, AllSends;
    PopKeepsOrder(s.tasks);
    HeadIsSend(s);
    var t := s.(tasks := s.tasks[1..]);
    match s.tasks[0]
    case SendTask(message) =>
      SendEffect(t, message, r);
      if r.count > 0 {
        ShutAppend(s.calls, Write(message[..r.count]));
      }
    case ShutdownTask => ShutAppend(s.calls, ShutdownWrite);
    case ForceCloseTask =>
  }

  lemma HandleWriteKeepsSafe(s: State, r: WriteResult)
    requires QueueInv(s) && Safe(s) && Enabled(s, HandleWrite(r))
    ensures Safe(Next(s, HandleWrite(r)))
  {
    hide HasShut, ShutdownIsLast, DoHandleWrite, Sends, Shutdowns, SendsFirst, AllSends;
    HandleWriteEffect(Called(s, NoCallbacks), r);
    if r.count > 0 {
      ShutAppend(s.calls, Write(s.output[..r.count]));
      ShutAppend(s.calls + [Write(s.output[..r.count])], ShutdownWrite);
    }
  }

  lemma SafeNext(s: State, a: Step)
    requires QueueInv(s) && Safe(s) && Enabled(s, a) && FromLoopThread(a)
    ensures Safe(Next(s, a))
  {
    hide Safe, QueueInv, SendInLoop, DoHandleWrite, DoRunTask, ShutdownInLoop;
    match a
    case Send(message, r) => if s.link.Connected? { SendKeepsSafe(s, message, r); }
    case RunTask(r) => RunTaskKeepsSafe(s, r);
    case HandleWrite(r) => HandleWriteKeepsSafe(s, r);
    case Shutdown => ShutdownKeepsSafe(s);
    case ForceClose => ForceCloseKeepsSafe(s);
    case _ => IdleKeepsSafe(s, a);
  }

  lemma ShutdownKeepsSafe(s: State)
    requires QueueInv(s) && Safe(s)
    ensures Safe(Next(s, Shutdown))
  {
    hide HasShut, ShutdownIsLast, Sends, Shutdowns, QueueInv;
    if s.link.Connected? {
      ConnectedIsUnshut(s);
      ShutAppend(s.calls, ShutdownWrite);
    }
  }

  lemma ForceCloseKeepsSafe(s: State)
    requires QueueInv(s) && Safe(s)
    ensures Safe(Next(s, ForceClose))
  {
    hide HasShut, ShutdownIsLast, Sends, Shutdowns, QueueInv;
    CountAppend(s.tasks, ForceCloseTask);
    if s.link.Connected? {
      ConnectedIsUnshut(s);
    }
  }

  /** Handlers take the link only down, and a reported hang-up as far as that. */
  lemma IdleLink(s: State, a: Step)
    requires InterestInv(s) && Enabled(s, a) && LeavesWire(a)
    ensures var t := Next(s, a);
            && (GoingDown(s) ==> GoingDown(t))
            && (t.link.Connected? ==> s.link.Connected? || s.link.Connecting?)
            && (t.link.Connecting? ==> s.link.Connecting?)
  {
  }

  lemma IdleKeepsSafe(s: State, a: Step)
    requires QueueInv(s) && Safe(s) && Enabled(s, a) && LeavesWire(a)
    ensures Safe(Next(s, a))
  {
    IdleEffect(s, a);
    IdleLink(s, a);
    hide HasShut, ShutdownIsLast, Sends, Shutdowns, QueueInv, Next, Enabled;
    if s.link.Connected? || s.link.Connecting? {
      ConnectedIsUnshut(s);
    }
  }

  lemma {:induction false} SafeAlways(states: seq<State>, steps: seq<Step>, i: nat)
    requires IsPath(states, steps) && QueueInv(states[0]) && Safe(states[0]) && i < |states|
    ensures QueueInv(states[i]) && Safe(states[i])
  {
    hide QueueInv, Safe, Next, Enabled;
    if i > 0 {
      SafeAlways(states, steps, i - 1);
      QueueNext(states[i - 1], steps[i - 1]);
      SafeNext(states[i - 1], steps[i - 1]);
    }
  }

  /** A step that brings an unsafe connection nearer to a second SHUT_WR or a late byte. */
  function SpoilingStep(s: State): Step {
    if s.link.Connected? then Shutdown
    else if s.due.close then HandleHangup
    else if s.due.read then HandleRead(-1, [])
    else if s.due.write then HandleWrite(WriteResult(|s.output|, EWouldBlock))
    else if s.writing then PollReturns(Revents(false, false, true, false))
    else if s.tasks != [] && HasBytes(s.tasks[0]) && HasShut(s.calls) then
      RunTask(WriteResult(|s.tasks[0].message|, EWouldBlock))
    else RunTask(WriteResult(0, EWouldBlock))
  }

  function Distance(s: State): nat {
    var left := Bit(s.due.close) + Bit(s.due.read) + Bit(s.due.write);
    if !s.writing then left
    else if s.due == NoCallbacks then 1
    else if left == 1 && s.due.write then 0
    else 1 + left
  }

  ghost predicate Nearer(t: State, s: State) {
    || 2 * |t.tasks| + Bit(t.writing) < 2 * |s.tasks| + Bit(s.writing)
    || (2 * |t.tasks| + Bit(t.writing) == 2 * |s.tasks| + Bit(s.writing) &&
        (Distance(t) < Distance(s) || (Distance(t) == Distance(s) && s.link.Connected? && !t.link.Connected?)))
  }

  ghost predicate Spoils(s: State, a: Step) {
    Enabled(s, a) && FromLoopThread(a) && !Safe(Next(s, a)) && Nearer(Next(s, a), s)
  }

  lemma SpoilConnected(s: State)
    requires QueueInv(s) && !Safe(s) && ShutdownIsLast(s.calls) && s.link.Connected?
    ensures Spoils(s, SpoilingStep(s))
  {
    hide HasShut, ShutdownIsLast, Sends, Shutdowns, SendsFirst, AllSends;
    ConnectedIsUnshut(s);
    ShutAppend(s.calls, ShutdownWrite);
  }

  lemma SpoilDispatch(s: State)
    requires QueueInv(s) && !Safe(s) && ShutdownIsLast(s.calls) && !s.link.Connected? && s.due != NoCallbacks
    ensures Spoils(s, SpoilingStep(s))
  {
    hide HasShut, ShutdownIsLast, Sends, Shutdowns, SendsFirst, AllSends, DoHandleWrite;
    if s.due == Callbacks(false, false, true) {
      var n := |s.output|;
      HandleWriteEffect(Called(s, NoCallbacks), WriteResult(n, EWouldBlock));
      ShutAppend(s.calls, Write(s.output[..n]));
      ShutAppend(s.calls + [Write(s.output[..n])], ShutdownWrite);
      if HasShut(s.calls) {
        LateByte(s.calls, Write(s.output[..n]), ShutdownWrite);
      }
    }
  }

  lemma LateByte(calls: seq<Call>, c: Call, d: Call)
    requires !ShutdownIsLast(calls + [c])
    ensures !ShutdownIsLast(calls + [c] + [d])
  {
    var i :| 0 <= i < |calls| && !(calls + [c])[i].Write?;
    assert (calls + [c] + [d])[i] == (calls + [c])[i];
  }

  lemma SpoilTask(s: State)
    requires QueueInv(s) && !Safe(s) && ShutdownIsLast(s.calls)
    requires !s.link.Connected? && s.due == NoCallbacks && !s.writing
    ensures Spoils(s, SpoilingStep(s))
  {
    hide HasShut, ShutdownIsLast, Sends, Shutdowns, SendsFirst, AllSends, SendInLoop;
    assert s.tasks != [] by {
      if s.tasks == [] { EmptyQueue(s.tasks); }
    }
    PopKeepsOrder(s.tasks);
    var t, r := s.(tasks := s.tasks[1..]), SpoilingStep(s).result;
    match s.tasks[0]
    case SendTask(message) =>
      SendEffect(t, message, r);
      if HasBytes(s.tasks[0]) && !s.link.Disconnected? {
        DirectSendEffect(t, message, r);
      }
      if r.count > 0 {
        ShutAppend(s.calls, Write(message[..r.count]));
      }
    case ShutdownTask => ShutAppend(s.calls, ShutdownWrite);
    case ForceCloseTask =>
  }

  lemma EmptyQueue(tasks: seq<Task>)
    requires tasks == []
    ensures Sends(tasks) == 0 && Shutdowns(tasks) == 0
  {
  }

  lemma SpoilStep(s: State)
    requires QueueInv(s) && !Safe(s) && ShutdownIsLast(s.calls)
    ensures Spoils(s, SpoilingStep(s))
  {
    hide HasShut, ShutdownIsLast, Sends, Shutdowns, SendsFirst, AllSends, SendInLoop, DoHandleWrite;
    if s.link.Connected? {
      SpoilConnected(s);
    } else if s.due != NoCallbacks {
      SpoilDispatch(s);
    } else if !s.writing {
      SpoilTask(s);
    }
  }

  /** From an unsafe state the loop thread alone can reach a call after the half-close. */
  lemma {:induction false} Spoil(s: State) returns (states: seq<State>, steps: seq<Step>)
    requires QueueInv(s) && !Safe(s)
    ensures IsPath(states, steps) && states[0] == s && !ShutdownIsLast(states[|steps|].calls)
    decreases 2 * |s.tasks| + Bit(s.writing), Distance(s), Bit(s.link.Connected?)
  {
    if !ShutdownIsLast(s.calls) {
      states, steps := [s], [];
    } else {
      hide QueueInv, Safe, Next, Enabled, IsPath, ShutdownIsLast, SpoilingStep, Distance;
      SpoilStep(s);
      var a := SpoilingStep(s);
      QueueNext(s, a);
      var rest, more := Spoil(Next(s, a));
      Prepend(s, a, rest, more);
      states, steps := [s] + rest, [a] + more;
    }
  }

  lemma Prepend(s: State, a: Step, states: seq<State>, steps: seq<Step>)
    requires Enabled(s, a) && FromLoopThread(a) && IsPath(states, steps) && states[0] == Next(s, a)
    ensures IsPath([s] + states, [a] + steps)
    ensures ([s] + states)[|[a] + steps|] == states[|steps|]
  {
    hide Next, Enabled;
  }

  /** In every run, whatever other threads did so far: the loop thread can be trusted with the rest
      exactly if the state is safe. */
  lemma HalfCloseExactly(states: seq<State>, steps: seq<Step>, i: nat)
    requires IsRun(states, steps) && i < |states|
    ensures StaysClean(states[i]) <==> Safe(states[i])
  {
    QueueAlways(states, steps, i);
    CleanExactly(states[i]);
  }

  lemma CleanExactly(s: State)
    requires QueueInv(s)
    ensures StaysClean(s) <==> Safe(s)
  {
    hide QueueInv, Next, Enabled;
    if Safe(s) {
      forall states: seq<State>, steps: seq<Step> | IsPath(states, steps) && states[0] == s
        ensures ShutdownIsLast(states[|steps|].calls)
      {
        SafeAlways(states, steps, |steps|);
      }
    } else {
      var states, steps := Spoil(s);
      assert IsPath(states, steps);
    }
  }

  // ----- Calls from other threads -----

  /** So shutdown() from another thread is harmless exactly if no byte waits in the output buffer (or the
      connection is about to go down anyway)... */
  lemma CrossShutdownExactly(states: seq<State>, steps: seq<Step>, i: nat)
    requires IsRun(states, steps) && i < |states| && states[i].link.Connected? && StaysClean(states[i])
    ensures StaysClean(Next(states[i], CrossShutdown)) <==> !states[i].writing || GoingDown(states[i])
  {
    var s := states[i];
    QueueAlways(states, steps, i);
    CleanExactly(s);
    QueueNext(s, CrossShutdown);
    CleanExactly(Next(s, CrossShutdown));
    hide StaysClean, QueueInv, HasShut, Sends, Shutdowns, ShutdownIsLast;
    ConnectedIsUnshut(s);
    CountAppend(s.tasks, ShutdownTask);
  }

  /** ...and send() from another thread exactly if it sends nothing: the loop thread may call shutdown()
      before it runs the queued send. */
  lemma CrossSendExactly(states: seq<State>, steps: seq<Step>, i: nat, message: Bytes)
    requires IsRun(states, steps) && i < |states| && states[i].link.Connected? && StaysClean(states[i])
    ensures StaysClean(Next(states[i], CrossSend(message))) <==> message == [] || GoingDown(states[i])
  {
    var s := states[i];
    QueueAlways(states, steps, i);
    CleanExactly(s);
    QueueNext(s, CrossSend(message));
    CleanExactly(Next(s, CrossSend(message)));
    hide StaysClean, QueueInv, HasShut, Sends, Shutdowns, ShutdownIsLast;
    ConnectedIsUnshut(s);
    CountAppend(s.tasks, SendTask(message));
  }

  /** A call from another thread that leaves the half-close alone: refused, or a send of nothing, or a
      shutdown that finds the output buffer drained. */
  predicate Harmless(s: State, a: Step) {
    s.link.Connected? ==>
      (a.CrossSend? ==> a.message == []) && (a.CrossShutdown? ==> !s.writing)
  }

  /** Whatever SHUT_WR was issued, or is queued, has found the output buffer empty. */
  ghost predicate Drained(s: State) {
    Sends(s.tasks) == 0 && (HasShut(s.calls) || Shutdowns(s.tasks) > 0 ==> s.output == [] && !s.writing)
  }

  ghost predicate GracefulInv(s: State) {
    QueueInv(s) && Safe(s) && Drained(s)
  }

  lemma DrainedWhenShut(s: State, a: Step)
    requires GracefulInv(s) && Enabled(s, a) && Harmless(s, a)
    ensures Drained(Next(s, a))
  {
    hide HasShut, Sends, Shutdowns, QueueInv, Safe, Next, Enabled;
    match a
    case Send(message, r) => DrainedAfterSend(s, message, r);
    case RunTask(r) => DrainedAfterTask(s, r);
    case HandleWrite(r) => DrainedAfterWrite(s, r);
    case Shutdown => DrainedAfterShutdown(s);
    case CrossSend(_) => DrainedAfterCall(s, a);
    case CrossShutdown => DrainedAfterCall(s, a);
    case ForceClose => DrainedAfterCall(s, a);
    case _ => IdleEffect(s, a);
  }

  lemma DrainedAfterSend(s: State, message: Bytes, r: WriteResult)
    requires GracefulInv(s) && Enabled(s, Send(message, r))
    ensures Drained(Next(s, Send(message, r)))
  {
    hide HasShut, Sends, Shutdowns, QueueInv, Safe, SendInLoop;
    if s.link.Connected? {
      ConnectedIsUnshut(s);
      SendEffect(s, message, r);
      if r.count > 0 {
        ShutAppend(s.calls, Write(message[..r.count]));
      }
    }
  }

  lemma DrainedAfterShutdown(s: State)
    requires GracefulInv(s)
    ensures Drained(Next(s, Shutdown))
  {
    hide HasShut, Sends, Shutdowns, QueueInv, Safe;
    if s.link.Connected? {
      ConnectedIsUnshut(s);
      if !s.writing {
        DrainedWhenQuiet(s);
      }
    }
  }

  lemma DrainedAfterCall(s: State, a: Step)
    requires GracefulInv(s) && Harmless(s, a) && (a.CrossSend? || a.CrossShutdown? || a.ForceClose?)
    ensures Drained(Next(s, a))
  {
    QueueingEffect(s, a);
    CountQueued(s, a);
    hide HasShut, Sends, Shutdowns, QueueInv, Safe, Next;
    if a.CrossShutdown? && s.link.Connected? {
      DrainedWhenQuiet(s);
    }
  }

  lemma DrainedWhenQuiet(s: State)
    requires QueueInv(s) && !s.link.Disconnected? && !s.writing
    ensures s.output == []
  {
  }

  lemma DrainedAfterWrite(s: State, r: WriteResult)
    requires GracefulInv(s) && Enabled(s, HandleWrite(r))
    ensures Drained(Next(s, HandleWrite(r)))
  {
    hide HasShut, DoHandleWrite, Sends, Shutdowns, QueueInv, Safe;
    HandleWriteEffect(Called(s, NoCallbacks), r);
    DrainedOutput(Called(s, NoCallbacks), r);
    if r.count > 0 {
      ShutAppend(s.calls, Write(s.output[..r.count]));
    }
  }

  lemma DrainedOutput(s: State, r: WriteResult)
    requires r.count <= |s.output|
    ensures s.output == [] ==> DoHandleWrite(s, r).output == []
    ensures s.writing && r.count == |s.output| > 0 ==> DoHandleWrite(s, r).output == []
  {
  }

  lemma DrainedAfterTask(s: State, r: WriteResult)
    requires GracefulInv(s) && Enabled(s, RunTask(r))
    ensures Drained(Next(s, RunTask(r)))
  {
    hide HasShut, Sends, Shutdowns, SendsFirst, AllSends, Safe;
    PopKeepsOrder(s.tasks);
    HeadIsSend(s);
    ShutAppend(s.calls, ShutdownWrite);
  }

  lemma GracefulNext(s: State, a: Step)
    requires GracefulInv(s) && Enabled(s, a) && Harmless(s, a)
    ensures GracefulInv(Next(s, a))
  {
    QueueNext(s, a);
    DrainedWhenShut(s, a);
    hide QueueInv, Sends, Shutdowns, HasShut, ShutdownIsLast;
    if FromLoopThread(a) {
      SafeNext(s, a);
    } else if s.link.Connected? {
      ConnectedIsUnshut(s);
      CountAppend(s.tasks, if a.CrossSend? then SendTask(a.message) else ShutdownTask);
    }
  }

  lemma {:induction false} GracefulAlways(states: seq<State>, steps: seq<Step>, i: nat)
    requires IsRun(states, steps) && i < |states|
    requires forall k | 0 <= k < i :: Harmless(states[k], steps[k])
    ensures GracefulInv(states[i])
  {
    if i > 0 {
      GracefulAlways(states, steps, i - 1);
      GracefulNext(states[i - 1], steps[i - 1]);
    }
  }

  /** In every run in which other threads send nothing and shut down only when the output buffer is
      drained, SHUT_WR comes at most once, with the output buffer empty, after every accepted byte, and
      nothing is written after it. */
  lemma GracefulHalfClose(states: seq<State>, steps: seq<Step>, i: nat)
    requires IsRun(states, steps) && i < |states|
    requires forall k | 0 <= k < i :: Harmless(states[k], steps[k])
    ensures ShutdownIsLast(states[i].calls)
    ensures HasShut(states[i].calls) ==> states[i].output == [] && Wire(states[i].calls) == Accepted(states[i].log)
  {
    GracefulAlways(states, steps, i);
    ConservedAlways(states, steps, i);
    hide Wire, Accepted;
    if HasShut(states[i].calls) {
      assert Wire(states[i].calls) + [] == Wire(states[i].calls);
    }
  }

  // ----- Sends in the loop thread, shutdown() anywhere -----

  ghost predicate LoopSends(s: State, a: Step) { a.CrossSend? && s.link.Connected? ==> a.message == [] }

  /** No byte follows a SHUT_WR, and none is left to. */
  ghost predicate Quiet(s: State) {
    WritesFirst(s.calls) && Sends(s.tasks) == 0 && (HasShut(s.calls) ==> !s.writing)
  }

  ghost predicate QuietInv(s: State) { QueueInv(s) && Quiet(s) }

  lemma QuietNext(s: State, a: Step)
    requires QuietInv(s) && Enabled(s, a) && LoopSends(s, a)
    ensures QuietInv(Next(s, a))
  {
    QueueNext(s, a);
    hide HasShut, WritesFirst, Sends, QueueInv, Next, Enabled;
    match a
    case Send(message, r) => QuietAfterSend(s, message, r);
    case RunTask(r) => QuietAfterTask(s, r);
    case HandleWrite(r) => QuietAfterWrite(s, r);
    case Shutdown => QuietAfterShutdown(s);
    case CrossSend(_) => QuietAfterCall(s, a);
    case CrossShutdown => QuietAfterCall(s, a);
    case ForceClose => QuietAfterCall(s, a);
    case _ => IdleEffect(s, a);
  }

  lemma QuietAfterSend(s: State, message: Bytes, r: WriteResult)
    requires QuietInv(s) && Enabled(s, Send(message, r))
    ensures Quiet(Next(s, Send(message, r)))
  {
    hide HasShut, WritesFirst, Sends, QueueInv, SendInLoop;
    if s.link.Connected? {
      ConnectedIsUnshut(s);
      SendEffect(s, message, r);
      if r.count > 0 {
        ShutAppend(s.calls, Write(message[..r.count]));
      }
    }
  }

  lemma QuietAfterTask(s: State, r: WriteResult)
    requires QuietInv(s) && Enabled(s, RunTask(r))
    ensures Quiet(Next(s, RunTask(r)))
  {
    hide HasShut, WritesFirst, Sends, SendInLoop, InterestInv, AllSends, SendsFirst;
    PopKeepsOrder(s.tasks);
    ShutAppend(s.calls, ShutdownWrite);
    if s.tasks[0].SendTask? {
      SendEffect(s.(tasks := s.tasks[1..]), s.tasks[0].message, r);
    }
  }

  lemma QuietAfterWrite(s: State, r: WriteResult)
    requires QuietInv(s) && Enabled(s, HandleWrite(r))
    ensures Quiet(Next(s, HandleWrite(r)))
  {
    hide HasShut, WritesFirst, Sends, DoHandleWrite, QueueInv;
    HandleWriteEffect(Called(s, NoCallbacks), r);
    if r.count > 0 {
      ShutAppend(s.calls, Write(s.output[..r.count]));
      ShutAppend(s.calls + [Write(s.output[..r.count])], ShutdownWrite);
    }
  }

  lemma QuietAfterShutdown(s: State)
    requires QuietInv(s)
    ensures Quiet(Next(s, Shutdown))
  {
    hide HasShut, WritesFirst, Sends, QueueInv;
    ShutAppend(s.calls, ShutdownWrite);
  }

  lemma QuietAfterCall(s: State, a: Step)
    requires QuietInv(s) && LoopSends(s, a) && (a.CrossSend? || a.CrossShutdown? || a.ForceClose?)
    ensures Quiet(Next(s, a))
  {
    QueueingEffect(s, a);
    CountQueued(s, a);
    hide HasShut, WritesFirst, Sends, QueueInv, Next;
  }

  lemma {:induction false} QuietAlways(states: seq<State>, steps: seq<Step>, i: nat)
    requires IsRun(states, steps) && i < |states|
    requires forall k | 0 <= k < i :: LoopSends(states[k], steps[k])
    ensures QuietInv(states[i])
  {
    if i > 0 {
      QuietAlways(states, steps, i - 1);
      QuietNext(states[i - 1], steps[i - 1]);
    }
  }

  /** If only the loop thread sends, then whoever calls shutdown(): no byte is written after a SHUT_WR,
      and while the connection is not down a SHUT_WR means that every accepted byte went out before. */
  lemma NoByteAfterShutdown(states: seq<State>, steps: seq<Step>, i: nat)
    requires IsRun(states, steps) && i < |states|
    requires forall k | 0 <= k < i :: LoopSends(states[k], steps[k])
    ensures forall j, k | 0 <= j < k < |states[i].calls| ::
              states[i].calls[j].ShutdownWrite? ==> states[i].calls[k].ShutdownWrite?
    ensures HasShut(states[i].calls) && !states[i].link.Disconnected? ==>
              states[i].output == [] && Wire(states[i].calls) == Accepted(states[i].log)
  {
    QuietAlways(states, steps, i);
    ConservedAlways(states, steps, i);
    hide Wire, Accepted;
    if HasShut(states[i].calls) && !states[i].link.Disconnected? {
      assert states[i].output == [];
      assert Wire(states[i].calls) + [] == Wire(states[i].calls);
    }
  }

  // ----- The two ways it goes wrong, step by step -----

  /** A shutdown that waits in the loop's queue while the output buffer drains is carried out twice... */
  lemma CrossShutdownTwice(states: seq<State>, steps: seq<Step>, i: nat, r: WriteResult)
    requires IsRun(states, steps) && i < |states|
    requires states[i].link.Connected? && states[i].writing && states[i].tasks == [] && states[i].due == NoCallbacks
    ensures var s := states[i];
            var s1 := Next(s, CrossShutdown);
            var s2 := Next(s1, PollReturns(Revents(false, false, true, false)));
            var s3 := Next(s2, HandleWrite(WriteResult(|s.output|, EWouldBlock)));
            Next(s3, RunTask(r)).calls == s.calls + [Write(s.output), ShutdownWrite, ShutdownWrite]
  {
    InterestAlways(states, steps, i);
    hide DoHandleWrite, SendInLoop, IsRun;
    var s := states[i];
    assert s.output != [];
    hide InterestInv;
    var s2 := Next(Next(s, CrossShutdown), PollReturns(Revents(false, false, true, false)));
    assert s2.tasks == [ShutdownTask] && s2.due == Callbacks(false, false, true) && s2.output == s.output;
    HandleWriteEffect(Called(s2, NoCallbacks), WriteResult(|s.output|, EWouldBlock));
    assert s.output[..|s.output|] == s.output;
    var s3 := Next(s2, HandleWrite(WriteResult(|s.output|, EWouldBlock)));
    assert s3.calls == s.calls + [Write(s.output), ShutdownWrite] && s3.tasks == [ShutdownTask] && !s3.writing;
  }

  /** ...and a send that waits there is written after the half-close. */
  lemma CrossSendAfterShutdown(states: seq<State>, steps: seq<Step>, i: nat, message: Bytes)
    requires IsRun(states, steps) && i < |states| && message != []
    requires states[i].link.Connected? && !states[i].writing && states[i].tasks == [] && states[i].due == NoCallbacks
    ensures var s := states[i];
            var s1 := Next(s, CrossSend(message));
            var s2 := Next(s1, Shutdown);
            Next(s2, RunTask(WriteResult(|message|, EWouldBlock))).calls == s.calls + [ShutdownWrite, Write(message)]
  {
    InterestAlways(states, steps, i);
    var s := states[i];
    var s2 := Next(Next(s, CrossSend(message)), Shutdown);
    assert s2.tasks == [SendTask(message)] && s2.calls == s.calls + [ShutdownWrite];
    hide SendInLoop;
    DirectSendEffect(s2.(tasks := []), message, WriteResult(|message|, EWouldBlock));
    assert message[..|message|] == message;
    assert s2.calls + [Write(message)] == s.calls + [ShutdownWrite, Write(message)];
  }

  /** Both kinds of state are reached. */
  lemma StatesReached(mark: nat, b: Byte)
    ensures var s1 := Next(Init(mark), Establish);
            var s2 := Next(s1, Send([b], WriteResult(0, EWouldBlock)));
            && s1.link.Connected? && !s1.writing && s1.tasks == [] && s1.due == NoCallbacks
            && s2.link.Connected? && s2.writing && s2.tasks == [] && s2.due == NoCallbacks
  {
  }
}
