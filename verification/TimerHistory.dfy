/** Timers from creation to callback: every run of net/TimerQueue.cc, told by its steps. */
module TimerHistories {
  import opened Common
  import opened TimerMachine
  import opened TimerRuns

  // ----- What a timer keeps -----

  /** A live timer keeps its address, interval and repeat flag; only the end of a batch it is in gives
      it another expiration. */
  lemma TimerStep(s: State, a: Step, q: int)
    requires Inv(s) && Enabled(s, a) && Live(s, q) && Live(Next(s, a), q)
    ensures var t, p := Next(s, a), s.issued[q];
            && t.issued[q] == p
            && t.heap[p].interval == s.heap[p].interval && t.heap[p].repeat == s.heap[p].repeat
            && (!(a.Finish? && InBatch(s, q)) ==> t.heap[p].expiration == s.heap[p].expiration)
  {
    if a.Create? {
      assert |s.issued| + 1 !in s.issued;
    }
  }

  lemma CreateStep(s: State, a: Step)
    requires Inv(s) && Enabled(s, a) && a.Create?
    ensures var t, q := Next(s, a), |s.issued| + 1;
            && q !in s.issued && Live(t, q) && t.issued[q] == a.timer && InQueue(t, q)
            && t.heap[a.timer] == Timer(a.when, a.interval, a.repeat, q)
  {
    assert |s.issued| + 1 !in s.issued;
  }

  /** The number that the timer created in step i is given. */
  function NumberOf(s: State): nat { |s.issued| + 1 }

  /** Timer q has not been in a batch that ended between steps i and j. */
  ghost predicate NoBatchEnded(states: seq<State>, steps: seq<Step>, i: nat, j: nat, q: int)
    requires j <= |steps| < |states|
  {
    forall k | i < k < j :: !(steps[k].Finish? && InBatch(states[k], q))
  }

  /** In every run a timer keeps the interval and repeat flag it was created with for good, and the
      expiration until the end of its first batch. */
  lemma {:induction false} CreatedTimer(states: seq<State>, steps: seq<Step>, i: nat, j: nat)
    requires IsRun(states, steps) && i < j < |states| && steps[i].Create?
    requires Live(states[j], NumberOf(states[i]))
    ensures var a, s, q := steps[i], states[j], NumberOf(states[i]);
            && s.issued[q] == a.timer
            && s.heap[a.timer] == Timer(s.heap[a.timer].expiration, a.interval, a.repeat, q)
            && (NoBatchEnded(states, steps, i, j, q) ==> s.heap[a.timer].expiration == a.when)
    decreases j
  {
    hide Inv, Next, Enabled;
    var q := NumberOf(states[i]);
    InvRun(states, steps, j - 1);
    if j == i + 1 {
      CreateStep(states[i], steps[i]);
    } else {
      StaysIssued(states, steps, i, j - 1);
      InvRun(states, steps, 0);
      if !Live(states[j - 1], q) {
        FreedForever(states, steps, j - 1, j, q);
      }
      CreatedTimer(states, steps, i, j - 1);
      TimerStep(states[j - 1], steps[j - 1], q);
    }
  }

  lemma IssuedGrows(s: State, a: Step, q: int)
    requires Inv(s) && Enabled(s, a) && q in s.issued
    ensures q in Next(s, a).issued
  {
  }

  lemma {:induction false} StaysIssued(states: seq<State>, steps: seq<Step>, i: nat, j: nat)
    requires IsRun(states, steps) && i < j < |states| && steps[i].Create?
    ensures NumberOf(states[i]) in states[j].issued
    decreases j
  {
    hide Inv, Next, Enabled;
    InvRun(states, steps, j - 1);
    if j == i + 1 {
      CreateStep(states[i], steps[i]);
    } else {
      StaysIssued(states, steps, i, j - 1);
      IssuedGrows(states[j - 1], steps[j - 1], NumberOf(states[i]));
    }
  }

  // ----- Batches -----

  /** The entries of the batch are those its timers had when it was taken, and were due. */
  ghost predicate BatchDue(s: State) {
    s.phase.Running? ==>
      forall e | e in s.phase.expired ::
        e.timer in s.heap && s.heap[e.timer].expiration == e.when <= s.phase.now
  }

  lemma BatchDueNext(s: State, a: Step)
    requires Inv(s) && BatchDue(s) && Enabled(s, a)
    ensures BatchDue(Next(s, a))
  {
    var t := Next(s, a);
    match a
    case Cancel(id) =>
      if s.phase.Running? && id in s.active {
        CanceledIsNotInFlight(s, id);
      }
    case HandleAlarm(now) => AlarmTakesDue(s, now);
    case _ =>
  }

  lemma CanceledIsNotInFlight(s: State, id: TimerId)
    requires Inv(s) && id in s.active
    ensures id.timer !in InFlight(s)
  {
    assert Entry(s.heap[id.timer].expiration, id.timer) in s.timers;
    assert IsActive(s, id.timer);
  }

  lemma AlarmTakesDue(s: State, now: int)
    requires Inv(s) && s.phase.Idle? && now > 0
    ensures BatchDue(DoAlarm(s, now))
  {
    SentrySplits(s, now);
    var t := DoAlarm(s, now);
    forall e | e in t.phase.expired
      ensures e.timer in t.heap && t.heap[e.timer].expiration == e.when <= now
    {
      assert e in Due(s.timers, now);
    }
  }

  lemma {:induction false} BatchDueAlways(states: seq<State>, steps: seq<Step>, j: nat)
    requires IsRun(states, steps) && j < |states|
    ensures BatchDue(states[j])
  {
    hide Inv, Next, Enabled;
    if j > 0 {
      BatchDueAlways(states, steps, j - 1);
      InvRun(states, steps, j - 1);
      BatchDueNext(states[j - 1], steps[j - 1]);
    }
  }

  /** While a batch runs its list and its timers stay as they are. */
  lemma BatchStays(s: State, a: Step)
    requires Inv(s) && Enabled(s, a) && s.phase.Running? && !a.Finish?
    ensures var t := Next(s, a);
            && t.phase.Running? && t.phase.expired == s.phase.expired && t.phase.now == s.phase.now
            && t.phase.next == s.phase.next + (if a.RunNext? then 1 else 0)
            && forall p | p in InFlight(s) :: p in s.heap && p in t.heap && t.heap[p] == s.heap[p]
  {
    if a.Cancel? && a.id in s.active {
      CanceledIsNotInFlight(s, a.id);
    }
  }

  /** The callback of entry n of the batch that runs in state j was made in step h. */
  ghost predicate CalledInStep(states: seq<State>, steps: seq<Step>, j: nat, n: nat, h: nat)
    requires j < |states| == |steps| + 1 && states[j].phase.Running? && n < |states[j].phase.expired|
  {
    var p := states[j].phase.expired[n].timer;
    && h < j && p in states[j].heap && CallsBack(states[h], steps[h], states[j].heap[p].sequence)
  }

  lemma {:induction false} BatchSoFar(states: seq<State>, steps: seq<Step>, j: nat, n: nat)
    requires IsRun(states, steps) && j < |states| && states[j].phase.Running?
    requires n < states[j].phase.next && n < |states[j].phase.expired|
    ensures exists h: nat :: CalledInStep(states, steps, j, n, h)
  {
    hide Inv, Next, Enabled;
    assert j > 0;
    var s, a := states[j - 1], steps[j - 1];
    InvRun(states, steps, j - 1);
    InvRun(states, steps, j);
    RunningBefore(s, a);
    BatchStays(s, a);
    EntryIsInFlight(s, n);
    if n < s.phase.next {
      BatchSoFar(states, steps, j - 1, n);
      var h: nat :| CalledInStep(states, steps, j - 1, n, h);
      assert CalledInStep(states, steps, j, n, h);
    } else {
      assert CalledInStep(states, steps, j, n, j - 1);
    }
  }

  /** A batch that has begun was there before the step, unless the step is the alarm, which calls nobody. */
  lemma RunningBefore(s: State, a: Step)
    requires Inv(s) && Enabled(s, a) && Next(s, a).phase.Running? && Next(s, a).phase.next > 0
    ensures s.phase.Running? && !a.Finish?
  {
  }

  lemma EntryIsInFlight(s: State, n: nat)
    requires Inv(s) && s.phase.Running? && n < |s.phase.expired|
    ensures s.phase.expired[n].timer in InFlight(s) && s.phase.expired[n].timer in s.heap
  {
    assert s.phase.expired[n] in s.phase.expired;
  }

  /** In every run each timer of a batch has been called back when the batch ends. */
  lemma BatchRunsAll(states: seq<State>, steps: seq<Step>, k: nat, q: int)
    requires IsRun(states, steps) && k < |steps| && steps[k].Finish? && InBatch(states[k], q)
    ensures exists h :: 0 <= h < k && CallsBack(states[h], steps[h], q)
  {
    var s := states[k];
    var e :| e in s.phase.expired && e.timer == s.issued[q];
    var n :| 0 <= n < |s.phase.expired| && s.phase.expired[n] == e;
    BatchSoFar(states, steps, k, n);
    var h: nat :| CalledInStep(states, steps, k, n, h);
    assert CallsBack(states[h], steps[h], q);
  }

  // ----- From creation to the first callback -----

  lemma CallbackIsIssued(s: State, a: Step, q: int)
    requires Inv(s) && CallsBack(s, a, q)
    ensures Live(s, q) && s.issued[q] == Executing(s) && InBatch(s, q)
  {
    assert s.phase.expired[s.phase.next] in s.phase.expired;
  }

  /** Numbers are given in order. */
  lemma {:induction false} NotIssuedBefore(states: seq<State>, steps: seq<Step>, h: nat, i: nat)
    requires IsRun(states, steps) && h <= i < |states|
    ensures NumberOf(states[i]) !in states[h].issued
    decreases i - h
  {
    hide Next, Enabled;
    InvRun(states, steps, h);
    if h < i {
      NotIssuedBefore(states, steps, h + 1, i);
      if NumberOf(states[i]) in states[h].issued {
        IssuedGrows(states[h], steps[h], NumberOf(states[i]));
      }
    }
  }

  lemma NoBatchBeforeCallback(states: seq<State>, steps: seq<Step>, i: nat, j: nat)
    requires IsRun(states, steps) && i < j < |steps|
    requires forall k | i < k < j :: !CallsBack(states[k], steps[k], NumberOf(states[i]))
    ensures NoBatchEnded(states, steps, i, j, NumberOf(states[i]))
  {
    hide Inv, Next, Enabled;
    var q := NumberOf(states[i]);
    forall k | i < k < j ensures !(steps[k].Finish? && InBatch(states[k], q)) {
      if steps[k].Finish? && InBatch(states[k], q) {
        BatchRunsAll(states, steps, k, q);
        var h :| 0 <= h < k && CallsBack(states[h], steps[h], q);
        InvRun(states, steps, h);
        CallbackIsIssued(states[h], steps[h], q);
        if h <= i {
          NotIssuedBefore(states, steps, h, i);
        }
      }
    }
  }

  /** In every run the first callback of a timer comes in a batch taken at or after the time it was
      created for. */
  lemma FirstCallback(states: seq<State>, steps: seq<Step>, i: nat, j: nat)
    requires IsRun(states, steps) && i < j < |steps| && steps[i].Create?
    requires CallsBack(states[j], steps[j], NumberOf(states[i]))
    requires forall k | i < k < j :: !CallsBack(states[k], steps[k], NumberOf(states[i]))
    ensures states[j].phase.now >= steps[i].when
  {
    hide Next, Enabled;
    NoBatchBeforeCallback(states, steps, i, j);
    InvRun(states, steps, j);
    CallbackIsIssued(states[j], steps[j], NumberOf(states[i]));
    CreatedTimer(states, steps, i, j);
    BatchDueAlways(states, steps, j);
    assert states[j].phase.expired[states[j].phase.next] in states[j].phase.expired;
  }

  /** And the first alarm at or after that time takes it, if it has been added by then; an earlier alarm
      does not. */
  lemma FirstAlarm(states: seq<State>, steps: seq<Step>, i: nat, j: nat)
    requires IsRun(states, steps) && i < j < |steps| && steps[i].Create? && steps[j].HandleAlarm?
    requires InIndexes(states[j], NumberOf(states[i])) && NoBatchEnded(states, steps, i, j, NumberOf(states[i]))
    ensures InBatch(states[j + 1], NumberOf(states[i])) <==> steps[i].when <= steps[j].now
    ensures InIndexes(states[j + 1], NumberOf(states[i])) <==> steps[j].now < steps[i].when
  {
    InvRun(states, steps, j);
    InvRun(states, steps, j + 1);
    CreatedTimer(states, steps, i, j);
    AlarmSplits(states[j], steps[j].now, NumberOf(states[i]));
  }

  lemma AlarmSplits(s: State, now: int, q: int)
    requires Inv(s) && Enabled(s, HandleAlarm(now)) && InIndexes(s, q)
    ensures var t := Next(s, HandleAlarm(now));
            && (InBatch(t, q) <==> s.heap[s.issued[q]].expiration <= now)
            && (InIndexes(t, q) <==> now < s.heap[s.issued[q]].expiration)
  {
    var t, p := Next(s, HandleAlarm(now)), s.issued[q];
    var e := Entry(s.heap[p].expiration, p);
    assert IdOf(s, p) == TimerId(p, q);
    assert e in s.timers;
    SentrySplits(s, now);
    assert e in t.phase.expired <==> e.when <= now;
    assert forall x | x in s.timers && x.timer == p :: x == e;
    InvAlarm(s, now);
    if InBatch(t, q) {
      var x :| x in t.phase.expired && x.timer == p;
      assert x in Due(s.timers, now);
    } else {
      assert e !in t.phase.expired;
    }
    OnePlace(t, q);
  }

  // ----- The time of a batch -----

  /** phase.now is the time of the alarm that took the batch. */
  lemma {:induction false} BatchTime(states: seq<State>, steps: seq<Step>, h: nat, j: nat)
    requires IsRun(states, steps) && h < j < |states| && steps[h].HandleAlarm? && states[j].phase.Running?
    requires forall k | h < k < j :: !steps[k].HandleAlarm?
    ensures states[j].phase.now == steps[h].now
    decreases j
  {
    if j > h + 1 {
      BatchTime(states, steps, h, j - 1);
    }
  }

  /** In every run: nothing but its own cancellation during the batch keeps a repeating timer from being
      scheduled again, one interval after the time of the alarm; any other timer is freed. */
  lemma RepeatsAfterAlarm(states: seq<State>, steps: seq<Step>, h: nat, j: nat, p: Ptr)
    requires IsRun(states, steps) && h < j < |steps| && steps[j].Finish?
    requires steps[h].HandleAlarm? && forall k | h < k < j :: !steps[k].HandleAlarm?
    requires p in InFlight(states[j]) && p in states[j].heap
    requires forall k | h < k < j :: steps[k] != Cancel(IdOf(states[j], p))
    ensures var s, t := states[j], states[j + 1];
            if s.heap[p].repeat
            then && p in t.heap && t.heap[p] == s.heap[p].(expiration := steps[h].now + s.heap[p].interval)
                 && Entry(steps[h].now + s.heap[p].interval, p) in t.timers && IdOf(s, p) in t.active
            else Freed(t, s.heap[p].sequence)
  {
    hide Next, Inv, Freed;
    BatchTime(states, steps, h, j);
    UncanceledTimerRepeats(states, steps, h, j, p);
  }

  // ----- cancelingTimers_ -----

  /** Cancelled since the last alarm, while a batch ran and the timer was not active. */
  ghost predicate Marked(states: seq<State>, steps: seq<Step>, j: nat, id: TimerId)
    requires IsRun(states, steps) && j <= |steps|
  {
    j > 0 && !steps[j - 1].HandleAlarm? &&
    (|| Marked(states, steps, j - 1, id)
     || (steps[j - 1] == Cancel(id) && states[j - 1].phase.Running? && id !in states[j - 1].active))
  }

  lemma MarkStep(s: State, a: Step, id: TimerId)
    requires Inv(s) && Enabled(s, a)
    ensures id in Next(s, a).canceling <==>
              !a.HandleAlarm? && (id in s.canceling || (a == Cancel(id) && s.phase.Running? && id !in s.active))
  {
  }

  /** In every run cancelingTimers_ holds exactly the ids marked so. */
  lemma {:induction false} CancelingExactly(states: seq<State>, steps: seq<Step>, j: nat, id: TimerId)
    requires IsRun(states, steps) && j < |states|
    ensures id in states[j].canceling <==> Marked(states, steps, j, id)
  {
    hide Inv, Next, Enabled;
    if j > 0 {
      CancelingExactly(states, steps, j - 1, id);
      InvRun(states, steps, j - 1);
      MarkStep(states[j - 1], steps[j - 1], id);
    }
  }

  // ----- The alarm, exactly -----

  /** When an alarm set at `clock` for `when` goes off. */
  predicate SetFor(alarm: Option<Alarm>, when: int, clock: int) {
    alarm == Some(Alarm(if when < clock + 100 then clock + 100 else when, clock))
  }

  /** In every run the timerfd is set exactly by adding a timer earlier than all others, for that timer,
      and by the end of a batch, for the earliest timer left unless that is the zero timestamp; an alarm
      uses it up and nothing else touches it. */
  lemma AlarmSetExactly(states: seq<State>, steps: seq<Step>, i: nat)
    requires IsRun(states, steps) && i < |steps|
    ensures var s, t := states[i], states[i + 1];
            match steps[i]
            case AddInLoop(p, clock) =>
              if forall e | e in s.timers :: s.heap[p].expiration < e.when
              then SetFor(t.alarm, s.heap[p].expiration, clock) else t.alarm == s.alarm
            case HandleAlarm(_) => t.alarm == None
            case Finish(clock) =>
              if t.timers != {} && Min(t.timers).when != 0
              then SetFor(t.alarm, Min(t.timers).when, clock) else t.alarm == s.alarm
            case _ => t.alarm == s.alarm
  {
    hide AfterReset, Ordered, Due, IdsOf;
    match steps[i]
    case Finish(clock) => FinishSetsAlarm(states[i], clock);
    case AddInLoop(p, clock) => ResetTimerfdExactly(states[i].heap[p].expiration, clock);
    case _ =>
  }

  lemma ResetTimerfdExactly(when: int, clock: int)
    ensures SetFor(Some(ResetTimerfd(when, clock)), when, clock)
  {
  }

  lemma FinishSetsAlarm(s: State, clock: int)
    requires s.phase.Running?
    ensures var t := DoFinish(s, clock);
            if t.timers != {} && Min(t.timers).when != 0
            then SetFor(t.alarm, Min(t.timers).when, clock) else t.alarm == s.alarm
  {
    var t := AfterReset(s);
    if t.timers != {} {
      ResetTimerfdExactly(Min(t.timers).when, clock);
    }
    hide ResetTimerfd, Min;
  }
}
