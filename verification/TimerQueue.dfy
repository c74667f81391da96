/** net/TimerQueue.cc as a step machine.

    The loop thread's calls (addTimerInLoop, cancelInLoop, the timerfd alarm, each user
    callback, the end of handleRead) and the creation of a Timer by any thread are the
    steps. A callback's own additions and cancellations are the steps between two RunNext
    steps, so every run covers every re-entrant callback. Timer objects live in an explicit
    heap of addresses: deleting one removes its address, and a later `new` may reuse it. */
module TimerMachine {
  import opened Common

  const UINTPTR_MAX: nat := 0xffff_ffff_ffff_ffff

  /** Addresses handed out by `new`; the sentry's UINTPTR_MAX is not one of them. */
  type Ptr = p: nat | p < UINTPTR_MAX

  /** Times are microseconds since the epoch; `repeat` is interval > 0.0 and `interval` its
      truncation to microseconds, which may be 0. */
  datatype Timer = Timer(expiration: int, interval: int, repeat: bool, sequence: nat)

  datatype Entry = Entry(when: int, timer: nat)
  datatype TimerId = TimerId(timer: nat, sequence: int)

  /** The one-shot timerfd: it becomes readable at `at`, and was set at `setAt`. */
  datatype Alarm = Alarm(at: int, setAt: int)

  /** Running is the stretch of handleRead in which callbacks run (callingExpiredTimers_). */
  datatype Phase = Idle | Running(expired: seq<Entry>, next: nat, now: int)

  datatype State = State(
    heap: map<Ptr, Timer>,        // live Timer objects
    timers: set<Entry>,           // timers_
    active: set<TimerId>,         // activeTimers_
    canceling: set<TimerId>,      // cancelingTimers_
    phase: Phase,
    queued: set<Ptr>,             // created, but addTimerInLoop has not run yet
    issued: map<int, Ptr>,        // every sequence number given out, with its address
    alarm: Option<Alarm>)

  datatype Step =
    | Create(timer: Ptr, when: int, interval: int, repeat: bool)
    | AddInLoop(timer: Ptr, clock: int)
    | Cancel(id: TimerId)
    | HandleAlarm(now: int)
    | RunNext
    | Finish(clock: int)

  const Init: State := State(map[], {}, {}, {}, Idle, {}, map[], None)

  // ----- std::set<Entry>: ordered by time, then address -----

  predicate Less(a: Entry, b: Entry) {
    a.when < b.when || (!(b.when < a.when) && a.timer < b.timer)
  }

  ghost predicate IsMin(m: Entry, s: set<Entry>) {
    m in s && forall e | e in s :: e == m || Less(m, e)
  }

  /** xs lists s in the set's iteration order. */
  ghost predicate Lists(xs: seq<Entry>, s: set<Entry>) {
    && (forall e :: e in xs <==> e in s)
    && (forall i, j | 0 <= i < j < |xs| :: Less(xs[i], xs[j]))
  }

  lemma {:induction false} MinExists(s: set<Entry>)
    requires s != {}
    ensures exists m :: IsMin(m, s)
    decreases |s|
  {
    var x :| x in s;
    var rest := s - {x};
    assert forall e | e in s :: e == x || e in rest;
    if rest == {} {
      assert IsMin(x, s);
    } else {
      MinExists(rest);
      var m :| IsMin(m, rest);
      var best := if Less(m, x) then m else x;
      assert IsMin(best, s);
    }
  }

  ghost function Min(s: set<Entry>): (m: Entry)
    requires s != {}
    ensures IsMin(m, s)
  {
    MinExists(s);
    var m :| IsMin(m, s);
    m
  }

  ghost function Ordered(s: set<Entry>): (xs: seq<Entry>)
    ensures Lists(xs, s)
    decreases |s|
  {
    if s == {} then [] else
      var m := Min(s);
      [m] + Ordered(s - {m})
  }

  // ----- timerfd -----

  datatype Timespec = Timespec(sec: int, nsec: int)

  function HowMuchTimeFromNow(when: int, now: int): (ts: Timespec)
    ensures 0 <= ts.nsec < 1_000_000_000
    ensures ts.nsec % 1000 == 0
    ensures ts.sec * 1_000_000 + ts.nsec / 1000 == if when - now < 100 then 100 else when - now
    // a zero it_value would disarm the timerfd
    ensures ts != Timespec(0, 0)
  {
    var microseconds := if when - now < 100 then 100 else when - now;
    Timespec(microseconds / 1_000_000, (microseconds % 1_000_000) * 1000)
  }

  function ResetTimerfd(expiration: int, clock: int): Alarm {
    var ts := HowMuchTimeFromNow(expiration, clock);
    Alarm(clock + ts.sec * 1_000_000 + ts.nsec / 1000, clock)
  }

  // ----- Steps -----

  function IdOf(s: State, p: Ptr): TimerId
    requires p in s.heap
  {
    TimerId(p, s.heap[p].sequence)
  }

  function Restarted(t: Timer, now: int): Timer { t.(expiration := now + t.interval) }

  ghost predicate EarliestChanged(s: State, when: int) {
    forall e | e in s.timers :: when < e.when
  }

  function Insert(s: State, p: Ptr): State
    requires p in s.heap
  {
    s.(timers := s.timers + {Entry(s.heap[p].expiration, p)}, active := s.active + {IdOf(s, p)})
  }

  /** The ids of the live timers among some entries. */
  function IdsOf(s: State, entries: set<Entry>): set<TimerId> {
    set e | e in entries && e.timer in s.heap :: IdOf(s, e.timer)
  }

  /** The entries getExpired takes: those below the sentry. */
  function Due(timers: set<Entry>, now: int): set<Entry> {
    set e | e in timers && Less(e, Entry(now, UINTPTR_MAX))
  }

  function Addresses(entries: seq<Entry>): set<nat> { set e | e in entries :: e.timer }

  function InFlight(s: State): set<nat> {
    if s.phase.Idle? then {} else Addresses(s.phase.expired)
  }

  /** In-flight timers that reset() inserts again. */
  function Kept(s: State): (kept: set<Ptr>)
    ensures forall p | p in kept :: p in s.heap && p in InFlight(s)
  {
    set p | p in s.heap && p in InFlight(s) && s.heap[p].repeat && IdOf(s, p) !in s.canceling
  }

  function KeptOf(s: State, done: set<nat>): (kept: set<Ptr>)
    ensures kept <= s.heap.Keys
  {
    set p | p in Kept(s) && p in done
  }

  /** The timers in `done` deleted, except those in `kept`, which start again from `now`. */
  function Recycle(s: State, done: set<nat>, kept: set<Ptr>, now: int): State
    requires kept <= s.heap.Keys
  {
    s.(heap := map p | p in s.heap && (p !in done || p in kept)
                 :: if p in kept then Restarted(s.heap[p], now) else s.heap[p],
       timers := s.timers + (set p | p in kept :: Entry(now + s.heap[p].interval, p)),
       active := s.active + (set p | p in kept :: IdOf(s, p)))
  }

  /** reset() once it has handled the in-flight timers in `done`. */
  function ResetSome(s: State, done: set<nat>): State
    requires s.phase.Running?
  {
    Recycle(s, done, KeptOf(s, done), s.phase.now)
  }

  function AfterReset(s: State): State
    requires s.phase.Running?
  {
    ResetSome(s, InFlight(s)).(phase := Idle)
  }

  ghost predicate Enabled(s: State, a: Step) {
    match a
    case Create(p, _, interval, repeat) => p !in s.heap && (repeat ==> interval >= 0)
    case AddInLoop(p, _) => p in s.queued && p in s.heap
    case Cancel(_) => true
    case HandleAlarm(now) => s.phase.Idle? && now > 0
    case RunNext => s.phase.Running? && s.phase.next < |s.phase.expired|
    case Finish(_) => s.phase.Running? && s.phase.next == |s.phase.expired|
  }

  function DoCreate(s: State, p: Ptr, when: int, interval: int, repeat: bool): State {
    var q := |s.issued| + 1;
    s.(heap := s.heap[p := Timer(when, interval, repeat, q)], queued := s.queued + {p}, issued := s.issued[q := p])
  }

  ghost function DoAdd(s: State, p: Ptr, clock: int): State
    requires p in s.heap
  {
    Insert(s, p).(queued := s.queued - {p},
                  alarm := if EarliestChanged(s, s.heap[p].expiration)
                           then Some(ResetTimerfd(s.heap[p].expiration, clock)) else s.alarm)
  }

  function DoCancel(s: State, id: TimerId): State {
    if id in s.active && id.timer in s.heap then
      s.(timers := s.timers - {Entry(s.heap[id.timer].expiration, id.timer)},
         active := s.active - {id},
         heap := s.heap - {id.timer})
    else if s.phase.Running? then s.(canceling := s.canceling + {id})
    else s
  }

  ghost function DoAlarm(s: State, now: int): State {
    var due := Due(s.timers, now);
    s.(timers := s.timers - due,
       active := s.active - IdsOf(s, due),
       canceling := {},
       phase := Running(Ordered(due), 0, now),
       alarm := None)
  }

  ghost function DoFinish(s: State, clock: int): State
    requires s.phase.Running?
  {
    var t := AfterReset(s);
    t.(alarm := if t.timers != {} && Min(t.timers).when != 0
                then Some(ResetTimerfd(Min(t.timers).when, clock)) else t.alarm)
  }

  ghost function Next(s: State, a: Step): State
    requires Enabled(s, a)
  {
    match a
    case Create(p, when, interval, repeat) => DoCreate(s, p, when, interval, repeat)
    case AddInLoop(p, clock) => DoAdd(s, p, clock)
    case Cancel(id) => DoCancel(s, id)
    case HandleAlarm(now) => DoAlarm(s, now)
    case RunNext => s.(phase := s.phase.(next := s.phase.next + 1))
    case Finish(clock) => DoFinish(s, clock)
  }

  // ----- Invariant -----

  ghost predicate IndexesAgree(s: State) {
    && (forall id | id in s.active :: id.timer in s.heap && id == IdOf(s, id.timer)
                                      && Entry(s.heap[id.timer].expiration, id.timer) in s.timers)
    && (forall e | e in s.timers :: e.timer in s.heap && e.when == s.heap[e.timer].expiration
                                    && IdOf(s, e.timer) in s.active)
  }

  predicate IsActive(s: State, p: nat) { exists e :: e in s.timers && e.timer == p }

  /** A live timer is active, in flight or queued, and only one of them. */
  ghost predicate Partitioned(s: State) {
    && (forall p | p in s.heap :: IsActive(s, p) || p in InFlight(s) || p in s.queued)
    && (forall p | p in InFlight(s) :: p in s.heap && p !in s.queued && !IsActive(s, p))
    && (forall p | p in s.queued :: p in s.heap && !IsActive(s, p))
  }

  ghost predicate BatchDistinct(s: State) {
    s.phase.Running? ==>
      && s.phase.next <= |s.phase.expired|
      && s.phase.now > 0
      && (forall i, j | 0 <= i < j < |s.phase.expired| :: s.phase.expired[i].timer != s.phase.expired[j].timer)
  }

  /** Sequence numbers are 1, 2, ..., each issued once, and a live timer's number is its own. */
  ghost predicate SequencesUnique(s: State) {
    && (forall q :: q in s.issued <==> 1 <= q <= |s.issued|)
    && (forall p | p in s.heap :: s.heap[p].sequence in s.issued && s.issued[s.heap[p].sequence] == p)
    && (forall p | p in s.heap :: s.heap[p].repeat ==> s.heap[p].interval >= 0)
  }

  predicate ArmedFor(s: State, when: int) {
    && s.alarm.Some?
    && (s.alarm.value.at <= when || s.alarm.value.at <= s.alarm.value.setAt + 100)
  }

  /** Between handler calls every active timer has an alarm due in time for it. While callbacks
      run, only timers at or before the epoch need one: reset() skips them when it re-arms. */
  ghost predicate AlarmSet(s: State) {
    forall e | e in s.timers :: s.phase.Idle? || e.when <= 0 ==> ArmedFor(s, e.when)
  }

  ghost predicate Inv(s: State) {
    IndexesAgree(s) && Partitioned(s) && BatchDistinct(s) && SequencesUnique(s) && AlarmSet(s)
  }

  lemma SequencesCreate(s: State, p: Ptr, when: int, interval: int, repeat: bool)
    requires SequencesUnique(s) && p !in s.heap && (repeat ==> interval >= 0)
    ensures SequencesUnique(DoCreate(s, p, when, interval, repeat))
    ensures |s.issued| + 1 !in s.issued && |DoCreate(s, p, when, interval, repeat).issued| == |s.issued| + 1
  {
    var q := |s.issued| + 1;
    assert q !in s.issued;
    assert |s.issued[q := p]| == |s.issued| + 1;
  }

  lemma CreateKeepsIndexes(s: State, p: Ptr, when: int, interval: int, repeat: bool)
    requires IndexesAgree(s) && AlarmSet(s) && BatchDistinct(s) && p !in s.heap
    ensures var t := DoCreate(s, p, when, interval, repeat); IndexesAgree(t) && AlarmSet(t) && BatchDistinct(t)
  {
  }

  lemma InvCreate(s: State, p: Ptr, when: int, interval: int, repeat: bool)
    requires Inv(s) && p !in s.heap && (repeat ==> interval >= 0)
    ensures Inv(DoCreate(s, p, when, interval, repeat))
  {
    SequencesCreate(s, p, when, interval, repeat);
    CreateKeepsIndexes(s, p, when, interval, repeat);
    CreateKeepsPlaces(s, p, when, interval, repeat);
    hide SequencesUnique, AlarmSet, BatchDistinct, IndexesAgree, Partitioned, DoCreate;
  }

  lemma CreateKeepsPlaces(s: State, p: Ptr, when: int, interval: int, repeat: bool)
    requires IndexesAgree(s) && Partitioned(s) && p !in s.heap
    ensures Partitioned(DoCreate(s, p, when, interval, repeat))
  {
    var t := DoCreate(s, p, when, interval, repeat);
    assert !IsActive(s, p);
    SameActive(s, t);
    assert InFlight(t) == InFlight(s);
    hide IndexesAgree, IsActive;
  }

  lemma SameActive(s: State, t: State)
    requires t.timers == s.timers
    ensures forall x: nat :: IsActive(t, x) == IsActive(s, x)
  {
  }

  lemma AlarmAfterAdd(s: State, p: Ptr, clock: int)
    requires Inv(s) && p in s.heap && p in s.queued
    ensures AlarmSet(DoAdd(s, p, clock))
  {
    var t := DoAdd(s, p, clock);
    var when := s.heap[p].expiration;
    forall e | e in t.timers && (t.phase.Idle? || e.when <= 0) ensures ArmedFor(t, e.when) {
      if !EarliestChanged(s, when) && e == Entry(when, p) {
        var f :| f in s.timers && f.when <= when;
        assert ArmedFor(s, f.when);
      }
    }
  }

  lemma InsertIndexes(s: State, p: Ptr)
    requires IndexesAgree(s) && p in s.heap
    ensures IndexesAgree(Insert(s, p))
    ensures forall x: nat :: IsActive(Insert(s, p), x) <==> IsActive(s, x) || x == p
  {
    var t := Insert(s, p);
    assert Entry(s.heap[p].expiration, p) in t.timers;
    forall x: nat ensures IsActive(t, x) <==> IsActive(s, x) || x == p {
      if IsActive(s, x) {
        var e :| e in s.timers && e.timer == x;
        assert e in t.timers;
      }
    }
  }

  lemma InvAdd(s: State, p: Ptr, clock: int)
    requires Inv(s) && p in s.heap && p in s.queued
    ensures Inv(DoAdd(s, p, clock))
  {
    var t := DoAdd(s, p, clock);
    AlarmAfterAdd(s, p, clock);
    InsertIndexes(s, p);
    hide AlarmSet, SequencesUnique;
    var r := Insert(s, p);
    assert InFlight(t) == InFlight(s);
    assert forall x: nat :: IsActive(t, x) == IsActive(r, x);
    assert IndexesAgree(t);
    SameSequences(s, t);
    hide IsActive, IndexesAgree;
  }

  lemma SameSequences(s: State, t: State)
    requires SequencesUnique(s) && t.heap == s.heap && t.issued == s.issued
    ensures SequencesUnique(t)
  {
  }

  lemma CancelIndexes(s: State, id: TimerId)
    requires IndexesAgree(s) && id in s.active
    ensures IndexesAgree(DoCancel(s, id)) && IsActive(s, id.timer)
    ensures forall x: nat :: IsActive(DoCancel(s, id), x) <==> IsActive(s, x) && x != id.timer
  {
    var t := DoCancel(s, id);
    var e := Entry(s.heap[id.timer].expiration, id.timer);
    assert forall x | x in s.timers && x.timer == id.timer :: x == e;
    forall x: nat ensures IsActive(t, x) <==> IsActive(s, x) && x != id.timer {
      if IsActive(s, x) && x != id.timer {
        var y :| y in s.timers && y.timer == x;
        assert y in t.timers;
      }
    }
    assert e in s.timers;
  }

  lemma CancelSequences(s: State, id: TimerId)
    requires SequencesUnique(s) && AlarmSet(s)
    ensures SequencesUnique(DoCancel(s, id)) && AlarmSet(DoCancel(s, id))
  {
  }

  lemma InvCancel(s: State, id: TimerId)
    requires Inv(s)
    ensures Inv(DoCancel(s, id))
  {
    CancelSequences(s, id);
    hide SequencesUnique, AlarmSet;
    if id in s.active {
      CancelKeepsPlaces(s, id);
    } else {
      OnlyCanceling(s, DoCancel(s, id));
    }
    hide IndexesAgree, Partitioned;
  }

  lemma CancelKeepsPlaces(s: State, id: TimerId)
    requires IndexesAgree(s) && Partitioned(s) && id in s.active
    ensures IndexesAgree(DoCancel(s, id)) && Partitioned(DoCancel(s, id))
  {
    CancelIndexes(s, id);
    assert InFlight(DoCancel(s, id)) == InFlight(s);
    assert id.timer in s.heap;
    hide IndexesAgree, IsActive, InFlight;
  }

  lemma OnlyCanceling(s: State, t: State)
    requires IndexesAgree(s) && Partitioned(s) && t == s.(canceling := t.canceling)
    ensures IndexesAgree(t) && Partitioned(t)
  {
    SameActive(s, t);
    assert InFlight(t) == InFlight(s);
    hide IsActive, InFlight;
  }

  /** The sentry splits timers_ exactly at `now`. */
  lemma SentrySplits(s: State, now: int)
    requires IndexesAgree(s)
    ensures Due(s.timers, now) == set e | e in s.timers && e.when <= now
  {
  }

  lemma InvAlarm(s: State, now: int)
    requires Inv(s) && s.phase.Idle? && now > 0
    ensures Inv(DoAlarm(s, now))
  {
    var t := DoAlarm(s, now);
    var due := Due(s.timers, now);
    SentrySplits(s, now);
    forall p: nat ensures IsActive(s, p) <==> IsActive(t, p) || p in InFlight(t) {
      if IsActive(s, p) {
        var e :| e in s.timers && e.timer == p;
        if e in due {
          assert e in t.phase.expired;
        } else {
          assert e in t.timers;
        }
      }
    }
    forall e | e in t.timers ensures IdOf(t, e.timer) in t.active {
      assert IdOf(s, e.timer) in s.active;
    }
    forall p | p in InFlight(t) ensures !IsActive(t, p) {
      var e :| e in t.phase.expired && e.timer == p;
      assert e in due;
    }
    var xs := t.phase.expired;
    forall i, j | 0 <= i < j < |xs| ensures xs[i].timer != xs[j].timer {
      assert xs[i] in due && xs[j] in due;
      assert Less(xs[i], xs[j]);
    }
  }

  lemma InvRunNext(s: State)
    requires Inv(s) && Enabled(s, RunNext)
    ensures Inv(Next(s, RunNext))
  {
    var t := Next(s, RunNext);
    assert InFlight(t) == InFlight(s);
    assert forall p: nat :: IsActive(t, p) == IsActive(s, p);
  }

  lemma ResetSomeIndexes(s: State, done: set<nat>)
    requires Inv(s) && s.phase.Running? && done <= InFlight(s)
    ensures IndexesAgree(ResetSome(s, done))
    ensures forall p: nat :: IsActive(ResetSome(s, done), p) <==> IsActive(s, p) || (p in Kept(s) && p in done)
  {
    var t := ResetSome(s, done);
    assert forall p | p in Kept(s) :: !IsActive(s, p);
    forall p: nat ensures IsActive(t, p) <==> IsActive(s, p) || (p in Kept(s) && p in done) {
      if IsActive(s, p) {
        var e :| e in s.timers && e.timer == p;
        assert e in t.timers;
      } else if p in Kept(s) && p in done {
        assert Entry(s.phase.now + s.heap[p].interval, p) in t.timers;
      }
    }
    forall e | e in t.timers
      ensures e.timer in t.heap && e.when == t.heap[e.timer].expiration && IdOf(t, e.timer) in t.active
    {
      if e in s.timers {
        assert IsActive(s, e.timer);
        assert IdOf(t, e.timer) == IdOf(s, e.timer);
      } else {
        assert e.timer in Kept(s) && IdOf(t, e.timer) == IdOf(s, e.timer);
      }
    }
    forall id | id in t.active
      ensures id.timer in t.heap && id == IdOf(t, id.timer) && Entry(t.heap[id.timer].expiration, id.timer) in t.timers
    {
      if id in s.active {
        assert IsActive(s, id.timer);
      }
    }
  }

  lemma AfterResetIndexes(s: State)
    requires Inv(s) && s.phase.Running?
    ensures IndexesAgree(AfterReset(s)) && Partitioned(AfterReset(s)) && SequencesUnique(AfterReset(s))
  {
    var r := ResetSome(s, InFlight(s));
    ResetSomeIndexes(s, InFlight(s));
    var t := AfterReset(s);
    assert forall p: nat :: IsActive(t, p) == IsActive(r, p);
    assert IndexesAgree(t);
  }

  lemma InvFinish(s: State, clock: int)
    requires Inv(s) && s.phase.Running?
    ensures Inv(DoFinish(s, clock))
  {
    var r := AfterReset(s);
    var t := DoFinish(s, clock);
    AfterResetIndexes(s);
    AlarmAfterFinish(s, clock);
    hide AlarmSet, SequencesUnique, AfterReset;
    SameIndexes(r, t);
    SameSequences(r, t);
  }

  lemma SameIndexes(s: State, t: State)
    requires IndexesAgree(s) && Partitioned(s) && t == s.(alarm := t.alarm)
    ensures IndexesAgree(t) && Partitioned(t)
  {
    assert InFlight(t) == InFlight(s);
    assert forall p: nat :: IsActive(t, p) == IsActive(s, p);
  }

  lemma AlarmAfterFinish(s: State, clock: int)
    requires Inv(s) && s.phase.Running?
    ensures AlarmSet(DoFinish(s, clock))
  {
    hide Partitioned, IndexesAgree;
    var t := DoFinish(s, clock);
    if t.timers != {} {
      var m := Min(t.timers);
      if m.when == 0 {
        // restarted timers expire after `now`, so the timer at the epoch was added by a callback
        assert m in s.timers;
      }
      forall e | e in t.timers ensures ArmedFor(t, e.when) {
        assert e == m || Less(m, e);
      }
    }
  }

  lemma InvNext(s: State, a: Step)
    requires Inv(s) && Enabled(s, a)
    ensures Inv(Next(s, a))
  {
    hide Inv;
    match a
    case Create(p, when, interval, repeat) => InvCreate(s, p, when, interval, repeat);
    case AddInLoop(p, clock) => InvAdd(s, p, clock);
    case Cancel(id) => InvCancel(s, id);
    case HandleAlarm(now) => InvAlarm(s, now);
    case RunNext => InvRunNext(s);
    case Finish(clock) => InvFinish(s, clock);
  }
}

/** Properties of whole runs. */
module TimerRuns {
  import opened Common
  import opened TimerMachine

  ghost predicate IsPath(states: seq<State>, steps: seq<Step>) {
    && |states| == |steps| + 1
    && forall i | 0 <= i < |steps| :: Enabled(states[i], steps[i]) && states[i + 1] == Next(states[i], steps[i])
  }

  ghost predicate IsRun(states: seq<State>, steps: seq<Step>) {
    IsPath(states, steps) && states[0] == Init
  }

  lemma {:induction false} InvAlways(states: seq<State>, steps: seq<Step>, i: nat)
    requires IsPath(states, steps) && Inv(states[0]) && i < |states|
    ensures Inv(states[i])
  {
    if i > 0 {
      InvAlways(states, steps, i - 1);
      InvNext(states[i - 1], steps[i - 1]);
    }
  }

  lemma InvRun(states: seq<State>, steps: seq<Step>, i: nat)
    requires IsRun(states, steps) && i < |states|
    ensures Inv(states[i])
  {
    InvAlways(states, steps, i);
  }

  // ----- One place per timer -----

  /** The live timer carrying sequence number q, if any, is where it was created. */
  predicate Live(s: State, q: int) {
    q in s.issued && s.issued[q] in s.heap && s.heap[s.issued[q]].sequence == q
  }

  predicate InQueue(s: State, q: int) { Live(s, q) && s.issued[q] in s.queued }
  predicate InIndexes(s: State, q: int) { Live(s, q) && TimerId(s.issued[q], q) in s.active }
  predicate InBatch(s: State, q: int) { Live(s, q) && s.issued[q] in InFlight(s) }
  predicate Freed(s: State, q: int) { q in s.issued && !Live(s, q) }

  lemma {:induction false} ImageSize(s: State, part: set<Entry>)
    requires IndexesAgree(s) && part <= s.timers
    ensures |set e | e in part :: IdOf(s, e.timer)| == |part|
    decreases |part|
  {
    if part != {} {
      var x :| x in part;
      var rest := part - {x};
      ImageSize(s, rest);
      var image := set e | e in rest :: IdOf(s, e.timer);
      assert (set e | e in part :: IdOf(s, e.timer)) == image + {IdOf(s, x.timer)};
      assert IdOf(s, x.timer) !in image;
    }
  }

  lemma SameSize(s: State)
    requires IndexesAgree(s)
    ensures |s.timers| == |s.active|
  {
    ImageSize(s, s.timers);
    var image := set e | e in s.timers :: IdOf(s, e.timer);
    forall id | id in s.active ensures id in image {
      assert Entry(s.heap[id.timer].expiration, id.timer) in s.timers;
    }
    assert image == s.active;
  }

  /** In every state of every run the two indexes hold the same timers, a timer of the batch is in
      neither, and every timer ever created is in exactly one place: none is lost or freed twice. */
  lemma TimersAccountedFor(states: seq<State>, steps: seq<Step>, i: nat)
    requires IsRun(states, steps) && i < |states|
    ensures var s := states[i];
            && (forall p | p in s.heap :: Entry(s.heap[p].expiration, p) in s.timers <==> IdOf(s, p) in s.active)
            && |s.timers| == |s.active|
            && (forall p | p in InFlight(s) :: p in s.heap && !IsActive(s, p) && IdOf(s, p) !in s.active)
            && (forall q | q in s.issued ::
                  Bit(InQueue(s, q)) + Bit(InIndexes(s, q)) + Bit(InBatch(s, q)) + Bit(Freed(s, q)) == 1)
            && (forall p | p in s.heap :: Live(s, s.heap[p].sequence) && s.issued[s.heap[p].sequence] == p)
  {
    InvAlways(states, steps, i);
    var s := states[i];
    SameSize(s);
    forall p | p in InFlight(s) ensures IdOf(s, p) !in s.active {
      if IdOf(s, p) in s.active {
        assert Entry(s.heap[p].expiration, p) in s.timers;
        assert IsActive(s, p);
      }
    }
    forall q | q in s.issued
      ensures Bit(InQueue(s, q)) + Bit(InIndexes(s, q)) + Bit(InBatch(s, q)) + Bit(Freed(s, q)) == 1
    {
      OnePlace(s, q);
    }
  }

  lemma OnePlace(s: State, q: int)
    requires Inv(s) && q in s.issued
    ensures Bit(InQueue(s, q)) + Bit(InIndexes(s, q)) + Bit(InBatch(s, q)) + Bit(Freed(s, q)) == 1
  {
    if Live(s, q) {
      var p := s.issued[q];
      assert IdOf(s, p) == TimerId(p, q);
      if IsActive(s, p) {
        var e :| e in s.timers && e.timer == p;
        assert TimerId(p, q) in s.active;
      } else {
        assert Entry(s.heap[p].expiration, p) !in s.timers;
      }
    }
  }

  lemma FreedStays(s: State, a: Step, q: int)
    requires Inv(s) && Enabled(s, a) && Freed(s, q)
    ensures Freed(Next(s, a), q)
  {
    if a.Create? {
      assert |s.issued| + 1 !in s.issued;
    }
  }

  lemma {:induction false} FreedForever(states: seq<State>, steps: seq<Step>, i: nat, j: nat, q: int)
    requires IsPath(states, steps) && Inv(states[0]) && i <= j < |states| && Freed(states[i], q)
    ensures Freed(states[j], q)
    decreases j
  {
    hide Inv, Next, Enabled, Freed;
    if i < j {
      FreedForever(states, steps, i, j - 1, q);
      InvAlways(states, steps, j - 1);
      FreedStays(states[j - 1], steps[j - 1], q);
    }
  }

  // ----- Which timers run -----

  /** The timer that a RunNext step calls back. */
  function Executing(s: State): nat
    requires s.phase.Running? && s.phase.next < |s.phase.expired|
  {
    s.phase.expired[s.phase.next].timer
  }

  /** The step calls back the timer with sequence number q. */
  predicate CallsBack(s: State, a: Step, q: int) {
    && a.RunNext? && s.phase.Running? && s.phase.next < |s.phase.expired|
    && Executing(s) in s.heap && s.heap[Executing(s)].sequence == q
  }

  /** handleRead never calls a deleted timer. */
  lemma RunsLiveTimers(states: seq<State>, steps: seq<Step>, i: nat)
    requires IsRun(states, steps) && i < |steps| && steps[i].RunNext?
    ensures Executing(states[i]) in states[i].heap
    ensures exists q :: q in states[i].issued && CallsBack(states[i], steps[i], q)
  {
    InvAlways(states, steps, i);
    assert states[i].phase.expired[states[i].phase.next] in states[i].phase.expired;
  }

  /** An alarm at `now` takes exactly the timers that expired by then, in (expiration, address) order. */
  lemma AlarmTakesExpired(states: seq<State>, steps: seq<Step>, i: nat)
    requires IsRun(states, steps) && i < |steps| && steps[i].HandleAlarm?
    ensures var s, t, now := states[i], states[i + 1], steps[i].now;
            && t.phase.Running? && t.phase.next == 0 && t.phase.now == now
            && Lists(t.phase.expired, set e | e in s.timers && e.when <= now)
            && t.timers == (set e | e in s.timers && now < e.when)
            && (forall id | id in s.active ::
                  id.timer in s.heap && (id in t.active <==> s.heap[id.timer].expiration > now))
  {
    InvAlways(states, steps, i);
    var s, t, now := states[i], states[i + 1], steps[i].now;
    SentrySplits(s, now);
    forall id | id in s.active ensures id in t.active <==> s.heap[id.timer].expiration > now {
      var e := Entry(s.heap[id.timer].expiration, id.timer);
      assert e in s.timers;
      assert forall x | x in s.timers && IdOf(s, x.timer) == id :: x == e;
    }
  }

  // ----- Cancellation -----

  /** An id addTimer returned. */
  predicate Genuine(s: State, id: TimerId) { id.sequence in s.issued && s.issued[id.sequence] == id.timer }

  /** Cancelled while its batch runs: reset() will not restart it. */
  predicate Doomed(s: State, id: TimerId) {
    s.phase.Running? && Genuine(s, id) && id in s.canceling && InBatch(s, id.sequence)
  }

  lemma CancelTakesHold(s: State, id: TimerId)
    requires Inv(s) && Genuine(s, id) && !InQueue(s, id.sequence)
    ensures var t := Next(s, Cancel(id));
            Freed(t, id.sequence) || (s.phase.Running? && Doomed(t, id))
  {
    OnePlace(s, id.sequence);
  }

  /** A cancel ends its timer, at once or with the running batch, exactly if the timer's addition is not
      still queued; otherwise it has no effect at all (StaleCancelIsInvisible). */
  lemma CancelTakesHoldExactly(states: seq<State>, steps: seq<Step>, i: nat, id: TimerId)
    requires IsRun(states, steps) && i < |steps| && steps[i] == Cancel(id) && Genuine(states[i], id)
    ensures Freed(states[i + 1], id.sequence) || Doomed(states[i + 1], id) <==> !InQueue(states[i], id.sequence)
  {
    InvRun(states, steps, i);
    var s := states[i];
    if InQueue(s, id.sequence) {
      QueuedOutlivesCancel(s, id);
    } else {
      CancelTakesHold(s, id);
    }
  }

  /** Such a timer: created by another thread, cancelled before the loop has added it. */
  lemma CanceledTooEarly(p: Ptr, when: int)
    ensures var s1 := Next(Init, Create(p, when, 0, false));
            var s2 := Next(s1, Cancel(TimerId(p, 1)));
            Genuine(s1, TimerId(p, 1)) && InQueue(s1, 1) && s2 == s1
  {
  }

  lemma QueuedOutlivesCancel(s: State, id: TimerId)
    requires Inv(s) && Genuine(s, id) && InQueue(s, id.sequence)
    ensures var t := Next(s, Cancel(id)); InQueue(t, id.sequence) && !InBatch(t, id.sequence)
  {
    OnePlace(s, id.sequence);
    assert InFlight(Next(s, Cancel(id))) == InFlight(s);
  }

  lemma DoomedUntilFinish(s: State, a: Step, id: TimerId)
    requires Inv(s) && Enabled(s, a) && Doomed(s, id)
    ensures if a.Finish? then Freed(Next(s, a), id.sequence) else Doomed(Next(s, a), id)
  {
    var p := id.timer;
    assert !IsActive(s, p);
    if a.Cancel? && a.id in s.active {
      assert Entry(s.heap[a.id.timer].expiration, a.id.timer) in s.timers;
    } else if a.Create? {
      assert |s.issued| + 1 !in s.issued;
    } else if a.Finish? {
      assert IdOf(s, p) == id;
      assert p !in Kept(s);
    }
  }

  lemma {:induction false} CanceledState(states: seq<State>, steps: seq<Step>, i: nat, j: nat, id: TimerId)
    requires IsRun(states, steps) && i < j < |states| && steps[i] == Cancel(id)
    requires Genuine(states[i], id) && !InQueue(states[i], id.sequence)
    ensures || Freed(states[j], id.sequence)
            || (Doomed(states[j], id) && states[i].phase.Running? && forall k | i <= k < j :: !steps[k].Finish?)
    decreases j
  {
    hide Inv, Next, Doomed, Freed;
    InvRun(states, steps, j - 1);
    if j == i + 1 {
      CancelTakesHold(states[i], id);
    } else {
      CanceledState(states, steps, i, j - 1, id);
      if Freed(states[j - 1], id.sequence) {
        FreedStays(states[j - 1], steps[j - 1], id.sequence);
      } else {
        DoomedUntilFinish(states[j - 1], steps[j - 1], id);
      }
    }
  }

  /** A cancelled timer runs again only if it was cancelled while a batch was running, and then
      only before that same batch ends. */
  lemma CanceledTimerStops(states: seq<State>, steps: seq<Step>, i: nat, j: nat, id: TimerId)
    requires IsRun(states, steps) && i < j < |steps| && steps[i] == Cancel(id)
    requires Genuine(states[i], id) && !InQueue(states[i], id.sequence)
    requires CallsBack(states[j], steps[j], id.sequence)
    ensures states[i].phase.Running?
    ensures forall k | i <= k < j :: !steps[k].Finish?
  {
    InvAlways(states, steps, j);
    CanceledState(states, steps, i, j, id);
    assert Live(states[j], id.sequence);
  }

  lemma CancelingStep(s: State, a: Step, id: TimerId)
    requires Enabled(s, a) && id in Next(s, a).canceling
    ensures a == Cancel(id) || (id in s.canceling && !a.HandleAlarm?)
  {
  }

  lemma {:induction false} CancelingHasCause(states: seq<State>, steps: seq<Step>, j: nat, id: TimerId)
    requires IsRun(states, steps) && j < |states| && id in states[j].canceling
    ensures exists i :: 0 <= i < j && steps[i] == Cancel(id) && forall k | i < k < j :: !steps[k].HandleAlarm?
  {
    if j > 0 {
      CancelingStep(states[j - 1], steps[j - 1], id);
      hide Next;
      if steps[j - 1] != Cancel(id) {
        CancelingHasCause(states, steps, j - 1, id);
        var i :| 0 <= i < j - 1 && steps[i] == Cancel(id) && forall k | i < k < j - 1 :: !steps[k].HandleAlarm?;
        assert steps[i] == Cancel(id);
      }
    }
  }

  /** Nothing but its own cancellation during the batch keeps a repeating timer from being
      scheduled again, one interval after the batch's time. */
  lemma UncanceledTimerRepeats(states: seq<State>, steps: seq<Step>, h: nat, j: nat, p: Ptr)
    requires IsRun(states, steps) && h < j < |steps| && steps[j].Finish?
    requires steps[h].HandleAlarm? && forall k | h < k < j :: !steps[k].HandleAlarm?
    requires p in InFlight(states[j]) && p in states[j].heap
    requires forall k | h < k < j :: steps[k] != Cancel(IdOf(states[j], p))
    ensures var s, t := states[j], states[j + 1];
            if s.heap[p].repeat
            then && p in t.heap && t.heap[p] == s.heap[p].(expiration := s.phase.now + s.heap[p].interval)
                 && Entry(t.heap[p].expiration, p) in t.timers && IdOf(s, p) in t.active
            else Freed(t, s.heap[p].sequence)
  {
    InvAlways(states, steps, j);
    var s := states[j];
    hide Inv, Next;
    if IdOf(s, p) in s.canceling {
      CancelingHasCause(states, steps, j, IdOf(s, p));
      assert false;
    }
    FinishOutcome(s, steps[j].clock, p);
  }

  lemma FinishOutcome(s: State, clock: int, p: Ptr)
    requires Inv(s) && Enabled(s, Finish(clock))
    requires p in InFlight(s) && p in s.heap && IdOf(s, p) !in s.canceling
    ensures var t := Next(s, Finish(clock));
            if s.heap[p].repeat
            then && p in t.heap && t.heap[p] == s.heap[p].(expiration := s.phase.now + s.heap[p].interval)
                 && Entry(t.heap[p].expiration, p) in t.timers && IdOf(s, p) in t.active
            else Freed(t, s.heap[p].sequence)
  {
    assert p in Kept(s) <==> s.heap[p].repeat;
    assert s.heap[p].sequence in s.issued && s.issued[s.heap[p].sequence] == p;
    assert p in KeptOf(s, InFlight(s)) <==> s.heap[p].repeat;
    hide Inv, Kept, KeptOf, InFlight, Min, ResetTimerfd;
    RecycleOutcome(s, InFlight(s), KeptOf(s, InFlight(s)), s.phase.now, p);
  }

  lemma RecycleOutcome(s: State, done: set<nat>, kept: set<Ptr>, now: int, p: Ptr)
    requires kept <= s.heap.Keys && p in s.heap && p in done
    ensures var t := Recycle(s, done, kept, now);
            && t.issued == s.issued
            && if p in kept
               then && p in t.heap && t.heap[p] == s.heap[p].(expiration := now + s.heap[p].interval)
                    && Entry(t.heap[p].expiration, p) in t.timers && IdOf(s, p) in t.active
               else p !in t.heap
  {
  }

  // ----- Stale ids -----

  /** t is s, except that `id` may also sit in cancelingTimers_. */
  predicate Twins(s: State, t: State, id: TimerId) {
    t == s.(canceling := t.canceling) && (t.canceling == s.canceling || t.canceling == s.canceling + {id})
  }

  /** No cancel of q can matter before the next alarm: it is not in the batch. */
  ghost predicate Alike(s: State, t: State, id: TimerId) {
    Twins(s, t, id) && (s == t || !InBatch(s, id.sequence))
  }

  lemma TwinStep(s: State, t: State, a: Step, id: TimerId)
    requires Inv(s) && Enabled(s, a) && Alike(s, t, id)
    ensures Enabled(t, a) && Twins(Next(s, a), Next(t, a), id)
  {
    hide Inv, InBatch, DoCreate, DoAdd, DoCancel, DoAlarm, DoFinish;
    match a
    case Create(p, when, interval, repeat) => TwinCreate(s, t, p, when, interval, repeat);
    case AddInLoop(p, clock) => TwinAdd(s, t, p, clock);
    case Cancel(other) => TwinCancel(s, t, other, id);
    case HandleAlarm(now) => TwinAlarm(s, t, now);
    case RunNext =>
    case Finish(clock) =>
      SameKept(s, t, id);
      SameReset(s, t, clock);
  }

  lemma TwinCreate(s: State, t: State, p: Ptr, when: int, interval: int, repeat: bool)
    requires t == s.(canceling := t.canceling)
    ensures DoCreate(t, p, when, interval, repeat) == DoCreate(s, p, when, interval, repeat).(canceling := t.canceling)
    ensures DoCreate(s, p, when, interval, repeat).canceling == s.canceling
  {
  }

  lemma TwinAdd(s: State, t: State, p: Ptr, clock: int)
    requires t == s.(canceling := t.canceling) && p in s.heap
    ensures DoAdd(t, p, clock) == DoAdd(s, p, clock).(canceling := t.canceling)
    ensures DoAdd(s, p, clock).canceling == s.canceling
  {
    var when := s.heap[p].expiration;
    assert EarliestChanged(s, when) == EarliestChanged(t, when);
    assert IdOf(s, p) == IdOf(t, p);
    hide EarliestChanged, ResetTimerfd;
  }

  lemma TwinAlarm(s: State, t: State, now: int)
    requires t == s.(canceling := t.canceling)
    ensures DoAlarm(t, now) == DoAlarm(s, now)
  {
    var due := Due(s.timers, now);
    hide Due, Ordered;
    assert IdsOf(s, due) == IdsOf(t, due);
  }

  lemma TwinCancel(s: State, t: State, other: TimerId, id: TimerId)
    requires Twins(s, t, id)
    ensures Twins(DoCancel(s, other), DoCancel(t, other), id)
  {
  }

  lemma SameKept(s: State, t: State, id: TimerId)
    requires Inv(s) && Alike(s, t, id)
    ensures Kept(s) == Kept(t)
  {
    assert InFlight(s) == InFlight(t);
    if s != t {
      forall p | p in s.heap && p in InFlight(s) ensures IdOf(s, p) != id {
        assert s.issued[s.heap[p].sequence] == p;
      }
    }
  }

  lemma SameReset(s: State, t: State, clock: int)
    requires t == s.(canceling := t.canceling) && s.phase.Running? && Kept(s) == Kept(t)
    ensures DoFinish(t, clock) == DoFinish(s, clock).(canceling := t.canceling)
    ensures DoFinish(s, clock).canceling == s.canceling
  {
    assert InFlight(s) == InFlight(t);
    assert KeptOf(s, InFlight(s)) == KeptOf(t, InFlight(t));
    hide Kept, InFlight;
    SameRecycle(s, t, InFlight(s), KeptOf(s, InFlight(s)), s.phase.now);
  }

  lemma SameRecycle(s: State, t: State, done: set<nat>, kept: set<Ptr>, now: int)
    requires t == s.(canceling := t.canceling) && kept <= s.heap.Keys
    ensures Recycle(t, done, kept, now) == Recycle(s, done, kept, now).(canceling := t.canceling)
  {
    assert forall p | p in s.heap :: IdOf(s, p) == IdOf(t, p);
  }

  lemma StaysOutOfBatch(s: State, a: Step, q: int)
    requires Inv(s) && Enabled(s, a) && !InBatch(s, q) && !a.HandleAlarm?
    ensures !InBatch(Next(s, a), q)
  {
    if a.Finish? {
      assert Next(s, a).phase.Idle?;
    } else {
      assert InFlight(Next(s, a)) == InFlight(s);
      if a.Create? {
        assert a.timer !in InFlight(s);
      }
    }
  }

  lemma AlikeStep(s: State, t: State, a: Step, id: TimerId)
    requires Inv(s) && Enabled(s, a) && Alike(s, t, id)
    ensures Enabled(t, a) && Alike(Next(s, a), Next(t, a), id)
  {
    TwinStep(s, t, a, id);
    if s != t && !a.HandleAlarm? {
      StaysOutOfBatch(s, a, id.sequence);
    }
  }

  lemma UselessCancel(s: State, id: TimerId)
    requires Inv(s) && (Freed(s, id.sequence) || InQueue(s, id.sequence))
    ensures Alike(s, Next(s, Cancel(id)), id)
  {
    OnePlace(s, id.sequence);
    if id in s.active {
      assert Live(s, id.sequence);
    }
  }

  /** The same steps, taken after a useless cancel. */
  lemma {:induction false} TwinPath(states: seq<State>, steps: seq<Step>, id: TimerId, n: nat)
    returns (others: seq<State>)
    requires IsPath(states, steps) && Inv(states[0]) && n <= |steps|
    requires Freed(states[0], id.sequence) || InQueue(states[0], id.sequence)
    ensures IsPath(others, steps[..n]) && others[0] == Next(states[0], Cancel(id))
    ensures forall i | 0 <= i <= n :: Alike(states[i], others[i], id)
    decreases n
  {
    hide Inv, Next, Enabled, Alike, Freed, InQueue;
    if n == 0 {
      UselessCancel(states[0], id);
      MayCancel(states[0], id);
      others := [Next(states[0], Cancel(id))];
    } else {
      var front := TwinPath(states, steps, id, n - 1);
      InvAlways(states, steps, n - 1);
      AlikeStep(states[n - 1], front[n - 1], steps[n - 1], id);
      others := front + [Next(front[n - 1], steps[n - 1])];
      assert forall i | 0 <= i < n - 1 :: steps[..n][i] == steps[..n - 1][i];
    }
  }

  lemma MayCancel(s: State, id: TimerId)
    ensures Enabled(s, Cancel(id))
  {
  }

  /** Cancelling with the id of a freed timer changes nothing that any later step can observe, even
      when its address has been given to another timer; neither does cancelling a timer whose addition
      is still queued: whatever steps can follow without the cancel can follow it too, through states
      that differ at most in that id in cancelingTimers_ while it cannot matter. */
  lemma StaleCancelIsInvisible(states: seq<State>, steps: seq<Step>, id: TimerId) returns (others: seq<State>)
    requires IsPath(states, steps) && Inv(states[0])
    requires Freed(states[0], id.sequence) || InQueue(states[0], id.sequence)
    ensures IsPath(others, steps) && others[0] == Next(states[0], Cancel(id))
    ensures forall i | 0 <= i < |states| :: Alike(states[i], others[i], id)
  {
    others := TwinPath(states, steps, id, |steps|);
    assert steps[..|steps|] == steps;
  }

  // ----- The alarm -----

  /** Between handler calls every active timer is covered by an alarm that goes off by its
      expiration or within 100 microseconds of being set. */
  lemma AlarmNeverLost(states: seq<State>, steps: seq<Step>, i: nat)
    requires IsRun(states, steps) && i < |states| && states[i].phase.Idle?
    ensures states[i].timers != {} ==>
              && states[i].alarm.Some?
              && var a := states[i].alarm.value;
                 var first := Min(states[i].timers).when;
                 a.at <= if first < a.setAt + 100 then a.setAt + 100 else first
  {
    InvAlways(states, steps, i);
    if states[i].timers != {} {
      assert ArmedFor(states[i], Min(states[i].timers).when);
    }
  }
}
