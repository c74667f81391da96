/** The poller of net/poller/PollPoller.cc told by the updates and removals of its run. */
module PollHistories {
  import opened Common
  import opened PollMachine

  /** The events of the last update of fd since its registration, if it is registered. */
  function LastEvents(steps: seq<Step>, fd: int): Option<int> {
    if steps == [] then None
    else
      match steps[|steps| - 1]
      case Register(f, events) => if f == fd then Some(events) else LastEvents(steps[..|steps| - 1], fd)
      case Modify(f, events) => if f == fd then Some(events) else LastEvents(steps[..|steps| - 1], fd)
      case Remove(f) => if f == fd then None else LastEvents(steps[..|steps| - 1], fd)
  }

  lemma EventsStep(s: State, a: Step, fd: int)
    requires Inv(s) && Enabled(s, a)
    ensures var t := Next(s, a);
            if (a.Register? || a.Modify?) && a.fd == fd then fd in t.regs && t.regs[fd].events == a.events
            else if a == Remove(fd) then fd !in t.regs
            else (fd in t.regs <==> fd in s.regs) && (fd in s.regs ==> t.regs[fd].events == s.regs[fd].events)
  {
    if a.Remove? {
      LastIsOther(s, a.fd);
    }
  }

  lemma LastIsOther(s: State, fd: int)
    requires Inv(s) && Enabled(s, Remove(fd))
    ensures s.regs[fd].index < |s.pollfds| - 1 ==> Decode(s.pollfds[|s.pollfds| - 1].fd) != fd
  {
    assert SlotOf(s, fd) && OwnerOf(s, |s.pollfds| - 1);
  }

  /** In every run exactly the descriptors registered and not removed since are in the map, each with the
      events of its last update. */
  lemma {:induction false} RegisteredExactly(states: seq<State>, steps: seq<Step>, i: nat, fd: int)
    requires IsRun(states, steps) && i < |states|
    ensures if fd in states[i].regs then LastEvents(steps[..i], fd) == Some(states[i].regs[fd].events)
            else LastEvents(steps[..i], fd) == None
  {
    if i > 0 {
      RegisteredExactly(states, steps, i - 1, fd);
      assert steps[..i][..i - 1] == steps[..i - 1];
      InvAlways(states, steps, i - 1);
      EventsStep(states[i - 1], steps[i - 1], fd);
      hide Next, Enabled, Inv;
    }
  }

  /** In every run a new channel takes the slot at the end, an update leaves every index as it is, and a
      removal moves only the last channel, to the slot that became free. */
  lemma IndexExactly(states: seq<State>, steps: seq<Step>, i: nat, fd: int)
    requires IsRun(states, steps) && i < |steps| && fd in states[i + 1].regs
    ensures var s, t := states[i], states[i + 1];
            match steps[i]
            case Register(f, _) =>
              if f == fd then t.regs[fd].index == |s.pollfds| else fd in s.regs && t.regs[fd].index == s.regs[fd].index
            case Modify(_, _) => fd in s.regs && t.regs[fd].index == s.regs[fd].index
            case Remove(f) =>
              && f in s.regs && fd in s.regs
              && t.regs[fd].index == if s.regs[fd].index == |s.pollfds| - 1 then s.regs[f].index else s.regs[fd].index
  {
    InvAlways(states, steps, i);
    IndexStep(states[i], steps[i], fd);
    hide Next, Enabled, Inv;
  }

  lemma IndexStep(s: State, a: Step, fd: int)
    requires Inv(s) && Enabled(s, a) && fd in Next(s, a).regs
    ensures var t := Next(s, a);
            match a
            case Register(f, _) =>
              if f == fd then t.regs[fd].index == |s.pollfds| else fd in s.regs && t.regs[fd].index == s.regs[fd].index
            case Modify(_, _) => fd in s.regs && t.regs[fd].index == s.regs[fd].index
            case Remove(f) =>
              && f in s.regs && fd in s.regs
              && t.regs[fd].index == if s.regs[fd].index == |s.pollfds| - 1 then s.regs[f].index else s.regs[fd].index
  {
    if a.Remove? {
      LastIsOther(s, a.fd);
      assert OwnerOf(s, |s.pollfds| - 1);
      if fd in s.regs {
        assert SlotOf(s, fd) && OwnerOf(s, s.regs[fd].index);
      }
    }
  }

  /** In every run no slot carries events over from an earlier poll. */
  lemma {:induction false} ReventsAreClear(states: seq<State>, steps: seq<Step>, i: nat)
    requires IsRun(states, steps) && i < |states|
    ensures AllClear(states[i].pollfds)
  {
    hide Next, Enabled, Inv, AllClear;
    if i > 0 {
      ReventsAreClear(states, steps, i - 1);
      ClearStep(states[i - 1], steps[i - 1]);
    } else {
      NothingToClear();
    }
  }

  predicate AllClear(pollfds: seq<PollFd>) { forall k | 0 <= k < |pollfds| :: pollfds[k].revents == 0 }

  lemma NothingToClear()
    ensures AllClear([])
  {
  }

  lemma ClearStep(s: State, a: Step)
    requires Enabled(s, a) && AllClear(s.pollfds)
    ensures AllClear(Next(s, a).pollfds)
  {
  }

  // ----- Active channels -----

  /** The slots with events, in order. */
  function Slots(pollfds: seq<PollFd>): seq<nat> {
    if pollfds == [] then []
    else
      var n := |pollfds| - 1;
      Slots(pollfds[..n]) + (if pollfds[n].revents > 0 then [n] else [])
  }

  lemma {:induction false} SlotsMember(pollfds: seq<PollFd>, k: nat)
    ensures k in Slots(pollfds) <==> k < |pollfds| && pollfds[k].revents > 0
  {
    if pollfds != [] {
      SlotsMember(pollfds[..|pollfds| - 1], k);
    }
  }

  lemma {:induction false} SlotsIncrease(pollfds: seq<PollFd>)
    ensures forall j | 0 <= j < |Slots(pollfds)| :: Slots(pollfds)[j] < |pollfds|
    ensures forall j, k | 0 <= j < k < |Slots(pollfds)| :: Slots(pollfds)[j] < Slots(pollfds)[k]
  {
    if pollfds != [] {
      SlotsIncrease(pollfds[..|pollfds| - 1]);
    }
  }

  lemma {:induction false} ActiveOfSlots(pollfds: seq<PollFd>)
    ensures |Active(pollfds)| == |Slots(pollfds)|
    ensures forall j | 0 <= j < |Slots(pollfds)| ::
              Slots(pollfds)[j] < |pollfds| && Active(pollfds)[j] == pollfds[Slots(pollfds)[j]].fd
  {
    SlotsIncrease(pollfds);
    if pollfds != [] {
      var front := pollfds[..|pollfds| - 1];
      ActiveOfSlots(front);
      forall j | 0 <= j < |Slots(pollfds)| ensures Active(pollfds)[j] == pollfds[Slots(pollfds)[j]].fd {
        if j < |Slots(front)| {
          assert Slots(pollfds)[j] == Slots(front)[j];
          assert Active(pollfds)[j] == Active(front)[j];
        }
      }
    }
  }

  /** The descriptors fillActiveChannels goes by are those of exactly the slots with events, each slot
      once, in slot order. */
  lemma ActiveExactly(pollfds: seq<PollFd>) returns (slots: seq<nat>)
    ensures |slots| == |Active(pollfds)|
    ensures forall j, k | 0 <= j < k < |slots| :: slots[j] < slots[k]
    ensures forall j | 0 <= j < |slots| :: slots[j] < |pollfds| && Active(pollfds)[j] == pollfds[slots[j]].fd
    ensures forall k | 0 <= k < |pollfds| :: k in slots <==> pollfds[k].revents > 0
  {
    hide Slots, Active;
    slots := Slots(pollfds);
    SlotsIncrease(pollfds);
    ActiveOfSlots(pollfds);
    forall k | 0 <= k < |pollfds| ensures k in slots <==> pollfds[k].revents > 0 {
      SlotsMember(pollfds, k);
    }
  }
}
