/** net/poller/PollPoller.cc: a dense pollfd array, a map from descriptors to channels, and the
    back-indexes kept in the channels, under swap-with-last removal.

    A registered channel is its descriptor with its events and index. The field `muted` is history:
    the descriptors that have been updated with no events since they were registered. */
module PollMachine {

  datatype PollFd = PollFd(fd: int, events: int, revents: int)

  datatype Reg = Reg(events: int, index: int)

  datatype State = State(pollfds: seq<PollFd>, regs: map<int, Reg>, muted: set<int>)

  const Init: State := State([], map[], {})

  datatype Step =
    | Register(fd: int, events: int)   // updateChannel on a channel with no index yet
    | Modify(fd: int, events: int)     // updateChannel on a registered channel
    | Remove(fd: int)

  /** The descriptor a slot stands for: ignored slots hold -fd-1. */
  function Decode(fd: int): int { if fd < 0 then -fd - 1 else fd }

  predicate Enabled(s: State, a: Step) {
    match a
    case Register(fd, _) => fd >= 0 && fd !in s.regs
    case Modify(fd, _) => fd in s.regs && 0 <= s.regs[fd].index < |s.pollfds|
    // removeChannel asserts that the channel has no events and its slot is ignored
    case Remove(fd) => fd in s.regs && s.regs[fd].events == 0 && 0 <= s.regs[fd].index < |s.pollfds|
                       && s.pollfds[s.regs[fd].index].fd == -fd - 1
                       && Decode(s.pollfds[|s.pollfds| - 1].fd) in s.regs
  }

  function DoRegister(s: State, fd: int, events: int): State {
    State(s.pollfds + [PollFd(fd, events, 0)], s.regs[fd := Reg(events, |s.pollfds|)], s.muted)
  }

  function DoModify(s: State, fd: int, events: int): State
    requires fd in s.regs && 0 <= s.regs[fd].index < |s.pollfds|
  {
    var idx := s.regs[fd].index;
    var pfd := s.pollfds[idx];
    State(s.pollfds[idx := PollFd(if events == 0 then -fd - 1 else pfd.fd, events, 0)],
          s.regs[fd := s.regs[fd].(events := events)],
          if events == 0 then s.muted + {fd} else s.muted)
  }

  function DoRemove(s: State, fd: int): State
    requires fd in s.regs && 0 <= s.regs[fd].index < |s.pollfds|
    requires Decode(s.pollfds[|s.pollfds| - 1].fd) in s.regs
  {
    var idx := s.regs[fd].index;
    var n := |s.pollfds|;
    if idx == n - 1 then State(s.pollfds[..n - 1], s.regs - {fd}, s.muted - {fd})
    else
      var last := s.pollfds[n - 1];
      var moved := Decode(last.fd);
      State(s.pollfds[idx := last][..n - 1], (s.regs - {fd})[moved := s.regs[moved].(index := idx)], s.muted - {fd})
  }

  function Next(s: State, a: Step): State
    requires Enabled(s, a)
  {
    match a
    case Register(fd, events) => DoRegister(s, fd, events)
    case Modify(fd, events) => DoModify(s, fd, events)
    case Remove(fd) => DoRemove(s, fd)
  }

  ghost predicate IsRun(states: seq<State>, steps: seq<Step>) {
    && |states| == |steps| + 1 && states[0] == Init
    && forall i | 0 <= i < |steps| :: Enabled(states[i], steps[i]) && states[i + 1] == Next(states[i], steps[i])
  }

  // ----- Invariant -----

  /** A registered channel's slot holds its descriptor, negated exactly if muted, and its events. */
  ghost predicate SlotOf(s: State, fd: int)
    requires fd in s.regs
  {
    var r := s.regs[fd];
    && fd >= 0
    && 0 <= r.index < |s.pollfds|
    && s.pollfds[r.index].fd == (if fd in s.muted then -fd - 1 else fd)
    && s.pollfds[r.index].events == r.events
  }

  /** A slot decodes to the channel whose index it is. */
  ghost predicate OwnerOf(s: State, i: int)
    requires 0 <= i < |s.pollfds|
  {
    var fd := Decode(s.pollfds[i].fd);
    fd in s.regs && s.regs[fd].index == i
  }

  ghost predicate Inv(s: State) {
    && |s.regs| == |s.pollfds|
    && (forall fd | fd in s.regs :: SlotOf(s, fd))
    && (forall i | 0 <= i < |s.pollfds| :: OwnerOf(s, i))
    && (forall fd | fd in s.muted :: fd in s.regs)
  }

  lemma RegisterInv(s: State, fd: int, events: int)
    requires Inv(s) && Enabled(s, Register(fd, events))
    ensures Inv(DoRegister(s, fd, events))
  {
    var t := DoRegister(s, fd, events);
    forall x | x in t.regs ensures SlotOf(t, x) {
      if x != fd {
        assert SlotOf(s, x);
      }
    }
    forall i | 0 <= i < |t.pollfds| ensures OwnerOf(t, i) {
      if i < |s.pollfds| {
        assert OwnerOf(s, i);
      }
    }
  }

  lemma ModifyInv(s: State, fd: int, events: int)
    requires Inv(s) && Enabled(s, Modify(fd, events))
    ensures Inv(DoModify(s, fd, events))
  {
    var t := DoModify(s, fd, events);
    assert SlotOf(s, fd);
    assert t.regs.Keys == s.regs.Keys;
    assert |t.regs.Keys| == |t.regs|;
    forall x | x in t.regs ensures SlotOf(t, x) {
      assert SlotOf(s, x);
      assert OwnerOf(s, s.regs[x].index) && OwnerOf(s, s.regs[fd].index);
    }
    forall i | 0 <= i < |t.pollfds| ensures OwnerOf(t, i) {
      assert OwnerOf(s, i);
    }
  }

  lemma RemoveInv(s: State, fd: int)
    requires Inv(s) && Enabled(s, Remove(fd))
    ensures Inv(DoRemove(s, fd))
  {
    var t := DoRemove(s, fd);
    var idx, n := s.regs[fd].index, |s.pollfds|;
    var moved := Decode(s.pollfds[n - 1].fd);
    assert SlotOf(s, fd) && OwnerOf(s, n - 1);
    assert t.regs.Keys == s.regs.Keys - {fd} by {
      assert moved != fd || idx == n - 1;
    }
    assert |t.regs.Keys| == |t.regs| && |s.regs.Keys| == |s.regs|;
    forall x | x in t.regs ensures SlotOf(t, x) {
      assert SlotOf(s, x);
      assert OwnerOf(s, s.regs[x].index) && OwnerOf(s, idx);
    }
    forall i | 0 <= i < |t.pollfds| ensures OwnerOf(t, i) {
      assert OwnerOf(s, i) && OwnerOf(s, idx);
    }
  }

  lemma {:induction false} InvAlways(states: seq<State>, steps: seq<Step>, i: nat)
    requires IsRun(states, steps) && i < |states|
    ensures Inv(states[i])
  {
    if i > 0 {
      InvAlways(states, steps, i - 1);
      match steps[i - 1]
      case Register(fd, events) => RegisterInv(states[i - 1], fd, events);
      case Modify(fd, events) => ModifyInv(states[i - 1], fd, events);
      case Remove(fd) => RemoveInv(states[i - 1], fd);
    }
  }

  /** After any sequence of registrations, updates and removals the array, the map and the back-indexes
      agree in both directions. */
  lemma PollerAgreement(states: seq<State>, steps: seq<Step>, k: nat)
    requires IsRun(states, steps) && k < |states|
    ensures var s := states[k];
            && |s.regs| == |s.pollfds|
            && (forall fd | fd in s.regs ::
                  var i := s.regs[fd].index;
                  && 0 <= i < |s.pollfds| && (s.pollfds[i].fd == fd || s.pollfds[i].fd == -fd - 1)
                  && s.pollfds[i].events == s.regs[fd].events)
            && (forall fd, other | fd in s.regs && other in s.regs && fd != other ::
                  s.regs[fd].index != s.regs[other].index)
            && (forall i | 0 <= i < |s.pollfds| ::
                  Decode(s.pollfds[i].fd) in s.regs && s.regs[Decode(s.pollfds[i].fd)].index == i)
  {
    InvAlways(states, steps, k);
    var s := states[k];
    forall fd | fd in s.regs
      ensures var i := s.regs[fd].index;
              && 0 <= i < |s.pollfds| && (s.pollfds[i].fd == fd || s.pollfds[i].fd == -fd - 1)
              && s.pollfds[i].events == s.regs[fd].events && Decode(s.pollfds[i].fd) == fd
    {
      assert SlotOf(s, fd);
    }
    forall i | 0 <= i < |s.pollfds|
      ensures Decode(s.pollfds[i].fd) in s.regs && s.regs[Decode(s.pollfds[i].fd)].index == i
    {
      assert OwnerOf(s, i);
    }
  }

  /** Has fd been updated with no events since it was last registered? */
  ghost predicate MutedSince(steps: seq<Step>, fd: int) {
    exists j :: 0 <= j < |steps| && steps[j] == Modify(fd, 0)
                && forall k | j < k < |steps| :: steps[k] != Remove(fd)
  }

  lemma MutedSinceAppend(before: seq<Step>, a: Step, fd: int)
    ensures MutedSince(before + [a], fd) <==> a == Modify(fd, 0) || (a != Remove(fd) && MutedSince(before, fd))
  {
    var after := before + [a];
    var n := |before|;
    assert after[n] == a;
    if a == Modify(fd, 0) {
      assert after[n] == Modify(fd, 0);
    } else if a != Remove(fd) && MutedSince(before, fd) {
      var j :| 0 <= j < n && before[j] == Modify(fd, 0) && forall k | j < k < n :: before[k] != Remove(fd);
      assert after[j] == Modify(fd, 0);
    }
    if MutedSince(after, fd) {
      var j :| 0 <= j < n + 1 && after[j] == Modify(fd, 0) && forall k | j < k < n + 1 :: after[k] != Remove(fd);
      if j < n {
        assert before[j] == Modify(fd, 0);
        assert forall k | j < k < n :: before[k] == after[k];
      }
    }
  }

  lemma {:induction false} MutedIsHistory(states: seq<State>, steps: seq<Step>, i: nat, fd: int)
    requires IsRun(states, steps) && i < |states|
    ensures fd in states[i].muted <==> MutedSince(steps[..i], fd)
  {
    if i > 0 {
      MutedIsHistory(states, steps, i - 1, fd);
      MutedSinceAppend(steps[..i - 1], steps[i - 1], fd);
      assert steps[..i] == steps[..i - 1] + [steps[i - 1]];
      hide MutedSince;
    }
  }

  /** poll ignores a registered descriptor exactly if it was once updated with no events since it was
      registered; what events it has now does not matter. */
  lemma IgnoredExactly(states: seq<State>, steps: seq<Step>, i: nat, fd: int)
    requires IsRun(states, steps) && i < |states| && fd in states[i].regs
    ensures 0 <= states[i].regs[fd].index < |states[i].pollfds|
    ensures states[i].pollfds[states[i].regs[fd].index].fd < 0 <==> MutedSince(steps[..i], fd)
  {
    InvAlways(states, steps, i);
    MutedIsHistory(states, steps, i, fd);
    assert SlotOf(states[i], fd);
  }

  /** So a channel that is disabled and enabled again stays deaf... */
  lemma ReenabledStaysDeaf(fd: int, events: int)
    requires fd >= 0 && events != 0
    ensures var s1 := Next(Init, Register(fd, events));
            var s2 := Next(s1, Modify(fd, 0));
            var s3 := Next(s2, Modify(fd, events));
            s3.regs[fd].events == events && s3.pollfds == [PollFd(-fd - 1, events, 0)]
  {
  }

  /** ...and removeChannel's asserts hold for a channel without events exactly if it was muted, not if
      it was registered that way. */
  lemma RemoveAssertExactly(states: seq<State>, steps: seq<Step>, i: nat, fd: int)
    requires IsRun(states, steps) && i < |states| && fd in states[i].regs && states[i].regs[fd].events == 0
    ensures Enabled(states[i], Remove(fd)) <==> MutedSince(steps[..i], fd)
  {
    InvAlways(states, steps, i);
    MutedIsHistory(states, steps, i, fd);
    var s := states[i];
    assert SlotOf(s, fd);
    assert OwnerOf(s, |s.pollfds| - 1);
  }

  /** Such a channel: registered with no events, and never disabled. */
  lemma RegisteredMuteCannotLeave(fd: int)
    requires fd >= 0
    ensures var s := Next(Init, Register(fd, 0));
            fd in s.regs && s.regs[fd].events == 0 && !Enabled(s, Remove(fd))
  {
  }

  // ----- poll(2) and fillActiveChannels -----

  /** The descriptors with events, in slot order. */
  function Active(pollfds: seq<PollFd>): seq<int> {
    if pollfds == [] then []
    else
      var p := pollfds[|pollfds| - 1];
      Active(pollfds[..|pollfds| - 1]) + (if p.revents > 0 then [p.fd] else [])
  }

  /** poll(2) sets revents to 0 for negative descriptors and changes nothing else. */
  predicate PolledFrom(before: seq<PollFd>, after: seq<PollFd>) {
    && |before| == |after|
    && forall i | 0 <= i < |before| ::
         after[i] == before[i].(revents := after[i].revents) && (before[i].fd < 0 ==> after[i].revents == 0)
  }
}

/** The poller in the form the source has: an object holding channel objects. */
module PollPollers {
  import opened PollMachine

  class Channel {
    const fd: int
    var events: int
    var revents: int
    var index: int

    constructor (fd: int)
      ensures this.fd == fd && events == 0 && revents == 0 && index == -1
    {
      this.fd := fd;
      events, revents, index := 0, 0, -1;
    }
  }

  class PollPoller {
    var pollfds: seq<PollFd>
    var channels: map<int, Channel>
    ghost var muted: set<int>

    ghost predicate Keyed()
      reads this
    {
      forall fd | fd in channels :: channels[fd].fd == fd
    }

    ghost function Regs(): map<int, Reg>
      reads `channels, channels.Values
    {
      map fd | fd in channels :: Reg(channels[fd].events, channels[fd].index)
    }

    ghost function View(): State
      reads this, channels.Values
    {
      State(pollfds, Regs(), muted)
    }

    ghost predicate Valid()
      reads this, channels.Values
    {
      Keyed() && Inv(View())
    }

    constructor ()
      ensures Valid() && View() == Init
    {
      pollfds, channels, muted := [], map[], {};
    }

    method AddChannel(channel: Channel, events: int)
      requires Valid() && channel.fd >= 0 && channel.index < 0 && channel.fd !in channels
      modifies this, channel
      ensures Valid() && channels == old(channels)[channel.fd := channel]
      ensures channel.index >= 0
      ensures View() == DoRegister(old(View()), channel.fd, events)
    {
      ghost var s := View();
      var fd := channel.fd;
      RegisterInv(s, fd, events);
      hide Inv;
      assert forall x | x in channels :: channels[x] != channel;
      channel.events := events;
      pollfds := pollfds + [PollFd(fd, events, 0)];
      channel.index := |pollfds| - 1;
      channels := channels[fd := channel];
      assert Regs() == DoRegister(s, fd, events).regs;
    }

    method ModifyChannel(channel: Channel, events: int)
      requires Valid() && channel.fd in channels && channels[channel.fd] == channel
      modifies this, channel
      ensures Valid() && channels == old(channels)
      ensures Enabled(old(View()), Modify(channel.fd, events))
      ensures View() == DoModify(old(View()), channel.fd, events)
    {
      ghost var s := View();
      var fd := channel.fd;
      assert SlotOf(s, fd);
      ModifyInv(s, fd, events);
      hide Inv;
      channel.events := events;
      var idx := channel.index;
      assert 0 <= idx < |pollfds|;
      var pfd := pollfds[idx];
      assert pfd.fd == fd || pfd.fd == -fd - 1;
      pfd := pfd.(events := events, revents := 0);
      if events == 0 {
        pfd := pfd.(fd := -fd - 1);
        muted := muted + {fd};
      }
      pollfds := pollfds[idx := pfd];
      assert forall x | x in channels && x != fd :: channels[x] != channel;
      assert Regs() == DoModify(s, fd, events).regs;
    }

    /** Channel::update: the channel's new events, then updateChannel. */
    method UpdateChannel(channel: Channel, events: int)
      requires Valid() && channel.fd >= 0
      requires channel.index < 0 ==> channel.fd !in channels
      requires channel.index >= 0 ==> channel.fd in channels && channels[channel.fd] == channel
      modifies this, channel
      ensures Valid() && channels == old(channels)[channel.fd := channel]
      ensures var a := if old(channel.index) < 0 then Register(channel.fd, events) else Modify(channel.fd, events);
              Enabled(old(View()), a) && View() == Next(old(View()), a)
    {
      hide Inv;
      if channel.index < 0 {
        AddChannel(channel, events);
      } else {
        ModifyChannel(channel, events);
      }
    }

    method RemoveChannel(channel: Channel)
      requires Valid() && channel.fd in channels && channels[channel.fd] == channel
      requires channel.events == 0 && channel.fd in muted
      modifies this, channels.Values
      ensures Valid() && channels == old(channels) - {channel.fd}
      ensures Enabled(old(View()), Remove(channel.fd)) && View() == Next(old(View()), Remove(channel.fd))
    {
      hide Inv;
      ghost var s := View();
      var fd := channel.fd;
      RemoveFacts(s, fd);
      RemoveInv(s, fd);
      hide DoRemove;
      var idx := channel.index;
      assert 0 <= idx < |pollfds|;
      assert pollfds[idx].fd == -fd - 1 && pollfds[idx].events == channel.events;
      channels := channels - {fd};
      muted := muted - {fd};
      assert Regs() == s.regs - {fd};
      DropSlot(fd, idx, s);
    }

    /** The end of removeChannel: the last slot takes the place of the removed one. */
    method DropSlot(fd: int, idx: int, ghost s: State)
      requires Keyed() && Enabled(s, Remove(fd)) && idx == s.regs[fd].index
      requires Decode(s.pollfds[|s.pollfds| - 1].fd) == fd ==> idx == |s.pollfds| - 1
      requires pollfds == s.pollfds && Regs() == s.regs - {fd} && muted == s.muted - {fd}
      modifies `pollfds, channels.Values
      ensures Keyed() && View() == DoRemove(s, fd)
    {
      if idx == |pollfds| - 1 {
        pollfds := pollfds[..|pollfds| - 1];
      } else {
        var channelAtEnd := pollfds[|pollfds| - 1].fd;
        pollfds := pollfds[idx := pollfds[|pollfds| - 1]];
        if channelAtEnd < 0 {
          channelAtEnd := -channelAtEnd - 1;
        }
        assert channelAtEnd in Regs();
        SetIndex(channelAtEnd, idx);
        pollfds := pollfds[..|pollfds| - 1];
      }
    }

    /** channels_[fd]->set_index(idx). */
    method SetIndex(fd: int, idx: int)
      requires Keyed() && fd in channels
      modifies channels[fd]
      ensures Regs() == old(Regs())[fd := old(Regs())[fd].(index := idx)]
      ensures channels[fd].events == old(channels[fd].events) && channels[fd].revents == old(channels[fd].revents)
    {
      ghost var regs := Regs();
      channels[fd].index := idx;
      assert forall x | x in channels && x != fd :: channels[x] != channels[fd];
      assert Regs() == regs[fd := regs[fd].(index := idx)];
    }

    /** After poll reported `numEvents` descriptors, the channels with events, in slot order, each with
        the events its slot reports; both asserts hold and the early exit loses none. */
    method FillActiveChannels(numEvents: nat, ghost before: seq<PollFd>) returns (active: seq<Channel>)
      requires Keyed() && Inv(View().(pollfds := before)) && PolledFrom(before, pollfds)
      requires numEvents == |Active(pollfds)|
      modifies channels.Values`revents
      ensures |active| == |Active(pollfds)|
      ensures forall k | 0 <= k < |active| :: active[k].fd == Active(pollfds)[k]
      ensures forall k | 0 <= k < |active| ::
                && active[k].fd in channels && channels[active[k].fd] == active[k]
                && 0 <= active[k].index < |pollfds| && active[k].revents == pollfds[active[k].index].revents
    {
      hide Inv, PolledFrom;
      ghost var s := View().(pollfds := before);
      active := [];
      var left := numEvents;
      var i := 0;
      assert pollfds[..|pollfds|] == pollfds;
      while i < |pollfds| && left > 0
        invariant 0 <= i <= |pollfds|
        invariant |active| == |Active(pollfds[..i])| && left == numEvents - |active|
        invariant forall k | 0 <= k < |active| ::
                    && active[k].fd == Active(pollfds[..i])[k]
                    && active[k].fd in channels && channels[active[k].fd] == active[k]
                    && 0 <= active[k].index < i && active[k].revents == pollfds[active[k].index].revents
      {
        assert pollfds[..i + 1][..i] == pollfds[..i];
        var pfd := pollfds[i];
        if pfd.revents > 0 {
          left := left - 1;
          ActiveSlot(s, pollfds, i);
          assert pfd.fd in channels;
          var channel := channels[pfd.fd];
          assert channel.fd == pfd.fd;
          channel.revents := pfd.revents;
          active := active + [channel];
        }
        i := i + 1;
      }
      ActiveMonotone(pollfds, i);
    }
  }

  lemma ActiveSlot(s: State, pollfds: seq<PollFd>, i: nat)
    requires Inv(s) && PolledFrom(s.pollfds, pollfds) && i < |pollfds| && pollfds[i].revents > 0
    ensures pollfds[i].fd in s.regs && s.regs[pollfds[i].fd].index == i
  {
    assert OwnerOf(s, i);
  }

  lemma RemoveFacts(s: State, fd: int)
    requires Inv(s) && fd in s.regs && s.regs[fd].events == 0 && fd in s.muted
    ensures Enabled(s, Remove(fd))
    ensures s.pollfds[s.regs[fd].index].events == 0
    ensures s.regs[fd].index < |s.pollfds| - 1 ==> Decode(s.pollfds[|s.pollfds| - 1].fd) != fd
  {
    assert SlotOf(s, fd) && OwnerOf(s, |s.pollfds| - 1) && OwnerOf(s, s.regs[fd].index);
  }

  lemma {:induction false} ActiveMonotone(pollfds: seq<PollFd>, i: nat)
    requires i <= |pollfds|
    ensures Active(pollfds[..i]) <= Active(pollfds)
    decreases |pollfds| - i
  {
    if i < |pollfds| {
      ActiveMonotone(pollfds, i + 1);
      assert pollfds[..i + 1][..i] == pollfds[..i];
    } else {
      assert pollfds[..i] == pollfds;
    }
  }
}
