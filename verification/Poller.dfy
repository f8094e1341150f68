/** The poll(2) registry of chaonet/src/Poller.cpp on values: a dense array of slots and the map of back-pointers into
    it. */
module PollSlots {
  import opened Channels

  datatype PollFd = PollFd(fd: int, events: Mask, revents: Mask)

  function Complement(fd: int): int {
    -fd - 1
  }

  /** A slot to be ignored holds the complement of its descriptor. */
  function FdOf(p: PollFd): int {
    if p.fd < 0 then Complement(p.fd) else p.fd
  }

  /** The descriptor of every slot leads back to that slot, and every descriptor's slot is its own. */
  ghost predicate Bijection(slots: seq<PollFd>, at: map<int, int>) {
    && (forall fd {:trigger at[fd]} :: fd in at ==> 0 <= at[fd] < |slots| && FdOf(slots[at[fd]]) == fd)
    && (forall i :: 0 <= i < |slots| ==> FdOf(slots[i]) in at && at[FdOf(slots[i])] == i)
  }

  function Push(slots: seq<PollFd>, p: PollFd): seq<PollFd> {
    slots + [p]
  }

  lemma PushKeeps(slots: seq<PollFd>, at: map<int, int>, p: PollFd)
    requires Bijection(slots, at) && FdOf(p) !in at
    ensures Bijection(Push(slots, p), at[FdOf(p) := |slots|])
  {}

  /** A slot that takes a new mask is ignored from then on if the mask is empty. */
  function Revised(p: PollFd, fd: int, mask: Mask): PollFd {
    PollFd(if mask == NONE_EVENT then Complement(fd) else p.fd, mask, NONE_EVENT)
  }

  lemma UpdateKeeps(slots: seq<PollFd>, at: map<int, int>, i: nat, p: PollFd)
    requires Bijection(slots, at) && i < |slots| && FdOf(p) == FdOf(slots[i])
    ensures Bijection(slots[i := p], at)
  {}

  /** The last slot moves into the freed one. */
  function SwapRemove(slots: seq<PollFd>, i: nat): seq<PollFd>
    requires i < |slots|
  {
    if i == |slots| - 1 then slots[..i] else slots[i := slots[|slots| - 1]][..|slots| - 1]
  }

  function Relocated(slots: seq<PollFd>, at: map<int, int>, fd: nat): map<int, int>
    requires fd in at && 0 <= at[fd] < |slots|
  {
    if at[fd] == |slots| - 1 then at - {fd}
    else
      var moved := FdOf(slots[|slots| - 1]);
      (at - {fd})[moved := at[fd]]
  }

  /** Removal keeps the bijection, whether or not the slot that moves is an ignored one. */
  lemma SwapRemoveKeeps(slots: seq<PollFd>, at: map<int, int>, fd: nat)
    requires Bijection(slots, at) && fd in at
    ensures Bijection(SwapRemove(slots, at[fd]), Relocated(slots, at, fd))
    ensures Relocated(slots, at, fd).Keys == at.Keys - {fd}
    ensures forall other :: other in at && other != fd && at[other] < |slots| - 1 ==>
            Relocated(slots, at, fd)[other] == at[other]
  {
    var n, last := |slots| - 1, FdOf(slots[|slots| - 1]);
    assert at[last] == n;
    assert forall other :: other in at && at[other] == n ==> other == last;
  }

  lemma SwapThenPop(slots: seq<PollFd>, i: nat)
    requires i < |slots| - 1
    ensures slots[i := slots[|slots| - 1]][|slots| - 1 := slots[i]][..|slots| - 1] == SwapRemove(slots, i)
  {}

  lemma LastIsAnother(slots: seq<PollFd>, at: map<int, int>, fd: nat)
    requires Bijection(slots, at) && fd in at && at[fd] != |slots| - 1
    ensures var last, at' := FdOf(slots[|slots| - 1]), Relocated(slots, at, fd);
            && last in at && last != fd
            && forall f :: f in at && f != fd ==> f in at' && at'[f] == if f == last then at[fd] else at[f]
  {}

  /** What the calls so far have left in the slots: the mask each channel had when it was last updated, the descriptors
      that an update has found registered and without interest, and those that were registered without interest. */
  datatype Book = Book(asked: map<int, Mask>, silenced: set<int>, bare: set<int>)

  /** A slot holds the mask last asked for, and is an ignored one exactly if its channel has been silenced. */
  ghost predicate Kept(slots: seq<PollFd>, at: map<int, int>, b: Book) {
    && b.asked.Keys == at.Keys && b.silenced <= at.Keys
    && forall fd {:trigger b.asked[fd]} :: fd in at && 0 <= at[fd] < |slots| ==>
         && slots[at[fd]].events == b.asked[fd] && (slots[at[fd]].fd < 0 <==> fd in b.silenced)
         && (b.asked[fd] == NONE_EVENT ==> fd in b.silenced || fd in b.bare)
  }

  function AfterPush(b: Book, fd: int, mask: Mask): Book {
    Book(b.asked[fd := mask], b.silenced, if mask == NONE_EVENT then b.bare + {fd} else b.bare)
  }

  function AfterUpdate(b: Book, fd: int, mask: Mask): Book {
    Book(b.asked[fd := mask], if mask == NONE_EVENT then b.silenced + {fd} else b.silenced, b.bare)
  }

  function AfterRemoval(b: Book, fd: int): Book {
    Book(b.asked - {fd}, b.silenced - {fd}, b.bare - {fd})
  }

  lemma PushKept(slots: seq<PollFd>, at: map<int, int>, b: Book, fd: nat, mask: Mask)
    requires Bijection(slots, at) && Kept(slots, at, b) && fd !in at
    ensures Kept(Push(slots, PollFd(fd, mask, NONE_EVENT)), at[fd := |slots|], AfterPush(b, fd, mask))
  {}

  lemma UpdateKept(slots: seq<PollFd>, at: map<int, int>, b: Book, fd: nat, i: nat, mask: Mask)
    requires Bijection(slots, at) && Kept(slots, at, b) && fd in at && at[fd] == i < |slots|
    ensures Kept(slots[i := Revised(slots[i], fd, mask)], at, AfterUpdate(b, fd, mask))
  {
    assert forall other :: other in at && at[other] == at[fd] ==> other == fd;
  }

  lemma SwapRemoveKept(slots: seq<PollFd>, at: map<int, int>, b: Book, fd: nat)
    requires Bijection(slots, at) && Kept(slots, at, b) && fd in at
    ensures Kept(SwapRemove(slots, at[fd]), Relocated(slots, at, fd), AfterRemoval(b, fd))
  {
    var slots', at' := SwapRemove(slots, at[fd]), Relocated(slots, at, fd);
    SwapRemoveKeeps(slots, at, fd);
    forall other | other in at'
      ensures other in at && 0 <= at'[other] < |slots'| && slots'[at'[other]] == slots[at[other]]
    {
      assert FdOf(slots[at[other]]) == other && FdOf(slots[at[fd]]) == fd;
    }
  }

  predicate Ready(p: PollFd) {
    0 < p.revents < 0x8000
  }

  /** The positions of the ready slots, in order. */
  function ReadySlots(slots: seq<PollFd>): (r: seq<nat>)
    ensures forall k :: 0 <= k < |r| ==> r[k] < |slots|
  {
    if slots == [] then []
    else
      var n := |slots| - 1;
      ReadySlots(slots[..n]) + if Ready(slots[n]) then [n] else []
  }

  lemma ReadyNext(slots: seq<PollFd>, i: nat)
    requires i < |slots|
    ensures ReadySlots(slots[..i + 1]) == ReadySlots(slots[..i]) + if Ready(slots[i]) then [i] else []
  {
    assert slots[..i + 1][..i] == slots[..i];
  }

  lemma {:induction false} ReadyPrefix(slots: seq<PollFd>, i: nat)
    requires i <= |slots|
    ensures ReadySlots(slots[..i]) <= ReadySlots(slots)
    decreases |slots| - i
  {
    if i == |slots| {
      assert slots[..i] == slots;
    } else {
      ReadyNext(slots, i);
      ReadyPrefix(slots, i + 1);
    }
  }

  lemma ReadyStep(slots: seq<PollFd>, i: nat)
    requires i < |slots|
    ensures ReadySlots(slots[..i + 1]) == ReadySlots(slots[..i]) + if Ready(slots[i]) then [i] else []
    ensures ReadySlots(slots[..i + 1]) <= ReadySlots(slots)
  {
    ReadyNext(slots, i);
    ReadyPrefix(slots, i + 1);
  }

  /** A scan that has seen every slot, or as many ready ones as there are, has found them all. */
  lemma AllFound(slots: seq<PollFd>, i: nat, left: nat)
    requires i <= |slots| && |ReadySlots(slots[..i])| == |ReadySlots(slots)| - left
    requires i == |slots| || left == 0
    ensures ReadySlots(slots[..i]) == ReadySlots(slots)
  {
    ReadyPrefix(slots, i);
    assert i == |slots| ==> slots[..i] == slots;
  }

  lemma {:induction false} ReadySlotsAre(slots: seq<PollFd>)
    ensures forall i :: 0 <= i < |slots| ==> (Ready(slots[i]) <==> i in ReadySlots(slots))
    ensures forall j, k :: 0 <= j < k < |ReadySlots(slots)| ==> ReadySlots(slots)[j] < ReadySlots(slots)[k]
  {
    if slots != [] {
      var n := |slots| - 1;
      ReadySlotsAre(slots[..n]);
      var before := ReadySlots(slots[..n]);
      assert forall i :: i in before ==> i < n;
      assert forall i :: 0 <= i < n ==> slots[..n][i] == slots[i];
    }
  }

  /** A short is positive when it has a bit, but not the sign bit. */
  lemma PositiveShort(m: Mask)
    ensures 0 < m < 0x8000 <==> m != 0 && m & 0x8000 == 0
  {}

  /** Every slot with a report appears once, after those before it, and no other slot appears. */
  lemma ReadySlotsExactly(slots: seq<PollFd>)
    ensures forall i :: 0 <= i < |slots| ==>
              (slots[i].revents != 0 && slots[i].revents & 0x8000 == 0 <==> i in ReadySlots(slots))
    ensures forall j, k :: 0 <= j < k < |ReadySlots(slots)| ==> ReadySlots(slots)[j] < ReadySlots(slots)[k]
  {
    ReadySlotsAre(slots);
    forall i | 0 <= i < |slots|
      ensures Ready(slots[i]) <==> slots[i].revents != 0 && slots[i].revents & 0x8000 == 0
    {
      PositiveShort(slots[i].revents);
    }
  }
}

/** The poller object. */
module Pollers {
  import opened Channels
  import opened PollSlots

  class Poller {
    var pollfds: seq<PollFd>
    var channels: map<int, Channel>
    ghost var slotOf: map<int, int>
    ghost var book: Book

    /** Slots and registered channels point at each other. */
    ghost predicate Linked()
      reads this, channels.Values`index
    {
      && channels.Keys == slotOf.Keys
      && (forall fd :: fd in channels ==> channels[fd].fd == fd && channels[fd].index == slotOf[fd])
      && Bijection(pollfds, slotOf)
    }

    ghost predicate Valid()
      reads this, channels.Values`index
    {
      Linked() && Kept(pollfds, slotOf, book)
    }

    /** The book knows the masks of all channels, except perhaps of the one that has just changed its own. */
    ghost predicate UpToDate(c: Channel?)
      reads this`channels, this`book, channels.Values`events
    {
      forall fd :: fd in channels && channels[fd] != c ==> fd in book.asked && channels[fd].events == book.asked[fd]
    }

    ghost predicate Registered(c: Channel)
      reads this
    {
      c.fd in channels && channels[c.fd] == c
    }

    constructor ()
      ensures Valid() && UpToDate(null) && pollfds == [] && channels == map[] && book == Book(map[], {}, {})
    {
      pollfds, channels, slotOf, book := [], map[], map[], Book(map[], {}, {});
    }

    /** A new slot behind the others. */
    method PushSlot(channel: Channel)
      requires Linked() && channel.fd !in channels
      modifies this`pollfds, this`channels, this`slotOf, channel`index
      ensures Linked() && channels == old(channels)[channel.fd := channel]
      ensures pollfds == Push(old(pollfds), PollFd(channel.fd, channel.events, NONE_EVENT))
      ensures slotOf == old(slotOf)[channel.fd := |old(pollfds)|]
    {
      var pfd := PollFd(channel.fd, channel.events, NONE_EVENT);
      PushKeeps(pollfds, slotOf, pfd);
      pollfds := pollfds + [pfd];
      slotOf := slotOf[channel.fd := |pollfds| - 1];
      channel.index := |pollfds| - 1;
      channels := channels[channel.fd := channel];
    }

    method AddChannel(channel: Channel)
      requires Valid() && UpToDate(channel) && channel.fd !in channels
      modifies this, channel`index
      ensures Valid() && UpToDate(null) && Registered(channel) && channels == old(channels)[channel.fd := channel]
      ensures pollfds == Push(old(pollfds), PollFd(channel.fd, channel.events, NONE_EVENT))
      ensures book == AfterPush(old(book), channel.fd, channel.events)
    {
      PushKept(pollfds, slotOf, book, channel.fd, channel.events);
      PushSlot(channel);
      book := AfterPush(book, channel.fd, channel.events);
    }

    /** The slot of a registered channel takes its mask, and is ignored from now on if that is empty. */
    method SetSlot(channel: Channel)
      requires Linked() && Registered(channel)
      modifies this`pollfds
      ensures Linked() && 0 <= channel.index < |old(pollfds)|
      ensures pollfds == old(pollfds)[channel.index := Revised(old(pollfds)[channel.index], channel.fd, channel.events)]
    {
      var idx := channel.index;
      var pfd := pollfds[idx].(events := channel.events, revents := NONE_EVENT);
      if channel.IsNoneEvent() {
        pfd := pfd.(fd := Complement(channel.fd));
      }
      UpdateKeeps(pollfds, slotOf, idx, pfd);
      pollfds := pollfds[idx := pfd];
    }

    ghost method NoteMask(channel: Channel)
      requires Linked() && UpToDate(channel) && Registered(channel)
      modifies this`book
      ensures UpToDate(null) && book == AfterUpdate(old(book), channel.fd, channel.events)
    {
      book := AfterUpdate(book, channel.fd, channel.events);
      forall fd | fd in channels ensures fd in book.asked && channels[fd].events == book.asked[fd] {
        assert channels[fd] == channel <==> fd == channel.fd;
      }
    }

    method ReviseChannel(channel: Channel)
      requires Valid() && UpToDate(channel) && Registered(channel)
      modifies this`pollfds, this`book
      ensures Valid() && UpToDate(null) && 0 <= channel.index < |old(pollfds)|
      ensures pollfds == old(pollfds)[channel.index := Revised(old(pollfds)[channel.index], channel.fd, channel.events)]
      ensures book == AfterUpdate(old(book), channel.fd, channel.events)
    {
      ghost var slots := pollfds[channel.index := Revised(pollfds[channel.index], channel.fd, channel.events)];
      ghost var b := AfterUpdate(book, channel.fd, channel.events);
      UpdateKept(pollfds, slotOf, book, channel.fd, channel.index, channel.events);
      SetSlot(channel);
      assert Kept(pollfds, slotOf, b) by { assert pollfds == slots; }
      NoteMask(channel);
      assert book == b;
    }

    method UpdateChannel(channel: Channel)
      requires Valid() && UpToDate(channel)
      requires if channel.index < 0 then channel.fd !in channels else Registered(channel)
      modifies this, channel`index
      ensures Valid() && UpToDate(null) && Registered(channel) && channels == old(channels)[channel.fd := channel]
      ensures old(channel.index) < 0 ==>
                && pollfds == Push(old(pollfds), PollFd(channel.fd, channel.events, NONE_EVENT))
                && book == AfterPush(old(book), channel.fd, channel.events)
      ensures old(channel.index) >= 0 ==>
                && channel.index == old(channel.index)
                && pollfds == old(pollfds)[channel.index :=
                                Revised(old(pollfds)[channel.index], channel.fd, channel.events)]
                && book == AfterUpdate(old(book), channel.fd, channel.events)
    {
      if channel.index < 0 {
        AddChannel(channel);
      } else {
        ReviseChannel(channel);
      }
    }

    /** The slot at idx and the last one change places; whose is the one that moves down? */
    method SwapWithLast(idx: nat) returns (channelAtEnd: int)
      requires idx < |pollfds|
      modifies this`pollfds
      ensures pollfds == old(pollfds[idx := pollfds[|pollfds| - 1]][|pollfds| - 1 := pollfds[idx]])
      ensures channelAtEnd == FdOf(old(pollfds[|pollfds| - 1]))
    {
      channelAtEnd := pollfds[|pollfds| - 1].fd;
      pollfds := pollfds[idx := pollfds[|pollfds| - 1]][|pollfds| - 1 := pollfds[idx]];
      if channelAtEnd < 0 {
        channelAtEnd := Complement(channelAtEnd);
      }
    }

    /** The registered channels are those of all slots but one. */
    ghost predicate LinkedBut(fd: nat)
      reads this, channels.Values`index
    {
      && Bijection(pollfds, slotOf) && fd in slotOf && channels.Keys == slotOf.Keys - {fd}
      && forall f :: f in channels ==> channels[f].fd == f && channels[f].index == slotOf[f]
    }

    /** The last slot moves into the freed one, and its channel learns where it is. */
    method MoveLast(idx: nat, ghost slots: seq<PollFd>, ghost at: map<int, int>)
      requires idx < |pollfds| - 1
      requires slots == pollfds[idx := pollfds[|pollfds| - 1]][|pollfds| - 1 := pollfds[idx]][..|pollfds| - 1]
      requires Bijection(slots, at) && channels.Keys == at.Keys
      requires FdOf(pollfds[|pollfds| - 1]) in channels
      requires forall f :: f in channels ==> channels[f].fd == f
      requires forall f :: f in channels ==>
              at[f] == if f == FdOf(pollfds[|pollfds| - 1]) then idx else channels[f].index
      modifies this`pollfds, this`slotOf, channels.Values`index
      ensures Linked() && pollfds == slots && slotOf == at
    {
      var channelAtEnd := SwapWithLast(idx);
      channels[channelAtEnd].index := idx;
      pollfds := pollfds[..|pollfds| - 1];
      slotOf := at;
    }

    /** Frees the slot of a descriptor that is no longer registered. */
    method DropSlot(idx: nat, ghost fd: nat)
      requires LinkedBut(fd) && slotOf[fd] == idx
      modifies this`pollfds, this`slotOf, channels.Values`index
      ensures Linked() && pollfds == SwapRemove(old(pollfds), idx)
      ensures slotOf == Relocated(old(pollfds), old(slotOf), fd)
    {
      SwapRemoveKeeps(pollfds, slotOf, fd);
      if idx == |pollfds| - 1 {
        slotOf := Relocated(pollfds, slotOf, fd);
        pollfds := pollfds[..|pollfds| - 1];
      } else {
        LastIsAnother(pollfds, slotOf, fd);
        SwapThenPop(pollfds, idx);
        MoveLast(idx, SwapRemove(pollfds, idx), Relocated(pollfds, slotOf, fd));
      }
    }

    /** The check in removeChannel: the slot is an ignored one and holds the channel's mask. */
    ghost predicate RemovalCheck(channel: Channel)
      requires 0 <= channel.index < |pollfds|
      reads this, channel
    {
      pollfds[channel.index].fd == Complement(channel.fd) && pollfds[channel.index].events == channel.events
    }

    /** The check holds exactly when some update has found the registered channel without interest. A channel without
        interest that was registered with some has had such an update. */
    lemma RemovalCheckExactly(channel: Channel)
      requires Valid() && UpToDate(null) && Registered(channel)
      ensures 0 <= channel.index < |pollfds|
      ensures RemovalCheck(channel) <==> channel.fd in book.silenced
      ensures channel.IsNoneEvent() && channel.fd !in book.bare ==> RemovalCheck(channel)
    {
      assert slotOf[channel.fd] == channel.index && FdOf(pollfds[channel.index]) == channel.fd;
    }

    /** A channel leaves the map and the slots. */
    method Unregister(channel: Channel)
      requires Linked() && Registered(channel)
      modifies this`pollfds, this`channels, this`slotOf, channels.Values`index
      ensures Linked() && channels == old(channels) - {channel.fd}
      ensures 0 <= old(channel.index) < |old(pollfds)| && pollfds == SwapRemove(old(pollfds), old(channel.index))
      ensures slotOf == Relocated(old(pollfds), old(slotOf), channel.fd)
    {
      var idx := channel.index;
      channels := channels - {channel.fd};
      DropSlot(idx, channel.fd);
    }

    lemma FewerUpToDate(before: map<int, Channel>, b: Book, fd: int)
      requires forall f :: f in before ==> f in b.asked && before[f].events == b.asked[f]
      requires channels == before - {fd} && book == AfterRemoval(b, fd)
      ensures UpToDate(null)
    {}

    /** The source asks for a registered channel that has been disabled. */
    method RemoveChannel(channel: Channel)
      requires Valid() && UpToDate(null) && Registered(channel) && channel.IsNoneEvent()
      modifies this, channels.Values`index
      ensures Valid() && UpToDate(null) && channels == old(channels) - {channel.fd}
      ensures pollfds == SwapRemove(old(pollfds), old(channel.index))
      ensures slotOf == Relocated(old(pollfds), old(slotOf), channel.fd) && book == AfterRemoval(old(book), channel.fd)
    {
      ghost var slots, at := SwapRemove(pollfds, slotOf[channel.fd]), Relocated(pollfds, slotOf, channel.fd);
      SwapRemoveKept(pollfds, slotOf, book, channel.fd);
      Unregister(channel);
      assert pollfds == slots && slotOf == at;
      book := AfterRemoval(book, channel.fd);
      FewerUpToDate(old(channels), old(book), channel.fd);
    }

    ghost predicate ReportSet(c: Channel)
      reads this, c`index, c`revents
    {
      0 <= c.index < |pollfds| && c.revents == pollfds[c.index].revents
    }

    /** Reports one ready slot to its channel. */
    method HandOut(i: nat, channel: Channel, soFar: seq<Channel>) returns (activeChannels: seq<Channel>)
      requires Linked() && i < |pollfds| && channel.index == i
      requires forall c :: c in soFar ==> ReportSet(c) && c.index < i
      modifies channel`revents
      ensures Linked() && activeChannels == soFar + [channel]
      ensures forall c :: c in activeChannels ==> ReportSet(c) && c.index < i + 1
    {
      channel.revents := pollfds[i].revents;
      activeChannels := soFar + [channel];
    }

    /** The channels of the given slots, in the same order. */
    ghost predicate HandedOut(cs: seq<Channel>, at: seq<nat>)
      reads this
    {
      && |cs| == |at|
      && forall k :: 0 <= k < |cs| ==>
          at[k] < |pollfds| && pollfds[at[k]].fd in channels && cs[k] == channels[pollfds[at[k]].fd]
    }

    lemma HandOutNext(cs: seq<Channel>, at: seq<nat>, i: nat)
      requires Linked() && HandedOut(cs, at) && i < |pollfds| && pollfds[i].fd >= 0
      ensures pollfds[i].fd in channels && channels[pollfds[i].fd].index == i
      ensures HandedOut(cs + [channels[pollfds[i].fd]], at + [i])
    {
      assert FdOf(pollfds[i]) in slotOf && slotOf[FdOf(pollfds[i])] == i;
    }

    /** The channels of the ready slots before i have been handed out, and they hold their reports. */
    ghost predicate Progress(i: int, cs: seq<Channel>)
      reads this, channels.Values`index, cs, channels.Values`revents
    {
      && 0 <= i <= |pollfds| && HandedOut(cs, ReadySlots(pollfds[..i]))
      && forall c :: c in cs ==> ReportSet(c) && c.index < i
    }

    /** Looks at one slot and hands out its channel if it is ready. */
    method Visit(i: nat, cs: seq<Channel>) returns (more: seq<Channel>)
      requires Linked() && i < |pollfds| && (Ready(pollfds[i]) ==> pollfds[i].fd >= 0)
      requires Progress(i, cs)
      modifies channels.Values`revents
      ensures Linked() && Progress(i + 1, more)
      ensures |more| == |cs| + if Ready(pollfds[i]) then 1 else 0
    {
      ReadyStep(pollfds, i);
      more := cs;
      if Ready(pollfds[i]) {
        HandOutNext(cs, ReadySlots(pollfds[..i]), i);
        more := HandOut(i, channels[pollfds[i].fd], cs);
      }
    }

    /** Given the true number of ready slots, hands out every ready channel once, in slot order, although it may stop
        early. */
    method FillActiveChannels(numEvents: nat) returns (activeChannels: seq<Channel>)
      requires Valid() && numEvents == |ReadySlots(pollfds)|
      requires forall i :: 0 <= i < |pollfds| && Ready(pollfds[i]) ==> pollfds[i].fd >= 0
      modifies channels.Values`revents
      ensures Valid() && HandedOut(activeChannels, ReadySlots(pollfds))
      ensures forall c :: c in activeChannels ==> ReportSet(c)
    {
      activeChannels := [];
      var i, left := 0, numEvents;
      while i < |pollfds| && left > 0
        invariant Linked() && Progress(i, activeChannels)
        invariant |activeChannels| == numEvents - left
      {
        activeChannels := Visit(i, activeChannels);
        if Ready(pollfds[i]) {
          left := left - 1;
          ReadyPrefix(pollfds, i + 1);
        }
        i := i + 1;
      }
      AllFound(pollfds, i, left);
    }

    /** A slot that was disabled stays ignored when its channel asks for events again. */
    method Reenable(channel: Channel, mask: Mask)
      requires Valid() && UpToDate(channel) && Registered(channel) && mask != NONE_EVENT
      modifies this, channel`index, channel`events
      ensures Valid() && UpToDate(null) && Registered(channel) && channel.events == mask
      ensures pollfds[channel.index].fd == old(pollfds[channel.index].fd) && pollfds[channel.index].events == mask
      ensures book == AfterUpdate(old(book), channel.fd, mask)
    {
      channel.events := mask;
      UpdateChannel(channel);
    }

    /** poll ignores a registered channel, whatever it asks for, exactly when it has been silenced once. */
    lemma IgnoredExactly(channel: Channel)
      requires Valid() && Registered(channel)
      ensures 0 <= channel.index < |pollfds|
      ensures pollfds[channel.index].fd < 0 <==> channel.fd in book.silenced
    {}
  }

  /** A channel registered without interest, and so disabled, fails the check in removeChannel. */
  method RemovalCheckWitness(fd: nat) returns (p: Poller, c: Channel)
    ensures fresh(p) && fresh(c) && p.Valid() && p.UpToDate(null) && p.Registered(c) && c.IsNoneEvent()
    ensures 0 <= c.index < |p.pollfds| && !p.RemovalCheck(c)
  {
    p := new Poller();
    c := new Channel(fd);
    p.UpdateChannel(c);
    p.RemovalCheckExactly(c);
  }

  /** A channel that asks for events, stops asking and asks again is ignored for good. */
  method ReenableWitness(fd: nat) returns (p: Poller, c: Channel)
    ensures fresh(p) && fresh(c) && p.Valid() && p.Registered(c) && !c.IsNoneEvent()
    ensures 0 <= c.index < |p.pollfds| && p.pollfds[c.index].fd < 0
  {
    p := new Poller();
    c := new Channel(fd);
    c.events := READ_EVENT;
    p.UpdateChannel(c);
    c.events := NONE_EVENT;
    p.UpdateChannel(c);
    p.Reenable(c, READ_EVENT);
    p.IgnoredExactly(c);
  }
}
