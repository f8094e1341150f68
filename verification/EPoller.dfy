/** The epoll registry of chaonet/src/EPoller.cpp and the kernel interest set it drives. */
module EPollers {
  import opened Channels
  import opened Buffers

  const NEW := -1
  const ADDED := 1
  const DELETED := 2

  datatype Op = CtlAdd | CtlMod | CtlDel

  /** What the kernel keeps for a descriptor: the mask, and the pointer it hands back with every report. */
  datatype Watch = Watch(events: Mask, ptr: Channel)

  /** One epoll_ctl call. */
  datatype Ctl = Ctl(op: Op, fd: nat, watch: Watch)

  type Interest = map<nat, Watch>

  /** One entry that epoll_wait filled in. */
  datatype Report = Report(fd: nat, ptr: Channel, events: Mask)

  /** The kernel's side of one call: adding what is present, or changing or deleting what is absent, is an error. */
  function CtlStep(k: Interest, c: Ctl): Option<Interest> {
    match c.op
    case CtlAdd => if c.fd in k then None else Some(k[c.fd := c.watch])
    case CtlMod => if c.fd in k then Some(k[c.fd := c.watch]) else None
    case CtlDel => if c.fd in k then Some(k - {c.fd}) else None
  }

  /** The kernel's interest set after a sequence of calls, provided that every one of them was legal. */
  function Kernel(issued: seq<Ctl>): Option<Interest> {
    if issued == [] then Some(map[])
    else
      var k := Kernel(issued[..|issued| - 1]);
      if k.None? then None else CtlStep(k.value, issued[|issued| - 1])
  }

  lemma KernelNext(issued: seq<Ctl>, c: Ctl)
    requires Kernel(issued).Some?
    ensures Kernel(issued + [c]) == CtlStep(Kernel(issued).value, c)
  {
    assert (issued + [c])[..|issued|] == issued;
  }

  class EPoller {
    var channels: map<nat, Channel>
    ghost var issued: seq<Ctl>     // every epoll_ctl call so far
    ghost var interest: Interest   // what the kernel holds

    /** The registry and the kernel agree, except perhaps about the channel whose events have just changed. */
    ghost predicate ValidExcept(c: Channel?)
      reads this, channels.Values`index, channels.Values`events
    {
      && Kernel(issued) == Some(interest)
      && (forall fd :: fd in interest ==> fd in channels)
      && forall fd :: fd in channels ==>
           var ch := channels[fd];
           && ch.fd == fd
           && (ch.index == ADDED || ch.index == DELETED)
           && (ch.index == ADDED <==> fd in interest)
           && (ch.index == ADDED ==> interest[fd].ptr == ch)
           && (ch != c ==> if ch.index == ADDED then interest[fd].events == ch.events else ch.IsNoneEvent())
    }

    ghost predicate Valid()
      reads this, channels.Values`index, channels.Values`events
    {
      ValidExcept(null)
    }

    ghost predicate Registered(c: Channel)
      reads this
    {
      c.fd in channels && channels[c.fd] == c
    }

    /** A channel may be updated if it is registered, or if it is new and its descriptor is free. */
    ghost predicate Updatable(c: Channel)
      reads this, c
    {
      Registered(c) || (c.index == NEW && c.fd !in channels)
    }

    constructor ()
      ensures Valid() && channels == map[] && issued == []
    {
      channels, issued, interest := map[], [], map[];
    }

    method Update(op: Op, channel: Channel)
      requires Kernel(issued) == Some(interest)
      requires CtlStep(interest, Ctl(op, channel.fd, Watch(channel.events, channel))).Some?
      modifies this`issued, this`interest
      ensures Kernel(issued) == Some(interest)
      ensures Some(interest) == CtlStep(old(interest), Ctl(op, channel.fd, Watch(channel.events, channel)))
      ensures issued == old(issued) + [Ctl(op, channel.fd, Watch(channel.events, channel))]
    {
      ghost var c := Ctl(op, channel.fd, Watch(channel.events, channel));
      KernelNext(issued, c);
      issued := issued + [c];
      interest := CtlStep(interest, c).value;
    }

    /** A channel that the kernel does not know, new or deleted before, is added. */
    method AddChannel(channel: Channel)
      requires ValidExcept(channel) && Updatable(channel) && channel.index != ADDED
      modifies this, channel`index
      ensures Valid() && Registered(channel) && channels == old(channels)[channel.fd := channel]
      ensures channel.index == ADDED && interest == old(interest)[channel.fd := Watch(channel.events, channel)]
    {
      if channel.index == NEW {
        channels := channels[channel.fd := channel];
      }
      channel.index := ADDED;
      Update(CtlAdd, channel);
    }

    /** Makes the kernel see the channel's events; every epoll_ctl call this needs is legal. */
    method UpdateChannel(channel: Channel)
      requires ValidExcept(channel) && Updatable(channel)
      modifies this, channel`index
      ensures Valid() && Registered(channel) && channels == old(channels)[channel.fd := channel]
      ensures interest == if channel.IsNoneEvent() && old(channel.index) == ADDED then old(interest) - {channel.fd}
                          else old(interest)[channel.fd := Watch(channel.events, channel)]
    {
      var index := channel.index;
      if index == NEW || index == DELETED {
        AddChannel(channel);
      } else {
        assert index == ADDED;
        if channel.IsNoneEvent() {
          Update(CtlDel, channel);
          channel.index := DELETED;
        } else {
          Update(CtlMod, channel);
        }
        assert channels == old(channels)[channel.fd := channel];
      }
    }

    method RemoveChannel(channel: Channel)
      requires Valid() && Registered(channel) && channel.IsNoneEvent()
      modifies this, channel`index
      ensures Valid() && channels == old(channels) - {channel.fd} && interest == old(interest) - {channel.fd}
      ensures channel.index == NEW && Updatable(channel)
    {
      var index := channel.index;
      channels := channels - {channel.fd};
      if index == ADDED {
        Update(CtlDel, channel);
      }
      channel.index := NEW;
    }

    /** What the kernel may report: descriptors it watches, each once, with the pointers it was given. */
    ghost predicate FromKernel(reports: seq<Report>)
      reads this
    {
      && (forall i :: 0 <= i < |reports| ==> reports[i].fd in interest && reports[i].ptr == interest[reports[i].fd].ptr)
      && (forall i, j :: 0 <= i < j < |reports| ==> reports[i].fd != reports[j].fd)
    }

    /** The look-up checks of the source: a pointer that the kernel hands back is the registered channel of its
        descriptor. */
    lemma ReportsAreRegistered(reports: seq<Report>)
      requires Valid() && FromKernel(reports)
      ensures forall i :: 0 <= i < |reports| ==> Registered(reports[i].ptr) && reports[i].ptr.fd == reports[i].fd
      ensures forall i, j :: 0 <= i < j < |reports| ==> reports[i].ptr != reports[j].ptr
    {}

    /** Hands out the channels epoll_wait reported, in its order. */
    method FillActiveChannels(reports: seq<Report>) returns (activeChannels: seq<Channel>)
      requires Valid() && FromKernel(reports)
      modifies (set r | r in reports :: r.ptr)`revents
      ensures Valid() && |activeChannels| == |reports|
      ensures forall i :: 0 <= i < |reports| ==>
                activeChannels[i] == channels[reports[i].fd] && activeChannels[i].revents == reports[i].events
    {
      ReportsAreRegistered(reports);
      activeChannels := [];
      for i := 0 to |reports|
        invariant Valid() && |activeChannels| == i
        invariant forall k :: 0 <= k < i ==>
                  activeChannels[k] == reports[k].ptr && reports[k].ptr.revents == reports[k].events
      {
        var channel := reports[i].ptr;
        assert reports[i] in reports;
        assert channel.fd in channels && channels[channel.fd] == channel;
        channel.revents := reports[i].events;
        activeChannels := activeChannels + [channel];
      }
    }

    // The operations of Channel.h that change the interest and call update.

    static lemma ReadMask(m: Mask)
      ensures m | READ_EVENT != NONE_EVENT
    {}

    static lemma WriteMask(m: Mask)
      ensures m | WRITE_EVENT != NONE_EVENT
    {}

    /** The kernel watches for something on exactly the registered channels that ask for something, and for just
        that. */
    lemma WatchedExactly(fd: nat, mask: Mask)
      requires Valid() && mask != NONE_EVENT
      ensures fd in interest && interest[fd].events == mask <==> fd in channels && channels[fd].events == mask
    {}

    method EnableReading(channel: Channel)
      requires Valid() && Updatable(channel)
      modifies this, channel`index, channel`events
      ensures Valid() && Registered(channel) && channel.events == old(channel.events) | READ_EVENT
      ensures interest == old(interest)[channel.fd := Watch(channel.events, channel)]
    {
      channel.events := channel.events | READ_EVENT;
      ReadMask(old(channel.events));
      UpdateChannel(channel);
    }

    method DisableReading(channel: Channel)
      requires Valid() && Updatable(channel)
      modifies this, channel`index, channel`events
      ensures Valid() && Registered(channel) && channel.events == old(channel.events) & !READ_EVENT
      ensures interest == if channel.IsNoneEvent() && old(channel.index) == ADDED then old(interest) - {channel.fd}
                          else old(interest)[channel.fd := Watch(channel.events, channel)]
    {
      channel.events := channel.events & !READ_EVENT;
      UpdateChannel(channel);
    }

    method EnableWriting(channel: Channel)
      requires Valid() && Updatable(channel)
      modifies this, channel`index, channel`events
      ensures Valid() && Registered(channel) && channel.events == old(channel.events) | WRITE_EVENT
      ensures interest == old(interest)[channel.fd := Watch(channel.events, channel)]
    {
      channel.events := channel.events | WRITE_EVENT;
      WriteMask(old(channel.events));
      UpdateChannel(channel);
    }

    method DisableWriting(channel: Channel)
      requires Valid() && Updatable(channel)
      modifies this, channel`index, channel`events
      ensures Valid() && Registered(channel) && channel.events == old(channel.events) & !WRITE_EVENT
      ensures interest == if channel.IsNoneEvent() && old(channel.index) == ADDED then old(interest) - {channel.fd}
                          else old(interest)[channel.fd := Watch(channel.events, channel)]
    {
      channel.events := channel.events & !WRITE_EVENT;
      UpdateChannel(channel);
    }

    method DisableAll(channel: Channel)
      requires Valid() && Updatable(channel)
      modifies this, channel`index, channel`events
      ensures Valid() && Registered(channel) && channel.IsNoneEvent()
      ensures interest == if old(channel.index) == ADDED then old(interest) - {channel.fd}
                          else old(interest)[channel.fd := Watch(NONE_EVENT, channel)]
    {
      channel.events := NONE_EVENT;
      UpdateChannel(channel);
    }
  }
}
