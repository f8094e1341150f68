/** A file descriptor's interest and the dispatch of its events: chaonet/include/Channel.h and
    chaonet/src/Channel.cpp. */
module Channels {

  type Mask = bv16

  const POLLIN: Mask := 0x1
  const POLLPRI: Mask := 0x2
  const POLLOUT: Mask := 0x4
  const POLLERR: Mask := 0x8
  const POLLHUP: Mask := 0x10
  const POLLNVAL: Mask := 0x20
  const POLLRDHUP: Mask := 0x2000

  const NONE_EVENT: Mask := 0
  const READ_EVENT: Mask := 0x3
  const WRITE_EVENT: Mask := 0x4

  datatype Callback = OnClose | OnError | OnRead | OnWrite

  predicate Triggers(revents: Mask, c: Callback) {
    match c
    case OnClose => revents & POLLHUP != 0 && revents & POLLIN == 0
    case OnError => revents & (POLLERR | POLLNVAL) != 0
    case OnRead => revents & (POLLIN | POLLPRI | POLLRDHUP) != 0
    case OnWrite => revents & POLLOUT != 0
  }

  function Only(b: bool, x: Callback): seq<Callback> {
    if b then [x] else []
  }

  /** The callbacks, in the order in which they are called. */
  function Calls(close: bool, error: bool, read: bool, write: bool): seq<Callback> {
    [] + Only(close, OnClose) + Only(error, OnError) + Only(read, OnRead) + Only(write, OnWrite)
  }

  function Dispatch(revents: Mask, installed: set<Callback>): seq<Callback> {
    Calls(Triggers(revents, OnClose) && OnClose in installed, Triggers(revents, OnError) && OnError in installed,
          Triggers(revents, OnRead) && OnRead in installed, Triggers(revents, OnWrite) && OnWrite in installed)
  }

  /** Close, error, read, write. */
  function Rank(c: Callback): nat {
    match c
    case OnClose => 0
    case OnError => 1
    case OnRead => 2
    case OnWrite => 3
  }

  lemma TriggersExactly(revents: Mask)
    ensures Triggers(revents, OnClose) <==> revents & 0x10 == 0x10 && revents & 0x1 == 0
    ensures Triggers(revents, OnError) <==> revents & 0x8 == 0x8 || revents & 0x20 == 0x20
    ensures Triggers(revents, OnRead) <==>
              revents & 0x1 == 0x1 || revents & 0x2 == 0x2 || revents & 0x2000 == 0x2000
    ensures Triggers(revents, OnWrite) <==> revents & 0x4 == 0x4
  {}

  predicate Ranked(q: seq<Callback>) {
    forall i, j :: 0 <= i < j < |q| ==> Rank(q[i]) < Rank(q[j])
  }

  lemma RankedNext(q: seq<Callback>, b: bool, x: Callback)
    requires Ranked(q) && forall c :: c in q ==> Rank(c) < Rank(x)
    ensures Ranked(q + Only(b, x))
    ensures forall c :: c in q + Only(b, x) <==> c in q || (b && c == x)
  {}

  lemma CallsRanked(close: bool, error: bool, read: bool, write: bool)
    ensures var q := Calls(close, error, read, write);
            && (OnClose in q <==> close) && (OnError in q <==> error)
            && (OnRead in q <==> read) && (OnWrite in q <==> write)
            && Ranked(q)
  {
    RankedNext([], close, OnClose);
    var q1 := [] + Only(close, OnClose);
    RankedNext(q1, error, OnError);
    var q2 := q1 + Only(error, OnError);
    RankedNext(q2, read, OnRead);
    RankedNext(q2 + Only(read, OnRead), write, OnWrite);
  }

  /** Bit by bit: a hang-up with nothing to read closes, an error or an invalid descriptor reports an error, input,
      urgent data or a peer that has shut down reads, and room for output writes; each at most once, in this order. */
  lemma DispatchExactly(revents: Mask, installed: set<Callback>)
    ensures var q := Dispatch(revents, installed);
            && (OnClose in q <==> OnClose in installed && revents & 0x10 == 0x10 && revents & 0x1 == 0)
            && (OnError in q <==> OnError in installed && (revents & 0x8 == 0x8 || revents & 0x20 == 0x20))
            && (OnRead in q <==>
                  && OnRead in installed
                  && (revents & 0x1 == 0x1 || revents & 0x2 == 0x2 || revents & 0x2000 == 0x2000))
            && (OnWrite in q <==> OnWrite in installed && revents & 0x4 == 0x4)
            && Ranked(q)
  {
    TriggersExactly(revents);
    var close := Triggers(revents, OnClose) && OnClose in installed;
    var error := Triggers(revents, OnError) && OnError in installed;
    var read := Triggers(revents, OnRead) && OnRead in installed;
    var write := Triggers(revents, OnWrite) && OnWrite in installed;
    CallsRanked(close, error, read, write);
  }

  class Channel {
    const fd: nat
    var events: Mask
    var revents: Mask
    var index: int

    constructor (fd: nat)
      ensures this.fd == fd && events == NONE_EVENT && revents == NONE_EVENT && index == -1
    {
      this.fd := fd;
      events, revents, index := NONE_EVENT, NONE_EVENT, -1;
    }

    predicate IsNoneEvent()
      reads this`events
    {
      events == NONE_EVENT
    }

    predicate IsReading()
      reads this
    {
      events & READ_EVENT != 0
    }

    predicate IsWriting()
      reads this
    {
      events & WRITE_EVENT != 0
    }

    /** Invokes the installed callbacks for what poll reported, in the order close, error, read, write. */
    method HandleEvent(installed: set<Callback>) returns (called: seq<Callback>)
      ensures called == Dispatch(revents, installed)
    {
      called := [];
      if revents & POLLHUP != 0 && revents & POLLIN == 0 {
        if OnClose in installed { called := called + [OnClose]; }
      }
      if revents & (POLLERR | POLLNVAL) != 0 {
        if OnError in installed { called := called + [OnError]; }
      }
      if revents & (POLLIN | POLLPRI | POLLRDHUP) != 0 {
        if OnRead in installed { called := called + [OnRead]; }
      }
      if revents & POLLOUT != 0 {
        if OnWrite in installed { called := called + [OnWrite]; }
      }
    }
  }

  /** A connection's read handler may find the end of the stream and close as well. The two handlers that can
      close run for the same report exactly when it is a hang-up without POLLIN that carries POLLPRI or POLLRDHUP. */
  lemma ClosesTwiceExactly(revents: Mask, installed: set<Callback>)
    requires OnClose in installed && OnRead in installed
    ensures OnClose in Dispatch(revents, installed) && OnRead in Dispatch(revents, installed)
            <==> revents & POLLHUP != 0 && revents & POLLIN == 0 && revents & (POLLPRI | POLLRDHUP) != 0
  {
    assert revents & POLLIN == 0 ==>
             (revents & (POLLIN | POLLPRI | POLLRDHUP) != 0 <==> revents & (POLLPRI | POLLRDHUP) != 0);
  }

  /** A peer that has gone away. */
  lemma ClosesTwiceWitness()
    ensures Dispatch(POLLHUP | POLLRDHUP, {OnClose, OnRead}) == [OnClose, OnRead]
  {
    assert (POLLHUP | POLLRDHUP) & POLLHUP != 0 && (POLLHUP | POLLRDHUP) & POLLIN == 0;
    assert (POLLHUP | POLLRDHUP) & (POLLERR | POLLNVAL) == 0 && (POLLHUP | POLLRDHUP) & POLLOUT == 0;
    assert (POLLHUP | POLLRDHUP) & (POLLIN | POLLPRI | POLLRDHUP) != 0;
  }
}
