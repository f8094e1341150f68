/** One TCP connection of chaonet/src/TcpConnection.cpp as seen by its loop thread: every handler is a function
    from the connection's state to the next one, together with the functors it queues. */
module ConnectionSpec {
  datatype StateE = Connecting | Connected | Disconnecting | Disconnected

  /** What write() returns. */
  datatype WriteResult = Took(n: nat) | WouldBlock | WriteFailed

  /** What the socket has been told. */
  datatype Effect = Wrote(bytes: string) | ShutWrite

  /** A call from another thread waiting in the loop's queue. */
  datatype Functor = SendFunctor(message: string) | ShutdownFunctor

  /** A user callback queued on the loop. */
  datatype Task = WriteComplete | HighWater(bytes: nat)

  datatype Conn = Conn(
    state: StateE,
    reading: bool,
    readInterest: bool,
    writeInterest: bool,
    output: string,
    highWaterMark: nat,
    highWaterCallback: bool,
    writeCompleteCallback: bool,
    queued: seq<Functor>,
    accepted: string,          // history: every byte of every message sendInLoop was given
    effects: seq<Effect>       // history: everything done to the write side of the socket
  )

  datatype Outcome = Outcome(conn: Conn, tasks: seq<Task>)

  predicate Possible(r: WriteResult, size: nat) {
    r.Took? ==> r.n <= size
  }

  function Done(c: Conn): Outcome {
    Outcome(c, [])
  }

  /** Appends what the kernel did not take, and asks for writability. */
  function Keep(c: Conn, rest: string): Outcome {
    var oldLen := |c.output|;
    var high := oldLen + |rest| >= c.highWaterMark && oldLen < c.highWaterMark && c.highWaterCallback;
    Outcome(c.(output := c.output + rest, writeInterest := true), if high then [HighWater(oldLen + |rest|)] else [])
  }

  /** Bytes that the kernel took. */
  function Hand(c: Conn, bytes: string): Conn {
    if bytes == "" then c else c.(effects := c.effects + [Wrote(bytes)])
  }

  function SendInLoop(c: Conn, message: string, r: WriteResult): Outcome
    requires Possible(r, |message|)
  {
    var c0 := c.(accepted := c.accepted + message);
    if !c.writeInterest && c.output == "" then
      var n := if r.Took? then r.n else 0;
      var c1 := Hand(c0, message[..n]);
      if n < |message| then Keep(c1, message[n..])
      else Outcome(c1, if r.Took? && c.writeCompleteCallback then [WriteComplete] else [])
    else if |message| > 0 then Keep(c0, message)
    else Done(c0)
  }

  function Send(c: Conn, message: string, r: WriteResult): Outcome
    requires Possible(r, |message|)
  {
    if c.state == Connected then SendInLoop(c, message, r) else Done(c)
  }

  function ShutdownInLoop(c: Conn): Conn {
    if !c.writeInterest then c.(effects := c.effects + [ShutWrite]) else c
  }

  function Shutdown(c: Conn): Conn {
    if c.state == Connected then ShutdownInLoop(c.(state := Disconnecting)) else c
  }

  /** The part of send that runs on the caller's thread. */
  function SendFromOther(c: Conn, message: string): Conn {
    if c.state == Connected then c.(queued := c.queued + [SendFunctor(message)]) else c
  }

  /** The part of shutdown that runs on the caller's thread: the state changes at once, the rest is queued. */
  function ShutdownFromOther(c: Conn): Conn {
    if c.state == Connected then c.(state := Disconnecting, queued := c.queued + [ShutdownFunctor]) else c
  }

  function RunOldest(c: Conn, r: WriteResult): Outcome
    requires c.queued != [] && (c.queued[0].SendFunctor? ==> Possible(r, |c.queued[0].message|))
  {
    var c0 := c.(queued := c.queued[1..]);
    match c.queued[0]
    case SendFunctor(m) => SendInLoop(c0, m, r)
    case ShutdownFunctor => Done(ShutdownInLoop(c0))
  }

  function Taken(c: Conn, n: nat): Conn
    requires n <= |c.output|
  {
    Hand(c, c.output[..n]).(output := c.output[n..])
  }

  function AfterDrain(c: Conn): Conn {
    var c1 := c.(writeInterest := false);
    if c.state == Disconnecting then ShutdownInLoop(c1) else c1
  }

  function HandleWrite(c: Conn, r: WriteResult): Outcome
    requires Possible(r, |c.output|)
  {
    if c.writeInterest && r.Took? && r.n > 0 then
      if r.n == |c.output| then
        Outcome(AfterDrain(Taken(c, r.n)), if c.writeCompleteCallback then [WriteComplete] else [])
      else Done(Taken(c, r.n))
    else Done(c)
  }

  function Closed(c: Conn): Conn {
    c.(state := Disconnected, readInterest := false, writeInterest := false)
  }

  function Destroyed(c: Conn): Conn {
    if c.state == Connected then Closed(c) else c
  }

  function StartRead(c: Conn): Conn {
    if !c.reading || !c.readInterest then c.(readInterest := true, reading := true) else c
  }

  function StopRead(c: Conn): Conn {
    if c.reading || c.readInterest then c.(readInterest := false, reading := false) else c
  }

  // Whole runs.

  /** ForeignSend and ForeignShutdown are calls from another thread; RunFunctor is the loop running the oldest of
      them. */
  datatype Event =
    | Establish
    | SendEvent(message: string, r: WriteResult)
    | ForeignSend(message: string)
    | ForeignShutdown
    | RunFunctor(r: WriteResult)
    | Writable(r: WriteResult)
    | ShutdownEvent
    | CloseEvent
    | DestroyEvent
    | StartReadEvent
    | StopReadEvent
    | SetWriteComplete(on: bool)
    | SetHighWater(on: bool, mark: nat)

  predicate Legal(c: Conn, e: Event) {
    match e
    case Establish => c.state == Connecting
    case SendEvent(m, r) => Possible(r, |m|)
    case RunFunctor(r) => c.queued != [] && (c.queued[0].SendFunctor? ==> Possible(r, |c.queued[0].message|))
    case Writable(r) => Possible(r, |c.output|)
    case CloseEvent => c.state == Connected || c.state == Disconnecting
    case _ => true
  }

  function Apply(c: Conn, e: Event): Outcome
    requires Legal(c, e)
  {
    match e
    case Establish => Done(c.(state := Connected, readInterest := true))
    case SendEvent(m, r) => Send(c, m, r)
    case ForeignSend(m) => Done(SendFromOther(c, m))
    case ForeignShutdown => Done(ShutdownFromOther(c))
    case RunFunctor(r) => RunOldest(c, r)
    case Writable(r) => HandleWrite(c, r)
    case ShutdownEvent => Done(Shutdown(c))
    case CloseEvent => Done(Closed(c))
    case DestroyEvent => Done(Destroyed(c))
    case StartReadEvent => Done(StartRead(c))
    case StopReadEvent => Done(StopRead(c))
    case SetWriteComplete(on) => Done(c.(writeCompleteCallback := on))
    case SetHighWater(on, mark) => Done(c.(highWaterCallback := on, highWaterMark := mark))
  }

  const FRESH: Conn := Conn(Connecting, true, false, false, "", 64 * 1024 * 1024, false, false, [], "", [])

  predicate IsRun(c: Conn, events: seq<Event>)
    decreases |events|
  {
    events == [] || (Legal(c, events[0]) && IsRun(Apply(c, events[0]).conn, events[1..]))
  }

  function After(c: Conn, events: seq<Event>): Conn
    requires IsRun(c, events)
    decreases |events|
  {
    if events == [] then c else After(Apply(c, events[0]).conn, events[1..])
  }

  /** The byte stream handed to the kernel. */
  function Written(effects: seq<Effect>): string {
    if effects == [] then ""
    else Written(effects[..|effects| - 1]) +
         match effects[|effects| - 1] case Wrote(bytes) => bytes case ShutWrite => ""
  }

  predicate Conserved(c: Conn) {
    Written(c.effects) + c.output == c.accepted
  }

  predicate InterestMatches(c: Conn) {
    && (c.state != Disconnected ==> (c.writeInterest <==> c.output != ""))
    && (c.writeInterest ==> c.output != "")
  }

  predicate Flows(c: Conn) {
    Conserved(c) && InterestMatches(c)
  }

  lemma WrittenNext(effects: seq<Effect>, e: Effect)
    ensures Written(effects + [e]) == Written(effects) + match e case Wrote(bytes) => bytes case ShutWrite => ""
  {
    assert (effects + [e])[..|effects|] == effects;
  }

  lemma MoveBytes(written: string, output: string, n: nat)
    requires n <= |output|
    ensures written + output[..n] + output[n..] == written + output
  {}

  lemma HandWritten(c: Conn, bytes: string)
    ensures Written(Hand(c, bytes).effects) == Written(c.effects) + bytes
  {
    WrittenNext(c.effects, Wrote(bytes));
    assert Written(c.effects) + "" == Written(c.effects);
  }

  lemma KeepDelivers(c: Conn, rest: string)
    ensures var c' := Keep(c, rest).conn; Written(c'.effects) + c'.output == Written(c.effects) + c.output + rest
  {
    assert Written(c.effects) + (c.output + rest) == Written(c.effects) + c.output + rest;
  }

  /** The kernel takes the first n bytes of a message and the rest is buffered. */
  lemma SplitDelivers(c: Conn, message: string, n: nat)
    requires c.output == "" && n <= |message|
    ensures var c1 := Hand(c, message[..n]);
            var c' := if n < |message| then Keep(c1, message[n..]).conn else c1;
            Written(c'.effects) + c'.output == Written(c.effects) + message
  {
    var c1 := Hand(c, message[..n]);
    HandWritten(c, message[..n]);
    MoveBytes(Written(c.effects), message, n);
    assert Written(c1.effects) + c1.output == Written(c1.effects);
    if n < |message| {
      KeepDelivers(c1, message[n..]);
    } else {
      assert message[..n] == message;
    }
  }

  /** Whatever the kernel takes, a message given to sendInLoop goes behind the bytes before it, whole. */
  lemma SendDelivers(c: Conn, message: string, r: WriteResult)
    requires Possible(r, |message|)
    ensures var c' := SendInLoop(c, message, r).conn;
            Written(c'.effects) + c'.output == Written(c.effects) + c.output + message
  {
    var c0 := c.(accepted := c.accepted + message);
    if !c.writeInterest && c.output == "" {
      assert Written(c.effects) + c.output == Written(c.effects);
      SplitDelivers(c0, message, if r.Took? then r.n else 0);
    } else if |message| > 0 {
      KeepDelivers(c0, message);
    } else {
      assert Written(c.effects) + c.output + message == Written(c.effects) + c.output;
    }
  }

  lemma SendRecords(c: Conn, message: string, r: WriteResult)
    requires Possible(r, |message|)
    ensures var c' := SendInLoop(c, message, r).conn;
            c'.accepted == c.accepted + message && c'.state == c.state && c'.queued == c.queued
  {
    if |message| == 0 {
      assert c.accepted + message == c.accepted;
    }
  }

  lemma SendConserves(c: Conn, message: string, r: WriteResult)
    requires Conserved(c) && Possible(r, |message|)
    ensures Conserved(SendInLoop(c, message, r).conn)
  {
    SendDelivers(c, message, r);
    SendRecords(c, message, r);
  }

  lemma SendKeepsInterest(c: Conn, message: string, r: WriteResult)
    requires InterestMatches(c) && Possible(r, |message|)
    ensures InterestMatches(SendInLoop(c, message, r).conn)
  {
    var c', n := SendInLoop(c, message, r).conn, if r.Took? then r.n else 0;
    if c.writeInterest || c.output != "" {
      assert |c'.output| == |c.output| + |message|;
    } else {
      assert |c'.output| == |message| - n;
    }
  }

  lemma ShutdownConserves(c: Conn)
    ensures Written(ShutdownInLoop(c).effects) == Written(c.effects)
    ensures Conserved(c) ==> Conserved(ShutdownInLoop(c))
  {
    WrittenNext(c.effects, ShutWrite);
    assert Written(c.effects) + "" == Written(c.effects);
  }

  /** What the kernel takes comes off the front of the buffer, and nothing else moves. */
  lemma WritableDelivers(c: Conn, r: WriteResult)
    requires Possible(r, |c.output|)
    ensures var c' := HandleWrite(c, r).conn;
            && c'.output == (if c.writeInterest && r.Took? then c.output[r.n..] else c.output)
            && Written(c'.effects) + c'.output == Written(c.effects) + c.output
  {
    if c.writeInterest && r.Took? && r.n > 0 {
      var c1 := Taken(c, r.n);
      HandWritten(c, c.output[..r.n]);
      MoveBytes(Written(c.effects), c.output, r.n);
      ShutdownConserves(c1.(writeInterest := false));
      assert HandleWrite(c, r).conn == if r.n == |c.output| then AfterDrain(c1) else c1;
    } else {
      assert HandleWrite(c, r).conn == c;
    }
  }

  lemma WritableRecords(c: Conn, r: WriteResult)
    requires Possible(r, |c.output|)
    ensures var c' := HandleWrite(c, r).conn;
            c'.accepted == c.accepted && c'.state == c.state && c'.queued == c.queued
  {
    if c.writeInterest && r.Took? && r.n > 0 {
      var c1 := Taken(c, r.n);
      assert c1.accepted == c.accepted && c1.state == c.state && c1.queued == c.queued;
      assert HandleWrite(c, r).conn == if r.n == |c.output| then AfterDrain(c1) else c1;
    } else {
      assert HandleWrite(c, r).conn == c;
    }
  }

  lemma WritableConserves(c: Conn, r: WriteResult)
    requires Flows(c) && Possible(r, |c.output|)
    ensures Flows(HandleWrite(c, r).conn)
  {
    WritableDelivers(c, r);
    WritableRecords(c, r);
  }

  // Graceful close.

  predicate WriteSideShut(c: Conn) {
    ShutWrite in c.effects
  }

  /** The write side is shut at most once and nothing is written after that. */
  predicate Ordered(effects: seq<Effect>) {
    forall i :: 0 <= i < |effects| && effects[i] == ShutWrite ==> i == |effects| - 1
  }

  /** What a graceful close promises: nothing after the shutdown, and every accepted byte before it. */
  predicate Tidy(c: Conn) {
    Ordered(c.effects) && (WriteSideShut(c) ==> Written(c.effects) == c.accepted)
  }

  predicate Closing(c: Conn) {
    && (c.state == Connecting || c.state == Connected ==> !WriteSideShut(c) && ShutdownFunctor !in c.queued)
    && (c.state == Disconnecting && c.output == "" && ShutdownFunctor !in c.queued ==> WriteSideShut(c))
  }

  predicate Sound(c: Conn) {
    Flows(c) && Closing(c)
  }

  lemma ExtendShut(effects: seq<Effect>, e: Effect)
    ensures ShutWrite in effects + [e] <==> ShutWrite in effects || e == ShutWrite
    ensures Ordered(effects + [e]) <==> ShutWrite !in effects
  {
    var all := effects + [e];
    assert forall i :: 0 <= i < |effects| ==> all[i] == effects[i];
    assert all[|effects|] == e;
  }

  lemma HandShut(c: Conn, bytes: string)
    ensures WriteSideShut(Hand(c, bytes)) <==> WriteSideShut(c)
    ensures Ordered(Hand(c, bytes).effects) <==> Ordered(c.effects) && (bytes != "" ==> !WriteSideShut(c))
  {
    ExtendShut(c.effects, Wrote(bytes));
  }

  lemma ShutIsShut(c: Conn)
    ensures WriteSideShut(ShutdownInLoop(c)) <==> WriteSideShut(c) || !c.writeInterest
    ensures Ordered(ShutdownInLoop(c).effects) <==> Ordered(c.effects) && (!c.writeInterest ==> !WriteSideShut(c))
  {
    ExtendShut(c.effects, ShutWrite);
  }

  /** With the stream conserved, all accepted bytes are written exactly when nothing is buffered. */
  lemma AllWritten(c: Conn)
    requires Conserved(c)
    ensures Written(c.effects) == c.accepted <==> c.output == ""
  {
    assert |Written(c.effects)| + |c.output| == |c.accepted|;
    assert c.output == "" ==> Written(c.effects) + c.output == Written(c.effects);
  }

  lemma SendShuts(c: Conn, message: string, r: WriteResult)
    requires Possible(r, |message|)
    ensures var c' := SendInLoop(c, message, r).conn;
            (WriteSideShut(c') <==> WriteSideShut(c)) && c'.state == c.state && c'.queued == c.queued
  {
    HandShut(c.(accepted := c.accepted + message), message[..if r.Took? then r.n else 0]);
  }

  /** A message that reaches the loop after the write side was shut, a second shutdown, and a shutdown of a closed
      connection that still has bytes buffered: all told by the state before the functor runs. */
  predicate Spoils(c: Conn, e: Event) {
    e.RunFunctor? && c.queued != [] &&
    match c.queued[0]
    case SendFunctor(m) => m != "" && WriteSideShut(c)
    case ShutdownFunctor => !c.writeInterest && (WriteSideShut(c) || c.output != "")
  }

  /** Tidiness is about the buffer once the stream is conserved. */
  predicate Kept(c: Conn) {
    Ordered(c.effects) && (WriteSideShut(c) ==> c.output == "")
  }

  lemma SendSpoils(c: Conn, message: string, r: WriteResult)
    requires Possible(r, |message|)
    ensures Kept(SendInLoop(c, message, r).conn) <==> Kept(c) && !(message != "" && WriteSideShut(c))
  {
    HandShut(c.(accepted := c.accepted + message), message[..if r.Took? then r.n else 0]);
  }

  /** The invariant holds after the step, and the close is as good as before unless the step spoils it. */
  predicate Advances(c: Conn, c': Conn, spoils: bool) {
    Sound(c') && (Kept(c') <==> Kept(c) && !spoils)
  }

  lemma SendAdvances(c: Conn, message: string, r: WriteResult)
    requires Sound(c) && Possible(r, |message|)
    ensures Advances(c, SendInLoop(c, message, r).conn, message != "" && WriteSideShut(c))
  {
    SendConserves(c, message, r);
    SendKeepsInterest(c, message, r);
    SendShuts(c, message, r);
    SendSpoils(c, message, r);
  }

  lemma WritableShuts(c: Conn, r: WriteResult)
    requires Sound(c) && Possible(r, |c.output|) && c.writeInterest && r.Took? && r.n > 0
    ensures var c' := HandleWrite(c, r).conn;
            && Closing(c')
            && (Kept(c') <==> Kept(c))
  {
    HandShut(c, c.output[..r.n]);
    ShutIsShut(Taken(c, r.n).(writeInterest := false));
  }

  lemma WritableAdvances(c: Conn, r: WriteResult)
    requires Sound(c) && Possible(r, |c.output|)
    ensures Advances(c, HandleWrite(c, r).conn, false)
  {
    if c.writeInterest && r.Took? && r.n > 0 {
      WritableShuts(c, r);
      WritableConserves(c, r);
    } else {
      assert HandleWrite(c, r).conn == c;
    }
  }

  /** Shutting the write side of a closing connection, when nothing is buffered. */
  lemma ShuttingAdvances(c: Conn)
    requires Flows(c) && c.state == Disconnecting && ShutdownFunctor !in c.queued && !WriteSideShut(c)
    ensures Advances(c, ShutdownInLoop(c), false)
  {
    ShutdownConserves(c);
    ShutIsShut(c);
  }

  lemma ShutdownAdvances(c: Conn)
    requires Sound(c)
    ensures Advances(c, Shutdown(c), false)
  {
    if c.state == Connected {
      ShuttingAdvances(c.(state := Disconnecting));
    }
  }

  lemma ShutFunctorAdvances(c: Conn, r: WriteResult)
    requires Sound(c) && Legal(c, RunFunctor(r)) && c.queued[0] == ShutdownFunctor
    ensures Advances(c, RunOldest(c, r).conn, Spoils(c, RunFunctor(r)))
  {
    var c0 := c.(queued := c.queued[1..]);
    ShutdownConserves(c0);
    ShutIsShut(c0);
    assert RunOldest(c, r).conn == ShutdownInLoop(c0);
  }

  lemma FunctorAdvances(c: Conn, r: WriteResult)
    requires Sound(c) && Legal(c, RunFunctor(r))
    ensures Advances(c, RunOldest(c, r).conn, Spoils(c, RunFunctor(r)))
  {
    match c.queued[0]
    case SendFunctor(m) =>
      var c0 := c.(queued := c.queued[1..]);
      assert c.queued == [c.queued[0]] + c.queued[1..];
      assert Sound(c0);
      SendAdvances(c0, m, r);
    case ShutdownFunctor =>
      ShutFunctorAdvances(c, r);
  }

  lemma CallAdvances(c: Conn, message: string)
    requires Sound(c)
    ensures Advances(c, SendFromOther(c, message), false) && Advances(c, ShutdownFromOther(c), false)
  {}

  /** Events that leave the bytes and the write side alone. */
  lemma QuietAdvances(c: Conn, c': Conn)
    requires Sound(c) && c'.effects == c.effects && c'.output == c.output && c'.accepted == c.accepted
            && c'.queued == c.queued
    requires || (c'.state == Disconnected && !c'.writeInterest)
             || (c'.writeInterest == c.writeInterest &&
                 (c'.state == c.state || (c.state == Connecting && c'.state == Connected)))
    ensures Advances(c, c', false)
  {}

  lemma EventAdvances(c: Conn, e: Event)
    requires Sound(c) && Legal(c, e)
    ensures Advances(c, Apply(c, e).conn, Spoils(c, e))
  {
    match e
    case SendEvent(m, r) =>
      if c.state == Connected { SendAdvances(c, m, r); }
    case Writable(r) => WritableAdvances(c, r);
    case ShutdownEvent => ShutdownAdvances(c);
    case ForeignSend(m) => CallAdvances(c, m);
    case ForeignShutdown => CallAdvances(c, "");
    case RunFunctor(r) => FunctorAdvances(c, r);
    case Establish | CloseEvent | DestroyEvent | StartReadEvent | StopReadEvent
       | SetWriteComplete(_) | SetHighWater(_, _) =>
      QuietAdvances(c, Apply(c, e).conn);
  }

  /** No event of the run spoils the close. */
  predicate NeverSpoils(c: Conn, events: seq<Event>)
    requires IsRun(c, events)
    decreases |events|
  {
    events == [] || (!Spoils(c, events[0]) && NeverSpoils(Apply(c, events[0]).conn, events[1..]))
  }

  lemma {:induction false} RunSpoils(c: Conn, events: seq<Event>)
    requires Sound(c) && IsRun(c, events)
    ensures Sound(After(c, events))
    ensures Kept(After(c, events)) <==> Kept(c) && NeverSpoils(c, events)
    decreases |events|
  {
    if events != [] {
      EventAdvances(c, events[0]);
      RunSpoils(Apply(c, events[0]).conn, events[1..]);
    }
  }

  /** Byte-stream conservation: whatever is sent, from whichever thread, and however the kernel behaves,
      the bytes written followed by the bytes still buffered are the messages accepted, and until the
      connection closes the loop waits for writability exactly while something is buffered. */
  lemma StreamConserved(events: seq<Event>)
    requires IsRun(FRESH, events)
    ensures var c := After(FRESH, events);
            && Written(c.effects) + c.output == c.accepted
            && (c.state != Disconnected ==> (c.writeInterest <==> c.output != ""))
  {
    assert Sound(FRESH);
    RunSpoils(FRESH, events);
  }

  // Which messages a run delivers, told by its events alone.

  /** made and arrived are the messages that other threads sent while the connection was up and those of them that
      have reached the loop; delivered is all that the connection owes its peer. */
  datatype Ledger = Ledger(state: StateE, waiting: seq<Functor>, made: seq<string>, arrived: seq<string>,
                           delivered: string)

  function Note(l: Ledger, e: Event): Ledger {
    match e
    case Establish => l.(state := Connected)
    case CloseEvent => l.(state := Disconnected)
    case RunFunctor(_) =>
      if l.waiting == [] then l
      else if l.waiting[0].ShutdownFunctor? then l.(waiting := l.waiting[1..])
      else
        var m := l.waiting[0].message;
        l.(waiting := l.waiting[1..], arrived := l.arrived + [m], delivered := l.delivered + m)
    case SendEvent(m, _) => if l.state == Connected then l.(delivered := l.delivered + m) else l
    case ForeignSend(m) =>
      if l.state == Connected then l.(made := l.made + [m], waiting := l.waiting + [SendFunctor(m)]) else l
    case ForeignShutdown =>
      if l.state == Connected then l.(state := Disconnecting, waiting := l.waiting + [ShutdownFunctor]) else l
    case ShutdownEvent => if l.state == Connected then l.(state := Disconnecting) else l
    case DestroyEvent => if l.state == Connected then l.(state := Disconnected) else l
    case Writable(_) | StartReadEvent | StopReadEvent | SetWriteComplete(_) | SetHighWater(_, _) => l
  }

  function Noted(l: Ledger, events: seq<Event>): Ledger
    decreases |events|
  {
    if events == [] then l else Noted(Note(l, events[0]), events[1..])
  }

  const BLANK: Ledger := Ledger(Connecting, [], [], [], "")

  /** The messages among some functors, in order. */
  function Messages(functors: seq<Functor>): seq<string> {
    if functors == [] then []
    else (if functors[0].SendFunctor? then [functors[0].message] else []) + Messages(functors[1..])
  }

  lemma {:induction false} MessagesNext(functors: seq<Functor>, f: Functor)
    ensures Messages(functors + [f]) == Messages(functors) + if f.SendFunctor? then [f.message] else []
  {
    if functors == [] {
      assert (functors + [f])[1..] == [];
    } else {
      MessagesNext(functors[1..], f);
      assert (functors + [f])[1..] == functors[1..] + [f];
    }
  }

  predicate InOrder(l: Ledger) {
    l.made == l.arrived + Messages(l.waiting)
  }

  lemma NoteKeepsOrder(l: Ledger, e: Event)
    requires InOrder(l)
    ensures InOrder(Note(l, e))
  {
    match e
    case ForeignSend(m) => MessagesNext(l.waiting, SendFunctor(m));
    case ForeignShutdown => MessagesNext(l.waiting, ShutdownFunctor);
    case _ =>
  }

  predicate Agrees(c: Conn, l: Ledger) {
    c.state == l.state && c.queued == l.waiting && c.accepted == l.delivered
  }

  lemma FunctorAgrees(c: Conn, l: Ledger, r: WriteResult)
    requires Agrees(c, l) && Legal(c, RunFunctor(r))
    ensures Agrees(RunOldest(c, r).conn, Note(l, RunFunctor(r)))
  {
    if c.queued[0].SendFunctor? {
      SendRecords(c.(queued := c.queued[1..]), c.queued[0].message, r);
    }
  }

  lemma NoteAgrees(c: Conn, l: Ledger, e: Event)
    requires Agrees(c, l) && Legal(c, e)
    ensures Agrees(Apply(c, e).conn, Note(l, e))
  {
    match e
    case SendEvent(m, r) => SendRecords(c, m, r);
    case RunFunctor(r) => FunctorAgrees(c, l, r);
    case Writable(r) => WritableRecords(c, r);
    case Establish | ForeignSend(_) | ForeignShutdown | ShutdownEvent | CloseEvent | DestroyEvent
       | StartReadEvent | StopReadEvent | SetWriteComplete(_) | SetHighWater(_, _) =>
  }

  lemma {:induction false} RunAgrees(c: Conn, l: Ledger, events: seq<Event>)
    requires Agrees(c, l) && InOrder(l) && IsRun(c, events)
    ensures Agrees(After(c, events), Noted(l, events)) && InOrder(Noted(l, events))
    decreases |events|
  {
    if events != [] {
      NoteAgrees(c, l, events[0]);
      NoteKeepsOrder(l, events[0]);
      RunAgrees(Apply(c, events[0]).conn, Note(l, events[0]), events[1..]);
    }
  }

  /** Delivery: over every run, what the peer has been given and what is buffered for it are together exactly the
      messages sent on the loop thread while the connection was up and the messages from other threads, sent while it
      was up, whose functor has run; and those arrive in the order in which they were sent. */
  lemma DeliveredExactly(events: seq<Event>)
    requires IsRun(FRESH, events)
    ensures var c, l := After(FRESH, events), Noted(BLANK, events);
            && Written(c.effects) + c.output == l.delivered && c.accepted == l.delivered
            && c.state == l.state && c.queued == l.waiting
            && l.made == l.arrived + Messages(c.queued)
  {
    RunAgrees(FRESH, BLANK, events);
    StreamConserved(events);
  }

  // What an event hands to the kernel, and the two user callbacks.

  /** The message that the event brings to sendInLoop, if it does. */
  function Reaching(c: Conn, e: Event): seq<(string, WriteResult)> {
    if e.SendEvent? && c.state == Connected then [(e.message, e.r)]
    else if e.RunFunctor? && c.queued != [] && c.queued[0].SendFunctor? then [(c.queued[0].message, e.r)]
    else []
  }

  /** What the event makes the connection offer to write(): a message that finds nothing buffered, or the buffer. */
  function Offered(c: Conn, e: Event): seq<(string, WriteResult)> {
    if c.output == "" then Reaching(c, e)
    else if e.Writable? && c.writeInterest then [(c.output, e.r)]
    else []
  }

  /** The front of what was offered that write() reports taken. */
  function Front(offered: seq<(string, WriteResult)>): string
    requires offered != [] ==> Possible(offered[0].1, |offered[0].0|)
  {
    if offered != [] && offered[0].1.Took? then offered[0].0[..offered[0].1.n] else ""
  }

  lemma SendWrites(c: Conn, message: string, r: WriteResult)
    requires InterestMatches(c) && Possible(r, |message|)
    ensures Written(SendInLoop(c, message, r).conn.effects) ==
            Written(c.effects) + if c.output == "" && r.Took? then message[..r.n] else ""
  {
    HandWritten(c.(accepted := c.accepted + message), message[..if r.Took? then r.n else 0]);
    assert Written(c.effects) + "" == Written(c.effects);
  }

  lemma WritableWrites(c: Conn, r: WriteResult)
    requires InterestMatches(c) && Possible(r, |c.output|)
    ensures Written(HandleWrite(c, r).conn.effects) ==
            Written(c.effects) + if c.writeInterest && r.Took? then c.output[..r.n] else ""
  {
    if c.writeInterest && r.Took? && r.n > 0 {
      HandWritten(c, c.output[..r.n]);
      ShutdownConserves(Taken(c, r.n).(writeInterest := false));
    } else {
      assert Written(c.effects) + "" == Written(c.effects);
    }
  }

  lemma FunctorWrites(c: Conn, r: WriteResult)
    requires InterestMatches(c) && Legal(c, RunFunctor(r))
    ensures Written(RunOldest(c, r).conn.effects) == Written(c.effects) + Front(Offered(c, RunFunctor(r)))
  {
    var c0 := c.(queued := c.queued[1..]);
    if c.queued[0].SendFunctor? {
      SendWrites(c0, c.queued[0].message, r);
    } else {
      ShutdownConserves(c0);
      assert Written(c.effects) + "" == Written(c.effects);
    }
  }

  /** The event appends to the bytes written exactly the front of what it offers that write() took, no byte twice. */
  lemma KernelGets(c: Conn, e: Event)
    requires InterestMatches(c) && Legal(c, e)
    ensures Written(Apply(c, e).conn.effects) == Written(c.effects) + Front(Offered(c, e))
  {
    assert Written(c.effects) + "" == Written(c.effects);
    match e
    case SendEvent(m, r) => if c.state == Connected { SendWrites(c, m, r); }
    case RunFunctor(r) => FunctorWrites(c, r);
    case Writable(r) => WritableWrites(c, r);
    case ShutdownEvent => ShutdownConserves(c.(state := Disconnecting));
    case Establish | ForeignSend(_) | ForeignShutdown | CloseEvent | DestroyEvent
       | StartReadEvent | StopReadEvent | SetWriteComplete(_) | SetHighWater(_, _) =>
  }

  ghost predicate HighExactly(before: Conn, after: Conn, tasks: seq<Task>) {
    forall b :: HighWater(b) in tasks <==>
                && before.highWaterCallback && b == |after.output|
                && |before.output| < before.highWaterMark <= |after.output|
  }

  lemma SendTells(c: Conn, message: string, r: WriteResult)
    requires InterestMatches(c) && Possible(r, |message|)
    ensures var x := SendInLoop(c, message, r);
            && HighExactly(c, x.conn, x.tasks) && (c.output != "" ==> x.conn.output != "")
            && (WriteComplete in x.tasks <==> c.writeCompleteCallback && c.output == "" && r == Took(|message|))
  {
    var n := if r.Took? then r.n else 0;
    assert c.output == "" ==> |message[n..]| == |message| - n;
  }

  lemma WritableTells(c: Conn, r: WriteResult)
    requires InterestMatches(c) && Possible(r, |c.output|)
    ensures var x := HandleWrite(c, r);
            && HighExactly(c, x.conn, x.tasks)
            && (WriteComplete in x.tasks <==> c.writeCompleteCallback && c.output != "" && x.conn.output == "")
  {
    if c.writeInterest && r.Took? && r.n > 0 {
      assert |c.output[r.n..]| == |c.output| - r.n;
    }
  }

  /** The high-water callback is queued, with the new size of the buffer, exactly when the buffer grows from below the
      mark to the mark or above; the write-complete callback exactly when the buffer empties or the kernel takes a
      message whole. */
  lemma CallbacksExactly(c: Conn, e: Event)
    requires InterestMatches(c) && Legal(c, e)
    ensures var x := Apply(c, e);
            && HighExactly(c, x.conn, x.tasks)
            && (WriteComplete in x.tasks <==>
                  && c.writeCompleteCallback
                  && if c.output != "" then x.conn.output == ""
                     else exists m :: Reaching(c, e) == [(m, Took(|m|))])
  {
    var x := Apply(c, e);
    match e {
      case SendEvent(m, r) =>
        if c.state == Connected { SendTells(c, m, r); }
      case RunFunctor(r) =>
        if c.queued[0].SendFunctor? {
          SendTells(c.(queued := c.queued[1..]), c.queued[0].message, r);
        }
      case Writable(r) => WritableTells(c, r);
      case _ =>
    }
  }

  /** Over any run, calls from any thread included, the close is graceful exactly when no functor of the run spoils it.
      A connection that wants to close, has drained and has no shutdown queued has been shut down, spoiled or not. */
  lemma GracefulExactly(events: seq<Event>)
    requires IsRun(FRESH, events)
    ensures var c := After(FRESH, events);
            && (Tidy(c) <==> NeverSpoils(FRESH, events))
            && (c.state == Disconnecting && c.output == "" && ShutdownFunctor !in c.queued ==> WriteSideShut(c))
  {
    assert Sound(FRESH) && Kept(FRESH);
    RunSpoils(FRESH, events);
    AllWritten(After(FRESH, events));
  }

  predicate OnLoopThread(events: seq<Event>) {
    forall i :: 0 <= i < |events| ==> !events[i].ForeignSend? && !events[i].ForeignShutdown?
  }

  lemma LoopThreadQueuesNothing(c: Conn, e: Event)
    requires Legal(c, e) && c.queued == [] && !e.ForeignSend? && !e.ForeignShutdown?
    ensures Apply(c, e).conn.queued == []
  {
    match e
    case SendEvent(m, r) => SendShuts(c, m, r);
    case Writable(r) => assert HandleWrite(c, r).conn.queued == c.queued;
    case _ =>
  }

  lemma {:induction false} LoopThreadNeverSpoils(c: Conn, events: seq<Event>)
    requires IsRun(c, events) && OnLoopThread(events) && c.queued == []
    ensures NeverSpoils(c, events) && After(c, events).queued == []
    decreases |events|
  {
    if events != [] {
      LoopThreadQueuesNothing(c, events[0]);
      LoopThreadNeverSpoils(Apply(c, events[0]).conn, events[1..]);
    }
  }

  /** Graceful close, when every call is made on the loop thread: the write side is shut down at most once, after every
      accepted byte has been written, and nothing is written after that; a connection that wants to close and has
      drained has been shut down. */
  lemma GracefulClose(events: seq<Event>)
    requires IsRun(FRESH, events) && OnLoopThread(events)
    ensures var c := After(FRESH, events);
            && (forall i :: 0 <= i < |c.effects| && c.effects[i] == ShutWrite ==> i == |c.effects| - 1)
            && (ShutWrite in c.effects ==> Written(c.effects) == c.accepted)
            && (c.state == Disconnecting && c.output == "" ==> ShutWrite in c.effects)
  {
    GracefulExactly(events);
    LoopThreadNeverSpoils(FRESH, events);
  }

  /** A message that another thread sent before the shutdown spoils a graceful close, whatever write answers,
      exactly when the write side has been shut by the time it reaches the loop. */
  lemma LateSendSpoils(c: Conn, r: WriteResult)
    requires Sound(c) && Tidy(c) && Legal(c, RunFunctor(r))
    requires c.queued[0].SendFunctor? && c.queued[0].message != ""
    ensures var c' := Apply(c, RunFunctor(r)).conn;
            Ordered(c'.effects) && (ShutWrite in c'.effects ==> Written(c'.effects) == c'.accepted)
            <==> !WriteSideShut(c)
  {
    FunctorAdvances(c, r);
    AllWritten(c);
    AllWritten(Apply(c, RunFunctor(r)).conn);
  }

  function Shuts(effects: seq<Effect>): nat {
    multiset(effects)[ShutWrite]
  }

  lemma ShutOnce(effects: seq<Effect>)
    requires Ordered(effects)
    ensures Shuts(effects) == if ShutWrite in effects then 1 else 0
  {
    if effects != [] {
      var n := |effects| - 1;
      assert effects == effects[..n] + [effects[n]];
      assert forall i :: 0 <= i < n ==> effects[..n][i] == effects[i];
    }
  }

  /** The queued half of a shutdown called from another thread shuts the write side a second time exactly when it is
      shut already: the output has drained between the two halves. */
  lemma SecondShutdown(c: Conn, r: WriteResult)
    requires Sound(c) && Tidy(c) && Legal(c, RunFunctor(r)) && c.queued[0] == ShutdownFunctor
    ensures var c' := Apply(c, RunFunctor(r)).conn; Shuts(c'.effects) == 2 <==> WriteSideShut(c)
  {
    AllWritten(c);
    ShutOnce(c.effects);
  }

  lemma FirstEvent(c: Conn, e: Event, rest: seq<Event>)
    requires Legal(c, e) && IsRun(Apply(c, e).conn, rest)
    ensures IsRun(c, [e] + rest) && After(c, [e] + rest) == After(Apply(c, e).conn, rest)
  {
    assert ([e] + rest)[1..] == rest;
  }

  /** A message from another thread, overtaken by a shutdown on the loop thread, that the kernel then refuses. */
  lemma LateSendWitness()
    ensures var events := [Establish] + ([ForeignSend("x")] + ([ShutdownEvent] + ([RunFunctor(WriteFailed)] + [])));
            && IsRun(FRESH, events) && !Tidy(After(FRESH, events))
            && WriteSideShut(After(FRESH, events)) && After(FRESH, events).output == "x"
  {
    var c1 := Apply(FRESH, Establish).conn;
    var c2 := Apply(c1, ForeignSend("x")).conn;
    var c3 := Apply(c2, ShutdownEvent).conn;
    var c4 := Apply(c3, RunFunctor(WriteFailed)).conn;
    FirstEvent(c3, RunFunctor(WriteFailed), []);
    FirstEvent(c2, ShutdownEvent, [RunFunctor(WriteFailed)] + []);
    FirstEvent(c1, ForeignSend("x"), [ShutdownEvent] + ([RunFunctor(WriteFailed)] + []));
    FirstEvent(FRESH, Establish, [ForeignSend("x")] + ([ShutdownEvent] + ([RunFunctor(WriteFailed)] + [])));
    assert c3.effects == [ShutWrite] && c4.output == "x";
    assert ShutWrite in c4.effects;
    RunSpoils(FRESH, [Establish] + ([ForeignSend("x")] + ([ShutdownEvent] + ([RunFunctor(WriteFailed)] + []))));
    AllWritten(c4);
  }

  /** A byte is buffered and another thread has called shutdown. */
  const HALF_SHUT: Conn := FRESH.(state := Disconnecting, readInterest := true, writeInterest := true,
                                  output := "x", accepted := "x", queued := [ShutdownFunctor])

  function HalfShut(rest: seq<Event>): seq<Event> {
    [Establish] + ([SendEvent("x", WouldBlock)] + ([ForeignShutdown] + rest))
  }

  lemma ReachHalfShut(rest: seq<Event>)
    requires IsRun(HALF_SHUT, rest)
    ensures IsRun(FRESH, HalfShut(rest)) && After(FRESH, HalfShut(rest)) == After(HALF_SHUT, rest)
  {
    var c1 := Apply(FRESH, Establish).conn;
    var c2 := Apply(c1, SendEvent("x", WouldBlock)).conn;
    assert "x"[..0] == "" && "x"[0..] == "x" && "" + "x" == "x";
    assert Apply(c2, ForeignShutdown).conn == HALF_SHUT;
    FirstEvent(c2, ForeignShutdown, rest);
    FirstEvent(c1, SendEvent("x", WouldBlock), [ForeignShutdown] + rest);
    FirstEvent(FRESH, Establish, [SendEvent("x", WouldBlock)] + ([ForeignShutdown] + rest));
  }

  /** The byte drains before the queued half of the shutdown runs: the write side is shut twice. */
  lemma SecondShutdownWitness()
    ensures var events := HalfShut([Writable(Took(1))] + ([RunFunctor(WouldBlock)] + []));
            && IsRun(FRESH, events)
            && After(FRESH, events).effects == [Wrote("x"), ShutWrite, ShutWrite]
  {
    assert "x"[..1] == "x" && "x"[1..] == "";
    var c4 := Apply(HALF_SHUT, Writable(Took(1))).conn;
    assert c4.effects == [Wrote("x"), ShutWrite] && !c4.writeInterest;
    FirstEvent(c4, RunFunctor(WouldBlock), []);
    FirstEvent(HALF_SHUT, Writable(Took(1)), [RunFunctor(WouldBlock)] + []);
    ReachHalfShut([Writable(Took(1))] + ([RunFunctor(WouldBlock)] + []));
  }

  /** The connection closes before the queued half of the shutdown runs: the write side is shut with a byte
      unwritten. */
  lemma EarlyShutdownWitness()
    ensures var events := HalfShut([CloseEvent] + ([RunFunctor(WouldBlock)] + []));
            && IsRun(FRESH, events)
            && After(FRESH, events).effects == [ShutWrite] && After(FRESH, events).output == "x"
  {
    var c4 := Apply(HALF_SHUT, CloseEvent).conn;
    FirstEvent(c4, RunFunctor(WouldBlock), []);
    FirstEvent(HALF_SHUT, CloseEvent, [RunFunctor(WouldBlock)] + []);
    ReachHalfShut([CloseEvent] + ([RunFunctor(WouldBlock)] + []));
  }
}

/** The connection object: the same handlers, changing fields and the output buffer in place. */
module Connections {
  import opened ConnectionSpec
  import opened Buffers

  class TcpConnection {
    var state: StateE
    var reading: bool
    var readInterest: bool      // channel_->isReading()
    var writeInterest: bool     // channel_->isWriting()
    const outputBuffer: Buffer
    var highWaterMark: nat
    var highWaterMarkCallback: bool
    var writeCompleteCallback: bool
    var queued: seq<Functor>    // this connection's functors in the loop's queue
    ghost var accepted: string
    ghost var effects: seq<Effect>

    ghost predicate Valid()
      reads this, outputBuffer
    {
      outputBuffer.Valid()
    }

    ghost function View(): Conn
      requires Valid()
      reads this, outputBuffer, outputBuffer.buffer
    {
      Conn(state, reading, readInterest, writeInterest, outputBuffer.Contents(), highWaterMark,
           highWaterMarkCallback, writeCompleteCallback, queued, accepted, effects)
    }

    /** What the peer has been given, and after it what is buffered for it. */
    ghost function Stream(): string
      requires Valid()
      reads this, outputBuffer, outputBuffer.buffer
    {
      Written(effects) + outputBuffer.Contents()
    }

    constructor ()
      ensures Valid() && View() == FRESH && fresh(outputBuffer) && fresh(outputBuffer.buffer)
    {
      state, reading, readInterest, writeInterest := Connecting, true, false, false;
      highWaterMark, highWaterMarkCallback, writeCompleteCallback := 64 * 1024 * 1024, false, false;
      queued, accepted, effects := [], "", [];
      outputBuffer := new Buffer();
    }

    method Establish()
      requires Valid() && state == Connecting
      modifies this`state, this`readInterest
      ensures Valid() && View() == Apply(old(View()), Event.Establish).conn
      ensures View() == old(View()).(state := Connected, readInterest := true)
    {
      state := Connected;
      readInterest := true;
    }

    /** Buffers what the kernel did not take. */
    method KeepRest(rest: string) returns (tasks: seq<Task>)
      requires Valid()
      modifies this`writeInterest, outputBuffer, outputBuffer.buffer
      ensures Valid() && Outcome(View(), tasks) == Keep(old(View()), rest)
      ensures outputBuffer.Contents() == old(outputBuffer.Contents()) + rest && writeInterest
      ensures HighExactly(old(View()), View(), tasks)
      ensures outputBuffer.buffer == old(outputBuffer.buffer) || fresh(outputBuffer.buffer)
    {
      tasks := [];
      var oldLen := outputBuffer.ReadableBytes();
      if oldLen + |rest| >= highWaterMark && oldLen < highWaterMark && highWaterMarkCallback {
        tasks := [HighWater(oldLen + |rest|)];
      }
      outputBuffer.Append(rest);
      if !writeInterest {
        writeInterest := true;
      }
    }

    method SendInLoop(message: string, r: WriteResult) returns (tasks: seq<Task>)
      requires Valid() && Possible(r, |message|)
      modifies this, outputBuffer, outputBuffer.buffer
      ensures Valid() && Outcome(View(), tasks) == ConnectionSpec.SendInLoop(old(View()), message, r)
      ensures Stream() == old(Stream()) + message
      ensures outputBuffer.buffer == old(outputBuffer.buffer) || fresh(outputBuffer.buffer)
    {
      SendDelivers(View(), message, r);
      tasks := [];
      accepted := accepted + message;
      var nwrote := 0;
      if !writeInterest && outputBuffer.ReadableBytes() == 0 {
        if r.Took? {
          nwrote := r.n;
          effects := if nwrote > 0 then effects + [Wrote(message[..nwrote])] else effects;
          if nwrote == |message| && writeCompleteCallback {
            tasks := [WriteComplete];
          }
        }
      }
      if nwrote < |message| {
        assert nwrote == 0 ==> message[nwrote..] == message;
        tasks := KeepRest(message[nwrote..]);
      }
    }

    method Send(message: string, r: WriteResult) returns (tasks: seq<Task>)
      requires Valid() && Possible(r, |message|)
      modifies this, outputBuffer, outputBuffer.buffer
      ensures Valid() && Outcome(View(), tasks) == ConnectionSpec.Send(old(View()), message, r)
      ensures Stream() == if old(state) == Connected then old(Stream()) + message else old(Stream())
      ensures outputBuffer.buffer == old(outputBuffer.buffer) || fresh(outputBuffer.buffer)
    {
      tasks := [];
      if state == Connected {
        tasks := SendInLoop(message, r);
      }
    }

    method SendFromOther(message: string)
      requires Valid()
      modifies this`queued
      ensures Valid() && View() == ConnectionSpec.SendFromOther(old(View()), message)
    {
      if state == Connected {
        queued := queued + [SendFunctor(message)];
      }
    }

    method ShutdownFromOther()
      requires Valid()
      modifies this`state, this`queued
      ensures Valid() && View() == ConnectionSpec.ShutdownFromOther(old(View()))
    {
      if state == Connected {
        state := Disconnecting;
        queued := queued + [ShutdownFunctor];
      }
    }

    method ShutdownInLoop()
      requires Valid()
      modifies this`effects
      ensures Valid() && View() == ConnectionSpec.ShutdownInLoop(old(View()))
      ensures effects == old(effects) + if writeInterest then [] else [ShutWrite]
    {
      if !writeInterest {
        effects := effects + [ShutWrite];
      }
    }

    /** The loop runs the oldest functor that another thread has queued for this connection. */
    method RunOldest(r: WriteResult) returns (tasks: seq<Task>)
      requires Valid() && Legal(View(), RunFunctor(r))
      modifies this, outputBuffer, outputBuffer.buffer
      ensures Valid() && Outcome(View(), tasks) == ConnectionSpec.RunOldest(old(View()), r)
      ensures outputBuffer.buffer == old(outputBuffer.buffer) || fresh(outputBuffer.buffer)
    {
      var functor := queued[0];
      queued := queued[1..];
      tasks := [];
      match functor
      case SendFunctor(message) => tasks := SendInLoop(message, r);
      case ShutdownFunctor => ShutdownInLoop();
    }

    /** send(Buffer*): the caller's buffer is emptied only when the connection accepts it. */
    method SendBuffer(buf: Buffer, r: WriteResult) returns (tasks: seq<Task>)
      requires Valid() && buf.Valid() && buf != outputBuffer && buf.buffer != outputBuffer.buffer
      requires Possible(r, |buf.Contents()|)
      modifies this, outputBuffer, outputBuffer.buffer, buf`readerIndex, buf`writerIndex
      ensures Valid() && Outcome(View(), tasks) == ConnectionSpec.Send(old(View()), old(buf.Contents()), r)
      ensures buf.Valid() && buf.Contents() == if old(state) == Connected then "" else old(buf.Contents())
      ensures Stream() + buf.Contents() == old(Stream() + buf.Contents())
    {
      tasks := [];
      if state == Connected {
        var message := buf.RetrieveAsString();
        assert View() == old(View());
        tasks := SendInLoop(message, r);
      }
    }

    method StartReadInLoop()
      requires Valid()
      modifies this`reading, this`readInterest
      ensures Valid() && View() == ConnectionSpec.StartRead(old(View()))
      ensures View() == old(View()).(readInterest := true, reading := true)
    {
      if !reading || !readInterest {
        readInterest := true;
        reading := true;
      }
    }

    method StopReadInLoop()
      requires Valid()
      modifies this`reading, this`readInterest
      ensures Valid() && View() == ConnectionSpec.StopRead(old(View()))
      ensures View() == old(View()).(readInterest := false, reading := false)
    {
      if reading || readInterest {
        readInterest := false;
        reading := false;
      }
    }

    method Shutdown()
      requires Valid()
      modifies this`state, this`effects
      ensures Valid() && View() == ConnectionSpec.Shutdown(old(View()))
    {
      if state == Connected {
        state := Disconnecting;
        ShutdownInLoop();
      }
    }

    method HandleWrite(r: WriteResult) returns (tasks: seq<Task>)
      requires Valid() && Possible(r, outputBuffer.ReadableBytes())
      modifies this`writeInterest, this`effects, outputBuffer`readerIndex
      ensures Valid() && Outcome(View(), tasks) == ConnectionSpec.HandleWrite(old(View()), r)
      ensures var before := old(outputBuffer.Contents());
              outputBuffer.Contents() == if old(writeInterest) && r.Took? then before[r.n..] else before
      ensures Stream() == old(Stream())
    {
      WritableDelivers(View(), r);
      tasks := [];
      if writeInterest {
        if r.Took? && r.n > 0 {
          effects := effects + [Wrote(outputBuffer.Contents()[..r.n])];
          outputBuffer.Retrieve(r.n);
          if outputBuffer.ReadableBytes() == 0 {
            writeInterest := false;
            if writeCompleteCallback {
              tasks := [WriteComplete];
            }
            if state == Disconnecting {
              ShutdownInLoop();
            }
          }
        }
      }
    }

    method HandleClose()
      requires Valid() && (state == Connected || state == Disconnecting)
      modifies this`state, this`readInterest, this`writeInterest
      ensures Valid() && View() == Closed(old(View()))
      ensures View() == old(View()).(state := Disconnected, readInterest := false, writeInterest := false)
    {
      state := Disconnected;
      readInterest, writeInterest := false, false;
    }

    /** Says whether the connection callback is told that the connection went down. */
    method ConnectionDestroyed() returns (down: bool)
      requires Valid()
      modifies this`state, this`readInterest, this`writeInterest
      ensures Valid() && View() == Destroyed(old(View())) && (down <==> old(state) == Connected)
      ensures down ==> state == Disconnected && !readInterest && !writeInterest
      ensures !down ==> View() == old(View())
    {
      down := state == Connected;
      if state == Connected {
        state := Disconnected;
        readInterest, writeInterest := false, false;
      }
    }

    method SetWriteCompleteCallback(on: bool)
      requires Valid()
      modifies this`writeCompleteCallback
      ensures Valid() && View() == old(View()).(writeCompleteCallback := on)
    {
      writeCompleteCallback := on;
    }

    method SetHighWaterMarkCallback(mark: nat)
      requires Valid()
      modifies this`highWaterMarkCallback, this`highWaterMark
      ensures Valid() && View() == old(View()).(highWaterCallback := true, highWaterMark := mark)
    {
      highWaterMarkCallback := true;
      highWaterMark := mark;
    }
  }
}
