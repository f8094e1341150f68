/** The client's connect-and-retry machine: chaonet/src/Connector.cpp, with a ledger of what becomes of every socket. */
module ConnectorSpec {
  import opened Buffers

  const INIT_RETRY_DELAY_MS: nat := 500
  const MAX_RETRY_DELAY_MS: nat := 30 * 1000

  datatype States = Disconnected | Connecting | Connected

  /** What errno says after connect(); Zero when it succeeded at once, Other for every value the source does not
      list. */
  datatype Errno =
    | Zero | EINPROGRESS | EINTR | EISCONN
    | EAGAIN | EADDRINUSE | EADDRNOTAVAIL | ECONNABORTED | ENETUNREACH
    | EACCES | EPERM | EAFNOSUPPORT | EALREADY | EBADF | EFAULT | ENOTSOCK
    | Other

  /** Sockets and timers are numbered in the order they are made. */
  datatype State = State(
    connect: bool,
    states: States,
    channel: Option<nat>,      // the socket under the channel object
    registered: bool,          // the channel is known to the poller and waits for writability
    retryDelayMs: nat,
    timerId: Option<nat>,      // the retry timer set last
    armed: set<nat>,           // the retry timers still to fire
    startsQueued: nat,         // functors waiting in the loop
    resetQueued: bool,
    cancels: seq<nat>,
    created: nat,              // history: sockets made, closed and passed to the callback, and timers set
    closed: seq<nat>,
    handedOff: seq<nat>,
    timers: nat,
    delays: seq<nat>,          // history: retry delays since the last restart
    gaveUp: bool               // history: the last attempt met an error that is not retried
  )

  /** The next state, or none when a check of the source fails. */
  type Checked = Option<State>

  const INIT: State :=
    State(false, Disconnected, None, false, INIT_RETRY_DELAY_MS, None, {}, 0, false, [], 0, [], [], 0, [], false)

  function Min(a: nat, b: nat): nat {
    if a < b then a else b
  }

  function CloseSocket(s: State, sock: nat): State {
    s.(closed := s.closed + [sock])
  }

  function RunAfter(s: State, delayMs: nat): State {
    s.(timerId := Some(s.timers), armed := s.armed + {s.timers}, timers := s.timers + 1, delays := s.delays + [delayMs])
  }

  function Retry(s: State, sock: nat): State {
    var s1 := CloseSocket(s, sock).(states := Disconnected);
    if s.connect then
      RunAfter(s1, s.retryDelayMs).(retryDelayMs := Min(s.retryDelayMs * 2, MAX_RETRY_DELAY_MS))
    else s1
  }

  function BeginConnecting(s: State, sock: nat): Checked {
    if s.channel.Some? then None else Some(s.(states := Connecting, channel := Some(sock), registered := true))
  }

  predicate UnderWay(e: Errno) {
    e.Zero? || e.EINPROGRESS? || e.EINTR? || e.EISCONN?
  }

  predicate Retryable(e: Errno) {
    e.EAGAIN? || e.EADDRINUSE? || e.EADDRNOTAVAIL? || e.ECONNABORTED? || e.ENETUNREACH?
  }

  function NewSocket(s: State, e: Errno): State {
    s.(created := s.created + 1, gaveUp := !UnderWay(e) && !Retryable(e))
  }

  function Resolve(s: State, sock: nat, e: Errno): Checked {
    if UnderWay(e) then BeginConnecting(s, sock)
    else if Retryable(e) then Some(Retry(s, sock))
    else Some(CloseSocket(s, sock))
  }

  function Connect(s: State, e: Errno): Checked {
    Resolve(NewSocket(s, e), s.created, e)
  }

  function StartInLoop(s: State, e: Errno): Checked {
    if s.states != Disconnected then None
    else if s.connect then Connect(s, e)
    else Some(s)
  }

  function RemoveAndResetChannel(s: State): State {
    s.(registered := false, resetQueued := true)
  }

  /** error: SO_ERROR is set; selfConnect: both ends of the socket are the same. */
  function HandleWrite(s: State, error: bool, selfConnect: bool): Checked
    requires s.states == Connecting ==> s.channel.Some?
  {
    if s.states == Connecting then
      var sock, s1 := s.channel.value, RemoveAndResetChannel(s);
      Some(if error || selfConnect then Retry(s1, sock)
           else if s.connect then s1.(states := Connected, handedOff := s.handedOff + [sock])
           else CloseSocket(s1.(states := Connected), sock))
    else if s.states == Disconnected then Some(s)
    else None
  }

  function HandleError(s: State): Checked
    requires s.channel.Some?
  {
    if s.states != Connecting then None else Some(Retry(RemoveAndResetChannel(s), s.channel.value))
  }

  /** Cancels the retry timer set last, at once on the loop's thread, through the loop's queue from another. */
  function Stop(s: State, inLoop: bool): State {
    var s1 := s.(connect := false);
    if s.timerId.None? then s1
    else if inLoop then s1.(armed := s.armed - {s.timerId.value})
    else s1.(cancels := s.cancels + [s.timerId.value])
  }

  function Rewind(s: State): State {
    s.(states := Disconnected, retryDelayMs := INIT_RETRY_DELAY_MS, connect := true, delays := [])
  }

  function Restart(s: State, e: Errno): Checked {
    StartInLoop(Rewind(s), e)
  }

  // Runs. The calls may come at any time, from any user of the connector.

  /** Errored is a poll that reports an error on the socket, alone or together with writability. */
  datatype Event =
    | StartCall
    | RunStart(e: Errno)
    | StopCall(inLoop: bool)
    | RunCancel
    | TimerFires(t: nat, e: Errno)
    | Writable(error: bool, selfConnect: bool)
    | Errored(writable: bool, error: bool, selfConnect: bool)
    | RunReset
    | RestartCall(e: Errno)

  predicate Possible(s: State, e: Event) {
    match e
    case StartCall => true
    case RunStart(_) => s.startsQueued > 0
    case StopCall(_) => true
    case RunCancel => s.cancels != []
    case TimerFires(t, _) => t in s.armed
    case Writable(_, _) => s.registered && s.channel.Some?
    case Errored(_, _, _) => s.registered && s.channel.Some?
    case RunReset => s.resetQueued
    case RestartCall(_) => true
  }

  function Apply(s: State, e: Event): Checked
    requires Possible(s, e)
  {
    match e
    case StartCall => Some(s.(connect := true, startsQueued := s.startsQueued + 1))
    case RunStart(errno) => StartInLoop(s.(startsQueued := s.startsQueued - 1), errno)
    case StopCall(inLoop) => Some(Stop(s, inLoop))
    case RunCancel => Some(s.(cancels := s.cancels[1..], armed := s.armed - {s.cancels[0]}))
    case TimerFires(t, errno) => StartInLoop(s.(armed := s.armed - {t}), errno)
    case Writable(error, selfConnect) => HandleWrite(s, error, selfConnect)
    case Errored(writable, error, selfConnect) =>
      var r := HandleError(s);
      if r.Some? && writable then HandleWrite(r.value, error, selfConnect) else r
    case RunReset => Some(s.(resetQueued := false, channel := None))
    case RestartCall(errno) => Restart(s, errno)
  }

  /** No check fails along the way. */
  predicate IsRun(s: State, events: seq<Event>)
    decreases |events|
  {
    events == [] ||
    (Possible(s, events[0]) && Apply(s, events[0]).Some? && IsRun(Apply(s, events[0]).value, events[1..]))
  }

  function After(s: State, events: seq<Event>): State
    requires IsRun(s, events)
    decreases |events|
  {
    if events == [] then s else After(Apply(s, events[0]).value, events[1..])
  }

  // What every step keeps.

  function Count(q: seq<nat>, sock: nat): nat {
    multiset(q)[sock]
  }

  predicate InFlight(s: State, sock: nat) {
    s.registered && s.channel == Some(sock)
  }

  /** Every socket made so far is in flight, closed once or handed off once, and only one of these. */
  ghost predicate Owned(s: State) {
    forall sock: nat ::
      Count(s.closed, sock) + Count(s.handedOff, sock) + (if InFlight(s, sock) then 1 else 0)
        == if sock < s.created then 1 else 0
  }

  /** The same but for one socket that is in a handler's hands. */
  ghost predicate OwnedBut(s: State, held: nat) {
    forall sock: nat ::
      Count(s.closed, sock) + Count(s.handedOff, sock) + (if InFlight(s, sock) then 1 else 0)
      + (if sock == held then 1 else 0)
        == if sock < s.created then 1 else 0
  }

  function Pow2(k: nat): (p: nat)
    ensures p > 0
  {
    if k == 0 then 1 else 2 * Pow2(k - 1)
  }

  /** The k-th consecutive delay: doubling from half a second up to half a minute. */
  function Delay(k: nat): nat {
    Min(INIT_RETRY_DELAY_MS * Pow2(k), MAX_RETRY_DELAY_MS)
  }

  predicate Backoff(s: State) {
    s.retryDelayMs == Delay(|s.delays|) && forall k :: 0 <= k < |s.delays| ==> s.delays[k] == Delay(k)
  }

  predicate Links(s: State) {
    && (s.channel.Some? <==> s.registered || s.resetQueued)
    && !(s.registered && s.resetQueued)
    && (s.registered ==> s.states != Connected)
    && (forall t :: t in s.armed ==> t < s.timers)
    && (s.timerId.Some? ==> s.timerId.value < s.timers)
    && (forall i :: 0 <= i < |s.cancels| ==> s.cancels[i] < s.timers)
  }

  /** Something will bring the next attempt: a queued start, or a timer that no queued cancel is about to remove. */
  predicate Pending(s: State) {
    s.startsQueued > 0 || exists t :: t in s.armed && t !in s.cancels
  }

  predicate Shape(s: State) {
    && Links(s)
    && (s.states == Connecting ==> s.registered)
    && (s.connect && s.states == Disconnected && !s.gaveUp ==> Pending(s))
  }

  ghost predicate Inv(s: State) {
    Shape(s) && Owned(s) && Backoff(s)
  }

  lemma DelayDoubles(k: nat)
    ensures Delay(k + 1) == Min(Delay(k) * 2, MAX_RETRY_DELAY_MS)
  {
    assert INIT_RETRY_DELAY_MS * Pow2(k + 1) == 2 * (INIT_RETRY_DELAY_MS * Pow2(k));
  }

  lemma CountNext(q: seq<nat>, x: nat)
    ensures forall sock: nat :: Count(q + [x], sock) == Count(q, sock) + if sock == x then 1 else 0
  {}

  lemma RetryKeeps(s: State, sock: nat)
    requires Links(s) && OwnedBut(s, sock) && Backoff(s)
    ensures Inv(Retry(s, sock))
  {
    var s' := Retry(s, sock);
    CountNext(s.closed, sock);
    DelayDoubles(|s.delays|);
    assert forall x: nat :: InFlight(s', x) == InFlight(s, x);
    if s.connect {
      assert s.timers in s'.armed && s.timers !in s'.cancels;
    }
  }

  lemma CloseKeeps(s: State, sock: nat)
    requires Links(s) && OwnedBut(s, sock) && Backoff(s)
    requires s.states == Connected || (s.states == Disconnected && s.gaveUp)
    ensures Inv(CloseSocket(s, sock))
  {
    CountNext(s.closed, sock);
    assert forall x: nat :: InFlight(CloseSocket(s, sock), x) == InFlight(s, x);
  }

  lemma HandOffKeeps(s: State, sock: nat)
    requires Links(s) && OwnedBut(s, sock) && Backoff(s) && s.states == Connected
    ensures Inv(s.(handedOff := s.handedOff + [sock]))
  {
    CountNext(s.handedOff, sock);
    assert forall x: nat :: InFlight(s.(handedOff := s.handedOff + [sock]), x) == InFlight(s, x);
  }

  lemma BeginKeeps(s: State, sock: nat)
    requires Links(s) && OwnedBut(s, sock) && Backoff(s) && s.channel.None?
    ensures BeginConnecting(s, sock).Some? && Inv(BeginConnecting(s, sock).value)
  {
    var s' := BeginConnecting(s, sock).value;
    assert forall x: nat :: InFlight(s', x) <==> x == sock;
    assert forall x: nat :: !InFlight(s, x);
  }

  lemma ResolveKeeps(s: State, sock: nat, e: Errno)
    requires Links(s) && OwnedBut(s, sock) && Backoff(s) && s.states == Disconnected
    requires s.gaveUp == (!UnderWay(e) && !Retryable(e))
    ensures Resolve(s, sock, e).Some? ==> Inv(Resolve(s, sock, e).value)
  {
    if UnderWay(e) {
      if s.channel.None? {
        BeginKeeps(s, sock);
      }
    } else if Retryable(e) {
      RetryKeeps(s, sock);
    } else {
      CloseKeeps(s, sock);
    }
  }

  lemma StartKeeps(s: State, e: Errno)
    requires Links(s) && Owned(s) && Backoff(s)
    requires !s.connect && s.states == Connecting ==> s.registered
    ensures StartInLoop(s, e).Some? ==> Inv(StartInLoop(s, e).value)
  {
    if s.states == Disconnected && s.connect {
      var s1 := NewSocket(s, e);
      assert forall x: nat :: InFlight(s1, x) == InFlight(s, x);
      assert OwnedBut(s1, s.created);
      ResolveKeeps(s1, s.created, e);
    }
  }

  lemma Released(s: State)
    requires Inv(s) && s.registered
    ensures var s1 := RemoveAndResetChannel(s); Links(s1) && OwnedBut(s1, s.channel.value) && Backoff(s1)
  {
    var s1 := RemoveAndResetChannel(s);
    assert forall x: nat :: InFlight(s, x) <==> x == s.channel.value;
    assert forall x: nat :: !InFlight(s1, x);
  }

  lemma WritableKeeps(s: State, error: bool, selfConnect: bool)
    requires Inv(s) && s.registered
    ensures HandleWrite(s, error, selfConnect).Some? && Inv(HandleWrite(s, error, selfConnect).value)
  {
    if s.states == Connecting {
      var sock, s1 := s.channel.value, RemoveAndResetChannel(s);
      Released(s);
      if error || selfConnect {
        RetryKeeps(s1, sock);
      } else if s.connect {
        HandOffKeeps(s1.(states := Connected), sock);
      } else {
        CloseKeeps(s1.(states := Connected), sock);
      }
    }
  }

  lemma ErrorKeeps(s: State)
    requires Inv(s) && s.registered
    ensures HandleError(s).Some? <==> s.states == Connecting
    ensures HandleError(s).Some? ==> Inv(HandleError(s).value) && HandleError(s).value.states == Disconnected
  {
    Released(s);
    RetryKeeps(RemoveAndResetChannel(s), s.channel.value);
  }

  lemma SameFlights(s: State, s': State)
    requires Owned(s) && s'.closed == s.closed && s'.handedOff == s.handedOff && s'.created == s.created
    requires s'.registered == s.registered && (s'.channel == s.channel || !s.registered)
    ensures Owned(s')
  {
    assert forall x: nat :: InFlight(s', x) == InFlight(s, x);
  }

  lemma CancelKeeps(s: State)
    requires Inv(s) && s.cancels != []
    ensures Inv(Apply(s, RunCancel).value)
  {
    var s' := Apply(s, RunCancel).value;
    SameFlights(s, s');
    assert s.cancels == [s.cancels[0]] + s'.cancels;
    if exists t :: t in s.armed && t !in s.cancels {
      var t :| t in s.armed && t !in s.cancels;
      assert t in s'.armed && t !in s'.cancels;
    }
  }

  lemma StopKeeps(s: State, inLoop: bool)
    requires Inv(s)
    ensures Inv(Stop(s, inLoop))
  {
    SameFlights(s, Stop(s, inLoop));
  }

  lemma CallKeeps(s: State)
    requires Inv(s)
    ensures Inv(Apply(s, StartCall).value)
  {
    SameFlights(s, Apply(s, StartCall).value);
  }

  lemma ResetKeeps(s: State)
    requires Inv(s) && s.resetQueued
    ensures Inv(Apply(s, RunReset).value)
  {
    var s' := Apply(s, RunReset).value;
    SameFlights(s, s');
    if Pending(s) && s.startsQueued == 0 {
      var t :| t in s.armed && t !in s.cancels;
      assert t in s'.armed && t !in s'.cancels;
    }
  }

  lemma RunStartKeeps(s: State, e: Errno)
    requires Inv(s) && s.startsQueued > 0
    ensures Apply(s, RunStart(e)).Some? ==> Inv(Apply(s, RunStart(e)).value)
  {
    var s1 := s.(startsQueued := s.startsQueued - 1);
    SameFlights(s, s1);
    StartKeeps(s1, e);
  }

  lemma TimerKeeps(s: State, t: nat, e: Errno)
    requires Inv(s) && t in s.armed
    ensures Apply(s, TimerFires(t, e)).Some? ==> Inv(Apply(s, TimerFires(t, e)).value)
  {
    var s1 := s.(armed := s.armed - {t});
    SameFlights(s, s1);
    StartKeeps(s1, e);
  }

  lemma RestartKeeps(s: State, e: Errno)
    requires Inv(s)
    ensures Restart(s, e).Some? ==> Inv(Restart(s, e).value)
  {
    var s1 := Rewind(s);
    SameFlights(s, s1);
    StartKeeps(s1, e);
  }

  lemma ErroredKeeps(s: State, e: Event)
    requires Inv(s) && e.Errored? && Possible(s, e)
    ensures Apply(s, e).Some? <==> s.states == Connecting
    ensures Apply(s, e).Some? ==> Apply(s, e) == HandleError(s) && Inv(Apply(s, e).value)
  {
    ErrorKeeps(s);
  }

  lemma EventKeeps(s: State, e: Event)
    requires Inv(s) && Possible(s, e)
    ensures Apply(s, e).Some? ==> Inv(Apply(s, e).value)
  {
    match e
    case StartCall => CallKeeps(s);
    case RunStart(errno) => RunStartKeeps(s, errno);
    case StopCall(inLoop) => StopKeeps(s, inLoop);
    case RunCancel => CancelKeeps(s);
    case TimerFires(t, errno) => TimerKeeps(s, t, errno);
    case Writable(error, selfConnect) => WritableKeeps(s, error, selfConnect);
    case Errored(_, _, _) => ErroredKeeps(s, e);
    case RunReset => ResetKeeps(s);
    case RestartCall(errno) => RestartKeeps(s, errno);
  }

  lemma {:induction false} RunKeepsInv(s: State, events: seq<Event>)
    requires Inv(s) && IsRun(s, events)
    ensures Inv(After(s, events))
    decreases |events|
  {
    if events != [] {
      EventKeeps(s, events[0]);
      RunKeepsInv(Apply(s, events[0]).value, events[1..]);
    }
  }

  lemma InitFits()
    ensures Inv(INIT)
  {
    assert forall sock: nat :: Count(INIT.closed, sock) == 0 && Count(INIT.handedOff, sock) == 0;
  }

  /** Whenever start, stop and restart are called, and over any run of errors, self-connects and retries,
      no socket leaks and none is closed twice. */
  lemma SocketsOwned(events: seq<Event>, sock: nat)
    requires IsRun(INIT, events)
    ensures var s := After(INIT, events);
            Count(s.closed, sock) + Count(s.handedOff, sock) + (if InFlight(s, sock) then 1 else 0)
              == if sock < s.created then 1 else 0
  {
    InitFits();
    RunKeepsInv(INIT, events);
  }

  /** The k-th delay since the last restart is 500 * 2^k milliseconds, at most 30 seconds. */
  lemma DelaysDouble(events: seq<Event>, k: nat)
    requires IsRun(INIT, events) && k < |After(INIT, events).delays|
    ensures After(INIT, events).delays[k] == Min(500 * Pow2(k), 30000)
  {
    InitFits();
    RunKeepsInv(INIT, events);
  }

  /** A connector that is meant to connect and is not connected is trying, or will, unless its last attempt met an
      error that is not retried. */
  lemma KeepsTrying(events: seq<Event>)
    requires IsRun(INIT, events)
    ensures var s := After(INIT, events);
            s.connect && s.states != Connected && !s.gaveUp ==> s.registered || Pending(s)
  {
    InitFits();
    RunKeepsInv(INIT, events);
  }

  // What becomes of each socket, told by the event and the state that it finds.

  /** What connect() answers, if the event makes an attempt. */
  function Answer(s: State, e: Event): Option<Errno> {
    match e
    case RunStart(errno) => if s.connect then Some(errno) else None
    case TimerFires(_, errno) => if s.connect then Some(errno) else None
    case RestartCall(errno) => Some(errno)
    case _ => None
  }

  /** The attempt is under way: its socket waits for writability. */
  predicate Begins(s: State, e: Event) {
    match Answer(s, e)
    case None => false
    case Some(errno) => errno in {Zero, EINPROGRESS, EINTR, EISCONN}
  }

  /** The attempt was refused for a reason that may pass. */
  predicate Refused(s: State, e: Event) {
    match Answer(s, e)
    case None => false
    case Some(errno) => errno in {EAGAIN, EADDRINUSE, EADDRNOTAVAIL, ECONNABORTED, ENETUNREACH}
  }

  /** The socket in flight turns out connected to a peer. */
  predicate Succeeds(s: State, e: Event) {
    e == Writable(false, false) && s.states == Connecting
  }

  /** The socket in flight meets an error or turns out connected to itself. */
  predicate Loses(s: State, e: Event) {
    e.Errored? || (e.Writable? && (e.error || e.selfConnect) && s.states == Connecting)
  }

  predicate HandsOff(s: State, e: Event, sock: nat) {
    Succeeds(s, e) && s.connect && InFlight(s, sock)
  }

  predicate Closes(s: State, e: Event, sock: nat) {
    || (InFlight(s, sock) && (Loses(s, e) || (Succeeds(s, e) && !s.connect)))
    || (Answer(s, e).Some? && !Begins(s, e) && sock == s.created)
  }

  /** A retry timer is set: after a failure while the connector means to connect, or after a passing refusal. */
  predicate Retries(s: State, e: Event) {
    (Loses(s, e) && s.connect) || Refused(s, e)
  }

  /** The retry timers that the event takes away. */
  function Disarmed(s: State, e: Event): set<nat> {
    match e
    case TimerFires(t, _) => {t}
    case StopCall(true) => if s.timerId.Some? then {s.timerId.value} else {}
    case RunCancel => if s.cancels != [] then {s.cancels[0]} else {}
    case _ => {}
  }

  predicate HistoryExact(s: State, e: Event, s': State) {
    && s'.created == s.created + (if Answer(s, e).Some? then 1 else 0)
    && (s'.handedOff ==
          if Succeeds(s, e) && s.connect && s.channel.Some? then s.handedOff + [s.channel.value] else s.handedOff)
    && (s'.closed ==
          if s.channel.Some? && (Loses(s, e) || (Succeeds(s, e) && !s.connect)) then s.closed + [s.channel.value]
          else if Answer(s, e).Some? && !Begins(s, e) then s.closed + [s.created]
          else s.closed)
  }

  predicate FlightExact(s: State, e: Event, s': State) {
    && (s'.registered <==> Begins(s, e) || (s.registered && !Loses(s, e) && !Succeeds(s, e)))
    && (Begins(s, e) ==> s'.channel == Some(s.created))
    && (s'.registered && !Begins(s, e) ==> s'.channel == s.channel)
  }

  predicate TimersExact(s: State, e: Event, s': State) {
    && s'.timers == s.timers + (if Retries(s, e) then 1 else 0)
    && s'.armed == s.armed - Disarmed(s, e) + (if Retries(s, e) then {s.timers} else {})
    && (Retries(s, e) ==> s'.timerId == Some(s.timers))
    && var delays := if e.RestartCall? then [] else s.delays;
       s'.delays == if Retries(s, e) then delays + [if e.RestartCall? then 500 else s.retryDelayMs] else delays
  }

  predicate StateExact(s: State, e: Event, s': State) {
    && (s'.connect <==> e.StartCall? || e.RestartCall? || (s.connect && !e.StopCall?))
    && s'.states == if Succeeds(s, e) then Connected
                    else if Begins(s, e) then Connecting
                    else if Loses(s, e) || e.RestartCall? then Disconnected
                    else s.states
  }

  predicate Exact(s: State, e: Event, s': State) {
    HistoryExact(s, e, s') && FlightExact(s, e, s') && TimersExact(s, e, s') && StateExact(s, e, s')
  }

  /** What an attempt makes of the state, answer by answer. */
  lemma StartExact(s: State, errno: Errno)
    requires StartInLoop(s, errno).Some? && s.connect
    ensures var s' := StartInLoop(s, errno).value;
            var s1 := s.(created := s.created + 1);
            if errno in {Zero, EINPROGRESS, EINTR, EISCONN} then
              s' == s1.(states := Connecting, channel := Some(s.created), registered := true, gaveUp := false)
            else if errno in {EAGAIN, EADDRINUSE, EADDRNOTAVAIL, ECONNABORTED, ENETUNREACH} then
              s' == s1.(closed := s.closed + [s.created], timerId := Some(s.timers), timers := s.timers + 1,
                        armed := s.armed + {s.timers}, delays := s.delays + [s.retryDelayMs],
                        retryDelayMs := Min(2 * s.retryDelayMs, 30000), gaveUp := false)
            else s' == s1.(closed := s.closed + [s.created], gaveUp := true)
  {}

  lemma SameTimers(armed: set<nat>)
    ensures armed - {} == armed && armed + {} == armed
  {}

  lemma RunStartExact(s: State, e: Event)
    requires Possible(s, e) && e.RunStart? && Apply(s, e).Some?
    ensures Exact(s, e, Apply(s, e).value)
  {
    var s1 := s.(startsQueued := s.startsQueued - 1);
    SameTimers(s.armed);
    if s.connect {
      StartExact(s1, e.e);
      assert Apply(s, e) == StartInLoop(s1, e.e);
    } else {
      assert Apply(s, e) == Some(s1);
    }
  }

  lemma TimerFiresExact(s: State, e: Event)
    requires Possible(s, e) && e.TimerFires? && Apply(s, e).Some?
    ensures Exact(s, e, Apply(s, e).value)
  {
    var s1 := s.(armed := s.armed - {e.t});
    SameTimers(s1.armed);
    if s.connect {
      StartExact(s1, e.e);
      assert Apply(s, e) == StartInLoop(s1, e.e);
    } else {
      assert Apply(s, e) == Some(s1);
    }
  }

  lemma RestartExact(s: State, e: Event)
    requires Possible(s, e) && e.RestartCall? && Apply(s, e).Some?
    ensures Exact(s, e, Apply(s, e).value)
  {
    StartExact(Rewind(s), e.e);
  }

  lemma WritableExact(s: State, e: Event)
    requires Possible(s, e) && e.Writable? && Apply(s, e).Some?
    ensures Exact(s, e, Apply(s, e).value)
  {
    SameTimers(s.armed);
  }

  lemma ErroredExact(s: State, e: Event)
    requires Inv(s) && Possible(s, e) && e.Errored? && Apply(s, e).Some?
    ensures Exact(s, e, Apply(s, e).value)
  {
    ErroredKeeps(s, e);
    SameTimers(s.armed);
  }

  lemma CallExact(s: State, e: Event)
    requires Possible(s, e) && (e.StartCall? || e.StopCall? || e.RunCancel? || e.RunReset?)
    requires Links(s)
    ensures Apply(s, e).Some? && Exact(s, e, Apply(s, e).value)
  {
    SameTimers(s.armed);
  }

  /** Every event does to the sockets, the timers and the state exactly what it and the state it finds say. */
  lemma EventExactly(s: State, e: Event)
    requires Inv(s) && Possible(s, e) && Apply(s, e).Some?
    ensures Exact(s, e, Apply(s, e).value)
  {
    match e
    case RunStart(_) => RunStartExact(s, e);
    case TimerFires(_, _) => TimerFiresExact(s, e);
    case RestartCall(_) => RestartExact(s, e);
    case Writable(_, _) => WritableExact(s, e);
    case Errored(_, _, _) => ErroredExact(s, e);
    case StartCall | StopCall(_) | RunCancel | RunReset => CallExact(s, e);
  }

  predicate QueuesExact(s: State, e: Event, s': State) {
    && s'.startsQueued ==
         s.startsQueued + (if e.StartCall? then 1 else 0) - (if e.RunStart? then 1 else 0)
    && (s'.resetQueued <==> Loses(s, e) || Succeeds(s, e) || (s.resetQueued && !e.RunReset?))
    && s'.cancels == (if e == StopCall(false) && s.timerId.Some? then s.cancels + [s.timerId.value]
                      else if e.RunCancel? && s.cancels != [] then s.cancels[1..]
                      else s.cancels)
    && (s'.gaveUp <==> if Answer(s, e).Some? then !Begins(s, e) && !Refused(s, e) else s.gaveUp)
  }

  lemma RunStartQueues(s: State, e: Event)
    requires Possible(s, e) && e.RunStart? && Apply(s, e).Some?
    ensures QueuesExact(s, e, Apply(s, e).value)
  {
    var s1 := s.(startsQueued := s.startsQueued - 1);
    if s.connect {
      StartExact(s1, e.e);
      assert Apply(s, e) == StartInLoop(s1, e.e);
    } else {
      assert Apply(s, e) == Some(s1);
    }
  }

  lemma TimerFiresQueues(s: State, e: Event)
    requires Possible(s, e) && e.TimerFires? && Apply(s, e).Some?
    ensures QueuesExact(s, e, Apply(s, e).value)
  {
    var s1 := s.(armed := s.armed - {e.t});
    if s.connect {
      StartExact(s1, e.e);
      assert Apply(s, e) == StartInLoop(s1, e.e);
    } else {
      assert Apply(s, e) == Some(s1);
    }
  }

  lemma RestartQueues(s: State, e: Event)
    requires Possible(s, e) && e.RestartCall? && Apply(s, e).Some?
    ensures QueuesExact(s, e, Apply(s, e).value)
  {
    StartExact(Rewind(s), e.e);
    assert Apply(s, e) == StartInLoop(Rewind(s), e.e);
  }

  /** What every event leaves in the loop's queue, and when the connector gives up. */
  lemma QueuesExactly(s: State, e: Event)
    requires Inv(s) && Possible(s, e) && Apply(s, e).Some?
    ensures QueuesExact(s, e, Apply(s, e).value)
  {
    match e
    case RunStart(_) => RunStartQueues(s, e);
    case TimerFires(_, _) => TimerFiresQueues(s, e);
    case RestartCall(_) => RestartQueues(s, e);
    case Errored(_, _, _) => ErroredKeeps(s, e);
    case Writable(_, _) | StartCall | StopCall(_) | RunCancel | RunReset =>
  }

  predicate HandsOffIn(s: State, events: seq<Event>, sock: nat)
    requires IsRun(s, events)
    decreases |events|
  {
    events != [] && (HandsOff(s, events[0], sock) || HandsOffIn(Apply(s, events[0]).value, events[1..], sock))
  }

  predicate ClosesIn(s: State, events: seq<Event>, sock: nat)
    requires IsRun(s, events)
    decreases |events|
  {
    events != [] && (Closes(s, events[0], sock) || ClosesIn(Apply(s, events[0]).value, events[1..], sock))
  }

  lemma EventFates(s: State, e: Event, sock: nat)
    requires Inv(s) && Possible(s, e) && Apply(s, e).Some?
    ensures var s' := Apply(s, e).value;
            && (sock in s'.handedOff <==> sock in s.handedOff || HandsOff(s, e, sock))
            && (sock in s'.closed <==> sock in s.closed || Closes(s, e, sock))
  {
    EventExactly(s, e);
  }

  lemma {:induction false} RunFates(s: State, events: seq<Event>, sock: nat)
    requires Inv(s) && IsRun(s, events)
    ensures sock in After(s, events).handedOff <==> sock in s.handedOff || HandsOffIn(s, events, sock)
    ensures sock in After(s, events).closed <==> sock in s.closed || ClosesIn(s, events, sock)
    decreases |events|
  {
    if events != [] {
      EventFates(s, events[0], sock);
      EventKeeps(s, events[0]);
      RunFates(Apply(s, events[0]).value, events[1..], sock);
    }
  }

  /** Over every run: a socket is handed to the user exactly when it became writable without error or self-connect while
      it was in flight and the connector was connecting and meant to; it is closed exactly when it was in flight and met
      an error or itself, or succeeded after stop, or when connect refused it. */
  lemma FatesExactly(events: seq<Event>, sock: nat)
    requires IsRun(INIT, events)
    ensures sock in After(INIT, events).handedOff <==> HandsOffIn(INIT, events, sock)
    ensures sock in After(INIT, events).closed <==> ClosesIn(INIT, events, sock)
  {
    InitFits();
    RunFates(INIT, events, sock);
  }

  /** In every reachable state: a failure of the socket in flight closes it, and while the connector means to connect
      it arms one new timer, for the delay that is due; otherwise it arms none. */
  lemma FailureRetries(events: seq<Event>, e: Event)
    requires IsRun(INIT, events) && Possible(After(INIT, events), e) && Apply(After(INIT, events), e).Some?
    requires Loses(After(INIT, events), e)
    ensures var s := After(INIT, events);
            var s' := Apply(s, e).value;
            && s.channel.Some? && s'.closed == s.closed + [s.channel.value] && s'.handedOff == s.handedOff
            && s'.states == Disconnected
            && if s.connect then
                 && s'.timerId == Some(s.timers) && s.timers !in s.armed && s'.armed == s.armed + {s.timers}
                 && s'.delays == s.delays + [Min(500 * Pow2(|s.delays|), 30000)]
               else s'.armed == s.armed && s'.delays == s.delays
  {
    InitFits();
    RunKeepsInv(INIT, events);
    EventExactly(After(INIT, events), e);
    SameTimers(After(INIT, events).armed);
  }

  lemma StoppedStays(s: State, e: Event)
    requires !s.connect && Possible(s, e) && Apply(s, e).Some? && !e.StartCall? && !e.RestartCall?
    ensures var s' := Apply(s, e).value; !s'.connect && s'.created == s.created && s'.handedOff == s.handedOff
  {}

  /** Once stop has been called, nothing is created or handed off until the next start or restart. */
  lemma {:induction false} StopIsFinal(s: State, events: seq<Event>)
    requires IsRun(s, events) && !s.connect
    requires forall i :: 0 <= i < |events| ==> !events[i].StartCall? && !events[i].RestartCall?
    ensures var s' := After(s, events); !s'.connect && s'.created == s.created && s'.handedOff == s.handedOff
    decreases |events|
  {
    if events != [] {
      StoppedStays(s, events[0]);
      StopIsFinal(Apply(s, events[0]).value, events[1..]);
    }
  }

  // When the checks of the source hold.

  /** In every reachable state: which events fail a check. */
  predicate Fails(s: State, e: Event) {
    match e
    case RunStart(errno) => s.states != Disconnected || (s.connect && UnderWay(errno) && s.channel.Some?)
    case TimerFires(_, errno) => s.states != Disconnected || (s.connect && UnderWay(errno) && s.channel.Some?)
    case RestartCall(errno) => UnderWay(errno) && s.channel.Some?
    case Errored(_, _, _) => s.states != Connecting
    case _ => false
  }

  lemma FailsExactly(s: State, e: Event)
    requires Inv(s) && Possible(s, e)
    ensures Apply(s, e) == None <==> Fails(s, e)
  {
    match e
    case Writable(error, selfConnect) => WritableKeeps(s, error, selfConnect);
    case Errored(_, _, _) => ErroredKeeps(s, e);
    case StartCall | RunStart(_) | StopCall(_) | RunCancel | TimerFires(_, _) | RunReset | RestartCall(_) =>
  }

  lemma ChecksExactly(events: seq<Event>, e: Event)
    requires IsRun(INIT, events) && Possible(After(INIT, events), e)
    ensures Apply(After(INIT, events), e) == None <==> Fails(After(INIT, events), e)
  {
    InitFits();
    RunKeepsInv(INIT, events);
    FailsExactly(After(INIT, events), e);
  }

  /** startInLoop may be run, whatever connect answers, exactly when the connector is disconnected and, if it is to
      connect, its old channel is gone. */
  lemma StartSafe(s: State)
    ensures (forall e :: StartInLoop(s, e).Some?) <==> s.states == Disconnected && (s.connect ==> s.channel.None?)
  {
    if s.states == Disconnected && s.connect && s.channel.Some? {
      assert StartInLoop(s, Zero) == None;
    } else if s.states != Disconnected {
      assert StartInLoop(s, Zero) == None;
    }
  }

  /** restart may be called, whatever connect answers, exactly when the old channel is gone. */
  lemma RestartSafe(s: State)
    ensures (forall e :: Restart(s, e).Some?) <==> s.channel.None?
  {
    if s.channel.Some? {
      assert Restart(s, Zero) == None;
    }
  }

  // A connector whose user waits for it.

  predicate Idle(s: State) {
    s.channel.None? && s.armed == {} && s.startsQueued == 0
  }

  /** start and restart are called when nothing of an earlier attempt is left, and a retry delay outlasts the loop
      iteration that set it. */
  predicate Careful(s: State, e: Event) {
    match e
    case StartCall => Idle(s) && s.states == Disconnected
    case RestartCall(_) => Idle(s)
    case TimerFires(_, _) => !s.resetQueued
    case _ => true
  }

  predicate CarefulRun(s: State, events: seq<Event>)
    decreases |events|
  {
    events == [] ||
    (&& Possible(s, events[0]) && Careful(s, events[0])
     && (Apply(s, events[0]).Some? ==> CarefulRun(Apply(s, events[0]).value, events[1..])))
  }

  function Outstanding(s: State): nat {
    (if s.registered then 1 else 0) + |s.armed| + s.startsQueued
  }

  predicate Single(s: State) {
    && Outstanding(s) <= 1
    && (s.registered ==> s.states == Connecting)
    && (s.armed != {} || s.startsQueued > 0 ==> s.states == Disconnected)
    && (s.startsQueued > 0 ==> s.channel.None?)
  }

  lemma EmptySize(a: set<nat>)
    ensures |a| == 0 <==> a == {}
  {}

  lemma RetrySingle(s: State, sock: nat)
    requires !s.registered && s.armed == {} && s.startsQueued == 0
    ensures Single(Retry(s, sock))
  {
    assert {} + {s.timers} == {s.timers} && |{s.timers}| == 1;
  }

  lemma StartSingle(s: State, e: Errno)
    requires !s.registered && s.armed == {} && s.startsQueued == 0 && s.channel.None? && s.states == Disconnected
    ensures StartInLoop(s, e).Some? && Single(StartInLoop(s, e).value)
  {
    if s.connect && Retryable(e) && !UnderWay(e) {
      RetrySingle(NewSocket(s, e), s.created);
    }
  }

  lemma OneArmed(a: set<nat>, t: nat)
    requires |a| <= 1 && t in a
    ensures a - {t} == {}
  {
    assert |a - {t}| == |a| - 1;
  }

  lemma SubsetSize(a: set<nat>, b: set<nat>)
    requires a <= b
    ensures |a| <= |b| && (a != {} ==> b != {})
  {
    assert b == a + (b - a);
  }

  lemma FewerArmedSingle(s: State, armed: set<nat>, s': State)
    requires Single(s) && armed <= s.armed
    requires s'.registered == s.registered && s'.states == s.states && s'.channel == s.channel
    requires s'.startsQueued == s.startsQueued && s'.armed == armed
    ensures Single(s')
  {
    SubsetSize(armed, s.armed);
  }

  lemma WritableSingle(s: State, error: bool, selfConnect: bool)
    requires Inv(s) && Single(s) && s.registered
    ensures HandleWrite(s, error, selfConnect).Some? && Single(HandleWrite(s, error, selfConnect).value)
  {
    EmptySize(s.armed);
    RetrySingle(RemoveAndResetChannel(s), s.channel.value);
  }

  lemma ErroredSingle(s: State, e: Event)
    requires Inv(s) && Single(s) && e.Errored? && Possible(s, e)
    ensures Apply(s, e).Some? && Single(Apply(s, e).value)
  {
    EmptySize(s.armed);
    ErroredKeeps(s, e);
    RetrySingle(RemoveAndResetChannel(s), s.channel.value);
  }

  lemma AttemptSingle(s: State, e: Event)
    requires Single(s) && Possible(s, e) && Careful(s, e) && (e.RunStart? || e.TimerFires? || e.RestartCall?)
    requires s.channel.Some? <==> s.registered || s.resetQueued
    ensures Apply(s, e).Some? && Single(Apply(s, e).value)
  {
    EmptySize(s.armed);
    if e.RunStart? {
      StartSingle(s.(startsQueued := 0), e.e);
    } else if e.TimerFires? {
      OneArmed(s.armed, e.t);
      StartSingle(s.(armed := s.armed - {e.t}), e.e);
    } else {
      StartSingle(Rewind(s), e.e);
    }
  }

  lemma CarefulKeeps(s: State, e: Event)
    requires Inv(s) && Single(s) && Possible(s, e) && Careful(s, e)
    ensures Apply(s, e).Some? && Single(Apply(s, e).value)
  {
    EmptySize(s.armed);
    match e
    case StartCall =>
    case RunStart(_) | TimerFires(_, _) | RestartCall(_) => AttemptSingle(s, e);
    case StopCall(inLoop) => FewerArmedSingle(s, Stop(s, inLoop).armed, Stop(s, inLoop));
    case RunCancel => FewerArmedSingle(s, s.armed - {s.cancels[0]}, Apply(s, e).value);
    case Writable(error, selfConnect) => WritableSingle(s, error, selfConnect);
    case Errored(_, _, _) => ErroredSingle(s, e);
    case RunReset =>
  }

  lemma {:induction false} CarefulRuns(s: State, events: seq<Event>)
    requires Inv(s) && Single(s) && CarefulRun(s, events)
    ensures IsRun(s, events) && Inv(After(s, events)) && Single(After(s, events))
    decreases |events|
  {
    if events != [] {
      CarefulKeeps(s, events[0]);
      EventKeeps(s, events[0]);
      CarefulRuns(Apply(s, events[0]).value, events[1..]);
    }
  }

  /** With a careful user no check ever fails, at most one attempt, retry timer or queued start is outstanding, and
      exactly one while the connector means to connect, is not connected and has not given up. */
  lemma OneOutstanding(events: seq<Event>)
    requires CarefulRun(INIT, events)
    ensures IsRun(INIT, events)
    ensures var s := After(INIT, events);
            && Outstanding(s) <= 1
            && (s.connect && s.states != Connected && !s.gaveUp ==> Outstanding(s) == 1)
  {
    InitFits();
    CarefulRuns(INIT, events);
    EmptySize(After(INIT, events).armed);
  }

  /** A start while a retry timer is pending begins a second attempt; when the timer then fires, it finds the
      connector connecting and fails the check in startInLoop. */
  lemma StartWhileWaiting(s: State, t: nat, e: Errno, e': Errno)
    requires Inv(s) && s.states == Disconnected && s.channel.None? && t in s.armed && UnderWay(e)
    ensures var s1 := Apply(s, StartCall).value;
            var s2 := Apply(s1, RunStart(e));
            && s2.Some? && s2.value.registered && t in s2.value.armed && Outstanding(s2.value) >= 2
            && Apply(s2.value, TimerFires(t, e')) == None
  {
    EmptySize(s.armed);
  }

  /** An attempt that is still under way when stop is called: once it has ended and its channel is gone, a second start
      passes the check in startInLoop exactly when the attempt failed. A success is closed, but leaves the state at
      Connected. Restart, which resets the state, is safe in either case. */
  lemma StartAfterStop(s: State, error: bool, selfConnect: bool)
    requires Inv(s) && s.states == Connecting && !s.connect
    ensures var s1 := Apply(s, Writable(error, selfConnect)).value;
            var s2 := Apply(s1, RunReset).value;
            var s3 := Apply(s2, StartCall).value;
            && s2.closed == s.closed + [s.channel.value]
            && ((forall e :: Apply(s3, RunStart(e)).Some?) <==> error || selfConnect)
            && (forall e :: Restart(s2, e).Some?)
  {
    var s1 := Apply(s, Writable(error, selfConnect)).value;
    var s2 := Apply(s1, RunReset).value;
    var s3 := Apply(s2, StartCall).value;
    var s4 := s3.(startsQueued := s3.startsQueued - 1);
    assert s4.channel == None && s4.connect && (s4.states == Disconnected <==> error || selfConnect);
    assert s2.closed == s.closed + [s.channel.value];
    StartSafe(s4);
    RestartSafe(s2);
    assert forall e :: Apply(s3, RunStart(e)) == StartInLoop(s4, e);
    if !(error || selfConnect) {
      assert Apply(s3, RunStart(Zero)) == None;
    }
  }

  lemma FirstEvent(s: State, e: Event, rest: seq<Event>)
    requires Possible(s, e) && Apply(s, e).Some? && IsRun(Apply(s, e).value, rest)
    ensures IsRun(s, [e] + rest) && After(s, [e] + rest) == After(Apply(s, e).value, rest)
  {
    assert ([e] + rest)[1..] == rest;
  }

  /** Start, stop while connecting, success, start: no answer of connect lets the second start pass. */
  lemma StartAfterStopWitness(e: Errno)
    ensures var events := [StartCall] + ([RunStart(EINPROGRESS)] + ([StopCall(true)] +
                          ([Writable(false, false)] + ([RunReset] + ([StartCall] + [])))));
            && IsRun(INIT, events) && Possible(After(INIT, events), RunStart(e))
            && Apply(After(INIT, events), RunStart(e)) == None
  {
    var s1 := Apply(INIT, StartCall).value;
    var s2 := Apply(s1, RunStart(EINPROGRESS)).value;
    var s3 := Apply(s2, StopCall(true)).value;
    var s4 := Apply(s3, Writable(false, false)).value;
    var s5 := Apply(s4, RunReset).value;
    var r5 := [StartCall] + [];
    var r4 := [RunReset] + r5;
    var r3 := [Writable(false, false)] + r4;
    var r2 := [StopCall(true)] + r3;
    assert s5.states == Connected && s5.startsQueued == 0;
    FirstEvent(s5, StartCall, []);
    FirstEvent(s4, RunReset, r5);
    FirstEvent(s3, Writable(false, false), r4);
    FirstEvent(s2, StopCall(true), r3);
    FirstEvent(s1, RunStart(EINPROGRESS), r2);
    FirstEvent(INIT, StartCall, [RunStart(EINPROGRESS)] + r2);
  }
}

/** The connector object: the same machine as assignments to its fields. A method may be called whenever the checks of
    the source hold. */
module Connectors {
  import opened Buffers
  import opened ConnectorSpec

  class Connector {
    var connect: bool
    var states: States
    var channel: Option<nat>
    var registered: bool
    var retryDelayMs: nat
    var timerId: Option<nat>
    var armed: set<nat>
    var startsQueued: nat
    var resetQueued: bool
    var cancels: seq<nat>
    var created: nat
    ghost var closed: seq<nat>
    ghost var handedOff: seq<nat>
    var timers: nat
    ghost var delays: seq<nat>
    ghost var gaveUp: bool

    ghost function View(): State
      reads this
    {
      State(connect, states, channel, registered, retryDelayMs, timerId, armed, startsQueued, resetQueued, cancels,
            created, closed, handedOff, timers, delays, gaveUp)
    }

    constructor ()
      ensures View() == INIT && Inv(View())
    {
      connect, states, channel, registered := false, Disconnected, None, false;
      retryDelayMs, timerId, armed, startsQueued, resetQueued, cancels := INIT_RETRY_DELAY_MS, None, {}, 0, false, [];
      created, closed, handedOff, timers, delays, gaveUp := 0, [], [], 0, [], false;
      new;
      InitFits();
    }

    method Start()
      modifies this`connect, this`startsQueued
      ensures Some(View()) == Apply(old(View()), StartCall)
    {
      connect := true;
      startsQueued := startsQueued + 1;
    }

    method NewSocket(e: Errno) returns (sock: nat)
      modifies this`created, this`gaveUp
      ensures sock == old(created) && View() == ConnectorSpec.NewSocket(old(View()), e)
    {
      sock := created;
      created := created + 1;
      gaveUp := !UnderWay(e) && !Retryable(e);
    }

    method BeginConnecting(sock: nat)
      requires channel.None?
      modifies this`states, this`channel, this`registered
      ensures Some(View()) == ConnectorSpec.BeginConnecting(old(View()), sock)
    {
      states := Connecting;
      channel := Some(sock);
      registered := true;
    }

    method Close(sock: nat)
      modifies this`closed
      ensures View() == CloseSocket(old(View()), sock)
    {
      closed := closed + [sock];
    }

    method RunAfter(delayMs: nat)
      modifies this`timerId, this`armed, this`timers, this`delays
      ensures View() == ConnectorSpec.RunAfter(old(View()), delayMs)
    {
      timerId := Some(timers);
      armed := armed + {timers};
      timers := timers + 1;
      delays := delays + [delayMs];
    }

    method Retry(sock: nat)
      modifies this`closed, this`states, this`timerId, this`armed, this`timers, this`delays, this`retryDelayMs
      ensures View() == ConnectorSpec.Retry(old(View()), sock)
      ensures closed == old(closed) + [sock] && states == Disconnected
      ensures delays == old(delays) + if connect then [old(retryDelayMs)] else []
      ensures armed == old(armed) + if connect then {old(timers)} else {}
    {
      Close(sock);
      states := Disconnected;
      if connect {
        RunAfter(retryDelayMs);
        retryDelayMs := Min(retryDelayMs * 2, MAX_RETRY_DELAY_MS);
      }
    }

    /** The switch on errno. */
    method Resolve(sock: nat, e: Errno)
      requires ConnectorSpec.Resolve(View(), sock, e).Some?
      modifies this
      ensures Some(View()) == ConnectorSpec.Resolve(old(View()), sock, e)
    {
      if UnderWay(e) {
        BeginConnecting(sock);
      } else if Retryable(e) {
        Retry(sock);
      } else {
        Close(sock);
      }
    }

    method Connect(e: Errno)
      requires ConnectorSpec.Connect(View(), e).Some?
      modifies this
      ensures Some(View()) == ConnectorSpec.Connect(old(View()), e)
    {
      var sock := NewSocket(e);
      Resolve(sock, e);
    }

    method StartInLoop(e: Errno)
      requires ConnectorSpec.StartInLoop(View(), e).Some?
      modifies this
      ensures Some(View()) == ConnectorSpec.StartInLoop(old(View()), e)
    {
      assert states == Disconnected;
      if connect {
        Connect(e);
      }
    }

    method RemoveAndResetChannel() returns (sock: nat)
      requires channel.Some?
      modifies this`registered, this`resetQueued
      ensures View() == ConnectorSpec.RemoveAndResetChannel(old(View())) && sock == channel.value
    {
      registered := false;
      sock := channel.value;
      resetQueued := true;
    }

    method ResetChannel()
      requires resetQueued
      modifies this`channel, this`resetQueued
      ensures Some(View()) == Apply(old(View()), RunReset)
    {
      resetQueued := false;
      channel := None;
    }

    method HandleWrite(error: bool, selfConnect: bool)
      requires states == Connecting ==> channel.Some?
      requires ConnectorSpec.HandleWrite(View(), error, selfConnect).Some?
      modifies this
      ensures Some(View()) == ConnectorSpec.HandleWrite(old(View()), error, selfConnect)
      ensures handedOff == old(handedOff) +
              if old(states) == Connecting && !error && !selfConnect && connect then [old(channel).value] else []
      ensures closed == old(closed) +
              if old(states) == Connecting && (error || selfConnect || !connect) then [old(channel).value] else []
      ensures timers == old(timers) +
              if old(states) == Connecting && (error || selfConnect) && connect then 1 else 0
      ensures connect == old(connect)
    {
      if states == Connecting {
        var sock := RemoveAndResetChannel();
        if error {
          Retry(sock);
        } else if selfConnect {
          Retry(sock);
        } else {
          states := Connected;
          if connect {
            handedOff := handedOff + [sock];
          } else {
            Close(sock);
          }
        }
      } else {
        assert states == Disconnected;
      }
    }

    method HandleError()
      requires channel.Some? && states == Connecting
      modifies this
      ensures Some(View()) == ConnectorSpec.HandleError(old(View()))
    {
      var sock := RemoveAndResetChannel();
      Retry(sock);
    }

    /** What the channel does with an error report: the error callback, then the write callback if it is also
        writable. */
    method HandleErrorEvent(writable: bool, error: bool, selfConnect: bool)
      requires Inv(View()) && registered && states == Connecting
      modifies this
      ensures Some(View()) == Apply(old(View()), Errored(writable, error, selfConnect)) && Inv(View())
    {
      ErroredKeeps(View(), Errored(writable, error, selfConnect));
      HandleError();
      if writable {
        HandleWrite(error, selfConnect);
      }
    }

    method Stop(inLoop: bool)
      modifies this`connect, this`armed, this`cancels
      ensures View() == ConnectorSpec.Stop(old(View()), inLoop)
    {
      connect := false;
      if timerId.Some? {
        if inLoop {
          armed := armed - {timerId.value};
        } else {
          cancels := cancels + [timerId.value];
        }
      }
    }

    method Rewind()
      modifies this`states, this`retryDelayMs, this`delays, this`connect
      ensures View() == ConnectorSpec.Rewind(old(View()))
    {
      states := Disconnected;
      retryDelayMs := INIT_RETRY_DELAY_MS;
      delays := [];
      connect := true;
    }

    method Restart(e: Errno)
      requires ConnectorSpec.Restart(View(), e).Some?
      modifies this
      ensures Some(View()) == ConnectorSpec.Restart(old(View()), e)
    {
      Rewind();
      StartInLoop(e);
    }

    method TimerFired(t: nat, e: Errno)
      requires t in armed && Apply(View(), TimerFires(t, e)).Some?
      modifies this
      ensures Some(View()) == Apply(old(View()), TimerFires(t, e))
    {
      armed := armed - {t};
      StartInLoop(e);
    }

    method RunQueuedStart(e: Errno)
      requires startsQueued > 0 && Apply(View(), RunStart(e)).Some?
      modifies this
      ensures Some(View()) == Apply(old(View()), RunStart(e))
    {
      startsQueued := startsQueued - 1;
      StartInLoop(e);
    }
  }
}
