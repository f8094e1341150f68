/** Connection lifecycles across loops: chaonet/src/TcpServer.cpp with the connection's establish, close and destroy
    handlers. */
module ServerSpec {

  type Loop = nat

  datatype ConnState = Connecting | Connected | Disconnecting | Disconnected

  datatype Happening = Established | UpCallback | DownCallback | Destroyed

  datatype ConnRec = ConnRec(name: string, loop: Loop, state: ConnState, history: seq<Happening>)

  datatype Task = Establish(conn: nat) | Remove(conn: nat) | Destroy(conn: nat)

  datatype Server = Server(
    name: string,
    base: Loop,
    nextConnId: nat,
    conns: seq<ConnRec>,               // every connection accepted so far
    connections: map<string, nat>,
    queues: map<Loop, seq<Task>>,
    removed: set<nat>,                 // history: connections erased from the map
    erased: seq<int>                   // history: what each erase reported
  )

  // Names.

  function Digits(n: nat): (s: string)
    ensures s != ""
  {
    if n < 10 then [('0' as int + n) as char] else Digits(n / 10) + [('0' as int + n % 10) as char]
  }

  lemma {:induction false} DigitsInjective(m: nat, n: nat)
    requires Digits(m) == Digits(n)
    ensures m == n
    decreases m
  {
    var k := |Digits(m)| - 1;
    assert Digits(m)[k] == Digits(n)[k];
    if m >= 10 && n >= 10 {
      assert Digits(m)[..k] == Digits(m / 10) && Digits(n)[..k] == Digits(n / 10);
      DigitsInjective(m / 10, n / 10);
    }
  }

  function ConnName(server: string, id: nat): string {
    server + ("#" + Digits(id))
  }

  /** Different connection numbers give different names. */
  lemma NamesDiffer(server: string, m: nat, n: nat)
    requires ConnName(server, m) == ConnName(server, n)
    ensures m == n
  {
    assert ConnName(server, m)[|server|..] == "#" + Digits(m);
    assert ConnName(server, n)[|server|..] == "#" + Digits(n);
    assert ("#" + Digits(m))[1..] == Digits(m) && ("#" + Digits(n))[1..] == Digits(n);
    DigitsInjective(m, n);
  }

  // Handlers.

  function QueueAt(s: Server, l: Loop): seq<Task> {
    if l in s.queues then s.queues[l] else []
  }

  function QueueInLoop(s: Server, l: Loop, t: Task): Server {
    s.(queues := s.queues[l := QueueAt(s, l) + [t]])
  }

  function Dequeue(s: Server, l: Loop): Server
    requires QueueAt(s, l) != []
  {
    s.(queues := s.queues[l := QueueAt(s, l)[1..]])
  }

  function SetConn(s: Server, id: nat, c: ConnRec): Server
    requires id < |s.conns|
  {
    s.(conns := s.conns[id := c])
  }

  function ConnectionEstablished(s: Server, id: nat): Server
    requires id < |s.conns|
  {
    var c := s.conns[id];
    SetConn(s, id, c.(state := Connected, history := c.history + [Established, UpCallback]))
  }

  function Unregister(s: Server, id: nat): Server
    requires id < |s.conns|
  {
    var n := if s.conns[id].name in s.connections then 1 else 0;
    s.(connections := s.connections - {s.conns[id].name}, removed := s.removed + {id}, erased := s.erased + [n])
  }

  function RemoveConnectionInLoop(s: Server, id: nat): Server
    requires id < |s.conns|
  {
    QueueInLoop(Unregister(s, id), s.conns[id].loop, Destroy(id))
  }

  function ConnectionDestroyed(s: Server, id: nat): Server
    requires id < |s.conns|
  {
    var c := s.conns[id];
    var c1 := if c.state == Connected then c.(state := Disconnected, history := c.history + [DownCallback]) else c;
    SetConn(s, id, c1.(history := c1.history + [Destroyed]))
  }

  /** A connection that is still up when it is destroyed reports that it went down, and no other does. */
  lemma DestroyReports(s: Server, id: nat)
    requires id < |s.conns|
    ensures var c, c' := s.conns[id], ConnectionDestroyed(s, id).conns[id];
            && c'.history == c.history + (if c.state == Connected then [DownCallback, Destroyed] else [Destroyed])
            && c'.state == (if c.state == Connected then Disconnected else c.state)
            && forall other :: 0 <= other < |s.conns| && other != id ==>
                 ConnectionDestroyed(s, id).conns[other] == s.conns[other]
  {
    var h := s.conns[id].history;
    assert h + [DownCallback] + [Destroyed] == h + [DownCallback, Destroyed];
  }

  function Execute(s: Server, t: Task): Server
    requires t.conn < |s.conns|
  {
    match t
    case Establish(id) => ConnectionEstablished(s, id)
    case Remove(id) => RemoveConnectionInLoop(s, id)
    case Destroy(id) => ConnectionDestroyed(s, id)
  }

  /** runInLoop: at once on the loop's own thread, through its queue from any other. */
  function RunInLoop(s: Server, current: Loop, target: Loop, t: Task): Server
    requires t.conn < |s.conns|
  {
    if current == target then Execute(s, t) else QueueInLoop(s, target, t)
  }

  function Register(s: Server, ioLoop: Loop): Server {
    var name := ConnName(s.name, s.nextConnId);
    s.(nextConnId := s.nextConnId + 1,
       conns := s.conns + [ConnRec(name, ioLoop, Connecting, [])],
       connections := s.connections[name := |s.conns|])
  }

  function NewConnection(s: Server, ioLoop: Loop): Server {
    RunInLoop(Register(s, ioLoop), s.base, ioLoop, Establish(|s.conns|))
  }

  function CloseConn(s: Server, id: nat): Server
    requires id < |s.conns|
  {
    var c := s.conns[id];
    SetConn(s, id, c.(state := Disconnected, history := c.history + [DownCallback]))
  }

  function HandleClose(s: Server, id: nat): Server
    requires id < |s.conns|
  {
    RunInLoop(CloseConn(s, id), s.conns[id].loop, s.base, Remove(id))
  }

  // Runs.

  datatype Step = Accept(ioLoop: Loop) | Close(id: nat) | AskShutdown(id: nat) | RunTask(l: Loop)

  predicate Legal(s: Server, step: Step) {
    match step
    case Accept(_) => true
    case Close(id) => id < |s.conns| && (s.conns[id].state == Connected || s.conns[id].state == Disconnecting)
    case AskShutdown(id) => id < |s.conns| && s.conns[id].state == Connected
    case RunTask(l) => QueueAt(s, l) != [] && QueueAt(s, l)[0].conn < |s.conns|
  }

  function Apply(s: Server, step: Step): Server
    requires Legal(s, step)
  {
    match step
    case Accept(ioLoop) => NewConnection(s, ioLoop)
    case Close(id) => HandleClose(s, id)
    case AskShutdown(id) => SetConn(s, id, s.conns[id].(state := Disconnecting))
    case RunTask(l) => Execute(Dequeue(s, l), QueueAt(s, l)[0])
  }

  function Start(name: string, base: Loop): Server {
    Server(name, base, 1, [], map[], map[], {}, [])
  }

  predicate IsRun(s: Server, steps: seq<Step>)
    decreases |steps|
  {
    steps == [] || (Legal(s, steps[0]) && IsRun(Apply(s, steps[0]), steps[1..]))
  }

  function After(s: Server, steps: seq<Step>): Server
    requires IsRun(s, steps)
    decreases |steps|
  {
    if steps == [] then s else After(Apply(s, steps[0]), steps[1..])
  }

  // The invariant: a connection's history determines which task, if any, waits for it and where.

  const LIFE := [Established, UpCallback, DownCallback, Destroyed]

  /** Accepted, established, closed, removed from the map, destroyed. */
  datatype Phase = Created | Live | Closing | Leaving | Gone

  function PhaseOf(s: Server, id: nat): Phase
    requires id < |s.conns|
  {
    var n := |s.conns[id].history|;
    if n == 0 then Created
    else if n == 2 then Live
    else if n == 3 then (if id in s.removed then Leaving else Closing)
    else Gone
  }

  predicate StateFits(c: ConnRec) {
    && c.history <= LIFE && |c.history| != 1
    && (|c.history| == 0 ==> c.state == Connecting)
    && (|c.history| == 2 ==> c.state == Connected || c.state == Disconnecting)
    && (|c.history| >= 3 ==> c.state == Disconnected)
  }

  /** Task t has to be waiting in the queue of loop l. */
  predicate Waits(s: Server, l: Loop, t: Task) {
    && t.conn < |s.conns|
    && match t
       case Establish(id) => PhaseOf(s, id) == Created && l == s.conns[id].loop
       case Remove(id) => PhaseOf(s, id) == Closing && l == s.base
       case Destroy(id) => PhaseOf(s, id) == Leaving && l == s.conns[id].loop
  }

  predicate NoRepeats(q: seq<Task>) {
    forall i, j :: 0 <= i < j < |q| ==> q[i] != q[j]
  }

  ghost predicate ConnsFit(s: Server) {
    && s.nextConnId == |s.conns| + 1
    && forall id :: 0 <= id < |s.conns| ==>
         && StateFits(s.conns[id]) && s.conns[id].name == ConnName(s.name, id + 1)
         && (PhaseOf(s, id) in {Leaving, Gone} <==> id in s.removed)
  }

  ghost predicate QueuesFit(s: Server) {
    && (forall l: Loop :: NoRepeats(QueueAt(s, l)))
    && (forall l: Loop, t: Task :: t in QueueAt(s, l) <==> Waits(s, l, t))
  }

  /** The queues while task t0 of loop l0 is in the hands of whoever runs or queues it. */
  ghost predicate QueuesFitExcept(s: Server, l0: Loop, t0: Task) {
    && Waits(s, l0, t0)
    && (forall l: Loop :: NoRepeats(QueueAt(s, l)))
    && (forall l: Loop, t: Task :: t in QueueAt(s, l) <==> Waits(s, l, t) && !(l == l0 && t == t0))
  }

  /** The map holds exactly the accepted connections that have not been removed. */
  ghost predicate MapExact(s: Server) {
    && (forall id :: 0 <= id < |s.conns| && id !in s.removed ==>
          s.conns[id].name in s.connections && s.connections[s.conns[id].name] == id)
    && (forall name :: name in s.connections ==>
          && s.connections[name] < |s.conns| && s.connections[name] !in s.removed
          && s.conns[s.connections[name]].name == name)
  }

  ghost predicate ErasesSucceed(s: Server) {
    (forall k :: 0 <= k < |s.erased| ==> s.erased[k] == 1) && forall id :: id in s.removed ==> id < |s.conns|
  }

  ghost predicate Inv(s: Server) {
    ConnsFit(s) && QueuesFit(s) && MapExact(s) && ErasesSucceed(s)
  }

  ghost predicate InvExcept(s: Server, l: Loop, t: Task) {
    ConnsFit(s) && QueuesFitExcept(s, l, t) && MapExact(s) && ErasesSucceed(s)
  }

  lemma PushNoRepeat(q: seq<Task>, t: Task)
    requires NoRepeats(q) && t !in q
    ensures NoRepeats(q + [t])
  {}

  lemma DropNoRepeat(q: seq<Task>)
    requires q != [] && NoRepeats(q)
    ensures NoRepeats(q[1..]) && forall t :: t in q[1..] <==> t in q && t != q[0]
  {
    forall t ensures t in q[1..] <==> t in q && t != q[0] {
      assert q == [q[0]] + q[1..];
    }
  }

  lemma SameWaits(s: Server, s': Server, l: Loop, t: Task)
    requires s'.conns == s.conns && s'.removed == s.removed && s'.base == s.base
    ensures Waits(s', l, t) <==> Waits(s, l, t)
  {}

  lemma EnqueueQueues(s: Server, l: Loop, t: Task)
    requires QueuesFitExcept(s, l, t)
    ensures QueuesFit(QueueInLoop(s, l, t))
  {
    var s' := QueueInLoop(s, l, t);
    assert t !in QueueAt(s, l);
    PushNoRepeat(QueueAt(s, l), t);
    assert QueueAt(s', l) == QueueAt(s, l) + [t];
    assert forall l': Loop :: l' != l ==> QueueAt(s', l') == QueueAt(s, l');
    forall l': Loop, t': Task ensures t' in QueueAt(s', l') <==> Waits(s', l', t') {
      SameWaits(s, s', l', t');
      assert t' in QueueAt(s', l') <==> t' in QueueAt(s, l') || (l' == l && t' == t);
    }
  }

  lemma EnqueueKeeps(s: Server, l: Loop, t: Task)
    requires InvExcept(s, l, t)
    ensures Inv(QueueInLoop(s, l, t))
  {
    EnqueueQueues(s, l, t);
    assert forall id :: 0 <= id < |s.conns| ==> PhaseOf(QueueInLoop(s, l, t), id) == PhaseOf(s, id);
  }

  lemma TakeQueues(s: Server, l: Loop)
    requires QueuesFit(s) && QueueAt(s, l) != []
    ensures QueuesFitExcept(Dequeue(s, l), l, QueueAt(s, l)[0])
  {
    var q, s' := QueueAt(s, l), Dequeue(s, l);
    assert q[0] in q;
    DropNoRepeat(q);
    assert QueueAt(s', l) == q[1..];
    assert forall l': Loop :: l' != l ==> QueueAt(s', l') == QueueAt(s, l');
    SameWaits(s, s', l, q[0]);
    forall l': Loop, t': Task ensures t' in QueueAt(s', l') <==> Waits(s', l', t') && !(l' == l && t' == q[0]) {
      SameWaits(s, s', l', t');
      assert t' in QueueAt(s, l') <==> Waits(s, l', t');
    }
  }

  lemma TakeKeeps(s: Server, l: Loop)
    requires Inv(s) && QueueAt(s, l) != []
    ensures InvExcept(Dequeue(s, l), l, QueueAt(s, l)[0])
  {
    TakeQueues(s, l);
    assert forall id :: 0 <= id < |s.conns| ==> PhaseOf(Dequeue(s, l), id) == PhaseOf(s, id);
  }

  /** A change to one connection leaves the others' names, phases and tasks alone. */
  lemma OnlyOne(s: Server, id: nat, c: ConnRec, l: Loop, t: Task)
    requires id < |s.conns| && c.loop == s.conns[id].loop && t.conn != id
    ensures Waits(SetConn(s, id, c), l, t) <==> Waits(s, l, t)
  {}

  /** A new state and history for one connection keeps the map and the records right if they fit its phase. */
  lemma SetConnFits(s: Server, id: nat, c: ConnRec)
    requires ConnsFit(s) && MapExact(s) && ErasesSucceed(s)
    requires id < |s.conns| && c.name == s.conns[id].name && StateFits(c)
    requires PhaseOf(SetConn(s, id, c), id) in {Leaving, Gone} <==> id in s.removed
    ensures var s' := SetConn(s, id, c); ConnsFit(s') && MapExact(s') && ErasesSucceed(s')
  {
    var s' := SetConn(s, id, c);
    assert forall other :: 0 <= other < |s.conns| ==>
      s'.conns[other].name == s.conns[other].name && (other != id ==> s'.conns[other] == s.conns[other]);
    assert forall other :: 0 <= other < |s.conns| && other != id ==> PhaseOf(s', other) == PhaseOf(s, other);
  }

  /** With the task in hand done and connection id moved on to a phase that waits for nothing, the queues are right. */
  lemma SettledQueues(s: Server, l: Loop, t: Task, c: ConnRec)
    requires QueuesFitExcept(s, l, t) && c.loop == s.conns[t.conn].loop
    requires PhaseOf(SetConn(s, t.conn, c), t.conn) in {Live, Gone}
    ensures QueuesFit(SetConn(s, t.conn, c))
  {
    var s' := SetConn(s, t.conn, c);
    assert forall l': Loop :: QueueAt(s', l') == QueueAt(s, l');
    forall l': Loop, t': Task ensures t' in QueueAt(s', l') <==> Waits(s', l', t') {
      assert t' in QueueAt(s, l') <==> Waits(s, l', t') && !(l' == l && t' == t);
      if t'.conn != t.conn {
        OnlyOne(s, t.conn, c, l', t');
      }
    }
  }

  lemma EstablishKeeps(s: Server, l: Loop, id: nat)
    requires InvExcept(s, l, Establish(id))
    ensures Inv(ConnectionEstablished(s, id))
  {
    var c := ConnectionEstablished(s, id).conns[id];
    assert PhaseOf(s, id) == Created;
    assert c.history == [Established, UpCallback] == LIFE[..2];
    SetConnFits(s, id, c);
    SettledQueues(s, l, Establish(id), c);
  }

  lemma DestroyKeeps(s: Server, l: Loop, id: nat)
    requires InvExcept(s, l, Destroy(id))
    ensures Inv(ConnectionDestroyed(s, id))
  {
    var c := ConnectionDestroyed(s, id).conns[id];
    assert LIFE == LIFE[..3] + [Destroyed];
    assert PhaseOf(s, id) == Leaving;
    assert s.conns[id].history == LIFE[..3];
    SetConnFits(s, id, c);
    SettledQueues(s, l, Destroy(id), c);
  }

  lemma OthersNames(s: Server, id: nat)
    requires ConnsFit(s)
    ensures forall other :: 0 <= other < |s.conns| && other + 1 != id ==> s.conns[other].name != ConnName(s.name, id)
  {
    forall other | 0 <= other < |s.conns| && other + 1 != id ensures s.conns[other].name != ConnName(s.name, id) {
      if s.conns[other].name == ConnName(s.name, id) {
        NamesDiffer(s.name, other + 1, id);
      }
    }
  }

  lemma UnregisterConns(s: Server, l: Loop, id: nat)
    requires InvExcept(s, l, Remove(id))
    ensures ConnsFit(Unregister(s, id)) && ErasesSucceed(Unregister(s, id))
  {
    assert PhaseOf(s, id) == Closing && id !in s.removed;
    assert forall other :: 0 <= other < |s.conns| && other != id ==>
        PhaseOf(Unregister(s, id), other) == PhaseOf(s, other);
  }

  lemma UnregisterNames(s: Server, l: Loop, id: nat)
    requires InvExcept(s, l, Remove(id))
    ensures MapExact(Unregister(s, id))
  {
    OthersNames(s, id + 1);
    var name := s.conns[id].name;
    assert name == ConnName(s.name, id + 1);
    assert forall other :: 0 <= other < |s.conns| && other != id ==> s.conns[other].name != name;
  }

  lemma UnregisterQueues(s: Server, l: Loop, id: nat)
    requires InvExcept(s, l, Remove(id))
    ensures QueuesFitExcept(Unregister(s, id), s.conns[id].loop, Destroy(id))
  {
    var c, s1 := s.conns[id], Unregister(s, id);
    assert PhaseOf(s, id) == Closing;
    assert forall l': Loop :: QueueAt(s1, l') == QueueAt(s, l');
    forall l': Loop, t': Task ensures t' in QueueAt(s1, l')
        <==> Waits(s1, l', t') && !(l' == c.loop && t' == Destroy(id)) {
      assert t'.conn != id ==> (Waits(s1, l', t') <==> Waits(s, l', t'));
      assert QueueAt(s1, l') == QueueAt(s, l');
    }
  }

  lemma RemoveKeeps(s: Server, l: Loop, id: nat)
    requires InvExcept(s, l, Remove(id))
    ensures Inv(RemoveConnectionInLoop(s, id))
  {
    UnregisterConns(s, l, id);
    UnregisterNames(s, l, id);
    UnregisterQueues(s, l, id);
    EnqueueKeeps(Unregister(s, id), s.conns[id].loop, Destroy(id));
  }

  lemma ExecuteKeeps(s: Server, l: Loop, t: Task)
    requires InvExcept(s, l, t)
    ensures Inv(Execute(s, t))
  {
    match t
    case Establish(id) => EstablishKeeps(s, l, id);
    case Remove(id) => RemoveKeeps(s, l, id);
    case Destroy(id) => DestroyKeeps(s, l, id);
  }

  lemma RunInLoopKeeps(s: Server, current: Loop, target: Loop, t: Task)
    requires InvExcept(s, target, t)
    ensures Inv(RunInLoop(s, current, target, t))
  {
    if current == target {
      ExecuteKeeps(s, target, t);
    } else {
      EnqueueKeeps(s, target, t);
    }
  }

  lemma RegisterConns(s: Server, ioLoop: Loop)
    requires Inv(s)
    ensures ConnsFit(Register(s, ioLoop)) && ErasesSucceed(Register(s, ioLoop))
  {
    var id := |s.conns|;
    assert id !in s.removed;
    assert forall other :: 0 <= other < id ==> PhaseOf(Register(s, ioLoop), other) == PhaseOf(s, other);
  }

  lemma RegisterNames(s: Server, ioLoop: Loop)
    requires Inv(s)
    ensures MapExact(Register(s, ioLoop))
  {
    OthersNames(s, s.nextConnId);
    assert |s.conns| !in s.removed;
  }

  lemma RegisterQueues(s: Server, ioLoop: Loop)
    requires Inv(s)
    ensures QueuesFitExcept(Register(s, ioLoop), ioLoop, Establish(|s.conns|))
  {
    var id, s1 := |s.conns|, Register(s, ioLoop);
    assert forall l': Loop :: QueueAt(s1, l') == QueueAt(s, l');
    forall l': Loop, t': Task ensures t' in QueueAt(s1, l')
        <==> Waits(s1, l', t') && !(l' == ioLoop && t' == Establish(id)) {
      assert QueueAt(s1, l') == QueueAt(s, l');
      assert t'.conn < id ==> (Waits(s1, l', t') <==> Waits(s, l', t'));
    }
  }

  lemma AcceptKeeps(s: Server, ioLoop: Loop)
    requires Inv(s)
    ensures Inv(NewConnection(s, ioLoop))
  {
    RegisterConns(s, ioLoop);
    RegisterNames(s, ioLoop);
    RegisterQueues(s, ioLoop);
    assert InvExcept(Register(s, ioLoop), ioLoop, Establish(|s.conns|));
    RunInLoopKeeps(Register(s, ioLoop), s.base, ioLoop, Establish(|s.conns|));
  }

  lemma CloseFits(s: Server, id: nat)
    requires Inv(s) && Legal(s, Close(id))
    ensures InvExcept(CloseConn(s, id), s.base, Remove(id))
  {
    var c, s1 := s.conns[id], CloseConn(s, id);
    assert PhaseOf(s, id) == Live && c.history == LIFE[..2];
    assert LIFE[..3] == LIFE[..2] + [DownCallback];
    SetConnFits(s, id, s1.conns[id]);
    assert forall l': Loop :: QueueAt(s1, l') == QueueAt(s, l');
    forall l': Loop, t': Task ensures t' in QueueAt(s1, l')
        <==> Waits(s1, l', t') && !(l' == s.base && t' == Remove(id)) {
      assert QueueAt(s1, l') == QueueAt(s, l');
      if t'.conn != id {
        OnlyOne(s, id, s1.conns[id], l', t');
      }
    }
  }

  lemma CloseKeeps(s: Server, id: nat)
    requires Inv(s) && Legal(s, Close(id))
    ensures Inv(HandleClose(s, id))
  {
    CloseFits(s, id);
    RunInLoopKeeps(CloseConn(s, id), s.conns[id].loop, s.base, Remove(id));
  }

  lemma ShutdownKeeps(s: Server, id: nat)
    requires Inv(s) && Legal(s, AskShutdown(id))
    ensures Inv(Apply(s, AskShutdown(id)))
  {
    var s' := Apply(s, AskShutdown(id));
    SetConnFits(s, id, s'.conns[id]);
    forall l': Loop, t': Task ensures t' in QueueAt(s', l') <==> Waits(s', l', t') {
      assert QueueAt(s', l') == QueueAt(s, l');
      assert Waits(s', l', t') <==> Waits(s, l', t');
    }
    assert forall l': Loop :: QueueAt(s', l') == QueueAt(s, l');
  }

  lemma StepKeeps(s: Server, step: Step)
    requires Inv(s) && Legal(s, step)
    ensures Inv(Apply(s, step))
  {
    match step
    case Accept(ioLoop) => AcceptKeeps(s, ioLoop);
    case Close(id) => CloseKeeps(s, id);
    case AskShutdown(id) => ShutdownKeeps(s, id);
    case RunTask(l) =>
      TakeKeeps(s, l);
      ExecuteKeeps(Dequeue(s, l), l, QueueAt(s, l)[0]);
  }

  lemma {:induction false} RunKeepsInv(s: Server, steps: seq<Step>)
    requires Inv(s) && IsRun(s, steps)
    ensures Inv(After(s, steps))
    decreases |steps|
  {
    if steps != [] {
      StepKeeps(s, steps[0]);
      RunKeepsInv(Apply(s, steps[0]), steps[1..]);
    }
  }

  lemma StartFits(name: string, base: Loop)
    ensures Inv(Start(name, base))
  {}

  /** In every run over any number of loops: names are unique, the map is exactly what was accepted and not
      removed, every erase finds its entry, and each connection's life is a prefix of established, up, down,
      destroyed. */
  lemma Lifecycles(name: string, base: Loop, steps: seq<Step>)
    requires IsRun(Start(name, base), steps)
    ensures var s := After(Start(name, base), steps);
            && (forall i, j :: 0 <= i < j < |s.conns| ==> s.conns[i].name != s.conns[j].name)
            && MapExact(s)
            && (forall k :: 0 <= k < |s.erased| ==> s.erased[k] == 1)
            && (forall id :: 0 <= id < |s.conns| ==> s.conns[id].history <= LIFE)
  {
    StartFits(name, base);
    RunKeepsInv(Start(name, base), steps);
    var s := After(Start(name, base), steps);
    forall i, j | 0 <= i < j < |s.conns| ensures s.conns[i].name != s.conns[j].name {
      if s.conns[i].name == s.conns[j].name {
        NamesDiffer(s.name, i + 1, j + 1);
      }
    }
  }

  /** The state checks of the source hold whenever a queued handler runs, and no step is forgotten: with every
      queue empty, each accepted connection is up or has been taken all the way to its destruction. */
  lemma NothingForgotten(name: string, base: Loop, steps: seq<Step>, l: Loop)
    requires IsRun(Start(name, base), steps)
    ensures var s := After(Start(name, base), steps);
            && (QueueAt(s, l) != [] ==>
                  && Legal(s, RunTask(l))
                  && (QueueAt(s, l)[0].Establish? ==> s.conns[QueueAt(s, l)[0].conn].state == Connecting)
                  && (QueueAt(s, l)[0].Destroy? ==> s.conns[QueueAt(s, l)[0].conn].state == Disconnected)
                  && l == (if QueueAt(s, l)[0].Remove? then s.base else s.conns[QueueAt(s, l)[0].conn].loop))
            && ((forall l': Loop :: QueueAt(s, l') == []) ==>
                  forall id :: 0 <= id < |s.conns| ==>
                    s.conns[id].history == LIFE[..2] || (s.conns[id].history == LIFE && id in s.removed))
  {
    StartFits(name, base);
    RunKeepsInv(Start(name, base), steps);
    var s := After(Start(name, base), steps);
    if QueueAt(s, l) != [] {
      assert QueueAt(s, l)[0] in QueueAt(s, l);
    }
    if forall l': Loop :: QueueAt(s, l') == [] {
      forall id | 0 <= id < |s.conns|
        ensures s.conns[id].history == LIFE[..2] || (s.conns[id].history == LIFE && id in s.removed)
      {
        assert !Waits(s, s.conns[id].loop, Establish(id)) by { assert QueueAt(s, s.conns[id].loop) == []; }
        assert !Waits(s, s.base, Remove(id)) by { assert QueueAt(s, s.base) == []; }
        assert !Waits(s, s.conns[id].loop, Destroy(id)) by { assert QueueAt(s, s.conns[id].loop) == []; }
      }
    }
  }
}

/** The server as the source writes it: handlers that change the map, the queues and the connections in place. */
module Servers {
  import opened ServerSpec

  class TcpServer {
    const name: string
    const base: Loop
    var nextConnId: nat
    var conns: seq<ConnRec>
    var connections: map<string, nat>
    var queues: map<Loop, seq<Task>>
    ghost var removed: set<nat>
    ghost var erased: seq<int>

    ghost function View(): Server
      reads this
    {
      Server(name, base, nextConnId, conns, connections, queues, removed, erased)
    }

    constructor (name: string, base: Loop)
      ensures View() == Start(name, base) && Inv(View())
    {
      this.name, this.base := name, base;
      nextConnId, conns, connections, queues, removed, erased := 1, [], map[], map[], {}, [];
      new;
      StartFits(name, base);
    }

    method Enqueue(l: Loop, t: Task)
      requires InvExcept(View(), l, t)
      modifies this`queues
      ensures View() == QueueInLoop(old(View()), l, t) && Inv(View())
    {
      EnqueueKeeps(View(), l, t);
      queues := queues[l := (if l in queues then queues[l] else []) + [t]];
    }

    method Establish(l: Loop, id: nat)
      requires InvExcept(View(), l, Task.Establish(id))
      modifies this`conns
      ensures View() == ConnectionEstablished(old(View()), id) && Inv(View())
      ensures conns[id].state == Connected && conns[id].history == [Established, UpCallback]
    {
      EstablishKeeps(View(), l, id);
      assert l == conns[id].loop && conns[id].state == Connecting;
      conns := conns[id := conns[id].(state := Connected)];
      conns := conns[id := conns[id].(history := conns[id].history + [Established, UpCallback])];
    }

    method RemoveInLoop(l: Loop, id: nat)
      requires InvExcept(View(), l, Remove(id))
      modifies this
      ensures View() == RemoveConnectionInLoop(old(View()), id) && Inv(View())
      ensures connections == old(connections) - {conns[id].name} && conns == old(conns)
      ensures erased == old(erased) + [1]
      ensures QueueAt(View(), conns[id].loop) == old(QueueAt(View(), conns[id].loop)) + [Destroy(id)]
    {
      UnregisterConns(View(), l, id);
      UnregisterNames(View(), l, id);
      UnregisterQueues(View(), l, id);
      assert l == base;
      var key := conns[id].name;
      var n := if key in connections then 1 else 0;
      connections := connections - {key};
      removed, erased := removed + {id}, erased + [n];
      assert View() == Unregister(old(View()), id);
      assert n == 1 by { assert erased[|erased| - 1] == 1; }
      Enqueue(conns[id].loop, Destroy(id));
    }

    method Destroyed(l: Loop, id: nat)
      requires id < |conns|
      modifies this`conns
      ensures View() == ConnectionDestroyed(old(View()), id)
      ensures conns[id].history == old(conns[id].history) +
              if old(conns[id].state) == Connected then [DownCallback, Happening.Destroyed] else [Happening.Destroyed]
      ensures conns[id].state == if old(conns[id].state) == Connected then Disconnected else old(conns[id].state)
      ensures old(InvExcept(View(), l, Destroy(id))) ==> l == old(conns[id].loop) && Inv(View())
    {
      if InvExcept(View(), l, Destroy(id)) {
        DestroyKeeps(View(), l, id);
      }
      if conns[id].state == Connected {
        conns := conns[id := conns[id].(state := Disconnected, history := conns[id].history + [DownCallback])];
      }
      conns := conns[id := conns[id].(history := conns[id].history + [Happening.Destroyed])];
    }

    method Run(l: Loop, t: Task)
      requires InvExcept(View(), l, t)
      modifies this
      ensures View() == Execute(old(View()), t) && Inv(View())
    {
      match t
      case Establish(id) => Establish(l, id);
      case Remove(id) => RemoveInLoop(l, id);
      case Destroy(id) => Destroyed(l, id);
    }

    method RunOrQueue(current: Loop, target: Loop, t: Task)
      requires InvExcept(View(), target, t)
      modifies this
      ensures View() == RunInLoop(old(View()), current, target, t) && Inv(View())
    {
      if current == target {
        Run(target, t);
      } else {
        Enqueue(target, t);
      }
    }

    method Accepted(ioLoop: Loop)
      requires Inv(View())
      modifies this
      ensures View() == NewConnection(old(View()), ioLoop) && Inv(View())
      ensures |conns| == |old(conns)| + 1 && conns[..|old(conns)|] == old(conns) && nextConnId == old(nextConnId) + 1
      ensures var c := conns[|old(conns)|];
              && c.loop == ioLoop && c.name == name + "#" + Digits(old(nextConnId))
              && connections == old(connections)[c.name := |old(conns)|]
              && if ioLoop == base then c.state == Connected else c.state == Connecting
      ensures ioLoop != base ==>
                QueueAt(View(), ioLoop) == old(QueueAt(View(), ioLoop)) + [Task.Establish(|old(conns)|)]
    {
      RegisterConns(View(), ioLoop);
      RegisterNames(View(), ioLoop);
      RegisterQueues(View(), ioLoop);
      var connName := ConnName(name, nextConnId);
      nextConnId := nextConnId + 1;
      var id := |conns|;
      conns := conns + [ConnRec(connName, ioLoop, Connecting, [])];
      connections := connections[connName := id];
      RunOrQueue(base, ioLoop, Task.Establish(id));
    }

    method Closed(id: nat)
      requires Inv(View()) && Legal(View(), Close(id))
      modifies this
      ensures View() == HandleClose(old(View()), id) && Inv(View())
      ensures conns[id].state == Disconnected && conns[id].history == old(conns[id].history) + [DownCallback]
      ensures if old(conns[id].loop) == base then conns[id].name !in connections
              else QueueAt(View(), base) == old(QueueAt(View(), base)) + [Remove(id)]
    {
      CloseFits(View(), id);
      conns := conns[id := conns[id].(state := Disconnected)];
      conns := conns[id := conns[id].(history := conns[id].history + [DownCallback])];
      assert conns == CloseConn(old(View()), id).conns;
      assert View() == CloseConn(old(View()), id);
      RunOrQueue(conns[id].loop, base, Remove(id));
    }

    /** One turn of loop l's queue. */
    method Turn(l: Loop)
      requires Inv(View())
      modifies this
      ensures Inv(View())
      ensures QueueAt(old(View()), l) == [] ==> View() == old(View())
      ensures QueueAt(old(View()), l) != [] ==>
              Legal(old(View()), RunTask(l)) && View() == Apply(old(View()), RunTask(l))
    {
      if l in queues && queues[l] != [] {
        TakeKeeps(View(), l);
        var t := queues[l][0];
        queues := queues[l := queues[l][1..]];
        Run(l, t);
      }
    }
  }
}
