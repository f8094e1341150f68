/** Back-pressure between the two connections of a relay: examples/socks4a/tunnel.h over the connection's callbacks. */
module TunnelSpec {
  import opened ConnectionSpec

  datatype Side = Server | Client

  /** A callback of one side's connection waiting in the loop's queue. */
  datatype Job = OnHighWater(side: Side) | OnWriteComplete(side: Side)

  datatype Tunnel = Tunnel(server: Conn, client: Conn, queue: seq<Job>)

  function Of(t: Tunnel, side: Side): Conn {
    if side == Server then t.server else t.client
  }

  function Other(side: Side): Side {
    if side == Server then Client else Server
  }

  function With(t: Tunnel, side: Side, c: Conn): Tunnel {
    if side == Server then t.(server := c) else t.(client := c)
  }

  function Jobs(side: Side, tasks: seq<Task>): (jobs: seq<Job>)
    ensures |jobs| == |tasks|
  {
    seq(|tasks|, i requires 0 <= i < |tasks| =>
      if tasks[i].WriteComplete? then OnWriteComplete(side) else OnHighWater(side))
  }

  /** One side's connection acts and its callbacks are queued. */
  function Act(t: Tunnel, side: Side, o: Outcome): Tunnel {
    With(t, side, o.conn).(queue := t.queue + Jobs(side, o.tasks))
  }

  /** Above the mark: stop reading from the other side and ask to be told when the output has drained. */
  function RunHighWater(t: Tunnel, side: Side): Tunnel {
    if Of(t, side).output != "" then
      With(With(t, Other(side), StopRead(Of(t, Other(side)))), side, Of(t, side).(writeCompleteCallback := true))
    else t
  }

  function RunWriteComplete(t: Tunnel, side: Side): Tunnel {
    With(With(t, Other(side), StartRead(Of(t, Other(side)))), side, Of(t, side).(writeCompleteCallback := false))
  }

  function RunJob(t: Tunnel, job: Job): Tunnel {
    match job
    case OnHighWater(side) => RunHighWater(t, side)
    case OnWriteComplete(side) => RunWriteComplete(t, side)
  }

  /** Relay sends what arrived on one side to the other; Run takes any queued job, not only the oldest. */
  datatype Event = Relay(to: Side, data: string, r: WriteResult) | Drains(side: Side, r: WriteResult) | Run(i: nat)

  predicate Legal(t: Tunnel, e: Event) {
    match e
    case Relay(to, data, r) => Possible(r, |data|)
    case Drains(side, r) => Possible(r, |Of(t, side).output|)
    case Run(i) => i < |t.queue|
  }

  function Apply(t: Tunnel, e: Event): Tunnel
    requires Legal(t, e)
  {
    match e
    case Relay(to, data, r) => Act(t, to, Send(Of(t, to), data, r))
    case Drains(side, r) => Act(t, side, HandleWrite(Of(t, side), r))
    case Run(i) => RunJob(t.(queue := t.queue[..i] + t.queue[i + 1..]), t.queue[i])
  }

  /** Both ends are up, reading, and have not yet asked to be told of completed writes. */
  predicate JustLinked(t: Tunnel) {
    && t.queue == []
    && forall side :: var c := Of(t, side);
         c.state == Connected && Flows(c) && c.reading && c.readInterest && !c.writeCompleteCallback
  }

  predicate IsRun(t: Tunnel, events: seq<Event>)
    decreases |events|
  {
    events == [] || (Legal(t, events[0]) && IsRun(Apply(t, events[0]), events[1..]))
  }

  function After(t: Tunnel, events: seq<Event>): Tunnel
    requires IsRun(t, events)
    decreases |events|
  {
    if events == [] then t else After(Apply(t, events[0]), events[1..])
  }

  predicate Paused(c: Conn) {
    !c.readInterest
  }

  /** Something will resume the side that feeds c: its buffered output, watched and with the callback in place, or a
      queued callback. */
  predicate ResumePending(t: Tunnel, side: Side) {
    || (Of(t, side).output != "" && Of(t, side).writeInterest && Of(t, side).writeCompleteCallback)
    || OnWriteComplete(side) in t.queue
  }

  predicate Up(c: Conn) {
    c.state == Connected && Flows(c) && c.reading == c.readInterest
  }

  predicate Resumable(t: Tunnel, side: Side) {
    Paused(Of(t, Other(side))) ==> ResumePending(t, side)
  }

  predicate Inv(t: Tunnel) {
    Up(t.server) && Up(t.client) && Resumable(t, Server) && Resumable(t, Client)
  }

  lemma JobsHold(side: Side, tasks: seq<Task>, task: Task)
    requires task in tasks
    ensures (if task.WriteComplete? then OnWriteComplete(side) else OnHighWater(side)) in Jobs(side, tasks)
  {
    var i :| 0 <= i < |tasks| && tasks[i] == task;
    assert Jobs(side, tasks)[i] == if task.WriteComplete? then OnWriteComplete(side) else OnHighWater(side);
  }

  predicate SameReading(c: Conn, c': Conn) {
    c'.state == c.state && c'.reading == c.reading && c'.readInterest == c.readInterest
        && c'.writeCompleteCallback == c.writeCompleteCallback
  }

  lemma KeepLeavesReading(c: Conn, bytes: string, rest: string)
    ensures SameReading(c, Keep(Hand(c, bytes), rest).conn) && SameReading(c, Hand(c, bytes))
  {}

  lemma SendLeavesReading(c: Conn, data: string, r: WriteResult)
    requires Possible(r, |data|)
    ensures SameReading(c, Send(c, data, r).conn)
  {
    if c.state == Connected {
      var n := if r.Took? then r.n else 0;
      KeepLeavesReading(c.(accepted := c.accepted + data), data[..n], data[n..]);
      KeepLeavesReading(c.(accepted := c.accepted + data), "", data);
    }
  }

  lemma WritableLeavesReading(c: Conn, r: WriteResult)
    requires Possible(r, |c.output|)
    ensures SameReading(c, HandleWrite(c, r).conn)
  {
    if r.Took? {
      KeepLeavesReading(c, c.output[..r.n], "");
      assert SameReading(c, Taken(c, r.n));
      assert SameReading(c, AfterDrain(Taken(c, r.n)));
    }
  }

  lemma SendKeepsUp(c: Conn, data: string, r: WriteResult)
    requires Up(c) && Possible(r, |data|)
    ensures var c' := Send(c, data, r).conn; Up(c') && SameReading(c, c') && (c.output != "" ==> c'.output != "")
  {
    SendConserves(c, data, r);
    SendKeepsInterest(c, data, r);
    SendLeavesReading(c, data, r);
  }

  lemma DrainReports(c: Conn, r: WriteResult)
    requires Possible(r, |c.output|) && c.output != "" && c.writeCompleteCallback
    ensures HandleWrite(c, r).conn.output != "" || WriteComplete in HandleWrite(c, r).tasks
  {}

  lemma WritableKeepsUp(c: Conn, r: WriteResult)
    requires Up(c) && Possible(r, |c.output|)
    ensures var o := HandleWrite(c, r);
            && Up(o.conn) && SameReading(c, o.conn)
            && (c.output != "" && c.writeCompleteCallback ==> o.conn.output != "" || WriteComplete in o.tasks)
  {
    WritableConserves(c, r);
    WritableLeavesReading(c, r);
    if c.output != "" && c.writeCompleteCallback {
      DrainReports(c, r);
    }
  }

  /** A side that acts keeps its readers' resumption pending if it keeps output or queues its callback. */
  lemma ActKeeps(t: Tunnel, side: Side, o: Outcome)
    requires Inv(t) && Up(o.conn)
    requires var c := Of(t, side);
             && SameReading(c, o.conn)
             && (c.output != "" && c.writeCompleteCallback ==> o.conn.output != "" || WriteComplete in o.tasks)
    ensures Inv(Act(t, side, o))
  {
    var t' := Act(t, side, o);
    assert forall job :: job in t.queue ==> job in t'.queue;
    if WriteComplete in o.tasks {
      JobsHold(side, o.tasks, WriteComplete);
      assert OnWriteComplete(side) in t'.queue;
    }
    assert Resumable(t, side) && Resumable(t, Other(side));
    assert Resumable(t', side) && Resumable(t', Other(side));
  }

  lemma RelayKeeps(t: Tunnel, to: Side, data: string, r: WriteResult)
    requires Inv(t) && Possible(r, |data|)
    ensures Inv(Act(t, to, Send(Of(t, to), data, r)))
  {
    SendKeepsUp(Of(t, to), data, r);
    ActKeeps(t, to, Send(Of(t, to), data, r));
  }

  lemma DrainsKeeps(t: Tunnel, side: Side, r: WriteResult)
    requires Inv(t) && Possible(r, |Of(t, side).output|)
    ensures Inv(Act(t, side, HandleWrite(Of(t, side), r)))
  {
    WritableKeepsUp(Of(t, side), r);
    ActKeeps(t, side, HandleWrite(Of(t, side), r));
  }

  lemma ReadingKeepsUp(c: Conn, on: bool)
    requires Up(c)
    ensures Up(StopRead(c)) && Up(StartRead(c)) && Up(c.(writeCompleteCallback := on))
  {}

  /** Running a job keeps the invariant even though the job has already left the queue. */
  lemma HighWaterKeeps(t: Tunnel, side: Side)
    requires Inv(t)
    ensures Inv(RunHighWater(t, side)) && RunHighWater(t, side).queue == t.queue
    ensures RunHighWater(t, side).server.output == t.server.output
            && RunHighWater(t, side).client.output == t.client.output
  {
    ReadingKeepsUp(t.server, true);
    ReadingKeepsUp(t.client, true);
  }

  lemma WriteCompleteKeeps(t: Tunnel, side: Side)
    requires Up(t.server) && Up(t.client) && Resumable(t, Other(side))
    ensures Inv(RunWriteComplete(t, side)) && RunWriteComplete(t, side).queue == t.queue
    ensures RunWriteComplete(t, side).server.output == t.server.output
    ensures RunWriteComplete(t, side).client.output == t.client.output
  {
    ReadingKeepsUp(t.server, false);
    ReadingKeepsUp(t.client, false);
  }

  lemma OthersStay(q: seq<Job>, i: nat, job: Job)
    requires i < |q| && job in q && job != q[i]
    ensures job in q[..i] + q[i + 1..]
  {
    var k :| 0 <= k < |q| && q[k] == job;
    assert (q[..i] + q[i + 1..])[if k < i then k else k - 1] == job;
  }

  lemma TakingKeeps(t: Tunnel, i: nat, side: Side)
    requires Resumable(t, side) && i < |t.queue| && t.queue[i] != OnWriteComplete(side)
    ensures Resumable(t.(queue := t.queue[..i] + t.queue[i + 1..]), side)
  {
    if OnWriteComplete(side) in t.queue {
      OthersStay(t.queue, i, OnWriteComplete(side));
    }
  }

  lemma RunKeeps(t: Tunnel, i: nat)
    requires Inv(t) && i < |t.queue|
    ensures Inv(Apply(t, Run(i)))
    ensures Apply(t, Run(i)).server.output == t.server.output && Apply(t, Run(i)).client.output == t.client.output
    ensures Apply(t, Run(i)).queue == t.queue[..i] + t.queue[i + 1..]
  {
    var t0 := t.(queue := t.queue[..i] + t.queue[i + 1..]);
    match t.queue[i] {
      case OnHighWater(side) =>
        TakingKeeps(t, i, Server);
        TakingKeeps(t, i, Client);
        HighWaterKeeps(t0, side);
      case OnWriteComplete(side) =>
        TakingKeeps(t, i, Other(side));
        WriteCompleteKeeps(t0, side);
    }
  }

  lemma EventKeeps(t: Tunnel, e: Event)
    requires Inv(t) && Legal(t, e)
    ensures Inv(Apply(t, e))
  {
    match e
    case Relay(to, data, r) => RelayKeeps(t, to, data, r);
    case Drains(side, r) => DrainsKeeps(t, side, r);
    case Run(i) => RunKeeps(t, i);
  }

  lemma {:induction false} RunKeepsInv(t: Tunnel, events: seq<Event>)
    requires Inv(t) && IsRun(t, events)
    ensures Inv(After(t, events))
    decreases |events|
  {
    if events != [] {
      EventKeeps(t, events[0]);
      RunKeepsInv(Apply(t, events[0]), events[1..]);
    }
  }

  /** Flow control never sticks: while both ends stay up, a paused side is always about to be resumed,
      and a relay with nothing buffered and nothing queued is reading on both sides. */
  lemma NeverStuck(t: Tunnel, events: seq<Event>, side: Side)
    requires JustLinked(t) && IsRun(t, events)
    ensures var t' := After(t, events);
            && (Paused(Of(t', Other(side))) ==> ResumePending(t', side))
            && (Of(t', side).output == "" && t'.queue == [] ==> !Paused(Of(t', Other(side))))
  {
    assert Of(t, Server) == t.server && Of(t, Client) == t.client;
    RunKeepsInv(t, events);
  }

  // What the relay delivers.

  function Relayed(side: Side, e: Event): string {
    if e.Relay? && e.to == side then e.data else ""
  }

  /** The bytes that the events relay to one side. */
  function RelayedTo(side: Side, events: seq<Event>): string {
    if events == [] then "" else Relayed(side, events[0]) + RelayedTo(side, events[1..])
  }

  function Stream(c: Conn): string {
    Written(c.effects) + c.output
  }

  lemma JobLeavesStream(t: Tunnel, i: nat, side: Side)
    requires i < |t.queue|
    ensures Stream(Of(Apply(t, Run(i)), side)) == Stream(Of(t, side))
  {
    match t.queue[i]
    case OnHighWater(_) =>
    case OnWriteComplete(_) =>
  }

  lemma EventStreams(t: Tunnel, e: Event, side: Side)
    requires Inv(t) && Legal(t, e)
    ensures Stream(Of(Apply(t, e), side)) == Stream(Of(t, side)) + Relayed(side, e)
  {
    assert Stream(Of(t, side)) + "" == Stream(Of(t, side));
    match e
    case Relay(to, data, r) => SendDelivers(Of(t, to), data, r);
    case Drains(s, r) => WritableDelivers(Of(t, s), r);
    case Run(i) => JobLeavesStream(t, i, side);
  }

  lemma Associative(a: string, b: string, c: string)
    ensures a + b + c == a + (b + c)
  {}

  lemma {:induction false} RunStreams(t: Tunnel, events: seq<Event>, side: Side)
    requires Inv(t) && IsRun(t, events)
    ensures Stream(Of(After(t, events), side)) == Stream(Of(t, side)) + RelayedTo(side, events)
    decreases |events|
  {
    if events == [] {
      assert Stream(Of(t, side)) + "" == Stream(Of(t, side));
    } else {
      EventStreams(t, events[0], side);
      EventKeeps(t, events[0]);
      RunStreams(Apply(t, events[0]), events[1..], side);
      Associative(Stream(Of(t, side)), Relayed(side, events[0]), RelayedTo(side, events[1..]));
    }
  }

  /** The relay loses, repeats and reorders nothing: whatever is paused and resumed in between, each side has been
      given, or has buffered for it, exactly the bytes that came in on the other. */
  lemma RelayDelivers(t: Tunnel, events: seq<Event>, side: Side)
    requires JustLinked(t) && IsRun(t, events)
    ensures var c, c' := Of(t, side), Of(After(t, events), side);
            Written(c'.effects) + c'.output == Written(c.effects) + c.output + RelayedTo(side, events)
  {
    assert Of(t, Server) == t.server && Of(t, Client) == t.client;
    RunStreams(t, events, side);
  }

  // Back-pressure: a side over its mark is fed no more, once the callbacks queued before have run.

  /** The last callback of this side in the queue is the high-water one. */
  predicate HighIsLast(q: seq<Job>, side: Side) {
    exists j :: 0 <= j < |q| && q[j] == OnHighWater(side) && OnWriteComplete(side) !in q[j..]
  }

  predicate Guarded(t: Tunnel, side: Side) {
    Of(t, side).highWaterCallback && Of(t, side).highWaterMark > 0
  }

  /** The feeder is paused with nothing queued that resumes it, or will be once the queue has run. */
  predicate Stopping(q: seq<Job>, side: Side, paused: bool) {
    HighIsLast(q, side) || (OnWriteComplete(side) !in q && paused)
  }

  predicate Held(t: Tunnel, side: Side) {
    && Guarded(t, side)
    && (|Of(t, side).output| >= Of(t, side).highWaterMark ==>
          Stopping(t.queue, side, Paused(Of(t, Other(side)))))
  }

  lemma HighStaysLast(q: seq<Job>, more: seq<Job>, side: Side)
    requires HighIsLast(q, side) && OnWriteComplete(side) !in more
    ensures HighIsLast(q + more, side)
  {
    var j :| 0 <= j < |q| && q[j] == OnHighWater(side) && OnWriteComplete(side) !in q[j..];
    assert (q + more)[j..] == q[j..] + more;
  }

  predicate SameMark(c: Conn, c': Conn) {
    c'.highWaterMark == c.highWaterMark && c'.highWaterCallback == c.highWaterCallback
  }

  /** What a side's own step must show: it tells of crossing the mark, and tells of completion only when empty. */
  predicate Tells(c: Conn, o: Outcome) {
    && SameMark(c, o.conn)
    && |o.tasks| <= 1
    && (WriteComplete in o.tasks ==> o.conn.output == "")
    && (|c.output| < c.highWaterMark <= |o.conn.output| && c.highWaterCallback ==>
          exists task :: task in o.tasks && task.HighWater?)
  }

  lemma SendIsTold(c: Conn, data: string, r: WriteResult)
    requires Up(c) && Possible(r, |data|)
    ensures Tells(c, Send(c, data, r))
  {
    SendTells(c, data, r);
    var o := Send(c, data, r);
    if c.highWaterCallback && |c.output| < c.highWaterMark <= |o.conn.output| {
      assert HighWater(|o.conn.output|) in o.tasks;
    }
  }

  lemma WritableIsTold(c: Conn, r: WriteResult)
    requires Up(c) && Possible(r, |c.output|)
    ensures Tells(c, HandleWrite(c, r))
  {
    WritableDelivers(c, r);
    WritableTells(c, r);
  }

  lemma OneJob(side: Side, tasks: seq<Task>)
    requires |tasks| <= 1
    ensures Jobs(side, tasks) == if tasks == [] then [] else if tasks[0].WriteComplete? then [OnWriteComplete(side)]
                                                             else [OnHighWater(side)]
  {}

  lemma OwnActHolds(t: Tunnel, side: Side, o: Outcome)
    requires Held(t, side) && Tells(Of(t, side), o)
    ensures Held(Act(t, side, o), side)
  {
    var t' := Act(t, side, o);
    var c, mark := Of(t, side), Of(t, side).highWaterMark;
    OneJob(side, o.tasks);
    if |o.conn.output| >= mark {
      assert WriteComplete !in o.tasks;
      assert OnWriteComplete(side) !in Jobs(side, o.tasks);
      if |c.output| < mark {
        assert o.tasks != [] && Jobs(side, o.tasks) == [OnHighWater(side)];
        assert t'.queue[|t.queue|..] == [OnHighWater(side)];
        assert HighIsLast(t'.queue, side);
      } else if HighIsLast(t.queue, side) {
        HighStaysLast(t.queue, Jobs(side, o.tasks), side);
      }
    }
  }

  lemma OtherActHolds(t: Tunnel, side: Side, o: Outcome)
    requires Held(t, Other(side)) && SameReading(Of(t, side), o.conn)
    ensures Held(Act(t, side, o), Other(side))
  {
    var other := Other(side);
    assert OnWriteComplete(other) !in Jobs(side, o.tasks);
    if HighIsLast(t.queue, other) {
      HighStaysLast(t.queue, Jobs(side, o.tasks), other);
    }
  }

  predicate Drained(t: Tunnel) {
    t.server.output == "" && t.client.output == ""
  }

  lemma RunOnce(t: Tunnel)
    requires t.queue != []
    ensures Apply(t, Run(0)).queue == t.queue[1..]
    ensures Drained(t) ==> Drained(Apply(t, Run(0)))
  {
    assert t.queue[..0] + t.queue[0 + 1..] == t.queue[1..];
  }

  /** What a callback does to the side that it is about and to that side's feeder. */
  lemma JobEffect(t: Tunnel, job: Job, side: Side)
    ensures var t' := RunJob(t, job);
            && t'.queue == t.queue
            && Of(t', side).output == Of(t, side).output && SameMark(Of(t, side), Of(t', side))
            && (job == OnHighWater(side) && Of(t, side).output != "" ==>
                  Paused(Of(t', Other(side))) && Of(t', side).writeCompleteCallback)
            && (job == OnWriteComplete(side) ==>
                  !Paused(Of(t', Other(side))) && !Of(t', side).writeCompleteCallback)
            && (job != OnHighWater(side) && job != OnWriteComplete(side) ==>
                  Paused(Of(t', Other(side))) == Paused(Of(t, Other(side))))
  {
    match job
    case OnHighWater(_) =>
    case OnWriteComplete(_) =>
  }

  lemma StoppingNext(q: seq<Job>, side: Side, paused: bool, paused': bool)
    requires q != [] && Stopping(q, side, paused)
    requires q[0] == OnHighWater(side) ==> paused'
    requires q[0] != OnHighWater(side) && q[0] != OnWriteComplete(side) ==> paused' == paused
    ensures Stopping(q[1..], side, paused')
  {
    assert q == [q[0]] + q[1..];
    if HighIsLast(q, side) {
      var j :| 0 <= j < |q| && q[j] == OnHighWater(side) && OnWriteComplete(side) !in q[j..];
      if j > 0 {
        assert q[1..][j - 1..] == q[j..];
      }
    }
  }

  lemma JobHolds(t: Tunnel, side: Side)
    requires t.queue != [] && Held(t, side)
    ensures Held(Apply(t, Run(0)), side)
  {
    var t0 := t.(queue := t.queue[1..]);
    RunOnce(t);
    JobEffect(t0, t.queue[0], side);
    assert Apply(t, Run(0)) == RunJob(t0, t.queue[0]);
    if |Of(t, side).output| >= Of(t, side).highWaterMark {
      StoppingNext(t.queue, side, Paused(Of(t, Other(side))), Paused(Of(RunJob(t0, t.queue[0]), Other(side))));
    }
  }

  lemma EventHolds(t: Tunnel, e: Event, side: Side)
    requires Inv(t) && Held(t, side) && Legal(t, e) && (e.Run? ==> e.i == 0)
    ensures Held(Apply(t, e), side)
  {
    match e
    case Relay(to, data, r) =>
      SendIsTold(Of(t, to), data, r);
      SendLeavesReading(Of(t, to), data, r);
      if to == side {
        OwnActHolds(t, side, Send(Of(t, to), data, r));
      } else {
        OtherActHolds(t, to, Send(Of(t, to), data, r));
      }
    case Drains(s, r) =>
      WritableIsTold(Of(t, s), r);
      WritableLeavesReading(Of(t, s), r);
      if s == side {
        OwnActHolds(t, side, HandleWrite(Of(t, s), r));
      } else {
        OtherActHolds(t, s, HandleWrite(Of(t, s), r));
      }
    case Run(i) => JobHolds(t, side);
  }

  lemma {:induction false} RunHolds(t: Tunnel, events: seq<Event>, side: Side)
    requires Inv(t) && Held(t, side) && IsRun(t, events)
    requires forall i :: 0 <= i < |events| && events[i].Run? ==> events[i].i == 0
    ensures Held(After(t, events), side)
    decreases |events|
  {
    if events != [] {
      EventKeeps(t, events[0]);
      EventHolds(t, events[0], side);
      RunHolds(Apply(t, events[0]), events[1..], side);
    }
  }

  /** Back-pressure: with the high-water callback installed and the callbacks run oldest first, a side whose output has
      reached its mark is no longer fed, or the callback that will stop its feeder is queued. */
  lemma BackPressure(t: Tunnel, events: seq<Event>, side: Side)
    requires JustLinked(t) && IsRun(t, events)
    requires Guarded(t, side) && |Of(t, side).output| < Of(t, side).highWaterMark
    requires forall i :: 0 <= i < |events| && events[i].Run? ==> events[i].i == 0
    ensures var t' := After(t, events);
            |Of(t', side).output| >= Of(t', side).highWaterMark ==>
              Paused(Of(t', Other(side))) || OnHighWater(side) in t'.queue
  {
    assert Of(t, Server) == t.server && Of(t, Client) == t.client;
    RunHolds(t, events, side);
  }

  // What happens when the kernel takes everything: an explicit way back to reading.

  /** The loop runs its n oldest callbacks. */
  predicate RunsOldest(events: seq<Event>, n: nat) {
    |events| == n && forall i :: 0 <= i < n ==> events[i] == Run(0)
  }

  lemma RunFirst(t: Tunnel, rest: seq<Event>)
    requires t.queue != [] && IsRun(Apply(t, Run(0)), rest)
    ensures IsRun(t, [Run(0)] + rest) && After(t, [Run(0)] + rest) == After(Apply(t, Run(0)), rest)
  {
    assert ([Run(0)] + rest)[1..] == rest;
  }

  lemma {:induction false} QueueRuns(t: Tunnel) returns (events: seq<Event>)
    requires Drained(t)
    ensures RunsOldest(events, |t.queue|) && IsRun(t, events)
    ensures After(t, events).queue == [] && Drained(After(t, events))
    decreases |t.queue|
  {
    events := [];
    if t.queue != [] {
      RunOnce(t);
      var rest := QueueRuns(Apply(t, Run(0)));
      RunFirst(t, rest);
      events := [Run(0)] + rest;
    }
  }

  lemma QuietReads(t: Tunnel)
    requires Inv(t) && Drained(t) && t.queue == []
    ensures !Paused(t.server) && !Paused(t.client)
  {
    assert Of(t, Other(Server)) == t.client && Of(t, Other(Client)) == t.server;
  }

  lemma EmptyQueueResumes(t: Tunnel) returns (events: seq<Event>)
    requires Inv(t) && Drained(t)
    ensures RunsOldest(events, |t.queue|) && IsRun(t, events)
    ensures !Paused(After(t, events).server) && !Paused(After(t, events).client)
  {
    events := QueueRuns(t);
    RunKeepsInv(t, events);
    QuietReads(After(t, events));
  }

  function Flush(c: Conn): WriteResult {
    Took(|c.output|)
  }

  lemma FlushEmpties(t: Tunnel, side: Side)
    requires Inv(t)
    ensures Of(Apply(t, Drains(side, Flush(Of(t, side)))), side).output == ""
    ensures Of(Apply(t, Drains(side, Flush(Of(t, side)))), Other(side)) == Of(t, Other(side))
  {}

  /** From any reachable state, once the kernel takes what both sides have buffered and the queued callbacks have run,
      both sides read again. */
  lemma DrainingResumes(t: Tunnel, events: seq<Event>) returns (more: seq<Event>)
    requires JustLinked(t) && IsRun(t, events)
    ensures var t0 := After(t, events);
            var t1 := Apply(t0, Drains(Server, Flush(t0.server)));
            var t2 := Apply(t1, Drains(Client, Flush(t1.client)));
            && RunsOldest(more, |t2.queue|) && IsRun(t2, more)
            && !Paused(After(t2, more).server) && !Paused(After(t2, more).client)
  {
    assert Of(t, Server) == t.server && Of(t, Client) == t.client;
    RunKeepsInv(t, events);
    var t0 := After(t, events);
    var t1 := Apply(t0, Drains(Server, Flush(t0.server)));
    var t2 := Apply(t1, Drains(Client, Flush(t1.client)));
    EventKeeps(t0, Drains(Server, Flush(t0.server)));
    FlushEmpties(t0, Server);
    EventKeeps(t1, Drains(Client, Flush(t1.client)));
    FlushEmpties(t1, Client);
    more := EmptyQueueResumes(t2);
  }
}

/** The tunnel object, working on two connection objects. */
module Tunnels {
  import opened ConnectionSpec
  import opened TunnelSpec
  import opened Connections
  import opened Buffers

  class Tunnel {
    const serverConn: TcpConnection
    const clientConn: TcpConnection
    var queue: seq<Job>     // the loop's pending callbacks of these two connections

    ghost predicate Valid()
      reads this, serverConn, clientConn, serverConn.outputBuffer, clientConn.outputBuffer
    {
      && serverConn != clientConn && serverConn.outputBuffer != clientConn.outputBuffer
      && serverConn.outputBuffer.buffer != clientConn.outputBuffer.buffer
      && serverConn.Valid() && clientConn.Valid()
    }

    ghost function View(): TunnelSpec.Tunnel
      requires Valid()
      reads this, serverConn, clientConn, serverConn.outputBuffer, clientConn.outputBuffer
      reads serverConn.outputBuffer.buffer, clientConn.outputBuffer.buffer
    {
      TunnelSpec.Tunnel(serverConn.View(), clientConn.View(), queue)
    }

    constructor (server: TcpConnection, client: TcpConnection)
      requires server != client && server.outputBuffer != client.outputBuffer
      requires server.outputBuffer.buffer != client.outputBuffer.buffer
      requires server.Valid() && client.Valid()
      ensures Valid() && serverConn == server && clientConn == client
      ensures View() == TunnelSpec.Tunnel(server.View(), client.View(), [])
    {
      serverConn, clientConn, queue := server, client, [];
    }

    /** Data that arrived on the client connection goes out on the server connection. */
    method OnClientMessage(data: string, r: WriteResult)
      requires Valid() && Possible(r, |data|)
      modifies this, serverConn, serverConn.outputBuffer, serverConn.outputBuffer.buffer
      ensures Valid() && View() == TunnelSpec.Apply(old(View()), Relay(Server, data, r))
      ensures serverConn.Stream() == old(serverConn.Stream()) + if old(serverConn.state) == Connected then data else ""
    {
      var tasks := serverConn.Send(data, r);
      queue := queue + Jobs(Server, tasks);
    }

    method OnServerMessage(data: string, r: WriteResult)
      requires Valid() && Possible(r, |data|)
      modifies this, clientConn, clientConn.outputBuffer, clientConn.outputBuffer.buffer
      ensures Valid() && View() == TunnelSpec.Apply(old(View()), Relay(Client, data, r))
      ensures clientConn.Stream() == old(clientConn.Stream()) + if old(clientConn.state) == Connected then data else ""
    {
      var tasks := clientConn.Send(data, r);
      queue := queue + Jobs(Client, tasks);
    }

    method OnHighWaterMark(which: Side)
      requires Valid()
      modifies serverConn, clientConn
      ensures Valid() && View() == RunHighWater(old(View()), which)
      ensures Of(old(View()), which).output == "" ==> View() == old(View())
      ensures Of(old(View()), which).output != "" ==>
                && Paused(Of(View(), Other(which))) && !Of(View(), Other(which)).reading
                && Of(View(), which).writeCompleteCallback
    {
      if which == Server {
        if serverConn.outputBuffer.ReadableBytes() > 0 {
          clientConn.StopReadInLoop();
          serverConn.SetWriteCompleteCallback(true);
        }
      } else {
        if clientConn.outputBuffer.ReadableBytes() > 0 {
          serverConn.StopReadInLoop();
          clientConn.SetWriteCompleteCallback(true);
        }
      }
    }

    method OnWriteComplete(which: Side)
      requires Valid()
      modifies serverConn, clientConn
      ensures Valid() && View() == RunWriteComplete(old(View()), which)
      ensures !Paused(Of(View(), Other(which))) && Of(View(), Other(which)).reading
      ensures !Of(View(), which).writeCompleteCallback
    {
      if which == Server {
        clientConn.StartReadInLoop();
        serverConn.SetWriteCompleteCallback(false);
      } else {
        serverConn.StartReadInLoop();
        clientConn.SetWriteCompleteCallback(false);
      }
    }

    /** The loop runs its oldest pending callback. */
    method RunOldest()
      requires Valid() && queue != []
      modifies this`queue, serverConn, clientConn
      ensures Valid() && View() == TunnelSpec.Apply(old(View()), Run(0))
    {
      var job := queue[0];
      queue := queue[1..];
      assert old(queue)[..0] + old(queue)[0 + 1..] == queue;
      match job
      case OnHighWater(side) => OnHighWaterMark(side);
      case OnWriteComplete(side) => OnWriteComplete(side);
    }
  }
}
