/** chaonet/src/Timer.cpp and chaonet/include/utils/Timestamp.h: a timer object and the clock arithmetic.
    A timestamp is a count of nanoseconds since the epoch. */
module Timers {

  type Timestamp = int

  /** C++ conversion of a floating-point number to an integer: towards zero. */
  function Trunc(x: real): int {
    if x >= 0.0 then x.Floor else -(-x).Floor
  }

  function AddTime(t: Timestamp, seconds: real): Timestamp {
    t + 1000 * Trunc(seconds * 1000000.0)
  }

  /** Seconds become nanoseconds, a started microsecond being dropped and a whole number of microseconds kept. */
  lemma AddTimeBounds(t: Timestamp, seconds: real)
    requires seconds >= 0.0
    ensures t as real + seconds * 1000000000.0 - 1000.0 < AddTime(t, seconds) as real
    ensures AddTime(t, seconds) as real <= t as real + seconds * 1000000000.0
    ensures forall us: nat :: seconds * 1000000.0 == us as real ==> AddTime(t, seconds) == t + 1000 * us
  {
    var us := Trunc(seconds * 1000000.0);
    assert us as real <= seconds * 1000000.0 < us as real + 1.0;
    assert (1000 * us) as real == 1000.0 * us as real;
  }

  const INVALID: Timestamp := 0

  class Timer {
    const sequence: nat
    const address: nat     // the order of equal expirations in the timer list
    const interval: real
    const repeat: bool := interval > 0.0
    var expiration: Timestamp

    constructor (sequence: nat, address: nat, when: Timestamp, interval: real)
      ensures this.sequence == sequence && this.address == address && this.interval == interval
      ensures repeat == (interval > 0.0) && expiration == when
    {
      this.sequence, this.address := sequence, address;
      this.interval := interval;
      expiration := when;
    }

    method Restart(now: Timestamp)
      modifies this`expiration
      ensures repeat ==>
                interval * 1000000000.0 - 1000.0 < (expiration - now) as real <= interval * 1000000000.0
      ensures !repeat ==> expiration == 0
      ensures repeat ==> expiration == AddTime(now, interval)
    {
      if repeat {
        AddTimeBounds(now, interval);
        expiration := AddTime(now, interval);
      } else {
        expiration := INVALID;
      }
    }
  }
}

/** The meaning of the timer queue, without its two indexes: which timers are active and when each is due. */
module TimerSpec {
  import opened Timers

  type Active = map<Timer, Timestamp>

  /** What a user callback does to the queue. */
  datatype Op = Add(timer: Timer, when: Timestamp) | Cancel(timer: Timer)

  function ApplyOp(a: Active, op: Op): Active {
    match op
    case Add(t, when) => a[t := when]
    case Cancel(t) => a - {t}
  }

  function ApplyOps(a: Active, ops: seq<Op>): Active {
    if ops == [] then a else ApplyOp(ApplyOps(a, ops[..|ops| - 1]), ops[|ops| - 1])
  }

  function Added(ops: seq<Op>): set<Timer> {
    set op | op in ops && op.Add? :: op.timer
  }

  /** Every timer is created for one addTimer call, so no timer is added twice. */
  predicate FreshAdds(ops: seq<Op>, known: set<Timer>) {
    && (forall i :: 0 <= i < |ops| && ops[i].Add? ==> ops[i].timer !in known)
    && (forall i, j :: 0 <= i < j < |ops| && ops[i].Add? && ops[j].Add? ==> ops[i].timer != ops[j].timer)
  }

  function Body(callbacks: map<Timer, seq<Op>>, t: Timer): seq<Op> {
    if t in callbacks then callbacks[t] else []
  }

  /** Everything the callbacks of a batch do, in the order they run. */
  function Script(batch: seq<Timer>, callbacks: map<Timer, seq<Op>>): seq<Op> {
    if batch == [] then [] else Script(batch[..|batch| - 1], callbacks) + Body(callbacks, batch[|batch| - 1])
  }

  /** The operations of a batch are those of its callbacks, all of them and no others. */
  lemma {:induction false} ScriptExactly(batch: seq<Timer>, callbacks: map<Timer, seq<Op>>, op: Op)
    ensures op in Script(batch, callbacks) <==> exists i :: 0 <= i < |batch| && op in Body(callbacks, batch[i])
  {
    if batch != [] {
      var init, last := batch[..|batch| - 1], batch[|batch| - 1];
      ScriptExactly(init, callbacks, op);
      assert forall i :: 0 <= i < |init| ==> init[i] == batch[i];
    }
  }

  /** A timer that is named in a list of operations ends up as the last of them says, and any other is left alone. */
  lemma {:induction false} LastOpDecides(a: Active, ops: seq<Op>, i: int, t: Timer)
    requires -1 <= i < |ops| && (i >= 0 ==> ops[i].timer == t)
    requires forall j :: i < j < |ops| ==> ops[j].timer != t
    ensures var a' := ApplyOps(a, ops);
            && (t in a' <==> if i >= 0 then ops[i].Add? else t in a)
            && (t in a' ==> a'[t] == if i >= 0 then ops[i].when else a[t])
    decreases |ops|
  {
    if i < |ops| - 1 {
      LastOpDecides(a, ops[..|ops| - 1], i, t);
    }
  }

  function Expired(a: Active, now: Timestamp): set<Timer> {
    set t | t in a && a[t] < now
  }

  predicate DueBefore(a: Active, t: Timer, u: Timer)
    requires t in a && u in a
  {
    a[t] < a[u] || (a[t] == a[u] && t.address < u.address)
  }

  /** The batch holds exactly the timers due before now, the earliest first. */
  predicate IsBatch(a: Active, now: Timestamp, batch: seq<Timer>) {
    && (set t | t in batch) == Expired(a, now)
    && forall i, j :: 0 <= i < j < |batch| ==> batch[i] in a && batch[j] in a && DueBefore(a, batch[i], batch[j])
  }

  function Rearmed(now: Timestamp, batch: seq<Timer>, ops: seq<Op>): Active {
    map t | t in batch && t.repeat && Cancel(t) !in ops :: AddTime(now, t.interval)
  }

  /** The timers after one firing: the expired ones leave, the callbacks act on the others,
      and a repeating timer of the batch returns unless some callback cancelled it. */
  function AfterFire(a: Active, now: Timestamp, batch: seq<Timer>, callbacks: map<Timer, seq<Op>>): Active {
    var ops := Script(batch, callbacks);
    ApplyOps(a - Expired(a, now), ops) + Rearmed(now, batch, ops)
  }

  // Whole runs.

  datatype Event =
    | AddEvent(timer: Timer, when: Timestamp)
    | CancelEvent(timer: Timer)
    | Fire(now: Timestamp, batch: seq<Timer>, callbacks: map<Timer, seq<Op>>)

  datatype Queue = Queue(active: Active, known: set<Timer>)

  const EMPTY: Queue := Queue(map[], {})

  predicate LegalEvent(q: Queue, e: Event) {
    match e
    case AddEvent(t, _) => t !in q.known
    case CancelEvent(_) => true
    case Fire(now, batch, callbacks) => IsBatch(q.active, now, batch) && FreshAdds(Script(batch, callbacks), q.known)
  }

  function Apply(q: Queue, e: Event): Queue {
    match e
    case AddEvent(t, when) => Queue(q.active[t := when], q.known + {t})
    case CancelEvent(t) => Queue(q.active - {t}, q.known)
    case Fire(now, batch, callbacks) =>
      Queue(AfterFire(q.active, now, batch, callbacks), q.known + Added(Script(batch, callbacks)))
  }

  /** A run: the queue before and after each event. */
  datatype Run = Run(events: seq<Event>, states: seq<Queue>)

  predicate Link(r: Run, k: int) {
    && 0 <= k < |r.events| && |r.states| == |r.events| + 1
    && LegalEvent(r.states[k], r.events[k])
    && r.states[k + 1] == Apply(r.states[k], r.events[k])
  }

  predicate LegalRun(r: Run) {
    && |r.states| == |r.events| + 1 && r.states[0] == EMPTY
    && forall k :: 0 <= k < |r.events| ==> Link(r, k)
  }

  predicate Ran(e: Event, t: Timer) {
    e.Fire? && t in e.batch
  }

  // The reference semantics of a single timer, which no other timer can influence.

  datatype Status = Unknown | Waiting(due: Timestamp) | Done

  function StatusOf(q: Queue, t: Timer): Status {
    if t in q.active then Waiting(q.active[t]) else if t in q.known then Done else Unknown
  }

  function OpStep(s: Status, op: Op, t: Timer): Status {
    if op.timer != t then s
    else match op
      case Add(_, when) => Waiting(when)
      case Cancel(_) => if s.Waiting? then Done else s
  }

  function OpsStep(s: Status, ops: seq<Op>, t: Timer): Status {
    if ops == [] then s else OpStep(OpsStep(s, ops[..|ops| - 1], t), ops[|ops| - 1], t)
  }

  function Step(s: Status, e: Event, t: Timer): Status {
    match e
    case AddEvent(u, when) => if u == t then Waiting(when) else s
    case CancelEvent(u) => if u == t && s.Waiting? then Done else s
    case Fire(now, batch, callbacks) =>
      var ops := Script(batch, callbacks);
      if s.Waiting? && s.due < now then
        if t.repeat && Cancel(t) !in ops then Waiting(AddTime(now, t.interval)) else Done
      else OpsStep(s, ops, t)
  }

  function Learn(known: set<Timer>, op: Op): set<Timer> {
    if op.Add? then known + {op.timer} else known
  }

  lemma OpProjects(q: Queue, op: Op, t: Timer)
    requires q.active.Keys <= q.known && (op.Add? ==> op.timer !in q.known)
    ensures ApplyOp(q.active, op).Keys <= Learn(q.known, op)
    ensures StatusOf(Queue(ApplyOp(q.active, op), Learn(q.known, op)), t) == OpStep(StatusOf(q, t), op, t)
  {}

  lemma AddedSplits(ops: seq<Op>)
    requires ops != []
    ensures Added(ops) == Learn(Added(ops[..|ops| - 1]), ops[|ops| - 1])
  {
    assert ops == ops[..|ops| - 1] + [ops[|ops| - 1]];
  }

  lemma {:induction false} OpsProject(q: Queue, ops: seq<Op>, t: Timer)
    requires FreshAdds(ops, q.known) && q.active.Keys <= q.known
    ensures ApplyOps(q.active, ops).Keys <= q.known + Added(ops)
    ensures StatusOf(Queue(ApplyOps(q.active, ops), q.known + Added(ops)), t) == OpsStep(StatusOf(q, t), ops, t)
  {
    if ops == [] {
      assert q.known + Added(ops) == q.known;
    } else {
      var init, op := ops[..|ops| - 1], ops[|ops| - 1];
      OpsProject(q, init, t);
      AddedSplits(ops);
      var mid := Queue(ApplyOps(q.active, init), q.known + Added(init));
      assert op.Add? ==> op.timer !in mid.known;
      OpProjects(mid, op, t);
      assert Learn(mid.known, op) == q.known + Added(ops);
    }
  }

  lemma {:induction false} OpsLeaveOthers(a: Active, ops: seq<Op>, t: Timer)
    requires t !in a && t !in Added(ops)
    ensures t !in ApplyOps(a, ops)
  {
    if ops != [] {
      var init, op := ops[..|ops| - 1], ops[|ops| - 1];
      assert ops == init + [op];
      OpsLeaveOthers(a, init, t);
    }
  }

  /** The queue treats each timer as its reference semantics says. */
  lemma Projects(q: Queue, e: Event, t: Timer)
    requires LegalEvent(q, e) && q.active.Keys <= q.known
    ensures Apply(q, e).active.Keys <= Apply(q, e).known
    ensures StatusOf(Apply(q, e), t) == Step(StatusOf(q, t), e, t)
  {
    match e {
      case AddEvent(_, _) =>
      case CancelEvent(_) =>
      case Fire(now, batch, callbacks) =>
        var ops := Script(batch, callbacks);
        var rest := Queue(q.active - Expired(q.active, now), q.known);
        OpsProject(rest, ops, t);
        assert (set u | u in batch) <= q.known;
        if t in Expired(q.active, now) {
          assert t in q.known && t !in Added(ops);
          OpsLeaveOthers(rest.active, ops, t);
        } else {
          assert t !in batch;
        }
    }
  }

  lemma {:induction false} RunProjects(r: Run, k: nat)
    requires LegalRun(r) && k <= |r.events|
    ensures r.states[k].active.Keys <= r.states[k].known
  {
    if k > 0 {
      RunProjects(r, k - 1);
      assert Link(r, k - 1);
      var q, e := r.states[k - 1], r.events[k - 1];
      if Apply(q, e).active.Keys != {} {
        var u :| u in Apply(q, e).active;
        Projects(q, e, u);
      }
    }
  }

  lemma StatusAfter(r: Run, k: nat, t: Timer)
    requires LegalRun(r) && k < |r.events|
    ensures StatusOf(r.states[k + 1], t) == Step(StatusOf(r.states[k], t), r.events[k], t)
  {
    assert Link(r, k);
    RunProjects(r, k);
    Projects(r.states[k], r.events[k], t);
  }

  lemma RunsWhenWaiting(r: Run, k: nat, t: Timer)
    requires LegalRun(r) && k < |r.events| && Ran(r.events[k], t)
    ensures var s := StatusOf(r.states[k], t); s.Waiting? && s.due < r.events[k].now
  {
    assert Link(r, k);
    assert t in (set u | u in r.events[k].batch);
    assert t in Expired(r.states[k].active, r.events[k].now);
  }

  /** A firing runs exactly the timers that were waiting for an instant before it. */
  lemma RunsExactly(r: Run, k: nat, t: Timer)
    requires LegalRun(r) && k < |r.events| && r.events[k].Fire?
    ensures Ran(r.events[k], t) <==> t in r.states[k].active && r.states[k].active[t] < r.events[k].now
  {
    assert Link(r, k);
    assert t in (set u | u in r.events[k].batch) <==> t in Expired(r.states[k].active, r.events[k].now);
  }

  lemma {:induction false} OpsKeepDone(ops: seq<Op>, t: Timer)
    requires t !in Added(ops)
    ensures OpsStep(Done, ops, t) == Done
  {
    if ops != [] {
      var init, op := ops[..|ops| - 1], ops[|ops| - 1];
      assert ops == init + [op];
      OpsKeepDone(init, t);
    }
  }

  /** A finished timer never runs again. */
  lemma {:induction false} DoneIsFinal(r: Run, j: nat, k: nat, t: Timer)
    requires LegalRun(r) && j <= k <= |r.events|
    requires StatusOf(r.states[j], t) == Done
    ensures StatusOf(r.states[k], t) == Done
    ensures k < |r.events| ==> !Ran(r.events[k], t)
    decreases k
  {
    if j < k {
      DoneIsFinal(r, j, k - 1, t);
      StatusAfter(r, k - 1, t);
      var q, e := r.states[k - 1], r.events[k - 1];
      assert Link(r, k - 1);
      if e.Fire? {
        OpsKeepDone(Script(e.batch, e.callbacks), t);
      }
    }
    if k < |r.events| && Ran(r.events[k], t) {
      RunsWhenWaiting(r, k, t);
    }
  }

  /** A one-shot timer runs at most once. */
  lemma OneShotRunsOnce(r: Run, j: nat, k: nat, t: Timer)
    requires LegalRun(r) && j < k < |r.events| && !t.repeat && Ran(r.events[j], t)
    ensures !Ran(r.events[k], t)
  {
    RunsWhenWaiting(r, j, t);
    StatusAfter(r, j, t);
    DoneIsFinal(r, j + 1, k, t);
  }

  /** The event processes a cancel of t at a moment when t has already been added. */
  ghost predicate ProcessesCancel(q: Queue, e: Event, t: Timer) {
    match e
    case AddEvent(_, _) => false
    case CancelEvent(u) => u == t && t in q.known
    case Fire(_, batch, callbacks) =>
      var ops := Script(batch, callbacks);
      exists i :: 0 <= i < |ops| && ops[i] == Cancel(t) && t in q.known + Added(ops[..i])
  }

  lemma {:induction false} CancelInScript(q: Queue, ops: seq<Op>, i: nat, t: Timer)
    requires FreshAdds(ops, q.known) && q.active.Keys <= q.known
    requires i < |ops| && ops[i] == Cancel(t) && t in q.known + Added(ops[..i])
    ensures OpsStep(StatusOf(q, t), ops, t) == Done
    decreases |ops|
  {
    var init, op := ops[..|ops| - 1], ops[|ops| - 1];
    assert ops == init + [op];
    assert FreshAdds(init, q.known);
    if i < |init| {
      assert init[..i] == ops[..i];
      CancelInScript(q, init, i, t);
      assert !(op.Add? && op.timer == t) by {
        assert t in Added(ops[..i]) ==> exists x :: 0 <= x < i && ops[x].Add? && ops[x].timer == t;
      }
    } else {
      assert init == ops[..i];
      OpsProject(q, init, t);
    }
  }

  /** Once a cancel has been processed, whether by user code outside a batch, by the timer itself
      or by a sibling in the same batch, the timer runs in no later batch. */
  lemma CancelledNeverRunsLater(r: Run, j: nat, k: nat, t: Timer)
    requires LegalRun(r) && j < k < |r.events| && ProcessesCancel(r.states[j], r.events[j], t)
    ensures !Ran(r.events[k], t)
  {
    RunProjects(r, j);
    StatusAfter(r, j, t);
    var q, e := r.states[j], r.events[j];
    assert Link(r, j);
    if e.Fire? {
      var ops := Script(e.batch, e.callbacks);
      var i :| 0 <= i < |ops| && ops[i] == Cancel(t) && t in q.known + Added(ops[..i]);
      CancelInScript(q, ops, i, t);
    }
    DoneIsFinal(r, j + 1, k, t);
  }

  /** The event makes t due at d: its creation, or a repetition counted from the batch it ran in. */
  predicate Schedules(e: Event, t: Timer, d: Timestamp) {
    match e
    case AddEvent(u, when) => u == t && when == d
    case CancelEvent(_) => false
    case Fire(now, batch, callbacks) =>
      Add(t, d) in Script(batch, callbacks) || (t in batch && t.repeat && d == AddTime(now, t.interval))
  }

  lemma {:induction false} OpsSchedule(s: Status, ops: seq<Op>, t: Timer)
    ensures var s' := OpsStep(s, ops, t); s'.Waiting? ==> s' == s || Add(t, s'.due) in ops
  {
    if ops != [] {
      var init, op := ops[..|ops| - 1], ops[|ops| - 1];
      assert ops == init + [op];
      OpsSchedule(s, init, t);
    }
  }

  /** An event after which a timer waits has either scheduled it for its present due time or left it alone. */
  lemma ScheduledOrLeft(r: Run, k: nat, t: Timer)
    requires LegalRun(r) && k < |r.events| && StatusOf(r.states[k + 1], t).Waiting?
    ensures || Schedules(r.events[k], t, StatusOf(r.states[k + 1], t).due)
            || (StatusOf(r.states[k], t) == StatusOf(r.states[k + 1], t) && forall d :: !Schedules(r.events[k], t, d))
  {
    var q, e := r.states[k], r.events[k];
    StatusAfter(r, k, t);
    RunProjects(r, k);
    assert Link(r, k);
    if e.Fire? {
      var ops := Script(e.batch, e.callbacks);
      OpsSchedule(StatusOf(q, t), ops, t);
      assert t in e.batch <==> t in Expired(q.active, e.now);
      assert t in q.known ==> forall d :: Add(t, d) !in ops;
    }
  }

  lemma {:induction false} WaitingWasScheduled(r: Run, k: nat, t: Timer) returns (j: nat)
    requires LegalRun(r) && k <= |r.events| && StatusOf(r.states[k], t).Waiting?
    ensures j < k && Schedules(r.events[j], t, StatusOf(r.states[k], t).due)
    ensures forall i, d :: j < i < k ==> !Schedules(r.events[i], t, d)
  {
    ScheduledOrLeft(r, k - 1, t);
    if Schedules(r.events[k - 1], t, StatusOf(r.states[k], t).due) {
      j := k - 1;
    } else {
      j := WaitingWasScheduled(r, k - 1, t);
    }
  }

  /** No timer runs before it is due: every execution is later than the instant for which an event last scheduled it. */
  lemma NeverEarly(r: Run, k: nat, t: Timer)
    requires LegalRun(r) && k < |r.events| && Ran(r.events[k], t)
    ensures exists j, d ::
              && 0 <= j < k && Schedules(r.events[j], t, d) && d < r.events[k].now
              && forall i, d' :: j < i < k ==> !Schedules(r.events[i], t, d')
  {
    RunsWhenWaiting(r, k, t);
    var j := WaitingWasScheduled(r, k, t);
  }

  lemma PeriodIsForward(t: Timer)
    requires t.repeat
    ensures Trunc(t.interval * 1000000.0) >= 0
  {
    assert t.interval * 1000000.0 > 0.0;
  }

  /** Finished, or due at floor at the earliest. */
  predicate NotBefore(s: Status, floor: Timestamp) {
    s == Done || (s.Waiting? && s.due >= floor)
  }

  lemma StepNotBefore(r: Run, k: nat, t: Timer, floor: Timestamp)
    requires LegalRun(r) && k < |r.events| && NotBefore(StatusOf(r.states[k], t), floor)
    ensures NotBefore(StatusOf(r.states[k + 1], t), floor)
  {
    var q, e := r.states[k], r.events[k];
    StatusAfter(r, k, t);
    RunProjects(r, k);
    assert Link(r, k) && t in q.known;
    if e.Fire? {
      OpsSchedule(StatusOf(q, t), Script(e.batch, e.callbacks), t);
      assert forall d :: Add(t, d) !in Script(e.batch, e.callbacks);
      if t.repeat {
        PeriodIsForward(t);
      }
    }
  }

  lemma {:induction false} StaysSpaced(r: Run, j: nat, k: nat, t: Timer)
    requires LegalRun(r) && j < k <= |r.events| && Ran(r.events[j], t)
    ensures NotBefore(StatusOf(r.states[k], t), AddTime(r.events[j].now, t.interval))
    decreases k
  {
    if k - 1 == j {
      StatusAfter(r, j, t);
      RunsWhenWaiting(r, j, t);
    } else {
      StaysSpaced(r, j, k - 1, t);
      StepNotBefore(r, k - 1, t, AddTime(r.events[j].now, t.interval));
    }
  }

  /** Any two executions of a timer are more than its interval apart, less the microsecond that the clock arithmetic may
      drop, counted from the start of the earlier batch. */
  lemma RepeatsAreSpaced(r: Run, j: nat, k: nat, t: Timer)
    requires LegalRun(r) && j < k < |r.events| && Ran(r.events[j], t) && Ran(r.events[k], t)
    ensures t.repeat
    ensures t.interval * 1000000000.0 - 1000.0 < (r.events[k].now - r.events[j].now) as real
  {
    if !t.repeat {
      OneShotRunsOnce(r, j, k, t);
    }
    StaysSpaced(r, j, k, t);
    RunsWhenWaiting(r, k, t);
    AddTimeBounds(r.events[j].now, t.interval);
  }

  /** A timer that has run waits again exactly when it repeats and no callback of the batch has cancelled it,
      and it is then due one interval after the batch, to the microsecond. */
  lemma RepeatsComeBack(r: Run, k: nat, t: Timer)
    requires LegalRun(r) && k < |r.events| && Ran(r.events[k], t)
    ensures var e, next := r.events[k], r.states[k + 1].active;
            && (t in next <==> t.repeat && Cancel(t) !in Script(e.batch, e.callbacks))
            && (t in next ==>
                  t.interval * 1000000000.0 - 1000.0 < (next[t] - e.now) as real <= t.interval * 1000000000.0)
  {
    StatusAfter(r, k, t);
    RunsWhenWaiting(r, k, t);
    if t.repeat {
      AddTimeBounds(r.events[k].now, t.interval);
    }
  }
}
