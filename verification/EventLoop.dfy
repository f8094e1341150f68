/** The cross-thread functor queue of chaonet/src/EventLoop.cpp as a state machine over interleaved steps:
    one loop thread, any number of producer threads, a mutex-protected queue and an eventfd counter. */
module EventLoopProtocol {
  type Functor = nat
  type Thread = nat

  /** Where the loop thread is. Outside: not inside loop(). Handling(true) still has the wake-up channel to serve. */
  datatype LoopPoint = Outside | AtGuard | AtPoll | Handling(wake: bool) | BeforeSwap | Running

  /** A producer between its push (or its store to quit_) and its write to the eventfd owes a wake-up. */
  datatype Producer = Idle | Pushed | QuitSet

  datatype State = State(
    point: LoopPoint,
    pending: seq<Functor>,
    batch: seq<Functor>,
    calling: bool,
    quit: bool,
    counter: nat,
    producers: map<Thread, Producer>,
    early: nat,               // history: how many of the pending functors the loop thread pushed outside loop()
    ownCheck: bool,           // the loop thread has pushed and not yet decided whether to wake itself
    pushed: seq<Functor>,     // history: every functor pushed, in order
    executed: seq<Functor>    // history: every functor started, in order
  )

  datatype Step =
    | Enter
    | Guard
    | PollReturns(wake: bool)
    | WakeRead
    | HandlingDone
    | Swap
    | RunNext
    | BatchDone
    | OwnPush(f: Functor)
    | OwnCheck
    | OwnQuit
    | ForeignPush(t: Thread, f: Functor)
    | ForeignQuit(t: Thread)
    | ForeignWake(t: Thread)

  function ProducerAt(s: State, t: Thread): Producer {
    if t in s.producers then s.producers[t] else Idle
  }

  /** User code of the loop thread runs outside loop(), in a channel callback or in a functor. */
  predicate InUserCode(s: State) {
    (s.point == Outside || s.point.Handling? || s.point == Running) && !s.ownCheck
  }

  predicate Enabled(s: State, step: Step) {
    match step
    case Enter => s.point == Outside && !s.ownCheck
    case Guard => s.point == AtGuard
    case PollReturns(wake) => s.point == AtPoll && (wake ==> s.counter > 0)
    case WakeRead => s.point == Handling(true) && !s.ownCheck
    case HandlingDone => s.point == Handling(false) && !s.ownCheck
    case Swap => s.point == BeforeSwap
    case RunNext => s.point == Running && !s.ownCheck && s.batch != []
    case BatchDone => s.point == Running && !s.ownCheck && s.batch == []
    case OwnPush(_) => InUserCode(s)
    case OwnCheck => s.ownCheck
    case OwnQuit => InUserCode(s)
    case ForeignPush(t, _) => ProducerAt(s, t) == Idle
    case ForeignQuit(t) => ProducerAt(s, t) == Idle
    case ForeignWake(t) => ProducerAt(s, t) != Idle
  }

  function Apply(s: State, step: Step): State
    requires Enabled(s, step)
  {
    match step
    case Enter => s.(point := AtGuard, quit := false)
    case Guard => s.(point := if s.quit then Outside else AtPoll)
    case PollReturns(wake) => s.(point := Handling(wake))
    case WakeRead => s.(point := Handling(false), counter := 0)
    case HandlingDone => s.(point := BeforeSwap, calling := true)
    case Swap => s.(point := Running, batch := s.pending, pending := [], early := 0)
    case RunNext => s.(batch := s.batch[1..], executed := s.executed + [s.batch[0]])
    case BatchDone => s.(point := AtGuard, calling := false)
    case OwnPush(f) =>
      s.(pending := s.pending + [f], pushed := s.pushed + [f], ownCheck := true,
         early := if s.point == Outside then s.early + 1 else s.early)
    case OwnCheck => s.(ownCheck := false, counter := if s.calling then s.counter + 1 else s.counter)
    case OwnQuit => s.(quit := true)
    case ForeignPush(t, f) =>
      s.(pending := s.pending + [f], pushed := s.pushed + [f], producers := s.producers[t := Pushed])
    case ForeignQuit(t) => s.(quit := true, producers := s.producers[t := QuitSet])
    case ForeignWake(t) => s.(counter := s.counter + 1, producers := s.producers[t := Idle])
  }

  /** A new loop object: nothing is queued and no producer is under way. */
  const START: State := State(Outside, [], [], false, false, 0, map[], 0, false, [], [])

  predicate IsRun(s: State, steps: seq<Step>)
    decreases |steps|
  {
    steps == [] || (Enabled(s, steps[0]) && IsRun(Apply(s, steps[0]), steps[1..]))
  }

  function After(s: State, steps: seq<Step>): State
    requires IsRun(s, steps)
    decreases |steps|
  {
    if steps == [] then s else After(Apply(s, steps[0]), steps[1..])
  }

  lemma {:induction false} RunAppend(s: State, a: seq<Step>, b: seq<Step>)
    requires IsRun(s, a) && IsRun(After(s, a), b)
    ensures IsRun(s, a + b) && After(s, a + b) == After(After(s, a), b)
    decreases |a|
  {
    if a == [] {
      assert a + b == b;
    } else {
      RunAppend(Apply(s, a[0]), a[1..], b);
      assert (a + b)[0] == a[0] && (a + b)[1..] == a[1..] + b;
    }
  }

  ghost predicate ReachedBy(s: State, trace: seq<Step>) {
    IsRun(START, trace) && After(START, trace) == s
  }

  lemma PrependStep(s: State, step: Step, rest: seq<Step>)
    requires Enabled(s, step) && IsRun(Apply(s, step), rest)
    ensures IsRun(s, [step] + rest) && After(s, [step] + rest) == After(Apply(s, step), rest)
  {
    assert ([step] + rest)[1..] == rest;
  }

  lemma OneMoreStep(s: State, trace: seq<Step>, step: Step)
    requires ReachedBy(s, trace) && Enabled(s, step)
    ensures ReachedBy(Apply(s, step), trace + [step])
  {
    PrependStep(s, step, []);
    assert [step] + [] == [step];
    RunAppend(START, trace, [step]);
  }

  ghost predicate SomeProducer(s: State, p: Producer) {
    exists t :: t in s.producers && s.producers[t] == p
  }

  /** Every pushed functor is executed, in the batch or pending, exactly once and in push order. */
  predicate Conserved(s: State) {
    s.executed + s.batch + s.pending == s.pushed
  }

  /** A wake-up for the pending functors has been sent or is owed. */
  ghost predicate PendingCovered(s: State) {
    s.counter > 0 || SomeProducer(s, Pushed) || (s.ownCheck && s.calling)
  }

  ghost predicate QuitCovered(s: State) {
    s.counter > 0 || SomeProducer(s, QuitSet)
  }

  ghost predicate Inv(s: State) {
    && Conserved(s)
    && (s.calling <==> s.point == BeforeSwap || s.point == Running)
    && (s.batch != [] ==> s.point == Running)
    && (s.ownCheck ==> s.point == Outside || s.point.Handling? || s.point == Running)
    && s.early <= |s.pending|
    && (s.point in {Outside, AtGuard, AtPoll, Running} && |s.pending| > s.early ==> PendingCovered(s))
    && (s.point == AtPoll && s.quit ==> QuitCovered(s))
  }

  lemma OtherProducersKeep(s: State, t: Thread, p: Producer, q: Producer)
    requires SomeProducer(s, q) && ProducerAt(s, t) != q
    ensures SomeProducer(s.(producers := s.producers[t := p]), q)
  {
    var u :| u in s.producers && s.producers[u] == q;
    var m := s.producers[t := p];
    assert u != t && m[u] == q;
  }

  lemma ProducerKeepsInv(s: State, step: Step)
    requires Inv(s) && Enabled(s, step) && (step.ForeignPush? || step.ForeignQuit? || step.ForeignWake?)
    ensures Inv(Apply(s, step))
  {
    var s' := Apply(s, step);
    match step {
      case ForeignPush(t, f) =>
        assert s'.producers[t] == Pushed;
        assert s'.executed + s'.batch + s'.pending == s.executed + s.batch + s.pending + [f];
        if SomeProducer(s, QuitSet) { OtherProducersKeep(s, t, Pushed, QuitSet); }
      case ForeignQuit(t) =>
        assert s'.producers[t] == QuitSet;
        if SomeProducer(s, Pushed) { OtherProducersKeep(s, t, QuitSet, Pushed); }
      case ForeignWake(t) =>
    }
  }

  /** Steps of the loop thread leave the producers alone. */
  lemma SameProducers(s: State, s': State, p: Producer)
    requires s'.producers == s.producers
    ensures SomeProducer(s', p) <==> SomeProducer(s, p)
  {}

  lemma OwnKeepsInv(s: State, step: Step)
    requires Inv(s) && Enabled(s, step) && (step.OwnPush? || step.OwnCheck? || step.OwnQuit?)
    ensures Inv(Apply(s, step))
  {
    var s' := Apply(s, step);
    SameProducers(s, s', Pushed);
    SameProducers(s, s', QuitSet);
    if step.OwnPush? {
      assert s'.executed + s'.batch + s'.pending == s.executed + s.batch + s.pending + [step.f];
    }
  }

  lemma LoopKeepsInv(s: State, step: Step)
    requires Inv(s) && Enabled(s, step)
    requires step.Enter? || step.Guard? || step.PollReturns? || step.WakeRead? || step.HandlingDone?
    ensures Inv(Apply(s, step))
  {
    var s' := Apply(s, step);
    SameProducers(s, s', Pushed);
    SameProducers(s, s', QuitSet);
  }

  lemma BatchKeepsInv(s: State, step: Step)
    requires Inv(s) && Enabled(s, step) && (step.Swap? || step.RunNext? || step.BatchDone?)
    ensures Inv(Apply(s, step))
  {
    var s' := Apply(s, step);
    SameProducers(s, s', Pushed);
    SameProducers(s, s', QuitSet);
    match step {
      case Swap => assert s'.executed + s'.batch + s'.pending == s.executed + s.batch + s.pending;
      case RunNext => assert s'.executed + s'.batch == s.executed + s.batch;
      case BatchDone =>
    }
  }

  lemma StepKeepsInv(s: State, step: Step)
    requires Inv(s) && Enabled(s, step)
    ensures Inv(Apply(s, step))
  {
    match step
    case Enter | Guard | PollReturns(_) | WakeRead | HandlingDone => LoopKeepsInv(s, step);
    case Swap | RunNext | BatchDone => BatchKeepsInv(s, step);
    case OwnPush(_) | OwnCheck | OwnQuit => OwnKeepsInv(s, step);
    case ForeignPush(_, _) | ForeignQuit(_) | ForeignWake(_) => ProducerKeepsInv(s, step);
  }

  lemma {:induction false} RunKeepsInv(s: State, steps: seq<Step>)
    requires Inv(s) && IsRun(s, steps)
    ensures Inv(After(s, steps))
    decreases |steps|
  {
    if steps != [] {
      StepKeepsInv(s, steps[0]);
      RunKeepsInv(Apply(s, steps[0]), steps[1..]);
    }
  }

  ghost predicate Woken(s: State) {
    s.counter > 0 || exists t :: ProducerAt(s, t) != Idle
  }

  /** No lost wake-up, whatever runs before and between calls of loop(): a loop that could block in poll with work or a
      quit request outstanding either finds the eventfd readable or has a producer about to write to it. The one
      exception is a queue that holds nothing but functors that the loop's own thread queued outside loop(). */
  lemma NoLostWakeup(steps: seq<Step>)
    requires IsRun(START, steps)
    ensures var s := After(START, steps);
            s.point == AtPoll && (|s.pending| > s.early || s.quit) ==> Woken(s)
  {
    RunKeepsInv(START, steps);
    var s := After(START, steps);
    if s.point == AtPoll && (|s.pending| > s.early || s.quit) && s.counter == 0 {
      var p := if |s.pending| > s.early then Pushed else QuitSet;
      var t :| t in s.producers && s.producers[t] == p;
      assert ProducerAt(s, t) != Idle;
    }
  }

  lemma Settled(steps: seq<Step>)
    requires IsRun(START, steps) && After(START, steps).point in {Outside, AtPoll}
    ensures var s := After(START, steps);
            && s.executed + s.pending == s.pushed
            && (s.point == AtPoll && |s.pending| > s.early ==> Woken(s))
  {
    RunKeepsInv(START, steps);
    NoLostWakeup(steps);
    assert After(START, steps).executed + [] == After(START, steps).executed;
  }

  predicate Foreign(step: Step) {
    step.ForeignPush? || step.ForeignQuit?
  }

  predicate Pushes(step: Step) {
    step.ForeignPush? || step.OwnPush?
  }

  predicate StaysOutside(steps: seq<Step>) {
    forall i :: 0 <= i < |steps| ==> !steps[i].Enter?
  }

  ghost predicate Some(steps: seq<Step>, p: Step -> bool) {
    exists i :: 0 <= i < |steps| && p(steps[i])
  }

  lemma SomeFirst(steps: seq<Step>, p: Step -> bool)
    requires steps != []
    ensures Some(steps, p) <==> p(steps[0]) || Some(steps[1..], p)
  {
    if i :| 0 < i < |steps| && p(steps[i]) {
      assert p(steps[1..][i - 1]);
    }
    if j :| 0 <= j < |steps| - 1 && p(steps[1..][j]) {
      assert p(steps[j + 1]);
    }
  }

  lemma OutsideStep(s: State, step: Step)
    requires s.point == Outside && !s.calling && Enabled(s, step) && !step.Enter?
    ensures var s' := Apply(s, step);
            && s'.point == Outside && !s'.calling && s'.batch == s.batch
            && (Woken(s') <==> Woken(s) || Foreign(step))
            && (s'.pending != [] <==> s.pending != [] || Pushes(step))
  {
    var s' := Apply(s, step);
    match step {
      case ForeignPush(t, _) => assert ProducerAt(s', t) != Idle;
      case ForeignQuit(t) => assert ProducerAt(s', t) != Idle;
      case ForeignWake(t) => assert ProducerAt(s, t) != Idle;
      case OwnPush(_) | OwnCheck | OwnQuit => assert forall t :: ProducerAt(s', t) == ProducerAt(s, t);
    }
  }

  /** Outside loop() the calls of other threads, and only these, bring a wake-up. */
  lemma {:induction false} OutsideRun(s: State, steps: seq<Step>)
    requires s.point == Outside && !s.calling && IsRun(s, steps) && StaysOutside(steps)
    ensures var s' := After(s, steps);
            && s'.point == Outside && !s'.calling
            && (Woken(s') <==> Woken(s) || Some(steps, Foreign))
            && (s'.pending != [] <==> s.pending != [] || Some(steps, Pushes))
    decreases |steps|
  {
    if steps != [] {
      OutsideStep(s, steps[0]);
      OutsideRun(Apply(s, steps[0]), steps[1..]);
      SomeFirst(steps, Foreign);
      SomeFirst(steps, Pushes);
    }
  }

  /** The first poll of any call of loop(), the first one or a later one: it has a wake-up exactly when one was left
      when the thread was last outside, or another thread has called since. A quit request from before is dropped. */
  lemma NextPoll(s: State, steps: seq<Step>)
    requires Inv(s) && s.point == Outside && IsRun(s, steps) && StaysOutside(steps) && !After(s, steps).ownCheck
    ensures After(s, steps).point == Outside
    ensures var s' := Apply(Apply(After(s, steps), Enter), Guard);
            && s'.point == AtPoll && !s'.quit
            && (Woken(s') <==> Woken(s) || Some(steps, Foreign))
            && (s'.pending != [] <==> s.pending != [] || Some(steps, Pushes))
  {
    OutsideRun(s, steps);
    var s0 := After(s, steps);
    assert forall t :: ProducerAt(Apply(Apply(s0, Enter), Guard), t) == ProducerAt(s0, t);
  }

  /** For a new loop: the first poll blocks with work pending exactly when functors have been queued and no other thread
      has queued one or asked to quit, so only by the loop's own thread. */
  lemma FirstPoll(steps: seq<Step>)
    requires IsRun(START, steps) && StaysOutside(steps) && !After(START, steps).ownCheck
    ensures After(START, steps).point == Outside
    ensures var s := Apply(Apply(After(START, steps), Enter), Guard);
            && s.point == AtPoll && !s.quit
            && (Woken(s) <==> Some(steps, Foreign))
            && (s.pending != [] && !Woken(s) <==> Some(steps, Pushes) && !Some(steps, Foreign))
  {
    NextPoll(START, steps);
  }

  /** A functor queued by the loop's own thread before loop(): the loop polls with work pending and nothing to wake
      it. */
  lemma EarlyPushWitness(f: Functor)
    ensures var steps := [OwnPush(f)] + ([OwnCheck] + ([Enter] + ([Guard] + [])));
            && IsRun(START, steps)
            && var s := After(START, steps); s.point == AtPoll && s.pending == [f] && !Woken(s)
  {
    var s1 := Apply(START, OwnPush(f));
    var s2 := Apply(s1, OwnCheck);
    var s3 := Apply(s2, Enter);
    PrependStep(s3, Guard, []);
    PrependStep(s2, Enter, [Guard] + []);
    PrependStep(s1, OwnCheck, [Enter] + ([Guard] + []));
    PrependStep(START, OwnPush(f), [OwnCheck] + ([Enter] + ([Guard] + [])));
  }

  /** Functors run in push order, each at most once, and none is lost while it waits. */
  lemma PushOrder(steps: seq<Step>)
    requires IsRun(START, steps)
    ensures var s := After(START, steps);
            s.executed + s.batch + s.pending == s.pushed && s.executed <= s.pushed
  {
    RunKeepsInv(START, steps);
  }

  // Progress: what the loop thread does on its own once no producer is under way.

  function RunAll(n: nat): (steps: seq<Step>)
    ensures |steps| == n
  {
    if n == 0 then [] else [RunNext] + RunAll(n - 1)
  }

  lemma {:induction false} RunAllRuns(s: State)
    requires s.point == Running && !s.ownCheck
    ensures IsRun(s, RunAll(|s.batch|))
    ensures After(s, RunAll(|s.batch|)) == s.(batch := [], executed := s.executed + s.batch)
    decreases |s.batch|
  {
    if s.batch == [] {
      assert s.executed + s.batch == s.executed;
    } else {
      var s' := Apply(s, RunNext);
      RunAllRuns(s');
      assert RunAll(|s.batch|)[0] == RunNext && RunAll(|s.batch|)[1..] == RunAll(|s'.batch|);
      assert s'.executed + s'.batch == s.executed + s.batch;
    }
  }

  /** One turn of the loop. With nothing to wake it, poll returns when its timeout has passed. */
  function Round(s: State): seq<Step> {
    (if s.counter > 0 then [PollReturns(true), WakeRead] else [PollReturns(false)]) +
    ([HandlingDone, Swap] + (RunAll(|s.pending|) + [BatchDone]))
  }

  lemma BatchRuns(s: State)
    requires s.point == Running && !s.ownCheck
    ensures IsRun(s, RunAll(|s.batch|) + [BatchDone])
    ensures After(s, RunAll(|s.batch|) + [BatchDone]) ==
            s.(batch := [], executed := s.executed + s.batch, point := AtGuard, calling := false)
  {
    RunAllRuns(s);
    var s' := s.(batch := [], executed := s.executed + s.batch);
    PrependStep(s', BatchDone, []);
    assert [BatchDone] + [] == [BatchDone];
    RunAppend(s, RunAll(|s.batch|), [BatchDone]);
  }

  lemma HandledRuns(s: State)
    requires s.point == Handling(false) && !s.ownCheck && s.batch == []
    ensures var steps := [HandlingDone, Swap] + (RunAll(|s.pending|) + [BatchDone]);
            && IsRun(s, steps)
            && After(s, steps) == s.(batch := [], pending := [], early := 0, executed := s.executed + s.pending,
                                     point := AtGuard, calling := false)
  {
    var s1 := Apply(s, HandlingDone);
    var s2 := Apply(s1, Swap);
    var rest := RunAll(|s.pending|) + [BatchDone];
    BatchRuns(s2);
    PrependStep(s1, Swap, rest);
    PrependStep(s, HandlingDone, [Swap] + rest);
    assert [HandlingDone, Swap] + rest == [HandlingDone] + ([Swap] + rest);
  }

  lemma RoundRuns(s: State)
    requires s.point == AtPoll && !s.ownCheck && s.batch == []
    ensures IsRun(s, Round(s))
    ensures After(s, Round(s)) == s.(counter := 0, batch := [], pending := [], early := 0,
                                     executed := s.executed + s.pending, point := AtGuard, calling := false)
  {
    var rest := [HandlingDone, Swap] + (RunAll(|s.pending|) + [BatchDone]);
    if s.counter > 0 {
      var s1 := Apply(s, PollReturns(true));
      HandledRuns(Apply(s1, WakeRead));
      PrependStep(s1, WakeRead, rest);
      PrependStep(s, PollReturns(true), [WakeRead] + rest);
      assert Round(s) == [PollReturns(true)] + ([WakeRead] + rest);
    } else {
      HandledRuns(Apply(s, PollReturns(false)));
      PrependStep(s, PollReturns(false), rest);
    }
  }

  /** From every reachable poll with work or a quit request and no producer under way, one round executes everything
      that was pushed, and if quit was asked for, the loop ends there. The round starts at once, unless nothing is
      queued but what the loop's own thread queued outside loop(): then it may have to wait for poll's timeout. */
  lemma OneRoundDrains(steps: seq<Step>)
    requires IsRun(START, steps)
    requires var s := After(START, steps);
             s.point == AtPoll && (s.pending != [] || s.quit) && forall t :: ProducerAt(s, t) == Idle
    ensures var s := After(START, steps);
            && (s.counter > 0 || (|s.pending| == s.early && !s.quit))
            && IsRun(s, Round(s))
            && After(s, Round(s)).executed == s.pushed
            && After(s, Round(s)).pending == []
            && After(s, Round(s)).point == AtGuard
            && (s.quit ==> Apply(After(s, Round(s)), Guard).point == Outside)
  {
    RunKeepsInv(START, steps);
    NoLostWakeup(steps);
    RoundRuns(After(START, steps));
  }

  function Started(s: State): seq<Functor> {
    s.executed + s.batch
  }

  lemma StepGrows(s: State, step: Step)
    requires Inv(s) && Enabled(s, step)
    ensures Started(s) <= Started(Apply(s, step))
  {
    var s' := Apply(s, step);
    if step.RunNext? {
      assert s.batch == [s.batch[0]] + s.batch[1..];
      assert Started(s') == Started(s);
    } else if step.Swap? {
      assert s.batch == [];
    } else {
      assert s'.executed == s.executed && s'.batch == s.batch;
    }
  }

  lemma {:induction false} StartedWorkGrows(s: State, steps: seq<Step>)
    requires Inv(s) && IsRun(s, steps)
    ensures Started(s) <= Started(After(s, steps))
    decreases |steps|
  {
    if steps != [] {
      StepKeepsInv(s, steps[0]);
      StepGrows(s, steps[0]);
      StartedWorkGrows(Apply(s, steps[0]), steps[1..]);
    }
  }

  /** Whatever every thread does in between, a functor pushed before the loop takes a batch
      has been executed by the time that batch is finished. */
  lemma ServedByNextBatch(a: seq<Step>, b: seq<Step>)
    requires IsRun(START, a) && Enabled(After(START, a), Swap)
    requires IsRun(Apply(After(START, a), Swap), b)
    requires After(Apply(After(START, a), Swap), b).batch == []
    ensures After(START, a).pushed <= After(Apply(After(START, a), Swap), b).executed
  {
    RunKeepsInv(START, a);
    var s := After(START, a);
    StepKeepsInv(s, Swap);
    StartedWorkGrows(Apply(s, Swap), b);
    assert Started(Apply(s, Swap)) == s.pushed;
  }
}

/** The EventLoop object. Every method moves along the protocol, so the object is always in a reachable state. */
module EventLoopObject {
  import opened EventLoopProtocol

  /** What user code running on the loop thread can do to its own loop. */
  datatype Action = Queue(f: Functor) | AskQuit

  /** One return of poll: whether it reports the wake-up channel, and what the other callbacks do. */
  datatype PollResult = PollResult(wake: bool, before: seq<Action>, after: seq<Action>)

  // What a script of poll results and callbacks makes happen, as a fold that knows nothing of the loop's own code.

  function Queued(actions: seq<Action>): seq<Functor> {
    if actions == [] then []
    else
      var last := actions[|actions| - 1];
      Queued(actions[..|actions| - 1]) + if last.Queue? then [last.f] else []
  }

  function Actions(body: map<Functor, seq<Action>>, f: Functor): seq<Action> {
    if f in body then body[f] else []
  }

  /** What the functors of a batch queue, and whether one of them asks to quit. */
  function QueuedBy(batch: seq<Functor>, body: map<Functor, seq<Action>>): seq<Functor> {
    if batch == [] then []
    else QueuedBy(batch[..|batch| - 1], body) + Queued(Actions(body, batch[|batch| - 1]))
  }

  predicate QuitBy(batch: seq<Functor>, body: map<Functor, seq<Action>>) {
    exists i :: 0 <= i < |batch| && AskQuit in Actions(body, batch[i])
  }

  datatype Seen = Seen(executed: seq<Functor>, pending: seq<Functor>, quit: bool)

  /** The callbacks of the channels queue behind what is pending, and all of that is executed. */
  function AfterTurn(x: Seen, result: PollResult, body: map<Functor, seq<Action>>): Seen {
    var batch := x.pending + Queued(result.before) + Queued(result.after);
    Seen(x.executed + batch, QueuedBy(batch, body),
         x.quit || AskQuit in result.before || AskQuit in result.after || QuitBy(batch, body))
  }

  /** Turn after turn until one asks to quit. */
  function AfterScript(x: Seen, script: seq<PollResult>, body: map<Functor, seq<Action>>): Seen {
    if script == [] then x
    else
      var y := AfterScript(x, script[..|script| - 1], body);
      if y.quit then y else AfterTurn(y, script[|script| - 1], body)
  }

  lemma QueuedNext(actions: seq<Action>, i: nat)
    requires i < |actions|
    ensures Queued(actions[..i + 1]) == Queued(actions[..i]) + if actions[i].Queue? then [actions[i].f] else []
    ensures AskQuit in actions[..i + 1] <==> AskQuit in actions[..i] || actions[i] == AskQuit
  {
    assert actions[..i + 1] == actions[..i] + [actions[i]];
  }

  lemma BatchNext(batch: seq<Functor>, body: map<Functor, seq<Action>>, i: nat)
    requires i < |batch|
    ensures QueuedBy(batch[..i + 1], body) == QueuedBy(batch[..i], body) + Queued(Actions(body, batch[i]))
    ensures QuitBy(batch[..i + 1], body) <==> QuitBy(batch[..i], body) || AskQuit in Actions(body, batch[i])
  {
    var longer, shorter := batch[..i + 1], batch[..i];
    assert longer[..i] == shorter;
    assert forall k :: 0 <= k < i ==> longer[k] == shorter[k];
    assert longer[i] == batch[i];
  }

  lemma ScriptNext(x: Seen, script: seq<PollResult>, body: map<Functor, seq<Action>>, i: nat)
    requires i < |script| && !AfterScript(x, script[..i], body).quit
    ensures AfterScript(x, script[..i + 1], body) == AfterTurn(AfterScript(x, script[..i], body), script[i], body)
  {
    assert script[..i + 1][..i] == script[..i];
  }

  /** Once a turn has asked to quit, the rest of the script changes nothing. */
  lemma {:induction false} QuitEnds(x: Seen, script: seq<PollResult>, body: map<Functor, seq<Action>>, i: nat)
    requires i <= |script| && AfterScript(x, script[..i], body).quit
    ensures AfterScript(x, script, body) == AfterScript(x, script[..i], body)
    decreases |script| - i
  {
    if i == |script| {
      assert script[..i] == script;
    } else {
      assert script[..i + 1][..i] == script[..i];
      QuitEnds(x, script, body, i + 1);
    }
  }

  class EventLoop {
    var looping: bool
    var quit: bool
    var callingPendingFunctors: bool
    var pendingFunctors: seq<Functor>
    var wakeups: nat            // the kernel's eventfd counter
    ghost var at: State
    ghost var trace: seq<Step>

    ghost predicate Valid()
      reads this
    {
      && ReachedBy(at, trace)
      && at.quit == quit && at.calling == callingPendingFunctors
      && at.pending == pendingFunctors && at.counter == wakeups
    }

    constructor ()
      ensures Valid() && at == START && !looping
    {
      looping, quit, callingPendingFunctors := false, false, false;
      pendingFunctors, wakeups := [], 0;
      at, trace := START, [];
    }

    ghost method Advance(step: Step)
      requires ReachedBy(at, trace) && Enabled(at, step)
      modifies this`at, this`trace
      ensures ReachedBy(at, trace)
      ensures at == Apply(old(at), step) && trace == old(trace) + [step]
    {
      OneMoreStep(at, trace, step);
      trace := trace + [step];
      at := Apply(at, step);
    }

    method Wakeup()
      modifies this`wakeups
      ensures wakeups == old(wakeups) + 1
    {
      wakeups := wakeups + 1;
    }

    method HandleRead()
      requires Valid() && at.point == Handling(true) && !at.ownCheck
      modifies this`wakeups, this`at, this`trace
      ensures Valid() && wakeups == 0 && at == old(at).(point := Handling(false), counter := 0)
    {
      wakeups := 0;
      Advance(WakeRead);
    }

    /** Queues a functor from the loop thread, outside loop() or in a callback, or from producer t. */
    method QueueInLoop(cb: Functor, inLoopThread: bool, ghost t: Thread)
      requires Valid() && if inLoopThread then InUserCode(at) else ProducerAt(at, t) == Idle
      modifies this`pendingFunctors, this`wakeups, this`at, this`trace
      ensures Valid() && pendingFunctors == old(pendingFunctors) + [cb] && at.pushed == old(at).pushed + [cb]
      ensures wakeups == old(wakeups) + if !inLoopThread || callingPendingFunctors then 1 else 0
      ensures at.point == old(at).point && at.batch == old(at).batch && at.executed == old(at).executed
      ensures at.ownCheck == old(at).ownCheck && ProducerAt(at, t) == ProducerAt(old(at), t)
    {
      pendingFunctors := pendingFunctors + [cb];
      Advance(if inLoopThread then OwnPush(cb) else ForeignPush(t, cb));
      if !inLoopThread || callingPendingFunctors {
        Wakeup();
      }
      Advance(if inLoopThread then OwnCheck else ForeignWake(t));
    }

    method Quit(inLoopThread: bool, ghost t: Thread)
      requires Valid() && if inLoopThread then InUserCode(at) else ProducerAt(at, t) == Idle
      modifies this`quit, this`wakeups, this`at, this`trace
      ensures Valid() && quit
      ensures wakeups == old(wakeups) + if inLoopThread then 0 else 1
      ensures at.point == old(at).point && at.batch == old(at).batch && at.executed == old(at).executed
      ensures at.pushed == old(at).pushed && at.ownCheck == old(at).ownCheck
    {
      quit := true;
      Advance(if inLoopThread then OwnQuit else ForeignQuit(t));
      if !inLoopThread {
        Wakeup();
        Advance(ForeignWake(t));
      }
    }

    /** User code on the loop thread performs its actions, all of them and in order. */
    method RunCallback(actions: seq<Action>)
      requires Valid() && InUserCode(at)
      modifies this`pendingFunctors, this`wakeups, this`quit, this`at, this`trace
      ensures Valid() && at.point == old(at).point && !at.ownCheck
      ensures at.batch == old(at).batch && at.executed == old(at).executed
      ensures pendingFunctors == old(pendingFunctors) + Queued(actions)
      ensures at.pushed == old(at).pushed + Queued(actions)
      ensures quit <==> old(quit) || AskQuit in actions
      ensures wakeups == old(wakeups) + if callingPendingFunctors then |Queued(actions)| else 0
    {
      for i := 0 to |actions|
        invariant Valid() && InUserCode(at) && at.point == old(at).point
        invariant at.batch == old(at).batch && at.executed == old(at).executed
        invariant pendingFunctors == old(pendingFunctors) + Queued(actions[..i])
        invariant at.pushed == old(at).pushed + Queued(actions[..i])
        invariant quit <==> old(quit) || AskQuit in actions[..i]
        invariant wakeups == old(wakeups) + if callingPendingFunctors then |Queued(actions[..i])| else 0
      {
        QueuedNext(actions, i);
        match actions[i]
        case Queue(f) => QueueInLoop(f, true, 0);
        case AskQuit => Quit(true, 0);
      }
      assert actions[..|actions|] == actions;
    }

    /** Swaps the pending functors out. */
    method TakeBatch() returns (functors: seq<Functor>)
      requires Valid() && at.point == Handling(false) && !at.ownCheck
      modifies this`callingPendingFunctors, this`pendingFunctors, this`at, this`trace
      ensures Valid() && callingPendingFunctors && pendingFunctors == [] && functors == old(pendingFunctors)
      ensures InUserCode(at) && at.point == Running && at.batch == functors && at.executed == old(at).executed
    {
      callingPendingFunctors := true;
      Advance(HandlingDone);
      functors := pendingFunctors;
      pendingFunctors := [];
      Advance(Swap);
    }

    /** Executes the next functor of the batch. */
    method RunFunctor(actions: seq<Action>)
      requires Valid() && at.point == Running && !at.ownCheck && callingPendingFunctors && at.batch != []
      modifies this`pendingFunctors, this`wakeups, this`quit, this`at, this`trace
      ensures Valid() && at.point == Running && !at.ownCheck
      ensures at.batch == old(at).batch[1..] && at.executed == old(at).executed + [old(at).batch[0]]
      ensures at.executed + at.batch == old(at).executed + old(at).batch
      ensures pendingFunctors == old(pendingFunctors) + Queued(actions)
      ensures quit <==> old(quit) || AskQuit in actions
      ensures wakeups == old(wakeups) + |Queued(actions)|
    {
      assert at.batch == [at.batch[0]] + at.batch[1..];
      Advance(RunNext);
      RunCallback(actions);
    }

    /** Executes exactly the functors pending on entry, in order; what they queue waits for the next round. */
    method DoPendingFunctors(body: map<Functor, seq<Action>>)
      requires Valid() && at.point == Handling(false) && !at.ownCheck
      modifies this`callingPendingFunctors, this`pendingFunctors, this`wakeups, this`quit, this`at, this`trace
      ensures Valid() && at.point == AtGuard && !callingPendingFunctors && !at.ownCheck
      ensures at.executed == old(at).executed + old(pendingFunctors) && at.batch == []
      ensures pendingFunctors == QueuedBy(old(pendingFunctors), body)
      ensures quit <==> old(quit) || QuitBy(old(pendingFunctors), body)
      ensures pendingFunctors != [] ==> wakeups > 0
    {
      var functors := TakeBatch();
      for i := 0 to |functors|
        invariant Valid() && at.point == Running && !at.ownCheck && callingPendingFunctors
        invariant at.batch == functors[i..] && at.executed + at.batch == old(at).executed + functors
        invariant pendingFunctors == QueuedBy(functors[..i], body)
        invariant quit <==> old(quit) || QuitBy(functors[..i], body)
        invariant pendingFunctors != [] ==> wakeups > 0
      {
        BatchNext(functors, body, i);
        RunFunctor(Actions(body, functors[i]));
      }
      assert functors[..|functors|] == functors && at.executed + [] == at.executed;
      callingPendingFunctors := false;
      Advance(BatchDone);
    }

    /** Poll and the callbacks of the active channels. */
    method Dispatch(result: PollResult)
      requires Valid() && !quit && at.point == AtGuard && !at.ownCheck
      modifies this`pendingFunctors, this`wakeups, this`quit, this`at, this`trace
      ensures Valid() && at.point == Handling(false) && !at.ownCheck && at.executed == old(at).executed
      ensures pendingFunctors == old(pendingFunctors) + Queued(result.before) + Queued(result.after)
      ensures quit <==> AskQuit in result.before || AskQuit in result.after
    {
      Advance(Guard);
      var wake := result.wake && wakeups > 0;
      Advance(PollReturns(wake));
      RunCallback(result.before);
      if wake {
        HandleRead();
      }
      RunCallback(result.after);
    }

    ghost function View(): Seen
      reads this
    {
      Seen(at.executed, pendingFunctors, quit)
    }

    /** One turn of the loop: poll, the active channels' callbacks, then the pending functors. */
    method Turn(result: PollResult, body: map<Functor, seq<Action>>)
      requires Valid() && !quit && at.point == AtGuard && !at.ownCheck
      modifies this`callingPendingFunctors, this`pendingFunctors, this`wakeups, this`quit, this`at, this`trace
      ensures Valid() && at.point == AtGuard && !at.ownCheck
      ensures View() == AfterTurn(old(View()), result, body)
      ensures old(at).pushed <= at.executed && old(at).executed <= at.executed
    {
      RunKeepsInv(START, trace);
      assert at.executed + at.batch == at.executed;
      Dispatch(result);
      DoPendingFunctors(body);
    }

    /** The guard of loop() decides between leaving and the next poll. */
    ghost method LeaveOrPoll()
      requires Valid() && at.point == AtGuard
      modifies this`at, this`trace
      ensures Valid() && at == old(at).(point := if quit then Outside else AtPoll)
      ensures at.executed + pendingFunctors == at.pushed
      ensures !quit && |pendingFunctors| > at.early ==> Woken(at)
    {
      Advance(Guard);
      Settled(trace);
    }

    /** loop() over a finite script of poll results. It returns at quit; otherwise the script ends and the loop is in
        poll. What has been executed and what is left is what the script and the callbacks make of it, and work left
        over has its wake-up unless all of it was queued outside the loop by its own thread. */
    method Loop(script: seq<PollResult>, body: map<Functor, seq<Action>>)
      requires Valid() && !looping && at.point == Outside && !at.ownCheck
      modifies this
      ensures Valid() && !at.ownCheck && looping == !quit && at.point == if quit then Outside else AtPoll
      ensures View() == AfterScript(old(View()).(quit := false), script, body)
      ensures script != [] ==> old(at).pushed <= at.executed
      ensures at.executed + pendingFunctors == at.pushed
      ensures !quit && |pendingFunctors| > at.early ==> Woken(at)
    {
      ghost var x := View().(quit := false);
      looping := true;
      quit := false;
      Advance(Enter);
      var i := 0;
      while !quit && i < |script|
        invariant 0 <= i <= |script| && Valid() && at.point == AtGuard && !at.ownCheck
        invariant View() == AfterScript(x, script[..i], body)
        invariant if i == 0 then at.pushed == old(at).pushed && !quit else old(at).pushed <= at.executed
      {
        ScriptNext(x, script, body, i);
        Turn(script[i], body);
        i := i + 1;
      }
      if quit {
        QuitEnds(x, script, body, i);
      }
      assert i == |script| ==> script[..i] == script;
      LeaveOrPoll();
      looping := !quit;
    }
  }
}
