/** Sorted timer lists: the ordered set of (expiration, timer) pairs of chaonet/include/TimerQueue.h. */
module TimerLists {
  import opened Buffers
  import opened Timers

  datatype Entry = Entry(when: Timestamp, timer: Timer)

  predicate Less(e: Entry, f: Entry) {
    e.when < f.when || (e.when == f.when && e.timer.address < f.timer.address)
  }

  predicate Sorted(s: seq<Entry>) {
    forall i, j :: 0 <= i < j < |s| ==> Less(s[i], s[j])
  }

  /** The number of entries below e. */
  function Position(s: seq<Entry>, e: Entry): (k: nat)
    ensures k <= |s|
    ensures forall i :: 0 <= i < k ==> Less(s[i], e)
    ensures k < |s| ==> !Less(s[k], e)
  {
    if s == [] || !Less(s[0], e) then 0 else 1 + Position(s[1..], e)
  }

  /** The number of entries strictly before now: lower_bound of the pair (now, nullptr). */
  function LowerBound(s: seq<Entry>, now: Timestamp): (k: nat)
    ensures k <= |s|
    ensures forall i :: 0 <= i < k ==> s[i].when < now
    ensures k < |s| ==> now <= s[k].when
  {
    if s == [] || now <= s[0].when then 0 else 1 + LowerBound(s[1..], now)
  }

  function Insert(s: seq<Entry>, e: Entry): seq<Entry> {
    var k := Position(s, e);
    s[..k] + [e] + s[k..]
  }

  function Erase(s: seq<Entry>, e: Entry): seq<Entry> {
    var k := Position(s, e);
    if k < |s| && s[k] == e then s[..k] + s[k + 1..] else s
  }

  lemma InsertKeepsSorted(s: seq<Entry>, e: Entry)
    requires Sorted(s)
    requires forall i :: 0 <= i < |s| ==> s[i].timer.address != e.timer.address
    ensures Sorted(Insert(s, e))
    ensures (set x | x in Insert(s, e)) == (set x | x in s) + {e}
    ensures Insert(s, e)[0] == if s == [] || Less(e, s[0]) then e else s[0]
  {
    var k, r := Position(s, e), Insert(s, e);
    forall i, j | 0 <= i < j < |r| ensures Less(r[i], r[j]) {
      if k < j && k < |s| {
        assert Less(e, s[k]);
      }
    }
    assert forall x :: x in s ==> x in s[..k] || x in s[k..];
    assert forall x :: x in r <==> x in s[..k] || x == e || x in s[k..];
  }

  lemma EraseKeepsSorted(s: seq<Entry>, e: Entry)
    requires Sorted(s) && e in s
    ensures Sorted(Erase(s, e)) && |Erase(s, e)| == |s| - 1
    ensures (set x | x in Erase(s, e)) == (set x | x in s) - {e}
    ensures Erase(s, e) != [] ==> s[0].when <= Erase(s, e)[0].when
  {
    var k, r := Position(s, e), Erase(s, e);
    var i :| 0 <= i < |s| && s[i] == e;
    assert i == k;
    assert forall x :: x in s <==> x in s[..k] || x == e || x in s[k + 1..];
    assert forall x :: x in r <==> x in s[..k] || x in s[k + 1..];
    assert e !in s[..k] && e !in s[k + 1..];
  }

  lemma {:induction false} SortedSize(s: seq<Entry>)
    requires Sorted(s)
    ensures |set x | x in s| == |s|
  {
    var all := set x | x in s;
    if s != [] {
      SortedSize(s[1..]);
      assert all == {s[0]} + set x | x in s[1..];
      assert s[0] !in s[1..];
    }
  }

  lemma TailIsLater(s: seq<Entry>, now: Timestamp)
    requires Sorted(s)
    ensures Sorted(s[LowerBound(s, now)..])
    ensures forall e :: e in s[LowerBound(s, now)..] <==> e in s && now <= e.when
  {
    var k := LowerBound(s, now);
    var t := s[k..];
    forall i | k <= i < |s| ensures now <= s[i].when {
      assert k < i ==> Less(s[k], s[i]);
    }
    forall i, j | 0 <= i < j < |t| ensures Less(t[i], t[j]) {
      assert t[i] == s[k + i] && t[j] == s[k + j];
    }
    forall e ensures e in t <==> e in s && now <= e.when {
      if e in s && now <= e.when {
        var i :| 0 <= i < |s| && s[i] == e;
        assert t[i - k] == e;
      }
    }
  }

  /** The debug check that follows lower_bound in getExpired holds exactly when no timer is due at now itself. */
  lemma StrictCheckFailsOnTies(s: seq<Entry>, now: Timestamp)
    requires Sorted(s)
    ensures LowerBound(s, now) == |s| || now < s[LowerBound(s, now)].when
            <==> forall i :: 0 <= i < |s| ==> s[i].when != now
  {
    var k := LowerBound(s, now);
    if k < |s| {
      assert forall i :: k < i < |s| ==> Less(s[k], s[i]);
    }
  }

  lemma StrictCheckWitness(t: Timer, now: Timestamp)
    ensures var s := [Entry(now, t)]; Sorted(s) && LowerBound(s, now) == 0 && !(now < s[0].when)
  {}

  // The set of active timers is ordered by address. Erasing an element yields the position after it.

  predicate ByAddress(s: seq<Timer>) {
    forall i, j :: 0 <= i < j < |s| ==> s[i].address < s[j].address
  }

  /** What set::erase returns: the element that followed, or end(). */
  function EraseNext(s: seq<Timer>, i: nat): Option<Timer>
    requires i < |s|
  {
    if i + 1 < |s| then Some(s[i + 1]) else None
  }

  /** The debug check that follows the erase in cancelInLoop holds exactly when some active timer has a higher address
      than the cancelled one; it fails for the last, so whenever the only active timer is cancelled. */
  lemma EraseCheckExactly(s: seq<Timer>, i: nat)
    requires ByAddress(s) && i < |s|
    ensures EraseNext(s, i).Some? <==> exists t :: t in s && s[i].address < t.address
  {
    if i + 1 < |s| {
      assert s[i + 1] in s;
    }
    assert forall j :: 0 <= j <= i ==> s[j].address <= s[i].address;
  }

  lemma EraseCheckWitness(t: Timer)
    ensures ByAddress([t]) && EraseNext([t], 0) == None
  {}
}

/** The timer descriptor: how an expiration becomes a relative request, and what that means for when it fires. */
module TimerArming {
  import opened Timers

  /** A moment as the kernel sees it: nothing requested, or a request made for the given expiration at the given clock
      reading that has not been consumed yet (it may already be readable), and the instant it is set to. */
  datatype TimerFd = Idle | Requested(target: Timestamp, clock: Timestamp, fires: Timestamp)

  datatype Timespec = Timespec(sec: int, nsec: int)

  function Micros(t: Timestamp): int {
    Trunc(t as real / 1000.0)
  }

  /** The requested delay in nanoseconds: whole microseconds, and at least one hundred of them. */
  function Delay(when: Timestamp, now: Timestamp): int {
    var us := Micros(when) - Micros(now);
    1000 * if us < 100 then 100 else us
  }

  /** The kernel was told the delay that howMuchTimeFromNow computes. */
  predicate Honest(fd: TimerFd) {
    fd.Requested? ==> fd.fires == fd.clock + Delay(fd.target, fd.clock)
  }

  function Later(a: Timestamp, b: Timestamp): Timestamp {
    if a < b then b else a
  }

  method HowMuchTimeFromNow(when: Timestamp, now: Timestamp) returns (ts: Timespec)
    ensures 0 <= ts.sec && 0 <= ts.nsec < 1_000_000_000
    ensures 1_000_000_000 * ts.sec + ts.nsec == Delay(when, now)
    ensures ts.sec > 0 || ts.nsec > 0
  {
    var microseconds := Micros(when) - Micros(now);
    if microseconds < 100 {
      microseconds := 100;
    }
    ts := Timespec(microseconds / 1_000_000, microseconds % 1_000_000 * 1000);
  }

  lemma MicrosIsFloor(t: Timestamp)
    requires 0 <= t
    ensures Micros(t) == t / 1000
  {
    var q := t / 1000;
    assert t as real / 1000.0 - q as real == (t % 1000) as real / 1000.0;
  }

  /** A request fires no later than its expiration exactly when that lies at least a hundred whole
      microseconds ahead and the clock reading has no larger sub-microsecond part; it is never late
      by more than that. */
  lemma FiresInTimeExactly(when: Timestamp, now: Timestamp)
    requires 0 <= now && 0 <= when
    ensures now + Delay(when, now) <= when <==> when / 1000 - now / 1000 >= 100 && now % 1000 <= when % 1000
    ensures when >= now ==> now + Delay(when, now) < when + 100_000 + 1
    ensures when / 1000 - now / 1000 >= 100 ==> when - 1000 < now + Delay(when, now) < when + 1000
  {
    MicrosIsFloor(when);
    MicrosIsFloor(now);
  }

  lemma MicrosIsNear(t: Timestamp)
    ensures 1000 * Micros(t) - 1000 < t < 1000 * Micros(t) + 1000
  {
    var x := t as real / 1000.0;
    assert 1000.0 * x == t as real;
    if x >= 0.0 {
      assert x.Floor as real <= x < x.Floor as real + 1.0;
      assert 1000.0 * x.Floor as real <= 1000.0 * x;
    } else {
      assert (-x).Floor as real <= -x < (-x).Floor as real + 1.0;
      assert 1000.0 * (-x).Floor as real <= 1000.0 * -x;
    }
  }

  /** No request fires more than a hundred microseconds after its expiration, or after the clock reading if that is
      later. */
  lemma FiresBy(when: Timestamp, now: Timestamp)
    ensures now + Delay(when, now) <= Later(when, now) + 100_000
  {
    MicrosIsNear(when);
    MicrosIsNear(now);
  }

  /** An expiration that is due already, one less than a hundred microseconds ahead, and one whose delay is cut to whole
      microseconds. */
  lemma FiresLateWitness(now: Timestamp)
    requires 0 <= now
    ensures now < now + Delay(now, now)
    ensures 100_001 < 1_002 + Delay(100_001, 1_002) && 200_001 < 1_002 + Delay(200_001, 1_002)
  {
    MicrosIsFloor(now);
    MicrosIsFloor(100_001);
    MicrosIsFloor(200_001);
    MicrosIsFloor(1_002);
  }
}

/** The timer queue object of chaonet/src/TimerQueue.cpp. */
module TimerQueues {
  import opened Timers
  import opened TimerSpec
  import opened TimerLists
  import opened TimerArming

  ghost predicate DistinctAddresses(ts: set<Timer>) {
    forall t, u :: t in ts && u in ts && t != u ==> t.address != u.address
  }

  /** The list and the map hold the same timers with the same due times. */
  ghost predicate Lists(s: seq<Entry>, a: Active) {
    && (forall i :: 0 <= i < |s| ==> s[i].timer in a && s[i].when == a[s[i].timer])
    && (forall t :: t in a ==> Entry(a[t], t) in s)
  }

  lemma ListsGrow(s: seq<Entry>, a: Active, e: Entry, r: seq<Entry>)
    requires Lists(s, a) && e.timer !in a
    requires forall x :: x in r <==> x in s || x == e
    ensures Lists(r, a[e.timer := e.when])
  {
    forall i | 0 <= i < |r| ensures r[i] == e || (r[i].timer in a && r[i].when == a[r[i].timer]) {
      assert r[i] in r;
    }
    assert e in r;
  }

  lemma InsertLists(s: seq<Entry>, a: Active, e: Entry)
    requires Sorted(s) && Lists(s, a) && e.timer !in a
    requires DistinctAddresses(a.Keys + {e.timer})
    ensures Sorted(Insert(s, e)) && Lists(Insert(s, e), a[e.timer := e.when])
  {
    forall i | 0 <= i < |s| ensures s[i].timer.address != e.timer.address {
      assert s[i].timer in a.Keys + {e.timer} && e.timer in a.Keys + {e.timer};
    }
    InsertKeepsSorted(s, e);
    forall x ensures x in Insert(s, e) <==> x in s || x == e {
      assert x in Insert(s, e) <==> x in (set y | y in Insert(s, e));
      assert x in s <==> x in (set y | y in s);
    }
    ListsGrow(s, a, e, Insert(s, e));
  }

  lemma EraseLists(s: seq<Entry>, a: Active, t: Timer)
    requires Sorted(s) && Lists(s, a) && t in a
    ensures var r := Erase(s, Entry(a[t], t)); Sorted(r) && Lists(r, a - {t})
  {
    var e := Entry(a[t], t);
    EraseKeepsSorted(s, e);
    var r := Erase(s, e);
    forall i | 0 <= i < |r| ensures r[i].timer != t && r[i].timer in a && r[i].when == a[r[i].timer] {
      assert r[i] in (set x | x in r);
    }
    forall u | u in a && u != t ensures Entry(a[u], u) in r {
      assert Entry(a[u], u) in (set x | x in s);
    }
  }

  /** How far a promise about the descriptor reaches: below a bound, or everywhere. */
  datatype Limit = Below(bound: Timestamp) | Everywhere

  predicate Within(when: Timestamp, limit: Limit) {
    limit.Everywhere? || when < limit.bound
  }

  /** Every listed timer within the limit is covered by a request made for no later an expiration. */
  predicate Covers(fd: TimerFd, s: seq<Entry>, limit: Limit) {
    forall i :: 0 <= i < |s| && Within(s[i].when, limit) ==> fd.Requested? && fd.target <= s[i].when
  }

  lemma TailLists(s: seq<Entry>, a: Active, now: Timestamp, fd: TimerFd)
    requires Sorted(s) && Lists(s, a)
    ensures var r := s[LowerBound(s, now)..];
            && Sorted(r) && Lists(r, a - Expired(a, now))
            && Covers(fd, r, Below(now))
  {
    TailIsLater(s, now);
    var r := s[LowerBound(s, now)..];
    assert forall i :: 0 <= i < |r| ==> r[i] in r;
  }

  function Batch(s: seq<Entry>, now: Timestamp): seq<Timer> {
    seq(LowerBound(s, now), i requires 0 <= i < LowerBound(s, now) => s[i].timer)
  }

  lemma {:induction false} ApplyOpsAppend(a: Active, x: seq<Op>, y: seq<Op>)
    ensures ApplyOps(a, x + y) == ApplyOps(ApplyOps(a, x), y)
  {
    if y == [] {
      assert x + y == x;
    } else {
      ApplyOpsAppend(a, x, y[..|y| - 1]);
      assert (x + y)[..|x + y| - 1] == x + y[..|y| - 1];
    }
  }

  lemma FreshAddsSplit(x: seq<Op>, y: seq<Op>, known: set<Timer>)
    requires FreshAdds(x + y, known)
    ensures FreshAdds(x, known) && FreshAdds(y, known + Added(x))
    ensures Added(x + y) == Added(x) + Added(y)
  {
    assert forall i :: 0 <= i < |x| ==> (x + y)[i] == x[i];
    assert forall i :: 0 <= i < |y| ==> (x + y)[|x| + i] == y[i];
  }

  lemma NextOp(ops: seq<Op>, i: nat, known: set<Timer>)
    requires i < |ops| && FreshAdds(ops, known)
    ensures ops[..i + 1] == ops[..i] + [ops[i]] && ops[..i + 1][..i] == ops[..i]
    ensures Added(ops[..i]) <= Added(ops) && Added(ops[..i + 1]) == Learn(Added(ops[..i]), ops[i])
    ensures ops[i].Add? ==> ops[i].timer in Added(ops) && ops[i].timer !in known + Added(ops[..i])
    ensures ops[i] in ops
  {
    assert ops[..i + 1] == ops[..i] + [ops[i]];
    AddedSplits(ops[..i + 1]);
    assert ops[..i + 1][..i] == ops[..i];
  }

  /** The repeating timers among ts that were not cancelled, due one interval after now. */
  function Restarted(ts: seq<Timer>, cancelled: set<Timer>, now: Timestamp): Active {
    map t | t in ts && t.repeat && t !in cancelled :: AddTime(now, t.interval)
  }

  lemma RestartedIsRearmed(ts: seq<Timer>, cancelled: set<Timer>, ops: seq<Op>, now: Timestamp)
    requires forall t :: t in ts ==> (t in cancelled <==> Cancel(t) in ops)
    ensures Restarted(ts, cancelled, now) == Rearmed(now, ts, ops)
  {}

  lemma UpdateLast<K, V>(m: map<K, V>, r: map<K, V>, k: K, v: V)
    ensures m + r[k := v] == (m + r)[k := v]
  {}

  lemma RestartedNext(ts: seq<Timer>, i: nat, cancelled: set<Timer>, now: Timestamp)
    requires i < |ts|
    ensures Restarted(ts[..i + 1], cancelled, now) ==
            if ts[i].repeat && ts[i] !in cancelled
            then Restarted(ts[..i], cancelled, now)[ts[i] := AddTime(now, ts[i].interval)]
            else Restarted(ts[..i], cancelled, now)
  {
    assert ts[..i + 1] == ts[..i] + [ts[i]];
  }

  lemma SmallerStaysDistinct(ts: set<Timer>, us: set<Timer>)
    requires DistinctAddresses(ts) && us <= ts
    ensures DistinctAddresses(us)
  {}

  lemma PrefixFacts(x: seq<Op>, y: seq<Op>, ops: seq<Op>, known: set<Timer>)
    requires x + y <= ops && FreshAdds(ops, known)
    ensures FreshAdds(y, known + Added(x))
    ensures Added(x + y) == Added(x) + Added(y) && Added(x + y) <= Added(ops)
    ensures forall i :: 0 <= i < |y| ==> y[i] == ops[|x| + i]
  {
    assert ops == (x + y) + ops[|x + y|..];
    FreshAddsSplit(x + y, ops[|x + y|..], known);
    FreshAddsSplit(x, y, known);
    assert forall i :: 0 <= i < |y| ==> y[i] == (x + y)[|x| + i];
  }

  lemma ScriptNext(batch: seq<Timer>, callbacks: map<Timer, seq<Op>>, i: nat)
    requires i < |batch|
    ensures Script(batch[..i + 1], callbacks) == Script(batch[..i], callbacks) + Body(callbacks, batch[i])
  {
    assert batch[..i + 1][..i] == batch[..i];
  }

  /** The script mentions no timer beyond those of the callbacks. */
  lemma {:induction false} ScriptIsAllocated(batch: seq<Timer>, callbacks: map<Timer, seq<Op>>)
    ensures forall i :: 0 <= i < |Script(batch, callbacks)| ==> allocated(Script(batch, callbacks)[i].timer)
  {
    if batch != [] {
      var last := batch[|batch| - 1];
      var body := if last in callbacks then callbacks[last] else [];
      ScriptIsAllocated(batch[..|batch| - 1], callbacks);
      assert forall i :: 0 <= i < |body| ==> allocated(body[i]);
    }
  }

  lemma {:induction false} ScriptPrefix(batch: seq<Timer>, callbacks: map<Timer, seq<Op>>, i: nat)
    requires i <= |batch|
    ensures Script(batch[..i], callbacks) <= Script(batch, callbacks)
    decreases |batch| - i
  {
    if i == |batch| {
      assert batch[..i] == batch;
    } else {
      ScriptNext(batch, callbacks, i);
      ScriptPrefix(batch, callbacks, i + 1);
    }
  }

  lemma ScriptStep(batch: seq<Timer>, callbacks: map<Timer, seq<Op>>, i: nat)
    requires i < |batch|
    ensures Script(batch[..i + 1], callbacks) == Script(batch[..i], callbacks) + Body(callbacks, batch[i])
    ensures Script(batch[..i], callbacks) + Body(callbacks, batch[i]) <= Script(batch, callbacks)
  {
    ScriptNext(batch, callbacks, i);
    ScriptPrefix(batch, callbacks, i + 1);
  }

  /** The next callback body of a script, given the part run that has been executed. */
  lemma NextBody(run: seq<Op>, body: seq<Op>, ops: seq<Op>, known: set<Timer>)
    requires run + body <= ops && FreshAdds(ops, known) && DistinctAddresses(known + Added(ops))
    ensures FreshAdds(body, known + Added(run)) && DistinctAddresses(known + Added(run) + Added(body))
    ensures Added(run + body) == Added(run) + Added(body)
    ensures forall i :: 0 <= i < |body| ==> body[i] == ops[|run| + i]
  {
    PrefixFacts(run, body, ops, known);
    SmallerStaysDistinct(known + Added(ops), known + Added(run) + Added(body));
  }

  /** The entries before lower_bound are the batch the specification asks for. */
  lemma BatchIsBatch(s: seq<Entry>, a: Active, now: Timestamp)
    requires Sorted(s)
    requires Lists(s, a)
    ensures IsBatch(a, now, Batch(s, now))
  {
    var k, b := LowerBound(s, now), Batch(s, now);
    assert forall i :: k < i < |s| ==> Less(s[k], s[i]);
    forall t | t in Expired(a, now) ensures t in b {
      var i :| 0 <= i < |s| && s[i] == Entry(a[t], t);
      assert b[i] == t;
    }
    forall i, j | 0 <= i < j < |b| ensures b[i] in a && b[j] in a && DueBefore(a, b[i], b[j]) {
      assert s[i] in s && s[j] in s && Less(s[i], s[j]);
    }
    forall t | t in b ensures t in Expired(a, now) {
      var i :| 0 <= i < |b| && b[i] == t;
      assert s[i] in s;
    }
  }

  lemma BatchFacts(a: Active, now: Timestamp, batch: seq<Timer>)
    requires IsBatch(a, now, batch)
    ensures (set t | t in batch) <= a.Keys && (a - Expired(a, now)).Keys == a.Keys - set t | t in batch
    ensures forall i, j :: 0 <= i < j < |batch| ==> batch[i] != batch[j]
  {
    assert (set t | t in batch) == Expired(a, now);
  }

  ghost function Pairs(a: Active): set<Entry> {
    set t | t in a :: Entry(a[t], t)
  }

  lemma {:induction false} OnePerTimer(a: Active)
    ensures |Pairs(a)| == |a.Keys|
    decreases a.Keys
  {
    if a.Keys != {} {
      var t :| t in a;
      OnePerTimer(a - {t});
      var b := a - {t};
      assert forall u :: u in b ==> b[u] == a[u] && Entry(b[u], u) in Pairs(a);
      assert forall u :: u in a ==> u == t || (u in b && Entry(b[u], u) in Pairs(b));
      assert Pairs(a) == Pairs(b) + {Entry(a[t], t)};
      assert a.Keys == b.Keys + {t};
    } else {
      assert Pairs(a) == {};
    }
  }

  lemma InsertFront(s: seq<Entry>, e: Entry)
    ensures Insert(s, e)[0] == if s == [] || Less(e, s[0]) || !Less(s[0], e) then e else s[0]
  {}

  /** An insertion that does not change the earliest entry needs no new request. */
  lemma InsertCovered(fd: TimerFd, s: seq<Entry>, e: Entry, limit: Limit)
    requires Sorted(s) && Covers(fd, s, limit)
    ensures Within(e.when, limit) && s != [] && s[0].when <= e.when ==> Covers(fd, Insert(s, e), limit)
    ensures !Within(e.when, limit) ==> Covers(fd, Insert(s, e), limit)
  {
    var r, k := Insert(s, e), Position(s, e);
    assert forall i :: 0 <= i < |r| ==> r[i] == if i < k then s[i] else if i == k then e else s[i - 1];
  }

  /** A request for an earliest entry covers the whole list. */
  lemma EarliestCovers(fd: TimerFd, s: seq<Entry>, limit: Limit)
    requires Sorted(s) && (s != [] ==> fd.Requested? && fd.target <= s[0].when)
    ensures Covers(fd, s, limit)
  {
    assert forall i :: 0 < i < |s| ==> Less(s[0], s[i]);
  }

  lemma EraseCovered(fd: TimerFd, s: seq<Entry>, e: Entry, limit: Limit)
    requires Covers(fd, s, limit)
    ensures Covers(fd, Erase(s, e), limit)
  {
    var r := Erase(s, e);
    assert forall i :: 0 <= i < |r| ==> r[i] == s[i] || (i + 1 < |s| && r[i] == s[i + 1]);
  }

  class TimerQueue {
    var timers: seq<Entry>
    var activeTimers: set<Timer>
    var cancelingTimers: set<Timer>
    var callingExpiredTimers: bool
    var timerfd: TimerFd

    ghost var due: Active   // when each active timer is due

    /** The ordered list and the set of active timers are two indexes of the same timers. */
    ghost predicate Valid()
      reads this, activeTimers
    {
      && due.Keys == activeTimers
      && (forall t :: t in activeTimers ==> t.expiration == due[t])
      && Sorted(timers) && Lists(timers, due) && DistinctAddresses(activeTimers) && Honest(timerfd)
    }

    ghost predicate Armed(limit: Limit)
      reads this
    {
      Covers(timerfd, timers, limit)
    }

    constructor ()
      ensures Valid() && Armed(Everywhere) && due == map[] && !callingExpiredTimers
    {
      timers, activeTimers, cancelingTimers := [], {}, {};
      callingExpiredTimers, timerfd, due := false, Idle, map[];
    }

    /** The size checks of the source hold whenever the two indexes agree. */
    lemma SizesAgree()
      requires Valid()
      ensures |timers| == |activeTimers|
    {
      SortedSize(timers);
      OnePerTimer(due);
      assert forall e :: e in timers ==> e in Pairs(due);
      assert (set e | e in timers) == Pairs(due);
    }

    /** The descriptor becomes readable no later than a hundred microseconds after the earliest expiration, or after the
        clock reading at which it was set if that is later. */
    lemma FiresForEarliest()
      requires Valid() && Armed(Everywhere) && timers != []
      ensures timerfd.Requested? && timerfd.fires <= Later(timers[0].when, timerfd.clock) + 100_000
    {
      FiresBy(timerfd.target, timerfd.clock);
    }

    method ResetTimerfd(expiration: Timestamp, clock: Timestamp)
      modifies this`timerfd
      ensures timerfd == Requested(expiration, clock, clock + Delay(expiration, clock))
    {
      var ts := HowMuchTimeFromNow(expiration, clock);
      timerfd := Requested(expiration, clock, clock + 1_000_000_000 * ts.sec + ts.nsec);
    }

    method InsertTimer(timer: Timer) returns (earliestChanged: bool)
      requires Valid() && timer !in activeTimers && DistinctAddresses(activeTimers + {timer})
      modifies this`timers, this`activeTimers, this`due
      ensures Valid() && due == old(due)[timer := timer.expiration]
      ensures timers == Insert(old(timers), Entry(timer.expiration, timer))
      ensures earliestChanged <==> old(timers) == [] || timer.expiration < old(timers)[0].when
    {
      var when := timer.expiration;
      earliestChanged := timers == [] || when < timers[0].when;
      InsertLists(timers, due, Entry(when, timer));
      timers := Insert(timers, Entry(when, timer));
      activeTimers := activeTimers + {timer};
      due := due[timer := when];
    }

    /** A timer that becomes the earliest re-arms the descriptor; the others are covered already. */
    method AddTimerInLoop(timer: Timer, clock: Timestamp, ghost limit: Limit)
      requires Valid() && timer !in activeTimers && DistinctAddresses(activeTimers + {timer})
      requires Armed(limit)
      modifies this`timers, this`activeTimers, this`timerfd, this`due
      ensures Valid() && due == ApplyOp(old(due), Add(timer, timer.expiration))
      ensures Armed(limit)
    {
      InsertCovered(timerfd, timers, Entry(timer.expiration, timer), limit);
      InsertFront(timers, Entry(timer.expiration, timer));
      var earliestChanged := InsertTimer(timer);
      if earliestChanged {
        ResetTimerfd(timer.expiration, clock);
        EarliestCovers(timerfd, timers, limit);
      }
    }

    /** Takes an active timer out of both indexes. */
    method EraseTimer(timer: Timer, ghost limit: Limit)
      requires Valid() && Armed(limit) && timer in activeTimers
      modifies this`timers, this`activeTimers, this`due
      ensures Valid() && due == old(due) - {timer} && activeTimers == old(activeTimers) - {timer}
      ensures Armed(limit)
    {
      SmallerStaysDistinct(activeTimers, activeTimers - {timer});
      EraseLists(timers, due, timer);
      EraseCovered(timerfd, timers, Entry(timer.expiration, timer), limit);
      timers := Erase(timers, Entry(timer.expiration, timer));
      activeTimers := activeTimers - {timer};
      due := due - {timer};
    }

    method CancelInLoop(timer: Timer, ghost limit: Limit)
      requires Valid() && Armed(limit)
      modifies this`timers, this`activeTimers, this`cancelingTimers, this`due
      ensures Valid() && due == ApplyOp(old(due), Cancel(timer))
      ensures cancelingTimers == old(cancelingTimers) +
              if timer !in old(activeTimers) && callingExpiredTimers then {timer} else {}
      ensures Armed(limit)
    {
      if timer in activeTimers {
        EraseTimer(timer, limit);
      } else {
        assert due - {timer} == due;
        if callingExpiredTimers {
          cancelingTimers := cancelingTimers + {timer};
        }
      }
    }

    method RunOp(op: Op, clock: Timestamp, ghost limit: Limit)
      requires Valid() && callingExpiredTimers && Armed(limit)
      requires op.Add? ==>
                 && op.timer !in activeTimers && DistinctAddresses(activeTimers + {op.timer})
                 && op.timer.expiration == op.when
      modifies this`timers, this`activeTimers, this`cancelingTimers, this`timerfd, this`due
      ensures Valid() && Armed(limit) && due == ApplyOp(old(due), op)
      ensures cancelingTimers == old(cancelingTimers) +
              if op.Cancel? && op.timer !in old(activeTimers) then {op.timer} else {}
    {
      match op
      case Add(t, when) => AddTimerInLoop(t, clock, limit);
      case Cancel(t) => CancelInLoop(t, limit);
    }

    /** One user callback, run in the middle of a batch. */
    method RunCallback(ops: seq<Op>, clock: Timestamp, ghost known: set<Timer>, ghost batch: set<Timer>,
        ghost limit: Limit)
      requires Valid() && callingExpiredTimers && Armed(limit)
      requires activeTimers <= known && batch <= known && batch !! activeTimers
      requires FreshAdds(ops, known) && DistinctAddresses(known + Added(ops))
      requires forall i :: 0 <= i < |ops| && ops[i].Add? ==> ops[i].timer.expiration == ops[i].when
      modifies this`timers, this`activeTimers, this`cancelingTimers, this`timerfd, this`due
      ensures Valid() && Armed(limit)
      ensures activeTimers <= known + Added(ops) && batch !! activeTimers
      ensures due == ApplyOps(old(due), ops)
      ensures forall t :: t in batch ==> (t in cancelingTimers <==> t in old(cancelingTimers) || Cancel(t) in ops)
    {
      for i := 0 to |ops|
        invariant Valid() && Armed(limit)
        invariant activeTimers <= known + Added(ops[..i]) && batch !! activeTimers
        invariant due == ApplyOps(old(due), ops[..i])
        invariant forall t :: t in batch ==>
                  (t in cancelingTimers <==> t in old(cancelingTimers) || Cancel(t) in ops[..i])
      {
        NextOp(ops, i, known);
        SmallerStaysDistinct(known + Added(ops), activeTimers + if ops[i].Add? then {ops[i].timer} else {});
        RunOp(ops[i], clock, limit);
      }
      assert ops[..|ops|] == ops;
    }

    method EraseActive(expired: seq<Timer>)
      modifies this`activeTimers
      ensures activeTimers == old(activeTimers) - set t | t in expired
    {
      for i := 0 to |expired|
        invariant activeTimers == old(activeTimers) - set t | t in expired[..i]
      {
        activeTimers := activeTimers - {expired[i]};
        assert expired[..i + 1] == expired[..i] + [expired[i]];
      }
      assert expired[..|expired|] == expired;
    }

    /** Takes the expired timers out of both indexes. */
    method GetExpired(now: Timestamp) returns (expired: seq<Timer>)
      requires Valid()
      modifies this`timers, this`activeTimers, this`due
      ensures Valid() && due == old(due) - Expired(old(due), now)
      ensures expired == Batch(old(timers), now) && IsBatch(old(due), now, expired)
      ensures forall i, j :: 0 <= i < j < |expired| ==> expired[i] != expired[j]
      ensures (set t | t in expired) <= old(activeTimers) && activeTimers == old(activeTimers) - set t | t in expired
      ensures Armed(Below(now))
    {
      BatchIsBatch(timers, due, now);
      TailLists(timers, due, now, timerfd);
      var k := LowerBound(timers, now);
      expired := Batch(timers, now);
      timers := timers[k..];
      BatchFacts(due, now, expired);
      due := due - Expired(due, now);
      EraseActive(expired);
    }

    method Rearm(timer: Timer, now: Timestamp)
      requires Valid() && 0 <= now && Armed(Below(now))
      requires timer.repeat && timer !in activeTimers && DistinctAddresses(activeTimers + {timer})
      modifies this`timers, this`activeTimers, this`due, timer`expiration
      ensures Valid() && Armed(Below(now))
      ensures due == old(due)[timer := AddTime(now, timer.interval)]
    {
      timer.Restart(now);
      PeriodIsForward(timer);
      InsertCovered(timerfd, timers, Entry(timer.expiration, timer), Below(now));
      var _ := InsertTimer(timer);
    }

    /** The epoch counts as a valid instant, so an empty list arms the descriptor too. */
    method ArmNext(clock: Timestamp)
      requires Valid() && Armed(Below(0))
      modifies this`timerfd
      ensures Valid() && Armed(Everywhere)
      ensures timers == [] ==> timerfd == Requested(INVALID, clock, clock + Delay(INVALID, clock))
    {
      var nextExpire := INVALID;
      if timers != [] {
        nextExpire := timers[0].timer.expiration;
      }
      if nextExpire >= 0 {
        ResetTimerfd(nextExpire, clock);
        EarliestCovers(timerfd, timers, Everywhere);
      }
      if timers != [] && timers[0].when < 0 {
        EarliestCovers(timerfd, timers, Everywhere);
      }
    }

    /** Re-arms the repeating timers of a batch that nobody cancelled, then the descriptor. */
    method Reset(expired: seq<Timer>, now: Timestamp, clock: Timestamp)
      requires Valid() && 0 <= now && Armed(Below(now))
      requires (set t | t in expired) !! activeTimers
      requires DistinctAddresses(activeTimers + set t | t in expired)
      requires forall i, j :: 0 <= i < j < |expired| ==> expired[i] != expired[j]
      modifies this`timers, this`activeTimers, this`timerfd, this`due, (set t | t in expired)`expiration
      ensures Valid() && Armed(Everywhere)
      ensures due == old(due) + Restarted(expired, cancelingTimers, now)
    {
      for i := 0 to |expired|
        invariant Valid() && Armed(Below(now))
        invariant activeTimers <= old(activeTimers) + set t | t in expired[..i]
        invariant due == old(due) + Restarted(expired[..i], cancelingTimers, now)
      {
        var t := expired[i];
        RestartedNext(expired, i, cancelingTimers, now);
        assert expired[..i + 1] == expired[..i] + [t];
        assert t !in expired[..i];
        if t.repeat && t !in cancelingTimers {
          SmallerStaysDistinct(old(activeTimers) + (set t | t in expired), activeTimers + {t});
          UpdateLast(old(due), Restarted(expired[..i], cancelingTimers, now), t, AddTime(now, t.interval));
          Rearm(t, now);
        }
      }
      assert expired[..|expired|] == expired;
      ArmNext(clock);
    }

    /** Runs the callbacks of a batch in order. */
    method RunBatch(expired: seq<Timer>, callbacks: map<Timer, seq<Op>>, clock: Timestamp, ghost known: set<Timer>,
        ghost now: Timestamp)
      requires Valid() && Armed(Below(now)) && callingExpiredTimers && cancelingTimers == {}
      requires activeTimers == known - set t | t in expired
      requires (set t | t in expired) <= known
      requires var ops := Script(expired, callbacks);
               && FreshAdds(ops, known) && DistinctAddresses(known + Added(ops))
               && forall i :: 0 <= i < |ops| && ops[i].Add? ==> ops[i].timer.expiration == ops[i].when
      modifies this`timers, this`activeTimers, this`cancelingTimers, this`timerfd, this`due
      ensures Valid() && Armed(Below(now))
      ensures activeTimers <= known + Added(Script(expired, callbacks)) && (set t | t in expired) !! activeTimers
      ensures due == ApplyOps(old(due), Script(expired, callbacks))
      ensures forall t :: t in expired ==> (t in cancelingTimers <==> Cancel(t) in Script(expired, callbacks))
    {
      ghost var start, ops, run := due, Script(expired, callbacks), [];
      ghost var batch := set t | t in expired;
      ScriptIsAllocated(expired, callbacks);
      for i := 0 to |expired|
        invariant Valid() && Armed(Below(now))
        invariant forall k :: 0 <= k < |ops| && ops[k].Add? ==> ops[k].timer.expiration == ops[k].when
        invariant run == Script(expired[..i], callbacks)
        invariant activeTimers <= known + Added(run) && batch !! activeTimers
        invariant due == ApplyOps(start, run)
        invariant forall t :: t in batch ==> (t in cancelingTimers <==> Cancel(t) in run)
      {
        ghost var body := Body(callbacks, expired[i]);
        ScriptStep(expired, callbacks, i);
        NextBody(run, body, ops, known);
        ApplyOpsAppend(start, run, body);
        RunCallback(Body(callbacks, expired[i]), clock, known + Added(run), batch, Below(now));
        run := run + body;
      }
      assert expired[..|expired|] == expired;
    }

    method RunExpired(expired: seq<Timer>, callbacks: map<Timer, seq<Op>>, clock: Timestamp, ghost known: set<Timer>,
        ghost now: Timestamp)
      requires Valid() && Armed(Below(now))
      requires activeTimers == known - set t | t in expired
      requires (set t | t in expired) <= known
      requires var ops := Script(expired, callbacks);
               && FreshAdds(ops, known) && DistinctAddresses(known + Added(ops))
               && forall i :: 0 <= i < |ops| && ops[i].Add? ==> ops[i].timer.expiration == ops[i].when
      modifies this`timers, this`activeTimers, this`cancelingTimers, this`callingExpiredTimers, this`timerfd, this`due
      ensures Valid() && Armed(Below(now)) && !callingExpiredTimers
      ensures (set t | t in expired) !! activeTimers && DistinctAddresses(activeTimers + set t | t in expired)
      ensures due == ApplyOps(old(due), Script(expired, callbacks))
      ensures Restarted(expired, cancelingTimers, now) == Rearmed(now, expired, Script(expired, callbacks))
    {
      callingExpiredTimers := true;
      cancelingTimers := {};
      ghost var ops := Script(expired, callbacks);
      ScriptIsAllocated(expired, callbacks);
      RunBatch(expired, callbacks, clock, known, now);
      callingExpiredTimers := false;
      RestartedIsRearmed(expired, cancelingTimers, ops, now);
      SmallerStaysDistinct(known + Added(ops), activeTimers + set t | t in expired);
    }

    /** The batch of one firing, once it has left both indexes: its callbacks, then the re-arming. */
    method FireBatch(ran: seq<Timer>, now: Timestamp, callbacks: map<Timer, seq<Op>>, clock: Timestamp,
        ghost known: set<Timer>)
      requires Valid() && Armed(Below(now)) && 0 <= now
      requires activeTimers == known - (set t | t in ran) && (set t | t in ran) <= known
      requires forall i, j :: 0 <= i < j < |ran| ==> ran[i] != ran[j]
      requires var ops := Script(ran, callbacks);
               && FreshAdds(ops, known) && DistinctAddresses(known + Added(ops))
               && forall i :: 0 <= i < |ops| && ops[i].Add? ==> ops[i].timer.expiration == ops[i].when
      modifies this, (set t | t in ran)`expiration
      ensures Valid() && Armed(Everywhere) && !callingExpiredTimers
      ensures due == ApplyOps(old(due), Script(ran, callbacks)) + Rearmed(now, ran, Script(ran, callbacks))
    {
      RunExpired(ran, callbacks, clock, known, now);
      Reset(ran, now, clock);
    }

    /** One firing with arbitrary callbacks. `readable` says whether the descriptor had really expired. */
    method HandleRead(now: Timestamp, readable: bool, callbacks: map<Timer, seq<Op>>, clock: Timestamp)
        returns (ran: seq<Timer>)
      requires Valid() && !callingExpiredTimers && 0 <= now
      requires var ops := Script(Batch(timers, now), callbacks);
               && FreshAdds(ops, activeTimers) && DistinctAddresses(activeTimers + Added(ops))
               && forall i :: 0 <= i < |ops| && ops[i].Add? ==> ops[i].timer.expiration == ops[i].when
      modifies this, activeTimers`expiration
      ensures Valid() && Armed(Everywhere) && !callingExpiredTimers
      ensures IsBatch(old(due), now, ran)
      ensures due == AfterFire(old(due), now, ran, callbacks)
    {
      ghost var known := activeTimers;
      if readable {
        timerfd := Idle;
      }
      ghost var ops := Script(Batch(timers, now), callbacks);
      ScriptIsAllocated(Batch(timers, now), callbacks);
      ran := GetExpired(now);
      assert ops == Script(ran, callbacks);
      FireBatch(ran, now, callbacks, clock, known);
    }
  }
}
