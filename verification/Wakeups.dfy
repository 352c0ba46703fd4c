/** The wake-ups of StartStop on the thread of TimedActions: messages put actions into a queue
    (Server::putTimedAction), the thread takes them from there one by one, first in first out,
    and performs the ones that it holds (src/abacusd.C:494-523, src/act_startstop.C).
 */
module Wakeups {
  import opened ContestClock
  import opened Options
  import S = StartStop
  import T = TimedActions

  /** The server, the thread and the queue between them. */
  datatype Both = Both(server: S.Server, thread: T.State, queue: seq<T.Action>)

  // ---------------------------------------------------------------- times of actions

  ghost function Times(a: multiset<T.Action>): multiset<nat>
    decreases |a|
  {
    if a == multiset{} then multiset{} else
      var x :| x in a;
      Times(a - multiset{x}) + multiset{x.time}
  }

  lemma {:induction false} TimesRemove(a: multiset<T.Action>, x: T.Action)
    requires x in a
    ensures Times(a) == Times(a - multiset{x}) + multiset{x.time}
    decreases |a|
  {
    var y :| y in a && Times(a) == Times(a - multiset{y}) + multiset{y.time};
    if y != x {
      RemoveBoth(a, x, y);
      TimesRemove(a - multiset{y}, x);
      TimesRemove(a - multiset{x}, y);
      AddBoth(Times(a - multiset{y} - multiset{x}), x.time, y.time);
    }
  }

  lemma RemoveBoth<A>(a: multiset<A>, x: A, y: A)
    requires x != y && x in a && y in a
    ensures x in a - multiset{y} && y in a - multiset{x}
    ensures a - multiset{y} - multiset{x} == a - multiset{x} - multiset{y}
  {
  }

  lemma AddBoth<A>(a: multiset<A>, x: A, y: A)
    ensures a + multiset{x} + multiset{y} == a + multiset{y} + multiset{x}
  {
  }

  lemma SnocBag<A>(w: seq<A>, n: nat)
    requires |w| == n + 1
    ensures multiset(w) == multiset(w[..n]) + multiset{w[n]}
  {
    assert w == w[..n] + [w[n]];
  }

  lemma AddOn<A>(a: multiset<A>, b: multiset<A>, c: multiset<A>)
    ensures a + b + c == a + (b + c)
  {
  }

  lemma TimesAdd(a: multiset<T.Action>, x: T.Action)
    ensures Times(a + multiset{x}) == Times(a) + multiset{x.time}
  {
    TimesRemove(a + multiset{x}, x);
    assert a + multiset{x} - multiset{x} == a;
  }

  lemma {:induction false} TimesAddAll(a: multiset<T.Action>, w: seq<T.Action>, times: seq<nat>)
    requires For(w, times)
    ensures Times(a + multiset(w)) == Times(a) + multiset(times)
    decreases |w|
  {
    if w == [] {
      assert times == [] && a + multiset(w) == a;
    } else {
      var n := |w| - 1;
      TimesAddAll(a, w[..n], times[..n]);
      TimesAdd(a + multiset(w[..n]), w[n]);
      SnocBag(w, n);
      SnocBag(times, n);
      AddOn(a, multiset(w[..n]), multiset{w[n]});
      AddOn(Times(a), multiset(times[..n]), multiset{times[n]});
    }
  }

  /** The times are exactly those of some of the actions. */
  lemma {:induction false} TimesOf(a: multiset<T.Action>, t: nat)
    ensures t in Times(a) <==> exists x :: x in a && x.time == t
    decreases |a|
  {
    if a != multiset{} {
      var y :| y in a;
      TimesRemove(a, y);
      TimesOf(a - multiset{y}, t);
      assert forall x :: x in a ==> x == y || x in a - multiset{y};
      assert forall x :: x in a - multiset{y} ==> x in a;
    }
  }

  // ---------------------------------------------------------------- steps

  /** New actions for the given times. */
  ghost predicate For(w: seq<T.Action>, times: seq<nat>) {
    |w| == |times| && forall i :: 0 <= i < |w| ==> w[i].time == times[i]
  }

  ghost predicate Boot(groups: seq<nat>, b: Both) {
    && S.Boot(groups, b.server) && b.thread == T.INITIAL
    && For(b.queue, S.GroupWakeups(groups, b.server.evs, b.server.duration, b.server.now)
                    + S.EventWakeups(b.server.evs, b.server.now))
  }

  ghost predicate Takes(b: Both, b': Both) {
    b.queue != [] && b' == Both(b.server, T.Accept(b.thread, b.queue[0]), b.queue[1..])
  }

  /** The thread performs its next action, due by a reading of the clock that may be old. */
  ghost predicate Performs(groups: seq<nat>, b: Both, b': Both) {
    && b'.queue == b.queue && b.thread.next.Some?
    && (exists reading: int :: reading <= b.server.now && T.PerformStep(b.thread, b'.thread, reading))
    && b'.server == S.PerformNext(groups, b.server, b.thread.next.value.time)
  }

  ghost predicate Receives(groups: seq<nat>, b: Both, b': Both, e: Event) {
    && 0 < b.server.duration && b'.server == S.Receive(groups, b.server, e) && b'.thread == b.thread
    && exists w :: b'.queue == b.queue + w
                   && For(w, S.Wakeups(groups, b'.server.evs, b.server.duration, e, b.server.now))
  }

  ghost predicate Next(groups: seq<nat>, b: Both, b': Both) {
    || (S.Tick(b.server, b'.server) && b' == b.(server := b'.server))
    || Takes(b, b')
    || Performs(groups, b, b')
    || exists e :: Receives(groups, b, b', e)
  }

  ghost function NextOf(groups: seq<nat>): (Both, Both) -> bool {
    (b, b') => Next(groups, b, b')
  }

  ghost predicate Link(next: (Both, Both) -> bool, bs: seq<Both>, i: nat)
    requires i < |bs| - 1
  {
    next(bs[i], bs[i + 1])
  }

  ghost predicate Chain(next: (Both, Both) -> bool, bs: seq<Both>) {
    forall i: nat :: i < |bs| - 1 ==> Link(next, bs, i)
  }

  lemma ChainSnoc(next: (Both, Both) -> bool, bs: seq<Both>, b: Both)
    requires bs != [] && Chain(next, bs) && next(bs[|bs| - 1], b)
    ensures Chain(next, bs + [b])
  {
    forall i: nat | i < |bs| ensures Link(next, bs + [b], i) {
      assert i < |bs| - 1 ==> Link(next, bs, i);
    }
  }

  /** What holds at first and every step keeps, holds all along. */
  lemma {:induction false} ChainKeeps(next: (Both, Both) -> bool, holds: Both -> bool, bs: seq<Both>, i: nat)
    requires Chain(next, bs) && i < |bs| && holds(bs[0])
    requires forall b, b' :: holds(b) && next(b, b') ==> holds(b')
    ensures holds(bs[i])
  {
    if i > 0 {
      ChainKeeps(next, holds, bs, i - 1);
      assert Link(next, bs, i - 1);
    }
  }

  ghost predicate Run(groups: seq<nat>, bs: seq<Both>) {
    bs != [] && Boot(groups, bs[0]) && Chain(NextOf(groups), bs)
  }

  lemma StepAt(groups: seq<nat>, bs: seq<Both>, i: nat)
    requires Run(groups, bs) && i < |bs| - 1
    ensures Next(groups, bs[i], bs[i + 1])
  {
    assert Link(NextOf(groups), bs, i);
  }

  // ---------------------------------------------------------------- the pending actions

  ghost function Waiting(b: Both): multiset<T.Action> {
    T.Held(b.thread) + multiset(b.queue)
  }

  /** What is pending is what the thread holds and what is queued for it. */
  ghost predicate Coupled(b: Both) {
    T.Inv(b.thread) && b.server.pending == Times(Waiting(b))
  }

  lemma BootCoupled(groups: seq<nat>, b: Both)
    requires Boot(groups, b)
    ensures Coupled(b)
  {
    var times := S.GroupWakeups(groups, b.server.evs, b.server.duration, b.server.now) + S.EventWakeups(b.server.evs, b.server.now);
    TimesAddAll(multiset{}, b.queue, times);
    assert Waiting(b) == multiset{} + multiset(b.queue);
  }

  lemma TakesWaiting(b: Both, b': Both)
    requires (b.thread.next.None? ==> b.thread.heap == multiset{}) && Takes(b, b')
    ensures Waiting(b') == Waiting(b)
  {
    var a, rest := b.queue[0], b.queue[1..];
    T.AcceptHeld(b.thread, a);
    HeadBag(b.queue, a, rest);
    AddOn(T.Held(b.thread), multiset{a}, multiset(rest));
  }

  lemma HeadBag<A>(w: seq<A>, a: A, rest: seq<A>)
    requires w == [a] + rest
    ensures multiset(w) == multiset{a} + multiset(rest)
  {
  }

  lemma TakesCoupled(b: Both, b': Both)
    requires Coupled(b) && Takes(b, b')
    ensures Coupled(b')
  {
    T.AcceptInv(b.thread, b.queue[0]);
    TakesWaiting(b, b');
  }

  lemma PerformsWaiting(b: Both, b': Both, reading: int)
    requires b'.queue == b.queue && T.PerformStep(b.thread, b'.thread, reading)
    ensures Waiting(b) == Waiting(b') + multiset{b.thread.next.value}
  {
    var a := b.thread.next.value;
    T.PerformHeld(b.thread, b'.thread, reading);
    MoveLast(T.Held(b'.thread), multiset{a}, multiset(b.queue));
  }

  lemma MoveLast<A>(a: multiset<A>, b: multiset<A>, c: multiset<A>)
    ensures a + b + c == a + c + b
  {
  }

  lemma PerformsCoupled(groups: seq<nat>, b: Both, b': Both)
    requires Coupled(b) && Performs(groups, b, b')
    ensures Coupled(b') && b.thread.next.value.time in b.server.pending && b.thread.next.value.time <= b.server.now
  {
    var a := b.thread.next.value;
    var reading: int :| reading <= b.server.now && T.PerformStep(b.thread, b'.thread, reading);
    assert T.Inv(b'.thread) by {
      T.PerformInv(b.thread, b'.thread, reading);
    }
    PerformsWaiting(b, b', reading);
    TimesAdd(Waiting(b'), a);
    AddedGone(Times(Waiting(b')), a.time);
  }

  lemma AddedGone<A>(a: multiset<A>, x: A)
    ensures a + multiset{x} - multiset{x} == a && x in a + multiset{x}
  {
  }

  lemma ReceivesCoupled(groups: seq<nat>, b: Both, b': Both, e: Event)
    requires Coupled(b) && Receives(groups, b, b', e)
    ensures Coupled(b')
  {
    var times := S.Wakeups(groups, b'.server.evs, b.server.duration, e, b.server.now);
    var w :| b'.queue == b.queue + w && For(w, times);
    TimesAddAll(Waiting(b), w, times);
    AddOn(T.Held(b.thread), multiset(b.queue), multiset(w));
  }

  /** Each step of the three together is a step of the server, with due actions performed in
      any order. */
  lemma NextServer(groups: seq<nat>, b: Both, b': Both)
    requires Coupled(b) && Next(groups, b, b')
    ensures Coupled(b') && S.Next(groups, b.server, b'.server)
  {
    if S.Tick(b.server, b'.server) && b' == b.(server := b'.server) {
    } else if Takes(b, b') {
      TakesCoupled(b, b');
      assert S.Tick(b.server, b'.server);
    } else if Performs(groups, b, b') {
      PerformsCoupled(groups, b, b');
      assert S.Performed(groups, b.server, b'.server);
    } else {
      var e :| Receives(groups, b, b', e);
      ReceivesCoupled(groups, b, b', e);
    }
  }

  ghost function Servers(bs: seq<Both>): (ss: seq<S.Server>)
    ensures |ss| == |bs| && forall i :: 0 <= i < |bs| ==> ss[i] == bs[i].server
  {
    seq(|bs|, i requires 0 <= i < |bs| => bs[i].server)
  }

  lemma RunCoupled(groups: seq<nat>, bs: seq<Both>, i: nat)
    requires Run(groups, bs) && i < |bs|
    ensures Coupled(bs[i])
  {
    var next, holds := NextOf(groups), (b: Both) => Coupled(b);
    BootCoupled(groups, bs[0]);
    forall b, b' | holds(b) && next(b, b') ensures holds(b') {
      NextServer(groups, b, b');
    }
    ChainKeeps(next, holds, bs, i);
  }

  lemma CoupledAt(groups: seq<nat>, bs: seq<Both>, i: nat)
    requires Run(groups, bs) && i < |bs| - 1 && Coupled(bs[i])
    ensures Coupled(bs[i + 1]) && S.Next(groups, bs[i].server, bs[i + 1].server)
  {
    StepAt(groups, bs, i);
    NextServer(groups, bs[i], bs[i + 1]);
  }

  /** What the thread does with the wake-ups is a run of the server, so everything proved of
      those runs holds of it. */
  lemma ThreadRunsServer(groups: seq<nat>, bs: seq<Both>)
    requires Run(groups, bs)
    ensures S.Run(groups, Servers(bs))
  {
    var ss := Servers(bs);
    forall i | 0 <= i < |ss| - 1 ensures S.Next(groups, ss[i], ss[i + 1]) {
      RunCoupled(groups, bs, i);
      CoupledAt(groups, bs, i);
    }
  }

  // ---------------------------------------------------------------- when the order is right

  ghost function Threads(bs: seq<Both>): (ts: seq<T.State>)
    ensures |ts| == |bs| && forall i :: 0 <= i < |bs| ==> ts[i] == bs[i].thread
  {
    seq(|bs|, i requires 0 <= i < |bs| => bs[i].thread)
  }

  lemma NextOrder(groups: seq<nat>, b: Both, b': Both)
    requires T.Inv(b.thread) && T.InOrder(b.thread) && T.TakenInTime(b.thread, b'.thread) && Next(groups, b, b')
    ensures T.InOrder(b'.thread)
  {
    if b'.thread != b.thread {
      if Takes(b, b') {
        assert T.NotBefore(b.thread.performed, b.queue[0]);
        T.AcceptOrder(b.thread, b.queue[0]);
      } else {
        var reading: int :| reading <= b.server.now && T.PerformStep(b.thread, b'.thread, reading);
        T.PerformOrder(b.thread, b'.thread, reading);
      }
    }
  }

  lemma {:induction false} RunOrder(groups: seq<nat>, bs: seq<Both>, j: nat)
    requires Run(groups, bs) && T.NoneLate(Threads(bs)) && j < |bs|
    ensures T.InOrder(bs[j].thread)
  {
    if j > 0 {
      RunOrder(groups, bs, j - 1);
      OrderKept(groups, bs, j - 1);
    }
  }

  lemma {:induction false} PerformedGrows(groups: seq<nat>, bs: seq<Both>, i: nat, j: nat)
    requires Run(groups, bs) && i <= j < |bs|
    ensures bs[i].thread.performed <= bs[j].thread.performed
    decreases j - i
  {
    if i < j {
      PerformedGrows(groups, bs, i, j - 1);
      GrowsAt(groups, bs, j - 1);
      PrefixOn(bs[i].thread.performed, bs[j - 1].thread.performed, bs[j].thread.performed);
    }
  }

  lemma GrowsAt(groups: seq<nat>, bs: seq<Both>, i: nat)
    requires Run(groups, bs) && i < |bs| - 1
    ensures bs[i].thread.performed <= bs[i + 1].thread.performed
  {
    StepAt(groups, bs, i);
    NextGrows(groups, bs[i], bs[i + 1]);
  }

  lemma NextGrows(groups: seq<nat>, b: Both, b': Both)
    requires Next(groups, b, b')
    ensures b.thread.performed <= b'.thread.performed
  {
  }

  lemma PrefixOn<A>(a: seq<A>, b: seq<A>, c: seq<A>)
    requires a <= b <= c
    ensures a <= c
  {
  }

  lemma OrderKept(groups: seq<nat>, bs: seq<Both>, j: nat)
    requires Run(groups, bs) && T.NoneLate(Threads(bs)) && j < |bs| - 1 && T.InOrder(bs[j].thread)
    ensures T.InOrder(bs[j + 1].thread)
  {
    RunCoupled(groups, bs, j);
    StepAt(groups, bs, j);
    assert T.TakenInTime(Threads(bs)[j], Threads(bs)[j + 1]);
    NextOrder(groups, bs[j], bs[j + 1]);
  }

  lemma {:induction false} TakenLater(groups: seq<nat>, bs: seq<Both>, i: nat, a: T.Action) returns (j: nat)
    requires Run(groups, bs) && i < |bs| && a in bs[i].queue && bs[|bs| - 1].queue == []
    ensures i <= j < |bs| - 1 && Takes(bs[j], bs[j + 1]) && bs[j].queue[0] == a
    decreases |bs| - i
  {
    var now := QueuedNext(groups, bs, i, a);
    if now {
      j := i;
    } else {
      j := TakenLater(groups, bs, i + 1, a);
    }
  }

  lemma QueuedNext(groups: seq<nat>, bs: seq<Both>, i: nat, a: T.Action) returns (now: bool)
    requires Run(groups, bs) && i < |bs| && a in bs[i].queue && bs[|bs| - 1].queue == []
    ensures i < |bs| - 1 && if now then Takes(bs[i], bs[i + 1]) && bs[i].queue[0] == a else a in bs[i + 1].queue
  {
    StepAt(groups, bs, i);
    now := Takes(bs[i], bs[i + 1]) && bs[i].queue[0] == a;
    if !now {
      StaysQueued(groups, bs[i], bs[i + 1], a);
    }
  }

  lemma StaysQueued(groups: seq<nat>, b: Both, b': Both, a: T.Action)
    requires Next(groups, b, b') && a in b.queue && !(Takes(b, b') && b.queue[0] == a)
    ensures a in b'.queue
  {
    assert Takes(b, b') ==> b.queue == [b.queue[0]] + b'.queue;
  }

  /** If no action is taken late, what the thread performs is the earliest of all that is
      pending, held or queued. */
  lemma PerformsFirst(groups: seq<nat>, bs: seq<Both>, i: nat)
    requires Run(groups, bs) && T.NoneLate(Threads(bs)) && bs[|bs| - 1].queue == []
    requires i < |bs| - 1 && Performs(groups, bs[i], bs[i + 1])
    ensures S.PerformedFirst(groups, bs[i].server, bs[i + 1].server)
  {
    var b := bs[i];
    var p := b.thread.next.value.time;
    RunCoupled(groups, bs, i);
    PerformsCoupled(groups, b, bs[i + 1]);
    forall q | q in b.server.pending ensures p <= q {
      TimesOf(Waiting(b), q);
      var x :| x in Waiting(b) && x.time == q;
      if x in T.Held(b.thread) {
        T.NextIsEarliest(b.thread);
      } else {
        QueuedIsLater(groups, bs, i, x);
      }
    }
    assert S.IsNext(b.server, p);
  }

  lemma QueuedIsLater(groups: seq<nat>, bs: seq<Both>, i: nat, x: T.Action)
    requires Run(groups, bs) && T.NoneLate(Threads(bs)) && bs[|bs| - 1].queue == []
    requires i < |bs| - 1 && Performs(groups, bs[i], bs[i + 1]) && x in bs[i].queue
    ensures bs[i].thread.next.value.time <= x.time
  {
    var j := TakenLater(groups, bs, i + 1, x);
    RunOrder(groups, bs, j);
    PerformedGrows(groups, bs, i + 1, j);
    assert T.TakenInTime(Threads(bs)[j], Threads(bs)[j + 1]);
    var before, log := bs[i + 1].thread.performed, bs[j].thread.performed;
    assert T.NotBefore(log, x);
    assert before[|before| - 1].0 == bs[i].thread.next.value && log[|before| - 1] == before[|before| - 1];
    assert T.Ordered(log);
  }

  /** A message about a time that has passed is handled only when no action is overdue. */
  ghost predicate Timely(groups: seq<nat>, bs: seq<Both>) {
    forall i, e :: 0 <= i < |bs| - 1 && Receives(groups, bs[i], bs[i + 1], e) ==>
      bs[i].server.now < e.time || S.CaughtUp(bs[i].server)
  }

  /** If the thread takes no action late and messages are timely, then, with the queue empty and
      nothing due, the states shown are the true ones. */
  lemma NoneLateShowsTheTruth(groups: seq<nat>, bs: seq<Both>)
    requires Run(groups, bs) && T.NoneLate(Threads(bs)) && Timely(groups, bs)
    requires bs[|bs| - 1].queue == [] && S.CaughtUp(bs[|bs| - 1].server)
    ensures S.Shown(groups, bs[|bs| - 1].server, bs[|bs| - 1].server.now)
  {
    var ss := Servers(bs);
    forall i | 0 <= i < |ss| - 1 ensures S.TimelyNext(groups, ss[i], ss[i + 1]) {
      NextTimely(groups, bs, i);
    }
    assert S.TimelyRun(groups, ss);
    S.RunsShowTheTruth(groups, ss);
  }

  lemma NextTimely(groups: seq<nat>, bs: seq<Both>, i: nat)
    requires Run(groups, bs) && T.NoneLate(Threads(bs)) && Timely(groups, bs) && bs[|bs| - 1].queue == [] && i < |bs| - 1
    ensures S.TimelyNext(groups, bs[i].server, bs[i + 1].server)
  {
    var b, b' := bs[i], bs[i + 1];
    StepAt(groups, bs, i);
    if S.Tick(b.server, b'.server) {
    } else if Performs(groups, b, b') {
      PerformsFirst(groups, bs, i);
    } else {
      var e :| Receives(groups, b, b', e);
      assert b.server.now < e.time || S.CaughtUp(b.server);
    }
  }

  // ---------------------------------------------------------------- a late action

  ghost predicate Reached(groups: seq<nat>, b: Both) {
    exists bs :: Run(groups, bs) && bs[|bs| - 1] == b
  }

  lemma ReachedNext(groups: seq<nat>, b: Both, b': Both)
    requires Reached(groups, b) && Next(groups, b, b')
    ensures Reached(groups, b')
  {
    var bs :| Run(groups, bs) && bs[|bs| - 1] == b;
    ChainSnoc(NextOf(groups), bs, b');
    assert Run(groups, bs + [b']);
  }

  /** A property that every step keeps. */
  ghost predicate Kept(groups: seq<nat>, r: Both -> bool) {
    forall b, b' {:trigger Next(groups, b, b')} :: r(b) && Next(groups, b, b') ==> r(b')
  }

  const START := Event(15, 0, Started)
  const STOP := Event(10, 0, Stopped)

  /** A group that runs from second 15 on has used up 100 seconds at 115. */
  lemma EndAt115(evs: seq<Event>, g: nat)
    requires forall s :: 0 <= s ==> (RunningAt(evs, g, s) <==> 15 <= s)
    ensures EndTime(evs, 100, g) == 115
  {
    SteadyStretch(evs, g, 0, 15, false);
    SteadyStretch(evs, g, 15, 115, true);
    SteadyStretch(evs, g, 115, 116, true);
    EndTimeReached(evs, 100, g, 115);
    EndTimeUnique(evs, 100, g, 115, EndTime(evs, 100, g));
  }

  lemma StartRuns(evs: seq<Event>, g: nat)
    requires evs == [START] || evs == [STOP, START]
    ensures EndTime(evs, 100, g) == 115
  {
    forall s | 0 <= s ensures RunningAt(evs, g, s) <==> 15 <= s {
      if 15 <= s {
        assert Latest(evs, g, s, |evs| - 1);
        RunningWhenLatest(evs, g, s, |evs| - 1);
      } else {
        assert forall i :: Latest(evs, g, s, i) ==> evs[i].action == Stopped;
      }
    }
    EndAt115(evs, g);
  }

  lemma EndWakeupsOne(g: nat, evs: seq<Event>, now: nat)
    requires EndTime(evs, 100, g) == 115 && now < 115
    ensures S.EndWakeups([g], evs, 100, 0, now) == [115]
  {
    assert [g][..0] == [];
    assert S.EndWakeups([], evs, 100, 0, now) == [];
  }

  /** A server without events, just started. */
  lemma EmptyBoot(g: nat) returns (b: Both)
    ensures Boot([g], b) && b.queue == [] && b.thread == T.INITIAL
    ensures b.server.evs == [] && b.server.duration == 100 && b.server.now == 5
  {
    S.NeverRuns([], g);
    EndTimeUnique([], 100, g, 0, EndTime([], 100, g));
    S.GroupWakeupsNext([g], 0, [], 100, 5);
    assert [g][..0] == [] && [g][..1] == [g] && S.EventWakeups([], 5) == [];
    b := Both(S.Server([], 100, S.Refresh(map[], [g], [], 100, 5), multiset{}, 5, 5), T.INITIAL, []);
  }

  /** The server hears of an event ahead, and queues it and the end time. */
  lemma Hears(g: nat, r: Both -> bool, b: Both, e: Event, evs: seq<Event>, w: seq<T.Action>) returns (b': Both)
    requires Kept([g], r) && r(b)
    requires b.server.duration == 100 && b.server.now < e.time && b.server.now < 115 && e.group == 0
    requires evs == Insert(b.server.evs, e) && EndTime(evs, 100, g) == 115
    requires |w| == 2 && w[0].time == e.time && w[1].time == 115
    ensures r(b') && b'.queue == b.queue + w && b'.thread == b.thread
    ensures b'.server.evs == evs && b'.server.duration == 100 && b'.server.now == b.server.now
  {
    EndWakeupsOne(g, evs, b.server.now);
    b' := Both(S.Receive([g], b.server, e), b.thread, b.queue + w);
    assert For(w, S.Wakeups([g], evs, 100, e, b.server.now));
    assert Receives([g], b, b', e);
    assert Next([g], b, b');
  }

  lemma Waits(g: nat, r: Both -> bool, b: Both) returns (b': Both)
    requires Kept([g], r) && r(b) && b.server.now <= 20
    ensures r(b') && b' == b.(server := b.server.(now := 20))
  {
    b' := b.(server := b.server.(now := 20));
    assert Next([g], b, b');
  }

  lemma Takes1(g: nat, r: Both -> bool, b: Both, a: T.Action, rest: seq<T.Action>) returns (b': Both)
    requires Kept([g], r) && r(b) && b.queue == [a] + rest
    ensures r(b') && b' == Both(b.server, T.Accept(b.thread, a), rest)
  {
    b' := Both(b.server, T.Accept(b.thread, a), rest);
    assert b.queue[1..] == rest;
    assert Next([g], b, b');
  }

  lemma Performs1(g: nat, r: Both -> bool, b: Both, thread: T.State) returns (b': Both)
    requires Kept([g], r) && r(b) && T.PerformStep(b.thread, thread, 20) && b.server.now == 20
    ensures r(b') && b'.thread == thread && b'.queue == b.queue
    ensures b'.server == S.PerformNext([g], b.server, b.thread.next.value.time)
  {
    b' := Both(S.PerformNext([g], b.server, b.thread.next.value.time), thread, b.queue);
    assert Performs([g], b, b');
    assert Next([g], b, b');
  }

  const A1 := T.Action(1, 15)
  const A2 := T.Action(2, 115)
  const A3 := T.Action(3, 10)
  const A4 := T.Action(4, 115)

  lemma LateHeard(g: nat, r: Both -> bool, b0: Both) returns (b: Both)
    requires Kept([g], r) && r(b0) && b0.queue == [] && b0.thread == T.INITIAL
    requires b0.server.evs == [] && b0.server.duration == 100 && b0.server.now == 5
    ensures r(b) && b.thread == T.INITIAL && b.queue == [A1] + ([A2] + ([A3] + ([A4] + [])))
    ensures b.server.evs == [STOP, START] && b.server.duration == 100 && b.server.now == 5
  {
    TwoInserted();
    StartRuns([START], g);
    StartRuns([STOP, START], g);
    var b1 := Hears(g, r, b0, START, [START], [A1, A2]);
    b := Hears(g, r, b1, STOP, [STOP, START], [A3, A4]);
  }

  lemma TwoInserted()
    ensures Insert([], START) == [START] && Insert([START], STOP) == [STOP, START]
  {
  }

  /** The thread performs the start before it takes the stop, which was queued after it. */
  lemma LatePerformed(g: nat, r: Both -> bool, b: Both) returns (b': Both)
    requires Kept([g], r) && r(b) && b.thread == T.INITIAL && b.queue == [A1] + ([A2] + ([A3] + ([A4] + [])))
    requires b.server.now == 20
    ensures r(b') && b'.queue == [A4] + [] && b'.thread.next == Some(A2) && b'.thread.heap == multiset{}
    ensures b'.server == S.PerformNext([g], S.PerformNext([g], b.server, 15), 10)
  {
    var b4 := Takes1(g, r, b, A1, [A2] + ([A3] + ([A4] + [])));
    var b5 := Performs1(g, r, b4, T.State(None, multiset{}, [(A1, 20)], b4.thread.accepted));
    var b6 := Takes1(g, r, b5, A2, [A3] + ([A4] + []));
    var b7 := Takes1(g, r, b6, A3, [A4] + []);
    var t8 := T.State(Some(A2), multiset{}, b7.thread.performed + [(A3, 20)], b7.thread.accepted);
    b' := Performs1(g, r, b7, t8);
  }

  /** A server hears at 5 of a start at 15 and then of a stop at 10, and its thread wakes up at
      20. It takes and performs 15 before it takes 10: the group is shown stopped although it is
      running, with nothing due and nothing queued. */
  lemma LateTakeLies(g: nat) returns (b: Both)
    ensures Reached([g], b) && b.queue == []
    ensures var s := b.server;
            && S.CaughtUp(s) && g in s.groupState && s.groupState[g] == Stopped
            && StatusAt(s.evs, s.duration, g, s.now) == Started
  {
    var r := (b: Both) => Reached([g], b);
    forall b, b' | r(b) && Next([g], b, b') ensures r(b') {
      ReachedNext([g], b, b');
    }
    var b0 := EmptyBoot(g);
    assert Run([g], [b0]);
    b := LateRun(g, r, b0);
    assert Reached([g], b);
    S.LateStatuses(g, b.server.evs);
    ReachedCoupled([g], b);
    NothingDue(b);
  }

  lemma LateRun(g: nat, r: Both -> bool, b0: Both) returns (b: Both)
    requires Kept([g], r) && r(b0) && b0.queue == [] && b0.thread == T.INITIAL
    requires b0.server.evs == [] && b0.server.duration == 100 && b0.server.now == 5
    ensures r(b) && b.queue == [] && T.Held(b.thread) == multiset{A2, A4}
    ensures b.server.evs == [STOP, START] && b.server.duration == 100 && b.server.now == 20
    ensures g in b.server.groupState && b.server.groupState[g] == StatusAt(b.server.evs, 100, g, 10)
  {
    var b2 := LateHeard(g, r, b0);
    var b3 := Waits(g, r, b2);
    var b8 := LatePerformed(g, r, b3);
    b := Takes1(g, r, b8, A4, []);
  }

  lemma ReachedCoupled(groups: seq<nat>, b: Both)
    requires Reached(groups, b)
    ensures Coupled(b)
  {
    var bs :| Run(groups, bs) && bs[|bs| - 1] == b;
    RunCoupled(groups, bs, |bs| - 1);
  }

  lemma NothingDue(b: Both)
    requires Coupled(b) && b.queue == [] && T.Held(b.thread) == multiset{A2, A4} && b.server.now == 20
    ensures S.CaughtUp(b.server)
  {
    forall p | p in b.server.pending ensures b.server.now < p {
      TimesOf(Waiting(b), p);
      assert Waiting(b) == multiset{A2, A4};
    }
  }
}
