/** The timed-action thread (src/abacusd.C).

    The thread holds one action in `next` and the others in a heap whose top is an earliest
    one. It performs `next` while it is due, then waits for a new action until the next one
    becomes due. The heap is kept as a multiset: which of several equally early actions is on
    top is left open.
 */
module TimedActions {
  import opened Options

  datatype Action = Action(id: int, time: nat)

  /** What the thread has accepted, holds and has performed (with the clock reading). */
  datatype State = State(next: Option<Action>, heap: multiset<Action>,
                         performed: seq<(Action, int)>, accepted: multiset<Action>)

  const INITIAL := State(None, multiset{}, [], multiset{})

  function Held(s: State): multiset<Action> {
    s.heap + if s.next.Some? then multiset{s.next.value} else multiset{}
  }

  function Actions(log: seq<(Action, int)>): multiset<Action> {
    if log == [] then multiset{} else Actions(log[..|log| - 1]) + multiset{log[|log| - 1].0}
  }

  ghost predicate IsTop(heap: multiset<Action>, m: Action) {
    m in heap && forall a :: a in heap ==> m.time <= a.time
  }

  lemma TopExists(heap: multiset<Action>) returns (m: Action)
    requires heap != multiset{}
    ensures IsTop(heap, m)
    decreases |heap|
  {
    var x :| x in heap;
    var rest := heap - multiset{x};
    if rest == multiset{} {
      m := x;
      assert forall a :: a in heap ==> a == x || a in rest;
    } else {
      m := TopExists(rest);
      assert forall a :: a in heap ==> a == x || a in rest;
      if x.time < m.time {
        m := x;
      }
    }
  }

  // ---------------------------------------------------------------- steps

  ghost predicate PerformStep(s: State, s': State, now: int) {
    && s.next.Some? && s.next.value.time <= now
    && s'.performed == s.performed + [(s.next.value, now)]
    && s'.accepted == s.accepted
    && (if s.heap == multiset{} then s'.next == None && s'.heap == s.heap
        else s'.next.Some? && IsTop(s.heap, s'.next.value) && s'.heap == s.heap - multiset{s'.next.value})
  }

  function Accept(s: State, a: Action): State {
    var s := s.(accepted := s.accepted + multiset{a});
    if s.next.None? then s.(next := Some(a))
    else if a.time < s.next.value.time then s.(next := Some(a), heap := s.heap + multiset{s.next.value})
    else s.(heap := s.heap + multiset{a})
  }

  // ---------------------------------------------------------------- the thread

  /** Every step performs one due action. */
  ghost predicate Performs(steps: seq<State>, now: int) {
    steps != [] && forall i :: 0 <= i < |steps| - 1 ==> PerformStep(steps[i], steps[i + 1], now)
  }

  lemma PerformsSnoc(steps: seq<State>, s: State, now: int)
    requires Performs(steps, now) && PerformStep(steps[|steps| - 1], s, now)
    ensures Performs(steps + [s], now)
  {
  }

  class TimedActionThread {
    ghost var log: seq<(Action, int)>
    ghost var taken: multiset<Action>
    var heap: multiset<Action>
    var next: Option<Action>

    ghost function View(): State
      reads this
    {
      State(next, heap, log, taken)
    }

    constructor ()
      ensures View() == INITIAL
    {
      heap, next, log, taken := multiset{}, None, [], multiset{};
    }

    /** The inner loop: performs everything that is due at clock reading `now`. */
    method RunDue(now: int) returns (ghost steps: seq<State>)
      modifies this
      ensures Performs(steps, now) && steps[0] == old(View()) && steps[|steps| - 1] == View()
      ensures next.None? || now < next.value.time
    {
      steps := [View()];
      while next.Some? && next.value.time <= now
        invariant Performs(steps, now) && steps[0] == old(View()) && steps[|steps| - 1] == View()
        decreases |heap|, next.Some?
      {
        PerformOne(now);
        PerformsSnoc(steps, View(), now);
        steps := steps + [View()];
      }
    }

    method PerformOne(now: int)
      requires next.Some? && next.value.time <= now
      modifies this
      ensures PerformStep(old(View()), View(), now)
      ensures old(|heap|) == 0 ==> |heap| == 0 && next.None?
      ensures old(|heap|) != 0 ==> |heap| < old(|heap|)
    {
      log := log + [(next.value, now)];
      if heap == multiset{} {
        next := None;
      } else {
        ghost var top := TopExists(heap);
        var m :| m in heap && forall a :: a in heap ==> m.time <= a.time;
        next := Some(m);
        heap := heap - multiset{m};
      }
    }

    /** Takes an action from the queue; `None` is a wait that timed out. */
    method TakeOne(tmp: Option<Action>)
      modifies this
      ensures View() == if tmp.Some? then Accept(old(View()), tmp.value) else old(View())
    {
      if tmp.Some? {
        taken := taken + multiset{tmp.value};
        if next.Some? {
          var rest := tmp.value;
          if rest.time < next.value.time {
            var earlier := rest;
            rest, next := next.value, Some(earlier);
          }
          heap := heap + multiset{rest};
        } else {
          next := tmp;
        }
      }
    }
  }

  // ---------------------------------------------------------------- every run

  ghost predicate Next(s: State, s': State) {
    (exists now :: PerformStep(s, s', now)) || (exists a :: s' == Accept(s, a))
  }

  ghost predicate Run(ss: seq<State>) {
    ss != [] && ss[0] == INITIAL && forall i :: 0 <= i < |ss| - 1 ==> Next(ss[i], ss[i + 1])
  }

  ghost predicate Inv(s: State) {
    && (s.next.None? ==> s.heap == multiset{})
    && (s.next.Some? ==> forall a :: a in s.heap ==> s.next.value.time <= a.time)
    && s.accepted == Actions(s.performed) + Held(s)
    && forall i :: 0 <= i < |s.performed| ==> s.performed[i].0.time <= s.performed[i].1
  }

  lemma PerformInv(s: State, s': State, now: int)
    requires Inv(s) && PerformStep(s, s', now)
    ensures Inv(s') && Held(s) == Held(s') + multiset{s.next.value}
    ensures forall a :: a in Held(s) ==> s.next.value.time <= a.time
  {
    PerformHeld(s, s', now);
    PerformTop(s, s', now);
    assert s'.accepted == Actions(s'.performed) + Held(s') by {
      ActionsSnoc(s.performed, s.next.value, now);
      MoveOne(Actions(s.performed), Held(s'), s.next.value);
    }
  }

  lemma MoveOne(log: multiset<Action>, held: multiset<Action>, a: Action)
    ensures log + (held + multiset{a}) == log + multiset{a} + held
  {
  }

  lemma PerformTop(s: State, s': State, now: int)
    requires Inv(s) && PerformStep(s, s', now)
    ensures s'.next.None? ==> s'.heap == multiset{}
    ensures s'.next.Some? ==> forall a :: a in s'.heap ==> s'.next.value.time <= a.time
    ensures forall a :: a in Held(s) ==> s.next.value.time <= a.time
  {
    assert forall a :: a in s'.heap ==> a in s.heap;
  }

  lemma PerformHeld(s: State, s': State, now: int)
    requires PerformStep(s, s', now)
    ensures Held(s) == Held(s') + multiset{s.next.value}
  {
  }

  lemma ActionsSnoc(log: seq<(Action, int)>, a: Action, now: int)
    ensures Actions(log + [(a, now)]) == Actions(log) + multiset{a}
  {
    assert (log + [(a, now)])[..|log|] == log;
  }

  lemma AcceptHeld(s: State, a: Action)
    requires s.next.None? ==> s.heap == multiset{}
    ensures Held(Accept(s, a)) == Held(s) + multiset{a}
  {
  }

  lemma AcceptInv(s: State, a: Action)
    requires Inv(s)
    ensures Inv(Accept(s, a)) && Held(Accept(s, a)) == Held(s) + multiset{a}
  {
    AcceptHeld(s, a);
    var s' := Accept(s, a);
    assert s'.accepted == s.accepted + multiset{a} && s'.performed == s.performed;
    assert forall b :: b in s'.heap ==> s'.next.value.time <= b.time;
  }

  /** In every run no action is performed early, and every accepted action is performed
      exactly once or still held; what is performed next is an earliest held action. */
  lemma {:induction false} RunsLoseNothing(ss: seq<State>)
    requires Run(ss)
    ensures Inv(ss[|ss| - 1])
    ensures forall a :: ss[|ss| - 1].next == Some(a) ==> forall b :: b in Held(ss[|ss| - 1]) ==> a.time <= b.time
  {
    RunInv(ss);
    NextIsEarliest(ss[|ss| - 1]);
  }

  lemma {:induction false} RunInv(ss: seq<State>)
    requires Run(ss)
    ensures Inv(ss[|ss| - 1])
  {
    if |ss| > 1 {
      RunInit(ss);
      RunInv(ss[..|ss| - 1]);
      NextInv(ss[|ss| - 2], ss[|ss| - 1]);
    }
  }

  lemma NextInv(s: State, s': State)
    requires Inv(s) && Next(s, s')
    ensures Inv(s')
  {
    if now :| PerformStep(s, s', now) {
      PerformInv(s, s', now);
    } else {
      var a :| s' == Accept(s, a);
      AcceptInv(s, a);
    }
  }

  lemma NextIsEarliest(s: State)
    requires Inv(s)
    ensures forall a :: s.next == Some(a) ==> forall b :: b in Held(s) ==> a.time <= b.time
  {
  }

  // ---------------------------------------------------------------- order of performance

  ghost predicate NotBefore(log: seq<(Action, int)>, a: Action) {
    log == [] || log[|log| - 1].0.time <= a.time
  }

  ghost predicate Ordered(log: seq<(Action, int)>) {
    forall i, j :: 0 <= i < j < |log| ==> log[i].0.time <= log[j].0.time
  }

  /** Performed in time order so far, and bound to go on that way with what is held. */
  ghost predicate InOrder(s: State) {
    Ordered(s.performed) && forall a :: a in Held(s) ==> NotBefore(s.performed, a)
  }

  lemma OrderedSnoc(log: seq<(Action, int)>, a: Action, now: int)
    ensures Ordered(log + [(a, now)]) <==> Ordered(log) && NotBefore(log, a)
  {
    var log' := log + [(a, now)];
    assert forall i :: 0 <= i < |log| ==> log'[i] == log[i];
    assert log'[|log|] == (a, now);
    if Ordered(log') && log != [] {
      assert log'[|log| - 1].0.time <= log'[|log|].0.time;
    }
  }

  lemma PerformOrder(s: State, s': State, now: int)
    requires Inv(s) && PerformStep(s, s', now)
    ensures InOrder(s') <==> InOrder(s)
  {
    PerformInv(s, s', now);
    OrderedSnoc(s.performed, s.next.value, now);
    assert s.next.value in Held(s);
    assert forall b :: b in Held(s') ==> b in Held(s);
  }

  lemma AcceptOrder(s: State, a: Action)
    requires Inv(s)
    ensures InOrder(Accept(s, a)) <==> InOrder(s) && NotBefore(s.performed, a)
  {
    AcceptInv(s, a);
    assert Accept(s, a).performed == s.performed;
    assert forall b :: b in Held(Accept(s, a)) <==> b in Held(s) || b == a;
  }

  /** An action arrives late when a later one has been performed before it was taken. */
  ghost predicate TakenInTime(s: State, s': State) {
    forall a :: s' == Accept(s, a) ==> NotBefore(s.performed, a)
  }

  lemma AcceptedWhich(s: State, a: Action, b: Action)
    requires Accept(s, a) == Accept(s, b)
    ensures a == b
  {
    assert Accept(s, a).accepted == s.accepted + multiset{a};
    assert Accept(s, b).accepted == s.accepted + multiset{b};
    assert multiset{a} == s.accepted + multiset{a} - s.accepted;
    assert a in multiset{b};
  }

  lemma PerformTakesNothing(s: State, s': State, now: int, a: Action)
    requires PerformStep(s, s', now)
    ensures s' != Accept(s, a)
  {
    assert |s'.performed| == |s.performed| + 1;
  }

  ghost predicate NoneLate(ss: seq<State>) {
    forall i :: 0 <= i < |ss| - 1 ==> TakenInTime(ss[i], ss[i + 1])
  }

  lemma NoneLateSnoc(ss: seq<State>)
    requires |ss| > 1
    ensures NoneLate(ss) <==> NoneLate(ss[..|ss| - 1]) && TakenInTime(ss[|ss| - 2], ss[|ss| - 1])
  {
    var init := ss[..|ss| - 1];
    if NoneLate(init) && TakenInTime(ss[|ss| - 2], ss[|ss| - 1]) {
      forall i | 0 <= i < |ss| - 1 ensures TakenInTime(ss[i], ss[i + 1]) {
        if i < |ss| - 2 {
          assert TakenInTime(init[i], init[i + 1]);
        }
      }
    }
  }

  lemma RunInit(ss: seq<State>)
    requires Run(ss) && |ss| > 1
    ensures Run(ss[..|ss| - 1]) && Next(ss[|ss| - 2], ss[|ss| - 1])
  {
  }

  /** Actions are performed in time order exactly when none arrives late. */
  lemma {:induction false} OrderedExactlyWhenNoneLate(ss: seq<State>)
    requires Run(ss)
    ensures InOrder(ss[|ss| - 1]) <==> NoneLate(ss)
  {
    if |ss| > 1 {
      var init := ss[..|ss| - 1];
      RunInit(ss);
      OrderedExactlyWhenNoneLate(init);
      RunInv(init);
      NoneLateSnoc(ss);
      StepOrder(init[|init| - 1], ss[|ss| - 1]);
    }
  }

  lemma StepOrder(s: State, s': State)
    requires Inv(s) && Next(s, s')
    ensures InOrder(s') <==> InOrder(s) && TakenInTime(s, s')
  {
    if now :| PerformStep(s, s', now) {
      PerformOrder(s, s', now);
      forall a ensures s' != Accept(s, a) {
        PerformTakesNothing(s, s', now, a);
      }
    } else {
      var a :| s' == Accept(s, a);
      AcceptOrder(s, a);
      assert TakenInTime(s, s') <==> NotBefore(s.performed, a) by {
        forall b ensures Accept(s, b) == s' ==> b == a {
          if Accept(s, b) == s' {
            AcceptedWhich(s, a, b);
          }
        }
      }
    }
  }

  /** An action for time 5 that arrives after the one for time 10 was performed is performed
      after it. */
  lemma LateActionBreaksOrder() returns (ss: seq<State>)
    ensures Run(ss) && !NoneLate(ss) && !Ordered(ss[|ss| - 1].performed)
  {
    var a, b := Action(1, 10), Action(2, 5);
    var s1 := Accept(INITIAL, a);
    var s2 := State(None, multiset{}, [(a, 10)], s1.accepted);
    var s3 := Accept(s2, b);
    var s4 := State(None, multiset{}, [(a, 10), (b, 11)], s3.accepted);
    ss := [INITIAL, s1, s2, s3, s4];
    assert PerformStep(s1, s2, 10) && PerformStep(s3, s4, 11);
    forall i | 0 <= i < |ss| - 1 ensures Next(ss[i], ss[i + 1]) {
      assert i == 0 || i == 1 || i == 2 || i == 3;
    }
    var log := s4.performed;
    assert log[0].0.time > log[1].0.time;
    assert !InOrder(s4);
    OrderedExactlyWhenNoneLate(ss);
  }
}
