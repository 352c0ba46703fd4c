/** Start/stop messages and the wake-ups they schedule (src/act_startstop.C).

    A `StartStopAction` for time p, when performed, refreshes the recorded state of every
    group to its status at p. The class models the code; the step system below it models a
    server's life: time passes, due actions are performed earliest first, messages arrive.
    The set of groups is fixed.
 */
module StartStop {
  import opened ContestClock

  // ---------------------------------------------------------------- what the code computes

  ghost function Refresh(state: map<nat, Status>, groups: seq<nat>, evs: seq<Event>, duration: nat, time: nat)
    : (r: map<nat, Status>)
    ensures forall g :: g in r <==> g in state || g in groups
    ensures forall g :: g in groups ==> r[g] == StatusAt(evs, duration, g, time)
    ensures forall g :: g in state && g !in groups ==> r[g] == state[g]
  {
    map g | g in state.Keys + (set x | x in groups) ::
      if g in groups then StatusAt(evs, duration, g, time) else state[g]
  }

  /** The implicit stop times that a message queues: one per distinct end time still ahead. */
  ghost function EndWakeups(groups: seq<nat>, evs: seq<Event>, duration: nat, group: nat, now: nat): (w: seq<nat>)
    requires 0 < duration
    ensures forall p :: p in w ==> now < p
    ensures forall g :: g in groups && (group == 0 || group == g) && now < EndTime(evs, duration, g) ==>
              EndTime(evs, duration, g) in w
  {
    if groups == [] then [] else
      var n := |groups| - 1;
      var w := EndWakeups(groups[..n], evs, duration, group, now);
      var g := groups[n];
      assert groups == groups[..n] + [g];
      var end := EndTime(evs, duration, g);
      if (group == 0 || group == g) && now < end && end !in w then w + [end] else w
  }

  ghost predicate EndsAt(groups: seq<nat>, evs: seq<Event>, duration: nat, group: nat, g: nat, p: nat)
    requires 0 < duration
  {
    g in groups && (group == 0 || group == g) && p == EndTime(evs, duration, g)
  }

  /** A message queues exactly the end times, still ahead, of the groups it concerns, each once. */
  lemma {:induction false} EndWakeupsExact(groups: seq<nat>, evs: seq<Event>, duration: nat, group: nat, now: nat, p: nat)
    requires 0 < duration
    ensures var w := EndWakeups(groups, evs, duration, group, now);
            && (p in w <==> now < p && exists g :: EndsAt(groups, evs, duration, group, g, p))
            && (forall i, j :: 0 <= i < j < |w| ==> w[i] != w[j])
  {
    if groups != [] {
      var n := |groups| - 1;
      var init, last := groups[..n], groups[n];
      assert groups == init + [last];
      EndWakeupsExact(init, evs, duration, group, now, p);
      if g :| EndsAt(init, evs, duration, group, g, p) {
        assert EndsAt(groups, evs, duration, group, g, p);
      }
      if g :| EndsAt(groups, evs, duration, group, g, p) {
        assert g != last ==> EndsAt(init, evs, duration, group, g, p);
      }
      if p == EndTime(evs, duration, last) && (group == 0 || group == last) {
        assert EndsAt(groups, evs, duration, group, last, p);
      }
    }
  }

  ghost function Wakeups(groups: seq<nat>, evs: seq<Event>, duration: nat, e: Event, now: nat): seq<nat>
    requires 0 < duration
  {
    (if now < e.time then [e.time] else []) + EndWakeups(groups, evs, duration, e.group, now)
  }

  ghost function GroupWakeups(groups: seq<nat>, evs: seq<Event>, duration: nat, now: nat): (w: seq<nat>)
    requires 0 < duration
    ensures forall p :: p in w ==> now < p
    ensures forall g :: g in groups && now < EndTime(evs, duration, g) ==> EndTime(evs, duration, g) in w
  {
    if groups == [] then [] else
      var n := |groups| - 1;
      var g := groups[n];
      assert groups == groups[..n] + [g];
      var end := EndTime(evs, duration, g);
      GroupWakeups(groups[..n], evs, duration, now) + if now < end then [end] else []
  }

  function EventWakeups(evs: seq<Event>, now: nat): (w: seq<nat>)
    ensures forall p :: p in w ==> now < p
    ensures forall i :: 0 <= i < |evs| && now < evs[i].time ==> evs[i].time in w
  {
    if evs == [] then [] else
      var n := |evs| - 1;
      assert evs == evs[..n] + [evs[n]];
      EventWakeups(evs[..n], now) + if now < evs[n].time then [evs[n].time] else []
  }

  // ---------------------------------------------------------------- the code

  function StateOf(state: map<nat, Status>, g: nat): Status {
    if g in state then state[g] else Stopped
  }

  /** Exactly the groups whose state changed are notified, each of its new state. */
  ghost predicate Notices(notified: seq<(nat, Status)>, groups: seq<nat>, before: map<nat, Status>, after: map<nat, Status>) {
    && (forall g :: g in groups ==> g in after)
    && (forall g, st :: (g, st) in notified ==> g in groups && st == after[g] && st != StateOf(before, g))
    && (forall g :: g in groups && after[g] != StateOf(before, g) ==> (g, after[g]) in notified)
  }

  lemma NoticeOne(notified: seq<(nat, Status)>, groups: seq<nat>, g: nat, before: map<nat, Status>, after: map<nat, Status>, st: Status)
    requires Notices(notified, groups, before, after)
    requires if g in groups then after[g] == st else StateOf(after, g) == StateOf(before, g)
    ensures Notices(if StateOf(after, g) != st then notified + [(g, st)] else notified, groups + [g], before, after[g := st])
  {
  }

  lemma NoticeNext(notified: seq<(nat, Status)>, groups: seq<nat>, g: nat, before: map<nat, Status>, state: map<nat, Status>,
                   evs: seq<Event>, duration: nat, time: nat)
    requires state == Refresh(before, groups, evs, duration, time) && Notices(notified, groups, before, state)
    ensures var st := StatusAt(evs, duration, g, time);
            Notices(if StateOf(state, g) != st then notified + [(g, st)] else notified, groups + [g], before, state[g := st])
  {
    NoticeOne(notified, groups, g, before, state, StatusAt(evs, duration, g, time));
  }

  class StartStopModule {
    const timer: TimerSupport
    const groups: seq<nat>
    var timedQueue: seq<nat>

    constructor (timer: TimerSupport, groups: seq<nat>)
      ensures this.timer == timer && this.groups == groups && timedQueue == []
    {
      this.timer, this.groups, timedQueue := timer, groups, [];
    }

    /** Refreshes every group; `notified` lists the state changes told to clients. */
    method Perform(time: nat) returns (notified: seq<(nat, Status)>)
      requires timer.Valid() && 0 < time
      modifies timer`groupState
      ensures timer.groupState == Refresh(old(timer.groupState), groups, timer.evlist, timer.duration, time)
      ensures Notices(notified, groups, old(timer.groupState), timer.groupState)
    {
      notified := [];
      ghost var before := timer.groupState;
      for i := 0 to |groups|
        invariant timer.groupState == Refresh(before, groups[..i], timer.evlist, timer.duration, time)
        invariant Notices(notified, groups[..i], before, timer.groupState)
      {
        RefreshOne(before, groups, i, timer.evlist, timer.duration, time);
        NoticeNext(notified, groups[..i], groups[i], before, timer.groupState, timer.evlist, timer.duration, time);
        assert groups[..i + 1] == groups[..i] + [groups[i]];
        notified := PerformGroup(groups[i], time, notified);
      }
      assert groups[..|groups|] == groups;
    }

    method PerformGroup(g: nat, time: nat, notified: seq<(nat, Status)>) returns (r: seq<(nat, Status)>)
      requires timer.Valid() && 0 < time
      modifies timer`groupState
      ensures var st := StatusAt(timer.evlist, timer.duration, g, time);
              && timer.groupState == old(timer.groupState)[g := st]
              && r == if StateOf(old(timer.groupState), g) != st then notified + [(g, st)] else notified
    {
      var oldState, newState := timer.UpdateGroupState(g, time, time);
      r := if oldState != newState then notified + [(g, newState)] else notified;
    }

    /** MsgStartStop::int_process. `dbOk` says whether the event row could be stored. */
    method IntProcess(e: Event, now: nat, dbOk: bool) returns (res: bool)
      requires timer.Valid() && 0 < now
      modifies timer`evlist, timer`groupState, this`timedQueue
      ensures timer.Valid() && res == dbOk
      ensures !dbOk ==> timer.evlist == old(timer.evlist) && timer.groupState == old(timer.groupState)
                        && timedQueue == old(timedQueue)
      ensures dbOk ==> timer.evlist == Insert(old(timer.evlist), e)
      ensures dbOk ==> timedQueue == old(timedQueue) + Wakeups(groups, timer.evlist, timer.duration, e, now)
      ensures dbOk && now < e.time ==> timer.groupState == old(timer.groupState)
      ensures dbOk && e.time <= now ==>
                timer.groupState == Refresh(old(timer.groupState), groups, timer.evlist, timer.duration, now)
    {
      var future := e.time > now;
      res := timer.ScheduleStartStop(e.group, e.time, e.action, dbOk);
      if !res {
        return;
      }
      if future {
        timedQueue := timedQueue + [e.time];
      } else {
        var notified := Perform(now);
      }
      QueueEnds(e.group, now);
    }

    /** Queues a wake-up at the implicit stop of each affected group, once per second. */
    method QueueEnds(group: nat, now: nat)
      requires timer.Valid()
      modifies this`timedQueue
      ensures timedQueue == old(timedQueue) + EndWakeups(groups, timer.evlist, timer.duration, group, now)
    {
      var done: set<nat> := {};
      ghost var queued: seq<nat> := [];
      for i := 0 to |groups|
        invariant queued == EndWakeups(groups[..i], timer.evlist, timer.duration, group, now)
        invariant done == set p | p in queued
        invariant timedQueue == old(timedQueue) + queued
      {
        assert groups[..i + 1][..i] == groups[..i];
        if group == 0 || group == groups[i] {
          var end := timer.ContestEndTime(groups[i]);
          if end > now {
            if end !in done {
              done := done + {end};
              timedQueue := timedQueue + [end];
              queued := queued + [end];
            }
          }
        }
      }
      assert groups[..|groups|] == groups;
    }

    method InitialiseEvents(now: nat)
      requires timer.Valid() && 0 < now
      modifies timer`groupState, this`timedQueue
      ensures timer.groupState == Refresh(old(timer.groupState), groups, timer.evlist, timer.duration, now)
      ensures timedQueue == old(timedQueue) + GroupWakeups(groups, timer.evlist, timer.duration, now)
                            + EventWakeups(timer.evlist, now)
    {
      InitialiseGroups(now);
      QueueEvents(now);
    }

    method InitialiseGroups(now: nat)
      requires timer.Valid() && 0 < now
      modifies timer`groupState, this`timedQueue
      ensures timer.groupState == Refresh(old(timer.groupState), groups, timer.evlist, timer.duration, now)
      ensures timedQueue == old(timedQueue) + GroupWakeups(groups, timer.evlist, timer.duration, now)
    {
      ghost var before, queue := timer.groupState, timedQueue;
      for i := 0 to |groups|
        invariant timer.groupState == Refresh(before, groups[..i], timer.evlist, timer.duration, now)
        invariant timedQueue == queue + GroupWakeups(groups[..i], timer.evlist, timer.duration, now)
      {
        RefreshOne(before, groups, i, timer.evlist, timer.duration, now);
        GroupWakeupsNext(groups, i, timer.evlist, timer.duration, now);
        InitialiseGroup(groups[i], now);
      }
      assert groups[..|groups|] == groups;
    }

    method InitialiseGroup(g: nat, now: nat)
      requires timer.Valid() && 0 < now
      modifies timer`groupState, this`timedQueue
      ensures timer.groupState == old(timer.groupState)[g := StatusAt(timer.evlist, timer.duration, g, now)]
      ensures var end := EndTime(timer.evlist, timer.duration, g);
              timedQueue == old(timedQueue) + if now < end then [end] else []
    {
      var oldState, newState := timer.UpdateGroupState(g, now, now);
      var end := timer.ContestEndTime(g);
      if end > now {
        timedQueue := timedQueue + [end];
      }
    }

    method QueueEvents(now: nat)
      modifies this`timedQueue
      ensures timedQueue == old(timedQueue) + EventWakeups(timer.evlist, now)
    {
      for i := 0 to |timer.evlist|
        invariant timedQueue == old(timedQueue) + EventWakeups(timer.evlist[..i], now)
      {
        assert timer.evlist[..i + 1][..i] == timer.evlist[..i];
        if timer.evlist[i].time > now {
          timedQueue := timedQueue + [timer.evlist[i].time];
        }
      }
      assert timer.evlist[..|timer.evlist|] == timer.evlist;
    }
  }

  lemma RefreshOne(state: map<nat, Status>, groups: seq<nat>, i: nat, evs: seq<Event>, duration: nat, time: nat)
    requires i < |groups|
    ensures Refresh(state, groups[..i + 1], evs, duration, time) ==
            Refresh(state, groups[..i], evs, duration, time)[groups[i] := StatusAt(evs, duration, groups[i], time)]
  {
    assert groups[..i + 1] == groups[..i] + [groups[i]];
  }

  // ---------------------------------------------------------------- runs of a server

  /** `pending` holds the times of the actions not yet performed; `served` remembers the time
      up to which the recorded group states were brought. */
  datatype Server = Server(evs: seq<Event>, duration: nat, groupState: map<nat, Status>,
                           pending: multiset<nat>, now: nat, served: nat)

  ghost predicate CaughtUp(s: Server) {
    forall p :: p in s.pending ==> s.now < p
  }

  ghost predicate Boot(groups: seq<nat>, s: Server) {
    && Sorted(s.evs) && 0 < s.duration && s.served == s.now
    && s.groupState == Refresh(map[], groups, s.evs, s.duration, s.now)
    && s.pending == multiset(GroupWakeups(groups, s.evs, s.duration, s.now) + EventWakeups(s.evs, s.now))
  }

  ghost predicate Tick(s: Server, s': Server) {
    s.now <= s'.now && s' == s.(now := s'.now)
  }

  ghost predicate IsNext(s: Server, p: nat) {
    p in s.pending && p <= s.now && forall q :: q in s.pending ==> p <= q
  }

  ghost function PerformNext(groups: seq<nat>, s: Server, p: nat): Server {
    s.(groupState := Refresh(s.groupState, groups, s.evs, s.duration, p),
       pending := s.pending - multiset{p},
       served := p)
  }

  ghost function Receive(groups: seq<nat>, s: Server, e: Event): Server
    requires 0 < s.duration
  {
    var evs := Insert(s.evs, e);
    var pending := s.pending + multiset(Wakeups(groups, evs, s.duration, e, s.now));
    if s.now < e.time then s.(evs := evs, pending := pending)
    else s.(evs := evs, pending := pending, served := s.now,
            groupState := Refresh(s.groupState, groups, evs, s.duration, s.now))
  }

  /** An action that is due is performed. */
  ghost predicate Performed(groups: seq<nat>, s: Server, s': Server) {
    exists p :: p in s.pending && p <= s.now && s' == PerformNext(groups, s, p)
  }

  /** The earliest of all pending actions is performed. */
  ghost predicate PerformedFirst(groups: seq<nat>, s: Server, s': Server) {
    exists p :: IsNext(s, p) && s' == PerformNext(groups, s, p)
  }

  ghost predicate Next(groups: seq<nat>, s: Server, s': Server) {
    || Tick(s, s')
    || Performed(groups, s, s')
    || (0 < s.duration && exists e: Event :: s' == Receive(groups, s, e))
  }

  /** Actions are performed in time order, and a message about a time that has passed is handled
      only when no action is overdue. */
  ghost predicate TimelyNext(groups: seq<nat>, s: Server, s': Server) {
    || Tick(s, s')
    || PerformedFirst(groups, s, s')
    || (0 < s.duration && exists e: Event :: (s.now < e.time || CaughtUp(s)) && s' == Receive(groups, s, e))
  }

  ghost predicate Run(groups: seq<nat>, ss: seq<Server>) {
    && ss != [] && Boot(groups, ss[0])
    && forall i :: 0 <= i < |ss| - 1 ==> Next(groups, ss[i], ss[i + 1])
  }

  ghost predicate TimelyRun(groups: seq<nat>, ss: seq<Server>) {
    && ss != [] && Boot(groups, ss[0])
    && forall i :: 0 <= i < |ss| - 1 ==> TimelyNext(groups, ss[i], ss[i + 1])
  }

  ghost predicate Shown(groups: seq<nat>, s: Server, t: nat) {
    forall g :: g in groups ==> g in s.groupState && s.groupState[g] == StatusAt(s.evs, s.duration, g, t)
  }

  /** Every future change of status has a wake-up: event times and end times are pending. */
  ghost predicate Covered(groups: seq<nat>, s: Server, t: nat)
    requires 0 < s.duration
  {
    && (forall i :: 0 <= i < |s.evs| && t < s.evs[i].time ==> s.evs[i].time in s.pending)
    && (forall g :: g in groups && t < EndTime(s.evs, s.duration, g) ==> EndTime(s.evs, s.duration, g) in s.pending)
  }

  ghost predicate Inv(groups: seq<nat>, s: Server) {
    && Sorted(s.evs) && 0 < s.duration && s.served <= s.now
    && Shown(groups, s, s.served)
    && Covered(groups, s, s.served)
    && forall p :: p in s.pending ==> s.served <= p
  }

  lemma BootInv(groups: seq<nat>, s: Server)
    requires Boot(groups, s)
    ensures Inv(groups, s)
  {
    var a, b := GroupWakeups(groups, s.evs, s.duration, s.now), EventWakeups(s.evs, s.now);
    forall p: nat ensures p in s.pending <==> p in a || p in b {
      InJoined(a, b, p);
    }
  }

  lemma InJoined(a: seq<nat>, b: seq<nat>, p: nat)
    ensures p in multiset(a + b) <==> p in a || p in b
  {
  }

  lemma PerformInv(groups: seq<nat>, s: Server, p: nat)
    requires Inv(groups, s) && IsNext(s, p)
    ensures Inv(groups, PerformNext(groups, s, p))
  {
  }

  lemma ShownNow(groups: seq<nat>, s: Server)
    requires Inv(groups, s) && CaughtUp(s)
    ensures Shown(groups, s, s.now)
  {
    forall g | g in groups ensures StatusAt(s.evs, s.duration, g, s.served) == StatusAt(s.evs, s.duration, g, s.now) {
      StatusSteady(s.evs, s.duration, g, s.served, s.now);
    }
  }

  lemma ReceiveShown(groups: seq<nat>, s: Server, e: Event)
    requires Sorted(s.evs) && 0 < s.duration && s.served <= s.now && Shown(groups, s, s.served)
    ensures var s' := Receive(groups, s, e); Sorted(s'.evs) && Shown(groups, s', s'.served)
  {
    InsertSorted(s.evs, e);
    forall g | g in groups && s.now < e.time
      ensures StatusAt(Insert(s.evs, e), s.duration, g, s.served) == StatusAt(s.evs, s.duration, g, s.served)
    {
      ScheduleKeepsPast(s.evs, s.duration, e, g, s.served);
    }
  }

  lemma ReceivePending(groups: seq<nat>, s: Server, e: Event, p: nat)
    requires 0 < s.duration
    ensures p in Receive(groups, s, e).pending <==>
            p in s.pending || (s.now < e.time && p == e.time)
            || p in EndWakeups(groups, Insert(s.evs, e), s.duration, e.group, s.now)
  {
  }

  lemma ReceiveCovered(groups: seq<nat>, s: Server, e: Event)
    requires Inv(groups, s) && (s.now < e.time || CaughtUp(s))
    ensures var s' := Receive(groups, s, e);
            Covered(groups, s', s'.served) && forall p :: p in s'.pending ==> s'.served <= p
  {
    var s' := Receive(groups, s, e);
    forall p: nat ensures p in s.pending ==> p in s'.pending
             ensures p in s'.pending ==> s'.served <= p
    {
      ReceivePending(groups, s, e, p);
    }
    forall i | 0 <= i < |s'.evs| && s'.served < s'.evs[i].time ensures s'.evs[i].time in s'.pending {
      InsertMembers(s.evs, Slot(s.evs, e.time), e, s'.evs[i]);
      ReceivePending(groups, s, e, s'.evs[i].time);
    }
    forall g | g in groups && s'.served < EndTime(s'.evs, s'.duration, g)
      ensures EndTime(s'.evs, s'.duration, g) in s'.pending
    {
      ReceiveEnd(groups, s, e, g);
    }
  }

  lemma ReceiveEnd(groups: seq<nat>, s: Server, e: Event, g: nat)
    requires Inv(groups, s) && (s.now < e.time || CaughtUp(s)) && g in groups
    ensures var s' := Receive(groups, s, e); var end := EndTime(s'.evs, s'.duration, g);
            s'.served < end ==> end in s'.pending
  {
    var s' := Receive(groups, s, e);
    var end := EndTime(s'.evs, s'.duration, g);
    ReceivePending(groups, s, e, end);
    if !Applies(e, g) {
      ScheduleKeepsEnd(s.evs, s.duration, e, g);
    } else if s.now < e.time && end <= s.now {
      EndUnmoved(s.evs, s.duration, e, g, end);
    }
  }

  /** An end time before the new event was already the end time without it. */
  lemma EndUnmoved(evs: seq<Event>, duration: nat, e: Event, g: nat, end: nat)
    requires 0 < duration && end == EndTime(Insert(evs, e), duration, g) && end < e.time
    ensures end == 0 || end == EndTime(evs, duration, g)
  {
    InsertKeepsPast(evs, Slot(evs, e.time), e, g, end);
    InsertKeepsPast(evs, Slot(evs, e.time), e, g, end + 1);
    if end != 0 {
      EndCarried(evs, Insert(evs, e), duration, g, end);
    }
  }

  lemma EndCarried(evs: seq<Event>, evs': seq<Event>, duration: nat, g: nat, end: nat)
    requires 0 < duration && end != 0 && IsEndTime(evs', duration, g, end)
    requires RunningTime(evs, g, end) == RunningTime(evs', g, end)
    requires RunningTime(evs, g, end + 1) == RunningTime(evs', g, end + 1)
    ensures end == EndTime(evs, duration, g)
  {
    RunningTimeGrowth(evs, g, end, end + 1);
    EndTimeReached(evs, duration, g, end);
    EndTimeUnique(evs, duration, g, end, EndTime(evs, duration, g));
  }

  lemma NextInv(groups: seq<nat>, s: Server, s': Server)
    requires Inv(groups, s) && TimelyNext(groups, s, s')
    ensures Inv(groups, s')
  {
    if Tick(s, s') {
    } else if PerformedFirst(groups, s, s') {
      var p :| IsNext(s, p) && s' == PerformNext(groups, s, p);
      PerformInv(groups, s, p);
    } else {
      var e: Event :| (s.now < e.time || CaughtUp(s)) && s' == Receive(groups, s, e);
      ReceiveShown(groups, s, e);
      ReceiveCovered(groups, s, e);
    }
  }

  // ---------------------------------------------------------------- every run

  /** The recorded states are those of the moment last served, and the future is covered. */
  ghost predicate FutureInv(groups: seq<nat>, s: Server) {
    && Sorted(s.evs) && 0 < s.duration && s.served <= s.now
    && Shown(groups, s, s.served)
    && Covered(groups, s, s.now)
  }

  lemma BootFuture(groups: seq<nat>, s: Server)
    requires Boot(groups, s)
    ensures FutureInv(groups, s)
  {
    BootInv(groups, s);
  }

  lemma ReceiveFuture(groups: seq<nat>, s: Server, e: Event)
    requires FutureInv(groups, s)
    ensures FutureInv(groups, Receive(groups, s, e))
  {
    var s' := Receive(groups, s, e);
    assert Sorted(s'.evs) && Shown(groups, s', s'.served) by {
      ReceiveShown(groups, s, e);
    }
    forall i | 0 <= i < |s'.evs| && s'.now < s'.evs[i].time ensures s'.evs[i].time in s'.pending {
      InsertMembers(s.evs, Slot(s.evs, e.time), e, s'.evs[i]);
      ReceivePending(groups, s, e, s'.evs[i].time);
    }
    forall g | g in groups && s'.now < EndTime(s'.evs, s'.duration, g)
      ensures EndTime(s'.evs, s'.duration, g) in s'.pending
    {
      ReceivePending(groups, s, e, EndTime(s'.evs, s'.duration, g));
      if !Applies(e, g) {
        ScheduleKeepsEnd(s.evs, s.duration, e, g);
      }
    }
  }

  lemma NextFuture(groups: seq<nat>, s: Server, s': Server)
    requires FutureInv(groups, s) && Next(groups, s, s')
    ensures FutureInv(groups, s')
  {
    if Tick(s, s') {
    } else if Performed(groups, s, s') {
      var p :| p in s.pending && p <= s.now && s' == PerformNext(groups, s, p);
    } else {
      var e: Event :| s' == Receive(groups, s, e);
      ReceiveFuture(groups, s, e);
    }
  }

  /** In every run, in whatever order due actions are performed and whenever messages arrive: the
      recorded states are the true ones of the moment last served, and every change of a status
      after now has a pending wake-up. */
  lemma {:induction false} RunsCoverTheFuture(groups: seq<nat>, ss: seq<Server>)
    requires Run(groups, ss)
    ensures var s := ss[|ss| - 1];
            && FutureInv(groups, s)
            && (forall g, t: nat :: g in groups && s.now < t && StatusAt(s.evs, s.duration, g, t) != StatusAt(s.evs, s.duration, g, t - 1)
                  ==> t in s.pending)
  {
    var s := ss[|ss| - 1];
    if |ss| == 1 {
      BootFuture(groups, s);
    } else {
      RunsCoverTheFuture(groups, ss[..|ss| - 1]);
      NextFuture(groups, ss[|ss| - 2], s);
    }
    forall g, t: nat | g in groups && s.now < t && StatusAt(s.evs, s.duration, g, t) != StatusAt(s.evs, s.duration, g, t - 1)
      ensures t in s.pending
    {
      StatusChange(s.evs, s.duration, g, t);
    }
  }

  /** The latest event that applies to group g in the time after `a` and up to `b`. */
  ghost predicate LatestIn(evs: seq<Event>, g: nat, a: nat, b: nat, i: int) {
    Latest(evs, g, b, i) && a < evs[i].time
  }

  /** The state recorded for group g is not its status now: an event after the moment last served
      says otherwise, or without one the end time has passed since. */
  ghost predicate Overtaken(s: Server, g: nat)
    requires 0 < s.duration
  {
    var end := EndTime(s.evs, s.duration, g);
    if exists i :: LatestIn(s.evs, g, s.served, s.now, i) then
      var i :| LatestIn(s.evs, g, s.served, s.now, i);
      StatusAt(s.evs, s.duration, g, s.served) !=
      if s.evs[i].action == Started && !(0 < end <= s.now) then Started else Stopped
    else s.served < end <= s.now
  }

  lemma OvertakenWhen(s: Server, g: nat)
    requires Sorted(s.evs) && 0 < s.duration && s.served <= s.now
    ensures Overtaken(s, g) <==> StatusAt(s.evs, s.duration, g, s.served) != StatusAt(s.evs, s.duration, g, s.now)
  {
    StatusByEnd(s.evs, s.duration, g, s.served);
    StatusByEnd(s.evs, s.duration, g, s.now);
    if exists i :: LatestIn(s.evs, g, s.served, s.now, i) {
      var i :| LatestIn(s.evs, g, s.served, s.now, i);
      forall j | LatestIn(s.evs, g, s.served, s.now, j) ensures RunningAt(s.evs, g, s.now) == (s.evs[j].action == Started) {
        RunningWhenLatest(s.evs, g, s.now, j);
      }
    } else {
      forall i | 0 <= i < |s.evs| && Applies(s.evs[i], g) ensures !(s.served < s.evs[i].time <= s.now) {
        if s.served < s.evs[i].time <= s.now {
          var j := LatestExists(s.evs, g, s.now, i);
          LatestIsLatest(s.evs, g, s.now, j, s.evs[i]);
          assert LatestIn(s.evs, g, s.served, s.now, j);
        }
      }
      RunningSteady(s.evs, g, s.served, s.now);
      SteadyToEnd(s.evs, s.duration, g, s.served, s.now);
    }
  }

  /** In every run, in whatever order due actions are performed and whenever messages arrive: the
      recorded states are the true ones if and only if for no group an event, or the end time,
      falls after the moment last served and changes the status. */
  lemma TrueExactlyWhen(groups: seq<nat>, ss: seq<Server>)
    requires Run(groups, ss)
    ensures var s := ss[|ss| - 1];
            FutureInv(groups, s) && (Shown(groups, s, s.now) <==> forall g :: g in groups ==> !Overtaken(s, g))
  {
    var s := ss[|ss| - 1];
    RunsCoverTheFuture(groups, ss);
    forall g ensures Overtaken(s, g) <==> StatusAt(s.evs, s.duration, g, s.served) != StatusAt(s.evs, s.duration, g, s.now) {
      OvertakenWhen(s, g);
    }
  }

  /** In every run with actions performed in time order and timely messages: every later change of
      a group's status has a pending wake-up at that very second, and once the due actions have
      run the recorded states are the true ones. */
  lemma {:induction false} RunsShowTheTruth(groups: seq<nat>, ss: seq<Server>)
    requires TimelyRun(groups, ss)
    ensures var s := ss[|ss| - 1];
            && Inv(groups, s)
            && (CaughtUp(s) ==> Shown(groups, s, s.now))
            && (forall g, t: nat :: g in groups && s.served < t && StatusAt(s.evs, s.duration, g, t) != StatusAt(s.evs, s.duration, g, t - 1)
                  ==> t in s.pending)
  {
    var s := ss[|ss| - 1];
    if |ss| == 1 {
      BootInv(groups, s);
    } else {
      RunsShowTheTruth(groups, ss[..|ss| - 1]);
      NextInv(groups, ss[|ss| - 2], s);
    }
    if CaughtUp(s) {
      ShownNow(groups, s);
    }
    forall g, t: nat | g in groups && s.served < t && StatusAt(s.evs, s.duration, g, t) != StatusAt(s.evs, s.duration, g, t - 1)
      ensures t in s.pending
    {
      StatusChange(s.evs, s.duration, g, t);
    }
  }

  // ---------------------------------------------------------------- handling a message late

  ghost predicate Drain(groups: seq<nat>, ss: seq<Server>) {
    && ss != [] && CaughtUp(ss[|ss| - 1])
    && forall i :: 0 <= i < |ss| - 1 ==> PerformedFirst(groups, ss[i], ss[i + 1])
  }

  lemma DrainDone(groups: seq<nat>, ss: seq<Server>)
    requires Drain(groups, ss)
    ensures CaughtUp(ss[0]) <==> |ss| == 1
  {
    assert |ss| > 1 ==> PerformedFirst(groups, ss[0], ss[1]);
  }

  lemma DrainTail(groups: seq<nat>, ss: seq<Server>)
    requires Drain(groups, ss) && |ss| > 1
    ensures PerformedFirst(groups, ss[0], ss[1]) && Drain(groups, ss[1..])
  {
  }

  lemma LastPerformed(groups: seq<nat>, s: Server, s': Server, p: nat, last: nat)
    requires IsNext(s, p) && s' == PerformNext(groups, s, p)
    requires last in s.pending && last <= s.now && forall q :: q in s.pending ==> q <= last || s.now < q
    ensures forall q :: q in s'.pending ==> q in s.pending
    ensures last in s'.pending || (CaughtUp(s') && Shown(groups, s', last))
  {
  }

  /** Performing what is overdue leaves the states of the latest overdue second. */
  lemma {:induction false} DrainResult(groups: seq<nat>, ss: seq<Server>, last: nat)
    requires Drain(groups, ss)
    requires last in ss[0].pending && last <= ss[0].now
    requires forall p :: p in ss[0].pending ==> p <= last || ss[0].now < p
    ensures var z := ss[|ss| - 1]; z.evs == ss[0].evs && z.duration == ss[0].duration && z.now == ss[0].now
    ensures Shown(groups, ss[|ss| - 1], last)
    decreases |ss|
  {
    DrainDone(groups, ss);
    DrainTail(groups, ss);
    var p :| IsNext(ss[0], p) && ss[1] == PerformNext(groups, ss[0], p);
    LastPerformed(groups, ss[0], ss[1], p, last);
    if last in ss[1].pending {
      DrainResult(groups, ss[1..], last);
    } else {
      DrainDone(groups, ss[1..]);
    }
  }

  /** The status that draining leaves for group g is not its status now: the message is in the
      window after the last overdue second and says otherwise, or the end time is. */
  ghost predicate LateChange(s: Server, e: Event, g: nat, last: nat)
    requires 0 < s.duration
  {
    var evs := Insert(s.evs, e);
    var end := EndTime(evs, s.duration, g);
    if Applies(e, g) && last < e.time then
      StatusAt(s.evs, s.duration, g, last) != if e.action == Started && !(0 < end <= s.now) then Started else Stopped
    else last < end <= s.now
  }

  /** Exactly when a message about the past may be handled although actions are overdue, the
      last of them at `last`: for no group does the message, or the end time that the group has
      with it, fall after `last` and change the status. */
  lemma LateMessage(groups: seq<nat>, s: Server, e: Event, ss: seq<Server>, last: nat)
    requires Inv(groups, s) && e.time <= s.now
    requires last in s.pending && last <= s.now && forall p :: p in s.pending ==> p <= last || s.now < p
    requires Drain(groups, ss) && ss[0] == Receive(groups, s, e)
    ensures Shown(groups, ss[|ss| - 1], s.now) <==> forall g :: g in groups ==> !LateChange(s, e, g, last)
  {
    forall p: nat ensures p in ss[0].pending ==> p <= last || s.now < p
             ensures p in s.pending ==> p in ss[0].pending
    {
      ReceivePending(groups, s, e, p);
    }
    DrainResult(groups, ss, last);
    forall g ensures LateChange(s, e, g, last) <==>
                     StatusAt(ss[0].evs, s.duration, g, last) != StatusAt(ss[0].evs, s.duration, g, s.now)
    {
      LateStatus(groups, s, e, g, last);
    }
  }

  lemma LateStatus(groups: seq<nat>, s: Server, e: Event, g: nat, last: nat)
    requires Inv(groups, s) && e.time <= s.now
    requires last in s.pending && last <= s.now && forall p :: p in s.pending ==> p <= last || s.now < p
    ensures var evs := Insert(s.evs, e);
            LateChange(s, e, g, last) <==> StatusAt(evs, s.duration, g, last) != StatusAt(evs, s.duration, g, s.now)
  {
    var evs := Insert(s.evs, e);
    StatusByEnd(evs, s.duration, g, last);
    StatusByEnd(evs, s.duration, g, s.now);
    forall i | 0 <= i < |evs| && last < evs[i].time <= s.now ensures evs[i] == e {
      InsertMembers(s.evs, Slot(s.evs, e.time), e, evs[i]);
    }
    if Applies(e, g) && last < e.time {
      ScheduleKeepsPast(s.evs, s.duration, e, g, last);
      InsertMembers(s.evs, Slot(s.evs, e.time), e, e);
      var i :| 0 <= i < |evs| && evs[i] == e;
      var j := LatestExists(evs, g, s.now, i);
      assert last < evs[j].time by {
        InsertSorted(s.evs, e);
        LatestIsLatest(evs, g, s.now, j, e);
      }
      RunningWhenLatest(evs, g, s.now, j);
    } else {
      RunningSteady(evs, g, last, s.now);
      SteadyToEnd(evs, s.duration, g, last, s.now);
    }
  }

  lemma SteadyToEnd(evs: seq<Event>, duration: nat, g: nat, a: nat, b: nat)
    requires 0 < duration && a <= b
    requires forall i :: 0 <= i < |evs| && Applies(evs[i], g) ==> !(a < evs[i].time <= b)
    ensures a < EndTime(evs, duration, g) <= b ==> RunningAt(evs, g, a)
  {
    var end := EndTime(evs, duration, g);
    if a < end <= b {
      RunningAtEnd(evs, duration, g);
      RunningSteady(evs, g, a, end);
    }
  }

  /** Whatever is overdue can be performed. */
  lemma {:induction false} DrainExists(groups: seq<nat>, s: Server) returns (ss: seq<Server>)
    ensures Drain(groups, ss) && ss[0] == s
    decreases |s.pending|
  {
    if CaughtUp(s) {
      ss := [s];
    } else {
      var q :| q in s.pending && q <= s.now;
      var p := EarliestExists(s.pending, q);
      assert IsNext(s, p);
      var s' := PerformNext(groups, s, p);
      var rest := DrainExists(groups, s');
      ss := [s] + rest;
      DrainCons(groups, s, s', rest);
    }
  }

  lemma DrainCons(groups: seq<nat>, s: Server, s': Server, rest: seq<Server>)
    requires Drain(groups, rest) && rest[0] == s' && PerformedFirst(groups, s, s')
    ensures Drain(groups, [s] + rest)
  {
    var ss := [s] + rest;
    forall i | 0 <= i < |ss| - 1 ensures PerformedFirst(groups, ss[i], ss[i + 1]) {
      assert i > 0 ==> ss[i] == rest[i - 1] && ss[i + 1] == rest[i];
    }
  }

  lemma {:induction false} EarliestExists(pending: multiset<nat>, q: nat) returns (p: nat)
    requires q in pending
    ensures p in pending && p <= q && forall x :: x in pending ==> p <= x
    decreases q
  {
    if x :| x in pending && x < q {
      p := EarliestExists(pending, x);
    } else {
      p := q;
    }
  }

  /** A server that boots at 5 with a stop at 10, has not performed it by 20 and then hears of a
      start at 15, shows the group stopped although it is running, with nothing left to do. */
  lemma LateMessageLies(g: nat) returns (ss: seq<Server>)
    ensures Run([g], ss)
    ensures var s := ss[|ss| - 1];
            && CaughtUp(s) && g in s.groupState && s.groupState[g] == Stopped
            && StatusAt(s.evs, s.duration, g, s.now) == Started
  {
    var s0 := LateBoot(g);
    var s1 := s0.(now := 20);
    var e := Event(15, 0, Started);
    var s2 := Receive([g], s1, e);
    var drain := DrainExists([g], s2);
    ss := [s0, s1] + drain;
    LateRun([g], s0, s1, e, drain);
    LateOutcome(g, s0, s1, e, drain);
  }

  lemma LateBoot(g: nat) returns (s: Server)
    ensures Boot([g], s) && s.evs == [Event(10, 0, Stopped)] && s.duration == 100 && s.now == 5
    ensures 10 in s.pending && forall p :: p in s.pending ==> p == 10
  {
    var evs := [Event(10, 0, Stopped)];
    NeverRuns(evs, g);
    EndTimeUnique(evs, 100, g, 0, EndTime(evs, 100, g));
    GroupWakeupsNext([g], 0, evs, 100, 5);
    EventWakeupsOne(evs, 5);
    s := Server(evs, 100, Refresh(map[], [g], evs, 100, 5),
                multiset(GroupWakeups([g], evs, 100, 5) + EventWakeups(evs, 5)), 5, 5);
  }

  lemma EventWakeupsOne(evs: seq<Event>, now: nat)
    requires |evs| == 1
    ensures EventWakeups(evs, now) == if now < evs[0].time then [evs[0].time] else []
  {
    assert evs[..0] == [];
  }

  lemma GroupWakeupsNext(groups: seq<nat>, i: nat, evs: seq<Event>, duration: nat, now: nat)
    requires 0 < duration && i < |groups|
    ensures var end := EndTime(evs, duration, groups[i]);
            GroupWakeups(groups[..i + 1], evs, duration, now) ==
            GroupWakeups(groups[..i], evs, duration, now) + if now < end then [end] else []
  {
    assert groups[..i + 1][..i] == groups[..i];
  }

  lemma NeverRuns(evs: seq<Event>, g: nat)
    requires forall i :: 0 <= i < |evs| ==> evs[i].action == Stopped
    ensures forall t :: RunningTime(evs, g, t) == 0
  {
    forall t: int ensures RunningTime(evs, g, t) == 0 {
      if t > 0 {
        SteadyStretch(evs, g, 0, t, false);
      }
    }
  }

  lemma LateRun(groups: seq<nat>, s0: Server, s1: Server, e: Event, drain: seq<Server>)
    requires Boot(groups, s0) && Tick(s0, s1) && Drain(groups, drain) && drain[0] == Receive(groups, s1, e)
    ensures Run(groups, [s0, s1] + drain)
  {
    var ss := [s0, s1] + drain;
    forall i | 0 <= i < |ss| - 1 ensures Next(groups, ss[i], ss[i + 1]) {
      if i >= 2 {
        assert ss[i] == drain[i - 2] && ss[i + 1] == drain[i - 1] && PerformedFirst(groups, drain[i - 2], drain[i - 1]);
      } else {
        assert i == 0 ==> Tick(ss[0], ss[1]);
        assert i == 1 ==> ss[2] == Receive(groups, s1, e);
      }
    }
  }

  lemma LateOutcome(g: nat, s0: Server, s1: Server, e: Event, drain: seq<Server>)
    requires Boot([g], s0) && s0.evs == [Event(10, 0, Stopped)] && s0.duration == 100
    requires 10 in s0.pending && forall p :: p in s0.pending ==> p == 10
    requires s1 == s0.(now := 20) && s0.now == 5 && e == Event(15, 0, Started)
    requires Drain([g], drain) && drain[0] == Receive([g], s1, e)
    ensures var z := drain[|drain| - 1];
            && CaughtUp(z) && g in z.groupState && z.groupState[g] == Stopped
            && StatusAt(z.evs, z.duration, g, z.now) == Started
  {
    BootInv([g], s0);
    LatePending(g, s1, e, drain[0]);
    DrainResult([g], drain, 10);
    LateEvents(s1.evs, e);
    LateStatuses(g, Insert(s1.evs, e));
  }

  lemma LateEvents(evs: seq<Event>, e: Event)
    requires evs == [Event(10, 0, Stopped)] && e == Event(15, 0, Started)
    ensures Insert(evs, e) == [Event(10, 0, Stopped), Event(15, 0, Started)]
  {
  }

  lemma LatePending(g: nat, s1: Server, e: Event, s: Server)
    requires 0 < s1.duration && s1.now == 20 && e.time == 15 && s == Receive([g], s1, e)
    requires 10 in s1.pending && forall p :: p in s1.pending ==> p == 10
    ensures 10 in s.pending && forall p: nat :: p in s.pending ==> p <= 10 || 20 < p
  {
    forall p: nat ensures p in s.pending ==> p <= 10 || 20 < p
                  ensures p in s1.pending ==> p in s.pending
    {
      ReceivePending([g], s1, e, p);
    }
  }

  lemma LateStatuses(g: nat, evs: seq<Event>)
    requires evs == [Event(10, 0, Stopped), Event(15, 0, Started)]
    ensures StatusAt(evs, 100, g, 10) == Stopped && StatusAt(evs, 100, g, 20) == Started
  {
    assert Latest(evs, g, 10, 0) && Latest(evs, g, 20, 1);
    RunningWhenLatest(evs, g, 10, 0);
    RunningWhenLatest(evs, g, 20, 1);
    RunningTimeGrowth(evs, g, 0, 20);
  }
}
