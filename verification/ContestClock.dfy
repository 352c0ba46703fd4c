/** The contest clock (src/support_timer.C).

    The timer keeps one list of start/stop events, sorted by time. An event with group 0
    applies to every group. Three loops read the list: `ContestTime`, `ContestStatus` and
    `ContestEndTime`. They are specified here by counting seconds: `RunningTime(evs, g, t)`
    is the number of seconds before `t` at which the latest applicable event is a start.
 */
module ContestClock {
  import opened Sequences

  datatype Status = Started | Stopped

  datatype Event = Event(time: nat, group: nat, action: Status)

  predicate Applies(e: Event, g: nat) {
    e.group == 0 || e.group == g
  }

  ghost predicate Sorted(evs: seq<Event>) {
    forall i, j :: 0 <= i < j < |evs| ==> evs[i].time <= evs[j].time
  }

  // ---------------------------------------------------------------- reference definitions

  /** Event `i` is the latest event that applies to `g` and has happened by second `s`. */
  ghost predicate Latest(evs: seq<Event>, g: nat, s: int, i: int) {
    && 0 <= i < |evs|
    && Applies(evs[i], g)
    && evs[i].time <= s
    && forall j :: i < j < |evs| && Applies(evs[j], g) ==> s < evs[j].time
  }

  ghost predicate RunningAt(evs: seq<Event>, g: nat, s: int) {
    exists i :: Latest(evs, g, s, i) && evs[i].action == Started
  }

  /** The number of seconds `s < t` at which group `g` is running, without any cap. */
  ghost function RunningTime(evs: seq<Event>, g: nat, t: int): nat {
    if t <= 0 then 0
    else RunningTime(evs, g, t - 1) + if RunningAt(evs, g, t - 1) then 1 else 0
  }

  ghost function TimeAt(evs: seq<Event>, duration: nat, g: nat, t: int): nat {
    if RunningTime(evs, g, t) <= duration then RunningTime(evs, g, t) else duration
  }

  ghost function StatusAt(evs: seq<Event>, duration: nat, g: nat, t: int): Status {
    if RunningAt(evs, g, t) && RunningTime(evs, g, t) < duration then Started else Stopped
  }

  /** `r` is the last moment at which the uncapped running time is within the duration,
      or 0 when the running time never exceeds the duration. */
  ghost predicate IsEndTime(evs: seq<Event>, duration: nat, g: nat, r: nat) {
    if r == 0 then
      forall t: int :: RunningTime(evs, g, t) <= duration
    else
      forall t: int :: RunningTime(evs, g, t) <= duration <==> t <= r
  }

  // ---------------------------------------------------------------- the counting function

  lemma {:induction false} RunningTimeGrowth(evs: seq<Event>, g: nat, a: int, b: int)
    requires a <= b
    ensures RunningTime(evs, g, a) <= RunningTime(evs, g, b)
    ensures 0 <= a ==> RunningTime(evs, g, b) <= RunningTime(evs, g, a) + (b - a)
    decreases b - a
  {
    if a < b {
      RunningTimeGrowth(evs, g, a, b - 1);
    }
  }

  /** The clock never runs backwards and never runs faster than real time. */
  lemma ContestTimeGrowth(evs: seq<Event>, duration: nat, g: nat, a: nat, b: nat)
    requires a <= b
    ensures TimeAt(evs, duration, g, a) <= TimeAt(evs, duration, g, b)
    ensures TimeAt(evs, duration, g, b) - TimeAt(evs, duration, g, a) <= b - a
  {
    RunningTimeGrowth(evs, g, a, b);
  }

  lemma {:induction false} SteadyStretch(evs: seq<Event>, g: nat, a: nat, b: int, on: bool)
    requires a <= b
    requires forall s :: a <= s < b ==> RunningAt(evs, g, s) == on
    ensures RunningTime(evs, g, b) == RunningTime(evs, g, a) + if on then b - a else 0
    decreases b - a
  {
    if a < b {
      SteadyStretch(evs, g, a, b - 1, on);
    }
  }

  lemma {:induction false} SameTime(evs: seq<Event>, evs': seq<Event>, g: nat, t: int)
    requires forall s :: s < t ==> RunningAt(evs, g, s) == RunningAt(evs', g, s)
    ensures RunningTime(evs, g, t) == RunningTime(evs', g, t)
    decreases t
  {
    if 0 < t {
      SameTime(evs, evs', g, t - 1);
    }
  }

  // ---------------------------------------------------------------- inserting an event

  function InsertAt(evs: seq<Event>, k: nat, e: Event): seq<Event>
    requires k <= |evs|
  {
    evs[..k] + [e] + evs[k..]
  }

  lemma LatestInserted(evs: seq<Event>, k: nat, e: Event, g: nat, s: int, i: int)
    requires k <= |evs|
    requires s < e.time || !Applies(e, g)
    requires Latest(evs, g, s, i)
    ensures Latest(InsertAt(evs, k, e), g, s, if i < k then i else i + 1)
  {
    var q, i' := InsertAt(evs, k, e), if i < k then i else i + 1;
    forall j | i' < j < |q| && Applies(q[j], g) ensures s < q[j].time {
      if j != k {
        assert q[j] == evs[if j < k then j else j - 1];
      }
    }
  }

  lemma LatestRemoved(evs: seq<Event>, k: nat, e: Event, g: nat, s: int, i: int)
    requires k <= |evs|
    requires s < e.time || !Applies(e, g)
    requires Latest(InsertAt(evs, k, e), g, s, i)
    ensures i != k && Latest(evs, g, s, if i < k then i else i - 1)
  {
    var q, i' := InsertAt(evs, k, e), if i < k then i else i - 1;
    forall j | i' < j < |evs| && Applies(evs[j], g) ensures s < evs[j].time {
      assert evs[j] == q[if j < k then j else j + 1];
    }
  }

  /** An event at time T, put anywhere in the list, is invisible before T and to other groups. */
  lemma InsertInvisible(evs: seq<Event>, k: nat, e: Event, g: nat, s: int)
    requires k <= |evs|
    requires s < e.time || !Applies(e, g)
    ensures RunningAt(InsertAt(evs, k, e), g, s) == RunningAt(evs, g, s)
  {
    if i :| Latest(evs, g, s, i) && evs[i].action == Started {
      LatestInserted(evs, k, e, g, s, i);
    }
    if i :| Latest(InsertAt(evs, k, e), g, s, i) && InsertAt(evs, k, e)[i].action == Started {
      LatestRemoved(evs, k, e, g, s, i);
    }
  }

  lemma InsertKeepsPast(evs: seq<Event>, k: nat, e: Event, g: nat, t: int)
    requires k <= |evs|
    requires t <= e.time || !Applies(e, g)
    ensures RunningTime(InsertAt(evs, k, e), g, t) == RunningTime(evs, g, t)
  {
    forall s | s < t ensures RunningAt(InsertAt(evs, k, e), g, s) == RunningAt(evs, g, s) {
      InsertInvisible(evs, k, e, g, s);
    }
    SameTime(InsertAt(evs, k, e), evs, g, t);
  }

  lemma AppendDecides(evs: seq<Event>, e: Event, g: nat, s: int)
    requires Applies(e, g) && e.time <= s
    ensures RunningAt(evs + [e], g, s) == (e.action == Started)
  {
    var q := evs + [e];
    assert q[|evs|] == e;
    assert Latest(q, g, s, |evs|);
  }

  /** Events after time t, at the end of the list, do not matter at t. */
  lemma {:induction false} FutureInvisible(evs: seq<Event>, k: nat, g: nat, t: int)
    requires k <= |evs|
    requires forall i :: k <= i < |evs| ==> t < evs[i].time
    ensures RunningAt(evs[..k], g, t) == RunningAt(evs, g, t)
    ensures RunningTime(evs[..k], g, t) == RunningTime(evs, g, t)
    decreases |evs| - k
  {
    if k == |evs| {
      assert evs[..k] == evs;
    } else {
      FutureInvisible(evs, k + 1, g, t);
      assert evs[..k + 1] == InsertAt(evs[..k], k, evs[k]);
      InsertInvisible(evs[..k], k, evs[k], g, t);
      InsertKeepsPast(evs[..k], k, evs[k], g, t);
    }
  }

  // ---------------------------------------------------------------- what the loops track

  /** After reading the events `p`: the status has been `status` since second `since`,
      and `elapsed` seconds were spent running before that. */
  ghost predicate Tracks(p: seq<Event>, g: nat, status: Status, since: nat, elapsed: nat) {
    && (forall s :: since <= s ==> RunningAt(p, g, s) == (status == Started))
    && elapsed == RunningTime(p, g, since)
  }

  lemma TracksStep(p: seq<Event>, e: Event, g: nat, status: Status, since: nat, elapsed: nat)
    requires Tracks(p, g, status, since, elapsed)
    requires since <= e.time
    ensures !Applies(e, g) || e.action == status ==> Tracks(p + [e], g, status, since, elapsed)
    ensures Applies(e, g) && e.action != status ==>
              Tracks(p + [e], g, e.action, e.time, elapsed + if status == Started then e.time - since else 0)
  {
    var q := p + [e];
    assert q == InsertAt(p, |p|, e);
    InsertKeepsPast(p, |p|, e, g, since);
    InsertKeepsPast(p, |p|, e, g, e.time);
    SteadyStretch(p, g, since, e.time, status == Started);
    forall s | since <= s
      ensures RunningAt(q, g, s) ==
              if Applies(e, g) && e.time <= s then e.action == Started else status == Started
    {
      if Applies(e, g) && e.time <= s {
        AppendDecides(p, e, g, s);
      } else {
        InsertInvisible(p, |p|, e, g, s);
      }
    }
  }

  lemma TracksNext(evs: seq<Event>, i: nat, g: nat, status: Status, since: nat, elapsed: nat)
    requires i < |evs| && since <= evs[i].time
    requires Tracks(evs[..i], g, status, since, elapsed)
    ensures !Applies(evs[i], g) || evs[i].action == status ==> Tracks(evs[..i + 1], g, status, since, elapsed)
    ensures Applies(evs[i], g) && evs[i].action != status ==>
              Tracks(evs[..i + 1], g, evs[i].action, evs[i].time,
                     elapsed + if status == Started then evs[i].time - since else 0)
  {
    TracksStep(evs[..i], evs[i], g, status, since, elapsed);
    assert evs[..i + 1] == evs[..i] + [evs[i]];
  }

  lemma TracksAt(p: seq<Event>, g: nat, status: Status, since: nat, elapsed: nat, t: int)
    requires Tracks(p, g, status, since, elapsed)
    requires since <= t
    ensures RunningTime(p, g, t) == elapsed + if status == Started then t - since else 0
  {
    SteadyStretch(p, g, since, t, status == Started);
  }

  lemma TracksUntil(evs: seq<Event>, k: nat, g: nat, status: Status, since: nat, elapsed: nat, t: int)
    requires k <= |evs| && since <= t
    requires Tracks(evs[..k], g, status, since, elapsed)
    requires Sorted(evs) && (k < |evs| ==> t < evs[k].time)
    ensures RunningTime(evs, g, t) == elapsed + if status == Started then t - since else 0
  {
    TracksAt(evs[..k], g, status, since, elapsed, t);
    FutureInvisible(evs, k, g, t);
  }

  /** The events read so far and the rest of the list agree up to the next event. */
  lemma SameUpTo(evs: seq<Event>, k: nat, g: nat, t: int)
    requires k <= |evs|
    requires forall i :: k <= i < |evs| ==> t <= evs[i].time
    ensures RunningTime(evs[..k], g, t) == RunningTime(evs, g, t)
  {
    FutureInvisible(evs, k, g, t - 1);
  }

  lemma StatusNext(evs: seq<Event>, i: nat, g: nat, t: int)
    requires i < |evs| && evs[i].time <= t
    ensures RunningAt(evs[..i + 1], g, t) ==
            if Applies(evs[i], g) then evs[i].action == Started else RunningAt(evs[..i], g, t)
  {
    assert evs[..i + 1] == evs[..i] + [evs[i]] == InsertAt(evs[..i], i, evs[i]);
    if Applies(evs[i], g) {
      AppendDecides(evs[..i], evs[i], g, t);
    } else {
      InsertInvisible(evs[..i], i, evs[i], g, t);
    }
  }

  // ---------------------------------------------------------------- the end time

  lemma EndTimeReached(evs: seq<Event>, duration: nat, g: nat, r: nat)
    requires r != 0
    requires RunningTime(evs, g, r) == duration
    requires RunningTime(evs, g, r + 1) == duration + 1
    ensures IsEndTime(evs, duration, g, r)
  {
    forall t: int ensures RunningTime(evs, g, t) <= duration <==> t <= r {
      if t <= r {
        RunningTimeGrowth(evs, g, t, r);
      } else {
        RunningTimeGrowth(evs, g, r + 1, t);
      }
    }
  }

  lemma EndTimeUnique(evs: seq<Event>, duration: nat, g: nat, r: nat, r': nat)
    requires IsEndTime(evs, duration, g, r) && IsEndTime(evs, duration, g, r')
    ensures r == r'
  {
    assert RunningTime(evs, g, r + 1) <= duration <==> r == 0 || r + 1 <= r;
    assert RunningTime(evs, g, r' + 1) <= duration <==> r' == 0 || r' + 1 <= r';
    assert r != 0 ==> (RunningTime(evs, g, r') <= duration <==> r' <= r);
    assert r' != 0 ==> (RunningTime(evs, g, r) <= duration <==> r <= r');
  }

  lemma {:induction false} EndTimeBelow(evs: seq<Event>, duration: nat, g: nat, t: nat) returns (r: nat)
    requires 0 < duration < RunningTime(evs, g, t)
    ensures IsEndTime(evs, duration, g, r)
    decreases t
  {
    if RunningTime(evs, g, t - 1) <= duration {
      assert t - 1 != 0 by { RunningTimeGrowth(evs, g, 0, t); }
      EndTimeReached(evs, duration, g, t - 1);
      r := t - 1;
    } else {
      r := EndTimeBelow(evs, duration, g, t - 1);
    }
  }

  lemma EndTimeExists(evs: seq<Event>, duration: nat, g: nat) returns (r: nat)
    requires 0 < duration
    ensures IsEndTime(evs, duration, g, r)
  {
    if t: int :| duration < RunningTime(evs, g, t) {
      r := EndTimeBelow(evs, duration, g, t);
    } else {
      r := 0;
    }
  }

  ghost function EndTime(evs: seq<Event>, duration: nat, g: nat): (r: nat)
    requires 0 < duration
    ensures IsEndTime(evs, duration, g, r)
  {
    assert exists r :: IsEndTime(evs, duration, g, r) by {
      var r := EndTimeExists(evs, duration, g);
    }
    var r :| IsEndTime(evs, duration, g, r);
    r
  }

  /** Contest time follows the running seconds up to the end time, and stays at the duration from
      then on. */
  lemma TimeStopsAtEnd(evs: seq<Event>, duration: nat, g: nat, t: int)
    requires 0 < duration
    ensures var end := EndTime(evs, duration, g);
            && TimeAt(evs, duration, g, t) <= duration
            && (end == 0 || t <= end ==> TimeAt(evs, duration, g, t) == RunningTime(evs, g, t))
            && (0 < end <= t ==> TimeAt(evs, duration, g, t) == duration)
  {
    var end := EndTime(evs, duration, g);
    if 0 < end <= t {
      RunningTimeGrowth(evs, g, end, t);
      RunningTimeGrowth(evs, g, end, end + 1);
      assert RunningTime(evs, g, end) <= duration < RunningTime(evs, g, end + 1);
    }
  }

  lemma StatusKept(evs: seq<Event>, duration: nat, g: nat, t: nat)
    requires 0 < duration && 0 < t && t != EndTime(evs, duration, g)
    requires forall i :: 0 <= i < |evs| && Applies(evs[i], g) ==> evs[i].time != t
    ensures StatusAt(evs, duration, g, t) == StatusAt(evs, duration, g, t - 1)
  {
    assert RunningAt(evs, g, t) == RunningAt(evs, g, t - 1) by {
      assert forall i :: Latest(evs, g, t, i) <==> Latest(evs, g, t - 1, i);
    }
    if RunningTime(evs, g, t) == duration && RunningTime(evs, g, t + 1) == duration + 1 {
      EndTimeReached(evs, duration, g, t);
      EndTimeUnique(evs, duration, g, t, EndTime(evs, duration, g));
    }
  }

  /** The status of a group can change only at an event of that group or at its end time. */
  lemma StatusChange(evs: seq<Event>, duration: nat, g: nat, t: nat)
    requires 0 < duration && 0 < t
    ensures StatusAt(evs, duration, g, t) != StatusAt(evs, duration, g, t - 1) ==>
              || t == EndTime(evs, duration, g)
              || exists i :: 0 <= i < |evs| && Applies(evs[i], g) && evs[i].time == t
  {
    if t != EndTime(evs, duration, g) && forall i :: 0 <= i < |evs| && Applies(evs[i], g) ==> evs[i].time != t {
      StatusKept(evs, duration, g, t);
    }
  }

  lemma {:induction false} StatusSteady(evs: seq<Event>, duration: nat, g: nat, a: nat, b: nat)
    requires 0 < duration && a <= b
    requires forall i :: 0 <= i < |evs| && Applies(evs[i], g) ==> !(a < evs[i].time <= b)
    requires !(a < EndTime(evs, duration, g) <= b)
    ensures StatusAt(evs, duration, g, a) == StatusAt(evs, duration, g, b)
    decreases b - a
  {
    if a < b {
      StatusSteady(evs, duration, g, a, b - 1);
      StatusKept(evs, duration, g, b);
    }
  }

  // ---------------------------------------------------------------- scheduling

  /** A group's status is that of its latest event, until its end time. */
  lemma StatusByEnd(evs: seq<Event>, duration: nat, g: nat, t: nat)
    requires 0 < duration
    ensures var end := EndTime(evs, duration, g);
            StatusAt(evs, duration, g, t) == Started <==> RunningAt(evs, g, t) && !(0 < end <= t)
  {
    var end := EndTime(evs, duration, g);
    if 0 < end <= t {
      RunningTimeGrowth(evs, g, end, end + 1);
      RunningTimeGrowth(evs, g, end, t);
      assert RunningTime(evs, g, end) <= duration < RunningTime(evs, g, end + 1);
    } else if RunningAt(evs, g, t) {
      assert RunningTime(evs, g, t + 1) <= duration;
    }
  }

  lemma RunningAtEnd(evs: seq<Event>, duration: nat, g: nat)
    requires 0 < duration && EndTime(evs, duration, g) != 0
    ensures RunningAt(evs, g, EndTime(evs, duration, g))
  {
    var end := EndTime(evs, duration, g);
    assert RunningTime(evs, g, end) <= duration < RunningTime(evs, g, end + 1);
  }

  lemma RunningWhenLatest(evs: seq<Event>, g: nat, s: int, i: int)
    requires Latest(evs, g, s, i)
    ensures RunningAt(evs, g, s) == (evs[i].action == Started)
  {
    if j :| Latest(evs, g, s, j) && evs[j].action == Started {
      assert i == j;
    }
  }

  /** Without an event in between, a group keeps running or keeps standing. */
  lemma RunningSteady(evs: seq<Event>, g: nat, a: int, b: int)
    requires a <= b && forall i :: 0 <= i < |evs| && Applies(evs[i], g) ==> !(a < evs[i].time <= b)
    ensures RunningAt(evs, g, a) == RunningAt(evs, g, b)
  {
    if i :| Latest(evs, g, a, i) && evs[i].action == Started {
      assert Latest(evs, g, b, i);
    }
    if i :| Latest(evs, g, b, i) && evs[i].action == Started {
      assert Latest(evs, g, a, i);
    }
  }

  /** Where a new event goes: before the first event whose time is not smaller. */
  function Slot(evs: seq<Event>, t: nat): (k: nat)
    ensures k <= |evs|
    ensures forall i :: 0 <= i < k ==> evs[i].time < t
    ensures k < |evs| ==> t <= evs[k].time
  {
    if evs == [] || t <= evs[0].time then 0 else 1 + Slot(evs[1..], t)
  }

  function Insert(evs: seq<Event>, e: Event): seq<Event> {
    InsertAt(evs, Slot(evs, e.time), e)
  }

  lemma InsertSorted(evs: seq<Event>, e: Event)
    requires Sorted(evs)
    ensures Sorted(Insert(evs, e))
  {
  }

  lemma InsertAtContents(evs: seq<Event>, k: nat, e: Event)
    requires k <= |evs|
    ensures multiset(InsertAt(evs, k, e)) == multiset(evs) + multiset{e}
  {
    assert evs == evs[..k] + evs[k..];
  }

  lemma InsertMembers(evs: seq<Event>, k: nat, e: Event, x: Event)
    requires k <= |evs|
    ensures x in InsertAt(evs, k, e) <==> x in evs || x == e
  {
    assert x in evs <==> x in evs[..k] || x in evs[k..] by {
      assert evs == evs[..k] + evs[k..];
    }
  }

  /** Scheduling an event for time T rewrites no history: contest times up to T and statuses
      before T stay as they were, and groups it does not apply to are untouched. */
  lemma ScheduleKeepsPast(evs: seq<Event>, duration: nat, e: Event, g: nat, t: int)
    ensures t <= e.time || !Applies(e, g) ==>
              TimeAt(Insert(evs, e), duration, g, t) == TimeAt(evs, duration, g, t)
    ensures t < e.time || !Applies(e, g) ==>
              StatusAt(Insert(evs, e), duration, g, t) == StatusAt(evs, duration, g, t)
  {
    var k := Slot(evs, e.time);
    if t <= e.time || !Applies(e, g) {
      InsertKeepsPast(evs, k, e, g, t);
    }
    if t < e.time || !Applies(e, g) {
      InsertInvisible(evs, k, e, g, t);
    }
  }

  lemma ScheduleKeepsEnd(evs: seq<Event>, duration: nat, e: Event, g: nat)
    requires 0 < duration && !Applies(e, g)
    ensures EndTime(Insert(evs, e), duration, g) == EndTime(evs, duration, g)
  {
    var evs', r := Insert(evs, e), EndTime(evs, duration, g);
    forall t: int ensures RunningTime(evs', g, t) == RunningTime(evs, g, t) {
      InsertKeepsPast(evs, Slot(evs, e.time), e, g, t);
    }
    assert IsEndTime(evs', duration, g, r);
    EndTimeUnique(evs', duration, g, r, EndTime(evs', duration, g));
  }

  function InsertAll(evs: seq<Event>, es: seq<Event>): seq<Event> {
    if es == [] then evs else Insert(InsertAll(evs, es[..|es| - 1]), es[|es| - 1])
  }

  lemma {:induction false} InsertAllSorted(es: seq<Event>)
    ensures Sorted(InsertAll([], es))
  {
    if es != [] {
      InsertAllSorted(es[..|es| - 1]);
      InsertSorted(InsertAll([], es[..|es| - 1]), es[|es| - 1]);
    }
  }

  lemma {:induction false} InsertAllContents(es: seq<Event>)
    ensures multiset(InsertAll([], es)) == multiset(es)
  {
    if es != [] {
      var x, e := InsertAll([], es[..|es| - 1]), es[|es| - 1];
      InsertAllContents(es[..|es| - 1]);
      InsertAtContents(x, Slot(x, e.time), e);
      SnocContents(es);
    }
  }

  lemma SnocContents(es: seq<Event>)
    requires es != []
    ensures multiset(es) == multiset(es[..|es| - 1]) + multiset{es[|es| - 1]}
  {
    assert es == es[..|es| - 1] + [es[|es| - 1]];
  }

  ghost predicate DistinctTimes(es: seq<Event>) {
    forall i, j :: 0 <= i < j < |es| ==> es[i].time != es[j].time
  }

  lemma HeadsAgree(a: seq<Event>, b: seq<Event>)
    requires Sorted(a) && Sorted(b) && DistinctTimes(a) && a != [] && b != []
    requires a[0] in b && b[0] in a
    ensures a[0] == b[0]
  {
  }

  lemma TailContents(a: seq<Event>)
    requires a != []
    ensures multiset(a[1..]) == multiset(a) - multiset{a[0]}
  {
    assert a == [a[0]] + a[1..];
  }

  lemma SameContents(a: seq<Event>, b: seq<Event>)
    requires multiset(a) == multiset(b)
    ensures |a| == |b|
    ensures a != [] ==> a[0] in b && b[0] in a
  {
    assert |multiset(a)| == |a| && |multiset(b)| == |b|;
    if a != [] {
      assert a[0] in multiset(b) && b[0] in multiset(a);
    }
  }

  /** A list sorted by strictly increasing time is determined by its contents. */
  lemma {:induction false} SortedUnique(a: seq<Event>, b: seq<Event>)
    requires Sorted(a) && Sorted(b) && DistinctTimes(a)
    requires multiset(a) == multiset(b)
    ensures a == b
    decreases |a|
  {
    SameContents(a, b);
    if a != [] {
      HeadsAgree(a, b);
      assert a[1..] == b[1..] by {
        TailContents(a);
        TailContents(b);
        SortedUnique(a[1..], b[1..]);
      }
      assert a == [a[0]] + a[1..] && b == [b[0]] + b[1..];
    }
  }

  function Reverse(es: seq<Event>): (r: seq<Event>)
    ensures |r| == |es|
    ensures forall i :: 0 <= i < |es| ==> r[i] == es[|es| - 1 - i]
    ensures multiset(r) == multiset(es)
  {
    if es == [] then [] else
      assert es == [es[0]] + es[1..];
      Reverse(es[1..]) + [es[0]]
  }

  /** The rows of ContestStartStop as the start-up query returns them:
      latest first, and among equal times the highest group first. */
  ghost predicate QueryOrder(rows: seq<Event>) {
    forall i, j :: 0 <= i < j < |rows| ==>
      rows[j].time < rows[i].time || (rows[j].time == rows[i].time && rows[j].group <= rows[i].group)
  }

  lemma ReverseSnoc(es: seq<Event>, i: nat)
    requires i < |es|
    ensures Reverse(es[..i + 1]) == [es[i]] + Reverse(es[..i])
  {
  }

  lemma ReverseSorted(rows: seq<Event>)
    requires QueryOrder(rows)
    ensures Sorted(Reverse(rows))
  {
  }

  ghost predicate Unique(es: seq<Event>) {
    forall i, j :: 0 <= i < j < |es| ==> es[i] != es[j]
  }

  ghost predicate SameEvents(a: seq<Event>, b: seq<Event>) {
    forall e :: e in a <==> e in b
  }

  /** What the table holds, and the query returns, after the events `es` were scheduled. Group,
      action and time are the primary key: an event scheduled twice is one row. */
  ghost predicate StoredAs(rows: seq<Event>, es: seq<Event>) {
    QueryOrder(rows) && Unique(rows) && SameEvents(rows, es)
  }

  lemma {:induction false} AtMostOnce(a: seq<Event>, e: Event)
    requires Unique(a)
    ensures multiset(a)[e] == if e in a then 1 else 0
  {
    if a != [] {
      var rest := a[1..];
      assert Unique(rest) && a[0] !in rest && (e in a <==> e == a[0] || e in rest);
      AtMostOnce(rest, e);
      TailContents(a);
    }
  }

  lemma UniqueContents(a: seq<Event>, b: seq<Event>)
    requires Unique(a) && Unique(b) && SameEvents(a, b)
    ensures multiset(a) == multiset(b)
  {
    forall e ensures multiset(a)[e] == multiset(b)[e] {
      AtMostOnce(a, e);
      AtMostOnce(b, e);
    }
  }

  lemma TwiceAtLeast(b: seq<Event>, i: nat, j: nat)
    requires i < j < |b| && b[i] == b[j]
    ensures multiset(b)[b[i]] >= 2
  {
    assert b == b[..j] + [b[j]] + b[j + 1..] && b[i] in b[..j];
  }

  /** With pairwise distinct times, whatever the order of scheduling, the list in memory is
      the list that a restart rebuilds from the stored rows. */
  lemma RestartRebuildsList(es: seq<Event>, rows: seq<Event>)
    requires DistinctTimes(es) && StoredAs(rows, es)
    ensures InsertAll([], es) == Reverse(rows)
  {
    var a, b := InsertAll([], es), Reverse(rows);
    UniqueContents(es, rows);
    InsertAllSorted(es);
    InsertAllContents(es);
    ReverseSorted(rows);
    DistinctMultiset(es, a);
    SortedUnique(a, b);
  }

  lemma DistinctMultiset(a: seq<Event>, b: seq<Event>)
    requires multiset(a) == multiset(b) && DistinctTimes(a)
    ensures DistinctTimes(b)
  {
    forall i, j | 0 <= i < j < |b| ensures b[i].time != b[j].time {
      assert b[i] in multiset(a) && b[j] in multiset(a);
      assert Unique(a);
      AtMostOnce(a, b[i]);
      if b[i] == b[j] {
        TwiceAtLeast(b, i, j);
      }
    }
  }

  /** As soon as two different events share a time, some two orders of scheduling the same
      events give different lists. */
  lemma OrderMattersOnTies(rest: seq<Event>, e: Event, f: Event)
    requires e != f && e.time == f.time
    ensures multiset(rest + [e, f]) == multiset(rest + [f, e])
    ensures InsertAll([], rest + [e, f]) != InsertAll([], rest + [f, e])
  {
    SwapContents(rest, e, f);
    PairAt(rest, e, f);
    PairAt(rest, f, e);
  }

  lemma SwapContents(rest: seq<Event>, e: Event, f: Event)
    ensures multiset(rest + [e, f]) == multiset(rest + [f, e])
  {
    assert multiset([e, f]) == multiset([f, e]);
  }

  /** Of two events with the same time, the one inserted last comes first. */
  lemma PairAt(rest: seq<Event>, e: Event, f: Event)
    requires e.time == f.time
    ensures var l, k := InsertAll([], rest + [e, f]), Slot(InsertAll([], rest), e.time);
            k < |l| && l[k] == f
  {
    var x := InsertAll([], rest);
    var k := Slot(x, e.time);
    InsertTwice(rest, e, f);
    InsertPair(x, k, e, f);
    assert (x[..k] + [f, e] + x[k..])[k] == f;
  }

  lemma InsertPair(x: seq<Event>, k: nat, e: Event, f: Event)
    requires e.time == f.time && k == Slot(x, e.time)
    ensures Insert(Insert(x, e), f) == x[..k] + [f, e] + x[k..]
  {
    SlotAgain(x, k, e);
    InsertAtTwice(x, k, e, f);
  }

  lemma SlotAgain(x: seq<Event>, k: nat, e: Event)
    requires k == Slot(x, e.time)
    ensures Slot(InsertAt(x, k, e), e.time) == k
  {
    SlotUnique(InsertAt(x, k, e), e.time, k);
  }

  lemma InsertAtTwice(x: seq<Event>, k: nat, e: Event, f: Event)
    requires k <= |x|
    ensures InsertAt(InsertAt(x, k, e), k, f) == x[..k] + [f, e] + x[k..]
  {
    var y := InsertAt(x, k, e);
    assert y[..k] == x[..k] && y[k..] == [e] + x[k..];
  }

  lemma InsertTwice(rest: seq<Event>, e: Event, f: Event)
    ensures InsertAll([], rest + [e, f]) == Insert(Insert(InsertAll([], rest), e), f)
  {
    InsertAllSnoc(rest, e);
    InsertAllSnoc(rest + [e], f);
    assert rest + [e] + [f] == rest + [e, f];
  }

  lemma InsertAllSnoc(rest: seq<Event>, e: Event)
    ensures InsertAll([], rest + [e]) == Insert(InsertAll([], rest), e)
  {
    assert (rest + [e])[..|rest|] == rest;
  }

  lemma {:induction false} SlotUnique(evs: seq<Event>, t: nat, k: nat)
    requires k <= |evs|
    requires forall i :: 0 <= i < k ==> evs[i].time < t
    requires k < |evs| ==> t <= evs[k].time
    ensures Slot(evs, t) == k
  {
    if evs != [] && evs[0].time < t {
      SlotUnique(evs[1..], t, k - 1);
    }
  }

  /** Start every group and stop group g at one time T: in that order of scheduling the live
      list leaves g running at T, and the list rebuilt by a restart leaves it stopped. */
  lemma RestartChangesStatusOnTies(duration: nat, t: nat, g: nat, es: seq<Event>, rows: seq<Event>)
    requires 0 < duration && 0 < g
    requires es == [Event(t, 0, Started), Event(t, g, Stopped)] && rows == [es[1], es[0]]
    ensures StoredAs(rows, es) && InsertAll([], es) == rows && Reverse(rows) == es
    ensures StatusAt(rows, duration, g, t) == Started && StatusAt(es, duration, g, t) == Stopped
  {
    TieStatuses(duration, rows, es, g, t);
    TieInserted(es, rows);
    TieReversed(es, rows);
    TieStored(es, rows);
  }

  lemma TieStatuses(duration: nat, live: seq<Event>, reloaded: seq<Event>, g: nat, t: nat)
    requires 0 < duration && 0 < g
    requires live == [Event(t, g, Stopped), Event(t, 0, Started)]
    requires reloaded == [Event(t, 0, Started), Event(t, g, Stopped)]
    ensures StatusAt(live, duration, g, t) == Started
    ensures StatusAt(reloaded, duration, g, t) == Stopped
  {
    assert live == [live[0]] + [live[1]] && reloaded == [reloaded[0]] + [reloaded[1]];
    AppendDecides([live[0]], live[1], g, t);
    AppendDecides([reloaded[0]], reloaded[1], g, t);
    SteadyStretch(live, g, 0, t, false);
  }

  lemma TieStored(es: seq<Event>, rows: seq<Event>)
    requires |es| == 2 && rows == [es[1], es[0]] && es[0] != es[1] && es[0].time == es[1].time && es[0].group <= es[1].group
    ensures StoredAs(rows, es)
  {
  }

  lemma TieInserted(es: seq<Event>, rows: seq<Event>)
    requires |es| == 2 && rows == [es[1], es[0]] && es[0].time == es[1].time
    ensures InsertAll([], es) == rows
  {
    assert [] + [es[0], es[1]] == es;
    InsertTwice([], es[0], es[1]);
    InsertPair([], 0, es[0], es[1]);
  }

  lemma TieReversed(es: seq<Event>, rows: seq<Event>)
    requires |es| == 2 && rows == [es[1], es[0]]
    ensures Reverse(rows) == es
  {
    var r := Reverse(rows);
    assert |r| == 2 && r[0] == rows[1] && r[1] == rows[0];
    assert r == es;
  }

  // ---------------------------------------------------------------- when ties matter

  lemma {:induction false} RowsExist(es: seq<Event>) returns (rows: seq<Event>)
    ensures StoredAs(rows, es)
  {
    if es == [] {
      rows := [];
    } else {
      var n := |es| - 1;
      var e := es[n];
      var init := RowsExist(es[..n]);
      rows := init;
      assert forall x :: x in es <==> x in es[..n] || x == e;
      if e !in init {
        rows := AddRow(init, e);
      }
    }
  }

  lemma AddRow(rows: seq<Event>, e: Event) returns (rows': seq<Event>)
    requires QueryOrder(rows) && Unique(rows) && e !in rows
    ensures QueryOrder(rows') && Unique(rows') && forall x :: x in rows' <==> x in rows || x == e
  {
    var k := 0;
    while k < |rows| && !Comes(e, rows[k])
      invariant k <= |rows| && forall i :: 0 <= i < k ==> Comes(rows[i], e)
    {
      k := k + 1;
    }
    rows' := InsertAt(rows, k, e);
    RowInserted(rows, k, e, rows');
    forall x ensures x in rows' <==> x in rows || x == e {
      InsertMembers(rows, k, e, x);
    }
  }

  lemma RowInserted(rows: seq<Event>, k: nat, e: Event, rows': seq<Event>)
    requires k <= |rows| && rows' == InsertAt(rows, k, e)
    requires QueryOrder(rows) && Unique(rows) && e !in rows
    requires (forall i :: 0 <= i < k ==> Comes(rows[i], e)) && forall i :: k <= i < |rows| ==> Comes(e, rows[i])
    ensures QueryOrder(rows') && Unique(rows')
  {
  }

  /** `a` comes before `b` in the order of the query. */
  predicate Comes(a: Event, b: Event) {
    b.time < a.time || (b.time == a.time && b.group <= a.group)
  }

  /** Every order of scheduling the same events gives the list that a restart rebuilds, exactly
      when no two of them, the same or different, have the same time. */
  lemma ListRebuiltExactlyWhen(es: seq<Event>)
    ensures (forall order, rows :: multiset(order) == multiset(es) && StoredAs(rows, es) ==>
               InsertAll([], order) == Reverse(rows))
            <==> DistinctTimes(es)
  {
    if DistinctTimes(es) {
      forall order, rows | multiset(order) == multiset(es) && StoredAs(rows, es)
        ensures InsertAll([], order) == Reverse(rows)
      {
        DistinctMultiset(es, order);
        SameMembers(order, es);
        RestartRebuildsList(order, rows);
      }
    } else {
      var i, j :| 0 <= i < j < |es| && es[i].time == es[j].time;
      var rows := RowsExist(es);
      var order := DifferentList(es, i, j, rows);
    }
  }

  lemma DifferentList(es: seq<Event>, i: nat, j: nat, rows: seq<Event>) returns (order: seq<Event>)
    requires i < j < |es| && es[i].time == es[j].time && StoredAs(rows, es)
    ensures multiset(order) == multiset(es) && InsertAll([], order) != Reverse(rows)
  {
    if es[i] == es[j] {
      order := es;
      DuplicateDiffers(es, i, j, rows);
    } else {
      var rest := Without(Without(es, j), i);
      order := EitherDiffers(rest, es[i], es[j], Reverse(rows));
      assert multiset(order) == multiset(es) by {
        assert multiset(order) == multiset(rest) + multiset{es[i]} + multiset{es[j]};
      }
    }
  }

  lemma DuplicateDiffers(es: seq<Event>, i: nat, j: nat, rows: seq<Event>)
    requires i < j < |es| && es[i] == es[j] && StoredAs(rows, es)
    ensures InsertAll([], es) != Reverse(rows)
  {
    InsertAllContents(es);
    TwiceAtLeast(es, i, j);
    AtMostOnce(rows, es[i]);
  }

  lemma EitherDiffers(rest: seq<Event>, e: Event, f: Event, list: seq<Event>) returns (order: seq<Event>)
    requires e != f && e.time == f.time
    ensures multiset(order) == multiset(rest) + multiset{e} + multiset{f}
    ensures InsertAll([], order) != list
  {
    OrderMattersOnTies(rest, e, f);
    order := if InsertAll([], rest + [e, f]) == list then rest + [f, e] else rest + [e, f];
  }

  /** Two events that say different things about some group at one moment. */
  predicate Conflict(e: Event, f: Event) {
    e.time == f.time && e.action != f.action && (e.group == f.group || e.group == 0 || f.group == 0)
  }

  ghost predicate NoConflict(es: seq<Event>) {
    forall e, f :: e in es && f in es ==> !Conflict(e, f)
  }

  /** Two lists that no caller can tell apart. */
  ghost predicate SameTimer(a: seq<Event>, b: seq<Event>) {
    forall duration, g, t :: TimeAt(a, duration, g, t) == TimeAt(b, duration, g, t)
                             && StatusAt(a, duration, g, t) == StatusAt(b, duration, g, t)
  }

  lemma SameTimerWhenRunning(a: seq<Event>, b: seq<Event>)
    requires forall g, s :: RunningAt(a, g, s) == RunningAt(b, g, s)
    ensures SameTimer(a, b)
  {
    forall duration, g, t ensures TimeAt(a, duration, g, t) == TimeAt(b, duration, g, t)
                                  && StatusAt(a, duration, g, t) == StatusAt(b, duration, g, t) {
      SameTime(a, b, g, t);
    }
  }

  lemma RunningWhenSameTimer(a: seq<Event>, b: seq<Event>, g: nat, s: int)
    requires SameTimer(a, b)
    ensures RunningAt(a, g, s) == RunningAt(b, g, s)
  {
    var duration := RunningTime(a, g, s) + RunningTime(b, g, s) + 1;
    assert StatusAt(a, duration, g, s) == StatusAt(b, duration, g, s);
  }

  lemma {:induction false} LatestExists(evs: seq<Event>, g: nat, s: int, i: nat) returns (j: nat)
    requires i < |evs| && Applies(evs[i], g) && evs[i].time <= s
    ensures Latest(evs, g, s, j)
    decreases |evs| - i
  {
    if k :| i < k < |evs| && Applies(evs[k], g) && evs[k].time <= s {
      j := LatestExists(evs, g, s, k);
    } else {
      j := i;
    }
  }

  lemma LatestIsLatest(evs: seq<Event>, g: nat, s: int, i: nat, e: Event)
    requires Sorted(evs) && Latest(evs, g, s, i) && e in evs && Applies(e, g) && e.time <= s
    ensures e.time <= evs[i].time
  {
    var k :| 0 <= k < |evs| && evs[k] == e;
  }

  lemma RunningSame(a: seq<Event>, b: seq<Event>, g: nat, s: int)
    requires Sorted(a) && Sorted(b) && SameEvents(a, b) && NoConflict(a)
    ensures RunningAt(a, g, s) ==> RunningAt(b, g, s)
  {
    if i :| Latest(a, g, s, i) && a[i].action == Started {
      assert a[i] in b;
      var k :| 0 <= k < |b| && b[k] == a[i];
      var j := LatestExists(b, g, s, k);
      LatestIsLatest(b, g, s, j, a[i]);
      assert b[j] in a;
      LatestIsLatest(a, g, s, i, b[j]);
      assert !Conflict(a[i], b[j]);
    }
  }

  /** Of the events with one time, the one scheduled first ends up last and decides. */
  lemma {:induction false} FirstDecides(e: Event, rest: seq<Event>) returns (i: nat)
    ensures var l := InsertAll([], [e] + rest);
            i < |l| && l[i] == e && forall j :: i < j < |l| ==> e.time < l[j].time
  {
    var es := [e] + rest;
    if rest == [] {
      assert es[..0] == [];
      i := 0;
    } else {
      var n := |rest| - 1;
      assert es[..|es| - 1] == [e] + rest[..n];
      i := FirstDecides(e, rest[..n]);
      InsertAllSorted([e] + rest[..n]);
      i := StaysDecisive(InsertAll([], [e] + rest[..n]), i, e, rest[n]);
    }
  }

  lemma StaysDecisive(l: seq<Event>, i: nat, e: Event, f: Event) returns (i': nat)
    requires Sorted(l) && i < |l| && l[i] == e && forall j :: i < j < |l| ==> e.time < l[j].time
    ensures var l' := Insert(l, f);
            i' < |l'| && l'[i'] == e && forall j :: i' < j < |l'| ==> e.time < l'[j].time
  {
    var k := Slot(l, f.time);
    i' := if k <= i then i + 1 else i;
  }

  lemma FirstRuns(e: Event, rest: seq<Event>, g: nat)
    requires Applies(e, g)
    ensures RunningAt(InsertAll([], [e] + rest), g, e.time) == (e.action == Started)
  {
    var i := FirstDecides(e, rest);
    assert Latest(InsertAll([], [e] + rest), g, e.time, i);
  }

  /** Whatever the order of scheduling, a restart changes no group's time or status at any
      moment, exactly when no two events of one time contradict each other about a group. */
  lemma RestartInvisibleExactlyWhen(es: seq<Event>)
    ensures (forall order, rows :: multiset(order) == multiset(es) && StoredAs(rows, es) ==>
               SameTimer(InsertAll([], order), Reverse(rows)))
            <==> NoConflict(es)
  {
    if NoConflict(es) {
      forall order, rows | multiset(order) == multiset(es) && StoredAs(rows, es)
        ensures SameTimer(InsertAll([], order), Reverse(rows))
      {
        RestartInvisible(es, order, rows);
      }
    } else {
      var e, f :| e in es && f in es && Conflict(e, f);
      var rows := RowsExist(es);
      var order := RestartVisible(es, e, f, rows);
    }
  }

  lemma RestartInvisible(es: seq<Event>, order: seq<Event>, rows: seq<Event>)
    requires NoConflict(es) && multiset(order) == multiset(es) && StoredAs(rows, es)
    ensures SameTimer(InsertAll([], order), Reverse(rows))
  {
    var a, b := InsertAll([], order), Reverse(rows);
    InsertAllSorted(order);
    InsertAllContents(order);
    ReverseSorted(rows);
    SameMembers(a, es);
    SameMembers(b, rows);
    forall g, s ensures RunningAt(a, g, s) == RunningAt(b, g, s) {
      RunningSame(a, b, g, s);
      RunningSame(b, a, g, s);
    }
    SameTimerWhenRunning(a, b);
  }

  lemma RestartVisible(es: seq<Event>, e: Event, f: Event, rows: seq<Event>) returns (order: seq<Event>)
    requires e in es && f in es && Conflict(e, f)
    ensures multiset(order) == multiset(es) && !SameTimer(InsertAll([], order), Reverse(rows))
  {
    var g := if e.group == 0 then f.group else e.group;
    var i :| 0 <= i < |es| && es[i] == e;
    var j :| 0 <= j < |es| && es[j] == f;
    var first, second := [e] + Without(es, i), [f] + Without(es, j);
    FirstRuns(e, Without(es, i), g);
    FirstRuns(f, Without(es, j), g);
    if SameTimer(InsertAll([], first), Reverse(rows)) {
      RunningWhenSameTimer(InsertAll([], first), Reverse(rows), g, e.time);
      order := second;
    } else {
      order := first;
    }
    if SameTimer(InsertAll([], order), Reverse(rows)) {
      RunningWhenSameTimer(InsertAll([], order), Reverse(rows), g, e.time);
    }
  }

  // ---------------------------------------------------------------- the timer object

  class TimerSupport {
    var evlist: seq<Event>
    var duration: nat
    var blinds: nat
    var groupState: map<nat, Status>

    ghost predicate Valid()
      reads this
    {
      Sorted(evlist) && 0 < duration && blinds <= duration
    }

    /** The configured lengths, and the stored rows in query order, each pushed on the front. */
    constructor (configDuration: nat, configBlinds: nat, rows: seq<Event>)
      requires QueryOrder(rows)
      ensures Valid() && groupState == map[]
      ensures evlist == Reverse(rows)
      ensures duration == if configDuration == 0 then 5 * 3600 else configDuration
      ensures blinds == if configBlinds > duration then duration else configBlinds
    {
      var d := if configDuration == 0 then 5 * 3600 else configDuration;
      var list: seq<Event> := [];
      for i := 0 to |rows|
        invariant list == Reverse(rows[..i])
      {
        list := [rows[i]] + list;
        ReverseSnoc(rows, i);
      }
      assert rows[..|rows|] == rows;
      ReverseSorted(rows);
      evlist, duration, groupState := list, d, map[];
      blinds := if configBlinds > d then d else configBlinds;
    }

    /** A real time of 0 stands for the current time. */
    method ContestTime(g: nat, realTime: nat, now: nat) returns (elapsed: nat)
      requires Valid()
      ensures elapsed == TimeAt(evlist, duration, g, if realTime == 0 then now else realTime)
    {
      var t := if realTime == 0 then now else realTime;
      elapsed := 0;
      var lastStart: nat := 0;
      var status := Stopped;
      ghost var since: nat := 0;
      var i := 0;
      while i < |evlist| && evlist[i].time <= t
        invariant 0 <= i <= |evlist|
        invariant Tracks(evlist[..i], g, status, since, elapsed)
        invariant since <= t
        invariant i < |evlist| ==> since <= evlist[i].time
        invariant status == Started ==> lastStart == since
      {
        var e := evlist[i];
        TracksNext(evlist, i, g, status, since, elapsed);
        if Applies(e, g) {
          if e.action != status {
            status := e.action;
            if status == Started {
              lastStart := e.time;
            } else {
              elapsed := elapsed + (e.time - lastStart);
            }
            since := e.time;
          }
        }
        i := i + 1;
      }
      TracksUntil(evlist, i, g, status, since, elapsed, t);
      if status == Started {
        elapsed := elapsed + (t - lastStart);
      }
      if elapsed > duration {
        elapsed := duration;
      }
    }

    method ContestStatus(g: nat, realTime: nat, now: nat) returns (status: Status)
      requires Valid()
      ensures status == StatusAt(evlist, duration, g, if realTime == 0 then now else realTime)
    {
      var t := if realTime == 0 then now else realTime;
      status := Stopped;
      var i := 0;
      while i < |evlist| && evlist[i].time <= t
        invariant 0 <= i <= |evlist|
        invariant RunningAt(evlist[..i], g, t) == (status == Started)
      {
        var e := evlist[i];
        StatusNext(evlist, i, g, t);
        if Applies(e, g) {
          status := e.action;
        }
        i := i + 1;
      }
      FutureInvisible(evlist, i, g, t);
      var elapsed := ContestTime(g, t, now);
      if elapsed >= duration {
        status := Stopped;
      }
    }

    /** The moment the contest time runs out: 0 exactly when it never does. */
    method ContestEndTime(g: nat) returns (end: nat)
      requires Valid()
      ensures IsEndTime(evlist, duration, g, end)
      ensures end == EndTime(evlist, duration, g)
    {
      end := EndTimeLoop(g);
      EndTimeUnique(evlist, duration, g, end, EndTime(evlist, duration, g));
    }

    method EndTimeLoop(g: nat) returns (end: nat)
      requires Valid()
      ensures IsEndTime(evlist, duration, g, end)
    {
      var status := Stopped;
      var remaining: nat := duration;
      var lastStart: nat := 0;
      ghost var since: nat := 0;
      var i := 0;
      while i < |evlist|
        invariant 0 <= i <= |evlist|
        invariant remaining <= duration
        invariant Tracks(evlist[..i], g, status, since, duration - remaining)
        invariant i < |evlist| ==> since <= evlist[i].time
        invariant status == Started ==> lastStart == since
      {
        var e := evlist[i];
        TracksNext(evlist, i, g, status, since, duration - remaining);
        if Applies(e, g) && e.action != status {
          if e.action == Started {
            lastStart := e.time;
          } else {
            var elapsed := e.time - lastStart;
            if elapsed > remaining {
              RunsOut(evlist, i, duration, g, since, remaining);
              return lastStart + remaining;
            }
            remaining := remaining - elapsed;
          }
          status := e.action;
          since := e.time;
        }
        i := i + 1;
      }
      if status == Started {
        RunsOut(evlist, i, duration, g, since, remaining);
        return lastStart + remaining;
      }
      assert evlist[..i] == evlist;
      NeverRunsOut(evlist, duration, g, since, remaining);
      return 0;
    }

    /** Stores the event and links it in before the first event that is not earlier.
        `dbOk` says whether the row could be written. */
    method ScheduleStartStop(g: nat, time: nat, action: Status, dbOk: bool) returns (res: bool)
      requires Valid()
      modifies this`evlist
      ensures Valid() && res == dbOk
      ensures evlist == if dbOk then Insert(old(evlist), Event(time, g, action)) else old(evlist)
    {
      var i := 0;
      while i < |evlist| && evlist[i].time < time
        invariant 0 <= i <= |evlist|
        invariant forall j :: 0 <= j < i ==> evlist[j].time < time
      {
        i := i + 1;
      }
      res := dbOk;
      if res {
        SlotUnique(evlist, time, i);
        InsertSorted(evlist, Event(time, g, action));
        evlist := evlist[..i] + [Event(time, g, action)] + evlist[i..];
      }
    }

    method UpdateGroupState(g: nat, time: nat, now: nat) returns (oldState: Status, newState: Status)
      requires Valid()
      modifies this`groupState
      ensures oldState == if g in old(groupState) then old(groupState)[g] else Stopped
      ensures newState == StatusAt(evlist, duration, g, if time == 0 then now else time)
      ensures groupState == old(groupState)[g := newState]
    {
      if g !in groupState {
        groupState := groupState[g := Stopped];
      }
      oldState := groupState[g];
      newState := ContestStatus(g, time, now);
      if newState != oldState {
        groupState := groupState[g := newState];
      }
    }
  }

  /** The clock is running since `since` with `remaining` seconds left, and no event before
      position k of the list stops it in time. */
  lemma RunsOut(evs: seq<Event>, k: nat, duration: nat, g: nat, since: nat, remaining: nat)
    requires k <= |evs| && remaining <= duration && 0 < duration
    requires Tracks(evs[..k], g, Started, since, duration - remaining)
    requires Sorted(evs) && (k < |evs| ==> since + remaining < evs[k].time)
    ensures IsEndTime(evs, duration, g, since + remaining)
  {
    var r := since + remaining;
    TracksAll(evs, k, duration, g, since, remaining, r);
    TracksAll(evs, k, duration, g, since, remaining, r + 1);
    EndTimeReached(evs, duration, g, r);
  }

  lemma TracksAll(evs: seq<Event>, k: nat, duration: nat, g: nat, since: nat, remaining: nat, t: nat)
    requires k <= |evs| && remaining <= duration && since <= t
    requires Tracks(evs[..k], g, Started, since, duration - remaining)
    requires forall i :: k <= i < |evs| ==> t <= evs[i].time
    ensures RunningTime(evs, g, t) == duration - remaining + (t - since)
  {
    TracksAt(evs[..k], g, Started, since, duration - remaining, t);
    SameUpTo(evs, k, g, t);
  }

  lemma NeverRunsOut(evs: seq<Event>, duration: nat, g: nat, since: nat, remaining: nat)
    requires remaining <= duration
    requires Tracks(evs, g, Stopped, since, duration - remaining)
    ensures IsEndTime(evs, duration, g, 0)
  {
    forall t: int ensures RunningTime(evs, g, t) <= duration {
      if since <= t {
        TracksAt(evs, g, Stopped, since, duration - remaining, t);
      } else {
        RunningTimeGrowth(evs, g, t, since);
      }
    }
  }
}
