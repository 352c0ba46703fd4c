/** The marker dispatcher (src/markers.C).

    Idle marker connections, queued submissions, the submission each busy connection was
    issued, and a heap of issue records from which overdue work is taken back. A connection is
    known by its address. Every operation runs under one lock. `db` parameters tell whether
    the database lookup inside `issue` succeeds.
 */
module Markers {
  import opened Options

  type Conn = int

  /** An entry of the priority queue: when which submission went to which connection. */
  datatype Record = Record(time: int, conn: Conn, sub: nat)

  /** The order of std::pair: time first, then address, then submission. */
  predicate Leq(a: Record, b: Record) {
    || a.time < b.time
    || (a.time == b.time && (a.conn < b.conn || (a.conn == b.conn && a.sub <= b.sub)))
  }

  /** `since` remembers when the work a connection holds was issued; the code does not keep it. */
  datatype Pool = Pool(issued: map<Conn, nat>, markers: seq<Conn>, problems: seq<nat>,
                       times: multiset<Record>, since: map<Conn, int>)

  const EMPTY := Pool(map[], [], [], multiset{}, map[])

  // ---------------------------------------------------------------- what the operations compute

  function Issue(p: Pool, cc: Conn, sd: nat, now: int, db: bool): Pool {
    if !db then p.(problems := p.problems + [sd], markers := p.markers + [cc])
    else p.(issued := p.issued[cc := sd], since := p.since[cc := now],
            times := p.times + multiset{Record(now, cc, sd)})
  }

  function QueueSubmission(p: Pool, sd: nat, now: int, db: bool): Pool {
    if p.markers == [] then p.(problems := p.problems + [sd])
    else Issue(p.(markers := p.markers[1..]), p.markers[0], sd, now, db)
  }

  function QueueMarker(p: Pool, cc: Conn, now: int, db: bool): Pool {
    if p.problems == [] then p.(markers := p.markers + [cc])
    else Issue(p.(problems := p.problems[1..]), cc, p.problems[0], now, db)
  }

  function Forget(p: Pool, cc: Conn): Pool {
    p.(issued := p.issued - {cc}, since := p.since - {cc})
  }

  function Without(s: seq<Conn>, cc: Conn): seq<Conn> {
    if s == [] then [] else if s[0] == cc then s[1..] else [s[0]] + Without(s[1..], cc)
  }

  function EnqueueMarker(p: Pool, cc: Conn, now: int, db: bool): Pool {
    if cc in p.issued || cc in p.markers then p else QueueMarker(p, cc, now, db)
  }

  function Preempt(p: Pool, cc: Conn, now: int, db: bool): Pool {
    if cc in p.markers then p.(markers := Without(p.markers, cc))
    else if cc in p.issued then QueueSubmission(Forget(p, cc), p.issued[cc], now, db)
    else p
  }

  function HasIssued(p: Pool, cc: Conn): nat {
    if cc in p.issued then p.issued[cc] else 0
  }

  /** A marker that marked something else than it was issued: what it was issued is queued again. */
  function Marked(p: Pool, cc: Conn, sd: nat, now: int, db1: bool, db2: bool): Pool {
    if cc !in p.issued then p else
      var p1 := if sd != p.issued[cc] then QueueSubmission(p, p.issued[cc], now, db1) else p;
      QueueMarker(Forget(p1, cc), cc, now, db2)
  }

  ghost predicate IsTop(times: multiset<Record>, r: Record) {
    r in times && forall x :: x in times ==> Leq(x, r)
  }

  /** One turn of the timeout loop: the top record is dropped, and if it describes work that is
      still held, that work is taken back and queued again. */
  function Reclaim(p: Pool, r: Record, now: int, db: bool): Pool {
    var q := p.(times := p.times - multiset{r});
    if r.conn in p.issued && p.issued[r.conn] == r.sub then QueueSubmission(Forget(q, r.conn), r.sub, now, db)
    else q
  }

  // ---------------------------------------------------------------- invariants

  ghost predicate Distinct(s: seq<Conn>) {
    forall i, j :: 0 <= i < j < |s| ==> s[i] != s[j]
  }

  /** No connection is idle twice, or idle and busy; every piece of issued work has the record
      that can take it back. */
  ghost predicate Inv(p: Pool) {
    && Distinct(p.markers)
    && (forall c :: c in p.markers ==> c !in p.issued)
    && (forall c :: c in p.issued ==> c in p.since && Record(p.since[c], c, p.issued[c]) in p.times)
  }

  /** Nothing waits while a marker is idle. */
  ghost predicate Busy(p: Pool) {
    p.markers == [] || p.problems == []
  }

  function Holders(issued: map<Conn, nat>, s: nat): set<Conn> {
    set c | c in issued && issued[c] == s
  }

  /** How often submission s is queued or being marked. */
  function Outstanding(p: Pool, s: nat): nat {
    multiset(p.problems)[s] + |Holders(p.issued, s)|
  }

  function One(b: bool): nat {
    if b then 1 else 0
  }

  lemma HoldersAdd(issued: map<Conn, nat>, cc: Conn, sd: nat, s: nat)
    requires cc !in issued
    ensures |Holders(issued[cc := sd], s)| == |Holders(issued, s)| + One(sd == s)
  {
    if sd == s {
      assert Holders(issued[cc := sd], s) == Holders(issued, s) + {cc};
    } else {
      assert Holders(issued[cc := sd], s) == Holders(issued, s);
    }
  }

  lemma HoldersRemove(issued: map<Conn, nat>, cc: Conn, s: nat)
    requires cc in issued
    ensures |Holders(issued, s)| == |Holders(issued - {cc}, s)| + One(issued[cc] == s)
  {
    HoldersAdd(issued - {cc}, cc, issued[cc], s);
    assert (issued - {cc})[cc := issued[cc]] == issued;
  }

  lemma PopFront(problems: seq<nat>, s: nat)
    requires problems != []
    ensures multiset(problems)[s] == multiset(problems[1..])[s] + One(problems[0] == s)
  {
    assert problems == [problems[0]] + problems[1..];
  }

  // ---------------------------------------------------------------- the building blocks

  lemma IssueOk(p: Pool, cc: Conn, sd: nat, now: int, db: bool)
    requires Inv(p) && cc !in p.issued && cc !in p.markers
    ensures Inv(Issue(p, cc, sd, now, db))
    ensures forall s :: Outstanding(Issue(p, cc, sd, now, db), s) == Outstanding(p, s) + One(s == sd)
  {
    forall s ensures Outstanding(Issue(p, cc, sd, now, db), s) == Outstanding(p, s) + One(s == sd) {
      HoldersAdd(p.issued, cc, sd, s);
    }
  }

  lemma QueueSubmissionOk(p: Pool, sd: nat, now: int, db: bool)
    requires Inv(p)
    ensures var q := QueueSubmission(p, sd, now, db);
            && Inv(q) && (db && Busy(p) ==> Busy(q))
            && (forall s :: Outstanding(q, s) == Outstanding(p, s) + One(s == sd))
  {
    if p.markers != [] {
      var q := p.(markers := p.markers[1..]);
      assert p.markers[0] in p.markers && p.markers[0] !in q.markers;
      assert forall c :: c in q.markers ==> c in p.markers;
      IssueOk(q, p.markers[0], sd, now, db);
    }
  }

  lemma QueueSubmissionConns(p: Pool, sd: nat, now: int, db: bool, cc: Conn)
    requires Inv(p)
    ensures var q := QueueSubmission(p, sd, now, db);
            && (cc in p.issued ==> cc in q.issued && q.issued[cc] == p.issued[cc] && q.since[cc] == p.since[cc])
            && (cc !in p.markers ==> cc !in q.markers)
            && (cc !in p.markers && cc !in p.issued ==> cc !in q.issued)
  {
    if p.markers != [] {
      assert p.markers[0] in p.markers;
      assert cc in p.markers[1..] ==> cc in p.markers;
    }
  }

  lemma QueueMarkerOk(p: Pool, cc: Conn, now: int, db: bool)
    requires Inv(p) && cc !in p.issued && cc !in p.markers
    ensures var q := QueueMarker(p, cc, now, db);
            && Inv(q) && (db && Busy(p) ==> Busy(q))
            && (forall s :: Outstanding(q, s) == Outstanding(p, s))
  {
    if p.problems != [] {
      var q := p.(problems := p.problems[1..]);
      IssueOk(q, cc, p.problems[0], now, db);
      forall s ensures Outstanding(p, s) == Outstanding(q, s) + One(s == p.problems[0]) {
        PopFront(p.problems, s);
      }
    }
  }

  lemma ForgetOk(p: Pool, cc: Conn)
    requires Inv(p) && cc in p.issued
    ensures Inv(Forget(p, cc)) && cc !in Forget(p, cc).issued && cc !in Forget(p, cc).markers
    ensures forall s :: Outstanding(p, s) == Outstanding(Forget(p, cc), s) + One(s == p.issued[cc])
  {
    forall s ensures Outstanding(p, s) == Outstanding(Forget(p, cc), s) + One(s == p.issued[cc]) {
      HoldersRemove(p.issued, cc, s);
    }
  }

  lemma {:induction false} WithoutOk(s: seq<Conn>, cc: Conn)
    requires Distinct(s)
    ensures Distinct(Without(s, cc)) && forall c :: c in Without(s, cc) <==> c in s && c != cc
  {
    if s != [] {
      var rest := Without(s[1..], cc);
      WithoutOk(s[1..], cc);
      assert forall c :: c in s <==> c == s[0] || c in s[1..];
      assert s[0] !in s[1..];
      assert forall i :: 0 <= i < |rest| ==> rest[i] in rest;
    }
  }

  lemma {:induction false} WithoutAt(s: seq<Conn>, cc: Conn, i: nat)
    requires i < |s| && s[i] == cc && forall j :: 0 <= j < i ==> s[j] != cc
    ensures cc in s && Without(s, cc) == s[..i] + s[i + 1..]
  {
    if i > 0 {
      WithoutAt(s[1..], cc, i - 1);
      assert [s[0]] + (s[1..][..i - 1] + s[1..][i..]) == s[..i] + s[i + 1..];
    }
  }

  // ---------------------------------------------------------------- the operations

  lemma EnqueueMarkerOk(p: Pool, cc: Conn, now: int, db: bool)
    requires Inv(p)
    ensures var q := EnqueueMarker(p, cc, now, db);
            && Inv(q) && (db && Busy(p) ==> Busy(q)) && forall s :: Outstanding(q, s) == Outstanding(p, s)
  {
    if cc !in p.issued && cc !in p.markers {
      QueueMarkerOk(p, cc, now, db);
    }
  }

  /** After preemption the connection is neither idle nor busy, and its work is queued again. */
  lemma PreemptOk(p: Pool, cc: Conn, now: int, db: bool)
    requires Inv(p)
    ensures var q := Preempt(p, cc, now, db);
            && Inv(q) && (db && Busy(p) ==> Busy(q)) && (forall s :: Outstanding(q, s) == Outstanding(p, s))
            && cc !in q.markers && cc !in q.issued
  {
    if cc in p.markers {
      WithoutOk(p.markers, cc);
    } else if cc in p.issued {
      ForgetOk(p, cc);
      QueueSubmissionOk(Forget(p, cc), p.issued[cc], now, db);
      QueueSubmissionConns(Forget(p, cc), p.issued[cc], now, db, cc);
    }
  }

  /** A mark removes one submission exactly when it is for what the marker was issued. */
  lemma MarkedOk(p: Pool, cc: Conn, sd: nat, now: int, db1: bool, db2: bool)
    requires Inv(p)
    ensures var q := Marked(p, cc, sd, now, db1, db2);
            && Inv(q) && (db1 && db2 && Busy(p) ==> Busy(q))
            && (forall s :: Outstanding(p, s) == Outstanding(q, s) + One(cc in p.issued && p.issued[cc] == sd && s == sd))
  {
    if cc in p.issued {
      var work := p.issued[cc];
      var p1 := if sd != work then QueueSubmission(p, work, now, db1) else p;
      if sd != work {
        QueueSubmissionOk(p, work, now, db1);
        QueueSubmissionConns(p, work, now, db1, cc);
      }
      ForgetOk(p1, cc);
      QueueMarkerOk(Forget(p1, cc), cc, now, db2);
    }
  }

  /** Taking back: only work that was issued no later than the record, hence overdue whenever
      the record is, even if older records for the same pair are around. */
  lemma ReclaimOk(p: Pool, r: Record, now: int, db: bool)
    requires Inv(p) && IsTop(p.times, r)
    ensures var q := Reclaim(p, r, now, db);
            && Inv(q) && (db && Busy(p) ==> Busy(q)) && (forall s :: Outstanding(q, s) == Outstanding(p, s))
    ensures forall c :: c in p.issued && c !in Reclaim(p, r, now, db).issued ==>
              c == r.conn && p.issued[c] == r.sub && p.since[c] <= r.time
    ensures r.conn in p.issued && p.issued[r.conn] == r.sub ==>
              r.conn !in Reclaim(p, r, now, db).issued && r.conn !in Reclaim(p, r, now, db).markers
  {
    var q := p.(times := p.times - multiset{r});
    if r.conn in p.issued && p.issued[r.conn] == r.sub {
      var f := Forget(q, r.conn);
      ReclaimForget(p, r);
      QueueSubmissionOk(f, r.sub, now, db);
      forall c ensures c in f.issued ==> c in QueueSubmission(f, r.sub, now, db).issued {
        QueueSubmissionConns(f, r.sub, now, db, c);
      }
      QueueSubmissionConns(f, r.sub, now, db, r.conn);
    } else {
      ReclaimStale(p, r);
    }
  }

  lemma ReclaimForget(p: Pool, r: Record)
    requires Inv(p) && IsTop(p.times, r) && r.conn in p.issued && p.issued[r.conn] == r.sub
    ensures var f := Forget(p.(times := p.times - multiset{r}), r.conn);
            && Inv(f) && p.since[r.conn] <= r.time
            && (forall s :: Outstanding(p, s) == Outstanding(f, s) + One(s == r.sub))
  {
    ForgetOk(p, r.conn);
    assert Leq(Record(p.since[r.conn], r.conn, r.sub), r);
  }

  lemma ReclaimStale(p: Pool, r: Record)
    requires Inv(p) && !(r.conn in p.issued && p.issued[r.conn] == r.sub)
    ensures Inv(p.(times := p.times - multiset{r}))
  {
  }

  // ---------------------------------------------------------------- the dispatcher object

  lemma TopExists(times: multiset<Record>) returns (r: Record)
    requires times != multiset{}
    ensures IsTop(times, r)
    decreases |times|
  {
    r :| r in times;
    var rest := times - multiset{r};
    assert forall x :: x in times ==> x == r || x in rest;
    if rest != multiset{} {
      var t := TopExists(rest);
      if !Leq(t, r) {
        r := t;
      }
    }
  }

  class Dispatcher {
    var issued: map<Conn, nat>
    var markers: seq<Conn>
    var problems: seq<nat>
    var issueTimes: multiset<Record>
    const timeout: nat
    ghost var since: map<Conn, int>

    ghost function View(): Pool
      reads this
    {
      Pool(issued, markers, problems, issueTimes, since)
    }

    constructor (timeout: nat)
      ensures View() == EMPTY && this.timeout == timeout
    {
      issued, markers, problems, issueTimes, since := map[], [], [], multiset{}, map[];
      this.timeout := timeout;
    }

    method DoIssue(cc: Conn, sd: nat, now: int, db: bool)
      modifies this
      ensures View() == Issue(old(View()), cc, sd, now, db)
    {
      if !db {
        problems := problems + [sd];
        markers := markers + [cc];
        return;
      }
      issued := issued[cc := sd];
      since := since[cc := now];
      issueTimes := issueTimes + multiset{Record(now, cc, sd)};
    }

    method RealEnqueueSubmission(sd: nat, now: int, db: bool)
      modifies this
      ensures View() == QueueSubmission(old(View()), sd, now, db)
    {
      if markers == [] {
        problems := problems + [sd];
      } else {
        var cc := markers[0];
        markers := markers[1..];
        DoIssue(cc, sd, now, db);
      }
    }

    method RealEnqueueMarker(cc: Conn, now: int, db: bool)
      modifies this
      ensures View() == QueueMarker(old(View()), cc, now, db)
    {
      if problems == [] {
        markers := markers + [cc];
      } else {
        var sd := problems[0];
        problems := problems[1..];
        DoIssue(cc, sd, now, db);
      }
    }

    method Subscribe(cc: Conn, now: int, db: bool)
      modifies this
      ensures View() == EnqueueMarker(old(View()), cc, now, db)
    {
      if cc !in issued && cc !in markers {
        RealEnqueueMarker(cc, now, db);
      }
    }

    method EnqueueSubmission(sd: nat, now: int, db: bool)
      modifies this
      ensures View() == QueueSubmission(old(View()), sd, now, db)
    {
      RealEnqueueSubmission(sd, now, db);
    }

    method PreemptMarker(cc: Conn, now: int, db: bool)
      modifies this
      ensures View() == Preempt(old(View()), cc, now, db)
    {
      var i := 0;
      while i < |markers| && markers[i] != cc
        invariant 0 <= i <= |markers| && forall j :: 0 <= j < i ==> markers[j] != cc
      {
        i := i + 1;
      }
      if i < |markers| {
        WithoutAt(markers, cc, i);
        markers := markers[..i] + markers[i + 1..];
      } else if cc in issued {
        var tmp := issued[cc];
        issued := issued - {cc};
        since := since - {cc};
        RealEnqueueSubmission(tmp, now, db);
      }
    }

    method NotifyMarked(cc: Conn, sd: nat, now: int, db1: bool, db2: bool)
      modifies this
      ensures View() == Marked(old(View()), cc, sd, now, db1, db2)
    {
      if cc in issued {
        if sd != issued[cc] {
          RealEnqueueSubmission(issued[cc], now, db1);
        }
        issued := issued - {cc};
        since := since - {cc};
        RealEnqueueMarker(cc, now, db2);
      }
    }

    /** The timeout loop. `clock(k)` is the k-th reading of the clock and `db(k)` the outcome of
        the k-th lookup. It terminates although it can put new records on the heap: each turn
        uses up an idle marker or a record. When the newest record is overdue and no marker is
        idle, every job is taken back. */
    method CheckForTimeouts(clock: nat -> int, db: nat -> bool) returns (ghost turns: seq<Pool>)
      requires Inv(View())
      modifies this
      ensures Inv(View())
      ensures Turns(turns, timeout) && turns[0] == old(View()) && turns[|turns| - 1] == View()
      ensures issueTimes != multiset{} ==>
                exists r :: IsTop(issueTimes, r) && clock(|turns| - 1) - r.time <= timeout
      ensures Forward(clock) && old(markers) == [] && Overdue(old(issueTimes), clock(0), timeout) ==>
                issued == map[] && issueTimes == multiset{}
    {
      turns := [View()];
      var k := 0;
      while issueTimes != multiset{}
        invariant k == |turns| - 1 && Inv(View())
        invariant Turns(turns, timeout) && turns[0] == old(View()) && turns[|turns| - 1] == View()
        invariant old(markers) == [] && Overdue(old(issueTimes), clock(0), timeout) ==>
                    markers == [] && Overdue(issueTimes, clock(0), timeout)
        decreases |markers|, |issueTimes|
      {
        ghost var top := TopExists(issueTimes);
        var r :| r in issueTimes && forall x :: x in issueTimes ==> Leq(x, r);
        if clock(k) - r.time <= timeout {
          assert IsTop(issueTimes, r) && (Forward(clock) ==> clock(0) <= clock(k));
          return;
        }
        TakeBack(r, clock(k), db(k));
        TurnsSnoc(turns, View(), timeout);
        turns := turns + [View()];
        k := k + 1;
      }
      NoRecordsNoWork(View());
    }

    method TakeBack(r: Record, now: int, db: bool)
      requires Inv(View()) && IsTop(issueTimes, r) && now - r.time > timeout
      modifies this
      ensures Inv(View()) && TakesBack(old(View()), View(), timeout)
      ensures |markers| < |old(markers)| || (|markers| == |old(markers)| && |issueTimes| < |old(issueTimes)|)
      ensures forall t :: old(markers) == [] && Overdue(old(issueTimes), t, timeout) ==>
                markers == [] && Overdue(issueTimes, t, timeout)
    {
      ReclaimOk(View(), r, now, db);
      issueTimes := issueTimes - multiset{r};
      if r.conn in issued && issued[r.conn] == r.sub {
        issued := issued - {r.conn};
        since := since - {r.conn};
        RealEnqueueSubmission(r.sub, now, db);
      }
      assert View() == Reclaim(old(View()), r, now, db);
    }
  }

  lemma NoRecordsNoWork(p: Pool)
    requires Inv(p) && p.times == multiset{}
    ensures p.issued == map[]
  {
    assert forall c :: c in p.issued ==> Record(p.since[c], c, p.issued[c]) in p.times;
  }

  /** A clock that is never set back. */
  ghost predicate Forward(clock: nat -> int) {
    forall i, j :: 0 <= i <= j ==> clock(i) <= clock(j)
  }

  ghost predicate Overdue(times: multiset<Record>, now: int, timeout: nat) {
    forall r :: r in times ==> now - r.time > timeout
  }

  ghost predicate Turns(turns: seq<Pool>, timeout: nat) {
    turns != [] && forall i :: 0 <= i < |turns| - 1 ==> TurnAt(turns, i, timeout)
  }

  ghost predicate TurnAt(turns: seq<Pool>, i: nat, timeout: nat)
    requires i < |turns| - 1
  {
    TakesBack(turns[i], turns[i + 1], timeout)
  }

  lemma TurnsSnoc(turns: seq<Pool>, p: Pool, timeout: nat)
    requires Turns(turns, timeout) && TakesBack(turns[|turns| - 1], p, timeout)
    ensures Turns(turns + [p], timeout)
  {
    forall i | 0 <= i < |turns| ensures TurnAt(turns + [p], i, timeout) {
      assert i < |turns| - 1 ==> TurnAt(turns, i, timeout);
    }
  }

  /** One turn of the timeout loop on an overdue top record. */
  ghost predicate TakesBack(p: Pool, q: Pool, timeout: nat) {
    exists r, now, db :: IsTop(p.times, r) && now - r.time > timeout && q == Reclaim(p, r, now, db)
  }

  /** Whatever is taken back has been held for longer than the timeout. */
  lemma TakenBackOverdue(p: Pool, r: Record, now: int, db: bool, timeout: nat, c: Conn)
    requires Inv(p) && IsTop(p.times, r) && now - r.time > timeout
    requires c in p.issued && c !in Reclaim(p, r, now, db).issued
    ensures now - p.since[c] > timeout
  {
    ReclaimOk(p, r, now, db);
  }

  // ---------------------------------------------------------------- every run

  datatype Op =
    | Subscribe(cc: Conn, now: int, db: bool)
    | Drop(cc: Conn, now: int, db: bool)
    | Submit(sd: nat, now: int, db: bool)
    | Notify(cc: Conn, sd: nat, now: int, db: bool, db2: bool)
    | Expire(record: Record, now: int, db: bool)

  ghost function Apply(p: Pool, op: Op): Pool {
    match op
    case Subscribe(cc, now, db) => EnqueueMarker(p, cc, now, db)
    case Drop(cc, now, db) => Preempt(p, cc, now, db)
    case Submit(sd, now, db) => QueueSubmission(p, sd, now, db)
    case Notify(cc, sd, now, db, db2) => Marked(p, cc, sd, now, db, db2)
    case Expire(record, now, db) => if IsTop(p.times, record) then Reclaim(p, record, now, db) else p
  }

  predicate Healthy(op: Op) {
    op.db && (op.Notify? ==> op.db2)
  }

  /** What an operation adds to and removes from the submissions that await a mark. */
  function Added(op: Op, s: nat): nat {
    One(op.Submit? && op.sd == s)
  }

  function Removed(p: Pool, op: Op, s: nat): nat {
    One(op.Notify? && op.cc in p.issued && p.issued[op.cc] == op.sd && op.sd == s)
  }

  lemma ApplyOk(p: Pool, op: Op)
    requires Inv(p)
    ensures Inv(Apply(p, op)) && (Healthy(op) && Busy(p) ==> Busy(Apply(p, op)))
    ensures forall s :: Outstanding(Apply(p, op), s) + Removed(p, op, s) == Outstanding(p, s) + Added(op, s)
  {
    match op
    case Subscribe(cc, now, db) => EnqueueMarkerOk(p, cc, now, db);
    case Drop(cc, now, db) => PreemptOk(p, cc, now, db);
    case Submit(sd, now, db) => QueueSubmissionOk(p, sd, now, db);
    case Notify(cc, sd, now, db, db2) => MarkedOk(p, cc, sd, now, db, db2);
    case Expire(record, now, db) =>
      if IsTop(p.times, record) {
        ReclaimOk(p, record, now, db);
      }
  }

  ghost function After(ops: seq<Op>): Pool {
    if ops == [] then EMPTY else Apply(After(ops[..|ops| - 1]), ops[|ops| - 1])
  }

  function Submissions(ops: seq<Op>, s: nat): nat {
    if ops == [] then 0 else Submissions(ops[..|ops| - 1], s) + Added(ops[|ops| - 1], s)
  }

  ghost function Marks(ops: seq<Op>, s: nat): nat {
    if ops == [] then 0
    else Marks(ops[..|ops| - 1], s) + Removed(After(ops[..|ops| - 1]), ops[|ops| - 1], s)
  }

  /** In every run: submissions are conserved. What was submitted and not yet marked by the
      marker it was issued to is queued or being marked, exactly as often. The structural
      invariant holds throughout, and without database failures no submission waits while a
      marker is idle. */
  lemma {:induction false} SubmissionsConserved(ops: seq<Op>)
    ensures Inv(After(ops))
    ensures forall s :: Outstanding(After(ops), s) + Marks(ops, s) == Submissions(ops, s)
    ensures (forall i :: 0 <= i < |ops| ==> Healthy(ops[i])) ==> Busy(After(ops))
  {
    if ops != [] {
      var init := ops[..|ops| - 1];
      SubmissionsConserved(init);
      ApplyOk(After(init), ops[|ops| - 1]);
      forall s ensures Outstanding(After(ops), s) + Marks(ops, s) == Submissions(ops, s) {
        assert Outstanding(After(init), s) + Marks(init, s) == Submissions(init, s);
      }
    }
  }

  // ---------------------------------------------------------------- who is in the pool, and since when

  predicate Present(p: Pool, cc: Conn) {
    cc in p.issued || cc in p.markers
  }

  /** The connection is dropped, or the work it holds is taken back. */
  ghost predicate Leaves(p: Pool, op: Op, cc: Conn) {
    || (op.Drop? && op.cc == cc)
    || (op.Expire? && IsTop(p.times, op.record) && op.record.conn == cc && cc in p.issued && p.issued[cc] == op.record.sub)
  }

  lemma IssuePresent(p: Pool, c: Conn, sd: nat, now: int, db: bool, cc: Conn)
    ensures Present(Issue(p, c, sd, now, db), cc) <==> Present(p, cc) || cc == c
  {
  }

  lemma QueueSubmissionPresent(p: Pool, sd: nat, now: int, db: bool, cc: Conn)
    ensures Present(QueueSubmission(p, sd, now, db), cc) <==> Present(p, cc)
  {
    if p.markers != [] {
      assert cc in p.markers <==> cc == p.markers[0] || cc in p.markers[1..];
      IssuePresent(p.(markers := p.markers[1..]), p.markers[0], sd, now, db, cc);
    }
  }

  lemma QueueMarkerPresent(p: Pool, c: Conn, now: int, db: bool, cc: Conn)
    ensures Present(QueueMarker(p, c, now, db), cc) <==> Present(p, cc) || cc == c
  {
    if p.problems != [] {
      IssuePresent(p.(problems := p.problems[1..]), c, p.problems[0], now, db, cc);
    }
  }

  lemma PreemptPresent(p: Pool, c: Conn, now: int, db: bool, cc: Conn)
    requires Inv(p)
    ensures Present(Preempt(p, c, now, db), cc) <==> Present(p, cc) && cc != c
  {
    if c in p.markers {
      WithoutOk(p.markers, c);
    } else if c in p.issued {
      QueueSubmissionPresent(Forget(p, c), p.issued[c], now, db, cc);
    }
  }

  lemma MarkedPresent(p: Pool, c: Conn, sd: nat, now: int, db1: bool, db2: bool, cc: Conn)
    ensures Present(Marked(p, c, sd, now, db1, db2), cc) <==> Present(p, cc)
  {
    if c in p.issued {
      var p1 := if sd != p.issued[c] then QueueSubmission(p, p.issued[c], now, db1) else p;
      QueueSubmissionPresent(p, p.issued[c], now, db1, cc);
      QueueMarkerPresent(Forget(p1, c), c, now, db2, cc);
    }
  }

  lemma ReclaimPresent(p: Pool, r: Record, now: int, db: bool, cc: Conn)
    requires Inv(p)
    ensures Present(Reclaim(p, r, now, db), cc) <==>
            Present(p, cc) && !(r.conn == cc && cc in p.issued && p.issued[cc] == r.sub)
  {
    var q := p.(times := p.times - multiset{r});
    if r.conn in p.issued && p.issued[r.conn] == r.sub {
      QueueSubmissionPresent(Forget(q, r.conn), r.sub, now, db, cc);
    }
  }

  lemma ApplyPresent(p: Pool, op: Op, cc: Conn)
    requires Inv(p)
    ensures Present(Apply(p, op), cc) <==> (op.Subscribe? && op.cc == cc) || (Present(p, cc) && !Leaves(p, op, cc))
  {
    match op
    case Subscribe(c, now, db) =>
      if !Present(p, c) {
        QueueMarkerPresent(p, c, now, db, cc);
      }
    case Drop(c, now, db) => PreemptPresent(p, c, now, db, cc);
    case Submit(sd, now, db) => QueueSubmissionPresent(p, sd, now, db, cc);
    case Notify(c, sd, now, db, db2) => MarkedPresent(p, c, sd, now, db, db2, cc);
    case Expire(record, now, db) =>
      if IsTop(p.times, record) {
        ReclaimPresent(p, record, now, db, cc);
      }
  }

  ghost predicate Joins(op: Op, cc: Conn) {
    op.Subscribe? && op.cc == cc
  }

  /** The connection subscribed at position i, and did not leave later. */
  ghost predicate StaysFrom(ops: seq<Op>, cc: Conn, i: nat) {
    && i < |ops| && Joins(ops[i], cc)
    && forall j :: i < j < |ops| ==> !LeavesAt(ops, j, cc)
  }

  ghost predicate LeavesAt(ops: seq<Op>, j: nat, cc: Conn)
    requires j < |ops|
  {
    Leaves(After(ops[..j]), ops[j], cc)
  }

  ghost predicate PresentAt(ops: seq<Op>, k: nat, cc: Conn)
    requires k <= |ops|
  {
    Present(After(ops[..k]), cc)
  }

  lemma PresentNext(ops: seq<Op>, k: nat, cc: Conn)
    requires k < |ops|
    ensures PresentAt(ops, k + 1, cc) <==> Joins(ops[k], cc) || (PresentAt(ops, k, cc) && !LeavesAt(ops, k, cc))
  {
    AfterNext(ops, k);
    SubmissionsConserved(ops[..k]);
    ApplyPresent(After(ops[..k]), ops[k], cc);
  }

  lemma AfterNext(ops: seq<Op>, k: nat)
    requires k < |ops|
    ensures After(ops[..k + 1]) == Apply(After(ops[..k]), ops[k])
  {
    assert ops[..k + 1][..k] == ops[..k];
  }

  ghost predicate CameAndStayed(comes: nat -> bool, goes: nat -> bool, i: nat, n: nat) {
    i < n && comes(i) && forall j: nat :: i < j < n ==> !goes(j)
  }

  ghost predicate ComesAndGoes(there: nat -> bool, comes: nat -> bool, goes: nat -> bool, k: nat) {
    there(k + 1) == (comes(k) || (there(k) && !goes(k)))
  }

  /** Whatever comes and goes is there exactly when it came and did not go since. */
  lemma {:induction false} ThereExactlyWhen(there: nat -> bool, comes: nat -> bool, goes: nat -> bool, n: nat)
    requires !there(0) && forall k: nat :: k < n ==> ComesAndGoes(there, comes, goes, k)
    ensures there(n) <==> exists i: nat :: CameAndStayed(comes, goes, i, n)
  {
    if n > 0 {
      var last: nat := n - 1;
      ThereExactlyWhen(there, comes, goes, last);
      assert ComesAndGoes(there, comes, goes, last);
      if i: nat :| CameAndStayed(comes, goes, i, last) {
        assert !goes(last) ==> CameAndStayed(comes, goes, i, n);
      }
      if comes(last) {
        assert CameAndStayed(comes, goes, last, n);
      }
      if i: nat :| CameAndStayed(comes, goes, i, n) {
        assert i < last ==> CameAndStayed(comes, goes, i, last) && !goes(last);
      }
    }
  }

  ghost function There(ops: seq<Op>, cc: Conn): nat -> bool {
    (k: nat) => k <= |ops| && PresentAt(ops, k, cc)
  }

  ghost function Comes(ops: seq<Op>, cc: Conn): nat -> bool {
    (k: nat) => k < |ops| && Joins(ops[k], cc)
  }

  ghost function Goes(ops: seq<Op>, cc: Conn): nat -> bool {
    (k: nat) => k < |ops| && LeavesAt(ops, k, cc)
  }

  lemma RunComesAndGoes(ops: seq<Op>, cc: Conn, k: nat)
    requires k < |ops|
    ensures ComesAndGoes(There(ops, cc), Comes(ops, cc), Goes(ops, cc), k)
  {
    PresentNext(ops, k, cc);
  }

  lemma StaysExactlyWhen(ops: seq<Op>, cc: Conn, i: nat)
    ensures StaysFrom(ops, cc, i) <==> CameAndStayed(Comes(ops, cc), Goes(ops, cc), i, |ops|)
  {
    var goes := Goes(ops, cc);
    if StaysFrom(ops, cc, i) {
      forall j: nat | i < j < |ops| ensures !goes(j) {
        assert !LeavesAt(ops, j, cc);
      }
    }
    if CameAndStayed(Comes(ops, cc), goes, i, |ops|) {
      forall j | i < j < |ops| ensures !LeavesAt(ops, j, cc) {
        assert !goes(j);
      }
    }
  }

  lemma ThereAtTheEnd(ops: seq<Op>, cc: Conn)
    ensures There(ops, cc)(|ops|) == Present(After(ops), cc) && !There(ops, cc)(0)
  {
    assert ops[..|ops|] == ops;
  }

  /** In every run a connection is idle or busy exactly when it subscribed and was neither dropped
      nor lost its work to a timeout since. */
  lemma PresentExactlyWhen(ops: seq<Op>, cc: Conn)
    ensures Present(After(ops), cc) <==> exists i: nat :: StaysFrom(ops, cc, i)
  {
    forall k: nat | k < |ops| ensures ComesAndGoes(There(ops, cc), Comes(ops, cc), Goes(ops, cc), k) {
      RunComesAndGoes(ops, cc, k);
    }
    ThereAtTheEnd(ops, cc);
    ThereExactlyWhen(There(ops, cc), Comes(ops, cc), Goes(ops, cc), |ops|);
    forall i: nat ensures StaysFrom(ops, cc, i) <==> CameAndStayed(Comes(ops, cc), Goes(ops, cc), i, |ops|) {
      StaysExactlyWhen(ops, cc, i);
    }
  }

  /** Work goes out in turn: a marker that asks for work gets the submission that was queued
      first, or is put last among the idle ones. */
  lemma AskingServed(p: Pool, cc: Conn, now: int, db: bool)
    requires Inv(p) && !Present(p, cc)
    ensures var q := Apply(p, Subscribe(cc, now, db));
            && (p.problems == [] ==> q.markers == p.markers + [cc] && q.issued == p.issued && q.problems == [])
            && (p.problems != [] && db ==>
                  q.issued == p.issued[cc := p.problems[0]] && p.problems == [p.problems[0]] + q.problems && q.markers == p.markers)
            && (p.problems != [] && !db ==>
                  q.issued == p.issued && q.problems == p.problems[1..] + [p.problems[0]] && q.markers == p.markers + [cc])
  {
  }

  /** A submission goes to the marker that has been idle longest, or is queued last. */
  lemma SubmissionServed(p: Pool, sd: nat, now: int, db: bool)
    requires Inv(p)
    ensures var q := Apply(p, Submit(sd, now, db));
            && (p.markers == [] ==> q.problems == p.problems + [sd] && q.issued == p.issued && q.markers == [])
            && (p.markers != [] && db ==>
                  q.issued == p.issued[p.markers[0] := sd] && p.markers == [p.markers[0]] + q.markers && q.problems == p.problems)
            && (p.markers != [] && !db ==>
                  q.issued == p.issued && q.problems == p.problems + [sd] && q.markers == p.markers[1..] + [p.markers[0]])
  {
  }

  /** A marker that is done gets the submission that was queued first, or is put last among the
      idle ones; a mark for something else first queues what it was issued. */
  lemma DoneServed(p: Pool, cc: Conn, sd: nat, now: int)
    requires Inv(p) && Busy(p) && cc in p.issued
    ensures var q := Apply(p, Notify(cc, sd, now, true, true));
            && (sd == p.issued[cc] && p.problems == [] ==> q.markers == p.markers + [cc] && q.issued == p.issued - {cc})
            && (sd == p.issued[cc] && p.problems != [] ==>
                  cc in q.issued && q.issued[cc] == p.problems[0] && q.problems == p.problems[1..])
            && (sd != p.issued[cc] && p.problems != [] ==>
                  cc in q.issued && q.issued[cc] == p.problems[0] && q.problems == p.problems[1..] + [p.issued[cc]])
            && (sd != p.issued[cc] && p.markers != [] ==>
                  p.markers[0] in q.issued && q.issued[p.markers[0]] == p.issued[cc] && q.markers == p.markers[1..] + [cc])
  {
    if p.markers != [] {
      assert p.markers[0] in p.markers;
    }
  }

  /** What a connection holds, and since when. */
  ghost function Job(p: Pool, c: Conn): Option<(nat, int)> {
    if c in p.issued && c in p.since then Some((p.issued[c], p.since[c])) else None
  }

  /** It was issued at the time of the operation, or is what it was before. */
  ghost predicate SinceThen(p: Pool, q: Pool, now: int, c: Conn) {
    Job(q, c).Some? ==> Job(q, c).value.1 == now || Job(q, c) == Job(p, c)
  }

  lemma IssueSince(p: Pool, cc: Conn, sd: nat, now: int, db: bool, c: Conn)
    ensures SinceThen(p, Issue(p, cc, sd, now, db), now, c)
  {
  }

  lemma QueueSubmissionSince(p: Pool, sd: nat, now: int, db: bool, c: Conn)
    ensures SinceThen(p, QueueSubmission(p, sd, now, db), now, c)
  {
    if p.markers != [] {
      IssueSince(p.(markers := p.markers[1..]), p.markers[0], sd, now, db, c);
    }
  }

  lemma QueueMarkerSince(p: Pool, cc: Conn, now: int, db: bool, c: Conn)
    ensures SinceThen(p, QueueMarker(p, cc, now, db), now, c)
  {
    if p.problems != [] {
      IssueSince(p.(problems := p.problems[1..]), cc, p.problems[0], now, db, c);
    }
  }

  lemma ForgetSince(p: Pool, cc: Conn, now: int, c: Conn)
    ensures SinceThen(p, Forget(p, cc), now, c)
  {
  }

  lemma MarkedSince(p: Pool, cc: Conn, sd: nat, now: int, db1: bool, db2: bool, c: Conn)
    ensures SinceThen(p, Marked(p, cc, sd, now, db1, db2), now, c)
  {
    if cc in p.issued {
      var p1 := if sd != p.issued[cc] then QueueSubmission(p, p.issued[cc], now, db1) else p;
      QueueSubmissionSince(p, p.issued[cc], now, db1, c);
      ForgetSince(p1, cc, now, c);
      QueueMarkerSince(Forget(p1, cc), cc, now, db2, c);
    }
  }

  lemma ReclaimSince(p: Pool, r: Record, now: int, db: bool, c: Conn)
    ensures SinceThen(p, Reclaim(p, r, now, db), now, c)
  {
    var q := p.(times := p.times - multiset{r});
    ForgetSince(q, r.conn, now, c);
    QueueSubmissionSince(Forget(q, r.conn), r.sub, now, db, c);
  }

  lemma ApplySince(p: Pool, op: Op, c: Conn)
    ensures SinceThen(p, Apply(p, op), op.now, c)
  {
    match op
    case Subscribe(cc, now, db) => QueueMarkerSince(p, cc, now, db, c);
    case Drop(cc, now, db) =>
      if cc !in p.markers && cc in p.issued {
        ForgetSince(p, cc, now, c);
        QueueSubmissionSince(Forget(p, cc), p.issued[cc], now, db, c);
      }
    case Submit(sd, now, db) => QueueSubmissionSince(p, sd, now, db, c);
    case Notify(cc, sd, now, db, db2) => MarkedSince(p, cc, sd, now, db, db2, c);
    case Expire(record, now, db) => ReclaimSince(p, record, now, db, c);
  }

  ghost function JobAt(ops: seq<Op>, c: Conn, k: nat): Option<(nat, int)> {
    if k <= |ops| then Job(After(ops[..k]), c) else None
  }

  /** Connection c was issued what it holds by operation i, and has held it ever since. */
  ghost predicate HeldFrom(ops: seq<Op>, c: Conn, i: nat) {
    && i < |ops| && JobAt(ops, c, |ops|).Some? && JobAt(ops, c, |ops|).value.1 == ops[i].now
    && forall k :: i < k <= |ops| ==> JobAt(ops, c, k) == JobAt(ops, c, |ops|)
  }

  lemma {:induction false} LastChange(job: nat -> Option<(nat, int)>, now: nat -> int, n: nat) returns (i: nat)
    requires job(0).None? && job(n).Some?
    requires forall k :: 0 <= k < n ==> job(k + 1).None? || job(k + 1).value.1 == now(k) || job(k + 1) == job(k)
    ensures i < n && job(n).value.1 == now(i) && forall k :: i < k <= n ==> job(k) == job(n)
  {
    assert job(n - 1 + 1) == job(n);
    if job(n).value.1 == now(n - 1) {
      i := n - 1;
    } else {
      i := LastChange(job, now, n - 1);
    }
  }

  /** In every run the time kept with a job is that of the operation that issued it. */
  lemma IssuedWhen(ops: seq<Op>, c: Conn) returns (i: nat)
    requires JobAt(ops, c, |ops|).Some?
    ensures HeldFrom(ops, c, i)
  {
    var job := (k: nat) => JobAt(ops, c, k);
    var now := (k: nat) => if k < |ops| then ops[k].now else 0;
    forall k | 0 <= k < |ops|
      ensures job(k + 1).None? || job(k + 1).value.1 == now(k) || job(k + 1) == job(k)
    {
      AfterNext(ops, k);
      ApplySince(After(ops[..k]), ops[k], c);
    }
    i := LastChange(job, now, |ops|);
    forall k | i < k <= |ops| ensures JobAt(ops, c, k) == JobAt(ops, c, |ops|) {
      assert job(k) == job(|ops|);
    }
  }

  /** In every run: when the timeout loop takes a job back from a connection, some operation
      issued it longer ago than the timeout, and the connection has held it ever since. */
  lemma TakenBackOnlyLate(ops: seq<Op>, r: Record, now: int, db: bool, timeout: nat, c: Conn) returns (i: nat)
    requires IsTop(After(ops).times, r) && now - r.time > timeout
    requires c in After(ops).issued && !Present(Apply(After(ops), Expire(r, now, db)), c)
    ensures HeldFrom(ops, c, i) && now - ops[i].now > timeout
  {
    SubmissionsConserved(ops);
    assert ops[..|ops|] == ops;
    TakenBackOverdue(After(ops), r, now, db, timeout, c);
    i := IssuedWhen(ops, c);
  }

  // ---------------------------------------------------------------- whose marks are accepted

  datatype Permissions = Permissions(judgeOverride: bool, mark: bool, judge: bool)

  datatype Verdict = Unmarked | MarkedBy(judge: bool, deferred: bool)

  /** The legality check of ActPlaceMark (src/act_mark.C). `verdict` is the state of the
      submission: who gave the deciding mark and whether that deferred to a judge. */
  function Legal(perms: Permissions, issued: nat, sub: nat, verdict: Verdict): bool {
    if perms.judgeOverride then true
    else if perms.mark then issued == sub
    else if perms.judge then verdict.MarkedBy? && !verdict.judge && verdict.deferred
    else false
  }

  /** A plain marker's mark is accepted exactly for the submission it holds; id 0 is taken for
      "holds nothing". */
  lemma PlainMarkerLegal(p: Pool, cc: Conn, sub: nat, perms: Permissions, verdict: Verdict)
    requires perms.mark && !perms.judgeOverride
    ensures Legal(perms, HasIssued(p, cc), sub, verdict) <==>
            (cc in p.issued && p.issued[cc] == sub) || (cc !in p.issued && sub == 0)
  {
  }

  /** What connection cc holds after the first k operations of a run. */
  ghost function Held(ops: seq<Op>, cc: Conn, k: int): nat {
    if 0 <= k <= |ops| then HasIssued(After(ops[..k]), cc) else 0
  }

  /** In every run: once the job `sub` of a plain marker was taken back, its mark for that job is
      refused, unless a later operation issued that job to it again. */
  lemma TimedOutMarkRefused(ops: seq<Op>, e: nat, cc: Conn, sub: nat, perms: Permissions, verdict: Verdict)
    requires perms.mark && !perms.judgeOverride && sub != 0
    requires e < |ops| && ops[e].Expire? && ops[e].record.conn == cc && ops[e].record.sub == sub
    requires IsTop(After(ops[..e]).times, ops[e].record) && Held(ops, cc, e) == sub
    ensures Legal(perms, Held(ops, cc, |ops|), sub, verdict) ==>
              exists k :: e < k < |ops| && Held(ops, cc, k) != sub && Held(ops, cc, k + 1) == sub
  {
    TakenBackFrom(ops, e);
    if Held(ops, cc, |ops|) == sub {
      var k := FirstReached(k => Held(ops, cc, k), sub, e + 1, |ops|);
    }
  }

  lemma TakenBackFrom(ops: seq<Op>, e: nat)
    requires e < |ops| && ops[e].Expire?
    requires IsTop(After(ops[..e]).times, ops[e].record)
    requires ops[e].record.sub != 0 && Held(ops, ops[e].record.conn, e) == ops[e].record.sub
    ensures Held(ops, ops[e].record.conn, e + 1) == 0
  {
    SubmissionsConserved(ops[..e]);
    ReclaimOk(After(ops[..e]), ops[e].record, ops[e].now, ops[e].db);
    assert ops[..e + 1][..e] == ops[..e];
  }

  lemma {:induction false} FirstReached(f: int -> nat, v: nat, a: nat, b: nat) returns (k: nat)
    requires a <= b && f(a) != v && f(b) == v
    ensures a <= k < b && f(k) != v && f(k + 1) == v
    decreases b - a
  {
    if f(b - 1) != v {
      k := b - 1;
    } else {
      k := FirstReached(f, v, a, b - 1);
    }
  }
}
