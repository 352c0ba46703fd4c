/** A user's score told from the tables of the database: which problems count as solved, after how
    many tries and at what cost. Nothing here mentions how the server gathers or scores.
 */
module Solving {
  import opened ContestClock
  import opened Options
  import opened Scoring
  import opened Standings

  /** The contest time at which a submission was made. */
  ghost function MadeAt(db: Db, id: nat): nat
    requires id in db.subs
  {
    TimeAt(db.evs, db.duration, GroupOf(db, db.subs[id].user), db.subs[id].time)
  }

  const TRIES := {Correct, Wrong, TimeExceeded, Abnormal, FormatError}

  /** A submission of user u on problem p with a verdict that is a try, in the table. */
  ghost predicate Attempt(db: Db, pick: Pick, u: nat, p: nat, final: bool, id: nat) {
    && id in db.subs && db.subs[id].user == u && db.subs[id].prob == p && p in db.named
    && StateOf(db, pick, id).Some? && StateOf(db, pick, id).value in TRIES
    && (final || MadeAt(db, id) <= db.duration - db.blinds)
  }

  ghost function Attempts(db: Db, pick: Pick, u: nat, p: nat, final: bool): set<nat> {
    set id | id in db.subs && Attempt(db, pick, u, p, final, id)
  }

  ghost predicate IsCorrect(db: Db, pick: Pick, id: nat) {
    StateOf(db, pick, id) == Some(Correct)
  }

  ghost predicate Solves(db: Db, pick: Pick, u: nat, p: nat, final: bool, id: nat) {
    Attempt(db, pick, u, p, final, id) && IsCorrect(db, pick, id)
  }

  /** Earlier in the contest; of two submissions at one time the one with the smaller id. */
  ghost predicate Sooner(db: Db, a: nat, b: nat)
    requires a in db.subs && b in db.subs
  {
    MadeAt(db, a) < MadeAt(db, b) || (MadeAt(db, a) == MadeAt(db, b) && a < b)
  }

  ghost predicate FirstSolves(db: Db, pick: Pick, u: nat, p: nat, final: bool, id: nat) {
    && Solves(db, pick, u, p, final, id)
    && forall x :: Solves(db, pick, u, p, final, x) ==> !Sooner(db, x, id)
  }

  ghost function SoonerTries(db: Db, pick: Pick, u: nat, p: nat, final: bool, id: nat): set<nat>
    requires id in db.subs
  {
    set x | x in db.subs && Attempt(db, pick, u, p, final, x) && Sooner(db, x, id)
  }

  // ---------------------------------------------------------------- submissions and their records

  ghost function Ids(s: set<Sub>): set<nat> {
    set x | x in s :: x.id
  }

  lemma {:induction false} SameNumber(s: set<Sub>)
    requires DistinctIds(s)
    ensures |Ids(s)| == |s|
    decreases |s|
  {
    if s != {} {
      var x :| x in s;
      SameNumber(s - {x});
      assert Ids(s) == Ids(s - {x}) + {x.id};
      assert x.id !in Ids(s - {x});
    }
  }

  /** The record that the scoring loop reads for a submission. */
  ghost function RecordOf(db: Db, pick: Pick, id: nat): Sub
    requires id in db.subs
  {
    ToSub(Fetch(db, pick, id), Cutoff(db))
  }

  lemma RecordSays(db: Db, pick: Pick, id: nat)
    requires id in db.subs
    ensures var x := RecordOf(db, pick, id);
            && x.id == id && x.time == MadeAt(db, id) && (x.correct <==> IsCorrect(db, pick, id))
            && (x.finalOnly <==> MadeAt(db, id) > db.duration - db.blinds)
  {
  }

  ghost function Records(db: Db, pick: Pick, u: nat, p: nat, final: bool): set<Sub> {
    Visible(SubsOf(db, pick, u, p), final)
  }

  lemma AttemptMine(db: Db, pick: Pick, u: nat, p: nat, final: bool, id: nat)
    ensures Attempt(db, pick, u, p, final, id) <==>
            Mine(db, pick, u, id) && db.subs[id].prob == p && (final || MadeAt(db, id) <= Cutoff(db))
  {
  }

  lemma RecordThere(db: Db, pick: Pick, u: nat, p: nat, final: bool, id: nat)
    requires Attempt(db, pick, u, p, final, id)
    ensures RecordOf(db, pick, id) in Records(db, pick, u, p, final)
  {
    AttemptMine(db, pick, u, p, final, id);
    RecordSays(db, pick, id);
  }

  lemma RecordFrom(db: Db, pick: Pick, u: nat, p: nat, final: bool, x: Sub)
    requires x in Records(db, pick, u, p, final)
    ensures Attempt(db, pick, u, p, final, x.id) && RecordOf(db, pick, x.id) == x
  {
    var id :| id in db.subs && Mine(db, pick, u, id) && db.subs[id].prob == p && RecordOf(db, pick, id) == x;
    RecordSays(db, pick, id);
    AttemptMine(db, pick, u, p, final, id);
  }

  lemma RecordsDistinct(db: Db, pick: Pick, u: nat, p: nat, final: bool)
    ensures DistinctIds(Records(db, pick, u, p, final))
  {
    var s := Records(db, pick, u, p, final);
    forall x, y | x in s && y in s && x.id == y.id ensures x == y {
      RecordFrom(db, pick, u, p, final, x);
      RecordFrom(db, pick, u, p, final, y);
    }
  }

  lemma AttemptIds(db: Db, pick: Pick, u: nat, p: nat, final: bool)
    ensures Ids(Records(db, pick, u, p, final)) == Attempts(db, pick, u, p, final)
    ensures |Records(db, pick, u, p, final)| == |Attempts(db, pick, u, p, final)|
  {
    var s := Records(db, pick, u, p, final);
    RecordsDistinct(db, pick, u, p, final);
    SameNumber(s);
    forall id ensures id in Ids(s) <==> id in Attempts(db, pick, u, p, final) {
      if id in Attempts(db, pick, u, p, final) {
        RecordThere(db, pick, u, p, final, id);
        RecordSays(db, pick, id);
      }
      if x :| x in s && x.id == id {
        RecordFrom(db, pick, u, p, final, x);
      }
    }
  }

  lemma SoonerIds(db: Db, pick: Pick, u: nat, p: nat, final: bool, x: Sub)
    requires x in Records(db, pick, u, p, final)
    ensures x.id in db.subs
    ensures |Earlier(Records(db, pick, u, p, final), x)| == |SoonerTries(db, pick, u, p, final, x.id)|
  {
    var s := Records(db, pick, u, p, final);
    var e := Earlier(s, x);
    RecordFrom(db, pick, u, p, final, x);
    RecordSays(db, pick, x.id);
    RecordsDistinct(db, pick, u, p, final);
    SameNumber(e);
    forall id ensures id in Ids(e) <==> id in SoonerTries(db, pick, u, p, final, x.id) {
      if id in SoonerTries(db, pick, u, p, final, x.id) {
        RecordThere(db, pick, u, p, final, id);
        RecordSays(db, pick, id);
        assert RecordOf(db, pick, id) in e;
      }
      if y :| y in e && y.id == id {
        RecordFrom(db, pick, u, p, final, y);
        RecordSays(db, pick, id);
      }
    }
    assert Ids(e) == SoonerTries(db, pick, u, p, final, x.id);
  }

  lemma FirstIds(db: Db, pick: Pick, u: nat, p: nat, final: bool, x: Sub)
    requires IsFirstCorrect(Records(db, pick, u, p, final), x)
    ensures FirstSolves(db, pick, u, p, final, x.id) && x.time == MadeAt(db, x.id)
  {
    RecordFrom(db, pick, u, p, final, x);
    RecordSays(db, pick, x.id);
    forall y | Solves(db, pick, u, p, final, y) ensures !Sooner(db, y, x.id) {
      RecordThere(db, pick, u, p, final, y);
      RecordSays(db, pick, y);
    }
  }

  // ---------------------------------------------------------------- one problem

  /** What a table must show of a problem. */
  ghost predicate CellSays(db: Db, pick: Pick, u: nat, p: nat, final: bool, c: Cell) {
    match c
    case Solved(tries, time) =>
      exists f :: FirstSolves(db, pick, u, p, final, f)
                  && tries == 1 + |SoonerTries(db, pick, u, p, final, f)|
                  && time == MadeAt(db, f) + PENALTY * |SoonerTries(db, pick, u, p, final, f)|
    case Unsolved(tries) =>
      tries == |Attempts(db, pick, u, p, final)| && forall id :: !Solves(db, pick, u, p, final, id)
  }

  lemma CellIsRight(db: Db, pick: Pick, u: nat, p: nat, final: bool)
    ensures CellSays(db, pick, u, p, final, CellOf(Records(db, pick, u, p, final)))
  {
    var s := Records(db, pick, u, p, final);
    match CellOf(s)
    case Solved(tries, time) =>
      var x :| IsFirstCorrect(s, x) && tries == |Earlier(s, x)| + 1 && time == x.time + PENALTY * |Earlier(s, x)|;
      FirstIds(db, pick, u, p, final, x);
      SoonerIds(db, pick, u, p, final, x);
    case Unsolved(tries) =>
      AttemptIds(db, pick, u, p, final);
      forall id ensures !Solves(db, pick, u, p, final, id) {
        if Solves(db, pick, u, p, final, id) {
          RecordThere(db, pick, u, p, final, id);
          RecordSays(db, pick, id);
        }
      }
  }

  lemma SolvedWhen(db: Db, pick: Pick, u: nat, p: nat, final: bool, c: Cell)
    requires CellSays(db, pick, u, p, final, c)
    ensures c.Solved? <==> exists id :: Solves(db, pick, u, p, final, id)
    ensures c.tries > 0 <==> Attempts(db, pick, u, p, final) != {}
  {
    if c.Solved? {
      var f :| FirstSolves(db, pick, u, p, final, f);
      assert Solves(db, pick, u, p, final, f) && f in Attempts(db, pick, u, p, final);
    }
  }

  // ---------------------------------------------------------------- the whole row

  ghost function BonusOf(db: Db, u: nat): (int, int) {
    if u in db.bonus then db.bonus[u] else (0, 0)
  }

  lemma DataAt(db: Db, pick: Pick, u: nat, p: nat, final: bool)
    ensures p in UserData(db, pick, u) ==> Shown(UserData(db, pick, u), final, p) == CellOf(Records(db, pick, u, p, final))
    ensures p !in UserData(db, pick, u) ==> Records(db, pick, u, p, final) == {}
  {
    HasSubs(db, pick, u, p);
  }

  /** The tries that a table shows: on exactly the problems with an attempt; as many as there are
      attempts up to the first correct one, or, with a minus sign, all of them if none is
      correct. */
  lemma TriesFromDatabase(db: Db, pick: Pick, u: nat, p: nat, final: bool)
    ensures var tries := ScoreOf(db, pick, u, final).tries; var all := Attempts(db, pick, u, p, final);
            && (p in tries <==> all != {})
            && (p in tries ==> (tries[p] > 0 <==> exists id :: Solves(db, pick, u, p, final, id)))
            && (forall f :: p in tries && FirstSolves(db, pick, u, p, final, f) ==>
                  tries[p] == 1 + |SoonerTries(db, pick, u, p, final, f)|)
            && (p in tries && tries[p] <= 0 ==> tries[p] == -|all|)
  {
    var c := CellOf(Records(db, pick, u, p, final));
    CellIsRight(db, pick, u, p, final);
    SolvedWhen(db, pick, u, p, final, c);
    DataAt(db, pick, u, p, final);
    AttemptIds(db, pick, u, p, final);
    forall f, g | FirstSolves(db, pick, u, p, final, f) && FirstSolves(db, pick, u, p, final, g) ensures f == g {
      assert !Sooner(db, f, g) && !Sooner(db, g, f);
    }
  }

  /** The problems that a table shows as solved. */
  ghost function SolvedBy(db: Db, pick: Pick, u: nat, final: bool): set<nat> {
    set id | id in db.subs && Solves(db, pick, u, db.subs[id].prob, final, id) :: db.subs[id].prob
  }

  lemma SolvedByWhen(db: Db, pick: Pick, u: nat, final: bool, p: nat)
    ensures p in SolvedBy(db, pick, u, final) <==> exists id :: Solves(db, pick, u, p, final, id)
  {
    if id :| Solves(db, pick, u, p, final, id) {
      assert db.subs[id].prob == p;
    }
  }

  lemma SolvedSame(db: Db, pick: Pick, u: nat, final: bool)
    ensures var data := UserData(db, pick, u); SolvedIn(data, final, data.Keys) == SolvedBy(db, pick, u, final)
  {
    var data := UserData(db, pick, u);
    forall p ensures p in SolvedIn(data, final, data.Keys) <==> p in SolvedBy(db, pick, u, final) {
      SolvedByWhen(db, pick, u, final, p);
      CellIsRight(db, pick, u, p, final);
      SolvedWhen(db, pick, u, p, final, CellOf(Records(db, pick, u, p, final)));
      DataAt(db, pick, u, p, final);
    }
  }

  /** The points are the bonus points and one for each problem with a correct attempt. */
  lemma PointsFromDatabase(db: Db, pick: Pick, u: nat, final: bool)
    ensures ScoreOf(db, pick, u, final).points == BonusOf(db, u).0 + |SolvedBy(db, pick, u, final)|
  {
    SolvedSame(db, pick, u, final);
  }

  ghost function Sum(cost: nat -> int, ps: set<nat>): int {
    if ps == {} then 0 else
      var p :| p in ps;
      cost(p) + Sum(cost, ps - {p})
  }

  /** The contest time of the first correct attempt, and 20 minutes for each attempt before it. */
  ghost predicate IsPenalty(db: Db, pick: Pick, u: nat, final: bool, p: nat, cost: int) {
    exists f :: FirstSolves(db, pick, u, p, final, f) && cost == MadeAt(db, f) + 1200 * |SoonerTries(db, pick, u, p, final, f)|
  }

  lemma {:induction false} SumRemove(cost: nat -> int, ps: set<nat>, p: nat)
    requires p in ps
    ensures Sum(cost, ps) == cost(p) + Sum(cost, ps - {p})
    decreases |ps|
  {
    var q :| q in ps && Sum(cost, ps) == cost(q) + Sum(cost, ps - {q});
    if q != p {
      SumRemove(cost, ps - {q}, p);
      SumRemove(cost, ps - {p}, q);
      assert ps - {q} - {p} == ps - {p} - {q};
    }
  }

  /** Unsolved problems cost nothing. */
  lemma {:induction false} CostIsSum(data: Data, final: bool, cost: nat -> int, ps: set<nat>)
    requires ps <= data.Keys && forall p :: p in ps && Shown(data, final, p).Solved? ==> cost(p) == CostOf(Shown(data, final, p))
    ensures Cost(data, final, ps) == Sum(cost, SolvedIn(data, final, ps))
    decreases |ps|
  {
    var solved := SolvedIn(data, final, ps);
    if ps == {} {
      assert solved == {};
    } else {
      var p :| p in ps;
      CostRemove(data, final, ps, p);
      CostIsSum(data, final, cost, ps - {p});
      if Shown(data, final, p).Solved? {
        SumRemove(cost, solved, p);
        assert SolvedIn(data, final, ps - {p}) == solved - {p};
      } else {
        assert SolvedIn(data, final, ps - {p}) == solved;
      }
    }
  }

  lemma PenaltyIsCost(db: Db, pick: Pick, u: nat, final: bool, p: nat, cost: int)
    requires IsPenalty(db, pick, u, final, p, cost)
    requires p in UserData(db, pick, u) && Shown(UserData(db, pick, u), final, p).Solved?
    ensures cost == CostOf(Shown(UserData(db, pick, u), final, p))
  {
    CellIsRight(db, pick, u, p, final);
    DataAt(db, pick, u, p, final);
    forall f, g | FirstSolves(db, pick, u, p, final, f) && FirstSolves(db, pick, u, p, final, g) ensures f == g {
      assert !Sooner(db, f, g) && !Sooner(db, g, f);
    }
  }

  /** The time is the sum of the penalties of the solved problems, less the bonus seconds. */
  lemma TimeFromDatabase(db: Db, pick: Pick, u: nat, final: bool, cost: nat -> int)
    requires forall p :: p in SolvedBy(db, pick, u, final) ==> IsPenalty(db, pick, u, final, p, cost(p))
    ensures ScoreOf(db, pick, u, final).time == Sum(cost, SolvedBy(db, pick, u, final)) - BonusOf(db, u).1
  {
    var data := UserData(db, pick, u);
    SolvedSame(db, pick, u, final);
    forall p | p in data.Keys && Shown(data, final, p).Solved? ensures cost(p) == CostOf(Shown(data, final, p)) {
      assert p in SolvedIn(data, final, data.Keys);
      PenaltyIsCost(db, pick, u, final, p, cost(p));
    }
    CostIsSum(data, final, cost, data.Keys);
  }

  /** Every solved problem has its penalty. */
  lemma PenaltyExists(db: Db, pick: Pick, u: nat, final: bool, p: nat) returns (cost: int)
    requires p in SolvedBy(db, pick, u, final)
    ensures IsPenalty(db, pick, u, final, p, cost)
  {
    SolvedByWhen(db, pick, u, final, p);
    CellIsRight(db, pick, u, p, final);
    SolvedWhen(db, pick, u, p, final, CellOf(Records(db, pick, u, p, final)));
    cost := CellOf(Records(db, pick, u, p, final)).time;
  }

  // ---------------------------------------------------------------- what messages change

  /** A bonus message moves the points up and the time down by the change of the bonus, and
      changes nobody else's score. */
  lemma BonusMoves(db: Db, pick: Pick, u: nat, points: int, seconds: int, v: nat, final: bool)
    requires u in db.bonus
    ensures var db' := Stored(db, Bonus(u, points, seconds));
            var row, row' := ScoreOf(db, pick, v, final), ScoreOf(db', pick, v, final);
            if v == u then
              row' == Row(row.points + (points - db.bonus[u].0), row.time - (seconds - db.bonus[u].1), row.tries)
            else row' == row
  {
    var db' := Stored(db, Bonus(u, points, seconds));
    SameRecords(db, db', pick, v);
  }

  lemma SameRecords(db: Db, db': Db, pick: Pick, v: nat)
    requires db' == db.(bonus := db'.bonus)
    ensures UserData(db, pick, v) == UserData(db', pick, v)
  {
    forall p ensures SubsOf(db, pick, v, p) == SubsOf(db', pick, v, p) && (p in ProblemsOf(db, pick, v) <==> p in ProblemsOf(db', pick, v)) {
      RecordsWithin(db, db', pick, v, p);
      RecordsWithin(db', db, pick, v, p);
      HasSubs(db, pick, v, p);
      HasSubs(db', pick, v, p);
    }
  }

  lemma RecordsWithin(db: Db, db': Db, pick: Pick, v: nat, p: nat)
    requires db' == db.(bonus := db'.bonus)
    ensures SubsOf(db, pick, v, p) <= SubsOf(db', pick, v, p)
  {
    forall x | x in SubsOf(db, pick, v, p) ensures x in SubsOf(db', pick, v, p) {
      var id :| id in db.subs && Mine(db, pick, v, id) && db.subs[id].prob == p && RecordOf(db, pick, id) == x;
      assert Mine(db', pick, v, id);
      RecordSays(db, pick, id);
      RecordSays(db', pick, id);
      assert MadeAt(db', id) == MadeAt(db, id) && IsCorrect(db', pick, id) == IsCorrect(db, pick, id);
      assert RecordOf(db', pick, id) == x;
    }
  }

  /** A submission marked by one marker has the verdict that this marker gave last, and a mark
      changes the verdict of no other submission. */
  lemma MarkDecides(db: Db, pick: Pick, id: nat, marker: nat, r: Result, other: nat)
    requires IsPick(pick)
    ensures var db' := Stored(db, Mark(id, marker, r));
            && (id !in db.marks || db.marks[id].Keys <= {marker} ==> StateOf(db', pick, id) == Some(r))
            && (other != id ==> StateOf(db', pick, other) == StateOf(db, pick, other))
  {
    var db' := Stored(db, Mark(id, marker, r));
    var marks := db'.marks[id];
    assert marker in marks && marks[marker] == r;
    assert id !in db.marks || db.marks[id].Keys <= {marker} ==> marks.Keys == {marker};
    var k :| k in marks && marks[k] == pick(marks);
  }

  /** A submission that one marker marks correct solves its problem, at once and in every table
      that shows it. */
  lemma CorrectMarkSolves(db: Db, pick: Pick, id: nat, marker: nat, final: bool)
    requires IsPick(pick) && id in db.subs && db.subs[id].prob in db.named
    requires id !in db.marks || db.marks[id].Keys <= {marker}
    requires final || MadeAt(db, id) <= db.duration - db.blinds
    ensures var row := ScoreOf(Stored(db, Mark(id, marker, Correct)), pick, db.subs[id].user, final);
            db.subs[id].prob in row.tries && row.tries[db.subs[id].prob] > 0
  {
    var db' := Stored(db, Mark(id, marker, Correct));
    var u, p := db.subs[id].user, db.subs[id].prob;
    MarkDecides(db, pick, id, marker, Correct, id);
    assert Solves(db', pick, u, p, final, id) && id in Attempts(db', pick, u, p, final);
    TriesFromDatabase(db', pick, u, p, final);
  }
}
