/** The standings cache: updateStandings as a whole (src/support_standings.C), and the messages
    that call it (src/act_mark.C, src/act_bonus.C, src/act_startstop.C).
 */
module Standings {
  import opened ContestClock
  import opened Options
  import opened Scoring

  datatype Result = Correct | Wrong | TimeExceeded | Abnormal | CompileFailed | Judge | FormatError | Other

  /** Compile failures, deferrals to a judge and "other" do not count as tries. */
  predicate Counts(r: Result) {
    r != CompileFailed && r != Judge && r != Other
  }

  // ---------------------------------------------------------------- reading the submissions

  /** A submission as the database and the timer describe it. */
  datatype Fetched = Fetched(id: nat, user: nat, prob: nat, time: nat, state: Option<Result>)

  function ToSub(f: Fetched, cutoff: int): Sub {
    Sub(f.id, f.time, f.state == Some(Correct), f.time > cutoff)
  }

  predicate Matches(f: Fetched, u: nat, p: nat) {
    f.state.Some? && Counts(f.state.value) && f.user == u && f.prob == p
  }

  /** The counted submissions of user u for problem p, in the order of the list. */
  function Collected(list: seq<Fetched>, cutoff: int, u: nat, p: nat): seq<Sub> {
    if list == [] then [] else
      var n := |list| - 1;
      Collected(list[..n], cutoff, u, p) + if Matches(list[n], u, p) then [ToSub(list[n], cutoff)] else []
  }

  type ProblemData = map<nat, map<nat, seq<Sub>>>

  function Get(pd: ProblemData, u: nat, p: nat): seq<Sub> {
    if u in pd && p in pd[u] then pd[u][p] else []
  }

  /** The nested map holds exactly the non-empty lists. */
  ghost predicate Gathered(pd: ProblemData, list: seq<Fetched>, cutoff: int) {
    && (forall u, p :: Get(pd, u, p) == Collected(list, cutoff, u, p))
    && (forall u :: u in pd ==> pd[u] != map[])
    && (forall u, p :: u in pd && p in pd[u] ==> pd[u][p] != [])
  }

  ghost predicate IdsAscend(list: seq<Fetched>) {
    forall i, j :: 0 <= i < j < |list| ==> list[i].id < list[j].id
  }

  lemma {:induction false} CollectedFrom(list: seq<Fetched>, cutoff: int, u: nat, p: nat, x: Sub)
    ensures x in Collected(list, cutoff, u, p) <==> exists i :: 0 <= i < |list| && Matches(list[i], u, p) && ToSub(list[i], cutoff) == x
  {
    if list != [] {
      var n := |list| - 1;
      CollectedFrom(list[..n], cutoff, u, p, x);
      if i :| 0 <= i < |list| && Matches(list[i], u, p) && ToSub(list[i], cutoff) == x {
        assert i < n ==> list[..n][i] == list[i];
      }
      if i :| 0 <= i < n && Matches(list[..n][i], u, p) && ToSub(list[..n][i], cutoff) == x {
        assert list[i] == list[..n][i];
      }
    }
  }

  lemma {:induction false} CollectedOk(list: seq<Fetched>, cutoff: int, u: nat, p: nat)
    requires IdsAscend(list)
    ensures ListOk(Collected(list, cutoff, u, p), cutoff)
  {
    if list != [] {
      var n := |list| - 1;
      var init := Collected(list[..n], cutoff, u, p);
      CollectedOk(list[..n], cutoff, u, p);
      forall x | x in init ensures x.id < list[n].id && (x.finalOnly <==> x.time > cutoff) {
        CollectedFrom(list[..n], cutoff, u, p, x);
      }
      assert forall i :: 0 <= i < |init| ==> init[i] in init;
    }
  }

  function Append(pd: ProblemData, u: nat, p: nat, x: Sub): ProblemData {
    pd[u := (if u in pd then pd[u] else map[])[p := Get(pd, u, p) + [x]]]
  }

  lemma CollectedSnoc(list: seq<Fetched>, cutoff: int, f: Fetched, u: nat, p: nat)
    ensures Matches(f, u, p) ==> Collected(list + [f], cutoff, u, p) == Collected(list, cutoff, u, p) + [ToSub(f, cutoff)]
    ensures !Matches(f, u, p) ==> Collected(list + [f], cutoff, u, p) == Collected(list, cutoff, u, p)
  {
    assert (list + [f])[..|list|] == list;
  }

  lemma AppendGet(pd: ProblemData, u: nat, p: nat, x: Sub, v: nat, q: nat)
    ensures Get(Append(pd, u, p, x), v, q) == if v == u && q == p then Get(pd, u, p) + [x] else Get(pd, v, q)
  {
  }

  lemma AppendGathers(pd: ProblemData, list: seq<Fetched>, cutoff: int, f: Fetched)
    requires Gathered(pd, list, cutoff) && f.state.Some? && Counts(f.state.value)
    ensures Gathered(Append(pd, f.user, f.prob, ToSub(f, cutoff)), list + [f], cutoff)
  {
    var x := ToSub(f, cutoff);
    var pd' := Append(pd, f.user, f.prob, x);
    forall u, p ensures Get(pd', u, p) == Collected(list + [f], cutoff, u, p) {
      CollectedSnoc(list, cutoff, f, u, p);
      AppendGet(pd, f.user, f.prob, x, u, p);
    }
    assert f.prob in pd'[f.user];
    forall u, p | u in pd' && p in pd'[u] ensures pd'[u][p] != [] {
      AppendGet(pd, f.user, f.prob, x, u, p);
      assert pd'[u][p] == Get(pd', u, p);
      assert (u == f.user && p == f.prob) || (u in pd && p in pd[u]);
    }
  }

  lemma SkipGathers(pd: ProblemData, list: seq<Fetched>, cutoff: int, f: Fetched)
    requires Gathered(pd, list, cutoff) && !(f.state.Some? && Counts(f.state.value))
    ensures Gathered(pd, list + [f], cutoff)
  {
    forall u, p ensures Get(pd, u, p) == Collected(list + [f], cutoff, u, p) {
      CollectedSnoc(list, cutoff, f, u, p);
    }
  }

  // ---------------------------------------------------------------- the tables

  /** The row that a full recomputation gives user u. */
  ghost function FreshRow(pd: ProblemData, bonus: map<nat, (int, int)>, u: nat, final: bool): Row
    requires u in pd
  {
    var (points, seconds) := if u in bonus then bonus[u] else (0, 0);
    RowOf(DataOf(pd[u]), final, points, seconds)
  }

  ghost predicate IsNews(pd: ProblemData, bonus: map<nat, (int, int)>, u: nat, final: bool) {
    u in pd && FreshRow(pd, bonus, u, final).tries != map[]
  }

  /** The table after an update: fresh rows for the users whose row shows at least one try;
      every other row stays. */
  ghost predicate Updated(before: map<nat, Row>, after: map<nat, Row>, pd: ProblemData, bonus: map<nat, (int, int)>, users: set<nat>, final: bool) {
    && (forall u :: u in users && IsNews(pd, bonus, u, final) ==> u in after && after[u] == FreshRow(pd, bonus, u, final))
    && (forall u :: !(u in users && IsNews(pd, bonus, u, final)) ==> (u in after <==> u in before) && (u in before ==> after[u] == before[u]))
  }

  lemma UpdateOne(before: map<nat, Row>, mid: map<nat, Row>, after: map<nat, Row>, pd: ProblemData, bonus: map<nat, (int, int)>,
                  users: set<nat>, final: bool, u: nat, row: Row)
    requires Updated(before, mid, pd, bonus, users, final) && u in pd && u !in users
    requires row == FreshRow(pd, bonus, u, final)
    requires after == if row.tries != map[] then mid[u := row] else mid
    ensures Updated(before, after, pd, bonus, users + {u}, final)
  {
  }

  class StandingsModule {
    var contestantStandings: map<nat, Row>
    var finalStandings: map<nat, Row>

    constructor ()
      ensures contestantStandings == map[] && finalStandings == map[]
    {
      contestantStandings, finalStandings := map[], map[];
    }

    method Gather(list: seq<Fetched>, cutoff: int) returns (pd: ProblemData)
      ensures Gathered(pd, list, cutoff)
    {
      pd := map[];
      for i := 0 to |list|
        invariant Gathered(pd, list[..i], cutoff)
      {
        var f := list[i];
        assert list[..i + 1] == list[..i] + [f];
        if f.state.Some? && Counts(f.state.value) {
          AppendGathers(pd, list[..i], cutoff, f);
          pd := Append(pd, f.user, f.prob, ToSub(f, cutoff));
        } else {
          SkipGathers(pd, list[..i], cutoff, f);
        }
      }
      assert list[..|list|] == list;
    }

    /** `list` holds the submissions of one user or of all, in the order of their ids. */
    method UpdateStandings(list: seq<Fetched>, bonus: map<nat, (int, int)>, cutoff: int) returns (ghost pd: ProblemData)
      requires IdsAscend(list)
      modifies this
      ensures Gathered(pd, list, cutoff)
      ensures Updated(old(contestantStandings), contestantStandings, pd, bonus, pd.Keys, false)
      ensures Updated(old(finalStandings), finalStandings, pd, bonus, pd.Keys, true)
    {
      var problemData := Gather(list, cutoff);
      pd := problemData;
      UpdateTeams(problemData, bonus, cutoff, list);
    }

    method UpdateTeams(pd: ProblemData, bonus: map<nat, (int, int)>, ghost cutoff: int, ghost list: seq<Fetched>)
      requires Gathered(pd, list, cutoff) && IdsAscend(list)
      modifies this
      ensures Updated(old(contestantStandings), contestantStandings, pd, bonus, pd.Keys, false)
      ensures Updated(old(finalStandings), finalStandings, pd, bonus, pd.Keys, true)
    {
      forall u | u in pd {
        TeamListsOk(pd, list, cutoff, u);
      }
      var rest := pd.Keys;
      ghost var done: set<nat> := {};
      while rest != {}
        invariant rest <= pd.Keys && done == pd.Keys - rest
        invariant Updated(old(contestantStandings), contestantStandings, pd, bonus, done, false)
        invariant Updated(old(finalStandings), finalStandings, pd, bonus, done, true)
        decreases |rest|
      {
        var u :| u in rest;
        UpdateTeam(pd, bonus, u, cutoff, done, old(contestantStandings), old(finalStandings));
        rest, done := rest - {u}, done + {u};
      }
    }

    method UpdateTeam(pd: ProblemData, bonus: map<nat, (int, int)>, u: nat, ghost cutoff: int, ghost users: set<nat>,
                      ghost shown0: map<nat, Row>, ghost final0: map<nat, Row>)
      requires u in pd && u !in users && ListsOk(pd[u], cutoff)
      requires Updated(shown0, contestantStandings, pd, bonus, users, false)
      requires Updated(final0, finalStandings, pd, bonus, users, true)
      modifies this
      ensures Updated(shown0, contestantStandings, pd, bonus, users + {u}, false)
      ensures Updated(final0, finalStandings, pd, bonus, users + {u}, true)
    {
      var points, seconds := 0, 0;
      if u in bonus {
        points, seconds := bonus[u].0, bonus[u].1;
      }
      var shown, final := ScoreTeam(pd[u], points, seconds, cutoff);
      var newShown := PutRow(contestantStandings, u, shown);
      var newFinal := PutRow(finalStandings, u, final);
      UpdateOne(shown0, contestantStandings, newShown, pd, bonus, users, false, u, shown);
      UpdateOne(final0, finalStandings, newFinal, pd, bonus, users, true, u, final);
      contestantStandings, finalStandings := newShown, newFinal;
    }

    /** A row without tries is not stored, and a row is replaced only by a different one. */
    static method PutRow(standings: map<nat, Row>, u: nat, row: Row) returns (r: map<nat, Row>)
      ensures r == if row.tries != map[] then standings[u := row] else standings
    {
      r := standings;
      if row.tries != map[] {
        if u !in standings || standings[u].points != row.points || standings[u].time != row.time || standings[u].tries != row.tries {
          r := standings[u := row];
        } else {
          assert standings[u] == row;
        }
      }
    }
  }

  lemma TeamListsOk(pd: ProblemData, list: seq<Fetched>, cutoff: int, u: nat)
    requires Gathered(pd, list, cutoff) && IdsAscend(list) && u in pd
    ensures ListsOk(pd[u], cutoff)
  {
    forall p | p in pd[u] ensures ListOk(pd[u][p], cutoff) {
      CollectedOk(list, cutoff, u, p);
      assert Get(pd, u, p) == pd[u][p];
    }
  }

  // ---------------------------------------------------------------- the tables and the database

  datatype Submission = Submission(user: nat, prob: nat, time: nat)

  /** What the standings depend on. Marks are kept per submission and marker; `named` are the
      problems with a short name, the only ones whose submissions are listed. */
  datatype Db = Db(subs: map<nat, Submission>, marks: map<nat, map<nat, Result>>, bonus: map<nat, (int, int)>,
                   groups: map<nat, nat>, named: set<nat>, evs: seq<Event>, duration: nat, blinds: nat)

  /** getSubmissionState picks one of the marks of a submission, by the type of the marker. */
  type Pick = map<nat, Result> -> Result

  ghost predicate IsPick(pick: Pick) {
    forall m: map<nat, Result> :: m != map[] ==> exists k :: k in m && m[k] == pick(m)
  }

  ghost function StateOf(db: Db, pick: Pick, id: nat): Option<Result> {
    if id in db.marks && db.marks[id] != map[] then Some(pick(db.marks[id])) else None
  }

  function GroupOf(db: Db, u: nat): nat {
    if u in db.groups then db.groups[u] else 0xFFFF_FFFF
  }

  function Cutoff(db: Db): int {
    db.duration - db.blinds
  }

  ghost function Fetch(db: Db, pick: Pick, id: nat): Fetched
    requires id in db.subs
  {
    var s := db.subs[id];
    Fetched(id, s.user, s.prob, TimeAt(db.evs, db.duration, GroupOf(db, s.user), s.time), StateOf(db, pick, id))
  }

  predicate Listed(db: Db, id: nat) {
    id in db.subs && db.subs[id].prob in db.named
  }

  ghost predicate Counted(db: Db, pick: Pick, id: nat) {
    Listed(db, id) && StateOf(db, pick, id).Some? && Counts(StateOf(db, pick, id).value)
  }

  ghost predicate Mine(db: Db, pick: Pick, u: nat, id: nat) {
    Counted(db, pick, id) && db.subs[id].user == u
  }

  ghost function ProblemsOf(db: Db, pick: Pick, u: nat): set<nat> {
    set id | id in db.subs && Mine(db, pick, u, id) :: db.subs[id].prob
  }

  ghost function SubsOf(db: Db, pick: Pick, u: nat, p: nat): set<Sub> {
    set id | id in db.subs && Mine(db, pick, u, id) && db.subs[id].prob == p :: ToSub(Fetch(db, pick, id), Cutoff(db))
  }

  ghost function UserData(db: Db, pick: Pick, u: nat): Data {
    map p | p in ProblemsOf(db, pick, u) :: SubsOf(db, pick, u, p)
  }

  /** A user's score from scratch, straight from the database. */
  ghost function ScoreOf(db: Db, pick: Pick, u: nat, final: bool): Row {
    var data := UserData(db, pick, u);
    var (points, seconds) := if u in db.bonus then db.bonus[u] else (0, 0);
    RowOf(data, final, points, seconds)
  }

  /** The list that getSubmissions(uid) returns, with uid 0 for everybody. */
  ghost predicate Lists(db: Db, pick: Pick, uid: nat, list: seq<Fetched>) {
    && IdsAscend(list)
    && (forall i :: 0 <= i < |list| ==> Listed(db, list[i].id) && list[i] == Fetch(db, pick, list[i].id))
    && (forall id :: Listed(db, id) ==> ((uid == 0 || db.subs[id].user == uid) <==> exists i :: 0 <= i < |list| && list[i].id == id))
  }

  lemma ListedSubs(db: Db, pick: Pick, uid: nat, list: seq<Fetched>, u: nat, p: nat)
    requires Lists(db, pick, uid, list) && (uid == 0 || uid == u)
    ensures Elements(Collected(list, Cutoff(db), u, p)) == SubsOf(db, pick, u, p)
  {
    forall x ensures x in Collected(list, Cutoff(db), u, p) <==> x in SubsOf(db, pick, u, p) {
      CollectedFrom(list, Cutoff(db), u, p, x);
      if i :| 0 <= i < |list| && Matches(list[i], u, p) && ToSub(list[i], Cutoff(db)) == x {
        assert Mine(db, pick, u, list[i].id);
      }
      if id :| id in db.subs && Mine(db, pick, u, id) && db.subs[id].prob == p && ToSub(Fetch(db, pick, id), Cutoff(db)) == x {
        var i :| 0 <= i < |list| && list[i].id == id;
        assert Matches(list[i], u, p);
      }
    }
  }

  lemma GatheredProblem(db: Db, pick: Pick, uid: nat, list: seq<Fetched>, pd: ProblemData, u: nat, p: nat)
    requires Lists(db, pick, uid, list) && Gathered(pd, list, Cutoff(db)) && (uid == 0 || uid == u)
    ensures p in ProblemsOf(db, pick, u) <==> u in pd && p in pd[u]
    ensures u in pd && p in pd[u] ==> Elements(pd[u][p]) == SubsOf(db, pick, u, p)
  {
    ListedSubs(db, pick, uid, list, u, p);
    assert Get(pd, u, p) == Collected(list, Cutoff(db), u, p);
    HasSubs(db, pick, u, p);
    if u in pd && p in pd[u] {
      assert pd[u][p][0] in Elements(pd[u][p]);
    }
  }

  lemma GatheredData(db: Db, pick: Pick, uid: nat, list: seq<Fetched>, pd: ProblemData, u: nat)
    requires Lists(db, pick, uid, list) && Gathered(pd, list, Cutoff(db)) && (uid == 0 || uid == u)
    ensures ProblemsOf(db, pick, u) != {} ==> u in pd
    ensures u in pd ==> DataOf(pd[u]) == UserData(db, pick, u)
  {
    forall p ensures p in ProblemsOf(db, pick, u) <==> u in pd && p in pd[u]
             ensures u in pd && p in pd[u] ==> Elements(pd[u][p]) == SubsOf(db, pick, u, p)
    {
      GatheredProblem(db, pick, uid, list, pd, u, p);
    }
  }

  lemma HasSubs(db: Db, pick: Pick, u: nat, p: nat)
    ensures p in ProblemsOf(db, pick, u) <==> SubsOf(db, pick, u, p) != {}
  {
    if p in ProblemsOf(db, pick, u) {
      var id :| id in db.subs && Mine(db, pick, u, id) && db.subs[id].prob == p;
      assert ToSub(Fetch(db, pick, id), Cutoff(db)) in SubsOf(db, pick, u, p);
    }
  }

  // ---------------------------------------------------------------- every run

  datatype State = State(db: Db, shown: map<nat, Row>, final: map<nat, Row>, now: nat)

  function Table(s: State, final: bool): map<nat, Row> {
    if final then s.final else s.shown
  }

  /** One call of updateStandings(uid). */
  ghost predicate Refresh(s: State, s': State, pick: Pick, uid: nat) {
    && s'.db == s.db && s'.now == s.now
    && exists list, pd :: Refreshes(s, s', pick, uid, list, pd)
  }

  ghost predicate Refreshes(s: State, s': State, pick: Pick, uid: nat, list: seq<Fetched>, pd: ProblemData) {
    && Lists(s.db, pick, uid, list) && Gathered(pd, list, Cutoff(s.db))
    && Updated(s.shown, s'.shown, pd, s.db.bonus, pd.Keys, false)
    && Updated(s.final, s'.final, pd, s.db.bonus, pd.Keys, true)
  }

  datatype Message =
    | Mark(id: nat, marker: nat, result: Result)
    | Bonus(user: nat, points: int, seconds: int)
    | StartStop(event: Event)
    | Submit(id: nat, submission: Submission)
    | Wait(delay: nat)

  ghost predicate NoCountedMark(db: Db, id: nat) {
    id in db.marks ==> forall k :: k in db.marks[id] ==> !Counts(db.marks[id][k])
  }

  /** A submission is new and has a date. */
  predicate Sane(s: State, m: Message) {
    m.Submit? ==> m.id !in s.db.subs && m.id !in s.db.marks && 0 < m.submission.time
  }

  /** Submissions are not post-dated, and a deferral to a judge is not placed on a submission
      that already has a mark that counts. */
  ghost predicate Careful(s: State, m: Message) {
    match m
    case Mark(id, _, result) => result == Judge ==> NoCountedMark(s.db, id)
    case Submit(_, submission) => submission.time <= s.now
    case _ => true
  }

  function Stored(db: Db, m: Message): Db {
    match m
    case Mark(id, marker, result) =>
      db.(marks := db.marks[id := (if id in db.marks then db.marks[id] else map[])[marker := result]])
    case Bonus(u, points, seconds) => if u in db.bonus then db.(bonus := db.bonus[u := (points, seconds)]) else db
    case StartStop(e) => db.(evs := ContestClock.Insert(db.evs, e))
    case Submit(id, submission) => db.(subs := db.subs[id := submission])
    case Wait(_) => db
  }

  /** Whom the handler of a message refreshes: one user, everybody (0), or nobody. */
  function Refreshed(s: State, m: Message): Option<nat> {
    match m
    case Mark(id, _, result) => if result != Judge && id in s.db.subs then Some(s.db.subs[id].user) else None
    case Bonus(u, _, _) => Some(u)
    case StartStop(e) => if s.now < e.time then None else Some(0)
    case Submit(_, _) => None
    case Wait(_) => None
  }

  ghost predicate Next(s: State, s': State, pick: Pick, m: Message) {
    var mid := s.(db := Stored(s.db, m), now := s.now + if m.Wait? then m.delay else 0);
    Sane(s, m) && match Refreshed(s, m)
                  case None => s' == mid
                  case Some(uid) => Refresh(mid, s', pick, uid)
  }

  ghost predicate RowOk(s: State, pick: Pick, u: nat, final: bool) {
    var row := ScoreOf(s.db, pick, u, final);
    row.tries != map[] ==> u in Table(s, final) && Table(s, final)[u] == row
  }

  lemma OnlyListed(db: Db, pick: Pick, uid: nat, list: seq<Fetched>, pd: ProblemData, u: nat)
    requires Lists(db, pick, uid, list) && Gathered(pd, list, Cutoff(db)) && u in pd
    ensures uid == 0 || uid == u
  {
    var p :| p in pd[u];
    var x := pd[u][p][0];
    assert Get(pd, u, p) == pd[u][p] && x in pd[u][p];
    CollectedFrom(list, Cutoff(db), u, p, x);
    var i :| 0 <= i < |list| && Matches(list[i], u, p) && ToSub(list[i], Cutoff(db)) == x;
    assert list[i].id in db.subs && db.subs[list[i].id].user == u;
  }

  lemma ScoredWhenTried(db: Db, pick: Pick, u: nat, final: bool)
    ensures ScoreOf(db, pick, u, final).tries != map[] ==> ProblemsOf(db, pick, u) != {}
  {
    if ProblemsOf(db, pick, u) == {} {
      assert ScoreOf(db, pick, u, final).tries == map[];
    }
  }

  /** What a user's score depends on. */
  ghost predicate SameFor(db: Db, db': Db, pick: Pick, u: nat) {
    && Cutoff(db) == Cutoff(db') && (u in db.bonus <==> u in db'.bonus) && (u in db.bonus ==> db.bonus[u] == db'.bonus[u])
    && forall id :: (Mine(db, pick, u, id) <==> Mine(db', pick, u, id))
                    && (Mine(db, pick, u, id) ==> Fetch(db, pick, id) == Fetch(db', pick, id))
  }

  lemma SameData(db: Db, db': Db, pick: Pick, u: nat)
    requires SameFor(db, db', pick, u)
    ensures forall p :: SubsOf(db, pick, u, p) == SubsOf(db', pick, u, p)
    ensures forall p :: p in ProblemsOf(db, pick, u) <==> p in ProblemsOf(db', pick, u)
  {
    forall p ensures SubsOf(db, pick, u, p) == SubsOf(db', pick, u, p) {
      SubsWithin(db, db', pick, u, p);
      SubsWithin(db', db, pick, u, p);
    }
    forall p ensures p in ProblemsOf(db, pick, u) <==> p in ProblemsOf(db', pick, u) {
      HasSubs(db, pick, u, p);
      HasSubs(db', pick, u, p);
    }
  }

  lemma SameScore(db: Db, db': Db, pick: Pick, u: nat, final: bool)
    requires SameFor(db, db', pick, u)
    ensures ScoreOf(db, pick, u, final) == ScoreOf(db', pick, u, final)
  {
    SameData(db, db', pick, u);
    assert UserData(db, pick, u) == UserData(db', pick, u);
  }

  lemma SubsWithin(db: Db, db': Db, pick: Pick, u: nat, p: nat)
    requires SameFor(db, db', pick, u) || SameFor(db', db, pick, u)
    ensures SubsOf(db, pick, u, p) <= SubsOf(db', pick, u, p)
  {
    forall x | x in SubsOf(db, pick, u, p) ensures x in SubsOf(db', pick, u, p) {
      var id :| id in db.subs && Mine(db, pick, u, id) && db.subs[id].prob == p && ToSub(Fetch(db, pick, id), Cutoff(db)) == x;
      assert Mine(db', pick, u, id) && Fetch(db', pick, id) == Fetch(db, pick, id);
    }
  }

  lemma MarkSame(s: State, pick: Pick, m: Message, u: nat)
    requires IsPick(pick) && m.Mark? && Careful(s, m) && Refreshed(s, m) != Some(u)
    ensures SameFor(s.db, Stored(s.db, m), pick, u)
  {
    var db' := Stored(s.db, m);
    forall id ensures Mine(s.db, pick, u, id) <==> Mine(db', pick, u, id)
              ensures Mine(s.db, pick, u, id) ==> Fetch(s.db, pick, id) == Fetch(db', pick, id)
    {
      if id == m.id && m.result == Judge {
        Uncounted(s.db, pick, id);
        assert NoCountedMark(db', id);
        Uncounted(db', pick, id);
      }
    }
  }

  lemma Uncounted(db: Db, pick: Pick, id: nat)
    requires IsPick(pick) && NoCountedMark(db, id)
    ensures !Counted(db, pick, id)
  {
    if id in db.marks && db.marks[id] != map[] {
      var k :| k in db.marks[id] && db.marks[id][k] == pick(db.marks[id]);
    }
  }

  /** An event in the future moves no submission's contest time. */
  lemma FutureEventSame(s: State, pick: Pick, m: Message, u: nat)
    requires Inv(s, pick) && m.StartStop? && s.now < m.event.time
    ensures SameFor(s.db, Stored(s.db, m), pick, u)
  {
    var db' := Stored(s.db, m);
    forall id | id in s.db.subs ensures Fetch(s.db, pick, id) == Fetch(db', pick, id) {
      var sub := s.db.subs[id];
      ScheduleKeepsPast(s.db.evs, s.db.duration, m.event, GroupOf(s.db, sub.user), sub.time);
    }
  }

  lemma OthersSame(s: State, pick: Pick, m: Message, u: nat)
    requires IsPick(pick) && Inv(s, pick) && Sane(s, m) && Careful(s, m)
    requires Refreshed(s, m) != Some(u) && Refreshed(s, m) != Some(0)
    ensures SameFor(s.db, Stored(s.db, m), pick, u)
  {
    match m
    case Mark(_, _, _) => MarkSame(s, pick, m, u);
    case StartStop(_) => FutureEventSame(s, pick, m, u);
    case Bonus(_, _, _) =>
    case Submit(_, _) =>
    case Wait(_) =>
  }

  // ---------------------------------------------------------------- runs

  /** Start-up fills both tables from scratch. */
  ghost predicate Started(s: State, pick: Pick) {
    && (forall id :: id in s.db.subs ==> 0 < s.db.subs[id].time)
    && Refresh(s.(shown := map[], final := map[]), s, pick, 0)
  }

  ghost predicate Run(ss: seq<State>, ms: seq<Message>, pick: Pick)
    decreases |ms|, 1
  {
    |ss| == |ms| + 1 && IsPick(pick) && LastStep(ss, ms, pick)
  }

  ghost predicate LastStep(ss: seq<State>, ms: seq<Message>, pick: Pick)
    requires |ss| == |ms| + 1
    decreases |ms|, 0
  {
    var n := |ms|;
    if n == 0 then Started(ss[0], pick)
    else Run(ss[..n], ms[..n - 1], pick) && Next(ss[n - 1], ss[n], pick, ms[n - 1])
  }

  lemma RunStep(ss: seq<State>, ms: seq<Message>, pick: Pick)
    requires Run(ss, ms, pick)
    ensures var n := |ms|;
            if n == 0 then Started(ss[0], pick)
            else Run(ss[..n], ms[..n - 1], pick) && Next(ss[n - 1], ss[n], pick, ms[n - 1])
  {
    assert LastStep(ss, ms, pick);
  }

  lemma RunInit(ss: seq<State>, ms: seq<Message>, pick: Pick)
    requires Run(ss, ms, pick) && ms != []
    ensures Run(ss[..|ms|], ms[..|ms| - 1], pick)
  {
    RunStep(ss, ms, pick);
  }

  // ---------------------------------------------------------------- rows that outlive their tries

  /** A score shows a try exactly when the user has a counted submission that the table may show. */
  lemma TriedExactlyWhen(db: Db, pick: Pick, u: nat, final: bool)
    ensures ScoreOf(db, pick, u, final).tries != map[] <==>
            exists id :: Mine(db, pick, u, id) && (final || Fetch(db, pick, id).time <= Cutoff(db))
  {
    if ScoreOf(db, pick, u, final).tries != map[] {
      var p :| p in ScoreOf(db, pick, u, final).tries;
      TriedHas(db, pick, u, final, p);
    }
    if id :| Mine(db, pick, u, id) && (final || Fetch(db, pick, id).time <= Cutoff(db)) {
      HasTried(db, pick, u, final, id);
    }
  }

  lemma TriedHas(db: Db, pick: Pick, u: nat, final: bool, p: nat)
    requires p in ScoreOf(db, pick, u, final).tries
    ensures exists id :: Mine(db, pick, u, id) && db.subs[id].prob == p && (final || Fetch(db, pick, id).time <= Cutoff(db))
  {
    var subs := SubsOf(db, pick, u, p);
    VisibleWhenTried(subs, final);
    var x :| x in Visible(subs, final);
    var id :| id in db.subs && Mine(db, pick, u, id) && db.subs[id].prob == p && ToSub(Fetch(db, pick, id), Cutoff(db)) == x;
    assert Mine(db, pick, u, id) && db.subs[id].prob == p && (final || Fetch(db, pick, id).time <= Cutoff(db));
  }

  lemma HasTried(db: Db, pick: Pick, u: nat, final: bool, id: nat)
    requires Mine(db, pick, u, id) && (final || Fetch(db, pick, id).time <= Cutoff(db))
    ensures db.subs[id].prob in ScoreOf(db, pick, u, final).tries
  {
    var p := db.subs[id].prob;
    assert p in ProblemsOf(db, pick, u);
    assert ToSub(Fetch(db, pick, id), Cutoff(db)) in Visible(SubsOf(db, pick, u, p), final);
    VisibleWhenTried(SubsOf(db, pick, u, p), final);
  }

  lemma VisibleWhenTried(s: set<Sub>, final: bool)
    ensures CellOf(Visible(s, final)).tries > 0 <==> Visible(s, final) != {}
  {
  }

  function Lookup(table: map<nat, Row>, u: nat): Option<Row> {
    if u in table then Some(table[u]) else None
  }

  function Cached(s: State, u: nat, final: bool): Option<Row> {
    Lookup(Table(s, final), u)
  }

  /** A row with a try replaces what was cached; a row without one does not. */
  function Settle(cached: Option<Row>, row: Row): Option<Row> {
    if row.tries != map[] then Some(row) else cached
  }

  /** Whether a message makes the server compute the row of user u again. */
  predicate Recomputed(s: State, m: Message, u: nat) {
    Refreshed(s, m) == Some(u) || Refreshed(s, m) == Some(0)
  }

  lemma NextCached(s: State, s': State, pick: Pick, m: Message, u: nat, final: bool)
    requires Next(s, s', pick, m)
    ensures Cached(s', u, final) ==
            if Recomputed(s, m, u) then Settle(Cached(s, u, final), ScoreOf(s'.db, pick, u, final)) else Cached(s, u, final)
  {
    var mid := s.(db := Stored(s.db, m), now := s.now + if m.Wait? then m.delay else 0);
    if Refreshed(s, m).Some? {
      RefreshedCached(mid, s', pick, Refreshed(s, m).value, u, final);
    }
  }

  lemma UpdatedRow(before: map<nat, Row>, after: map<nat, Row>, pd: ProblemData, bonus: map<nat, (int, int)>, u: nat, final: bool, row: Row)
    requires Updated(before, after, pd, bonus, pd.Keys, final)
    requires if u in pd then FreshRow(pd, bonus, u, final) == row else row.tries == map[]
    ensures Lookup(after, u) == Settle(Lookup(before, u), row)
  {
    assert u in pd.Keys && IsNews(pd, bonus, u, final) <==> row.tries != map[];
  }

  lemma OtherRow(before: map<nat, Row>, after: map<nat, Row>, pd: ProblemData, bonus: map<nat, (int, int)>, u: nat, final: bool)
    requires Updated(before, after, pd, bonus, pd.Keys, final) && u !in pd
    ensures Lookup(after, u) == Lookup(before, u)
  {
    assert !(u in pd.Keys && IsNews(pd, bonus, u, final));
  }

  /** A row is never removed: an update leaves it alone once the user's score shows no try. */
  lemma RefreshedCached(s: State, s': State, pick: Pick, uid: nat, u: nat, final: bool)
    requires Refresh(s, s', pick, uid)
    ensures Cached(s', u, final) ==
            if uid == u || uid == 0 then Settle(Cached(s, u, final), ScoreOf(s.db, pick, u, final)) else Cached(s, u, final)
  {
    var list, pd :| Refreshes(s, s', pick, uid, list, pd);
    var before, after := Table(s, final), Table(s', final);
    assert Updated(before, after, pd, s.db.bonus, pd.Keys, final);
    if uid == u || uid == 0 {
      GatheredData(s.db, pick, uid, list, pd, u);
      ScoredWhenTried(s.db, pick, u, final);
      UpdatedRow(before, after, pd, s.db.bonus, u, final, ScoreOf(s.db, pick, u, final));
    } else {
      if u in pd {
        OnlyListed(s.db, pick, uid, list, pd, u);
      }
      OtherRow(before, after, pd, s.db.bonus, u, final);
    }
  }

  /** Which rows a message can change: a mark other than a deferral that of the submitter, a bonus
      that of the user, and an event any row, but only when its time has come. */
  lemma ChangesOnly(s: State, s': State, pick: Pick, m: Message, u: nat, final: bool)
    requires Next(s, s', pick, m) && Cached(s', u, final) != Cached(s, u, final)
    ensures
      || (m.Mark? && m.result != Judge && m.id in s.db.subs && (s.db.subs[m.id].user == u || s.db.subs[m.id].user == 0))
      || (m.Bonus? && (m.user == u || m.user == 0))
      || (m.StartStop? && m.event.time <= s.now)
  {
    NextCached(s, s', pick, m, u, final);
  }

  lemma StartedCached(s: State, pick: Pick, u: nat, final: bool)
    requires Started(s, pick)
    ensures Cached(s, u, final) == Settle(None, ScoreOf(s.db, pick, u, final))
  {
    RefreshedCached(s.(shown := map[], final := map[]), s, pick, 0, u, final);
  }

  /** A user's score from scratch, as a function of the state. */
  ghost function Score(pick: Pick, u: nat, final: bool): State -> Row {
    (s: State) => ScoreOf(s.db, pick, u, final)
  }

  ghost function CachedRow(u: nat, final: bool): State -> Option<Row> {
    (s: State) => Cached(s, u, final)
  }

  ghost function Again(u: nat): (State, Message) -> bool {
    (s: State, m: Message) => Recomputed(s, m, u)
  }

  /** The scores that were computed: at the start, and after each message that made the server
      compute the row again. */
  ghost function Computed(ss: seq<State>, ms: seq<Message>, again: (State, Message) -> bool, score: State -> Row): seq<Row>
    requires |ss| == |ms| + 1
    decreases |ms|
  {
    var n := |ms|;
    if n == 0 then [score(ss[0])]
    else Computed(ss[..n], ms[..n - 1], again, score) + if again(ss[n - 1], ms[n - 1]) then [score(ss[n])] else []
  }

  /** The last row that shows a try. */
  ghost function LastTried(rows: seq<Row>): Option<Row> {
    if rows == [] then None else Settle(LastTried(rows[..|rows| - 1]), rows[|rows| - 1])
  }

  lemma {:induction false} LastTriedWhich(rows: seq<Row>)
    ensures LastTried(rows) == None <==> forall i :: 0 <= i < |rows| ==> rows[i].tries == map[]
    ensures LastTried(rows).Some? ==>
              exists i :: 0 <= i < |rows| && rows[i] == LastTried(rows).value && rows[i].tries != map[]
                          && forall j :: i < j < |rows| ==> rows[j].tries == map[]
  {
    if rows != [] {
      var n := |rows| - 1;
      var init := rows[..n];
      LastTriedWhich(init);
      assert forall i :: 0 <= i < n ==> init[i] == rows[i];
      if rows[n].tries == map[] && LastTried(rows).Some? {
        var i :| 0 <= i < n && init[i] == LastTried(init).value && init[i].tries != map[]
                 && forall j :: i < j < n ==> init[j].tries == map[];
        assert rows[i] == init[i];
        forall j | i < j < |rows| ensures rows[j].tries == map[] {
          assert j < n ==> rows[j] == init[j];
        }
      }
    }
  }

  lemma LastTriedSnoc(rows: seq<Row>, row: Row)
    ensures LastTried(rows + [row]) == Settle(LastTried(rows), row)
  {
    assert (rows + [row])[..|rows|] == rows;
  }

  /** What is cached at the end comes from what was cached before the last message, and from the
      score if it was computed again. */
  ghost predicate Settles(ss: seq<State>, ms: seq<Message>, again: (State, Message) -> bool, score: State -> Row,
                          cached: State -> Option<Row>)
    requires |ss| == |ms| + 1
  {
    var n := |ms|;
    cached(ss[n]) ==
    if n == 0 then Settle(None, score(ss[0]))
    else if again(ss[n - 1], ms[n - 1]) then Settle(cached(ss[n - 1]), score(ss[n]))
    else cached(ss[n - 1])
  }

  /** Along any runs whose every step settles, the cached row is the last one computed with a try. */
  lemma {:induction false} SettledLast(ss: seq<State>, ms: seq<Message>, run: (seq<State>, seq<Message>) -> bool,
                                       again: (State, Message) -> bool, score: State -> Row, cached: State -> Option<Row>)
    requires run(ss, ms)
    requires forall ss, ms :: run(ss, ms) ==> Chained(ss, ms, run) && Settles(ss, ms, again, score, cached)
    ensures |ss| == |ms| + 1 && cached(ss[|ms|]) == LastTried(Computed(ss, ms, again, score))
    decreases |ms|
  {
    var n := |ms|;
    assert Chained(ss, ms, run) && Settles(ss, ms, again, score, cached);
    if n == 0 {
      LastTriedSnoc([], score(ss[0]));
      assert [] + [score(ss[0])] == [score(ss[0])];
    } else {
      SettledLast(ss[..n], ms[..n - 1], run, again, score, cached);
      var before := Computed(ss[..n], ms[..n - 1], again, score);
      LastTriedSnoc(before, score(ss[n]));
      assert before + [] == before;
    }
  }

  ghost predicate Chained(ss: seq<State>, ms: seq<Message>, run: (seq<State>, seq<Message>) -> bool) {
    |ss| == |ms| + 1 && (ms != [] ==> run(ss[..|ms|], ms[..|ms| - 1]))
  }

  lemma RunLast(ss: seq<State>, ms: seq<Message>, pick: Pick, u: nat, final: bool)
    requires Run(ss, ms, pick)
    ensures Settles(ss, ms, Again(u), Score(pick, u, final), CachedRow(u, final))
  {
    var n := |ms|;
    RunStep(ss, ms, pick);
    if n == 0 {
      StartedCached(ss[0], pick, u, final);
    } else {
      NextCached(ss[n - 1], ss[n], pick, ms[n - 1], u, final);
    }
  }

  /** In every run the cached row of a user is the last computed one that shows a try, and there
      is no row exactly when none does. */
  lemma CacheIsLastTried(ss: seq<State>, ms: seq<Message>, pick: Pick, u: nat, final: bool)
    requires Run(ss, ms, pick)
    ensures Cached(ss[|ms|], u, final) == LastTried(Computed(ss, ms, Again(u), Score(pick, u, final)))
  {
    var score, cached := Score(pick, u, final), CachedRow(u, final);
    var run := (ss: seq<State>, ms: seq<Message>) => Run(ss, ms, pick);
    forall ss, ms | run(ss, ms) ensures Chained(ss, ms, run) && Settles(ss, ms, Again(u), score, cached) {
      if ms != [] {
        RunInit(ss, ms, pick);
      }
      RunLast(ss, ms, pick, u, final);
    }
    SettledLast(ss, ms, run, Again(u), score, cached);
  }

  /** In every run a user has a row exactly when a computed one showed a try. */
  lemma RowThereExactlyWhen(ss: seq<State>, ms: seq<Message>, pick: Pick, u: nat, final: bool)
    requires Run(ss, ms, pick)
    ensures var rows := Computed(ss, ms, Again(u), Score(pick, u, final));
            u in Table(ss[|ms|], final) <==> exists i :: 0 <= i < |rows| && rows[i].tries != map[]
  {
    CacheIsLastTried(ss, ms, pick, u, final);
    LastTriedWhich(Computed(ss, ms, Again(u), Score(pick, u, final)));
  }

  /** The table says of a user exactly what a computation from scratch would. */
  ghost predicate Exact(s: State, pick: Pick, u: nat, final: bool) {
    Cached(s, u, final) == Settle(None, ScoreOf(s.db, pick, u, final))
  }

  /** In every run: for a user whose score is still the one computed last, the cache is exact if
      and only if that score shows a try or none computed before does. If the score has changed
      since, and the one computed last shows a try, the cache is wrong. */
  lemma CacheExactlyWhen(ss: seq<State>, ms: seq<Message>, pick: Pick, u: nat, final: bool)
    requires Run(ss, ms, pick)
    ensures var rows := Computed(ss, ms, Again(u), Score(pick, u, final));
            var now := ScoreOf(ss[|ms|].db, pick, u, final);
            && rows != []
            && (now == rows[|rows| - 1] ==>
                  (Exact(ss[|ms|], pick, u, final) <==> now.tries != map[] || forall i :: 0 <= i < |rows| ==> rows[i].tries == map[]))
            && (now != rows[|rows| - 1] && rows[|rows| - 1].tries != map[] ==> !Exact(ss[|ms|], pick, u, final))
  {
    var rows := Computed(ss, ms, Again(u), Score(pick, u, final));
    CacheIsLastTried(ss, ms, pick, u, final);
    ComputedSome(ss, ms, Again(u), Score(pick, u, final));
    ExactWhen(rows, ScoreOf(ss[|ms|].db, pick, u, final), Cached(ss[|ms|], u, final));
  }

  lemma {:induction false} ComputedSome(ss: seq<State>, ms: seq<Message>, again: (State, Message) -> bool, score: State -> Row)
    requires |ss| == |ms| + 1
    ensures Computed(ss, ms, again, score) != []
    decreases |ms|
  {
    if ms != [] {
      ComputedSome(ss[..|ms|], ms[..|ms| - 1], again, score);
    }
  }

  lemma ExactWhen(rows: seq<Row>, now: Row, cached: Option<Row>)
    requires rows != [] && cached == LastTried(rows)
    ensures now == rows[|rows| - 1] ==>
              (cached == Settle(None, now) <==> now.tries != map[] || forall i :: 0 <= i < |rows| ==> rows[i].tries == map[])
    ensures now != rows[|rows| - 1] && rows[|rows| - 1].tries != map[] ==> cached != Settle(None, now)
  {
    LastTriedWhich(rows);
  }

  // ---------------------------------------------------------------- careful runs

  /** Every message is careful, and so is the start. */
  ghost predicate AllCareful(ss: seq<State>, ms: seq<Message>) {
    && |ss| == |ms| + 1
    && (forall id :: id in ss[0].db.subs ==> ss[0].db.subs[id].time <= ss[0].now)
    && (forall i :: 0 <= i < |ms| ==> Careful(ss[i], ms[i]))
  }

  lemma CarefulInit(ss: seq<State>, ms: seq<Message>)
    requires AllCareful(ss, ms) && ms != []
    ensures AllCareful(ss[..|ms|], ms[..|ms| - 1]) && Careful(ss[|ms| - 1], ms[|ms| - 1])
  {
  }

  /** No submission is from the future, and every row with a try is right. */
  ghost predicate Inv(s: State, pick: Pick) {
    && (forall id :: id in s.db.subs ==> s.db.subs[id].time <= s.now)
    && (forall u, final :: RowOk(s, pick, u, final))
  }

  lemma StartedInv(s: State, pick: Pick)
    requires Started(s, pick) && forall id :: id in s.db.subs ==> s.db.subs[id].time <= s.now
    ensures Inv(s, pick)
  {
    forall u, final ensures RowOk(s, pick, u, final) {
      StartedCached(s, pick, u, final);
    }
  }

  lemma NextRowOk(s: State, s': State, pick: Pick, m: Message, u: nat, final: bool)
    requires IsPick(pick) && Inv(s, pick) && Next(s, s', pick, m) && Careful(s, m)
    ensures RowOk(s', pick, u, final)
  {
    NextCached(s, s', pick, m, u, final);
    assert RowOk(s, pick, u, final);
    if !Recomputed(s, m, u) {
      OthersSame(s, pick, m, u);
      SameScore(s.db, Stored(s.db, m), pick, u, final);
    }
  }

  lemma NextInv(s: State, s': State, pick: Pick, m: Message)
    requires IsPick(pick) && Inv(s, pick) && Next(s, s', pick, m) && Careful(s, m)
    ensures Inv(s', pick)
  {
    forall u, final ensures RowOk(s', pick, u, final) {
      NextRowOk(s, s', pick, m, u, final);
    }
  }

  lemma {:induction false} RunInv(ss: seq<State>, ms: seq<Message>, pick: Pick)
    requires Run(ss, ms, pick) && AllCareful(ss, ms)
    ensures Inv(ss[|ms|], pick)
    decreases |ms|
  {
    var n := |ms|;
    RunStep(ss, ms, pick);
    if n == 0 {
      StartedInv(ss[0], pick);
    } else {
      CarefulInit(ss, ms);
      RunInv(ss[..n], ms[..n - 1], pick);
      NextInv(ss[n - 1], ss[n], pick, ms[n - 1]);
    }
  }

  /** In every careful run of marks, bonus changes, start/stop messages and new submissions:
      whenever a user's score from scratch shows a try, the cached row is that score, in both
      tables. */
  lemma CacheIsRight(ss: seq<State>, ms: seq<Message>, pick: Pick, u: nat, final: bool)
    requires Run(ss, ms, pick) && AllCareful(ss, ms)
    ensures var s := ss[|ms|]; var row := ScoreOf(s.db, pick, u, final);
            row.tries != map[] ==> u in Table(s, final) && Table(s, final)[u] == row
  {
    RunInv(ss, ms, pick);
    assert RowOk(ss[|ms|], pick, u, final);
  }

  // ---------------------------------------------------------------- what the blinds hide

  /** A submission made before the blinds came down. */
  ghost predicate Open(db: Db, id: nat) {
    id in db.subs && TimeAt(db.evs, db.duration, GroupOf(db, db.subs[id].user), db.subs[id].time) <= Cutoff(db)
  }

  ghost predicate SameSubmission(db: Db, db': Db, id: nat) {
    && id in db.subs && id in db'.subs && db.subs[id] == db'.subs[id]
    && (id in db.marks <==> id in db'.marks) && (id in db.marks ==> db.marks[id] == db'.marks[id])
  }

  /** Two databases that agree on all but blinded submissions and the marks of those. */
  ghost predicate SameButBlinded(db: Db, db': Db) {
    && db' == db.(subs := db'.subs, marks := db'.marks)
    && forall id :: Open(db, id) || Open(db', id) ==> SameSubmission(db, db', id)
  }

  lemma OpenWithin(db: Db, db': Db, pick: Pick, u: nat, p: nat, x: Sub)
    requires SameButBlinded(db, db') && !x.finalOnly && x in SubsOf(db, pick, u, p)
    ensures x in SubsOf(db', pick, u, p)
  {
    var id :| id in db.subs && Mine(db, pick, u, id) && db.subs[id].prob == p && ToSub(Fetch(db, pick, id), Cutoff(db)) == x;
    assert Open(db, id) && SameSubmission(db, db', id);
    assert Mine(db', pick, u, id) && Fetch(db', pick, id) == Fetch(db, pick, id);
  }

  lemma InData(db: Db, pick: Pick, u: nat, p: nat, x: Sub)
    ensures p in UserData(db, pick, u) && x in UserData(db, pick, u)[p] <==> x in SubsOf(db, pick, u, p)
  {
    HasSubs(db, pick, u, p);
  }

  lemma OpenData(db: Db, db': Db, pick: Pick, u: nat)
    requires SameButBlinded(db, db')
    ensures SameOpen(UserData(db, pick, u), UserData(db', pick, u))
  {
    var data, data' := UserData(db, pick, u), UserData(db', pick, u);
    forall p, x: Sub | !x.finalOnly ensures (p in data && x in data[p]) <==> (p in data' && x in data'[p]) {
      InData(db, pick, u, p, x);
      InData(db', pick, u, p, x);
      OpenSame(db, db', pick, u, p, x);
    }
  }

  lemma OpenSame(db: Db, db': Db, pick: Pick, u: nat, p: nat, x: Sub)
    requires SameButBlinded(db, db') && !x.finalOnly
    ensures x in SubsOf(db, pick, u, p) <==> x in SubsOf(db', pick, u, p)
  {
    if x in SubsOf(db, pick, u, p) {
      OpenWithin(db, db', pick, u, p, x);
    }
    if x in SubsOf(db', pick, u, p) {
      OpenWithin(db', db, pick, u, p, x);
    }
  }

  /** Nothing done to blinded submissions (new ones, other contents, marks) reaches the score
      that contestants are shown. */
  lemma BlindsHideScores(db: Db, db': Db, pick: Pick, u: nat)
    requires SameButBlinded(db, db')
    ensures ScoreOf(db, pick, u, false) == ScoreOf(db', pick, u, false)
  {
    OpenData(db, db', pick, u);
    var (points, seconds) := if u in db.bonus then db.bonus[u] else (0, 0);
    BlindsHide(UserData(db, pick, u), UserData(db', pick, u), points, seconds);
  }

  /** After every careful run, a mark on a blinded submission changes no row that contestants are
      shown, whatever the mark says. */
  lemma BlindedMarkUnseen(ss: seq<State>, ms: seq<Message>, pick: Pick, s': State, m: Message, u: nat)
    requires Run(ss, ms, pick) && AllCareful(ss, ms)
    requires Next(ss[|ms|], s', pick, m) && m.Mark? && !Open(ss[|ms|].db, m.id)
    ensures Cached(s', u, false) == Cached(ss[|ms|], u, false)
  {
    var s := ss[|ms|];
    NextCached(s, s', pick, m, u, false);
    if Recomputed(s, m, u) {
      CacheIsRight(ss, ms, pick, u, false);
      StoredBlinded(s.db, m);
      NextStores(s, s', pick, m);
      BlindsHideScores(s.db, s'.db, pick, u);
    }
  }

  lemma StoredBlinded(db: Db, m: Message)
    requires m.Mark? && !Open(db, m.id)
    ensures SameButBlinded(db, Stored(db, m))
  {
  }

  lemma NextStores(s: State, s': State, pick: Pick, m: Message)
    requires Next(s, s', pick, m)
    ensures s'.db == Stored(s.db, m)
  {
  }

  // ---------------------------------------------------------------- every message can be handled

  ghost function ListBelow(db: Db, pick: Pick, uid: nat, n: nat): (list: seq<Fetched>)
    ensures IdsAscend(list)
    ensures forall i :: 0 <= i < |list| ==>
              && list[i].id < n && Listed(db, list[i].id) && list[i] == Fetch(db, pick, list[i].id)
              && (uid == 0 || db.subs[list[i].id].user == uid)
  {
    if n == 0 then [] else
      ListBelow(db, pick, uid, n - 1) +
      if Listed(db, n - 1) && (uid == 0 || db.subs[n - 1].user == uid) then [Fetch(db, pick, n - 1)] else []
  }

  lemma {:induction false} ListBelowAll(db: Db, pick: Pick, uid: nat, n: nat, id: nat) returns (i: nat)
    requires id < n && Listed(db, id) && (uid == 0 || db.subs[id].user == uid)
    ensures i < |ListBelow(db, pick, uid, n)| && ListBelow(db, pick, uid, n)[i].id == id
  {
    if id == n - 1 {
      i := |ListBelow(db, pick, uid, n - 1)|;
    } else {
      i := ListBelowAll(db, pick, uid, n - 1, id);
    }
  }

  lemma {:induction false} BoundExists(ids: set<nat>) returns (n: nat)
    ensures forall id :: id in ids ==> id < n
    decreases |ids|
  {
    if ids == {} {
      n := 0;
    } else {
      var x :| x in ids;
      n := BoundExists(ids - {x});
      assert forall id :: id in ids ==> id == x || id in ids - {x};
      n := n + x + 1;
    }
  }

  lemma ListExists(db: Db, pick: Pick, uid: nat) returns (list: seq<Fetched>)
    ensures Lists(db, pick, uid, list)
  {
    var n := BoundExists(db.subs.Keys);
    list := ListBelow(db, pick, uid, n);
    forall id | Listed(db, id)
      ensures (uid == 0 || db.subs[id].user == uid) <==> exists i :: 0 <= i < |list| && list[i].id == id
    {
      if uid == 0 || db.subs[id].user == uid {
        var i := ListBelowAll(db, pick, uid, n, id);
      }
    }
  }

  lemma {:induction false} GatherExists(list: seq<Fetched>, cutoff: int) returns (pd: ProblemData)
    ensures Gathered(pd, list, cutoff)
  {
    if list == [] {
      pd := map[];
    } else {
      var n := |list| - 1;
      var f := list[n];
      assert list == list[..n] + [f];
      pd := GatherExists(list[..n], cutoff);
      if f.state.Some? && Counts(f.state.value) {
        AppendGathers(pd, list[..n], cutoff, f);
        pd := Append(pd, f.user, f.prob, ToSub(f, cutoff));
      } else {
        SkipGathers(pd, list[..n], cutoff, f);
      }
    }
  }

  ghost function Merged(before: map<nat, Row>, pd: ProblemData, bonus: map<nat, (int, int)>, final: bool): (after: map<nat, Row>)
    ensures Updated(before, after, pd, bonus, pd.Keys, final)
  {
    before + map u | u in pd && IsNews(pd, bonus, u, final) :: FreshRow(pd, bonus, u, final)
  }

  lemma RefreshExists(s: State, pick: Pick, uid: nat) returns (s': State)
    ensures Refresh(s, s', pick, uid)
  {
    var list := ListExists(s.db, pick, uid);
    var pd := GatherExists(list, Cutoff(s.db));
    s' := s.(shown := Merged(s.shown, pd, s.db.bonus, false), final := Merged(s.final, pd, s.db.bonus, true));
    assert Refreshes(s, s', pick, uid, list, pd);
  }

  /** Every message has a next state, so runs go on with any messages. */
  lemma NextExists(s: State, pick: Pick, m: Message) returns (s': State)
    requires Sane(s, m)
    ensures Next(s, s', pick, m) && s'.db == Stored(s.db, m)
  {
    var mid := s.(db := Stored(s.db, m), now := s.now + if m.Wait? then m.delay else 0);
    s' := mid;
    if Refreshed(s, m).Some? {
      s' := RefreshExists(mid, pick, Refreshed(s, m).value);
    }
  }

  lemma RunSnoc(ss: seq<State>, ms: seq<Message>, pick: Pick, s: State, s': State, m: Message)
    requires Run(ss, ms, pick) && ss[|ms|] == s && Next(s, s', pick, m)
    ensures Run(ss + [s'], ms + [m], pick)
  {
    assert (ss + [s'])[..|ss|] == ss && (ms + [m])[..|ms|] == ms;
    assert LastStep(ss + [s'], ms + [m], pick);
  }

  /** A run goes on with any message. */
  lemma RunGoesOn(ss: seq<State>, ms: seq<Message>, s: State, pick: Pick, m: Message, u: nat) returns (s': State)
    requires Run(ss, ms, pick) && ss[|ms|] == s && Sane(s, m)
    ensures Run(ss + [s'], ms + [m], pick) && s'.db == Stored(s.db, m)
    ensures Cached(s', u, true) ==
            if Recomputed(s, m, u) then Settle(Cached(s, u, true), ScoreOf(s'.db, pick, u, true)) else Cached(s, u, true)
  {
    s' := NextExists(s, pick, m);
    RunSnoc(ss, ms, pick, s, s', m);
    NextCached(s, s', pick, m, u, true);
  }

  /** A started server with two submissions of user u, on problems 3 and 4. */
  lemma TwoSubmitted(pick: Pick, u: nat) returns (s: State)
    requires IsPick(pick)
    ensures Run([s], [], pick) && LeadTo(pick)([], s) && Marked(s.db, u, None, None)
  {
    var db := Db(map[1 := Submission(u, 3, 7), 2 := Submission(u, 4, 7)], map[], map[], map[], {3, 4}, [], 100, 0);
    s := RefreshExists(State(db, map[], map[], 8), pick, 0);
    assert s.(shown := map[], final := map[]) == State(db, map[], map[], 8);
    assert LastStep([s], [], pick);
    assert Run([s], [], pick);
  }

  ghost predicate TwoSubs(db: Db, u: nat) {
    && db.subs.Keys == {1, 2} && 3 in db.named && 4 in db.named
    && db.subs[1] == Submission(u, 3, 7) && db.subs[2] == Submission(u, 4, 7)
  }

  ghost predicate MarkedAs(db: Db, id: nat, r: Option<Result>) {
    if r.Some? then id in db.marks && db.marks[id] == map[9 := r.value] else id !in db.marks
  }

  /** What marker 9 said of the two submissions. */
  ghost predicate Marked(db: Db, u: nat, first: Option<Result>, second: Option<Result>) {
    TwoSubs(db, u) && MarkedAs(db, 1, first) && MarkedAs(db, 2, second)
  }

  lemma MarkStored(db: Db, u: nat, first: Option<Result>, second: Option<Result>, id: nat, r: Result)
    requires Marked(db, u, first, second) && (id == 1 || id == 2)
    ensures Marked(Stored(db, Mark(id, 9, r)), u, if id == 1 then Some(r) else first, if id == 2 then Some(r) else second)
  {
    if id in db.marks {
      var was := if id == 1 then first.value else second.value;
      assert map[9 := was][9 := r] == map[9 := r];
    }
  }

  lemma OneMark(db: Db, pick: Pick, u: nat, id: nat, r: Result)
    requires IsPick(pick) && TwoSubs(db, u) && id in db.subs && MarkedAs(db, id, Some(r))
    ensures Mine(db, pick, u, id) <==> Counts(r)
  {
    var marks := db.marks[id];
    assert 9 in marks;
    var k :| k in marks && marks[k] == pick(marks);
  }

  ghost predicate MineOn(db: Db, pick: Pick, u: nat, p: nat, id: nat) {
    Mine(db, pick, u, id) && db.subs[id].prob == p
  }

  /** The final score shows tries exactly on the problems with a counted submission. */
  ghost predicate TriesOn(row: Row, db: Db, pick: Pick, u: nat) {
    forall p :: p in row.tries <==> exists id :: MineOn(db, pick, u, p, id)
  }

  lemma ScoreTriesOn(db: Db, pick: Pick, u: nat)
    ensures TriesOn(ScoreOf(db, pick, u, true), db, pick, u)
  {
    var row := ScoreOf(db, pick, u, true);
    forall p ensures p in row.tries <==> exists id :: MineOn(db, pick, u, p, id) {
      if p in row.tries {
        TriedHas(db, pick, u, true, p);
        var id :| Mine(db, pick, u, id) && db.subs[id].prob == p;
        assert MineOn(db, pick, u, p, id);
      }
      if id :| MineOn(db, pick, u, p, id) {
        HasTried(db, pick, u, true, id);
      }
    }
  }

  /** The one mark of a submission decides whether its problem shows a try. */
  lemma OnlyMark(row: Row, db: Db, pick: Pick, u: nat, id: nat, r: Result)
    requires IsPick(pick) && TwoSubs(db, u) && id in db.subs && MarkedAs(db, id, Some(r)) && TriesOn(row, db, pick, u)
    ensures id + 2 in row.tries <==> Counts(r)
  {
    OneMark(db, pick, u, id, r);
    assert MineOn(db, pick, u, id + 2, id) <==> Counts(r);
  }

  lemma NothingCounts(row: Row, db: Db, pick: Pick, u: nat)
    requires IsPick(pick) && Marked(db, u, Some(CompileFailed), None) && TriesOn(row, db, pick, u)
    ensures row.tries == map[]
  {
    OneMark(db, pick, u, 1, CompileFailed);
    assert row.tries.Keys == {};
  }

  /** Messages that lead a started server to state s. */
  ghost function LeadTo(pick: Pick): (seq<Message>, State) -> bool {
    (ms: seq<Message>, s: State) => exists ss :: Run(ss, ms, pick) && ss[|ms|] == s
  }

  /** One more mark by marker 9 in a run. */
  lemma Go(ms: seq<Message>, s: State, pick: Pick, lead: (seq<Message>, State) -> bool, u: nat,
           first: Option<Result>, second: Option<Result>, id: nat, r: Result)
    returns (s': State)
    requires IsPick(pick) && lead == LeadTo(pick) && lead(ms, s) && Marked(s.db, u, first, second) && (id == 1 || id == 2)
    ensures lead(ms + [Mark(id, 9, r)], s')
    ensures Marked(s'.db, u, if id == 1 then Some(r) else first, if id == 2 then Some(r) else second)
    ensures Counts(r) ==> Cached(s', u, true).Some? && id + 2 in Cached(s', u, true).value.tries
    ensures r == Judge || (r == CompileFailed && id == 1 && second.None?) ==> Cached(s', u, true) == Cached(s, u, true)
  {
    var m := Mark(id, 9, r);
    s' := LeadsOn(ms, s, pick, m, u);
    MarkStored(s.db, u, first, second, id, r);
    ScoreTriesOn(s'.db, pick, u);
    GoCached(s, s', pick, u, id, r, ScoreOf(s'.db, pick, u, true));
  }

  lemma Leads(ss: seq<State>, ms: seq<Message>, s: State, pick: Pick)
    requires Run(ss, ms, pick) && ss[|ms|] == s
    ensures LeadTo(pick)(ms, s)
  {
  }

  lemma LeadsOn(ms: seq<Message>, s: State, pick: Pick, m: Message, u: nat) returns (s': State)
    requires LeadTo(pick)(ms, s) && Sane(s, m)
    ensures LeadTo(pick)(ms + [m], s') && s'.db == Stored(s.db, m)
    ensures Cached(s', u, true) ==
            if Recomputed(s, m, u) then Settle(Cached(s, u, true), ScoreOf(s'.db, pick, u, true)) else Cached(s, u, true)
  {
    var ss :| Run(ss, ms, pick) && ss[|ms|] == s;
    s' := RunGoesOn(ss, ms, s, pick, m, u);
    Leads(ss + [s'], ms + [m], s', pick);
  }

  lemma GoCached(s: State, s': State, pick: Pick, u: nat, id: nat, r: Result, row: Row)
    requires IsPick(pick) && (id == 1 || id == 2) && TwoSubs(s.db, u)
    requires TwoSubs(s'.db, u) && MarkedAs(s'.db, id, Some(r)) && TriesOn(row, s'.db, pick, u)
    requires Cached(s', u, true) ==
             if Recomputed(s, Mark(id, 9, r), u) then Settle(Cached(s, u, true), row) else Cached(s, u, true)
    ensures Counts(r) ==> Cached(s', u, true).Some? && id + 2 in Cached(s', u, true).value.tries
    ensures r == Judge || Marked(s'.db, u, Some(CompileFailed), None) ==> Cached(s', u, true) == Cached(s, u, true)
  {
    OnlyMark(row, s'.db, pick, u, id, r);
    if Marked(s'.db, u, Some(CompileFailed), None) {
      NothingCounts(row, s'.db, pick, u);
    }
  }

  /** A marker marks a submission correct and then corrects that to a compile failure: the user
      has no try any more, and still has the row with the solved problem. */
  lemma StaleRow(pick: Pick, u: nat) returns (ss: seq<State>, ms: seq<Message>)
    requires IsPick(pick)
    ensures Run(ss, ms, pick) && ms == [Mark(1, 9, Correct), Mark(1, 9, CompileFailed)]
    ensures var s := ss[|ms|];
            && ScoreOf(s.db, pick, u, true).tries == map[]
            && Cached(s, u, true).Some? && Cached(s, u, true).value.tries != map[]
  {
    var s0 := TwoSubmitted(pick, u);
    ms := [Mark(1, 9, Correct), Mark(1, 9, CompileFailed)];
    var s := StaleMarks(s0, pick, LeadTo(pick), u, ms);
    ss :| Run(ss, ms, pick) && ss[|ms|] == s;
    ScoreTriesOn(s.db, pick, u);
    NothingCounts(ScoreOf(s.db, pick, u, true), s.db, pick, u);
  }

  lemma StaleMarks(s0: State, pick: Pick, lead: (seq<Message>, State) -> bool, u: nat, ms: seq<Message>) returns (s: State)
    requires IsPick(pick) && lead == LeadTo(pick) && lead([], s0) && Marked(s0.db, u, None, None)
    requires ms == [Mark(1, 9, Correct), Mark(1, 9, CompileFailed)]
    ensures lead(ms, s) && Marked(s.db, u, Some(CompileFailed), None)
    ensures Cached(s, u, true).Some? && 3 in Cached(s, u, true).value.tries
  {
    var s1 := Go([], s0, pick, lead, u, None, None, 1, Correct);
    assert [] + [Mark(1, 9, Correct)] == ms[..1] && ms[..1] + [Mark(1, 9, CompileFailed)] == ms;
    s := Go(ms[..1], s1, pick, lead, u, Some(Correct), None, 1, CompileFailed);
  }

  /** Two submissions are marked correct, and then one of these marks is changed to a deferral to
      a judge, after which no row is computed: the user's score shows a try, and the cached row
      is another one. */
  lemma DeferralLeavesRow(pick: Pick, u: nat) returns (ss: seq<State>, ms: seq<Message>)
    requires IsPick(pick)
    ensures Run(ss, ms, pick) && ms == [Mark(1, 9, Correct), Mark(2, 9, Correct), Mark(2, 9, Judge)]
    ensures var s := ss[|ms|]; var row := ScoreOf(s.db, pick, u, true);
            row.tries != map[] && Cached(s, u, true).Some? && Cached(s, u, true).value != row
  {
    var s0 := TwoSubmitted(pick, u);
    ms := [Mark(1, 9, Correct), Mark(2, 9, Correct), Mark(2, 9, Judge)];
    var s := DeferralMarks(s0, pick, LeadTo(pick), u, ms);
    ss :| Run(ss, ms, pick) && ss[|ms|] == s;
    ScoreTriesOn(s.db, pick, u);
    OnlyMark(ScoreOf(s.db, pick, u, true), s.db, pick, u, 1, Correct);
    OnlyMark(ScoreOf(s.db, pick, u, true), s.db, pick, u, 2, Judge);
  }

  lemma DeferralMarks(s0: State, pick: Pick, lead: (seq<Message>, State) -> bool, u: nat, ms: seq<Message>) returns (s: State)
    requires IsPick(pick) && lead == LeadTo(pick) && lead([], s0) && Marked(s0.db, u, None, None)
    requires ms == [Mark(1, 9, Correct), Mark(2, 9, Correct), Mark(2, 9, Judge)]
    ensures lead(ms, s) && Marked(s.db, u, Some(Correct), Some(Judge))
    ensures Cached(s, u, true).Some? && 4 in Cached(s, u, true).value.tries
  {
    var s1 := Go([], s0, pick, lead, u, None, None, 1, Correct);
    assert [] + [Mark(1, 9, Correct)] == ms[..1] && ms[..1] + [Mark(2, 9, Correct)] == ms[..2] && ms[..2] + [Mark(2, 9, Judge)] == ms;
    var s2 := Go(ms[..1], s1, pick, lead, u, Some(Correct), None, 2, Correct);
    s := Go(ms[..2], s2, pick, lead, u, Some(Correct), Some(Correct), 2, Judge);
  }
}
