/** The scoring loop of updateStandings (src/support_standings.C).

    For each problem the counted submissions are sorted, blinded ones last, and read twice:
    first up to the blinds, for the contestants' table, then to the end, for the final table.
    The reference does not sort or loop: it counts the submissions made before the first
    correct one.
 */
module Scoring {

  const PENALTY := 1200

  /** One counted submission: its contest time, verdict, and whether the blinds hide it. */
  datatype Sub = Sub(id: nat, time: nat, correct: bool, finalOnly: bool)

  /** SubDataLessThan */
  predicate Less(a: Sub, b: Sub) {
    if a.finalOnly != b.finalOnly then b.finalOnly else a.time < b.time
  }

  // ---------------------------------------------------------------- the simple definition

  /** Chronological order; of two submissions at one time the one with the smaller id is first. */
  predicate Before(a: Sub, b: Sub) {
    a.time < b.time || (a.time == b.time && a.id < b.id)
  }

  /** A problem is solved after some tries and at some cost, or not solved after some tries. */
  datatype Cell = Solved(tries: nat, time: nat) | Unsolved(tries: nat)

  ghost function Earlier(s: set<Sub>, x: Sub): set<Sub> {
    set y | y in s && Before(y, x)
  }

  ghost predicate IsFirstCorrect(s: set<Sub>, x: Sub) {
    x in s && x.correct && forall y :: y in s && y.correct ==> !Before(y, x)
  }

  ghost predicate IsCell(s: set<Sub>, c: Cell) {
    match c
    case Solved(tries, time) =>
      exists x :: IsFirstCorrect(s, x) && tries == |Earlier(s, x)| + 1 && time == x.time + PENALTY * |Earlier(s, x)|
    case Unsolved(tries) => tries == |s| && forall x :: x in s ==> !x.correct
  }

  /** What a table shows of a problem: everything, or only what is not blinded. */
  ghost function Visible(s: set<Sub>, final: bool): set<Sub> {
    set x | x in s && (final || !x.finalOnly)
  }

  /** The blinds hide the end of the contest: exactly the submissions after the cutoff. */
  ghost predicate Blinds(s: set<Sub>, cutoff: int) {
    forall x :: x in s ==> (x.finalOnly <==> x.time > cutoff)
  }

  ghost predicate DistinctIds(s: set<Sub>) {
    forall x, y :: x in s && y in s && x.id == y.id ==> x == y
  }

  // ---------------------------------------------------------------- facts about the definition

  lemma CellUnique(s: set<Sub>, c: Cell, d: Cell)
    requires DistinctIds(s) && IsCell(s, c) && IsCell(s, d)
    ensures c == d
  {
    if c.Solved? && d.Solved? {
      var x :| IsFirstCorrect(s, x) && c.tries == |Earlier(s, x)| + 1 && c.time == x.time + PENALTY * |Earlier(s, x)|;
      var y :| IsFirstCorrect(s, y) && d.tries == |Earlier(s, y)| + 1 && d.time == y.time + PENALTY * |Earlier(s, y)|;
      assert !Before(x, y) && !Before(y, x);
      assert x == y;
    }
  }

  /** A problem solved before the blinds looks the same in both tables. */
  lemma SolvedBeforeBlinds(s: set<Sub>, cutoff: int, c: Cell)
    requires Blinds(s, cutoff) && IsCell(Visible(s, false), c) && c.Solved?
    ensures IsCell(Visible(s, true), c)
  {
    var v, all := Visible(s, false), Visible(s, true);
    var x :| IsFirstCorrect(v, x) && c.tries == |Earlier(v, x)| + 1 && c.time == x.time + PENALTY * |Earlier(v, x)|;
    forall y | y in all && Before(y, x) ensures y in v {
    }
    assert Earlier(all, x) == Earlier(v, x);
    assert IsFirstCorrect(all, x);
  }

  /** The contestants' view of a problem does not depend on the blinded submissions. */
  lemma BlindedInvisible(s: set<Sub>, s': set<Sub>)
    requires forall x: Sub :: !x.finalOnly ==> (x in s <==> x in s')
    ensures Visible(s, false) == Visible(s', false)
  {
  }

  // ---------------------------------------------------------------- sorting

  /** Stable insertion: after everything that is not greater. */
  function Insert(l: seq<Sub>, x: Sub): seq<Sub> {
    if l == [] || !Less(x, l[|l| - 1]) then l + [x]
    else Insert(l[..|l| - 1], x) + [l[|l| - 1]]
  }

  /** std::stable_sort with SubDataLessThan. */
  function StableSort(l: seq<Sub>): seq<Sub> {
    if l == [] then [] else Insert(StableSort(l[..|l| - 1]), l[|l| - 1])
  }

  function Elements(l: seq<Sub>): set<Sub> {
    set x | x in l
  }

  ghost predicate ById(l: seq<Sub>) {
    forall i, j :: 0 <= i < j < |l| ==> l[i].id < l[j].id
  }

  /** Sorted the way the loop needs it: blinded last, then by time, then by id. */
  ghost predicate Ascending(l: seq<Sub>) {
    forall i, j :: 0 <= i < j < |l| ==> Precedes(l[i], l[j])
  }

  predicate Precedes(a: Sub, b: Sub) {
    Less(a, b) || (!Less(b, a) && a.id < b.id)
  }

  lemma {:induction false} InsertElements(l: seq<Sub>, x: Sub)
    ensures forall y :: y in Insert(l, x) <==> y in l || y == x
    ensures |Insert(l, x)| == |l| + 1
  {
    if l != [] && Less(x, l[|l| - 1]) {
      InsertElements(l[..|l| - 1], x);
      assert l == l[..|l| - 1] + [l[|l| - 1]];
    }
  }

  lemma {:induction false} InsertAscending(l: seq<Sub>, x: Sub)
    requires Ascending(l) && forall y :: y in l ==> y.id < x.id
    ensures Ascending(Insert(l, x))
  {
    if l == [] || !Less(x, l[|l| - 1]) {
      forall i | 0 <= i < |l| ensures Precedes(l[i], x) {
        assert l[i] in l;
        assert i < |l| - 1 ==> Precedes(l[i], l[|l| - 1]);
      }
    } else {
      var init, last := l[..|l| - 1], l[|l| - 1];
      InsertAscending(init, x);
      InsertElements(init, x);
      var r := Insert(init, x);
      forall i | 0 <= i < |r| ensures Precedes(r[i], last) {
        assert r[i] in r;
        if r[i] != x {
          var j :| 0 <= j < |init| && init[j] == r[i];
        }
      }
    }
  }

  lemma {:induction false} SortSorts(l: seq<Sub>)
    requires ById(l)
    ensures Ascending(StableSort(l))
    ensures forall y :: y in StableSort(l) <==> y in l
  {
    if l != [] {
      var init, x := l[..|l| - 1], l[|l| - 1];
      SortSorts(init);
      forall y | y in StableSort(init) ensures y.id < x.id {
        var j :| 0 <= j < |init| && init[j] == y;
      }
      InsertAscending(StableSort(init), x);
      InsertElements(StableSort(init), x);
      assert l == init + [x];
    }
  }

  // ---------------------------------------------------------------- positions and counts

  /** With consistent blinds the sort order is chronological. */
  lemma PrecedesIsBefore(a: Sub, b: Sub, cutoff: int)
    requires a.finalOnly <==> a.time > cutoff
    requires b.finalOnly <==> b.time > cutoff
    ensures Precedes(a, b) <==> Before(a, b)
  {
  }

  ghost predicate Chronological(l: seq<Sub>) {
    forall i, j :: 0 <= i < j < |l| ==> Before(l[i], l[j])
  }

  lemma {:induction false} ElementsSize(l: seq<Sub>)
    requires Chronological(l)
    ensures |Elements(l)| == |l|
  {
    if l != [] {
      var init, last := l[..|l| - 1], l[|l| - 1];
      ElementsSize(init);
      assert l == init + [last];
      assert last !in init;
      assert Elements(l) == Elements(init) + {last};
    }
  }

  lemma EarlierIsPrefix(l: seq<Sub>, i: nat)
    requires Chronological(l) && i < |l|
    ensures Earlier(Elements(l), l[i]) == Elements(l[..i])
    ensures |Earlier(Elements(l), l[i])| == i
  {
    ElementsSize(l[..i]);
    forall y ensures y in Earlier(Elements(l), l[i]) <==> y in l[..i] {
      if y in l && Before(y, l[i]) {
        var j :| 0 <= j < |l| && l[j] == y;
        assert j < i;
        assert l[..i][j] == y;
      }
    }
  }

  /** What the loop has seen: the first n submissions, none before the last of them correct. */
  lemma CellOfPrefix(l: seq<Sub>, n: nat, correct: bool)
    requires Chronological(l) && n <= |l|
    requires forall i :: 0 <= i < n - 1 ==> !l[i].correct
    requires n > 0 ==> correct == l[n - 1].correct
    requires n == 0 ==> !correct
    ensures correct ==> IsCell(Elements(l), Solved(n, l[n - 1].time + PENALTY * (n - 1)))
    ensures !correct && n == |l| ==> IsCell(Elements(l), Unsolved(n))
  {
    if correct {
      var x := l[n - 1];
      EarlierIsPrefix(l, n - 1);
      forall y | y in Elements(l) && y.correct ensures !Before(y, x) {
        var j :| 0 <= j < |l| && l[j] == y;
        assert j >= n - 1;
      }
      assert IsFirstCorrect(Elements(l), x);
    } else if n == |l| {
      ElementsSize(l);
    }
  }

  // ---------------------------------------------------------------- one problem, two passes

  /** What the loop variables say at the end of a pass. */
  function CellFrom(tries: nat, correct: bool, correctTime: nat): Cell {
    if correct && tries > 0 then Solved(tries, correctTime + PENALTY * (tries - 1)) else Unsolved(tries)
  }

  ghost predicate ListOk(l: seq<Sub>, cutoff: int) {
    ById(l) && forall x :: x in l ==> (x.finalOnly <==> x.time > cutoff)
  }

  lemma SortedChronological(l: seq<Sub>, cutoff: int)
    requires ListOk(l, cutoff)
    ensures Chronological(StableSort(l)) && Elements(StableSort(l)) == Elements(l)
    ensures BlindedLast(StableSort(l))
  {
    SortSorts(l);
    var r := StableSort(l);
    forall i, j | 0 <= i < j < |r| ensures Before(r[i], r[j]) && (r[i].finalOnly ==> r[j].finalOnly) {
      assert r[i] in r && r[j] in r;
      PrecedesIsBefore(r[i], r[j], cutoff);
    }
  }

  /** The submissions read in the first pass are the visible ones. */
  lemma VisiblePrefix(l: seq<Sub>, n: nat)
    requires n <= |l| && (forall i :: 0 <= i < n ==> !l[i].finalOnly)
    requires forall i :: n <= i < |l| ==> l[i].finalOnly
    ensures Visible(Elements(l), false) == Elements(l[..n])
  {
    forall x ensures x in Visible(Elements(l), false) <==> x in l[..n] {
      if x in l && !x.finalOnly {
        var i :| 0 <= i < |l| && l[i] == x;
        assert l[..n][i] == x;
      }
    }
  }

  /** Where the unblinded part of a sorted list ends. */
  ghost function Blind(l: seq<Sub>): (m: nat)
    ensures m <= |l| && (forall i :: 0 <= i < m ==> !l[i].finalOnly)
    ensures m < |l| ==> l[m].finalOnly
  {
    if l == [] || l[0].finalOnly then 0 else 1 + Blind(l[1..])
  }

  /** What both passes keep: the last submission read decides, and none before it is correct. */
  ghost predicate PassState(subs: seq<Sub>, s: nat, correct: bool, correctTime: nat) {
    && s <= |subs|
    && (forall i :: 0 <= i < s - 1 ==> !subs[i].correct)
    && (s > 0 ==> correct == subs[s - 1].correct && correctTime == subs[s - 1].time)
    && (s == 0 ==> !correct)
  }

  /** One pass over the sorted submissions, from where the previous one stopped; only the second
      pass reads blinded submissions. As many tries as submissions have been read. */
  method Pass(subs: seq<Sub>, start: nat, correct0: bool, time0: nat, second: bool)
    returns (s: nat, correct: bool, correctTime: nat)
    requires PassState(subs, start, correct0, time0)
    requires !second ==> start == 0
    ensures PassState(subs, s, correct, correctTime)
    ensures correct || s == |subs| || (!second && subs[s].finalOnly)
    ensures !second ==> forall i :: 0 <= i < s ==> !subs[i].finalOnly
  {
    s, correct, correctTime := start, correct0, time0;
    while s < |subs| && !correct && (second || !subs[s].finalOnly)
      invariant PassState(subs, s, correct, correctTime)
      invariant !second ==> forall i :: 0 <= i < s ==> !subs[i].finalOnly
    {
      correct := subs[s].correct;
      correctTime := subs[s].time;
      s := s + 1;
    }
  }

  /** The contestants' and the final cell of one problem. */
  method ScoreProblem(list: seq<Sub>, ghost cutoff: int) returns (shown: Cell, final: Cell)
    requires ListOk(list, cutoff)
    ensures IsCell(Visible(Elements(list), false), shown)
    ensures IsCell(Visible(Elements(list), true), final)
  {
    var subs := StableSort(list);
    SortedChronological(list, cutoff);
    var tries, correct, correctTime := Pass(subs, 0, false, 0, false);
    FirstPass(subs, tries, correct, correctTime);
    shown := CellFrom(tries, correct, correctTime);
    tries, correct, correctTime := Pass(subs, tries, correct, correctTime, true);
    PrefixCell(subs, tries, correct, correctTime);
    final := CellFrom(tries, correct, correctTime);
    AllVisible(Elements(list));
  }

  lemma AllVisible(s: set<Sub>)
    ensures Visible(s, true) == s
  {
  }

  lemma PrefixCell(l: seq<Sub>, n: nat, correct: bool, correctTime: nat)
    requires Chronological(l) && PassState(l, n, correct, correctTime) && (correct || n == |l|)
    ensures IsCell(Elements(l), CellFrom(n, correct, correctTime))
  {
    CellOfPrefix(l, n, correct);
  }

  ghost predicate BlindedLast(l: seq<Sub>) {
    forall i, j :: 0 <= i < j < |l| && l[i].finalOnly ==> l[j].finalOnly
  }

  lemma FirstPass(subs: seq<Sub>, s: nat, correct: bool, correctTime: nat)
    requires Chronological(subs) && BlindedLast(subs) && PassState(subs, s, correct, correctTime)
    requires correct || s == |subs| || subs[s].finalOnly
    requires forall i :: 0 <= i < s ==> !subs[i].finalOnly
    ensures IsCell(Visible(Elements(subs), false), CellFrom(s, correct, correctTime))
  {
    var m := Blind(subs);
    VisiblePrefix(subs, m);
    PrefixCell(subs[..m], s, correct, correctTime);
  }

  // ---------------------------------------------------------------- one team

  /** `tries` holds the number of tries, negative while the problem is not solved. */
  datatype Row = Row(points: int, time: int, tries: map<nat, int>)

  /** The counted submissions of one team, by problem. */
  type Data = map<nat, set<Sub>>

  lemma {:induction false} FirstExists(s: set<Sub>, x: Sub) returns (f: Sub)
    requires x in s && x.correct
    ensures IsFirstCorrect(s, f)
    decreases |Earlier(s, x)|
  {
    if y :| y in s && y.correct && Before(y, x) {
      assert Earlier(s, y) <= Earlier(s, x) && y in Earlier(s, x) && y !in Earlier(s, y);
      Smaller(Earlier(s, y), Earlier(s, x), y);
      f := FirstExists(s, y);
    } else {
      f := x;
    }
  }

  lemma Smaller(a: set<Sub>, b: set<Sub>, y: Sub)
    requires a <= b && y in b && y !in a
    ensures |a| < |b|
  {
    assert b == a + (b - a);
    assert y in b - a;
  }

  ghost function CellOf(s: set<Sub>): (c: Cell)
    ensures IsCell(s, c)
  {
    assert exists c :: IsCell(s, c) by {
      if x :| x in s && x.correct {
        var f := FirstExists(s, x);
        assert IsCell(s, Solved(|Earlier(s, f)| + 1, f.time + PENALTY * |Earlier(s, f)|));
      } else {
        assert IsCell(s, Unsolved(|s|));
      }
    }
    var c :| IsCell(s, c);
    c
  }

  ghost function Shown(data: Data, final: bool, p: nat): Cell
    requires p in data
  {
    CellOf(Visible(data[p], final))
  }

  ghost function CostOf(c: Cell): nat {
    if c.Solved? then c.time else 0
  }

  ghost function Cost(data: Data, final: bool, ps: set<nat>): nat
    requires ps <= data.Keys
  {
    if ps == {} then 0 else
      var p :| p in ps;
      CostOf(Shown(data, final, p)) + Cost(data, final, ps - {p})
  }

  ghost function SolvedIn(data: Data, final: bool, ps: set<nat>): set<nat>
    requires ps <= data.Keys
  {
    set p | p in ps && Shown(data, final, p).Solved?
  }

  function Signed(c: Cell): int {
    if c.Solved? then c.tries else -(c.tries as int)
  }

  ghost function Tries(data: Data, final: bool, ps: set<nat>): map<nat, int>
    requires ps <= data.Keys
  {
    map p | p in ps && Shown(data, final, p).tries > 0 :: Signed(Shown(data, final, p))
  }

  /** The row of a team, over the problems `ps`: bonus points and one per solved problem; the
      cost of the solved problems less the bonus seconds; the tries of every problem tried. */
  ghost function RowOver(data: Data, final: bool, points: int, seconds: int, ps: set<nat>): Row
    requires ps <= data.Keys
  {
    Row(points + |SolvedIn(data, final, ps)|, Cost(data, final, ps) - seconds, Tries(data, final, ps))
  }

  ghost function RowOf(data: Data, final: bool, points: int, seconds: int): Row {
    RowOver(data, final, points, seconds, data.Keys)
  }

  lemma {:induction false} CostRemove(data: Data, final: bool, ps: set<nat>, p: nat)
    requires ps <= data.Keys && p in ps
    ensures Cost(data, final, ps) == CostOf(Shown(data, final, p)) + Cost(data, final, ps - {p})
    decreases |ps|
  {
    var q :| q in ps && Cost(data, final, ps) == CostOf(Shown(data, final, q)) + Cost(data, final, ps - {q});
    if q != p {
      CostRemove(data, final, ps - {q}, p);
      CostRemove(data, final, ps - {p}, q);
      assert ps - {q} - {p} == ps - {p} - {q};
    }
  }

  function AddCell(r: Row, p: nat, c: Cell): Row {
    match c
    case Solved(tries, time) => Row(r.points + 1, r.time + time, r.tries[p := tries])
    case Unsolved(tries) => if tries == 0 then r else r.(tries := r.tries[p := -(tries as int)])
  }

  lemma AddProblem(data: Data, final: bool, points: int, seconds: int, ps: set<nat>, p: nat)
    requires ps <= data.Keys && p in data && p !in ps
    ensures AddCell(RowOver(data, final, points, seconds, ps), p, Shown(data, final, p)) ==
            RowOver(data, final, points, seconds, ps + {p})
  {
    CostAdd(data, final, ps, p);
    SolvedAdd(data, final, ps, p);
    TriesAdd(data, final, ps, p);
    assert Shown(data, final, p).Solved? ==> Shown(data, final, p).tries > 0;
  }

  lemma CostAdd(data: Data, final: bool, ps: set<nat>, p: nat)
    requires ps <= data.Keys && p in data && p !in ps
    ensures Cost(data, final, ps + {p}) == Cost(data, final, ps) + CostOf(Shown(data, final, p))
  {
    CostRemove(data, final, ps + {p}, p);
    assert ps + {p} - {p} == ps;
  }

  lemma SolvedAdd(data: Data, final: bool, ps: set<nat>, p: nat)
    requires ps <= data.Keys && p in data && p !in ps
    ensures |SolvedIn(data, final, ps + {p})| ==
            |SolvedIn(data, final, ps)| + if Shown(data, final, p).Solved? then 1 else 0
  {
    if Shown(data, final, p).Solved? {
      assert SolvedIn(data, final, ps + {p}) == SolvedIn(data, final, ps) + {p};
    } else {
      assert SolvedIn(data, final, ps + {p}) == SolvedIn(data, final, ps);
    }
  }

  lemma TriesAdd(data: Data, final: bool, ps: set<nat>, p: nat)
    requires ps <= data.Keys && p in data && p !in ps
    ensures var c := Shown(data, final, p);
            Tries(data, final, ps + {p}) ==
            if c.tries > 0 then Tries(data, final, ps)[p := Signed(c)] else Tries(data, final, ps)
  {
  }

  ghost predicate ListsOk(problems: map<nat, seq<Sub>>, cutoff: int) {
    forall p :: p in problems ==> ListOk(problems[p], cutoff)
  }

  ghost function DataOf(problems: map<nat, seq<Sub>>): Data {
    map p | p in problems :: Elements(problems[p])
  }

  lemma CellIs(list: seq<Sub>, cutoff: int, final: bool, c: Cell)
    requires ListOk(list, cutoff) && IsCell(Visible(Elements(list), final), c)
    ensures c == CellOf(Visible(Elements(list), final))
  {
    var v := Visible(Elements(list), final);
    forall x, y | x in v && y in v && x.id == y.id ensures x == y {
      var i :| 0 <= i < |list| && list[i] == x;
      var j :| 0 <= j < |list| && list[j] == y;
    }
    CellUnique(v, c, CellOf(v));
  }

  /** The loop over the problems of one team computes both rows of the simple definition. */
  method ScoreTeam(problems: map<nat, seq<Sub>>, points: int, seconds: int, ghost cutoff: int)
    returns (shown: Row, final: Row)
    requires ListsOk(problems, cutoff)
    ensures shown == RowOf(DataOf(problems), false, points, seconds)
    ensures final == RowOf(DataOf(problems), true, points, seconds)
  {
    shown, final := Row(points, -seconds, map[]), Row(points, -seconds, map[]);
    var rest := problems.Keys;
    NoneScored(problems, false, points, seconds);
    NoneScored(problems, true, points, seconds);
    while rest != {}
      invariant Scored(problems, false, points, seconds, rest, shown)
      invariant Scored(problems, true, points, seconds, rest, final)
      decreases |rest|
    {
      var p :| p in rest;
      var c0, c1 := ScoreProblem(problems[p], cutoff);
      OneScored(problems, cutoff, false, points, seconds, rest, shown, p, c0);
      OneScored(problems, cutoff, true, points, seconds, rest, final, p, c1);
      shown, final := AddCell(shown, p, c0), AddCell(final, p, c1);
      rest := rest - {p};
    }
    AllScored(problems, false, points, seconds, shown);
    AllScored(problems, true, points, seconds, final);
  }

  /** The row of the problems that are not in `rest`. */
  ghost predicate Scored(problems: map<nat, seq<Sub>>, final: bool, points: int, seconds: int, rest: set<nat>, r: Row) {
    rest <= problems.Keys && r == RowOver(DataOf(problems), final, points, seconds, DataOf(problems).Keys - rest)
  }

  lemma NoneScored(problems: map<nat, seq<Sub>>, final: bool, points: int, seconds: int)
    ensures Scored(problems, final, points, seconds, problems.Keys, Row(points, -seconds, map[]))
  {
    var data := DataOf(problems);
    assert data.Keys - problems.Keys == {};
    assert SolvedIn(data, final, {}) == {};
  }

  lemma OneScored(problems: map<nat, seq<Sub>>, cutoff: int, final: bool, points: int, seconds: int,
                  rest: set<nat>, r: Row, p: nat, c: Cell)
    requires ListsOk(problems, cutoff) && Scored(problems, final, points, seconds, rest, r) && p in rest
    requires IsCell(Visible(Elements(problems[p]), final), c)
    ensures Scored(problems, final, points, seconds, rest - {p}, AddCell(r, p, c))
  {
    var data := DataOf(problems);
    CellIs(problems[p], cutoff, final, c);
    AddProblem(data, final, points, seconds, data.Keys - rest, p);
    assert data.Keys - (rest - {p}) == data.Keys - rest + {p};
  }

  lemma AllScored(problems: map<nat, seq<Sub>>, final: bool, points: int, seconds: int, r: Row)
    requires Scored(problems, final, points, seconds, {}, r)
    ensures r == RowOf(DataOf(problems), final, points, seconds)
  {
    assert DataOf(problems).Keys - {} == DataOf(problems).Keys;
  }

  // ---------------------------------------------------------------- what the tables promise

  /** The problems of which a table shows a submission. */
  ghost function Seen(data: Data, final: bool): set<nat> {
    set p | p in data && Visible(data[p], final) != {}
  }

  /** Problems of which nothing is shown add nothing to the row. */
  lemma {:induction false} UnseenAddNothing(data: Data, final: bool, points: int, seconds: int, ps: set<nat>)
    requires Seen(data, final) <= ps <= data.Keys
    ensures RowOver(data, final, points, seconds, ps) == RowOver(data, final, points, seconds, Seen(data, final))
    decreases |ps|
  {
    if ps != Seen(data, final) {
      var p :| p in ps && p !in Seen(data, final);
      assert Shown(data, final, p) == Unsolved(0);
      AddProblem(data, final, points, seconds, ps - {p}, p);
      assert ps - {p} + {p} == ps;
      UnseenAddNothing(data, final, points, seconds, ps - {p});
    }
  }

  /** The same submissions that are not blinded, whatever else there is. */
  ghost predicate SameOpen(data: Data, data': Data) {
    forall p, x: Sub :: !x.finalOnly ==> ((p in data && x in data[p]) <==> (p in data' && x in data'[p]))
  }

  /** Changing blinded submissions, also on problems not tried before, never changes the
      contestants' table. */
  lemma BlindsHide(data: Data, data': Data, points: int, seconds: int)
    requires SameOpen(data, data')
    ensures RowOf(data, false, points, seconds) == RowOf(data', false, points, seconds)
  {
    SeenSame(data, data');
    forall p | p in Seen(data, false) ensures Shown(data, false, p) == Shown(data', false, p) {
      OpenShownSame(data, data', p);
    }
    SeenRows(data, data', points, seconds);
  }

  lemma SeenRows(data: Data, data': Data, points: int, seconds: int)
    requires Seen(data, false) == Seen(data', false)
    requires forall p :: p in Seen(data, false) ==> Shown(data, false, p) == Shown(data', false, p)
    ensures RowOf(data, false, points, seconds) == RowOf(data', false, points, seconds)
  {
    UnseenAddNothing(data, false, points, seconds, data.Keys);
    UnseenAddNothing(data', false, points, seconds, data'.Keys);
    SameRow(data, data', false, points, seconds, Seen(data, false));
  }

  lemma OpenShownSame(data: Data, data': Data, p: nat)
    requires SameOpen(data, data') && p in data && p in data'
    ensures Shown(data, false, p) == Shown(data', false, p)
  {
    BlindedInvisible(data[p], data'[p]);
  }

  lemma SeenSame(data: Data, data': Data)
    requires SameOpen(data, data')
    ensures Seen(data, false) == Seen(data', false)
  {
    forall p ensures p in Seen(data, false) <==> p in Seen(data', false) {
      if p in Seen(data, false) {
        var x :| x in Visible(data[p], false);
        assert x in Visible(data'[p], false);
      }
      if p in Seen(data', false) {
        var x :| x in Visible(data'[p], false);
        assert x in Visible(data[p], false);
      }
    }
  }

  lemma SameRow(data: Data, data': Data, final: bool, points: int, seconds: int, ps: set<nat>)
    requires ps <= data.Keys && ps <= data'.Keys
    requires forall p :: p in ps ==> Shown(data, final, p) == Shown(data', final, p)
    ensures RowOver(data, final, points, seconds, ps) == RowOver(data', final, points, seconds, ps)
  {
    SameCost(data, data', final, ps);
    assert SolvedIn(data, final, ps) == SolvedIn(data', final, ps);
    assert Tries(data, final, ps) == Tries(data', final, ps);
  }

  lemma {:induction false} SameCost(data: Data, data': Data, final: bool, ps: set<nat>)
    requires ps <= data.Keys && ps <= data'.Keys
    requires forall p :: p in ps ==> Shown(data, final, p) == Shown(data', final, p)
    ensures Cost(data, final, ps) == Cost(data', final, ps)
    decreases |ps|
  {
    if ps != {} {
      var p :| p in ps;
      CostRemove(data, final, ps, p);
      CostRemove(data', final, ps, p);
      SameCost(data, data', final, ps - {p});
    }
  }

  /** A problem solved before the blinds shows the same tries in both tables. */
  lemma SameTriesWhenSolved(data: Data, cutoff: int, p: nat, points: int, seconds: int)
    requires p in data && Blinds(data[p], cutoff) && DistinctIds(data[p])
    requires p in RowOf(data, false, points, seconds).tries && RowOf(data, false, points, seconds).tries[p] > 0
    ensures p in RowOf(data, true, points, seconds).tries
    ensures RowOf(data, true, points, seconds).tries[p] == RowOf(data, false, points, seconds).tries[p]
  {
    var c := Shown(data, false, p);
    SolvedBeforeBlinds(data[p], cutoff, c);
    CellUnique(Visible(data[p], true), c, Shown(data, true, p));
  }
}
