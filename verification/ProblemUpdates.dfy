/** Last writer wins: what processing a problem update does to the problem's rows
    (ProbMessage::int_process in src/act_problemmanip.C and the attribute setters in
    src/dbmysql.C).
 */
module ProblemUpdates {
  import opened Bytes
  import opened Decimals
  import opened Options
  import opened ProblemCodec
  import opened Sequences

  /** The rows of one problem: Problem, ProblemAttributes and ProblemFileData. */
  datatype Rows = Rows(present: bool, kind: Blob, updated: nat, attrs: map<Blob, Blob>, data: map<Blob, Blob>)

  /** What is stored under one attribute name. */
  datatype Slot = Slot(attr: Option<Blob>, data: Option<Blob>)

  const ABSENT := Rows(false, [], 0, map[], map[])
  const EMPTY := Slot(None, None)
  const NO_PROBLEM := TWO32 - 1

  function Get(a: map<Blob, Blob>, k: Blob): Option<Blob> {
    if k in a then Some(a[k]) else None
  }

  function At(r: Rows, k: Blob): Slot {
    Slot(Get(r.attrs, k), Get(r.data, k))
  }

  /** File data only under attributes; a problem without a row has no type and no time. */
  ghost predicate Tidy(r: Rows) {
    && r.data.Keys <= r.attrs.Keys
    && (!r.present ==> r.kind == [] && r.updated == 0)
  }

  lemma SameRows(r: Rows, s: Rows)
    requires SameHead(r, s)
    requires forall k :: At(r, k) == At(s, k)
    ensures r == s
  {
    forall k ensures Get(r.attrs, k) == Get(s.attrs, k) && Get(r.data, k) == Get(s.data, k) {
      assert At(r, k) == At(s, k);
    }
    SameMap(r.attrs, s.attrs);
    SameMap(r.data, s.data);
  }

  lemma SameMap(a: map<Blob, Blob>, b: map<Blob, Blob>)
    requires forall k :: Get(a, k) == Get(b, k)
    ensures a == b
  {
    forall k ensures (k in a <==> k in b) && (k in a ==> a[k] == b[k]) {
      assert Get(a, k) == Get(b, k);
    }
  }

  // ---------------------------------------------------------------- the attribute setters

  function DelAttribute(r: Rows, a: Blob): (r': Rows)
    ensures At(r', a) == EMPTY && forall k :: k != a ==> At(r', k) == At(r, k)
  {
    r.(attrs := r.attrs - {a}, data := r.data - {a})
  }

  function SetAttribute(r: Rows, a: Blob, value: Blob): (r': Rows)
    ensures At(r', a) == Slot(Some(value), None) && forall k :: k != a ==> At(r', k) == At(r, k)
  {
    var r1 := DelAttribute(r, a);
    r1.(attrs := r1.attrs[a := value])
  }

  function SetFile(r: Rows, a: Blob, f: File): (r': Rows)
    ensures At(r', a) == Slot(Some(f.name), Some(f.data)) && forall k :: k != a ==> At(r', k) == At(r, k)
  {
    var r1 := SetAttribute(r, a, f.name);
    r1.(data := r1.data[a := f.data])
  }

  function NatText(n: nat): Blob {
    var s := Decimal(n);
    seq(|s|, i requires 0 <= i < |s| => s[i] as int)
  }

  function IntText(v: int): Blob {
    if v < 0 then ['-' as int] + NatText(-v) else NatText(v)
  }

  /** Reading a stored text as a number: an optional sign and digits. */
  function ReadInt(text: Blob): int {
    if text != [] && text[0] == '-' as int then -(Digits(Chars(text[1..]), 0) as int) else Digits(Chars(text), 0)
  }

  function Chars(b: Blob): string {
    seq(|b|, i requires 0 <= i < |b| => b[i] as char)
  }

  /** An integer attribute is read back from the text that it is stored as. */
  lemma IntTextReads(v: int)
    ensures ReadInt(IntText(v)) == v
  {
    var n: nat := if v < 0 then -v else v;
    DecimalDigits(n);
    assert Chars(NatText(n)) == Decimal(n);
    assert IsDigit(Decimal(n)[0]);
    if v < 0 {
      assert IntText(v)[1..] == NatText(n);
    }
  }

  // ---------------------------------------------------------------- the reference

  function Existing(r: Rows): Blob {
    if r.present then r.kind else []
  }

  /** What an update stores under a name: a name in several maps gets the value written last. */
  function Written(m: Prob, k: Blob): Slot {
    if k in m.strings then Slot(Some(m.strings[k]), None)
    else if k in m.ints then Slot(Some(IntText(m.ints[k])), None)
    else if k in m.files && m.files[k].name != [] then Slot(Some(m.files[k].name), Some(m.files[k].data))
    else EMPTY
  }

  /** An update keeps a file that it names but does not bring. */
  predicate Keeps(m: Prob, k: Blob) {
    k in m.files && m.files[k].name == [] && k !in m.ints && k !in m.strings
  }

  function NextSlot(r: Rows, m: Prob, k: Blob): Slot {
    if Written(m, k) != EMPTY then Written(m, k)
    else if Keeps(m, k) || Existing(r) == [] then At(r, k)
    else EMPTY
  }

  predicate Discarded(r: Rows, m: Prob) {
    Existing(r) != [] && r.updated > m.updated
  }

  /** The rows that an update leaves behind. */
  ghost function After(r: Rows, m: Prob): Rows {
    if Discarded(r, m) then r
    else
      var present := r.present || m.kind != [];
      var names := r.attrs.Keys + r.data.Keys + m.ints.Keys + m.strings.Keys + m.files.Keys;
      Rows(present, m.kind, if present then m.updated else 0,
           map k | k in names && NextSlot(r, m, k).attr.Some? :: NextSlot(r, m, k).attr.value,
           map k | k in names && NextSlot(r, m, k).data.Some? :: NextSlot(r, m, k).data.value)
  }

  lemma AfterAt(r: Rows, m: Prob, k: Blob)
    requires !Discarded(r, m)
    ensures At(After(r, m), k) == NextSlot(r, m, k)
  {
  }

  /** What a problem holds after an update that is not discarded: its type and time, the
      strings it gives, the integers it gives unless a string has the same name, and the files it
      brings unless one of those has. A file that it only names stays. Everything else is gone,
      if there was a problem before. */
  lemma UpdateStores(r: Rows, m: Prob, k: Blob)
    requires m.kind != [] && (Existing(r) == [] || r.updated <= m.updated)
    ensures var r' := After(r, m);
            && r'.present && r'.kind == m.kind && r'.updated == m.updated
            && (k in m.strings ==> k in r'.attrs && r'.attrs[k] == m.strings[k] && k !in r'.data)
            && (k in m.ints && k !in m.strings ==> k in r'.attrs && ReadInt(r'.attrs[k]) == m.ints[k] && k !in r'.data)
            && (k in m.files && m.files[k].name != [] && k !in m.ints && k !in m.strings ==>
                  k in r'.attrs && r'.attrs[k] == m.files[k].name && k in r'.data && r'.data[k] == m.files[k].data)
            && (k in m.files && m.files[k].name == [] && k !in m.ints && k !in m.strings ==> At(r', k) == At(r, k))
            && (k !in m.files && k !in m.ints && k !in m.strings && Existing(r) != [] ==> k !in r'.attrs && k !in r'.data)
  {
    AfterAt(r, m, k);
    if k in m.ints {
      IntTextReads(m.ints[k]);
    }
  }

  // ---------------------------------------------------------------- the code

  /** The rows of the problem, as int_process rewrites them on a database that does not fail. */
  class ProblemTable {
    var rows: Rows

    constructor ()
      ensures rows == ABSENT
    {
      rows := ABSENT;
    }

    method IntProcess(m: Prob) returns (ok: bool)
      requires Tidy(rows)
      modifies this
      ensures ok == (m.id != NO_PROBLEM)
      ensures Tidy(rows)
      ensures rows == if ok then After(old(rows), m) else old(rows)
    {
      if m.id == NO_PROBLEM {
        return false;
      }
      ok := true;
      var exType := Existing(rows);
      if exType != [] {
        if rows.updated > m.updated {
          return;
        }
        DropUnnamed(m);
      }
      if exType != m.kind {
        rows := rows.(present := true, kind := m.kind);
      }
      ghost var r0 := rows;
      WriteFiles(m);
      ghost var r1 := rows;
      WriteInts(m);
      WriteStrings(m);
      if rows.present {
        rows := rows.(updated := m.updated);
      }
      SlotsDone(old(rows), m, r0, r1, rows);
    }

    /** Deletes the attributes that the update does not mention. */
    method DropUnnamed(m: Prob)
      requires rows.data.Keys <= rows.attrs.Keys
      modifies this
      ensures SameHead(old(rows), rows)
      ensures forall k :: At(rows, k) == if Named(m, k) then old(At(rows, k)) else EMPTY
    {
      var rest := rows.attrs.Keys;
      while rest != {}
        invariant SameHead(old(rows), rows)
        invariant forall k :: At(rows, k) == if Named(m, k) || k in rest then old(At(rows, k)) else EMPTY
        decreases |rest|
      {
        var a :| a in rest;
        if !Named(m, a) {
          rows := DelAttribute(rows, a);
        }
        rest := rest - {a};
      }
    }

    method WriteFiles(m: Prob)
      modifies this
      ensures SameHead(old(rows), rows)
      ensures forall k :: At(rows, k) == FileSlot(m, k, m.files.Keys, old(At(rows, k)))
    {
      var done: set<Blob> := {};
      var rest := m.files.Keys;
      while rest != {}
        invariant done + rest == m.files.Keys && done !! rest
        invariant SameHead(old(rows), rows)
        invariant forall k :: At(rows, k) == FileSlot(m, k, done, old(At(rows, k)))
        decreases |rest|
      {
        var a :| a in rest;
        if m.files[a].name != [] {
          rows := SetFile(rows, a, m.files[a]);
        }
        rest := rest - {a};
        done := done + {a};
      }
    }

    method WriteInts(m: Prob)
      modifies this
      ensures SameHead(old(rows), rows)
      ensures forall k :: At(rows, k) == IntSlot(m, k, m.ints.Keys, old(At(rows, k)))
    {
      var done: set<Blob> := {};
      var rest := m.ints.Keys;
      while rest != {}
        invariant done + rest == m.ints.Keys && done !! rest
        invariant SameHead(old(rows), rows)
        invariant forall k :: At(rows, k) == IntSlot(m, k, done, old(At(rows, k)))
        decreases |rest|
      {
        var a :| a in rest;
        rows := SetAttribute(rows, a, IntText(m.ints[a]));
        rest := rest - {a};
        done := done + {a};
      }
    }

    method WriteStrings(m: Prob)
      modifies this
      ensures SameHead(old(rows), rows)
      ensures forall k :: At(rows, k) == StringSlot(m, k, m.strings.Keys, old(At(rows, k)))
    {
      var done: set<Blob> := {};
      var rest := m.strings.Keys;
      while rest != {}
        invariant done + rest == m.strings.Keys && done !! rest
        invariant SameHead(old(rows), rows)
        invariant forall k :: At(rows, k) == StringSlot(m, k, done, old(At(rows, k)))
        decreases |rest|
      {
        var a :| a in rest;
        rows := SetAttribute(rows, a, m.strings[a]);
        rest := rest - {a};
        done := done + {a};
      }
    }
  }

  predicate Named(m: Prob, k: Blob) {
    k in m.ints || k in m.strings || k in m.files
  }

  predicate SameHead(r: Rows, s: Rows) {
    r.present == s.present && r.kind == s.kind && r.updated == s.updated
  }

  /** The slot of a file after the files `done` have been written. */
  function FileSlot(m: Prob, k: Blob, done: set<Blob>, was: Slot): Slot {
    if k in done && k in m.files && m.files[k].name != [] then Slot(Some(m.files[k].name), Some(m.files[k].data)) else was
  }

  function IntSlot(m: Prob, k: Blob, done: set<Blob>, was: Slot): Slot {
    if k in done && k in m.ints then Slot(Some(IntText(m.ints[k])), None) else was
  }

  function StringSlot(m: Prob, k: Blob, done: set<Blob>, was: Slot): Slot {
    if k in done && k in m.strings then Slot(Some(m.strings[k]), None) else was
  }

  /** Strings over integers over files over what was left is the reference, slot by slot. */
  lemma SlotDone(r: Rows, m: Prob, r0: Rows, r1: Rows, r': Rows, k: Blob)
    requires Tidy(r)
    requires At(r0, k) == if Existing(r) == [] || Named(m, k) then At(r, k) else EMPTY
    requires At(r1, k) == FileSlot(m, k, m.files.Keys, At(r0, k))
    requires At(r', k) == StringSlot(m, k, m.strings.Keys, IntSlot(m, k, m.ints.Keys, At(r1, k)))
    ensures At(r', k) == NextSlot(r, m, k)
    ensures k in r'.data ==> k in r'.attrs
  {
  }

  lemma SlotsDone(r: Rows, m: Prob, r0: Rows, r1: Rows, r': Rows)
    requires Tidy(r) && !Discarded(r, m)
    requires forall k :: At(r0, k) == if Existing(r) == [] || Named(m, k) then At(r, k) else EMPTY
    requires forall k :: At(r1, k) == FileSlot(m, k, m.files.Keys, At(r0, k))
    requires forall k :: At(r', k) == StringSlot(m, k, m.strings.Keys, IntSlot(m, k, m.ints.Keys, At(r1, k)))
    requires SameHead(r', After(r, m))
    ensures r' == After(r, m) && r'.data.Keys <= r'.attrs.Keys
  {
    forall k ensures At(r', k) == At(After(r, m), k) && (k in r'.data ==> k in r'.attrs) {
      SlotDone(r, m, r0, r1, r', k);
      AfterAt(r, m, k);
    }
    SameRows(r', After(r, m));
  }

  // ---------------------------------------------------------------- several updates, in any order

  ghost function FinalRows(ms: seq<Prob>): Rows {
    if ms == [] then ABSENT else After(FinalRows(ms[..|ms| - 1]), ms[|ms| - 1])
  }

  /** Every update has a type, and any update other than the newest is older. */
  ghost predicate Newest(ms: seq<Prob>, top: Prob) {
    forall m :: m in ms ==> m.kind != [] && (m == top || m.updated < top.updated)
  }

  /** No update brings a file that the newest one only keeps. */
  ghost predicate NothingToKeep(ms: seq<Prob>, top: Prob) {
    forall m, k :: m in ms && Keeps(top, k) ==> Written(m, k) == EMPTY
  }

  /** The rows are never newer than the newest update, and hold only what some update wrote. */
  lemma {:induction false} RowsComeFromUpdates(ms: seq<Prob>, top: Prob)
    requires Newest(ms, top)
    ensures ms == [] ==> FinalRows(ms) == ABSENT
    ensures ms != [] ==> Existing(FinalRows(ms)) != [] && FinalRows(ms).updated <= top.updated
    ensures NothingToKeep(ms, top) ==> forall k :: Keeps(top, k) ==> At(FinalRows(ms), k) == EMPTY
  {
    if ms != [] {
      var m, rest := ms[|ms| - 1], ms[..|ms| - 1];
      RowsComeFromUpdates(rest, top);
      if NothingToKeep(ms, top) && !Discarded(FinalRows(rest), m) {
        forall k | Keeps(top, k) ensures At(FinalRows(ms), k) == EMPTY {
          AfterAt(FinalRows(rest), m, k);
        }
      }
    }
  }

  /** Processing the newest update leaves what it would leave on a fresh problem. */
  lemma NewestReplaces(r: Rows, top: Prob)
    requires top.kind != [] && !Discarded(r, top)
    requires r == ABSENT || Existing(r) != []
    requires forall k :: Keeps(top, k) ==> At(r, k) == EMPTY
    ensures After(r, top) == After(ABSENT, top)
  {
    forall k ensures At(After(r, top), k) == At(After(ABSENT, top), k) {
      AfterAt(r, top, k);
      AfterAt(ABSENT, top, k);
    }
    SameRows(After(r, top), After(ABSENT, top));
  }

  /** Whatever the order of the updates, the strings and integers of the newest are read back. */
  lemma NewestReadsBack(ms: seq<Prob>, top: Prob, k: Blob)
    requires Newest(ms, top) && NothingToKeep(ms, top) && top in ms
    ensures var r := FinalRows(ms);
            && r.kind == top.kind && r.updated == top.updated
            && (k in top.strings ==> k in r.attrs && r.attrs[k] == top.strings[k])
            && (k in top.ints && k !in top.strings ==> k in r.attrs && ReadInt(r.attrs[k]) == top.ints[k])
  {
    NewestWins(ms, top);
    UpdateStores(ABSENT, top, k);
  }

  /** The problem ends as the newest update alone would leave it. */
  lemma {:induction false} NewestWins(ms: seq<Prob>, top: Prob)
    requires Newest(ms, top) && NothingToKeep(ms, top) && top in ms
    ensures FinalRows(ms) == After(ABSENT, top)
  {
    var m, rest := ms[|ms| - 1], ms[..|ms| - 1];
    RowsComeFromUpdates(rest, top);
    if m == top {
      NewestReplaces(FinalRows(rest), top);
    } else {
      assert top in rest;
      NewestWins(rest, top);
    }
  }

  /** Two servers that process the same updates in any two orders end with the same problem. */
  lemma OrdersAgree(ms: seq<Prob>, ms': seq<Prob>, top: Prob)
    requires multiset(ms) == multiset(ms')
    requires Newest(ms, top) && NothingToKeep(ms, top) && top in ms
    ensures FinalRows(ms) == FinalRows(ms') == After(ABSENT, top)
    ensures FinalRows(ms).present && FinalRows(ms).kind == top.kind && FinalRows(ms).updated == top.updated
    ensures forall k :: At(FinalRows(ms), k) == Written(top, k)
  {
    SameMembers(ms, ms');
    NewestWins(ms, top);
    NewestWins(ms', top);
    forall k ensures At(After(ABSENT, top), k) == Written(top, k) {
      AfterAt(ABSENT, top, k);
    }
  }

  // ---------------------------------------------------------------- when the order matters

  /** Every update has a type and none is newer than `top`. */
  ghost predicate UpTo(ms: seq<Prob>, top: nat) {
    forall m :: m in ms ==> m.kind != [] && m.updated <= top
  }

  ghost predicate HasNewest(ms: seq<Prob>, top: nat) {
    exists m :: m in ms && m.updated == top
  }

  /** Two newest updates bring the same type and, where neither keeps a file, the same slots. */
  ghost predicate SameNews(a: Prob, b: Prob) {
    a.kind == b.kind && forall k :: !Keeps(a, k) && !Keeps(b, k) ==> Written(a, k) == Written(b, k)
  }

  ghost predicate AllKeep(ms: seq<Prob>, top: nat, k: Blob) {
    forall m :: m in ms && m.updated == top ==> Keeps(m, k)
  }

  /** The newest updates say the same, and what all of them keep was never brought. */
  ghost predicate Settled(ms: seq<Prob>, top: nat) {
    && (forall a, b :: a in ms && b in ms && a.updated == top && b.updated == top ==> SameNews(a, b))
    && (forall m, k :: m in ms && AllKeep(ms, top, k) ==> Written(m, k) == EMPTY)
  }

  lemma TopDecides(r: Rows, m: Prob, k: Blob)
    requires m.kind != [] && !Discarded(r, m) && (r == ABSENT || Existing(r) != [])
    ensures var r' := After(r, m);
            && Existing(r') == m.kind && r'.kind == m.kind && r'.updated == m.updated && r'.present
            && At(r', k) == if Keeps(m, k) then At(r, k) else Written(m, k)
  {
    AfterAt(r, m, k);
  }

  lemma {:induction false} NewestTime(ms: seq<Prob>, top: nat)
    requires UpTo(ms, top)
    ensures var r := FinalRows(ms);
            && (ms == [] ==> r == ABSENT)
            && (ms != [] ==> Existing(r) != [] && r.present && r.updated <= top)
            && (HasNewest(ms, top) ==> r.updated == top)
  {
    if ms != [] {
      var m, rest := ms[|ms| - 1], ms[..|ms| - 1];
      NewestTime(rest, top);
      assert HasNewest(ms, top) ==> m.updated == top || HasNewest(rest, top);
    }
  }

  /** The part of the final rows that settled updates decide, whatever their order. */
  lemma {:induction false} SettledSlot(p: seq<Prob>, ms: seq<Prob>, top: nat, k: Blob)
    requires UpTo(ms, top) && Settled(ms, top) && forall m :: m in p ==> m in ms
    ensures forall t :: t in p && t.updated == top ==>
              FinalRows(p).kind == t.kind && (!Keeps(t, k) ==> At(FinalRows(p), k) == Written(t, k))
    ensures AllKeep(ms, top, k) ==> At(FinalRows(p), k) == EMPTY
  {
    if p != [] {
      var m, rest := p[|p| - 1], p[..|p| - 1];
      SettledSlot(rest, ms, top, k);
      NewestTime(rest, top);
      SettledStep(FinalRows(rest), rest, m, ms, top, k);
      assert forall t :: t in p ==> t == m || t in rest;
    }
  }

  lemma SettledStep(r: Rows, rest: seq<Prob>, m: Prob, ms: seq<Prob>, top: nat, k: Blob)
    requires UpTo(ms, top) && Settled(ms, top) && m in ms && forall t :: t in rest ==> t in ms
    requires (r == ABSENT || Existing(r) != []) && r.updated <= top && (HasNewest(rest, top) ==> r.updated == top && Existing(r) != [])
    requires forall t :: t in rest && t.updated == top ==> r.kind == t.kind && (!Keeps(t, k) ==> At(r, k) == Written(t, k))
    requires AllKeep(ms, top, k) ==> At(r, k) == EMPTY
    ensures forall t :: (t == m || t in rest) && t.updated == top ==>
              After(r, m).kind == t.kind && (!Keeps(t, k) ==> At(After(r, m), k) == Written(t, k))
    ensures AllKeep(ms, top, k) ==> At(After(r, m), k) == EMPTY
  {
    if !Discarded(r, m) {
      TopDecides(r, m, k);
      forall t | (t == m || t in rest) && t.updated == top
        ensures m.kind == t.kind && (!Keeps(t, k) ==> At(After(r, m), k) == Written(t, k))
      {
        assert t in rest ==> HasNewest(rest, top);
        assert SameNews(m, t);
      }
    }
  }

  lemma SettledAgree(ms: seq<Prob>, order: seq<Prob>, top: nat)
    requires UpTo(ms, top) && HasNewest(ms, top) && Settled(ms, top) && multiset(order) == multiset(ms)
    ensures FinalRows(order) == FinalRows(ms)
  {
    SameMembers(ms, order);
    NewestTime(ms, top);
    NewestTime(order, top);
    var t :| t in ms && t.updated == top;
    forall k ensures At(FinalRows(order), k) == At(FinalRows(ms), k) && FinalRows(order).kind == FinalRows(ms).kind {
      SettledSlot(ms, ms, top, k);
      SettledSlot(order, ms, top, k);
    }
    SettledSlot(ms, ms, top, []);
    SettledSlot(order, ms, top, []);
    SameRows(FinalRows(order), FinalRows(ms));
  }

  /** An order in which a given newest update comes last. */
  lemma NewestLast(ms: seq<Prob>, a: Prob, top: nat) returns (order: seq<Prob>)
    requires UpTo(ms, top) && a in ms && a.updated == top
    ensures multiset(order) == multiset(ms) && FinalRows(order).kind == a.kind
    ensures forall k :: !Keeps(a, k) ==> At(FinalRows(order), k) == Written(a, k)
  {
    var i :| 0 <= i < |ms| && ms[i] == a;
    var rest := Without(ms, i);
    order := rest + [a];
    assert order[..|rest|] == rest;
    SameMembers(ms, order);
    NewestTime(rest, top);
    forall k ensures FinalRows(order).kind == a.kind && (!Keeps(a, k) ==> At(FinalRows(order), k) == Written(a, k)) {
      TopDecides(FinalRows(rest), a, k);
    }
    TopDecides(FinalRows(rest), a, []);
  }

  /** What a state has and each update keeps, the final state has. */
  lemma {:induction false} StaysTrue(ms: seq<Prob>, i: nat, holds: Rows -> bool, final: seq<Prob> -> Rows, after: (Rows, Prob) -> Rows)
    requires forall ms :: Folds(final, after, ms)
    requires i <= |ms| && holds(final(ms[..i]))
    requires forall r, m :: holds(r) && m in ms ==> holds(after(r, m))
    ensures holds(final(ms))
    decreases |ms|
  {
    if i == |ms| {
      assert ms[..i] == ms;
    } else {
      var n := |ms| - 1;
      assert ms[..n][..i] == ms[..i] && ms[n] in ms;
      StaysTrue(ms[..n], i, holds, final, after);
      assert Folds(final, after, ms);
    }
  }

  ghost predicate Folds(final: seq<Prob> -> Rows, after: (Rows, Prob) -> Rows, ms: seq<Prob>) {
    ms != [] ==> final(ms) == after(final(ms[..|ms| - 1]), ms[|ms| - 1])
  }

  /** What the first newest update found in a slot stays, if all the newest keep it. */
  lemma KeptStays(ms: seq<Prob>, i: nat, r: Rows, top: nat, k: Blob)
    requires i <= |ms| && r == FinalRows(ms[..i]) && Existing(r) != [] && r.updated == top
    requires UpTo(ms, top) && AllKeep(ms, top, k)
    ensures At(FinalRows(ms), k) == At(r, k)
  {
    var slot := At(r, k);
    var holds := (x: Rows) => Existing(x) != [] && x.updated == top && At(x, k) == slot;
    forall x, m | holds(x) && m in ms ensures holds(After(x, m)) {
      KeptStep(x, m, top, k);
    }
    var final, after := (ms: seq<Prob>) => FinalRows(ms), (x: Rows, m: Prob) => After(x, m);
    forall ms ensures Folds(final, after, ms) {
    }
    StaysTrue(ms, i, holds, final, after);
  }

  lemma KeptStep(r: Rows, m: Prob, top: nat, k: Blob)
    requires Existing(r) != [] && r.updated == top && m.kind != [] && m.updated <= top
    requires m.updated == top ==> Keeps(m, k)
    ensures var r' := After(r, m); Existing(r') != [] && r'.updated == top && At(r', k) == At(r, k)
  {
    if m.updated == top {
      TopDecides(r, m, k);
    }
  }

  lemma OneUpdate(m: Prob)
    ensures FinalRows([m]) == After(ABSENT, m)
  {
    assert [m][..0] == [];
  }

  lemma TwoUpdates(m: Prob, t: Prob)
    ensures FinalRows([m, t]) == After(After(ABSENT, m), t)
  {
    OneUpdate(m);
    assert [m, t][..1] == [m];
  }

  lemma BothFirst(ms: seq<Prob>, a: Prob, b: Prob) returns (rest: seq<Prob>)
    requires a in ms && b in ms && a != b
    ensures multiset([a, b] + rest) == multiset(ms)
    ensures forall m :: m in rest ==> m in ms
  {
    var i :| 0 <= i < |ms| && ms[i] == a;
    var ms1 := Without(ms, i);
    assert b in multiset(ms1);
    var j :| 0 <= j < |ms1| && ms1[j] == b;
    rest := Without(ms1, j);
    forall m | m in rest ensures m in ms {
      assert m in multiset(ms);
    }
  }

  /** If all the newest updates keep a file that another one brings, the file is there in one
      order and missing in another. */
  lemma KeptFileDiffers(ms: seq<Prob>, top: nat, m: Prob, k: Blob) returns (there: seq<Prob>, missing: seq<Prob>)
    requires UpTo(ms, top) && HasNewest(ms, top) && AllKeep(ms, top, k) && m in ms && Written(m, k) != EMPTY
    ensures multiset(there) == multiset(missing) == multiset(ms)
    ensures At(FinalRows(there), k) == Written(m, k) && At(FinalRows(missing), k) == EMPTY
  {
    var t :| t in ms && t.updated == top;
    var rest := BothFirst(ms, m, t);
    there, missing := [m, t] + rest, [t] + ([m] + rest);
    assert multiset(missing) == multiset{t} + multiset{m} + multiset(rest) == multiset(there);
    OneUpdate(t);
    TwoUpdates(m, t);
    TopDecides(ABSENT, t, k);
    TopDecides(ABSENT, m, k);
    TopDecides(After(ABSENT, m), t, k);
    SameMembers(there, ms);
    SameMembers(missing, ms);
    assert there[..2] == [m, t] && missing[..1] == [t];
    KeptStays(there, 2, FinalRows([m, t]), top, k);
    KeptStays(missing, 1, FinalRows([t]), top, k);
  }

  /** For instance an update that brings a file, and a newer one that keeps it. */
  lemma KeepingDependsOnOrder(name: Blob, f: File, kind: Blob)
    requires f.name != [] && kind != []
    ensures var brings := Prob(1, 10, kind, [], map[], map[], map[name := f]);
            var keeps := Prob(1, 20, kind, [], map[], map[], map[name := File([], [])]);
            && At(FinalRows([brings, keeps]), name) == Slot(Some(f.name), Some(f.data))
            && At(FinalRows([keeps, brings]), name) == EMPTY
  {
    var brings := Prob(1, 10, kind, [], map[], map[], map[name := f]);
    var keeps := Prob(1, 20, kind, [], map[], map[], map[name := File([], [])]);
    TwoUpdates(brings, keeps);
    TwoUpdates(keeps, brings);
    TopDecides(ABSENT, brings, name);
    TopDecides(ABSENT, keeps, name);
    TopDecides(After(ABSENT, brings), keeps, name);
  }

  /** All orders of any updates with types leave the same rows, exactly when the newest updates
      (there may be several with the same time) say the same, and a file that all of them keep
      is brought by no update. */
  lemma AllOrdersAgreeExactlyWhen(ms: seq<Prob>, top: nat)
    requires UpTo(ms, top) && HasNewest(ms, top)
    ensures AllOrdersAgree(ms) <==> Settled(ms, top)
  {
    if Settled(ms, top) {
      forall order | multiset(order) == multiset(ms) ensures FinalRows(order) == FinalRows(ms) {
        SettledAgree(ms, order, top);
      }
    }
    if AllOrdersAgree(ms) {
      AgreeingSettle(ms, top);
    }
  }

  ghost predicate AllOrdersAgree(ms: seq<Prob>) {
    forall order :: multiset(order) == multiset(ms) ==> FinalRows(order) == FinalRows(ms)
  }

  lemma AgreeingSettle(ms: seq<Prob>, top: nat)
    requires UpTo(ms, top) && HasNewest(ms, top) && AllOrdersAgree(ms)
    ensures Settled(ms, top)
  {
    forall a, b | a in ms && b in ms && a.updated == top && b.updated == top ensures SameNews(a, b) {
      var x := NewestLast(ms, a, top);
      var y := NewestLast(ms, b, top);
    }
    forall m, k | m in ms && AllKeep(ms, top, k) ensures Written(m, k) == EMPTY {
      if Written(m, k) != EMPTY {
        var x, y := KeptFileDiffers(ms, top, m, k);
      }
    }
  }

  /** Updates with the same time do not exclude each other: of the newest ones, which keep no
      file, the one processed last stays. */
  lemma {:induction false} TiesGoToTheLast(ms: seq<Prob>, i: nat)
    requires i < |ms| && UpTo(ms, ms[i].updated) && forall k :: !Keeps(ms[i], k)
    requires forall j :: i < j < |ms| ==> ms[j].updated < ms[i].updated
    ensures FinalRows(ms) == After(ABSENT, ms[i])
    decreases |ms|
  {
    var n := |ms| - 1;
    var rest := ms[..n];
    NewestTime(rest, ms[i].updated);
    if i == n {
      NewestReplaces(FinalRows(rest), ms[n]);
    } else {
      assert rest[i] == ms[i];
      TiesGoToTheLast(rest, i);
      OlderDiscarded(rest, ms[n], ms[i]);
    }
  }

  lemma OlderDiscarded(rest: seq<Prob>, m: Prob, newest: Prob)
    requires UpTo(rest, newest.updated) && newest in rest && m.updated < newest.updated
    ensures After(FinalRows(rest), m) == FinalRows(rest)
  {
    NewestTime(rest, newest.updated);
  }

  /** Where no file is kept, saying the same is leaving the same rows on a fresh problem. */
  lemma SameNewsIsSameRows(a: Prob, b: Prob)
    requires a.updated == b.updated && a.kind != [] && b.kind != [] && forall k :: !Keeps(a, k) && !Keeps(b, k)
    ensures SameNews(a, b) <==> After(ABSENT, a) == After(ABSENT, b)
  {
    forall k ensures At(After(ABSENT, a), k) == Written(a, k) && At(After(ABSENT, b), k) == Written(b, k) {
      TopDecides(ABSENT, a, k);
      TopDecides(ABSENT, b, k);
    }
    if SameNews(a, b) {
      SameRows(After(ABSENT, a), After(ABSENT, b));
    }
  }
}
