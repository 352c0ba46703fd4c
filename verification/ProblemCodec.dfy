/** Problem update messages: ProbMessage in src/act_problemmanip.C. */
module ProblemCodec {
  import opened Bytes
  import opened BufferWriter
  import opened LoadResults
  import opened Options

  datatype Prob = Prob(id: nat, updated: nat, kind: Blob, deps: seq<nat>,
                       ints: map<Blob, int>, strings: map<Blob, Blob>, files: map<Blob, File>)

  /** One tagged attribute in the buffer. */
  datatype Rec =
    | IntRec(attr: Blob, value: int)
    | StrRec(attr: Blob, text: Blob)
    | FileRec(attr: Blob, file: File)

  const TAG_INT: Byte := 'I' as int
  const TAG_STRING: Byte := 'S' as int
  const TAG_FILE: Byte := 'F' as int

  ghost predicate RecFits(r: Rec) {
    match r
    case IntRec(attr, value) => NulFree(attr) && -0x8000_0000 <= value < 0x8000_0000
    case StrRec(attr, text) => NulFree(attr) && NulFree(text)
    case FileRec(attr, file) => NulFree(attr) && NulFree(file.name) && |file.data| < TWO32
  }

  function Encode(r: Rec): Blob {
    match r
    case IntRec(attr, value) => [TAG_INT] + (CStr(attr) + U32(Unsigned(value)))
    case StrRec(attr, text) => [TAG_STRING] + (CStr(attr) + CStr(text))
    case FileRec(attr, file) => [TAG_FILE] + (CStr(attr) + (CStr(file.name) + (U32(|file.data|) + file.data)))
  }

  // ---------------------------------------------------------------- reading one attribute

  datatype One = One(rec: Rec, rest: Blob) | BadRec | RecOverrun

  function ParseString(b: Blob): (r: One)
    ensures r.One? ==> |r.rest| < |b|
  {
    if CheckStringTerms(b, |b|, 2) != Enough then BadRec else
      var attr := ReadCStr(b);
      if attr.None? then RecOverrun else
        var text := ReadCStr(attr.value.1);
        if text.None? then RecOverrun else One(StrRec(attr.value.0, text.value.0), text.value.1)
  }

  /** The size passed to the check is not compared with 4 first: below 4 it wraps around. */
  function ParseInt(b: Blob): (r: One)
    ensures r.One? ==> |r.rest| < |b|
  {
    match CheckStringTerms(b, Sub32(|b|, 4), 1)
    case TooFew => BadRec
    case PastEnd => RecOverrun
    case Enough =>
      var attr := ReadCStr(b);
      if attr.None? || |attr.value.1| < 4 then RecOverrun
      else One(IntRec(attr.value.0, Signed(ReadU32(attr.value.1))), attr.value.1[4..])
  }

  /** An empty file name means "keep the file"; then no file data is skipped. */
  function ParseFile(b: Blob): (r: One)
    ensures r.One? ==> |r.rest| < |b|
  {
    if |b| <= 4 || CheckStringTerms(b, |b| - 4, 2) != Enough then BadRec else
      var attr := ReadCStr(b);
      if attr.None? then RecOverrun else
        var name := ReadCStr(attr.value.1);
        if name.None? || |name.value.1| < 4 then RecOverrun else
          var size, rest := ReadU32(name.value.1), name.value.1[4..];
          if name.value.0 == [] then One(FileRec(attr.value.0, File([], [])), rest)
          else if |rest| < size then BadRec
          else One(FileRec(attr.value.0, File(name.value.0, rest[..size])), rest[size..])
  }

  function ParseRec(b: Blob): (r: One)
    requires b != []
    ensures r.One? ==> |r.rest| < |b|
  {
    if b[0] == TAG_STRING then ParseString(b[1..])
    else if b[0] == TAG_INT then ParseInt(b[1..])
    else if b[0] == TAG_FILE then ParseFile(b[1..])
    else BadRec
  }

  lemma StringBack(attr: Blob, text: Blob, rest: Blob)
    requires NulFree(attr) && NulFree(text)
    ensures ParseString(CStr(attr) + CStr(text) + rest) == One(StrRec(attr, text), rest)
  {
    var b := CStr(attr) + (CStr(text) + rest);
    assert CStr(attr) + CStr(text) + rest == b;
    CheckSkips(attr, CStr(text) + rest, |b|, 2);
    CheckSkips(text, rest, |CStr(text) + rest|, 1);
    ReadBackCStr(attr, CStr(text) + rest);
    ReadBackCStr(text, rest);
  }

  lemma IntBack(attr: Blob, value: int, rest: Blob)
    requires NulFree(attr) && -0x8000_0000 <= value < 0x8000_0000
    requires |CStr(attr) + U32(Unsigned(value)) + rest| < TWO32
    ensures ParseInt(CStr(attr) + U32(Unsigned(value)) + rest) == One(IntRec(attr, value), rest)
  {
    var tail := U32(Unsigned(value)) + rest;
    var b := CStr(attr) + tail;
    assert CStr(attr) + U32(Unsigned(value)) + rest == b;
    CheckSkips(attr, tail, |b| - 4, 1);
    ReadBackCStr(attr, tail);
    ReadBack(Unsigned(value), rest);
  }

  /** A file comes back exactly when an empty name goes with empty data. */
  lemma FileBack(attr: Blob, file: File, rest: Blob)
    requires RecFits(FileRec(attr, file))
    ensures var b := CStr(attr) + (CStr(file.name) + (U32(|file.data|) + file.data)) + rest;
            ParseFile(b) == One(FileRec(attr, file), rest) <==> (file.name == [] ==> file.data == [])
  {
    var tail2 := U32(|file.data|) + (file.data + rest);
    var tail1 := CStr(file.name) + tail2;
    var b := CStr(attr) + (CStr(file.name) + (U32(|file.data|) + file.data)) + rest;
    assert b == CStr(attr) + tail1;
    CheckSkips(attr, tail1, |b| - 4, 2);
    CheckSkips(file.name, tail2, |tail1| - 4, 1);
    ReadBackCStr(attr, tail1);
    ReadBackCStr(file.name, tail2);
    ReadBack(|file.data|, file.data + rest);
    if file.name == [] && file.data != [] {
      assert |file.data + rest| != |rest|;
    } else if file.name == [] {
      assert file.data + rest == rest;
    } else {
      assert (file.data + rest)[..|file.data|] == file.data && (file.data + rest)[|file.data|..] == rest;
    }
  }

  lemma RecBack(r: Rec, rest: Blob)
    requires RecFits(r) && |Encode(r) + rest| < TWO32
    ensures ParseRec(Encode(r) + rest) == One(r, rest) <==> Good(r)
  {
    match r
    case IntRec(attr, value) =>
      Untag(TAG_INT, CStr(attr) + U32(Unsigned(value)), rest);
      IntBack(attr, value, rest);
    case StrRec(attr, text) =>
      Untag(TAG_STRING, CStr(attr) + CStr(text), rest);
      StringBack(attr, text, rest);
    case FileRec(attr, file) =>
      Untag(TAG_FILE, CStr(attr) + (CStr(file.name) + (U32(|file.data|) + file.data)), rest);
      FileBack(attr, file, rest);
  }

  lemma Untag(tag: Byte, body: Blob, rest: Blob)
    ensures var b := [tag] + body + rest; b[0] == tag && b[1..] == body + rest
  {
  }

  // ---------------------------------------------------------------- all attributes

  ghost predicate RecsFit(rs: seq<Rec>) {
    forall i :: 0 <= i < |rs| ==> Good(rs[i])
  }

  /** A file without a name is one that is kept: it carries no data. */
  ghost predicate Good(r: Rec) {
    RecFits(r) && (r.FileRec? && r.file.name == [] ==> r.file.data == [])
  }

  function EncodeAll(rs: seq<Rec>): Blob {
    if rs == [] then [] else Encode(rs[0]) + EncodeAll(rs[1..])
  }

  datatype Recs = Recs(recs: seq<Rec>) | BadRecs | RecsOverrun

  function ParseAll(b: Blob): Recs
    decreases |b|
  {
    if b == [] then Recs([]) else
      match ParseRec(b)
      case BadRec => BadRecs
      case RecOverrun => RecsOverrun
      case One(rec, rest) =>
        var more := ParseAll(rest);
        if more.Recs? then Recs([rec] + more.recs) else more
  }

  lemma {:induction false} AllBack(rs: seq<Rec>)
    requires RecsFit(rs) && |EncodeAll(rs)| < TWO32
    ensures ParseAll(EncodeAll(rs)) == Recs(rs)
  {
    if rs != [] {
      var r, rest := rs[0], rs[1..];
      FirstFits(rs, r, rest);
      AllBack(rest);
      OneBack(r, rest);
    }
  }

  lemma FirstFits(rs: seq<Rec>, r: Rec, rest: seq<Rec>)
    requires rs != [] && r == rs[0] && rest == rs[1..] && RecsFit(rs)
    ensures rs == [r] + rest && Good(r) && RecsFit(rest)
    ensures EncodeAll(rs) == Encode(r) + EncodeAll(rest) && |EncodeAll(rest)| <= |EncodeAll(rs)|
  {
  }

  lemma OneBack(r: Rec, rest: seq<Rec>)
    requires Good(r)
    requires |Encode(r) + EncodeAll(rest)| < TWO32
    requires ParseAll(EncodeAll(rest)) == Recs(rest)
    ensures ParseAll(Encode(r) + EncodeAll(rest)) == Recs([r] + rest)
  {
    RecBack(r, EncodeAll(rest));
    ParseAllStep(Encode(r) + EncodeAll(rest), r, EncodeAll(rest), rest);
  }

  lemma ParseAllStep(b: Blob, r: Rec, rest: Blob, rs: seq<Rec>)
    requires b != [] && ParseRec(b) == One(r, rest) && ParseAll(rest) == Recs(rs)
    ensures ParseAll(b) == Recs([r] + rs)
  {
  }

  lemma {:induction false} EncodeAllSplit(a: seq<Rec>, b: seq<Rec>)
    ensures EncodeAll(a + b) == EncodeAll(a) + EncodeAll(b)
  {
    if a == [] {
      assert a + b == b;
    } else {
      var a1 := a[1..];
      assert (a + b)[0] == a[0] && (a + b)[1..] == a1 + b;
      assert EncodeAll(a1 + b) == EncodeAll(a1) + EncodeAll(b) by {
        EncodeAllSplit(a1, b);
      }
      Reassociate(Encode(a[0]), EncodeAll(a1), EncodeAll(b));
    }
  }

  // ---------------------------------------------------------------- the whole message

  function Add(p: Prob, r: Rec): Prob {
    match r
    case IntRec(attr, value) => p.(ints := p.ints[attr := value])
    case StrRec(attr, text) => p.(strings := p.strings[attr := text])
    case FileRec(attr, file) => p.(files := p.files[attr := file])
  }

  function AddAll(p: Prob, rs: seq<Rec>): Prob {
    if rs == [] then p else Add(AddAll(p, rs[..|rs| - 1]), rs[|rs| - 1])
  }

  /** The order in which the three maps are walked; any order of the keys will do. */
  datatype Order = Order(ints: seq<Blob>, strings: seq<Blob>, files: seq<Blob>)

  ghost predicate OrderOf(o: Order, p: Prob) {
    && (forall k :: k in o.ints <==> k in p.ints)
    && (forall k :: k in o.strings <==> k in p.strings)
    && (forall k :: k in o.files <==> k in p.files)
  }

  function Records(p: Prob, o: Order): (rs: seq<Rec>)
    requires OrderOf(o, p)
    ensures |rs| == |o.ints| + |o.strings| + |o.files|
  {
    seq(|o.ints|, i requires 0 <= i < |o.ints| => assert o.ints[i] in o.ints; IntRec(o.ints[i], p.ints[o.ints[i]]))
    + seq(|o.strings|, i requires 0 <= i < |o.strings| => assert o.strings[i] in o.strings; StrRec(o.strings[i], p.strings[o.strings[i]]))
    + seq(|o.files|, i requires 0 <= i < |o.files| => assert o.files[i] in o.files; FileRec(o.files[i], p.files[o.files[i]]))
  }

  /** A message the store code can pack: fields fit their widths, strings hold no NUL, and a
      file without a name is one that is kept. */
  ghost predicate Fits(p: Prob) {
    && p.id < TWO32 && p.updated < TWO32 && NulFree(p.kind) && |p.deps| < TWO32
    && (forall i :: 0 <= i < |p.deps| ==> p.deps[i] < TWO32)
    && (forall k :: k in p.ints ==> RecFits(IntRec(k, p.ints[k])))
    && (forall k :: k in p.strings ==> RecFits(StrRec(k, p.strings[k])))
    && (forall k :: k in p.files ==>
          RecFits(FileRec(k, p.files[k])) && (p.files[k].name == [] ==> p.files[k].data == []))
  }

  lemma RecordsFit(p: Prob, o: Order)
    requires Fits(p) && OrderOf(o, p)
    ensures RecsFit(Records(p, o))
  {
  }

  function EncodeDeps(deps: seq<nat>): Blob {
    if deps == [] then [] else U32(deps[0]) + EncodeDeps(deps[1..])
  }

  lemma {:induction false} DepsSnoc(deps: seq<nat>, d: nat)
    ensures EncodeDeps(deps + [d]) == EncodeDeps(deps) + U32(d)
  {
    if deps == [] {
      assert deps + [d] == [d];
    } else {
      DepsSnoc(deps[1..], d);
      assert (deps + [d])[1..] == deps[1..] + [d];
    }
  }

  ghost function EncodeProb(p: Prob, o: Order): Blob
    requires OrderOf(o, p)
  {
    U32(p.id) + (U32(p.updated) + (U32(|p.deps|) + (EncodeDeps(p.deps) + (CStr(p.kind) + EncodeAll(Records(p, o))))))
  }

  function ReadDeps(b: Blob, n: nat): Option<(seq<nat>, Blob)> {
    if n == 0 then Some(([], b))
    else if |b| < 4 then None
    else
      var more := ReadDeps(b[4..], n - 1);
      if more.None? then None else Some(([ReadU32(b)] + more.value.0, more.value.1))
  }

  lemma {:induction false} DepsBack(deps: seq<nat>, rest: Blob)
    requires forall i :: 0 <= i < |deps| ==> deps[i] < TWO32
    ensures ReadDeps(EncodeDeps(deps) + rest, |deps|) == Some((deps, rest))
  {
    if deps == [] {
      assert EncodeDeps(deps) + rest == rest;
    } else {
      var tail := EncodeDeps(deps[1..]) + rest;
      assert EncodeDeps(deps) + rest == U32(deps[0]) + tail;
      ReadBack(deps[0], tail);
      DepsBack(deps[1..], rest);
      assert deps == [deps[0]] + deps[1..];
    }
  }

  function ParseBody(b: Blob, whole: nat, id: nat, updated: nat, deps: seq<nat>): Load<Prob> {
    if CheckStringTerms(b, |b|, 1) != Enough then Refused else
      var kind := ReadCStr(b);
      if kind.None? then Overrun else
        match ParseAll(kind.value.1)
        case BadRecs => Refused
        case RecsOverrun => Overrun
        case Recs(recs) => Loaded(AddAll(Prob(id, updated, kind.value.0, deps, map[], map[], map[]), recs), whole)
  }

  function ParseProb(b: Blob): Load<Prob> {
    if |b| < 8 then Refused
    else if |b| < 12 then Overrun
    else
      var deps := ReadDeps(b[12..], ReadU32(b[8..]));
      if deps.None? then Overrun
      else ParseBody(deps.value.1, |b|, ReadU32(b), ReadU32(b[4..]), deps.value.0)
  }

  lemma BodyBack(p: Prob, o: Order, whole: nat)
    requires Fits(p) && OrderOf(o, p) && |EncodeProb(p, o)| < TWO32
    ensures RecsFit(Records(p, o))
    ensures ParseBody(CStr(p.kind) + EncodeAll(Records(p, o)), whole, p.id, p.updated, p.deps) == Loaded(p, whole)
  {
    RecordsFit(p, o);
    var rs := Records(p, o);
    CheckSkips(p.kind, EncodeAll(rs), |CStr(p.kind) + EncodeAll(rs)|, 1);
    ReadBackCStr(p.kind, EncodeAll(rs));
    AllBack(rs);
    AddRecords(p, o);
  }

  /** Loading what was stored gives the same message, consumes exactly the bytes that were
      stored and never reads past them. */
  lemma ProbRoundTrip(p: Prob, o: Order)
    requires Fits(p) && OrderOf(o, p) && |EncodeProb(p, o)| < TWO32
    ensures ParseProb(EncodeProb(p, o)) == Loaded(p, |EncodeProb(p, o)|)
  {
    RecordsFit(p, o);
    var t4 := CStr(p.kind) + EncodeAll(Records(p, o));
    var t3 := EncodeDeps(p.deps) + t4;
    var t2 := U32(|p.deps|) + t3;
    var t1 := U32(p.updated) + t2;
    var b := U32(p.id) + t1;
    ReadBack(p.id, t1);
    ReadBack(p.updated, t2);
    ReadBack(|p.deps|, t3);
    assert b[8..] == t1[4..] == t2 && b[12..] == t2[4..] == t3;
    DepsBack(p.deps, t4);
    BodyBack(p, o, |b|);
  }

  /** Where the fields of a stored update are: every server reads them from these places. */
  lemma ProbLayout(p: Prob, o: Order)
    requires Fits(p) && OrderOf(o, p) && |EncodeProb(p, o)| < TWO32
    ensures var b := EncodeProb(p, o); var start := 12 + 4 * |p.deps|;
            && start + |p.kind| < |b| && ReadU32(b) == p.id && ReadU32(b[4..]) == p.updated && ReadU32(b[8..]) == |p.deps|
            && b[start..start + |p.kind| + 1] == p.kind + [0]
  {
    var t4 := CStr(p.kind) + EncodeAll(Records(p, o));
    var t3 := EncodeDeps(p.deps) + t4;
    var t2 := U32(|p.deps|) + t3;
    var t1 := U32(p.updated) + t2;
    var b := U32(p.id) + t1;
    ReadBack(p.id, t1);
    ReadBack(p.updated, t2);
    ReadBack(|p.deps|, t3);
    DepsLength(p.deps);
    assert b[8..] == t2 && b[12..] == t3;
    assert t3[4 * |p.deps|..][..|p.kind| + 1] == CStr(p.kind);
  }

  ghost function Restrict<T>(m: map<Blob, T>, order: seq<Blob>, n: nat): map<Blob, T>
    requires n <= |order|
  {
    map k | k in m && k in order[..n] :: m[k]
  }

  // ---------------------------------------------------------------- reading past the end

  lemma IntOverruns(b: Blob)
    requires |b| < TWO32
    ensures ParseInt(b) == RecOverrun <==> |b| < 4
  {
    if |b| < 4 {
      SizeWraps(|b|);
      CheckBeyond(b, Sub32(|b|, 4));
    } else {
      assert Sub32(|b|, 4) == |b| - 4;
      CheckPrefix(b, |b| - 4, 1);
      CheckCounts(b[..|b| - 4], 1);
      if CheckStringTerms(b, |b| - 4, 1) == Enough {
        CheckFinds(b, |b| - 4);
      }
    }
  }

  lemma SizeWraps(n: nat)
    requires n < 4
    ensures n < Sub32(n, 4)
  {
    assert Sub32(n, 4) == TWO32 + n - 4;
  }

  lemma {:induction false} CheckBeyond(b: Blob, size: nat)
    requires |b| < size
    ensures CheckStringTerms(b, size, 1) != TooFew
  {
    if b != [] && b[0] != 0 {
      CheckBeyond(b[1..], size - 1);
    }
  }

  lemma StringStaysInside(b: Blob)
    ensures ParseString(b) != RecOverrun
  {
    if CheckStringTerms(b, |b|, 2) == Enough {
      CheckFindsTwo(b, |b|);
    }
  }

  lemma FileStaysInside(b: Blob)
    ensures ParseFile(b) != RecOverrun
  {
    if 4 < |b| && CheckStringTerms(b, |b| - 4, 2) == Enough {
      CheckFindsTwo(b, |b| - 4);
    }
  }

  /** The record loop comes to an integer record with fewer than four bytes after its tag. */
  predicate ReachesShortInt(b: Blob)
    decreases |b|
  {
    b != [] && ((b[0] == TAG_INT && |b| < 5) || (ParseRec(b).One? && ReachesShortInt(ParseRec(b).rest)))
  }

  lemma {:induction false} RecordsOverrun(b: Blob)
    requires |b| < TWO32
    ensures ParseAll(b) == RecsOverrun <==> ReachesShortInt(b)
    decreases |b|
  {
    if b != [] {
      IntOverruns(b[1..]);
      StringStaysInside(b[1..]);
      FileStaysInside(b[1..]);
      if ParseRec(b).One? {
        RecordsOverrun(ParseRec(b).rest);
      }
    }
  }

  lemma {:induction false} DepsMissing(b: Blob, n: nat)
    ensures ReadDeps(b, n).None? <==> |b| < 4 * n
    ensures ReadDeps(b, n).Some? ==> |ReadDeps(b, n).value.1| == |b| - 4 * n
  {
    if n > 0 && 4 <= |b| {
      DepsMissing(b[4..], n - 1);
    }
  }

  /** `load` reads past the end exactly when the buffer ends within the dependency count, or
      before the dependencies that it announces, or within an integer record. */
  lemma OverrunsExactlyWhen(b: Blob)
    requires |b| < TWO32
    ensures ParseProb(b) == Overrun <==>
            || 8 <= |b| < 12
            || (12 <= |b| && |b| - 12 < 4 * ReadU32(b[8..]))
            || (12 <= |b| && ReachesShortInt(Attributes(b)))
  {
    if 12 <= |b| {
      var n := ReadU32(b[8..]);
      DepsMissing(b[12..], n);
      if 4 * n <= |b| - 12 {
        var body := ReadDeps(b[12..], n).value.1;
        if CheckStringTerms(body, |body|, 1) == Enough {
          CheckFinds(body, |body|);
          RecordsOverrun(ReadCStr(body).value.1);
        }
      }
    }
  }

  /** What follows the type of the problem, if the buffer gets that far. */
  function Attributes(b: Blob): Blob
    requires 12 <= |b|
  {
    var deps := ReadDeps(b[12..], ReadU32(b[8..]));
    if deps.None? then [] else
      var body := deps.value.1;
      if CheckStringTerms(body, |body|, 1) == Enough && ReadCStr(body).Some? then ReadCStr(body).value.1 else []
  }

  lemma RestrictNext<T>(m: map<Blob, T>, order: seq<Blob>, n: nat)
    requires n < |order| && order[n] in m
    ensures Restrict(m, order, n + 1) == Restrict(m, order, n)[order[n] := m[order[n]]]
  {
    assert order[..n + 1] == order[..n] + [order[n]];
  }

  lemma RestrictAll<T>(m: map<Blob, T>, order: seq<Blob>)
    requires forall k :: k in order <==> k in m
    ensures Restrict(m, order, |order|) == m
  {
    assert order[..|order|] == order;
  }

  /** The message with only the first n attributes. */
  ghost function Upto(p: Prob, o: Order, n: nat): Prob
    requires n <= |o.ints| + |o.strings| + |o.files|
  {
    var a, b := |o.ints|, |o.strings|;
    p.(ints := Restrict(p.ints, o.ints, if n <= a then n else a),
       strings := Restrict(p.strings, o.strings, if n <= a then 0 else if n <= a + b then n - a else b),
       files := Restrict(p.files, o.files, if n <= a + b then 0 else n - a - b))
  }

  lemma UptoNext(p: Prob, o: Order, n: nat)
    requires OrderOf(o, p) && n < |Records(p, o)|
    ensures Upto(p, o, n + 1) == Add(Upto(p, o, n), Records(p, o)[n])
  {
    var a, b := |o.ints|, |o.strings|;
    if n < a {
      assert o.ints[n] in o.ints;
      RestrictNext(p.ints, o.ints, n);
    } else if n < a + b {
      assert o.strings[n - a] in o.strings;
      RestrictNext(p.strings, o.strings, n - a);
    } else {
      assert o.files[n - a - b] in o.files;
      RestrictNext(p.files, o.files, n - a - b);
    }
  }

  lemma {:induction false} AddPrefix(p: Prob, o: Order, n: nat)
    requires OrderOf(o, p) && n <= |Records(p, o)|
    ensures AddAll(p.(ints := map[], strings := map[], files := map[]), Records(p, o)[..n]) == Upto(p, o, n)
  {
    var bare := p.(ints := map[], strings := map[], files := map[]);
    if n == 0 {
      assert Upto(p, o, 0) == bare;
    } else {
      AddPrefix(p, o, n - 1);
      UptoNext(p, o, n - 1);
      assert Records(p, o)[..n][..n - 1] == Records(p, o)[..n - 1];
    }
  }

  lemma AddRecords(p: Prob, o: Order)
    requires OrderOf(o, p)
    ensures AddAll(p.(ints := map[], strings := map[], files := map[]), Records(p, o)) == p
  {
    var n := |Records(p, o)|;
    AddPrefix(p, o, n);
    assert Records(p, o)[..n] == Records(p, o);
    RestrictAll(p.ints, o.ints);
    RestrictAll(p.strings, o.strings);
    RestrictAll(p.files, o.files);
    assert Upto(p, o, n) == p by {
      assert o.strings == [] ==> p.strings == map[];
      assert o.files == [] ==> p.files == map[];
    }
  }

  // ---------------------------------------------------------------- storageRequired, store, load

  /** Step i of a walk over the attributes: the next record fits and extends what is written. */
  lemma NextRecord(rs: seq<Rec>, i: nat)
    requires i < |rs|
    ensures EncodeAll(rs[..i + 1]) == EncodeAll(rs[..i]) + Encode(rs[i])
    ensures |EncodeAll(rs[..i + 1])| <= |EncodeAll(rs)|
  {
    var pre, post := rs[..i], rs[i + 1..];
    assert rs[..i + 1] == pre + [rs[i]] && rs == pre + [rs[i]] + post;
    EncodeAllSplit(pre, [rs[i]]);
    SingleRecord(rs[i]);
    EncodeAllSplit(pre + [rs[i]], post);
  }

  lemma SingleRecord(r: Rec)
    ensures EncodeAll([r]) == Encode(r)
  {
    assert [r][1..] == [];
  }

  lemma {:induction false} DepsLength(deps: seq<nat>)
    ensures |EncodeDeps(deps)| == 4 * |deps|
  {
    if deps != [] {
      DepsLength(deps[1..]);
    }
  }

  /** The size of the packed message; ~0U for a message without a problem id. */
  method StorageRequired(p: Prob, o: Order) returns (total: nat)
    requires OrderOf(o, p)
    ensures p.id == TWO32 - 1 ==> total == TWO32 - 1
    ensures p.id != TWO32 - 1 ==> total == |EncodeProb(p, o)|
  {
    if p.id == TWO32 - 1 {
      return TWO32 - 1;
    }
    total := 4 + 4 + |p.kind| + 1 + (1 + |p.deps|) * 4;
    DepsLength(p.deps);
    var attributes := SizeOfRecs(Records(p, o));
    total := total + attributes;
  }

  /** The three loops over the attribute maps, one after the other. */
  method SizeOfRecs(rs: seq<Rec>) returns (total: nat)
    ensures total == |EncodeAll(rs)|
  {
    total := 0;
    for i := 0 to |rs|
      invariant total == |EncodeAll(rs[..i])|
    {
      NextRecord(rs, i);
      match rs[i]
      case IntRec(attr, _) => total := total + 1 + |attr| + 1 + 4;
      case StrRec(attr, text) => total := total + 1 + |attr| + |text| + 2;
      case FileRec(attr, file) => total := total + 1 + |attr| + 1 + |file.name| + 1 + 4 + |file.data|;
    }
    assert rs[..|rs|] == rs;
  }

  ghost predicate StringsOk(r: Rec) {
    match r
    case IntRec(attr, _) => NulFree(attr)
    case StrRec(attr, text) => NulFree(attr) && NulFree(text)
    case FileRec(attr, file) => NulFree(attr) && NulFree(file.name)
  }

  ghost predicate AllStringsOk(rs: seq<Rec>) {
    forall i :: 0 <= i < |rs| ==> StringsOk(rs[i])
  }

  method PutIntRec(buffer: array<Byte>, pos: nat, attr: Blob, value: int) returns (end: nat)
    requires pos + |Encode(IntRec(attr, value))| <= buffer.Length
    modifies buffer
    ensures end == pos + |Encode(IntRec(attr, value))|
    ensures StringsOk(IntRec(attr, value)) ==> buffer[..end] == old(buffer[..pos]) + Encode(IntRec(attr, value))
  {
    end := PutBytes(buffer, pos, [TAG_INT]);
    end := PutCStr(buffer, end, attr);
    end := PutU32(buffer, end, Unsigned(value));
    Reassociate(old(buffer[..pos]) + [TAG_INT], CStr(attr), U32(Unsigned(value)));
    Reassociate(old(buffer[..pos]), [TAG_INT], CStr(attr) + U32(Unsigned(value)));
  }

  method PutStrRec(buffer: array<Byte>, pos: nat, attr: Blob, text: Blob) returns (end: nat)
    requires pos + |Encode(StrRec(attr, text))| <= buffer.Length
    modifies buffer
    ensures end == pos + |Encode(StrRec(attr, text))|
    ensures StringsOk(StrRec(attr, text)) ==> buffer[..end] == old(buffer[..pos]) + Encode(StrRec(attr, text))
  {
    end := PutBytes(buffer, pos, [TAG_STRING]);
    end := PutCStr(buffer, end, attr);
    end := PutCStr(buffer, end, text);
    Reassociate(old(buffer[..pos]) + [TAG_STRING], CStr(attr), CStr(text));
    Reassociate(old(buffer[..pos]), [TAG_STRING], CStr(attr) + CStr(text));
  }

  method PutFileRec(buffer: array<Byte>, pos: nat, attr: Blob, file: File) returns (end: nat)
    requires pos + |Encode(FileRec(attr, file))| <= buffer.Length
    modifies buffer
    ensures end == pos + |Encode(FileRec(attr, file))|
    ensures StringsOk(FileRec(attr, file)) ==> buffer[..end] == old(buffer[..pos]) + Encode(FileRec(attr, file))
  {
    end := PutBytes(buffer, pos, [TAG_FILE]);
    end := PutCStr(buffer, end, attr);
    end := PutCStr(buffer, end, file.name);
    end := PutU32(buffer, end, |file.data|);
    end := PutBytes(buffer, end, file.data);
    ghost var a, b, c, d := old(buffer[..pos]) + [TAG_FILE], CStr(attr), CStr(file.name), U32(|file.data|);
    Reassociate(a + b + c, d, file.data);
    Reassociate(a + b, c, d + file.data);
    Reassociate(a, b, c + (d + file.data));
    Reassociate(old(buffer[..pos]), [TAG_FILE], b + (c + (d + file.data)));
  }

  /** The three loops over the attribute maps, one after the other. */
  method PutRecs(buffer: array<Byte>, pos: nat, rs: seq<Rec>) returns (end: nat)
    requires pos + |EncodeAll(rs)| <= buffer.Length
    modifies buffer
    ensures end == pos + |EncodeAll(rs)|
    ensures AllStringsOk(rs) ==> buffer[..end] == old(buffer[..pos]) + EncodeAll(rs)
  {
    end := pos;
    for i := 0 to |rs|
      invariant end == pos + |EncodeAll(rs[..i])| <= buffer.Length
      invariant AllStringsOk(rs) ==> buffer[..end] == old(buffer[..pos]) + EncodeAll(rs[..i])
    {
      NextRecord(rs, i);
      Reassociate(old(buffer[..pos]), EncodeAll(rs[..i]), Encode(rs[i]));
      match rs[i]
      case IntRec(attr, value) => end := PutIntRec(buffer, end, attr, value);
      case StrRec(attr, text) => end := PutStrRec(buffer, end, attr, text);
      case FileRec(attr, file) => end := PutFileRec(buffer, end, attr, file);
    }
    assert rs[..|rs|] == rs;
  }

  ghost function EncodeHead(p: Prob): Blob {
    U32(p.id) + U32(p.updated) + U32(|p.deps|) + EncodeDeps(p.deps) + CStr(p.kind)
  }

  method StoreHead(p: Prob, buffer: array<Byte>) returns (pos: nat)
    requires |EncodeHead(p)| <= buffer.Length
    modifies buffer
    ensures pos == |EncodeHead(p)| && (NulFree(p.kind) ==> buffer[..pos] == EncodeHead(p))
  {
    DepsLength(p.deps);
    pos := PutU32(buffer, 0, p.id);
    pos := PutU32(buffer, pos, p.updated);
    pos := PutU32(buffer, pos, |p.deps|);
    ghost var start := U32(p.id) + U32(p.updated) + U32(|p.deps|);
    for i := 0 to |p.deps|
      invariant pos == 12 + 4 * i && buffer[..pos] == start + EncodeDeps(p.deps[..i])
    {
      DepsSnoc(p.deps[..i], p.deps[i]);
      assert p.deps[..i + 1] == p.deps[..i] + [p.deps[i]];
      pos := PutU32(buffer, pos, p.deps[i]);
    }
    assert p.deps[..|p.deps|] == p.deps;
    pos := PutCStr(buffer, pos, p.kind);
  }

  /** Writes exactly the announced number of bytes, and the message itself if its strings hold
      no NUL. */
  method Store(p: Prob, o: Order, buffer: array<Byte>) returns (used: nat)
    requires OrderOf(o, p)
    requires |EncodeProb(p, o)| <= buffer.Length
    modifies buffer
    ensures used == |EncodeProb(p, o)|
    ensures NulFree(p.kind) && AllStringsOk(Records(p, o)) ==> buffer[..used] == EncodeProb(p, o)
  {
    HeadFirst(p, o);
    used := StoreHead(p, buffer);
    used := PutRecs(buffer, used, Records(p, o));
  }

  lemma HeadFirst(p: Prob, o: Order)
    requires OrderOf(o, p)
    ensures EncodeProb(p, o) == EncodeHead(p) + EncodeAll(Records(p, o))
  {
    SixParts(U32(p.id), U32(p.updated), U32(|p.deps|), EncodeDeps(p.deps), CStr(p.kind), EncodeAll(Records(p, o)));
  }

  lemma SixParts(a: Blob, b: Blob, c: Blob, d: Blob, e: Blob, f: Blob)
    ensures a + (b + (c + (d + (e + f)))) == a + b + c + d + e + f
  {
    Reassociate(a, b, c + (d + (e + f)));
    Reassociate(a + b, c, d + (e + f));
    Reassociate(a + b + c, d, e + f);
    Reassociate(a + b + c + d, e, f);
  }

  function Continue(p: Prob, rest: Recs, used: nat): Load<Prob> {
    match rest
    case BadRecs => Refused
    case RecsOverrun => Overrun
    case Recs(recs) => Loaded(AddAll(p, recs), used)
  }

  lemma {:induction false} AddAllCons(p: Prob, r: Rec, rs: seq<Rec>)
    ensures AddAll(p, [r] + rs) == AddAll(Add(p, r), rs)
  {
    if rs == [] {
      assert [r] + rs == [r] && [r][..0] == [];
    } else {
      AddAllCons(p, r, rs[..|rs| - 1]);
      assert ([r] + rs)[..|rs|] == [r] + rs[..|rs| - 1];
    }
  }

  /** The attribute loop of load: adds one attribute at a time. */
  method LoadRecs(p0: Prob, b: Blob, used: nat) returns (r: Load<Prob>)
    ensures r == Continue(p0, ParseAll(b), used)
  {
    var p, rest := p0, b;
    while rest != []
      invariant Continue(p0, ParseAll(b), used) == Continue(p, ParseAll(rest), used)
      decreases |rest|
    {
      var one := ParseRec(rest);
      if one.BadRec? {
        return Refused;
      }
      if one.RecOverrun? {
        return Overrun;
      }
      ghost var more := ParseAll(one.rest);
      if more.Recs? {
        AddAllCons(p, one.rec, more.recs);
      }
      p, rest := Add(p, one.rec), one.rest;
    }
    r := Loaded(p, used);
  }

  method LoadProb(b: Blob) returns (r: Load<Prob>)
    ensures r == ParseProb(b)
  {
    if |b| < 8 {
      return Refused;
    }
    if |b| < 12 {
      return Overrun;
    }
    var id, updated, count := ReadU32(b), ReadU32(b[4..]), ReadU32(b[8..]);
    var deps, pos := [], 12;
    AfterNone(ReadDeps(b[12..], count));
    while |deps| < count
      invariant 12 <= pos <= |b| && |deps| <= count
      invariant ReadDeps(b[12..], count) == AfterDeps(deps, ReadDeps(b[pos..], count - |deps|))
    {
      if |b| < pos + 4 {
        return Overrun;
      }
      assert b[pos..][4..] == b[pos + 4..];
      AfterNext(deps, b[pos..], count - |deps|);
      deps, pos := deps + [ReadU32(b[pos..])], pos + 4;
    }
    var rest := b[pos..];
    assert deps + [] == deps;
    if CheckStringTerms(rest, |rest|, 1) != Enough {
      return Refused;
    }
    var kind := ReadCStr(rest);
    if kind.None? {
      return Overrun;
    }
    r := LoadRecs(Prob(id, updated, kind.value.0, deps, map[], map[], map[]), kind.value.1, |b|);
  }

  function AfterDeps(deps: seq<nat>, more: Option<(seq<nat>, Blob)>): Option<(seq<nat>, Blob)> {
    if more.None? then None else Some((deps + more.value.0, more.value.1))
  }

  lemma AfterNone(more: Option<(seq<nat>, Blob)>)
    ensures AfterDeps([], more) == more
  {
    if more.Some? {
      assert [] + more.value.0 == more.value.0;
    }
  }

  lemma AfterNext(deps: seq<nat>, b: Blob, n: nat)
    requires 0 < n && 4 <= |b|
    ensures AfterDeps(deps, ReadDeps(b, n)) == AfterDeps(deps + [ReadU32(b)], ReadDeps(b[4..], n - 1))
  {
    var more := ReadDeps(b[4..], n - 1);
    if more.Some? {
      assert deps + ([ReadU32(b)] + more.value.0) == deps + [ReadU32(b)] + more.value.0;
    }
  }
}
