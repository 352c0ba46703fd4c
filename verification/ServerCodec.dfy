/** Create-server messages: src/message_createserver.C. */
module ServerCodec {
  import opened Bytes
  import opened BufferWriter
  import opened LoadResults
  import opened Options

  datatype NewServer = NewServer(id: nat, name: Blob, attribs: map<Blob, Blob>)

  ghost predicate Fits(s: NewServer) {
    s.id < TWO32 && StringsFit(s)
  }

  ghost predicate StringsFit(s: NewServer) {
    NulFree(s.name) && forall k :: k in s.attribs ==> NulFree(k) && NulFree(s.attribs[k])
  }

  /** An order in which the attribute map is walked; any order of the keys will do. */
  ghost predicate OrderOf(order: seq<Blob>, s: NewServer) {
    forall k :: k in order <==> k in s.attribs
  }

  function Pairs(s: NewServer, order: seq<Blob>): (ps: seq<(Blob, Blob)>)
    requires OrderOf(order, s)
    ensures |ps| == |order|
  {
    seq(|order|, i requires 0 <= i < |order| => assert order[i] in order; (order[i], s.attribs[order[i]]))
  }

  function EncodePair(p: (Blob, Blob)): Blob {
    CStr(p.0) + CStr(p.1)
  }

  function EncodePairs(ps: seq<(Blob, Blob)>): Blob {
    if ps == [] then [] else EncodePair(ps[0]) + EncodePairs(ps[1..])
  }

  function EncodeServer(s: NewServer, order: seq<Blob>): Blob
    requires OrderOf(order, s)
  {
    U32(s.id) + (CStr(s.name) + EncodePairs(Pairs(s, order)))
  }

  // ---------------------------------------------------------------- load

  /** Reads pairs of strings while more than one of the counted NULs is left. */
  function ParsePairs(b: Blob, zeros: nat): (r: Option<(seq<(Blob, Blob)>, Blob)>)
    ensures r.Some? ==> |r.value.1| <= |b|
    decreases zeros
  {
    if zeros <= 1 then Some(([], b)) else
      var name := ReadCStr(b);
      if name.None? then None else
        var value := ReadCStr(name.value.1);
        if value.None? then None else
          var more := ParsePairs(value.value.1, zeros - 2);
          if more.None? then None
          else Some(([(name.value.0, value.value.0)] + more.value.0, more.value.1))
  }

  function ToMap(ps: seq<(Blob, Blob)>): map<Blob, Blob> {
    if ps == [] then map[] else ToMap(ps[..|ps| - 1])[ps[|ps| - 1].0 := ps[|ps| - 1].1]
  }

  function ParseServer(b: Blob): Load<NewServer> {
    if |b| < 4 || Zeros(b[4..]) == 0 then Refused else
      var name := ReadCStr(b[4..]);
      if name.None? then Overrun else
        var pairs := ParsePairs(name.value.1, Zeros(b[4..]) - 1);
        if pairs.None? then Overrun
        else Loaded(NewServer(ReadU32(b), name.value.0, ToMap(pairs.value.0)), |b| - |pairs.value.1|)
  }

  lemma {:induction false} PairsStayInside(b: Blob, zeros: nat)
    requires zeros <= Zeros(b)
    ensures ParsePairs(b, zeros).Some?
    decreases zeros
  {
    if zeros > 1 {
      ZerosFind(b);
      ZerosFind(ReadCStr(b).value.1);
      PairsStayInside(ReadCStr(ReadCStr(b).value.1).value.1, zeros - 2);
    }
  }

  /** Whatever the buffer holds, counting the NULs first keeps load inside it. */
  lemma NeverOverruns(b: Blob)
    ensures ParseServer(b) != Overrun
    ensures ParseServer(b) == Refused <==> |b| < 4 || Zeros(b[4..]) == 0
  {
    if |b| >= 4 && Zeros(b[4..]) > 0 {
      ZerosFind(b[4..]);
      PairsStayInside(ReadCStr(b[4..]).value.1, Zeros(b[4..]) - 1);
    }
  }

  ghost predicate PairsFit(ps: seq<(Blob, Blob)>) {
    forall i :: 0 <= i < |ps| ==> NulFree(ps[i].0) && NulFree(ps[i].1)
  }

  lemma {:induction false} PairsZeros(ps: seq<(Blob, Blob)>)
    requires PairsFit(ps)
    ensures Zeros(EncodePairs(ps)) == 2 * |ps|
  {
    if ps != [] {
      PairsZeros(ps[1..]);
      ZerosSplit(EncodePair(ps[0]), EncodePairs(ps[1..]));
      ZerosSplit(CStr(ps[0].0), CStr(ps[0].1));
      ZerosCStr(ps[0].0);
      ZerosCStr(ps[0].1);
    }
  }

  lemma {:induction false} PairsBack(ps: seq<(Blob, Blob)>)
    requires PairsFit(ps)
    ensures ParsePairs(EncodePairs(ps), 2 * |ps|) == Some((ps, []))
  {
    if ps != [] {
      var p, rest := ps[0], EncodePairs(ps[1..]);
      assert ParsePairs(rest, 2 * |ps| - 2) == Some((ps[1..], [])) by {
        PairsBack(ps[1..]);
      }
      Reassociate(CStr(p.0), CStr(p.1), rest);
      ReadBackCStr(p.0, CStr(p.1) + rest);
      ReadBackCStr(p.1, rest);
      assert ps == [ps[0]] + ps[1..];
    }
  }

  lemma {:induction false} ToMapPrefix(s: NewServer, order: seq<Blob>, n: nat)
    requires OrderOf(order, s) && n <= |order|
    ensures ToMap(Pairs(s, order)[..n]) == map k | k in s.attribs && k in order[..n] :: s.attribs[k]
  {
    if n > 0 {
      ToMapPrefix(s, order, n - 1);
      assert Pairs(s, order)[..n][..n - 1] == Pairs(s, order)[..n - 1];
      assert order[n - 1] in order;
      assert order[..n] == order[..n - 1] + [order[n - 1]];
    }
  }

  lemma ToMapBack(s: NewServer, order: seq<Blob>)
    requires OrderOf(order, s)
    ensures ToMap(Pairs(s, order)) == s.attribs
  {
    ToMapPrefix(s, order, |order|);
    assert Pairs(s, order)[..|order|] == Pairs(s, order) && order[..|order|] == order;
  }

  /** Loading what was stored gives the same message, also when ids or attributes are such
      that the four id bytes contain NULs. */
  lemma ServerRoundTrip(s: NewServer, order: seq<Blob>)
    requires Fits(s) && OrderOf(order, s)
    ensures ParseServer(EncodeServer(s, order)) == Loaded(s, |EncodeServer(s, order)|)
  {
    var ps := Pairs(s, order);
    var tail := EncodePairs(ps);
    ReadBack(s.id, CStr(s.name) + tail);
    ReadBackCStr(s.name, tail);
    ZerosSplit(CStr(s.name), tail);
    ZerosCStr(s.name);
    PairsZeros(ps);
    PairsBack(ps);
    ToMapBack(s, order);
  }

  method CountZeros(b: Blob) returns (n: nat)
    requires 4 <= |b|
    ensures n == Zeros(b[4..])
  {
    n := 0;
    for offset := 4 to |b|
      invariant n == Zeros(b[4..offset])
    {
      ZerosSplit(b[4..offset], [b[offset]]);
      assert b[4..offset + 1] == b[4..offset] + [b[offset]];
      if b[offset] == 0 {
        n := n + 1;
      }
    }
    assert b[4..|b|] == b[4..];
  }

  function With(attribs: map<Blob, Blob>, ps: seq<(Blob, Blob)>): map<Blob, Blob> {
    attribs + ToMap(ps)
  }

  lemma {:induction false} ToMapCons(p: (Blob, Blob), ps: seq<(Blob, Blob)>)
    ensures ToMap([p] + ps) == map[p.0 := p.1] + ToMap(ps)
  {
    if ps == [] {
      assert [p] + ps == [p] && [p][..0] == [];
    } else {
      ToMapCons(p, ps[..|ps| - 1]);
      assert ([p] + ps)[..|ps|] == [p] + ps[..|ps| - 1];
    }
  }

  method LoadServer(b: Blob) returns (r: Load<NewServer>)
    ensures r == ParseServer(b)
  {
    if |b| < 4 {
      return Refused;
    }
    var zeros := CountZeros(b);
    if zeros == 0 {
      return Refused;
    }
    NeverOverruns(b);
    var name := ReadCStr(b[4..]).value;
    zeros := zeros - 1;
    var attribs: map<Blob, Blob>, rest := map[], name.1;
    ghost var all := ParsePairs(name.1, zeros);
    assert With(map[], all.value.0) == ToMap(all.value.0);
    while zeros > 1
      invariant ParsePairs(rest, zeros).Some?
      invariant all.Some? && ParsePairs(rest, zeros).value.1 == all.value.1
      invariant With(attribs, ParsePairs(rest, zeros).value.0) == ToMap(all.value.0)
    {
      var attrib := ReadCStr(rest).value;
      var value := ReadCStr(attrib.1).value;
      NextPair(attribs, rest, zeros);
      attribs := attribs[attrib.0 := value.0];
      rest, zeros := value.1, zeros - 2;
    }
    assert With(attribs, []) == attribs;
    r := Loaded(NewServer(ReadU32(b), name.0, attribs), |b| - |rest|);
  }

  lemma NextPair(attribs: map<Blob, Blob>, b: Blob, zeros: nat)
    requires zeros > 1 && ParsePairs(b, zeros).Some?
    ensures var name := ReadCStr(b).value; var value := ReadCStr(name.1).value;
            With(attribs, ParsePairs(b, zeros).value.0) ==
            With(attribs[name.0 := value.0], ParsePairs(value.1, zeros - 2).value.0)
  {
    var name := ReadCStr(b).value;
    var value := ReadCStr(name.1).value;
    var more := ParsePairs(value.1, zeros - 2).value.0;
    ToMapCons((name.0, value.0), more);
    assert attribs + (map[name.0 := value.0] + ToMap(more)) == attribs[name.0 := value.0] + ToMap(more);
  }

  // ---------------------------------------------------------------- storageRequired, store

  lemma {:induction false} PairsSplit(a: seq<(Blob, Blob)>, b: seq<(Blob, Blob)>)
    ensures EncodePairs(a + b) == EncodePairs(a) + EncodePairs(b)
  {
    if a == [] {
      assert a + b == b;
    } else {
      var a1 := a[1..];
      assert (a + b)[0] == a[0] && (a + b)[1..] == a1 + b;
      assert EncodePairs(a1 + b) == EncodePairs(a1) + EncodePairs(b) by {
        PairsSplit(a1, b);
      }
      Reassociate(EncodePair(a[0]), EncodePairs(a1), EncodePairs(b));
    }
  }

  lemma SinglePair(p: (Blob, Blob))
    ensures EncodePairs([p]) == EncodePair(p)
  {
    assert [p][1..] == [];
  }

  lemma NextEncoded(ps: seq<(Blob, Blob)>, i: nat)
    requires i < |ps|
    ensures EncodePairs(ps[..i + 1]) == EncodePairs(ps[..i]) + EncodePair(ps[i])
    ensures |EncodePairs(ps[..i + 1])| <= |EncodePairs(ps)|
  {
    var pre, post := ps[..i], ps[i + 1..];
    assert ps[..i + 1] == pre + [ps[i]] && ps == pre + [ps[i]] + post;
    PairsSplit(pre, [ps[i]]);
    SinglePair(ps[i]);
    PairsSplit(pre + [ps[i]], post);
  }

  method StorageRequired(s: NewServer, order: seq<Blob>) returns (required: nat)
    requires OrderOf(order, s)
    ensures required == |EncodeServer(s, order)|
  {
    required := 4 + |s.name| + 1;
    ghost var ps := Pairs(s, order);
    for i := 0 to |order|
      invariant required == 4 + |s.name| + 1 + |EncodePairs(ps[..i])|
    {
      NextEncoded(ps, i);
      assert order[i] in order;
      required := required + |order[i]| + |s.attribs[order[i]]| + 2;
    }
    assert ps[..|order|] == ps;
  }

  /** Refuses a buffer smaller than required; otherwise fills what is required, with the message
      itself if its strings hold no NUL. */
  method Store(s: NewServer, order: seq<Blob>, buffer: array<Byte>) returns (used: Option<nat>)
    requires OrderOf(order, s)
    modifies buffer
    ensures used.None? <==> buffer.Length < |EncodeServer(s, order)|
    ensures used.None? ==> buffer[..] == old(buffer[..])
    ensures used.Some? ==> used.value == |EncodeServer(s, order)|
    ensures used.Some? && StringsFit(s) ==> buffer[..used.value] == EncodeServer(s, order)
  {
    var required := StorageRequired(s, order);
    if buffer.Length < required {
      return None;
    }
    var pos := PutU32(buffer, 0, s.id);
    pos := PutCStr(buffer, pos, s.name);
    ghost var ps, head := Pairs(s, order), U32(s.id) + CStr(s.name);
    Reassociate(U32(s.id), CStr(s.name), EncodePairs(ps));
    for i := 0 to |order|
      invariant pos == |head| + |EncodePairs(ps[..i])| <= buffer.Length
      invariant StringsFit(s) ==> buffer[..pos] == head + EncodePairs(ps[..i])
    {
      NextEncoded(ps, i);
      assert order[i] in order;
      pos := PutPair(buffer, pos, order[i], s.attribs[order[i]]);
      Reassociate(head, EncodePairs(ps[..i]), EncodePair(ps[i]));
    }
    assert ps[..|order|] == ps;
    used := Some(pos);
  }

  method PutPair(buffer: array<Byte>, pos: nat, name: Blob, value: Blob) returns (end: nat)
    requires pos + |EncodePair((name, value))| <= buffer.Length
    modifies buffer
    ensures end == pos + |EncodePair((name, value))|
    ensures NulFree(name) && NulFree(value) ==> buffer[..end] == old(buffer[..pos]) + EncodePair((name, value))
  {
    end := PutCStr(buffer, pos, name);
    end := PutCStr(buffer, end, value);
    Reassociate(old(buffer[..pos]), CStr(name), CStr(value));
  }
}
