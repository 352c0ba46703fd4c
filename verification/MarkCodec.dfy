/** Mark messages: MarkMessage in src/act_mark.C. */
module MarkCodec {
  import opened Bytes
  import opened BufferWriter
  import opened LoadResults

  datatype Mark = Mark(submission: nat, marker: nat, result: nat, time: nat, server: nat,
                       comment: Blob, files: seq<File>)

  ghost predicate FileFits(f: File) {
    NulFree(f.name) && |f.data| < TWO32
  }

  ghost predicate Fits(m: Mark) {
    && m.submission < TWO32 && m.marker < TWO32 && m.result < TWO32 && m.time < TWO32 && m.server < TWO32
    && NulFree(m.comment)
    && forall i :: 0 <= i < |m.files| ==> FileFits(m.files[i])
  }

  function EncodeFile(f: File): Blob {
    CStr(f.name) + (U32(|f.data|) + f.data)
  }

  function EncodeFiles(fs: seq<File>): Blob {
    if fs == [] then [] else EncodeFile(fs[0]) + EncodeFiles(fs[1..])
  }

  function EncodeMark(m: Mark): Blob {
    U32(m.submission) + (U32(m.marker) + (U32(m.result) + (U32(m.time) + (U32(m.server)
    + (CStr(m.comment) + EncodeFiles(m.files))))))
  }

  // ---------------------------------------------------------------- load

  datatype Files = Files(files: seq<File>, left: nat) | BadFiles | FilesOverrun

  /** The file loop of load: it goes on while there is room for a length field and a NUL
      before it; what is left over at the end is only logged. */
  function ParseFiles(b: Blob): (r: Files)
    ensures r.Files? ==> r.left <= |b|
    decreases |b|
  {
    if |b| <= 4 || CheckStringTerms(b, |b| - 4, 1) != Enough then Files([], |b|) else
      var name := ReadCStr(b);
      if name.None? || |name.value.1| < 4 then FilesOverrun else
        var len, rest := ReadU32(name.value.1), name.value.1[4..];
        if |rest| < len then BadFiles else
          var more := ParseFiles(rest[len..]);
          if more.Files? then Files([File(name.value.0, rest[..len])] + more.files, more.left) else more
  }

  function ParseMark(b: Blob): Load<Mark> {
    if |b| < 20 || CheckStringTerms(b[20..], |b| - 20, 1) != Enough then Refused else
      var comment := ReadCStr(b[20..]);
      if comment.None? then Overrun else
        match ParseFiles(comment.value.1)
        case BadFiles => Refused
        case FilesOverrun => Overrun
        case Files(files, left) =>
          Loaded(Mark(ReadU32(b), ReadU32(b[4..]), ReadU32(b[8..]), ReadU32(b[12..]), ReadU32(b[16..]),
                      comment.value.0, files), |b| - left)
  }

  lemma FileBack(f: File, rest: Blob)
    requires FileFits(f)
    ensures var b := EncodeFile(f) + rest; var more := ParseFiles(rest);
            ParseFiles(b) == if more.Files? then Files([f] + more.files, more.left) else more
  {
    var tail := U32(|f.data|) + (f.data + rest);
    var b := EncodeFile(f) + rest;
    assert b == CStr(f.name) + tail;
    CheckSkips(f.name, tail, |b| - 4, 1);
    ReadBackCStr(f.name, tail);
    ReadBack(|f.data|, f.data + rest);
    assert (f.data + rest)[..|f.data|] == f.data && (f.data + rest)[|f.data|..] == rest;
  }

  lemma {:induction false} FilesBack(fs: seq<File>)
    requires forall i :: 0 <= i < |fs| ==> FileFits(fs[i])
    ensures ParseFiles(EncodeFiles(fs)) == Files(fs, 0)
  {
    if fs != [] {
      var rest := fs[1..];
      assert ParseFiles(EncodeFiles(rest)) == Files(rest, 0) by {
        FilesBack(rest);
      }
      FileBack(fs[0], EncodeFiles(rest));
      assert fs == [fs[0]] + rest;
    }
  }

  /** Loading what was stored gives the same mark and uses every stored byte, no more. */
  lemma MarkRoundTrip(m: Mark)
    requires Fits(m)
    ensures ParseMark(EncodeMark(m)) == Loaded(m, |EncodeMark(m)|)
  {
    var t5 := CStr(m.comment) + EncodeFiles(m.files);
    var t4 := U32(m.server) + t5;
    var t3 := U32(m.time) + t4;
    var t2 := U32(m.result) + t3;
    var t1 := U32(m.marker) + t2;
    var b := U32(m.submission) + t1;
    ReadBack(m.submission, t1);
    ReadBack(m.marker, t2);
    ReadBack(m.result, t3);
    ReadBack(m.time, t4);
    ReadBack(m.server, t5);
    assert b[8..] == t1[4..] && b[12..] == t2[4..] && b[16..] == t3[4..] && b[20..] == t4[4..];
    CheckSkips(m.comment, EncodeFiles(m.files), |t5|, 1);
    ReadBackCStr(m.comment, EncodeFiles(m.files));
    FilesBack(m.files);
  }

  /** Where the fields of a stored mark are: every server reads them from these places. */
  lemma MarkLayout(m: Mark)
    requires Fits(m)
    ensures var b := EncodeMark(m);
            && 21 <= |b| && ReadU32(b) == m.submission && ReadU32(b[4..]) == m.marker && ReadU32(b[8..]) == m.result
            && ReadU32(b[12..]) == m.time && ReadU32(b[16..]) == m.server
            && b[20..20 + |m.comment| + 1] == m.comment + [0]
  {
    var t5 := CStr(m.comment) + EncodeFiles(m.files);
    var t4 := U32(m.server) + t5;
    var t3 := U32(m.time) + t4;
    var t2 := U32(m.result) + t3;
    var t1 := U32(m.marker) + t2;
    var b := U32(m.submission) + t1;
    ReadBack(m.submission, t1);
    ReadBack(m.marker, t2);
    ReadBack(m.result, t3);
    ReadBack(m.time, t4);
    ReadBack(m.server, t5);
    assert b[4..] == t1 && b[8..] == t2 && b[12..] == t3 && b[16..] == t4 && b[20..] == t5;
    assert t5[..|m.comment| + 1] == CStr(m.comment);
  }

  lemma {:induction false} FilesStayInside(b: Blob)
    ensures ParseFiles(b) != FilesOverrun
    decreases |b|
  {
    if |b| > 4 && CheckStringTerms(b, |b| - 4, 1) == Enough {
      CheckFinds(b, |b| - 4);
      var rest := ReadCStr(b).value.1;
      if ReadU32(rest) <= |rest[4..]| {
        FilesStayInside(rest[4..][ReadU32(rest)..]);
      }
    }
  }

  /** Whatever the strings hold, loading the stored bytes gives the mark up to the NULs in them. */
  lemma StoredLoads(m: Mark)
    requires m.submission < TWO32 && m.marker < TWO32 && m.result < TWO32 && m.time < TWO32 && m.server < TWO32
    requires forall i :: 0 <= i < |m.files| ==> |m.files[i].data| < TWO32
    ensures ParseMark(EncodeMark(Clip(m))) == Loaded(Clip(m), |EncodeMark(Clip(m))|)
  {
    MarkRoundTrip(Clip(m));
  }

  /** Whatever the buffer holds, load stays inside it. */
  lemma NeverOverruns(b: Blob)
    ensures ParseMark(b) != Overrun
  {
    if |b| >= 20 && CheckStringTerms(b[20..], |b| - 20, 1) == Enough {
      CheckFinds(b[20..], |b| - 20);
      FilesStayInside(ReadCStr(b[20..]).value.1);
    }
  }

  method LoadFiles(b: Blob) returns (r: Files)
    ensures r == ParseFiles(b)
  {
    var files: seq<File>, rest := [], b;
    assert After([], ParseFiles(b)) == ParseFiles(b) by { AfterNone(ParseFiles(b)); }
    while |rest| > 4 && CheckStringTerms(rest, |rest| - 4, 1) == Enough
      invariant ParseFiles(b) == After(files, ParseFiles(rest))
      decreases |rest|
    {
      var name := ReadCStr(rest);
      if name.None? || |name.value.1| < 4 {
        return FilesOverrun;
      }
      var len, tail := ReadU32(name.value.1), name.value.1[4..];
      if |tail| < len {
        return BadFiles;
      }
      AfterNext(files, File(name.value.0, tail[..len]), ParseFiles(tail[len..]));
      files, rest := files + [File(name.value.0, tail[..len])], tail[len..];
    }
    assert files + [] == files;
    r := Files(files, |rest|);
  }

  function After(files: seq<File>, more: Files): Files {
    if more.Files? then Files(files + more.files, more.left) else more
  }

  lemma AfterNone(more: Files)
    ensures After([], more) == more
  {
    if more.Files? {
      assert [] + more.files == more.files;
    }
  }

  lemma AfterNext(files: seq<File>, f: File, more: Files)
    ensures After(files + [f], more) == After(files, After([f], more))
  {
    if more.Files? {
      assert files + [f] + more.files == files + ([f] + more.files);
    }
  }

  method LoadMark(b: Blob) returns (r: Load<Mark>)
    ensures r == ParseMark(b)
  {
    if |b| < 20 {
      return Refused;
    }
    var rest := b[20..];
    if CheckStringTerms(rest, |rest|, 1) != Enough {
      return Refused;
    }
    var comment := ReadCStr(rest);
    if comment.None? {
      return Overrun;
    }
    var files := LoadFiles(comment.value.1);
    match files
    case BadFiles => r := Refused;
    case FilesOverrun => r := Overrun;
    case Files(fs, left) =>
      r := Loaded(Mark(ReadU32(b), ReadU32(b[4..]), ReadU32(b[8..]), ReadU32(b[12..]), ReadU32(b[16..]),
                       comment.value.0, fs), |b| - left);
  }

  // ---------------------------------------------------------------- storageRequired, store

  lemma {:induction false} FilesSplit(a: seq<File>, b: seq<File>)
    ensures EncodeFiles(a + b) == EncodeFiles(a) + EncodeFiles(b)
  {
    if a == [] {
      assert a + b == b;
    } else {
      var a1 := a[1..];
      assert (a + b)[0] == a[0] && (a + b)[1..] == a1 + b;
      assert EncodeFiles(a1 + b) == EncodeFiles(a1) + EncodeFiles(b) by {
        FilesSplit(a1, b);
      }
      Reassociate(EncodeFile(a[0]), EncodeFiles(a1), EncodeFiles(b));
    }
  }

  lemma SingleFile(f: File)
    ensures EncodeFiles([f]) == EncodeFile(f)
  {
    assert [f][1..] == [];
  }

  lemma NextFile(fs: seq<File>, i: nat)
    requires i < |fs|
    ensures EncodeFiles(fs[..i + 1]) == EncodeFiles(fs[..i]) + EncodeFile(fs[i])
    ensures |EncodeFiles(fs[..i + 1])| <= |EncodeFiles(fs)|
  {
    var pre, post := fs[..i], fs[i + 1..];
    assert fs[..i + 1] == pre + [fs[i]] && fs == pre + [fs[i]] + post;
    FilesSplit(pre, [fs[i]]);
    SingleFile(fs[i]);
    FilesSplit(pre + [fs[i]], post);
  }

  method StorageRequired(m: Mark) returns (required: nat)
    ensures required == |EncodeMark(m)|
  {
    required := 20 + |m.comment| + 1;
    for i := 0 to |m.files|
      invariant required == 20 + |m.comment| + 1 + |EncodeFiles(m.files[..i])|
    {
      NextFile(m.files, i);
      required := required + |m.files[i].name| + 1 + 4 + |m.files[i].data|;
    }
    assert m.files[..|m.files|] == m.files;
  }

  // The strings of a mark are copied up to their first NUL, and the next field follows there.

  function ClipFile(f: File): File {
    f.(name := Text(f.name))
  }

  function ClipFiles(fs: seq<File>): (r: seq<File>)
    ensures |r| == |fs| && forall i :: 0 <= i < |fs| ==> r[i] == ClipFile(fs[i])
  {
    if fs == [] then [] else [ClipFile(fs[0])] + ClipFiles(fs[1..])
  }

  /** The mark without what follows a NUL in the comment or in a file name. */
  function Clip(m: Mark): Mark {
    m.(comment := Text(m.comment), files := ClipFiles(m.files))
  }

  ghost predicate NamesNulFree(fs: seq<File>) {
    forall i :: 0 <= i < |fs| ==> NulFree(fs[i].name)
  }

  lemma {:induction false} ClippedLength(fs: seq<File>)
    ensures |EncodeFiles(ClipFiles(fs))| <= |EncodeFiles(fs)|
    ensures |EncodeFiles(ClipFiles(fs))| == |EncodeFiles(fs)| <==> NamesNulFree(fs)
  {
    if fs != [] {
      var f, rest := fs[0], fs[1..];
      ClippedLength(rest);
      FirstName(fs, f, rest);
      ClippedFile(f);
    }
  }

  lemma FirstName(fs: seq<File>, f: File, rest: seq<File>)
    requires fs != [] && f == fs[0] && rest == fs[1..]
    ensures NamesNulFree(fs) <==> NulFree(f.name) && NamesNulFree(rest)
    ensures |EncodeFiles(fs)| == |EncodeFile(f)| + |EncodeFiles(rest)|
    ensures |EncodeFiles(ClipFiles(fs))| == |EncodeFile(ClipFile(f))| + |EncodeFiles(ClipFiles(rest))|
  {
    assert ClipFiles(fs)[1..] == ClipFiles(rest);
    assert fs == [f] + rest;
  }

  lemma ClippedFile(f: File)
    ensures |EncodeFile(ClipFile(f))| <= |EncodeFile(f)|
    ensures |EncodeFile(ClipFile(f))| == |EncodeFile(f)| <==> NulFree(f.name)
  {
    TextWhole(f.name);
  }

  /** Store needs no more than what was announced, and as much exactly when neither the comment
      nor a file name holds a NUL; then it writes the mark unchanged. */
  lemma FillsExactlyWhen(m: Mark)
    ensures |EncodeMark(Clip(m))| <= |EncodeMark(m)|
    ensures |EncodeMark(Clip(m))| == |EncodeMark(m)| <==> NulFree(m.comment) && NamesNulFree(m.files)
    ensures |EncodeMark(Clip(m))| == |EncodeMark(m)| <==> Clip(m) == m
  {
    ClippedLength(m.files);
    TextWhole(m.comment);
    if NamesNulFree(m.files) {
      forall i | 0 <= i < |m.files| ensures ClipFile(m.files[i]) == m.files[i] {
        TextWhole(m.files[i].name);
      }
      assert ClipFiles(m.files) == m.files;
    }
  }

  method PutFile(buffer: array<Byte>, pos: nat, f: File) returns (end: nat)
    requires pos + |EncodeFile(f)| <= buffer.Length
    modifies buffer
    ensures end == pos + |EncodeFile(ClipFile(f))|
    ensures buffer[..end] == old(buffer[..pos]) + EncodeFile(ClipFile(f))
  {
    end := PutText(buffer, pos, f.name);
    end := PutU32(buffer, end, |f.data|);
    end := PutBytes(buffer, end, f.data);
    Reassociate(old(buffer[..pos]) + CStr(Text(f.name)), U32(|f.data|), f.data);
    Reassociate(old(buffer[..pos]), CStr(Text(f.name)), U32(|f.data|) + f.data);
  }

  function EncodeHead(m: Mark): Blob {
    U32(m.submission) + U32(m.marker) + U32(m.result) + U32(m.time) + U32(m.server) + CStr(m.comment)
  }

  lemma HeadFirst(m: Mark)
    ensures EncodeMark(m) == EncodeHead(m) + EncodeFiles(m.files)
  {
  }

  method Store(m: Mark, buffer: array<Byte>) returns (used: nat)
    requires |EncodeMark(m)| <= buffer.Length
    modifies buffer
    ensures used == |EncodeMark(Clip(m))| <= buffer.Length
    ensures buffer[..used] == EncodeMark(Clip(m))
  {
    HeadFirst(m);
    HeadFirst(Clip(m));
    used := StoreHead(m, buffer);
    ghost var head, files := EncodeHead(Clip(m)), ClipFiles(m.files);
    for i := 0 to |m.files|
      invariant used == |head| + |EncodeFiles(files[..i])| <= |EncodeHead(m)| + |EncodeFiles(m.files[..i])| <= buffer.Length
      invariant buffer[..used] == head + EncodeFiles(files[..i])
    {
      NextFile(m.files, i);
      NextFile(files, i);
      Reassociate(head, EncodeFiles(files[..i]), EncodeFile(files[i]));
      used := PutFile(buffer, used, m.files[i]);
    }
    assert files[..|m.files|] == files;
  }

  method StoreHead(m: Mark, buffer: array<Byte>) returns (used: nat)
    requires |EncodeHead(m)| <= buffer.Length
    modifies buffer
    ensures used == |EncodeHead(Clip(m))| <= |EncodeHead(m)| && buffer[..used] == EncodeHead(Clip(m))
  {
    used := PutU32(buffer, 0, m.submission);
    used := PutU32(buffer, used, m.marker);
    used := PutU32(buffer, used, m.result);
    used := PutU32(buffer, used, m.time);
    used := PutU32(buffer, used, m.server);
    used := PutText(buffer, used, m.comment);
  }
}
