/** Bytes, C strings and the 32-bit fields that messages and frames are made of. */
module Bytes {
  import opened Options

  type Byte = b: int | 0 <= b < 256

  type Blob = seq<Byte>

  /** A message is identified by the server that made it and a number on that server. */
  datatype Key = Key(server: nat, message: nat)

  /** A file that a message carries. */
  datatype File = File(name: Blob, data: Blob)

  const TWO32 := 0x1_0000_0000

  // ---------------------------------------------------------------- 32-bit fields

  /** A 32-bit field in memory, least significant byte first. */
  function U32(n: nat): (b: Blob)
    ensures |b| == 4
  {
    [n % 0x100, n / 0x100 % 0x100, n / 0x100 / 0x100 % 0x100, n / 0x100 / 0x100 / 0x100 % 0x100]
  }

  function ReadU32(b: Blob): (n: nat)
    requires 4 <= |b|
    ensures n < TWO32
  {
    var b0: int, b1: int, b2: int, b3: int := b[0], b[1], b[2], b[3];
    b0 + 0x100 * (b1 + 0x100 * (b2 + 0x100 * b3))
  }

  lemma ReadBack(n: nat, rest: Blob)
    requires n < TWO32
    ensures ReadU32(U32(n) + rest) == n
    ensures (U32(n) + rest)[4..] == rest
  {
  }

  /** Two's complement of a 32-bit signed integer, and back. */
  function Unsigned(v: int): nat {
    v % TWO32
  }

  function Signed(n: nat): int {
    if n < 0x8000_0000 then n else n - TWO32
  }

  /** Subtraction on 32-bit unsigned sizes wraps around. */
  function Sub32(a: nat, b: nat): nat {
    (a - b) % TWO32
  }

  // ---------------------------------------------------------------- C strings

  ghost predicate NulFree(s: Blob) {
    forall i :: 0 <= i < |s| ==> s[i] != 0
  }

  function CStr(s: Blob): Blob {
    s + [0]
  }

  /** A string as C sees it: what comes before the first NUL. */
  function Text(s: Blob): (t: Blob)
    ensures |t| <= |s| && t == s[..|t|] && NulFree(t)
    ensures |t| < |s| ==> s[|t|] == 0
  {
    if s == [] || s[0] == 0 then [] else [s[0]] + Text(s[1..])
  }

  lemma TextWhole(s: Blob)
    ensures |Text(s)| == |s| <==> NulFree(s)
    ensures Text(s) == s <==> NulFree(s)
  {
  }

  /** strcpy over bytes that were there before: those beyond the terminator stay. */
  function Copied(s: Blob, was: Blob): (b: Blob)
    requires |was| == |s| + 1
    ensures |b| == |s| + 1
  {
    CStr(Text(s)) + was[|Text(s)| + 1..]
  }

  /** A copied string is there in full, whatever was there before, exactly when it holds no NUL. */
  lemma CopiedExactlyWhen(s: Blob)
    ensures (forall was: Blob :: |was| == |s| + 1 ==> Copied(s, was) == CStr(s)) <==> NulFree(s)
  {
    TextWhole(s);
    if !NulFree(s) {
      var was := seq(|s| + 1, i => 1 as Byte);
      assert Copied(s, was)[|s|] == 1;
    }
  }

  /** Reads a C string: the text up to the first NUL and what follows it, or None when the
      buffer ends first. */
  function ReadCStr(b: Blob): (r: Option<(Blob, Blob)>)
    ensures r.Some? ==> NulFree(r.value.0) && b == CStr(r.value.0) + r.value.1
  {
    if b == [] then None
    else if b[0] == 0 then Some(([], b[1..]))
    else
      var r := ReadCStr(b[1..]);
      if r.None? then None else Some(([b[0]] + r.value.0, r.value.1))
  }

  lemma {:induction false} ReadBackCStr(s: Blob, rest: Blob)
    requires NulFree(s)
    ensures ReadCStr(CStr(s) + rest) == Some((s, rest))
  {
    var b := CStr(s) + rest;
    if s == [] {
      assert b[1..] == rest;
    } else {
      ReadBackCStr(s[1..], rest);
      assert b[1..] == CStr(s[1..]) + rest;
      assert s == [s[0]] + s[1..];
    }
  }

  datatype Check = Enough | TooFew | PastEnd

  /** checkStringTerms: are there `zeros` NULs in the first `size` bytes? Reading stops as soon
      as there are; with a `size` beyond the buffer it may run past the end. */
  function CheckStringTerms(b: Blob, size: nat, zeros: nat): Check {
    if zeros == 0 then Enough
    else if size == 0 then TooFew
    else if b == [] then PastEnd
    else CheckStringTerms(b[1..], size - 1, if b[0] == 0 then zeros - 1 else zeros)
  }

  lemma {:induction false} CheckSkips(s: Blob, rest: Blob, size: nat, zeros: nat)
    requires NulFree(s) && 1 <= zeros && |s| + 1 <= size
    ensures CheckStringTerms(CStr(s) + rest, size, zeros) == CheckStringTerms(rest, size - |s| - 1, zeros - 1)
  {
    var b := CStr(s) + rest;
    if s == [] {
      assert b[1..] == rest;
    } else {
      CheckSkips(s[1..], rest, size - 1, zeros);
      assert b[1..] == CStr(s[1..]) + rest;
    }
  }

  /** A successful check for one NUL guarantees a string that ends within the checked part. */
  lemma {:induction false} CheckFinds(b: Blob, size: nat)
    requires size <= |b| && CheckStringTerms(b, size, 1) == Enough
    ensures ReadCStr(b).Some? && |b| - size <= |ReadCStr(b).value.1| < |b|
  {
    if b[0] != 0 {
      CheckFinds(b[1..], size - 1);
    }
  }

  function Zeros(b: Blob): nat {
    if b == [] then 0 else (if b[0] == 0 then 1 else 0) + Zeros(b[1..])
  }

  lemma {:induction false} ZerosFind(b: Blob)
    ensures 0 < Zeros(b) ==> ReadCStr(b).Some? && Zeros(ReadCStr(b).value.1) == Zeros(b) - 1
    ensures 0 < Zeros(b) ==> |ReadCStr(b).value.1| < |b|
  {
    if b != [] && b[0] != 0 {
      ZerosFind(b[1..]);
    }
  }

  /** Within the buffer the check is the comparison of two counts. */
  lemma {:induction false} CheckCounts(b: Blob, zeros: nat)
    ensures CheckStringTerms(b, |b|, zeros) == if zeros <= Zeros(b) then Enough else TooFew
  {
    if b != [] && zeros > 0 {
      CheckCounts(b[1..], if b[0] == 0 then zeros - 1 else zeros);
    }
  }

  lemma {:induction false} ZerosSplit(a: Blob, b: Blob)
    ensures Zeros(a + b) == Zeros(a) + Zeros(b)
  {
    if a == [] {
      assert a + b == b;
    } else {
      ZerosSplit(a[1..], b);
      assert (a + b)[1..] == a[1..] + b;
    }
  }

  lemma {:induction false} ZerosCStr(s: Blob)
    requires NulFree(s)
    ensures Zeros(CStr(s)) == 1
  {
    if s != [] {
      ZerosCStr(s[1..]);
      assert CStr(s)[1..] == CStr(s[1..]);
    }
  }

  /** The loop of checkStringTerms. */
  method CheckTerms(buf: Blob, size: nat, zeros: nat) returns (r: Check)
    ensures r == CheckStringTerms(buf, size, zeros)
    ensures size <= |buf| ==> (r == Enough <==> zeros <= Zeros(buf[..size])) && r != PastEnd
  {
    var pos, sz, nz := 0, size, zeros;
    while sz != 0 && nz != 0 && pos < |buf|
      invariant 0 <= pos <= |buf| && pos <= size && sz == size - pos
      invariant CheckStringTerms(buf, size, zeros) == CheckStringTerms(buf[pos..], sz, nz)
      decreases sz
    {
      assert buf[pos..][1..] == buf[pos + 1..];
      if buf[pos] == 0 {
        nz := nz - 1;
      }
      pos, sz := pos + 1, sz - 1;
    }
    r := if nz == 0 then Enough else if sz == 0 then TooFew else PastEnd;
    if size <= |buf| {
      CheckPrefix(buf, size, zeros);
      CheckCounts(buf[..size], zeros);
    }
  }

  lemma {:induction false} CheckPrefix(b: Blob, size: nat, zeros: nat)
    requires size <= |b|
    ensures CheckStringTerms(b, size, zeros) == CheckStringTerms(b[..size], size, zeros)
  {
    if size > 0 && zeros > 0 {
      CheckPrefix(b[1..], size - 1, if b[0] == 0 then zeros - 1 else zeros);
      assert b[..size][1..] == b[1..][..size - 1];
    }
  }

  /** When the check for two strings succeeds, both can be read, within the checked size. */
  lemma CheckFindsTwo(b: Blob, size: nat)
    requires size <= |b| && CheckStringTerms(b, size, 2) == Enough
    ensures ReadCStr(b).Some? && ReadCStr(ReadCStr(b).value.1).Some?
    ensures |b| - size <= |ReadCStr(ReadCStr(b).value.1).value.1|
  {
    CheckPrefix(b, size, 1);
    CheckPrefix(b, size, 2);
    CheckCounts(b[..size], 1);
    CheckCounts(b[..size], 2);
    CheckFinds(b, size);
    var (s, rest) := ReadCStr(b).value;
    CheckSkips(s, rest, size, 2);
    CheckFinds(rest, size - |s| - 1);
  }

  lemma Reassociate(a: Blob, b: Blob, c: Blob)
    ensures a + (b + c) == a + b + c
  {
  }
}
