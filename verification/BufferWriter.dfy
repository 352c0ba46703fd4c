/** Writing into the fixed-size buffer that makeMessage hands to `store`. */
module BufferWriter {
  import opened Bytes

  /** memcpy at a position; everything before the position stays. */
  method PutBytes(buffer: array<Byte>, pos: nat, s: Blob) returns (end: nat)
    requires pos + |s| <= buffer.Length
    modifies buffer
    ensures end == pos + |s|
    ensures buffer[..end] == old(buffer[..pos]) + s
  {
    for i := 0 to |s|
      invariant buffer[..pos + i] == old(buffer[..pos]) + s[..i]
    {
      buffer[pos + i] := s[i];
    }
    end := pos + |s|;
    assert s[..|s|] == s;
  }

  /** strcpy: the text up to its first NUL, and a terminator; nothing else is touched. */
  method StrCpy(buffer: array<Byte>, pos: nat, s: Blob)
    requires pos + |s| + 1 <= buffer.Length
    modifies buffer
    ensures buffer[..pos] == old(buffer[..pos])
    ensures buffer[pos..pos + |s| + 1] == Copied(s, old(buffer[pos..pos + |s| + 1]))
  {
    var i := 0;
    while i < |s| && s[i] != 0
      invariant i <= |Text(s)|
      invariant buffer[..pos] == old(buffer[..pos]) && buffer[pos..pos + i] == s[..i]
      invariant buffer[pos + i..pos + |s| + 1] == old(buffer[pos + i..pos + |s| + 1])
    {
      buffer[pos + i] := s[i];
      i := i + 1;
    }
    assert i == |Text(s)|;
    buffer[pos + i] := 0;
  }

  method StrLen(buffer: array<Byte>, pos: nat, ghost text: Blob) returns (n: nat)
    requires NulFree(text) && pos + |text| < buffer.Length && buffer[pos..pos + |text| + 1] == CStr(text)
    ensures n == |text|
  {
    n := 0;
    assert buffer[pos] == buffer[pos..pos + |text| + 1][0];
    while buffer[pos + n] != 0
      invariant n <= |text| && buffer[pos + n] == CStr(text)[n]
      decreases |text| - n
    {
      n := n + 1;
      assert buffer[pos + n] == buffer[pos..pos + |text| + 1][n];
    }
  }

  /** strcpy, and on by the length of the string object. */
  method PutCStr(buffer: array<Byte>, pos: nat, s: Blob) returns (end: nat)
    requires pos + |s| + 1 <= buffer.Length
    modifies buffer
    ensures end == pos + |s| + 1
    ensures buffer[..end] == old(buffer[..pos]) + Copied(s, old(buffer[pos..pos + |s| + 1]))
    ensures NulFree(s) ==> buffer[..end] == old(buffer[..pos]) + CStr(s)
  {
    StrCpy(buffer, pos, s);
    end := pos + |s| + 1;
    assert buffer[..end] == buffer[..pos] + buffer[pos..end];
    TextWhole(s);
  }

  /** strcpy, and on by the length of the text that was written. */
  method PutText(buffer: array<Byte>, pos: nat, s: Blob) returns (end: nat)
    requires pos + |s| + 1 <= buffer.Length
    modifies buffer
    ensures end == pos + |Text(s)| + 1
    ensures buffer[..end] == old(buffer[..pos]) + CStr(Text(s))
  {
    StrCpy(buffer, pos, s);
    var n := TextLength(buffer, pos, s, old(buffer[pos..pos + |s| + 1]));
    end := pos + n + 1;
    assert buffer[..end] == buffer[..pos] + buffer[pos..end];
  }

  method TextLength(buffer: array<Byte>, pos: nat, ghost s: Blob, ghost was: Blob) returns (n: nat)
    requires pos + |s| + 1 <= buffer.Length && |was| == |s| + 1
    requires buffer[pos..pos + |s| + 1] == Copied(s, was)
    ensures n == |Text(s)| && buffer[pos..pos + n + 1] == CStr(Text(s))
  {
    ghost var k := |Text(s)|;
    assert buffer[pos..pos + k + 1] == buffer[pos..pos + |s| + 1][..k + 1] == CStr(Text(s));
    n := StrLen(buffer, pos, Text(s));
  }

  method PutU32(buffer: array<Byte>, pos: nat, n: nat) returns (end: nat)
    requires pos + 4 <= buffer.Length
    modifies buffer
    ensures end == pos + 4
    ensures buffer[..end] == old(buffer[..pos]) + U32(n)
  {
    end := PutBytes(buffer, pos, U32(n));
  }
}

/** The outcome of a `load`: a message and the number of bytes used, a refusal (~0U), or a
    read beyond the end of the buffer. */
module LoadResults {
  datatype Load<+T> = Loaded(value: T, used: nat) | Refused | Overrun
}
