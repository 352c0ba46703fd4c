/** The client wire format (src/messageblock.C). Characters stand for bytes.

    A message is an action line, header lines, an empty line and as many bytes of content as
    the content-length header says. The code parses it line by line from chunks of any size;
    the reference is an automaton that takes one byte at a time.
 */
module MessageBlocks {
  import opened Decimals

  // ---------------------------------------------------------------- text

  /** The first position of c, or the length when there is none. */
  function IndexOf(s: string, c: char): (k: nat)
    ensures k <= |s|
    ensures forall i :: 0 <= i < k ==> s[i] != c
    ensures k < |s| ==> s[k] == c
  {
    if s == "" || s[0] == c then 0 else 1 + IndexOf(s[1..], c)
  }

  ghost predicate Without(s: string, c: char) {
    forall i :: 0 <= i < |s| ==> s[i] != c
  }

  lemma {:induction false} IndexOfFirst(a: string, c: char, b: string)
    requires Without(a, c)
    ensures IndexOf(a + [c] + b, c) == |a|
  {
    if a != "" {
      IndexOfFirst(a[1..], c, b);
      assert (a + [c] + b)[1..] == a[1..] + [c] + b;
    }
  }

  lemma {:induction false} IndexOfNone(a: string, c: char)
    requires Without(a, c)
    ensures IndexOf(a, c) == |a|
  {
    if a != "" {
      IndexOfNone(a[1..], c);
    }
  }

  function IsSpace(c: char): bool {
    c == ' ' || 9 <= c as int <= 13
  }

  const LONG_MAX := 0x7FFF_FFFF_FFFF_FFFF

  function Clamp(v: int): int {
    if v > LONG_MAX then LONG_MAX else if v < -LONG_MAX - 1 then -LONG_MAX - 1 else v
  }

  /** atol: leading blanks, a sign, digits; out of range values saturate. */
  function Atol(s: string): int {
    if s != "" && IsSpace(s[0]) then Atol(s[1..])
    else if s != "" && s[0] == '-' then Clamp(0 - Digits(s[1..], 0) as int)
    else if s != "" && s[0] == '+' then Clamp(Digits(s[1..], 0))
    else Clamp(Digits(s, 0))
  }

  /** Storing a long in an int keeps the low 32 bits. */
  function ToInt32(v: int): int {
    var low := v % 0x1_0000_0000;
    if low < 0x8000_0000 then low else low - 0x1_0000_0000
  }

  /** What sprintf("%d") prints for a size, atol reads back. */
  lemma AtolDecimal(n: nat)
    requires n < 0x8000_0000
    ensures ToInt32(Atol(Decimal(n))) == n
  {
    DecimalDigits(n);
    assert IsDigit(Decimal(n)[0]);
    AtolDigits(Decimal(n), n);
  }

  lemma AtolDigits(s: string, n: nat)
    requires s != "" && IsDigit(s[0]) && Digits(s, 0) == n && n < 0x8000_0000
    ensures Atol(s) == n
  {
  }

  // ---------------------------------------------------------------- blocks and the reference

  type Headers = map<string, string>

  datatype Block = Block(action: string, id: string, headers: Headers, content: string)

  datatype Mode = Line(buf: string) | Body(length: nat, got: string)

  /** A block that is being received. */
  datatype Parser = Parser(action: string, id: string, headers: Headers, mode: Mode)

  const FRESH := Parser("", "", map[], Line(""))

  datatype Outcome = More(parser: Parser) | Done(block: Block) | Bad

  function ContentLength(h: Headers): int {
    if "content-length" in h then ToInt32(Atol(h["content-length"])) else 0
  }

  /** A complete line. Until there is an action, the line is the action and an optional id. */
  function EndLine(p: Parser, line: string): Outcome {
    if p.action == "" then
      var k := IndexOf(line, ' ');
      if k < |line| then More(Parser(line[..k], line[k + 1..], p.headers, Line("")))
      else More(Parser(line, p.id, p.headers, Line("")))
    else if line == "" then
      var n := ContentLength(p.headers);
      if n > 0 then More(p.(mode := Body(n, ""))) else Done(Block(p.action, p.id, p.headers, ""))
    else
      var k := IndexOf(line, ':');
      if k < |line| then More(Parser(p.action, p.id, p.headers[line[..k] := line[k + 1..]], Line("")))
      else Bad
  }

  function StepByte(p: Parser, c: char): Outcome {
    match p.mode
    case Line(buf) => if c == '\n' then EndLine(p, buf) else More(p.(mode := Line(buf + [c])))
    case Body(length, got) =>
      if |got| + 1 >= length then Done(Block(p.action, p.id, p.headers, got + [c]))
      else More(p.(mode := Body(length, got + [c])))
  }

  /** How a stream of bytes ends: waiting for more, or broken with some bytes unread. */
  datatype End = Open(parser: Parser) | Broken(unread: string)

  datatype Stream = Stream(blocks: seq<Block>, end: End)

  function Cons(b: Block, s: Stream): Stream {
    Stream([b] + s.blocks, s.end)
  }

  /** The reference: the bytes one at a time, a fresh block after each complete one. */
  function Parse(p: Parser, bytes: string): Stream
    decreases |bytes|
  {
    if bytes == "" then Stream([], Open(p)) else
      match StepByte(p, bytes[0])
      case More(p') => Parse(p', bytes[1..])
      case Done(b) => Cons(b, Parse(FRESH, bytes[1..]))
      case Bad => Stream([], Broken(bytes[1..]))
  }

  function Then(s: Stream, bytes: string): Stream {
    match s.end
    case Open(p) => var t := Parse(p, bytes); Stream(s.blocks + t.blocks, t.end)
    case Broken(unread) => Stream(s.blocks, Broken(unread + bytes))
  }

  lemma {:induction false} ParseSplit(p: Parser, a: string, b: string)
    ensures Parse(p, a + b) == Then(Parse(p, a), b)
    decreases |a|
  {
    if a == "" {
      assert a + b == b;
      assert [] + Parse(p, b).blocks == Parse(p, b).blocks;
    } else {
      assert (a + b)[1..] == a[1..] + b;
      match StepByte(p, a[0])
      case More(p') => ParseSplit(p', a[1..], b);
      case Done(block) =>
        ParseSplit(FRESH, a[1..], b);
        ConsThen(block, Parse(FRESH, a[1..]), b);
      case Bad =>
    }
  }

  lemma ConsThen(block: Block, s: Stream, b: string)
    ensures Then(Cons(block, s), b) == Cons(block, Then(s, b))
  {
    if s.end.Open? {
      assert [block] + s.blocks + Parse(s.end.parser, b).blocks == [block] + (s.blocks + Parse(s.end.parser, b).blocks);
    }
  }

  function Concat(chunks: seq<string>): string {
    if chunks == [] then "" else Concat(chunks[..|chunks| - 1]) + chunks[|chunks| - 1]
  }

  function ParseChunks(p: Parser, chunks: seq<string>): Stream {
    if chunks == [] then Stream([], Open(p))
    else Then(ParseChunks(p, chunks[..|chunks| - 1]), chunks[|chunks| - 1])
  }

  /** However a stream is cut into chunks: the same blocks, the same state at the end, and the
      same point of failure. */
  lemma {:induction false} ChunksDoNotMatter(p: Parser, chunks: seq<string>)
    ensures ParseChunks(p, chunks) == Parse(p, Concat(chunks))
  {
    if chunks != [] {
      ChunksDoNotMatter(p, chunks[..|chunks| - 1]);
      ParseSplit(p, Concat(chunks[..|chunks| - 1]), chunks[|chunks| - 1]);
    }
  }

  /** What has been received of the current line. */
  function Begun(p: Parser): string {
    if p.mode.Line? then p.mode.buf else ""
  }

  /** The bytes before the unread rest end with a header line without a colon. */
  ghost predicate EndsInBadLine(bytes: string, unread: string) {
    exists pre, line :: BadLine(bytes, pre, line, unread)
  }

  ghost predicate BadLine(bytes: string, pre: string, line: string, unread: string) {
    bytes == pre + line + "\n" + unread && line != "" && Without(line, ':') && Without(line, '\n')
  }

  /** A stream is refused only for a header line without a colon, and right after it. */
  lemma {:induction false} RefusedForBadLine(p: Parser, bytes: string)
    requires Without(Begun(p), '\n') && Parse(p, bytes).end.Broken?
    ensures EndsInBadLine(Begun(p) + bytes, Parse(p, bytes).end.unread)
    decreases |bytes|
  {
    var c, rest := bytes[0], bytes[1..];
    match StepByte(p, c)
    case Bad =>
      assert p.mode.buf + bytes == "" + p.mode.buf + "\n" + rest;
      assert BadLine(p.mode.buf + bytes, "", p.mode.buf, rest);
    case More(p') =>
      RefusedForBadLine(p', rest);
      LaterBadLine(p, p', c, rest, Parse(p, bytes).end.unread);
      assert bytes == [c] + rest;
    case Done(_) =>
      RefusedForBadLine(FRESH, rest);
      assert "" + rest == rest && Begun(p) + bytes == (Begun(p) + [c]) + rest;
      MorePrefix(Begun(p) + [c], rest, Parse(p, bytes).end.unread);
  }

  lemma MorePrefix(a: string, bytes: string, unread: string)
    requires EndsInBadLine(bytes, unread)
    ensures EndsInBadLine(a + bytes, unread)
  {
    var pre, line :| BadLine(bytes, pre, line, unread);
    assert a + (pre + line + "\n" + unread) == (a + pre) + line + "\n" + unread;
    assert BadLine(a + bytes, a + pre, line, unread);
  }

  lemma LaterBadLine(p: Parser, p': Parser, c: char, rest: string, unread: string)
    requires StepByte(p, c) == More(p') && EndsInBadLine(Begun(p') + rest, unread)
    ensures EndsInBadLine(Begun(p) + ([c] + rest), unread)
  {
    if Begun(p') == "" {
      assert Begun(p') + rest == rest;
      MorePrefix(Begun(p) + [c], rest, unread);
      assert Begun(p) + [c] + rest == Begun(p) + ([c] + rest);
    } else {
      assert Begun(p') + rest == Begun(p) + ([c] + rest);
    }
  }

  /** A header line without a colon ends the stream there: nothing after it is read. */
  lemma BadLineRefused(p: Parser, line: string, rest: string)
    requires p.mode == Line("") && p.action != "" && line != "" && Without(line, ':') && Without(line, '\n')
    ensures Parse(p, line + "\n" + rest) == Stream([], Broken(rest))
  {
    LettersRead(p, line, "\n" + rest);
    assert line + "\n" + rest == line + ("\n" + rest);
    assert "" + line == line && ("\n" + rest)[1..] == rest;
    IndexOfNone(line, ':');
  }

  lemma {:induction false} LettersRead(p: Parser, line: string, rest: string)
    requires p.mode.Line? && Without(line, '\n')
    ensures Parse(p, line + rest) == Parse(p.(mode := Line(p.mode.buf + line)), rest)
    decreases |line|
  {
    if line == "" {
      assert line + rest == rest && p.mode.buf + line == p.mode.buf;
    } else {
      var p' := p.(mode := Line(p.mode.buf + [line[0]]));
      assert (line + rest)[1..] == line[1..] + rest;
      LettersRead(p', line[1..], rest);
      assert p.mode.buf + [line[0]] + line[1..] == p.mode.buf + line;
    }
  }

  // ---------------------------------------------------------------- one block, line by line

  /** What one call of addBytes makes of its bytes. */
  datatype Fed = Need(parser: Parser) | Complete(block: Block, used: nat) | Failed(used: nat)

  function Shift(f: Fed, n: nat): Fed {
    match f
    case Need(_) => f
    case Complete(b, used) => Complete(b, used + n)
    case Failed(used) => Failed(used + n)
  }

  function Feed(p: Parser, bytes: string): (f: Fed)
    ensures f.Complete? || f.Failed? ==> 0 < f.used <= |bytes|
    decreases |bytes|
  {
    if bytes == "" then Need(p) else
      match StepByte(p, bytes[0])
      case More(p') => Shift(Feed(p', bytes[1..]), 1)
      case Done(b) => Complete(b, 1)
      case Bad => Failed(1)
  }

  function AfterLine(o: Outcome, rest: string, used: nat): Fed {
    match o
    case More(p) => Shift(Feed(p, rest), used)
    case Done(b) => Complete(b, used)
    case Bad => Failed(used)
  }

  lemma {:induction false} FeedPartialLine(p: Parser, bytes: string)
    requires p.mode.Line? && Without(bytes, '\n')
    ensures Feed(p, bytes) == Need(p.(mode := Line(p.mode.buf + bytes)))
    decreases |bytes|
  {
    if bytes == "" {
      assert p.mode.buf + bytes == p.mode.buf;
    } else {
      var p' := p.(mode := Line(p.mode.buf + [bytes[0]]));
      FeedPartialLine(p', bytes[1..]);
      assert p.mode.buf + [bytes[0]] + bytes[1..] == p.mode.buf + bytes;
    }
  }

  lemma {:induction false} FeedLine(p: Parser, line: string, rest: string)
    requires p.mode.Line? && Without(line, '\n')
    ensures Feed(p, line + "\n" + rest) == AfterLine(EndLine(p, p.mode.buf + line), rest, |line| + 1)
    decreases |line|
  {
    var bytes := line + "\n" + rest;
    if line == "" {
      assert p.mode.buf + line == p.mode.buf && bytes[0] == '\n' && bytes[1..] == rest;
    } else {
      var p' := p.(mode := Line(p.mode.buf + [line[0]]));
      FeedLine(p', line[1..], rest);
      assert bytes == [line[0]] + (line[1..] + "\n" + rest);
      FeedLetter(p, line[0], line[1..] + "\n" + rest);
      assert p.mode.buf + [line[0]] + line[1..] == p.mode.buf + line;
      EndLineIgnoresBuffer(p, p.mode.buf + line, p'.mode);
      ShiftAfter(EndLine(p, p.mode.buf + line), rest, |line|, 1);
    }
  }

  lemma FeedLetter(p: Parser, c: char, rest: string)
    requires p.mode.Line? && c != '\n'
    ensures Feed(p, [c] + rest) == Shift(Feed(p.(mode := Line(p.mode.buf + [c])), rest), 1)
  {
    assert ([c] + rest)[1..] == rest;
  }

  lemma EndLineIgnoresBuffer(p: Parser, line: string, mode: Mode)
    ensures EndLine(p.(mode := mode), line) == EndLine(p, line)
  {
  }

  lemma {:induction false} FeedBody(p: Parser, bytes: string)
    requires p.mode.Body? && |p.mode.got| < p.mode.length
    ensures var left := p.mode.length - |p.mode.got|;
            Feed(p, bytes) ==
            if |bytes| < left then Need(p.(mode := Body(p.mode.length, p.mode.got + bytes)))
            else Complete(Block(p.action, p.id, p.headers, p.mode.got + bytes[..left]), left)
    decreases |bytes|
  {
    var left := p.mode.length - |p.mode.got|;
    if bytes == "" {
      assert p.mode.got + bytes == p.mode.got;
    } else if left == 1 {
      assert bytes[..1] == [bytes[0]];
    } else {
      var p' := p.(mode := Body(p.mode.length, p.mode.got + [bytes[0]]));
      FeedBody(p', bytes[1..]);
      assert p.mode.got + [bytes[0]] + bytes[1..] == p.mode.got + bytes;
      if left <= |bytes| {
        assert p.mode.got + [bytes[0]] + bytes[1..][..left - 1] == p.mode.got + bytes[..left];
      }
    }
  }

  /** One call at a time is the same as one byte at a time. */
  lemma {:induction false} FeedParse(p: Parser, bytes: string)
    ensures Parse(p, bytes) ==
            match Feed(p, bytes)
            case Need(p') => Stream([], Open(p'))
            case Complete(b, used) => Cons(b, Parse(FRESH, bytes[used..]))
            case Failed(used) => Stream([], Broken(bytes[used..]))
    decreases |bytes|
  {
    if bytes != "" && StepByte(p, bytes[0]).More? {
      var p' := StepByte(p, bytes[0]).parser;
      FeedParse(p', bytes[1..]);
      var f := Feed(p', bytes[1..]);
      if !f.Need? {
        assert bytes[1..][f.used..] == bytes[f.used + 1..];
      }
    }
  }

  lemma FeedLineAt(p: Parser, bytes: string, pos: nat, nl: nat)
    requires p.mode.Line? && pos <= nl < |bytes| && Without(bytes[pos..nl], '\n') && bytes[nl] == '\n'
    ensures Shift(Feed(p, bytes[pos..]), pos) ==
            AfterLine(EndLine(p, p.mode.buf + bytes[pos..nl]), bytes[nl + 1..], nl + 1)
  {
    var line, rest := bytes[pos..nl], bytes[nl + 1..];
    CutAtNewline(bytes, pos, nl);
    FeedLine(p, line, rest);
    ShiftAfter(EndLine(p, p.mode.buf + line), rest, |line| + 1, pos);
  }

  lemma CutAtNewline(bytes: string, pos: nat, nl: nat)
    requires pos <= nl < |bytes| && bytes[nl] == '\n'
    ensures bytes[pos..] == bytes[pos..nl] + "\n" + bytes[nl + 1..]
  {
  }

  lemma ShiftAfter(o: Outcome, rest: string, a: nat, b: nat)
    ensures Shift(AfterLine(o, rest, a), b) == AfterLine(o, rest, a + b)
  {
  }

  // ---------------------------------------------------------------- printing

  /** An order in which the headers are printed; any order of the keys will do. */
  ghost predicate OrderOf(order: seq<string>, h: Headers) {
    forall k :: k in order <==> k in h
  }

  function ActionLine(b: Block): string {
    b.action + if b.id == "" then "" else " " + b.id
  }

  function HeaderLine(h: Headers, k: string): string
    requires k in h
  {
    k + ":" + h[k]
  }

  function HeaderLines(h: Headers, order: seq<string>): string
    requires forall k :: k in order ==> k in h
  {
    if order == [] then "" else HeaderLine(h, order[0]) + "\n" + HeaderLines(h, order[1..])
  }

  function Raw(b: Block, order: seq<string>): string
    requires OrderOf(order, b.headers)
  {
    ActionLine(b) + "\n" + (HeaderLines(b.headers, order) + ("" + "\n" + b.content))
  }

  ghost predicate ContentOk(b: Block) {
    if b.content == "" then ContentLength(b.headers) <= 0 else ContentLength(b.headers) == |b.content|
  }

  ghost predicate WellFormed(b: Block) {
    && b.action != "" && Without(b.action, ' ') && Without(b.action, '\n')
    && Without(b.id, '\n')
    && (forall k :: k in b.headers ==> Without(k, ':') && Without(k, '\n') && Without(b.headers[k], '\n'))
    && ContentOk(b)
  }

  // ---------------------------------------------------------------- parsing what was printed

  function ParseAfter(o: Outcome, rest: string): Stream {
    match o
    case More(p) => Parse(p, rest)
    case Done(b) => Cons(b, Parse(FRESH, rest))
    case Bad => Stream([], Broken(rest))
  }

  lemma ParseLine(p: Parser, line: string, rest: string)
    requires p.mode == Line("") && Without(line, '\n')
    ensures Parse(p, line + "\n" + rest) == ParseAfter(EndLine(p, line), rest)
  {
    var bytes, n := line + "\n" + rest, |line| + 1;
    assert "" + line == line;
    FeedLine(p, line, rest);
    FeedParse(p, bytes);
    assert bytes[n..] == rest;
    if EndLine(p, line).More? {
      var p' := EndLine(p, line).parser;
      FeedParse(p', rest);
      var f := Feed(p', rest);
      if !f.Need? {
        assert bytes[f.used + n..] == rest[f.used..];
      }
    }
  }

  lemma ParseContent(p: Parser, content: string, rest: string)
    requires p.mode == Body(|content|, "") && content != ""
    ensures Parse(p, content + rest) == Cons(Block(p.action, p.id, p.headers, content), Parse(FRESH, rest))
  {
    FeedBody(p, content + rest);
    FeedParse(p, content + rest);
    assert (content + rest)[..|content|] == content && (content + rest)[|content|..] == rest;
    assert "" + content == content;
  }

  lemma ParseAction(b: Block, rest: string)
    requires WellFormed(b)
    ensures Parse(FRESH, ActionLine(b) + "\n" + rest) == Parse(Parser(b.action, b.id, map[], Line("")), rest)
  {
    ParseLine(FRESH, ActionLine(b), rest);
    if b.id == "" {
      assert ActionLine(b) == b.action;
      IndexOfNone(b.action, ' ');
    } else {
      assert ActionLine(b) == b.action + [' '] + b.id;
      IndexOfFirst(b.action, ' ', b.id);
    }
  }

  function AddHeaders(acc: Headers, h: Headers, order: seq<string>): Headers
    requires forall k :: k in order ==> k in h
    decreases |order|
  {
    if order == [] then acc else AddHeaders(acc[order[0] := h[order[0]]], h, order[1..])
  }

  lemma {:induction false} AddHeadersAt(acc: Headers, h: Headers, order: seq<string>, k: string)
    requires forall x :: x in order ==> x in h
    ensures k in AddHeaders(acc, h, order) <==> k in acc || k in order
    ensures k in order ==> AddHeaders(acc, h, order)[k] == h[k]
    ensures k in acc && k !in order ==> AddHeaders(acc, h, order)[k] == acc[k]
    decreases |order|
  {
    if order != [] {
      assert k in order <==> k == order[0] || k in order[1..];
      AddHeadersAt(acc[order[0] := h[order[0]]], h, order[1..], k);
    }
  }

  lemma AddHeadersAll(h: Headers, order: seq<string>)
    requires OrderOf(order, h)
    ensures AddHeaders(map[], h, order) == h
  {
    forall k ensures k in AddHeaders(map[], h, order) <==> k in h
             ensures k in h ==> AddHeaders(map[], h, order)[k] == h[k]
    {
      AddHeadersAt(map[], h, order, k);
    }
  }

  lemma ParseHeader(p: Parser, k: string, v: string, rest: string)
    requires p.mode == Line("") && p.action != "" && Without(k, ':') && Without(k, '\n') && Without(v, '\n')
    ensures Parse(p, k + ":" + v + "\n" + rest) == Parse(p.(headers := p.headers[k := v]), rest)
  {
    var line := k + ":" + v;
    ParseLine(p, line, rest);
    assert line == k + [':'] + v;
    IndexOfFirst(k, ':', v);
    assert line[..|k|] == k && line[|k| + 1..] == v;
  }

  lemma {:induction false} ParseHeaders(p: Parser, h: Headers, order: seq<string>, rest: string)
    requires p.mode == Line("") && p.action != ""
    requires forall k :: k in order ==> k in h && Without(k, ':') && Without(k, '\n') && Without(h[k], '\n')
    ensures Parse(p, HeaderLines(h, order) + rest) == Parse(p.(headers := AddHeaders(p.headers, h, order)), rest)
    decreases |order|
  {
    if order == [] {
      assert HeaderLines(h, order) + rest == rest;
    } else {
      var k, tail := order[0], HeaderLines(h, order[1..]) + rest;
      assert HeaderLines(h, order) + rest == k + ":" + h[k] + "\n" + tail;
      ParseHeader(p, k, h[k], tail);
      ParseHeaders(p.(headers := p.headers[k := h[k]]), h, order[1..], rest);
    }
  }

  lemma ParseEnd(b: Block, rest: string)
    requires b.action != "" && ContentOk(b)
    ensures Parse(Parser(b.action, b.id, b.headers, Line("")), "" + "\n" + b.content + rest) == Cons(b, Parse(FRESH, rest))
  {
    var p := Parser(b.action, b.id, b.headers, Line(""));
    ParseLine(p, "", b.content + rest);
    assert "" + "\n" + (b.content + rest) == "" + "\n" + b.content + rest;
    if b.content == "" {
      assert b.content + rest == rest;
    } else {
      ParseContent(p.(mode := Body(|b.content|, "")), b.content, rest);
    }
  }

  /** Reading back a printed block gives the block, whatever follows it and whatever the order
      of its headers. */
  lemma PrintedBlockParses(b: Block, order: seq<string>, rest: string)
    requires WellFormed(b) && OrderOf(order, b.headers)
    ensures Parse(FRESH, Raw(b, order) + rest) == Cons(b, Parse(FRESH, rest))
  {
    var tail := "" + "\n" + b.content + rest;
    var p := Parser(b.action, b.id, map[], Line(""));
    assert Raw(b, order) + rest == ActionLine(b) + "\n" + (HeaderLines(b.headers, order) + tail);
    ParseAction(b, HeaderLines(b.headers, order) + tail);
    ParseHeaders(p, b.headers, order, tail);
    AddHeadersAll(b.headers, order);
    ParseEnd(b, rest);
  }

  function Raws(bs: seq<Block>, orders: seq<seq<string>>): string
    requires |bs| == |orders| && forall i :: 0 <= i < |bs| ==> OrderOf(orders[i], bs[i].headers)
  {
    if bs == [] then "" else Raw(bs[0], orders[0]) + Raws(bs[1..], orders[1..])
  }

  lemma {:induction false} PrintedBlocksParse(bs: seq<Block>, orders: seq<seq<string>>)
    requires |bs| == |orders| && forall i :: 0 <= i < |bs| ==> OrderOf(orders[i], bs[i].headers) && WellFormed(bs[i])
    ensures Parse(FRESH, Raws(bs, orders)) == Stream(bs, Open(FRESH))
  {
    if bs != [] {
      PrintedBlocksParse(bs[1..], orders[1..]);
      PrintedBlockParses(bs[0], orders[0], Raws(bs[1..], orders[1..]));
      assert bs == [bs[0]] + bs[1..];
    }
  }

  /** Whatever part of the printed blocks has come through, in whatever chunks: the blocks
      delivered so far are the first ones that were sent, and all of them at the end. */
  lemma PrefixParses(bs: seq<Block>, orders: seq<seq<string>>, chunks: seq<string>, missing: string)
    requires |bs| == |orders| && forall i :: 0 <= i < |bs| ==> OrderOf(orders[i], bs[i].headers) && WellFormed(bs[i])
    requires Concat(chunks) + missing == Raws(bs, orders)
    ensures ParseChunks(FRESH, chunks).end.Open?
    ensures ParseChunks(FRESH, chunks).blocks <= bs
    ensures missing == "" ==> ParseChunks(FRESH, chunks) == Stream(bs, Open(FRESH))
  {
    ChunksDoNotMatter(FRESH, chunks);
    PrintedBlocksParse(bs, orders);
    ParseSplit(FRESH, Concat(chunks), missing);
    if missing == "" {
      assert Concat(chunks) + missing == Concat(chunks);
    }
  }

  // ---------------------------------------------------------------- the object

  /** The return value of addBytes. */
  function Code(f: Fed): int {
    match f
    case Need(_) => 0
    case Complete(_, used) => used
    case Failed(_) => -1
  }

  lemma NextHeader(h: Headers, order: seq<string>, i: nat, lines: string, line: string)
    requires i < |order| && forall k :: k in order ==> k in h
    requires line == order[i] + ":" + h[order[i]] + "\n"
    ensures lines + HeaderLines(h, order[i..]) == lines + line + HeaderLines(h, order[i + 1..])
  {
    assert order[i..][1..] == order[i + 1..];
    assert HeaderLines(h, order[i..]) == line + HeaderLines(h, order[i + 1..]);
  }

  datatype LineEnd = LineTaken | ContentNext | BlockDone | LineBad

  /** While lines are read, `content` holds the bytes of an unfinished line; once `contentPos`
      is set, it holds the content received so far. */
  class MessageBlock {
    var message: string
    var messageId: string
    var headers: Headers
    var contentLength: int
    var content: string
    var contentPos: bool

    ghost predicate Valid()
      reads this
    {
      contentPos ==> |content| < contentLength
    }

    ghost function State(): Parser
      requires Valid()
      reads this
    {
      Parser(message, messageId, headers, if contentPos then Body(contentLength, content) else Line(content))
    }

    ghost function Result(): Block
      reads this
    {
      Block(message, messageId, headers, content)
    }

    constructor ()
      ensures Valid() && State() == FRESH
    {
      message, messageId, headers := "", "", map[];
      contentLength, content, contentPos := 0, "", false;
    }

    /** 0: all bytes used, more needed; positive: the block is complete after that many bytes;
        -1: a header line without a colon. */
    method AddBytes(bytes: string) returns (r: int)
      requires Valid()
      modifies this
      ensures r == Code(Feed(old(State()), bytes))
      ensures r == 0 ==> Valid() && Feed(old(State()), bytes) == Need(State())
      ensures r > 0 ==> Feed(old(State()), bytes) == Complete(Result(), r)
    {
      if contentPos {
        r := AddContent(bytes);
        return;
      }
      var pos := 0;
      assert bytes[0..] == bytes;
      while pos < |bytes|
        invariant 0 <= pos <= |bytes| && Valid() && !contentPos
        invariant Feed(old(State()), bytes) == Shift(Feed(State(), bytes[pos..]), pos)
        decreases |bytes| - pos
      {
        var next, over := NextLine(bytes, pos);
        pos := next;
        match over
        case LineBad => return -1;
        case BlockDone => return pos;
        case ContentNext =>
          var res := AddContent(bytes[pos..]);
          return if res <= 0 then res else pos + res;
        case LineTaken =>
      }
      r := 0;
    }

    /** Buffers the rest of the bytes when it holds no newline, and else takes one line. */
    method NextLine(bytes: string, pos: nat) returns (next: nat, over: LineEnd)
      requires Valid() && !contentPos && pos < |bytes|
      modifies this
      ensures pos < next <= |bytes|
      ensures var fed := Shift(Feed(old(State()), bytes[pos..]), pos);
              match over
              case LineTaken => Valid() && !contentPos && fed == Shift(Feed(State(), bytes[next..]), next)
              case ContentNext => Valid() && contentPos && fed == Shift(Feed(State(), bytes[next..]), next)
              case BlockDone => fed == Complete(Result(), next)
              case LineBad => fed.Failed?
    {
      var nl := FindNewline(bytes, pos);
      if nl == |bytes| {
        assert bytes[pos..nl] == bytes[pos..];
        FeedPartialLine(State(), bytes[pos..]);
        content := content + bytes[pos..];
        return nl, LineTaken;
      }
      FeedLineAt(State(), bytes, pos, nl);
      next := nl + 1;
      over := TakeLine(content + bytes[pos..nl]);
    }

    /** The position of the next newline, or the number of bytes. */
    method FindNewline(bytes: string, pos: nat) returns (nl: nat)
      requires pos <= |bytes|
      ensures pos <= nl <= |bytes| && Without(bytes[pos..nl], '\n')
      ensures nl < |bytes| ==> bytes[nl] == '\n'
    {
      nl := pos;
      while nl < |bytes| && bytes[nl] != '\n'
        invariant pos <= nl <= |bytes| && forall i :: pos <= i < nl ==> bytes[i] != '\n'
      {
        nl := nl + 1;
      }
    }

    /** A complete line: the action, the end of the headers, or a header. */
    method TakeLine(line: string) returns (over: LineEnd)
      requires Valid() && !contentPos
      modifies this
      ensures var out := EndLine(old(State()), line);
              match over
              case LineTaken => Valid() && !contentPos && out == More(State())
              case ContentNext => Valid() && contentPos && out == More(State())
              case BlockDone => out == Done(Result())
              case LineBad => out == Bad
    {
      content := "";
      if message == "" {
        var k := IndexOf(line, ' ');
        if k < |line| {
          message, messageId := line[..k], line[k + 1..];
        } else {
          message := line;
        }
        over := LineTaken;
      } else if line == "" {
        contentLength := if "content-length" in headers then ToInt32(Atol(headers["content-length"])) else 0;
        if contentLength > 0 {
          contentPos := true;
          over := ContentNext;
        } else {
          over := BlockDone;
        }
      } else {
        var k := IndexOf(line, ':');
        if k == |line| {
          return LineBad;
        }
        headers := headers[line[..k] := line[k + 1..]];
        over := LineTaken;
      }
    }

    /** Content and its length header. Clearing the content leaves an old header in place, so
        the block is fit to be printed exactly when there is content or no such header. */
    method SetContent(data: string)
      requires |data| < 0x8000_0000
      modifies this`content, this`contentLength, this`contentPos, this`headers
      ensures content == data
      ensures headers == if data == "" then old(headers) else old(headers)["content-length" := Decimal(|data|)]
      ensures ContentOk(Result()) <==> data != "" || ContentLength(old(headers)) <= 0
    {
      content, contentLength := data, |data|;
      contentPos := false;
      if data != "" {
        AtolDecimal(|data|);
        headers := headers["content-length" := Decimal(|data|)];
      }
    }

    method GetRaw(order: seq<string>) returns (raw: string)
      requires OrderOf(order, headers)
      ensures raw == Raw(Result(), order)
      ensures raw != ""
    {
      var lines := PrintHeaders(order);
      raw := message;
      if messageId != "" {
        raw := raw + " " + messageId;
      }
      assert raw == ActionLine(Result());
      raw := raw + "\n";
      raw := raw + lines + "\n" + content;
    }

    method PrintHeaders(order: seq<string>) returns (lines: string)
      requires OrderOf(order, headers)
      ensures lines == HeaderLines(headers, order)
    {
      lines := "";
      assert order[0..] == order;
      for i := 0 to |order|
        invariant lines + HeaderLines(headers, order[i..]) == HeaderLines(headers, order)
      {
        assert order[i] in order;
        var line := order[i] + ":" + headers[order[i]] + "\n";
        NextHeader(headers, order, i, lines, line);
        lines := lines + line;
      }
    }

    method AddContent(bytes: string) returns (r: int)
      requires Valid() && contentPos
      modifies this`content
      ensures r == Code(Feed(old(State()), bytes))
      ensures r == 0 ==> Valid() && Feed(old(State()), bytes) == Need(State())
      ensures r > 0 ==> Feed(old(State()), bytes) == Complete(Result(), r)
    {
      FeedBody(State(), bytes);
      var bytesLeft := contentLength - |content|;
      var toCopy := if |bytes| < bytesLeft then |bytes| else bytesLeft;
      assert |bytes| < bytesLeft ==> bytes[..toCopy] == bytes;
      content := content + bytes[..toCopy];
      r := if |bytes| < bytesLeft then 0 else bytesLeft;
    }
  }
}
