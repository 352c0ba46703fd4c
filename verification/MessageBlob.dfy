/** Messages as they travel between servers: makeBlob and buildMessage (src/message.C). */
module MessageBlob {
  import opened Bytes
  import opened LoadResults
  import opened Options
  import ProblemCodec
  import MarkCodec
  import ServerCodec

  const SIGNATURE_SIZE := 128
  const BLOB_STRUCT_SIZE := 145   // sizeof(st_blob), which includes one byte of data

  const CREATE_SERVER := 0x0001
  const PROBLEM_UPDATE := 0x0004
  const SUBMISSION_MARK := 0x0007

  datatype Header = Header(key: Key, time: nat, kind: nat)

  datatype Envelope = Envelope(header: Header, signature: Blob, data: Blob)

  ghost predicate Fits(e: Envelope) {
    && e.header.key.server < TWO32 && e.header.key.message < TWO32
    && e.header.time < TWO32 && e.header.kind < TWO32
    && |e.signature| == SIGNATURE_SIZE
  }

  function MakeBlob(e: Envelope): Blob {
    U32(e.header.key.server) + (U32(e.header.key.message) + (U32(e.header.time) + (U32(e.header.kind)
    + (e.signature + e.data))))
  }

  /** A blob shorter than the C struct is refused. */
  function OpenBlob(blob: Blob): Option<Envelope> {
    if |blob| < BLOB_STRUCT_SIZE then None
    else Some(Envelope(Header(Key(ReadU32(blob), ReadU32(blob[4..])), ReadU32(blob[8..]), ReadU32(blob[12..])),
                       blob[16..16 + SIGNATURE_SIZE], blob[16 + SIGNATURE_SIZE..]))
  }

  /** A blob opens to what it was made from, exactly when the message carries data. */
  lemma OpenMade(e: Envelope)
    requires Fits(e)
    ensures OpenBlob(MakeBlob(e)) == if e.data == [] then None else Some(e)
  {
    var t4 := e.signature + e.data;
    var t3 := U32(e.header.kind) + t4;
    var t2 := U32(e.header.time) + t3;
    var t1 := U32(e.header.key.message) + t2;
    var b := U32(e.header.key.server) + t1;
    ReadBack(e.header.key.server, t1);
    ReadBack(e.header.key.message, t2);
    ReadBack(e.header.time, t3);
    ReadBack(e.header.kind, t4);
    assert b[8..] == t1[4..] && b[12..] == t2[4..] && b[16..] == t3[4..];
    assert b[16..16 + SIGNATURE_SIZE] == t4[..SIGNATURE_SIZE] == e.signature;
    assert b[16 + SIGNATURE_SIZE..] == t4[SIGNATURE_SIZE..] == e.data;
  }

  lemma MadeKey(e: Envelope)
    requires Fits(e)
    ensures |MakeBlob(e)| == 16 + SIGNATURE_SIZE + |e.data|
    ensures KeyOf(MakeBlob(e)) == e.header.key
  {
    var t1 := U32(e.header.key.message) + (U32(e.header.time) + (U32(e.header.kind) + (e.signature + e.data)));
    ReadBack(e.header.key.server, t1);
    ReadBack(e.header.key.message, t1[4..]);
  }

  /** The columns of the message table are the fields of the header that the blob was made with. */
  lemma MadeHeader(e: Envelope)
    requires Fits(e)
    ensures KeyOf(MakeBlob(e)) == e.header.key
    ensures TimeOf(MakeBlob(e)) == e.header.time && KindOf(MakeBlob(e)) == e.header.kind
  {
    MadeKey(e);
    var t4 := e.signature + e.data;
    var t3 := U32(e.header.kind) + t4;
    var t2 := U32(e.header.time) + t3;
    var t1 := U32(e.header.key.message) + t2;
    var b := U32(e.header.key.server) + t1;
    ReadBack(e.header.time, t3);
    ReadBack(e.header.kind, t4);
    assert b[8..] == t2 && b[12..] == t3;
  }

  function KeyOf(blob: Blob): Key {
    if |blob| < 8 then Key(0, 0) else Key(ReadU32(blob), ReadU32(blob[4..]))
  }

  function TimeOf(blob: Blob): nat {
    if |blob| < 16 then 0 else ReadU32(blob[8..])
  }

  function KindOf(blob: Blob): nat {
    if |blob| < 16 then 0 else ReadU32(blob[12..])
  }

  // ---------------------------------------------------------------- whole messages

  datatype Content =
    | Problem(prob: ProblemCodec.Prob)
    | Mark(mark: MarkCodec.Mark)
    | Server(server: ServerCodec.NewServer)

  datatype Message = Message(header: Header, signature: Blob, content: Content)

  /** The orders in which the maps of a message are walked when it is packed. */
  datatype Order = Order(problem: ProblemCodec.Order, server: seq<Blob>)

  function KindId(c: Content): nat {
    match c
    case Problem(_) => PROBLEM_UPDATE
    case Mark(_) => SUBMISSION_MARK
    case Server(_) => CREATE_SERVER
  }

  ghost predicate ContentFits(c: Content, o: Order) {
    match c
    case Problem(p) => ProblemCodec.Fits(p) && ProblemCodec.OrderOf(o.problem, p)
    case Mark(m) => MarkCodec.Fits(m)
    case Server(s) => ServerCodec.Fits(s) && ServerCodec.OrderOf(o.server, s)
  }

  ghost function Pack(c: Content, o: Order): Blob
    requires ContentFits(c, o)
  {
    match c
    case Problem(p) => ProblemCodec.EncodeProb(p, o.problem)
    case Mark(m) => MarkCodec.EncodeMark(m)
    case Server(s) => ServerCodec.EncodeServer(s, o.server)
  }

  datatype Built = Built(message: Message) | NotBuilt | BuildOverrun

  function Wrap<T>(h: Header, signature: Blob, r: Load<T>, f: T -> Content): Built {
    match r
    case Loaded(value, _) => Built(Message(h, signature, f(value)))
    case Refused => NotBuilt
    case Overrun => BuildOverrun
  }

  /** buildMessage, with the functors of these three message types registered. */
  function BuildMessage(blob: Blob): Built {
    var e := OpenBlob(blob);
    if e.None? then NotBuilt else
      var Envelope(h, signature, data) := e.value;
      if h.kind == PROBLEM_UPDATE then Wrap(h, signature, ProblemCodec.ParseProb(data), p => Problem(p))
      else if h.kind == SUBMISSION_MARK then Wrap(h, signature, MarkCodec.ParseMark(data), m => Mark(m))
      else if h.kind == CREATE_SERVER then Wrap(h, signature, ServerCodec.ParseServer(data), s => Server(s))
      else NotBuilt
  }

  /** A message packed by one server is rebuilt unchanged, header included, by another. */
  lemma BuildMade(key: Key, time: nat, signature: Blob, c: Content, o: Order)
    requires ContentFits(c, o) && |Pack(c, o)| < TWO32
    requires Fits(Envelope(Header(key, time, KindId(c)), signature, Pack(c, o)))
    ensures var h := Header(key, time, KindId(c));
            BuildMessage(MakeBlob(Envelope(h, signature, Pack(c, o)))) == Built(Message(h, signature, c))
  {
    OpenMade(Envelope(Header(key, time, KindId(c)), signature, Pack(c, o)));
    match c
    case Problem(p) => ProblemCodec.ProbRoundTrip(p, o.problem);
    case Mark(m) => MarkCodec.MarkRoundTrip(m);
    case Server(s) => ServerCodec.ServerRoundTrip(s, o.server);
  }
}
