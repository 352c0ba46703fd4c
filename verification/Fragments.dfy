/** Splitting a message into frames and putting it together again (src/udpmessenger.C).

    A message of `len` bytes is cut into the fewest pieces of at most `m` bytes, as equal as
    possible, numbered from 1. The top bit of the 16-bit number marks the last piece.
 */
module Fragments {
  import opened Bytes
  import opened Options

  const TOP_BIT := 0x8000
  const MIN_FRAGMENT_SIZE := 200
  const MAX_FRAGMENT_SIZE := 1390

  // ---------------------------------------------------------------- the arithmetic

  /** The number of pieces, rounding up. */
  function Pieces(len: nat, m: nat): nat
    requires 0 < m
  {
    (len + m - 1) / m
  }

  function Base(len: nat, m: nat): nat
    requires 0 < m && 0 < len
  {
    PiecesBounds(len, m);
    len / Pieces(len, m)
  }

  function Large(len: nat, m: nat): nat
    requires 0 < m && 0 < len
  {
    PiecesBounds(len, m);
    len % Pieces(len, m)
  }

  /** Where piece i starts; piece i ends where piece i + 1 starts. */
  function Offset(len: nat, m: nat, i: nat): nat
    requires 0 < m && 0 < len && 0 < i
  {
    Base(len, m) * (i - 1) + if i - 1 <= Large(len, m) then i - 1 else Large(len, m)
  }

  function Length(len: nat, m: nat, i: nat): nat
    requires 0 < m && 0 < len
  {
    Base(len, m) + if i <= Large(len, m) then 1 else 0
  }

  lemma PiecesBounds(len: nat, m: nat)
    requires 0 < m && 0 < len
    ensures 1 <= Pieces(len, m) <= len <= Pieces(len, m) * m
  {
    var n := Pieces(len, m);
    DivMod(len + m - 1, m);
    SumBelowProduct(len, m);
    MulCancel(n, len, m);
    MulCancel(0, n, m);
  }

  lemma {:induction false} SumBelowProduct(a: nat, b: nat)
    requires 0 < a && 0 < b
    ensures a + b - 1 <= a * b
  {
    if a > 1 {
      SumBelowProduct(a - 1, b);
      assert a * b == (a - 1) * b + b;
    }
  }

  lemma MulCancel(a: nat, b: nat, c: nat)
    ensures 0 < c && a * c <= b * c ==> a <= b
    ensures a * c < b * c ==> a < b
  {
    if b < a {
      assert a * c == b * c + (a - b) * c;
    }
  }

  lemma DivMod(a: nat, b: nat)
    requires 0 < b
    ensures a == (a / b) * b + a % b && 0 <= a % b < b
  {
  }

  /** Neighbouring pieces touch. */
  lemma OffsetNext(len: nat, m: nat, i: nat)
    requires 0 < m && 0 < len && 0 < i
    ensures Offset(len, m, i + 1) == Offset(len, m, i) + Length(len, m, i)
  {
    var b := Base(len, m);
    assert b * i == b * (i - 1) + b;
  }

  lemma OffsetEnds(len: nat, m: nat)
    requires 0 < m && 0 < len
    ensures Offset(len, m, 1) == 0
    ensures Offset(len, m, Pieces(len, m) + 1) == len
  {
    PiecesBounds(len, m);
    DivMod(len, Pieces(len, m));
  }

  lemma {:induction false} OffsetMono(len: nat, m: nat, i: nat, j: nat)
    requires 0 < m && 0 < len && 0 < i <= j
    ensures Offset(len, m, i) <= Offset(len, m, j)
    decreases j - i
  {
    if i < j {
      OffsetNext(len, m, j - 1);
      OffsetMono(len, m, i, j - 1);
    }
  }

  lemma LengthBounds(len: nat, m: nat, i: nat)
    requires 0 < m && 0 < len
    ensures 1 <= Base(len, m) <= Length(len, m, i)
    ensures 1 <= i ==> Length(len, m, i) <= m
  {
    var n := Pieces(len, m);
    PiecesBounds(len, m);
    DivMod(len, n);
    MulCancel(Base(len, m), m, n);
    assert n * m == m * n;
    MulCancel(0, Base(len, m), n);
  }

  /** There are as few pieces as the limit allows, and no two differ by more than one byte. */
  lemma FewestAndEven(len: nat, m: nat, n: nat, i: nat, j: nat)
    requires 0 < m && 0 < len && 1 <= i <= j <= Pieces(len, m)
    ensures len <= n * m ==> Pieces(len, m) <= n
    ensures Length(len, m, j) <= Length(len, m, i) <= Length(len, m, j) + 1
  {
    if len <= n * m {
      var k := Pieces(len, m);
      DivMod(len + m - 1, m);
      assert k * m < (n + 1) * m;
      MulCancel(k, n + 1, m);
    }
  }

  lemma PieceInside(len: nat, m: nat, i: nat)
    requires 0 < m && 0 < len && 1 <= i <= Pieces(len, m)
    ensures Offset(len, m, i) + Length(len, m, i) == Offset(len, m, i + 1) <= len
  {
    OffsetNext(len, m, i);
    OffsetEnds(len, m);
    OffsetMono(len, m, i + 1, Pieces(len, m) + 1);
  }

  function Count(blob: Blob, m: nat): nat
    requires 0 < m
  {
    Pieces(|blob|, m)
  }

  function Piece(blob: Blob, m: nat, i: nat): Blob
    requires 0 < m && blob != [] && 1 <= i <= Count(blob, m)
  {
    PieceInside(|blob|, m, i);
    blob[Offset(|blob|, m, i)..Offset(|blob|, m, i + 1)]
  }

  function Joined(blob: Blob, m: nat, k: nat): Blob
    requires 0 < m && blob != [] && k <= Count(blob, m)
  {
    if k == 0 then [] else Joined(blob, m, k - 1) + Piece(blob, m, k)
  }

  lemma {:induction false} JoinedPrefix(blob: Blob, m: nat, k: nat)
    requires 0 < m && blob != [] && k <= Count(blob, m)
    ensures Offset(|blob|, m, k + 1) <= |blob|
    ensures Joined(blob, m, k) == blob[..Offset(|blob|, m, k + 1)]
  {
    if k == 0 {
      OffsetEnds(|blob|, m);
    } else {
      JoinedPrefix(blob, m, k - 1);
      PieceInside(|blob|, m, k);
    }
  }

  /** The pieces partition the message: in order they are the message, none is empty and
      none is longer than a frame may carry. */
  lemma PiecesPartition(blob: Blob, m: nat)
    requires 0 < m && blob != []
    ensures 1 <= Count(blob, m)
    ensures Joined(blob, m, Count(blob, m)) == blob
    ensures forall i :: 1 <= i <= Count(blob, m) ==> 1 <= |Piece(blob, m, i)| <= m
  {
    PiecesBounds(|blob|, m);
    JoinedPrefix(blob, m, Count(blob, m));
    OffsetEnds(|blob|, m);
    forall i | 1 <= i <= Count(blob, m) ensures 1 <= |Piece(blob, m, i)| <= m {
      PieceInside(|blob|, m, i);
      LengthBounds(|blob|, m, i);
    }
  }

  // ---------------------------------------------------------------- numbers on the wire

  function SetTop(i: nat): nat {
    if i / TOP_BIT % 2 == 1 then i else i + TOP_BIT
  }

  /** The 16-bit fragment number that is sent for piece i of n. */
  function WireNumber(i: nat, n: nat): nat {
    if i == n then SetTop(i) else i
  }

  function IsLast(wire: nat): bool {
    wire / TOP_BIT % 2 == 1
  }

  function Number(wire: nat): nat {
    wire % TOP_BIT
  }

  /** The receiver reads back the number and the last-piece mark of every piece exactly when
      there are fewer than 2^15 pieces; the sender does not check this. */
  lemma WireNumbersDecode(n: nat)
    requires 1 <= n < 0x10000
    ensures (forall i :: 1 <= i <= n ==> Number(WireNumber(i, n)) == i && (IsLast(WireNumber(i, n)) <==> i == n))
            <==> n < TOP_BIT
  {
    if n >= TOP_BIT {
      assert Number(WireNumber(n, n)) < TOP_BIT;
    }
  }

  lemma WireDecodes(i: nat, n: nat)
    requires 1 <= i <= n < TOP_BIT
    ensures Number(WireNumber(i, n)) == i && (IsLast(WireNumber(i, n)) <==> i == n)
  {
  }

  // ---------------------------------------------------------------- sending

  datatype Frame = Frame(key: Key, wire: nat, data: Blob)

  function FrameOf(key: Key, blob: Blob, m: nat, i: nat): Frame
    requires 0 < m && blob != [] && 1 <= i <= Count(blob, m)
  {
    Frame(key, WireNumber(i, Count(blob, m)), Piece(blob, m, i))
  }

  /** A shuffle of the numbers 1 to n. */
  ghost predicate IsShuffle(order: seq<nat>, n: nat) {
    && |order| == n
    && forall i :: 1 <= i <= n <==> i in order
  }

  /** The send loop of sendMessage. `order` is the outcome of the random shuffle. The bound on
      the number of pieces keeps the 16-bit counters of the loop from wrapping. */
  method SendMessage(key: Key, blob: Blob, m: nat, order: seq<nat>) returns (ok: bool, frames: seq<Frame>)
    requires MIN_FRAGMENT_SIZE <= m <= MAX_FRAGMENT_SIZE
    requires Count(blob, m) < 0xFFFF
    requires IsShuffle(order, Count(blob, m))
    ensures ok <==> blob != []
    ensures !ok ==> frames == []
    ensures ok ==> |frames| == Count(blob, m)
    ensures ok ==> forall c :: 0 <= c < |frames| ==> 1 <= order[c] <= Count(blob, m) && frames[c] == FrameOf(key, blob, m, order[c])
    ensures ok ==> forall i :: 1 <= i <= Count(blob, m) ==> FrameOf(key, blob, m, i) in frames
  {
    frames := [];
    var len := |blob|;
    if len == 0 {
      return false, [];
    }
    PiecesBounds(len, m);
    var numFrags := (len + m - 1) / m;
    var baseSize := len / numFrags;
    var numLarge := len % numFrags;
    for c := 0 to numFrags
      invariant |frames| == c
      invariant forall d :: 0 <= d < c ==> 1 <= order[d] <= Count(blob, m) && frames[d] == FrameOf(key, blob, m, order[d])
    {
      var i := order[c];
      assert i in order;
      var wire := if i == numFrags then SetTop(i) else i;
      var start := baseSize * (i - 1) + if i - 1 <= numLarge then i - 1 else numLarge;
      var size := baseSize;
      if i <= numLarge {
        size := size + 1;
      }
      PieceInside(len, m, i);
      assert start == Offset(len, m, i) && size == Length(len, m, i);
      frames := frames + [Frame(key, wire, blob[start..start + size])];
    }
    ok := true;
    forall i | 1 <= i <= Count(blob, m) ensures FrameOf(key, blob, m, i) in frames {
      assert i in order;
      var c :| 0 <= c < |order| && order[c] == i;
      assert frames[c] == FrameOf(key, blob, m, i);
    }
  }

  // ---------------------------------------------------------------- receiving

  datatype Collection = Collection(num: nat, received: nat, frags: map<nat, Blob>)

  const EMPTY := Collection(0, 0, map[])

  type Table = map<Key, Collection>

  function Lookup(t: Table, key: Key): Collection {
    if key in t then t[key] else EMPTY
  }

  /** The pieces with numbers below k, in ascending order. */
  function Assemble(frags: map<nat, Blob>, k: nat): Blob {
    if k == 0 then [] else Assemble(frags, k - 1) + if k - 1 in frags then frags[k - 1] else []
  }

  function Collect(c: Collection, wire: nat, data: Blob): Collection {
    var i := Number(wire);
    var num := if c.num <= i then i + (if IsLast(wire) then 0 else 1) else c.num;
    if i in c.frags then c.(num := num)
    else Collection(num, c.received + 1, c.frags[i := data])
  }

  function Completes(c: Collection, wire: nat, data: Blob): bool {
    Number(wire) !in c.frags && Collect(c, wire, data).received == Collect(c, wire, data).num
  }

  /** One data frame for a message that is not stored yet. `builds` tells whether a complete
      blob could be turned into a message; if not, the pieces stay. */
  function Receive(t: Table, f: Frame, builds: bool): (Table, Option<Blob>) {
    var c := Lookup(t, f.key);
    var c' := Collect(c, f.wire, f.data);
    if Completes(c, f.wire, f.data) && builds then (t - {f.key}, Some(Assemble(c'.frags, TOP_BIT)))
    else (t[f.key := c'], None)
  }

  class FragmentReceiver {
    var fragments: Table

    constructor ()
      ensures fragments == map[]
    {
      fragments := map[];
    }

    method GetFragment(f: Frame, builds: bool) returns (message: Option<Blob>)
      modifies this
      ensures (fragments, message) == Receive(old(fragments), f, builds)
    {
      message := None;
      var lastFragment := IsLast(f.wire);
      var number := Number(f.wire);
      if f.key !in fragments {
        fragments := fragments[f.key := Collection(0, 0, map[])];
      }
      var frags := fragments[f.key];
      if frags.num <= number {
        frags := frags.(num := number + if lastFragment then 0 else 1);
      }
      var complete := false;
      if number !in frags.frags {
        frags := frags.(received := frags.received + 1, frags := frags.frags[number := f.data]);
        complete := frags.received == frags.num;
      }
      assert frags == Collect(Lookup(old(fragments), f.key), f.wire, f.data);
      fragments := fragments[f.key := frags];
      assert fragments == old(fragments)[f.key := frags];
      if complete {
        var blob := Concatenate(frags.frags);
        if builds {
          message := Some(blob);
          fragments := fragments - {f.key};
          assert fragments == old(fragments) - {f.key};
        }
      }
    }

    /** Copies the pieces into one blob in ascending order of their numbers. */
    method Concatenate(frags: map<nat, Blob>) returns (blob: Blob)
      ensures blob == Assemble(frags, TOP_BIT)
    {
      blob := [];
      for i := 0 to TOP_BIT
        invariant blob == Assemble(frags, i)
      {
        if i in frags {
          blob := blob + frags[i];
        }
      }
    }
  }

  // ---------------------------------------------------------------- honest frames

  /** `blobs` gives, for every message in circulation, its one blob. */
  ghost predicate Sound(blobs: map<Key, Blob>, m: nat) {
    0 < m && forall k :: k in blobs ==> blobs[k] != [] && Count(blobs[k], m) < TOP_BIT
  }

  ghost predicate Honest(blobs: map<Key, Blob>, m: nat, f: Frame)
    requires Sound(blobs, m)
  {
    f.key in blobs && exists i :: 1 <= i <= Count(blobs[f.key], m) && f == FrameOf(f.key, blobs[f.key], m, i)
  }

  lemma HonestFrame(blobs: map<Key, Blob>, m: nat, f: Frame)
    requires Sound(blobs, m) && Honest(blobs, m, f)
    ensures 1 <= Number(f.wire) <= Count(blobs[f.key], m)
    ensures f == FrameOf(f.key, blobs[f.key], m, Number(f.wire))
  {
    var i :| 1 <= i <= Count(blobs[f.key], m) && f == FrameOf(f.key, blobs[f.key], m, i);
    WireDecodes(i, Count(blobs[f.key], m));
  }

  function Numbers(n: nat): (s: set<nat>)
    ensures forall i :: i in s <==> 1 <= i <= n
  {
    if n == 0 then {} else Numbers(n - 1) + {n}
  }

  lemma {:induction false} NumbersSize(n: nat)
    ensures |Numbers(n)| == n
  {
    if n > 0 {
      NumbersSize(n - 1);
    }
  }

  lemma SubsetSize(a: set<nat>, b: set<nat>)
    requires a <= b
    ensures |a| <= |b| && (|a| == |b| <==> a == b)
  {
    assert b == a + (b - a);
    assert |b| == |a| + |b - a|;
    if |b - a| == 0 {
      assert b - a == {};
    }
  }

  /** What a collection for a message must look like: the pieces it holds are pieces of that
      message, and it announces a count that only a full collection can reach. */
  ghost predicate Partial(c: Collection, blob: Blob, m: nat)
    requires 0 < m && blob != []
  {
    && Counted(c, Count(blob, m))
    && (forall i :: i in c.frags ==> c.frags[i] == Piece(blob, m, i))
  }

  ghost predicate Counted(c: Collection, n: nat) {
    && (forall i :: i in c.frags ==> 1 <= i <= n)
    && c.received == |c.frags|
    && (n in c.frags ==> c.num == n)
    && (n !in c.frags ==> c.num <= n && forall i :: i in c.frags ==> i < c.num)
  }

  lemma CountedShort(c: Collection, n: nat)
    requires Counted(c, n) && c.frags != map[] && n !in c.frags
    ensures c.received < c.num
  {
    var i :| i in c.frags.Keys;
    NumbersSize(c.num - 1);
    SubsetSize(c.frags.Keys, Numbers(c.num - 1));
    assert |c.frags.Keys| == |c.frags|;
  }

  lemma CountedFull(c: Collection, n: nat)
    requires Counted(c, n) && c.frags != map[] && 1 <= n
    ensures c.received == c.num <==> c.frags.Keys == Numbers(n)
  {
    if n !in c.frags {
      CountedShort(c, n);
      assert n in Numbers(n);
    } else {
      NumbersSize(n);
      assert |c.frags.Keys| == |c.frags|;
      SubsetSize(c.frags.Keys, Numbers(n));
    }
  }

  lemma AddedKey(frags: map<nat, Blob>, i: nat, data: Blob)
    ensures frags[i := data].Keys == frags.Keys + {i}
    ensures i !in frags ==> |frags[i := data]| == |frags| + 1
  {
    assert |frags[i := data]| == |frags[i := data].Keys| && |frags| == |frags.Keys|;
  }

  lemma CollectPartial(c: Collection, blob: Blob, m: nat, key: Key, i: nat)
    requires 0 < m && blob != [] && Partial(c, blob, m)
    requires 1 <= i <= Count(blob, m) < TOP_BIT
    ensures var f := FrameOf(key, blob, m, i); var c' := Collect(c, f.wire, f.data);
            Partial(c', blob, m) && c'.frags.Keys == c.frags.Keys + {i}
  {
    var n := Count(blob, m);
    WireDecodes(i, n);
    CollectKeeps(c, WireNumber(i, n), Piece(blob, m, i), n, i);
    var c' := Collect(c, WireNumber(i, n), Piece(blob, m, i));
    assert forall j :: j in c'.frags ==> c'.frags[j] == Piece(blob, m, j);
  }

  /** The book-keeping of one frame, for piece i of n. */
  lemma CollectKeeps(c: Collection, wire: nat, data: Blob, n: nat, i: nat)
    requires 1 <= i <= n && Number(wire) == i && (IsLast(wire) <==> i == n)
    requires Counted(c, n)
    ensures Counted(Collect(c, wire, data), n)
    ensures Collect(c, wire, data).frags == if i in c.frags then c.frags else c.frags[i := data]
    ensures Collect(c, wire, data).frags.Keys == c.frags.Keys + {i}
  {
    AddedKey(c.frags, i, data);
  }

  lemma {:induction false} AssembleFull(frags: map<nat, Blob>, blob: Blob, m: nat, k: nat)
    requires 0 < m && blob != []
    requires frags.Keys == Numbers(Count(blob, m))
    requires forall i :: i in frags ==> frags[i] == Piece(blob, m, i)
    ensures k <= Count(blob, m) ==> Assemble(frags, k + 1) == Joined(blob, m, k)
    ensures Count(blob, m) <= k ==> Assemble(frags, k + 1) == Joined(blob, m, Count(blob, m))
  {
    if k == 0 {
      assert 0 !in frags.Keys;
      assert Assemble(frags, 0) == [];
    } else {
      AssembleFull(frags, blob, m, k - 1);
      assert k in frags <==> k in Numbers(Count(blob, m));
    }
  }

  lemma CompletesExactly(c: Collection, blob: Blob, m: nat, f: Frame)
    requires 0 < m && blob != [] && Partial(c, blob, m)
    requires 1 <= Number(f.wire) <= Count(blob, m) < TOP_BIT && f == FrameOf(f.key, blob, m, Number(f.wire))
    ensures var c', i := Collect(c, f.wire, f.data), Number(f.wire);
            && Partial(c', blob, m) && c'.frags.Keys == c.frags.Keys + {i}
            && (Completes(c, f.wire, f.data) <==> i !in c.frags && c.frags.Keys + {i} == Numbers(Count(blob, m)))
            && (Completes(c, f.wire, f.data) ==> Assemble(c'.frags, TOP_BIT) == blob)
  {
    CollectPartial(c, blob, m, f.key, Number(f.wire));
    var c' := Collect(c, f.wire, f.data);
    assert Number(f.wire) in c'.frags;
    PiecesBounds(|blob|, m);
    CountedFull(c', Count(blob, m));
    if c'.frags.Keys == Numbers(Count(blob, m)) {
      AssembleFull(c'.frags, blob, m, TOP_BIT - 1);
      PiecesPartition(blob, m);
    }
  }

  /** A frame of an honest sender: the collection stays a partial copy of the message, and the
      message is handed over exactly when this frame brings the last missing piece. */
  lemma ReceiveHonest(blobs: map<Key, Blob>, m: nat, t: Table, f: Frame, builds: bool)
    requires Sound(blobs, m) && Honest(blobs, m, f)
    requires Partial(Lookup(t, f.key), blobs[f.key], m)
    ensures var (t', message) := Receive(t, f, builds);
            var got, i, full := Lookup(t, f.key).frags.Keys, Number(f.wire), Numbers(Count(blobs[f.key], m));
            && Partial(Lookup(t', f.key), blobs[f.key], m)
            && (message.Some? <==> builds && i !in got && got + {i} == full)
            && (message.Some? ==> message.value == blobs[f.key])
            && Lookup(t', f.key).frags.Keys == if message.Some? then {} else got + {i}
  {
    HonestFrame(blobs, m, f);
    CompletesExactly(Lookup(t, f.key), blobs[f.key], m, f);
  }

  // ---------------------------------------------------------------- every arrival order

  function TableAfter(frames: seq<Frame>): Table {
    if frames == [] then map[] else Receive(TableAfter(frames[..|frames| - 1]), frames[|frames| - 1], true).0
  }

  function Delivered(frames: seq<Frame>): seq<(Key, Blob)> {
    if frames == [] then [] else
      var init, f := frames[..|frames| - 1], frames[|frames| - 1];
      var message := Receive(TableAfter(init), f, true).1;
      Delivered(init) + if message.Some? then [(f.key, message.value)] else []
  }

  /** The reference: the piece numbers of `key` that arrived since it was last complete. */
  ghost function Arrived(blobs: map<Key, Blob>, m: nat, frames: seq<Frame>, key: Key): set<nat>
    requires Sound(blobs, m)
  {
    if frames == [] then {} else
      var before, f := Arrived(blobs, m, frames[..|frames| - 1], key), frames[|frames| - 1];
      if f.key != key || key !in blobs then before
      else if before + {Number(f.wire)} == Numbers(Count(blobs[key], m)) then {}
      else before + {Number(f.wire)}
  }

  /** The reference: each message, whole, at every frame that completes it. */
  ghost function Expected(blobs: map<Key, Blob>, m: nat, frames: seq<Frame>): seq<(Key, Blob)>
    requires Sound(blobs, m)
  {
    if frames == [] then [] else
      var init, f := frames[..|frames| - 1], frames[|frames| - 1];
      Expected(blobs, m, init) +
      if f.key in blobs && Arrived(blobs, m, init, f.key) + {Number(f.wire)} == Numbers(Count(blobs[f.key], m))
      then [(f.key, blobs[f.key])] else []
  }

  ghost predicate Matches(blobs: map<Key, Blob>, m: nat, frames: seq<Frame>, key: Key)
    requires Sound(blobs, m) && key in blobs
  {
    && Partial(Lookup(TableAfter(frames), key), blobs[key], m)
    && Lookup(TableAfter(frames), key).frags.Keys == Arrived(blobs, m, frames, key)
    && Arrived(blobs, m, frames, key) < Numbers(Count(blobs[key], m))
  }

  lemma MatchesStep(blobs: map<Key, Blob>, m: nat, frames: seq<Frame>, key: Key)
    requires Sound(blobs, m) && key in blobs && frames != []
    requires Matches(blobs, m, frames[..|frames| - 1], key)
    requires Honest(blobs, m, frames[|frames| - 1])
    ensures Matches(blobs, m, frames, key)
  {
    var init, f := frames[..|frames| - 1], frames[|frames| - 1];
    if f.key == key {
      HonestFrame(blobs, m, f);
      ReceiveHonest(blobs, m, TableAfter(init), f, true);
      OneMore(Arrived(blobs, m, init, key), Number(f.wire), Count(blobs[key], m));
    } else {
      ReceiveOther(TableAfter(init), f, true, key);
    }
  }

  lemma ReceiveOther(t: Table, f: Frame, builds: bool, key: Key)
    requires f.key != key
    ensures Lookup(Receive(t, f, builds).0, key) == Lookup(t, key)
  {
  }

  lemma OneMore(before: set<nat>, i: nat, n: nat)
    requires before < Numbers(n) && 1 <= i <= n
    ensures {} < Numbers(n)
    ensures before + {i} == Numbers(n) ==> i !in before
    ensures before + {i} != Numbers(n) ==> before + {i} < Numbers(n)
  {
    NotEmpty(n);
    if i in before {
      assert before + {i} == before;
    }
  }

  lemma NotEmpty(n: nat)
    requires 0 < n
    ensures {} < Numbers(n)
  {
    assert n in Numbers(n);
  }

  /** For every arrival order of honest frames, with losses, duplicates and interleaving, the
      receiver delivers exactly the original blobs, each exactly when it becomes complete. */
  lemma {:induction false} DeliversExactly(blobs: map<Key, Blob>, m: nat, frames: seq<Frame>)
    requires Sound(blobs, m)
    requires forall i :: 0 <= i < |frames| ==> Honest(blobs, m, frames[i])
    ensures Delivered(frames) == Expected(blobs, m, frames)
    ensures forall key :: key in blobs ==> Matches(blobs, m, frames, key)
  {
    if frames == [] {
      forall key | key in blobs ensures Matches(blobs, m, frames, key) {
        PiecesBounds(|blobs[key]|, m);
        NotEmpty(Count(blobs[key], m));
      }
    } else {
      var init, f := frames[..|frames| - 1], frames[|frames| - 1];
      DeliversExactly(blobs, m, init);
      HonestFrame(blobs, m, f);
      ReceiveHonest(blobs, m, TableAfter(init), f, true);
      forall key | key in blobs ensures Matches(blobs, m, frames, key) {
        MatchesStep(blobs, m, frames, key);
      }
    }
  }
}
