/** The peer replication protocol.

    Each server stores every message under its key, owes it to every server it knows until
    that server acknowledges it, and resends what it owes. The functions below are the
    updates that single database calls make (src/dbmysql.C) and what the peer listener does
    with one frame (src/udpmessenger.C, src/abacusd.C); each is one atomic step. The network
    keeps every packet that was ever sent: a packet may be delivered any number of times, in
    any order, or never.
 */
module Replication {
  import opened Bytes
  import opened Options
  import opened Fragments
  import opened MessageBlob

  // ---------------------------------------------------------------- one server

  datatype Row = Row(blob: Blob, processed: bool)

  /** `store` is the PeerMessage table, `owed` the PeerMessageNoAck table, `servers` the Server
      table. `queue` lists the messages handed to the message handler since the last start. */
  datatype Node = Node(id: nat, store: map<Key, Row>, owed: set<(Key, nat)>, servers: set<nat>,
                       frags: Table, queue: seq<Key>)

  function Others(n: Node): set<nat> {
    n.servers - {n.id}
  }

  function Owing(key: Key, to: set<nat>): (r: set<(Key, nat)>)
    ensures forall k, s :: (k, s) in r <==> k == key && s in to
  {
    set s | s in to :: (key, s)
  }

  /** One more than the greatest message number of this server. */
  ghost function NextId(keys: set<Key>, id: nat): (r: nat)
    ensures 0 < r
    ensures forall k :: k in keys && k.server == id ==> k.message < r
    ensures r == 1 || Key(id, r - 1) in keys
  {
    if keys == {} then 1 else
      var k :| k in keys;
      var rest := NextId(keys - {k}, id);
      if k.server == id && rest <= k.message then k.message + 1 else rest
  }

  function PutLocal(n: Node, key: Key, blob: Blob): Node {
    n.(store := n.store[key := Row(blob, false)],
       owed := n.owed + Owing(key, Others(n)),
       queue := n.queue + [key])
  }

  /** Fails, changing nothing, when the key is stored already. */
  function PutRemote(n: Node, blob: Blob): (Node, bool) {
    var key := KeyOf(blob);
    if key in n.store then (n, false)
    else (n.(store := n.store[key := Row(blob, false)],
             owed := n.owed + Owing(key, Others(n) - {key.server}),
             queue := n.queue + [key]), true)
  }

  function AllOwing(keys: set<Key>, s: nat): (r: set<(Key, nat)>)
    ensures forall k, t :: (k, t) in r <==> k in keys && t == s
  {
    set k | k in keys :: (k, s)
  }

  function AddServer(n: Node, s: nat): (Node, bool) {
    if s in n.servers then (n, false)
    else (n.(servers := n.servers + {s},
             owed := n.owed + if s != n.id then AllOwing(n.store.Keys, s) else {}), true)
  }

  function PutAck(n: Node, key: Key, acker: nat): Node {
    if acker == 0 || key.server == 0 || key.message == 0 then n
    else n.(owed := n.owed - {(key, acker)})
  }

  function MarkProcessed(n: Node, key: Key): Node {
    if key in n.store then n.(store := n.store[key := n.store[key].(processed := true)]) else n
  }

  /** `order` is the list of unprocessed messages as the start-up query returns it. */
  function Reboot(n: Node, order: seq<Key>): Node {
    n.(frags := map[], queue := order)
  }

  ghost predicate Unprocessed(n: Node, order: seq<Key>) {
    && (forall k :: k in order <==> k in n.store && !n.store[k].processed)
    && forall i, j :: 0 <= i < j < |order| ==> order[i] != order[j]
  }

  // ---------------------------------------------------------------- the peer listener

  datatype Packet =
    | Data(dest: nat, frame: Frame)
    | Ack(dest: nat, key: Key, acker: nat)

  /** What the environment decides: whether the lookup of the message works, whether the
      assembled blob can be built into a message, and whether the insert works. */
  datatype Env = Env(lookup: bool, builds: bool, insert: bool)

  function Acks(n: Node, key: Key): (r: set<Packet>)
    ensures forall p :: p in r ==> p.Ack? && p.key == key && p.acker == n.id && p.dest in Others(n)
  {
    set s | s in Others(n) :: Ack(s, key, n.id)
  }

  function Listen(n: Node, f: Frame, env: Env): (Node, set<Packet>) {
    if env.lookup && f.key in n.store then (n, Acks(n, f.key)) else
      var (frags, message) := Receive(n.frags, f, env.builds);
      var n := n.(frags := frags);
      if message.None? || !env.insert then (n, {}) else
        var (n', ok) := PutRemote(n, message.value);
        (n', if ok then Acks(n', KeyOf(message.value)) else {})
  }

  // ---------------------------------------------------------------- the whole system

  /** `blobs` remembers every message that was ever made. */
  datatype System = System(nodes: map<nat, Node>, net: set<Packet>, blobs: map<Key, Blob>)

  datatype Step =
    | Local(a: nat, time: nat, kind: nat, signature: Blob, data: Blob)
    | Send(a: nat, to: nat, key: Key, piece: nat)
    | Deliver(packet: Packet, env: Env)
    | Join(a: nat, server: nat)
    | Process(a: nat, key: Key)
    | Restart(a: nat, order: seq<Key>)

  ghost function NewKey(n: Node): Key {
    Key(n.id, NextId(n.store.Keys, n.id))
  }

  ghost function NewBlob(n: Node, st: Step): Blob
    requires st.Local?
  {
    MakeBlob(Envelope(Header(NewKey(n), st.time, st.kind), st.signature, st.data))
  }

  ghost predicate Enabled(s: System, m: nat, st: Step)
    requires 0 < m
  {
    match st
    case Local(a, time, kind, signature, data) =>
      && a in s.nodes
      && Fits(Envelope(Header(NewKey(s.nodes[a]), time, kind), signature, data))
      && Count(NewBlob(s.nodes[a], st), m) < TOP_BIT
    case Send(a, _, key, piece) =>
      && a in s.nodes && key in s.nodes[a].store && s.nodes[a].store[key].blob != []
      && 1 <= piece <= Count(s.nodes[a].store[key].blob, m)
    case Deliver(packet, _) => packet in s.net && packet.dest in s.nodes
    case Join(a, _) => a in s.nodes
    case Process(a, key) => a in s.nodes && key in s.nodes[a].queue
    case Restart(a, order) => a in s.nodes && Unprocessed(s.nodes[a], order)
  }

  ghost function Do(s: System, m: nat, st: Step): System
    requires 0 < m && Enabled(s, m, st)
  {
    match st
    case Local(a, _, _, _, _) =>
      var n := s.nodes[a];
      System(s.nodes[a := PutLocal(n, NewKey(n), NewBlob(n, st))], s.net, s.blobs[NewKey(n) := NewBlob(n, st)])
    case Send(a, to, key, piece) =>
      s.(net := s.net + {Data(to, FrameOf(key, s.nodes[a].store[key].blob, m, piece))})
    case Deliver(Data(dest, frame), env) =>
      var (n, out) := Listen(s.nodes[dest], frame, env);
      s.(nodes := s.nodes[dest := n], net := s.net + out)
    case Deliver(Ack(dest, key, acker), _) => s.(nodes := s.nodes[dest := PutAck(s.nodes[dest], key, acker)])
    case Join(a, server) => s.(nodes := s.nodes[a := AddServer(s.nodes[a], server).0])
    case Process(a, key) => s.(nodes := s.nodes[a := MarkProcessed(s.nodes[a], key)])
    case Restart(a, order) => s.(nodes := s.nodes[a := Reboot(s.nodes[a], order)])
  }

  /** Servers start with empty tables; each knows its own number. */
  ghost predicate Initial(s: System) {
    && s.net == {} && s.blobs == map[]
    && forall a :: a in s.nodes ==> s.nodes[a].id == a && s.nodes[a] == Node(a, map[], {}, s.nodes[a].servers, map[], [])
  }

  ghost predicate Run(ss: seq<System>, steps: seq<Step>, m: nat) {
    && 0 < m && |ss| == |steps| + 1 && Initial(ss[0])
    && forall i :: 0 <= i < |steps| ==> Enabled(ss[i], m, steps[i]) && ss[i + 1] == Do(ss[i], m, steps[i])
  }

  // ---------------------------------------------------------------- the invariant

  ghost predicate Holds(s: System, a: nat, key: Key) {
    a in s.nodes && key in s.nodes[a].store
  }

  /** Everything stored is the one blob of its key; what is half received is part of it. */
  ghost predicate ContentsOk(s: System, m: nat, n: Node)
    requires Sound(s.blobs, m)
  {
    && (forall k :: k in n.store ==> k in s.blobs && n.store[k].blob == s.blobs[k])
    && (forall k :: k in n.frags ==> k in s.blobs && Partial(n.frags[k], s.blobs[k], m))
  }

  /** Whatever a server stores, it owes to each server it knows, or that server stores it. */
  ghost predicate OwedOk(s: System, n: Node) {
    forall k, b :: k in n.store && b in n.servers && b != n.id ==> (k, b) in n.owed || Holds(s, b, k)
  }

  ghost predicate QueueOk(n: Node) {
    && (forall k :: k in n.queue ==> k in n.store)
    && (forall i, j :: 0 <= i < j < |n.queue| ==> n.queue[i] != n.queue[j])
  }

  ghost predicate NodeOk(s: System, m: nat, a: nat)
    requires Sound(s.blobs, m) && a in s.nodes
  {
    && s.nodes[a].id == a
    && ContentsOk(s, m, s.nodes[a])
    && OwedOk(s, s.nodes[a])
    && QueueOk(s.nodes[a])
  }

  ghost predicate PacketOk(s: System, m: nat, p: Packet)
    requires Sound(s.blobs, m)
  {
    match p
    case Data(_, frame) => Honest(s.blobs, m, frame)
    case Ack(_, key, acker) => Holds(s, acker, key)
  }

  ghost predicate BlobsOk(s: System, m: nat) {
    Sound(s.blobs, m) && forall k :: k in s.blobs ==> KeyOf(s.blobs[k]) == k && Holds(s, k.server, k)
  }

  ghost predicate Inv(s: System, m: nat) {
    && BlobsOk(s, m)
    && (forall a :: a in s.nodes ==> NodeOk(s, m, a))
    && (forall p :: p in s.net ==> PacketOk(s, m, p))
  }

  // ---------------------------------------------------------------- one node changes

  /** The effect of a step on the rest of the system: only node a changes, and it forgets no
      stored key; no message changes. */
  ghost predicate Grows(s: System, s': System, a: nat) {
    && s'.nodes.Keys == s.nodes.Keys && a in s.nodes
    && (forall b :: b in s.nodes && b != a ==> s'.nodes[b] == s.nodes[b])
    && (forall k :: k in s.nodes[a].store ==> k in s'.nodes[a].store)
    && (forall k :: k in s.blobs ==> k in s'.blobs && s'.blobs[k] == s.blobs[k])
  }

  lemma HoldsKept(s: System, s': System, a: nat, b: nat, k: Key)
    requires Grows(s, s', a) && Holds(s, b, k)
    ensures Holds(s', b, k)
  {
  }

  lemma OwedKept(s: System, s': System, a: nat, n: Node)
    requires Grows(s, s', a) && OwedOk(s, n)
    ensures OwedOk(s', n)
  {
    forall k, b | k in n.store && b in n.servers && b != n.id && (k, b) !in n.owed ensures Holds(s', b, k) {
      HoldsKept(s, s', a, b, k);
    }
  }

  lemma ContentsKept(s: System, s': System, m: nat, a: nat, n: Node)
    requires Sound(s.blobs, m) && Sound(s'.blobs, m)
    requires Grows(s, s', a) && ContentsOk(s, m, n)
    ensures ContentsOk(s', m, n)
  {
  }

  lemma HonestKept(s: System, s': System, m: nat, a: nat, f: Frame)
    requires Sound(s.blobs, m) && Sound(s'.blobs, m)
    requires Grows(s, s', a) && Honest(s.blobs, m, f)
    ensures Honest(s'.blobs, m, f)
  {
    HonestFrame(s.blobs, m, f);
  }

  lemma PacketKept(s: System, s': System, m: nat, a: nat, p: Packet)
    requires Sound(s.blobs, m) && Sound(s'.blobs, m)
    requires Grows(s, s', a) && PacketOk(s, m, p)
    ensures PacketOk(s', m, p)
  {
    match p
    case Data(_, frame) => HonestKept(s, s', m, a, frame);
    case Ack(_, key, acker) => HoldsKept(s, s', a, acker, key);
  }

  /** It is enough to look at the node, the packets and the messages that are new. */
  lemma StepKeeps(s: System, s': System, m: nat, a: nat)
    requires Inv(s, m) && Grows(s, s', a)
    requires BlobsOk(s', m)
    requires NodeOk(s', m, a)
    requires forall p :: p in s'.net && p !in s.net ==> PacketOk(s', m, p)
    ensures Inv(s', m)
  {
    forall b | b in s'.nodes ensures NodeOk(s', m, b) {
      if b != a {
        assert NodeOk(s, m, b);
        OwedKept(s, s', a, s.nodes[b]);
        ContentsKept(s, s', m, a, s.nodes[b]);
      }
    }
    forall p | p in s'.net ensures PacketOk(s', m, p) {
      if p in s.net {
        PacketKept(s, s', m, a, p);
      }
    }
  }

  ghost predicate Fresh(s: System, m: nat, a: nat, n: Node)
    requires Sound(s.blobs, m)
  {
    && a in s.nodes && n.id == a
    && (forall k :: k in s.nodes[a].store ==> k in n.store)
    && ContentsOk(s, m, n) && OwedOk(s, n) && QueueOk(n)
  }

  /** Replacing one server by a good successor, which may acknowledge what it stores. */
  lemma NodeStep(s: System, s': System, m: nat, a: nat, n: Node, out: set<Packet>)
    requires Inv(s, m) && Fresh(s, m, a, n)
    requires forall p :: p in out ==> p.Ack? && p.acker == a && p.key in n.store
    requires s' == System(s.nodes[a := n], s.net + out, s.blobs)
    ensures Inv(s', m)
  {
    assert Grows(s, s', a);
    forall k | k in s'.blobs ensures Holds(s', k.server, k) {
      HoldsKept(s, s', a, k.server, k);
    }
    OwedKept(s, s', a, n);
    ContentsKept(s, s', m, a, n);
    StepKeeps(s, s', m, a);
  }

  lemma QuietStep(s: System, s': System, m: nat, a: nat, n: Node)
    requires Inv(s, m) && Fresh(s, m, a, n)
    requires s' == System(s.nodes[a := n], s.net, s.blobs)
    ensures Inv(s', m)
  {
    assert s.net + {} == s.net;
    NodeStep(s, s', m, a, n, {});
  }

  // ---------------------------------------------------------------- the steps

  lemma QueueGrows(n: Node, n': Node, key: Key)
    requires QueueOk(n) && key !in n.store
    requires n'.queue == n.queue + [key] && n'.store.Keys == n.store.Keys + {key}
    ensures QueueOk(n')
  {
    forall k | k in n'.queue ensures k in n'.store {
      assert k in n'.store.Keys;
    }
  }

  /** A new message of server a: a key nobody has used and its blob. */
  lemma LocalBlobs(s: System, s': System, m: nat, a: nat, key: Key, blob: Blob)
    requires Inv(s, m) && a in s.nodes && key == NewKey(s.nodes[a])
    requires KeyOf(blob) == key && blob != [] && Count(blob, m) < TOP_BIT
    requires s' == System(s.nodes[a := PutLocal(s.nodes[a], key, blob)], s.net, s.blobs[key := blob])
    ensures key !in s.nodes[a].store && Grows(s, s', a) && BlobsOk(s', m)
  {
    assert NodeOk(s, m, a);
    assert key !in s.nodes[a].store && !Holds(s, a, key);
    assert key !in s.blobs;
    assert Grows(s, s', a);
    forall k | k in s'.blobs ensures KeyOf(s'.blobs[k]) == k && Holds(s', k.server, k) {
      if k != key {
        HoldsKept(s, s', a, k.server, k);
      }
    }
  }

  lemma LocalNode(s: System, m: nat, n: Node, key: Key, blob: Blob)
    requires Sound(s.blobs, m) && ContentsOk(s, m, n) && OwedOk(s, n) && QueueOk(n)
    requires key !in n.store && key in s.blobs && s.blobs[key] == blob
    ensures var n' := PutLocal(n, key, blob); ContentsOk(s, m, n') && OwedOk(s, n') && QueueOk(n')
  {
    QueueGrows(n, PutLocal(n, key, blob), key);
  }

  lemma LocalInv(s: System, s': System, m: nat, a: nat, key: Key, blob: Blob)
    requires Inv(s, m) && a in s.nodes && key == NewKey(s.nodes[a])
    requires KeyOf(blob) == key && blob != [] && Count(blob, m) < TOP_BIT
    requires s' == System(s.nodes[a := PutLocal(s.nodes[a], key, blob)], s.net, s.blobs[key := blob])
    ensures Inv(s', m)
  {
    LocalBlobs(s, s', m, a, key, blob);
    assert NodeOk(s, m, a);
    OwedKept(s, s', a, s.nodes[a]);
    ContentsKept(s, s', m, a, s.nodes[a]);
    LocalNode(s', m, s.nodes[a], key, blob);
    StepKeeps(s, s', m, a);
  }

  lemma SendInv(s: System, s': System, m: nat, a: nat, to: nat, key: Key, piece: nat)
    requires Inv(s, m) && a in s.nodes && key in s.nodes[a].store
    requires s.nodes[a].store[key].blob != [] && 1 <= piece <= Count(s.nodes[a].store[key].blob, m)
    requires s' == s.(net := s.net + {Data(to, FrameOf(key, s.nodes[a].store[key].blob, m, piece))})
    ensures Inv(s', m)
  {
    assert NodeOk(s, m, a);
    assert Honest(s.blobs, m, FrameOf(key, s.blobs[key], m, piece));
    forall b | b in s'.nodes ensures NodeOk(s', m, b) {
      assert NodeOk(s, m, b);
      assert forall c, k :: Holds(s, c, k) <==> Holds(s', c, k);
    }
    forall p | p in s'.net ensures PacketOk(s', m, p) {
      if p in s.net {
        assert PacketOk(s, m, p);
      }
    }
  }

  lemma JoinOk(s: System, m: nat, a: nat, server: nat)
    requires Inv(s, m) && a in s.nodes
    ensures Fresh(s, m, a, AddServer(s.nodes[a], server).0)
  {
    assert NodeOk(s, m, a);
  }

  lemma ProcessOk(s: System, m: nat, a: nat, key: Key)
    requires Inv(s, m) && a in s.nodes
    ensures Fresh(s, m, a, MarkProcessed(s.nodes[a], key))
  {
    assert NodeOk(s, m, a);
    assert MarkProcessed(s.nodes[a], key).store.Keys == s.nodes[a].store.Keys;
  }

  lemma RestartOk(s: System, m: nat, a: nat, order: seq<Key>)
    requires Inv(s, m) && a in s.nodes && Unprocessed(s.nodes[a], order)
    ensures Fresh(s, m, a, Reboot(s.nodes[a], order))
  {
    assert NodeOk(s, m, a);
  }

  /** An acknowledgement settles a debt only where the acknowledging server has the message. */
  lemma AckOwed(s: System, n: Node, n': Node, key: Key, acker: nat)
    requires OwedOk(s, n) && Holds(s, acker, key)
    requires n' == n.(owed := n.owed - {(key, acker)})
    ensures OwedOk(s, n')
  {
    assert forall k, b :: (k, b) in n.owed ==> (k, b) in n'.owed || (k == key && b == acker);
  }

  lemma AckOk(s: System, m: nat, a: nat, key: Key, acker: nat)
    requires Inv(s, m) && a in s.nodes && Holds(s, acker, key)
    ensures Fresh(s, m, a, PutAck(s.nodes[a], key, acker))
  {
    assert NodeOk(s, m, a);
    var n' := s.nodes[a].(owed := s.nodes[a].owed - {(key, acker)});
    AckOwed(s, s.nodes[a], n', key, acker);
    assert ContentsOk(s, m, n');
    assert QueueOk(n');
  }

  lemma ReceiveContents(s: System, m: nat, n: Node, f: Frame, builds: bool)
    requires Sound(s.blobs, m) && ContentsOk(s, m, n) && Honest(s.blobs, m, f)
    ensures var (frags, message) := Receive(n.frags, f, builds);
            && ContentsOk(s, m, n.(frags := frags))
            && (message.Some? ==> message.value == s.blobs[f.key])
  {
    var (frags, message) := Receive(n.frags, f, builds);
    assert Partial(Lookup(n.frags, f.key), s.blobs[f.key], m);
    ReceiveHonest(s.blobs, m, n.frags, f, builds);
    forall k | k in frags ensures k in s.blobs && Partial(frags[k], s.blobs[k], m) {
      if k != f.key {
        ReceiveOther(n.frags, f, builds, k);
      }
    }
  }

  lemma RemoteOk(s: System, m: nat, a: nat, n: Node, key: Key)
    requires BlobsOk(s, m) && Fresh(s, m, a, n) && key in s.blobs
    ensures Fresh(s, m, a, PutRemote(n, s.blobs[key]).0)
  {
    var n' := PutRemote(n, s.blobs[key]).0;
    assert Holds(s, key.server, key);
    assert OwedOk(s, n');
    if key !in n.store {
      QueueGrows(n, n', key);
    }
  }

  lemma ListenOk(s: System, m: nat, a: nat, f: Frame, env: Env)
    requires Inv(s, m) && a in s.nodes && Honest(s.blobs, m, f)
    ensures Fresh(s, m, a, Listen(s.nodes[a], f, env).0)
    ensures forall p :: p in Listen(s.nodes[a], f, env).1 ==>
              p.Ack? && p.acker == a && p.key in Listen(s.nodes[a], f, env).0.store
  {
    var n := s.nodes[a];
    assert NodeOk(s, m, a);
    if !(env.lookup && f.key in n.store) {
      ReceiveContents(s, m, n, f, env.builds);
      var (frags, message) := Receive(n.frags, f, env.builds);
      assert Fresh(s, m, a, n.(frags := frags));
      if message.Some? && env.insert {
        RemoteOk(s, m, a, n.(frags := frags), f.key);
      }
    }
  }

  lemma InitialInv(s: System, m: nat)
    requires 0 < m && Initial(s)
    ensures Inv(s, m)
  {
  }

  lemma DataInv(s: System, m: nat, dest: nat, frame: Frame, env: Env)
    requires Inv(s, m) && dest in s.nodes && Data(dest, frame) in s.net
    ensures var (n, out) := Listen(s.nodes[dest], frame, env);
            Inv(System(s.nodes[dest := n], s.net + out, s.blobs), m)
  {
    var (n, out) := Listen(s.nodes[dest], frame, env);
    assert PacketOk(s, m, Data(dest, frame));
    ListenOk(s, m, dest, frame, env);
    NodeStep(s, System(s.nodes[dest := n], s.net + out, s.blobs), m, dest, n, out);
  }

  lemma AckInv(s: System, m: nat, dest: nat, key: Key, acker: nat)
    requires Inv(s, m) && dest in s.nodes && Ack(dest, key, acker) in s.net
    ensures Inv(System(s.nodes[dest := PutAck(s.nodes[dest], key, acker)], s.net, s.blobs), m)
  {
    assert PacketOk(s, m, Ack(dest, key, acker));
    AckOk(s, m, dest, key, acker);
    var n := PutAck(s.nodes[dest], key, acker);
    QuietStep(s, System(s.nodes[dest := n], s.net, s.blobs), m, dest, n);
  }

  /** Every step keeps the invariant. */
  lemma DoInv(s: System, m: nat, st: Step)
    requires 0 < m && Inv(s, m) && Enabled(s, m, st)
    ensures Inv(Do(s, m, st), m)
  {
    var s' := Do(s, m, st);
    match st
    case Local(a, time, kind, signature, data) =>
      MadeKey(Envelope(Header(NewKey(s.nodes[a]), time, kind), signature, data));
      LocalInv(s, s', m, a, NewKey(s.nodes[a]), NewBlob(s.nodes[a], st));
    case Send(a, to, key, piece) =>
      SendInv(s, s', m, a, to, key, piece);
    case Deliver(Data(dest, frame), env) =>
      DataInv(s, m, dest, frame, env);
    case Deliver(Ack(dest, key, acker), _) =>
      AckInv(s, m, dest, key, acker);
    case Join(a, server) =>
      JoinOk(s, m, a, server);
      QuietStep(s, s', m, a, AddServer(s.nodes[a], server).0);
    case Process(a, key) =>
      ProcessOk(s, m, a, key);
      QuietStep(s, s', m, a, MarkProcessed(s.nodes[a], key));
    case Restart(a, order) =>
      RestartOk(s, m, a, order);
      QuietStep(s, s', m, a, Reboot(s.nodes[a], order));
  }

  lemma {:induction false} RunInv(ss: seq<System>, steps: seq<Step>, m: nat)
    requires Run(ss, steps, m)
    ensures Inv(ss[|steps|], m)
  {
    if steps == [] {
      InitialInv(ss[0], m);
    } else {
      var n := |steps| - 1;
      RunInv(ss[..n + 1], steps[..n], m);
      DoInv(ss[n], m, steps[n]);
    }
  }

  // ---------------------------------------------------------------- what every run guarantees

  /** No message is lost: whatever server a stores, it still owes to server b, if it knows b,
      or b stores it; and an acknowledgement on its way from b means that b stores it. */
  lemma NothingIsLost(ss: seq<System>, steps: seq<Step>, m: nat)
    requires Run(ss, steps, m)
    ensures var s := ss[|steps|];
            forall a, b, k :: Holds(s, a, k) && b in s.nodes[a].servers && b != a ==>
              (k, b) in s.nodes[a].owed || Holds(s, b, k)
    ensures var s := ss[|steps|];
            forall p :: p in s.net && p.Ack? ==> Holds(s, p.acker, p.key)
  {
    RunInv(ss, steps, m);
    var s := ss[|steps|];
    forall a, b, k | Holds(s, a, k) && b in s.nodes[a].servers && b != a
      ensures (k, b) in s.nodes[a].owed || Holds(s, b, k)
    {
      assert NodeOk(s, m, a);
    }
    forall p | p in s.net && p.Ack? ensures Holds(s, p.acker, p.key) {
      assert PacketOk(s, m, p);
    }
  }

  /** Servers agree: two copies of one message are the same bytes, with the key in them. */
  lemma CopiesAgree(ss: seq<System>, steps: seq<Step>, m: nat, a: nat, b: nat, k: Key)
    requires Run(ss, steps, m)
    requires Holds(ss[|steps|], a, k) && Holds(ss[|steps|], b, k)
    ensures var s := ss[|steps|];
            && s.nodes[a].store[k].blob == s.nodes[b].store[k].blob
            && KeyOf(s.nodes[a].store[k].blob) == k
  {
    RunInv(ss, steps, m);
    assert NodeOk(ss[|steps|], m, a) && NodeOk(ss[|steps|], m, b);
  }

  /** Between two starts of a server each message is handed to its handler at most once. */
  lemma HandledOnce(ss: seq<System>, steps: seq<Step>, m: nat, a: nat)
    requires Run(ss, steps, m) && a in ss[|steps|].nodes
    ensures QueueOk(ss[|steps|].nodes[a])
  {
    RunInv(ss, steps, m);
    assert NodeOk(ss[|steps|], m, a);
  }

  ghost predicate RowKept(n: Node, n': Node, k: Key)
    requires k in n.store
  {
    && k in n'.store && n'.store[k].blob == n.store[k].blob
    && (n.store[k].processed ==> n'.store[k].processed)
  }

  lemma ListenKeepsRow(n: Node, f: Frame, env: Env, k: Key)
    requires k in n.store
    ensures RowKept(n, Listen(n, f, env).0, k)
  {
  }

  /** No step changes a stored message or takes back that it was processed. */
  lemma DoKeepsRow(s: System, m: nat, st: Step, a: nat, k: Key)
    requires 0 < m && Enabled(s, m, st) && Holds(s, a, k)
    ensures a in Do(s, m, st).nodes && RowKept(s.nodes[a], Do(s, m, st).nodes[a], k)
  {
    match st
    case Local(b, _, _, _, _) =>
      assert NewKey(s.nodes[b]) !in s.nodes[b].store;
    case Deliver(Data(dest, frame), env) =>
      if dest == a {
        ListenKeepsRow(s.nodes[a], frame, env, k);
      }
    case Send(_, _, _, _) =>
    case Deliver(Ack(_, _, _), _) =>
    case Join(_, _) =>
    case Process(_, _) =>
    case Restart(_, _) =>
  }

  lemma {:induction false} ProcessedForever(ss: seq<System>, steps: seq<Step>, m: nat, i: nat, a: nat, k: Key)
    requires Run(ss, steps, m) && i <= |steps|
    requires Holds(ss[i], a, k) && ss[i].nodes[a].store[k].processed
    ensures Holds(ss[|steps|], a, k) && ss[|steps|].nodes[a].store[k].processed
    decreases |steps|
  {
    if i < |steps| {
      var n := |steps| - 1;
      ProcessedForever(ss[..n + 1], steps[..n], m, i, a, k);
      DoKeepsRow(ss[n], m, steps[n], a, k);
    }
  }

  /** A restart never hands a message that was marked processed to the handler again. */
  lemma RestartSkipsProcessed(ss: seq<System>, steps: seq<Step>, m: nat, i: nat, a: nat, k: Key, st: Step)
    requires Run(ss, steps, m) && i <= |steps|
    requires Holds(ss[i], a, k) && ss[i].nodes[a].store[k].processed
    requires st.Restart? && st.a == a && Enabled(ss[|steps|], m, st)
    ensures k !in Do(ss[|steps|], m, st).nodes[a].queue
  {
    ProcessedForever(ss, steps, m, i, a, k);
  }

  /** A complete collection whose blob could not be built stays stuck: no further frame of that
      message makes the receiver hand it over. */
  lemma FailedBuildSticks(blobs: map<Key, Blob>, m: nat, t: Table, f: Frame, builds: bool)
    requires Sound(blobs, m) && Honest(blobs, m, f)
    requires Partial(Lookup(t, f.key), blobs[f.key], m)
    requires Lookup(t, f.key).frags.Keys == Numbers(Count(blobs[f.key], m))
    ensures Receive(t, f, builds).1.None?
    ensures Lookup(Receive(t, f, builds).0, f.key).frags.Keys == Numbers(Count(blobs[f.key], m))
  {
    HonestFrame(blobs, m, f);
    ReceiveHonest(blobs, m, t, f, builds);
  }
}
