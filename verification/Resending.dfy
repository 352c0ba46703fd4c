/** What resending can achieve (src/abacusd.C:439-458): the messages that a server picks for
    another one, the steps of the system with no other sends than these, and what some of these
    steps lead to from every reachable state.
 */
module Resending {
  import opened Bytes
  import opened Options
  import opened Fragments
  import opened MessageBlob
  import opened Replication

  /** Messages in the order of their times, without repetition. */
  ghost predicate ByTime(store: map<Key, Row>, list: seq<Key>)
    requires forall k :: k in list ==> k in store
  {
    && (forall i, j :: 0 <= i < j < |list| ==> TimeOf(store[list[i]].blob) <= TimeOf(store[list[j]].blob))
    && (forall i, j :: 0 <= i < j < |list| ==> list[i] != list[j])
  }

  ghost predicate NoLater(store: map<Key, Row>, list: seq<Key>, rest: set<Key>)
    requires (forall k :: k in list ==> k in store) && (forall k :: k in rest ==> k in store)
  {
    forall k, r :: k in list && r in rest ==> TimeOf(store[k].blob) <= TimeOf(store[r].blob)
  }

  /** The messages owed to a server; kind 0 stands for every kind. */
  ghost function Unacked(n: Node, server: nat, kind: nat): set<Key> {
    set k | k in n.store && (k, server) in n.owed && (kind == 0 || KindOf(n.store[k].blob) == kind)
  }

  /** What is resent to a server: all create-server messages it is owed, oldest first; if
      there are none, one oldest message it is owed; nothing only if it is owed nothing. */
  ghost predicate IsResend(n: Node, server: nat, list: seq<Key>) {
    var unacked, creates := Unacked(n, server, 0), Unacked(n, server, CREATE_SERVER);
    && (forall k :: k in list ==> k in n.store && k in unacked)
    && (list == [] <==> unacked == {})
    && ByTime(n.store, list)
    && (creates != {} ==> forall k :: k in list <==> k in creates)
    && (creates == {} && list != [] ==> |list| == 1 && NoLater(n.store, list, unacked - {list[0]}))
  }

  /** What that means for a message owed to the server: a create-server message is resent; any
      other waits until none of those is owed, and then waits for all that are older. */
  lemma ResendsInTurn(n: Node, server: nat, list: seq<Key>, k: Key)
    requires IsResend(n, server, list) && k in n.store && (k, server) in n.owed
    ensures list != [] && forall x :: x in list ==> x in n.store && (x, server) in n.owed
    ensures KindOf(n.store[k].blob) == 0x0001 ==> k in list
    ensures KindOf(n.store[k].blob) != 0x0001 && k in list ==>
              list == [k] && forall x :: x in n.store && (x, server) in n.owed ==>
                KindOf(n.store[x].blob) != 0x0001 && TimeOf(n.store[k].blob) <= TimeOf(n.store[x].blob)
  {
    var unacked, creates := Unacked(n, server, 0), Unacked(n, server, CREATE_SERVER);
    assert k in unacked;
    if KindOf(n.store[k].blob) != CREATE_SERVER && k in list {
      assert creates == {};
      forall x | x in n.store && (x, server) in n.owed
        ensures KindOf(n.store[x].blob) != CREATE_SERVER && TimeOf(n.store[k].blob) <= TimeOf(n.store[x].blob)
      {
        assert x in unacked && x !in creates;
        assert x != k ==> x in unacked - {list[0]};
      }
    }
  }

  lemma EarliestExists(store: map<Key, Row>, keys: set<Key>) returns (e: Key)
    requires keys != {} && forall k :: k in keys ==> k in store
    ensures e in keys && forall k :: k in keys ==> TimeOf(store[e].blob) <= TimeOf(store[k].blob)
    decreases |keys|
  {
    e :| e in keys;
    if keys != {e} {
      var rest := keys - {e};
      assert rest != {};
      var f := EarliestExists(store, rest);
      assert forall k :: k in keys ==> k == e || k in rest;
      if TimeOf(store[f].blob) < TimeOf(store[e].blob) {
        e := f;
      }
    }
  }

  // ---------------------------------------------------------------- the steps

  /** What a server picks for another one, given its tables: the query leaves open which of
      several messages with equal times comes first. */
  type Policy = (Node, nat) -> seq<Key>

  ghost predicate IsPolicy(resend: Policy) {
    forall n, b :: IsResend(n, b, resend(n, b))
  }

  lemma {:induction false} SortedExists(store: map<Key, Row>, keys: set<Key>) returns (list: seq<Key>)
    requires forall k :: k in keys ==> k in store
    ensures (forall k :: k in list <==> k in keys) && ByTime(store, list)
    decreases |keys|
  {
    if keys == {} {
      list := [];
    } else {
      var e := EarliestExists(store, keys);
      var rest := SortedExists(store, keys - {e});
      list := [e] + rest;
    }
  }

  lemma ResendExists(n: Node, b: nat) returns (list: seq<Key>)
    ensures IsResend(n, b, list)
  {
    var unacked, creates := Unacked(n, b, 0), Unacked(n, b, CREATE_SERVER);
    if creates != {} {
      list := SortedExists(n.store, creates);
      var k :| k in creates;
      assert k in list && k in unacked;
    } else if unacked != {} {
      var e := EarliestExists(n.store, unacked);
      list := [e];
    } else {
      list := [];
    }
  }

  ghost function AnyResend(n: Node, b: nat): (list: seq<Key>)
    ensures IsResend(n, b, list)
  {
    assert exists list :: IsResend(n, b, list) by {
      var list := ResendExists(n, b);
    }
    var list :| IsResend(n, b, list);
    list
  }

  lemma PolicyExists()
    ensures IsPolicy((n: Node, b: nat) => AnyResend(n, b))
  {
  }

  /** All fragments of the listed messages, on their way to b. */
  ghost function Frames(n: Node, m: nat, b: nat, list: seq<Key>): set<Packet>
    requires 0 < m
  {
    set k, i | k in list && k in n.store && n.store[k].blob != [] && i in Numbers(Count(n.store[k].blob, m)) ::
      Data(b, FrameOf(k, n.store[k].blob, m, i))
  }

  ghost function Resent(s: System, m: nat, a: nat, b: nat, list: seq<Key>): System
    requires 0 < m && a in s.nodes
  {
    s.(net := s.net + Frames(s.nodes[a], m, b, list))
  }

  /** The steps of the system in which the only sends are those of resend_message. */
  ghost function Steps(m: nat, resend: Policy): (System, System) -> bool
    requires 0 < m
  {
    (s, t) =>
      || (exists st :: Enabled(s, m, st) && !st.Send? && t == Do(s, m, st))
      || (exists a, b :: a in s.nodes && b in Others(s.nodes[a]) && t == Resent(s, m, a, b, resend(s.nodes[a], b)))
  }

  /** Some n steps lead from s to t. */
  ghost predicate ReachesIn(next: (System, System) -> bool, s: System, t: System, n: nat)
    decreases n
  {
    if n == 0 then s == t else exists u :: next(s, u) && ReachesIn(next, u, t, n - 1)
  }

  ghost predicate Reaches(next: (System, System) -> bool, s: System, t: System) {
    exists n :: ReachesIn(next, s, t, n)
  }

  lemma ReachesSelf(next: (System, System) -> bool, s: System)
    ensures Reaches(next, s, s)
  {
    assert ReachesIn(next, s, s, 0);
  }

  lemma ReachesNext(next: (System, System) -> bool, s: System, t: System)
    requires next(s, t)
    ensures Reaches(next, s, t)
  {
    assert ReachesIn(next, t, t, 0);
    assert ReachesIn(next, s, t, 1);
  }

  lemma ReachesOn(next: (System, System) -> bool, s: System, t: System, u: System)
    requires Reaches(next, s, t) && Reaches(next, t, u)
    ensures Reaches(next, s, u)
  {
    var n :| ReachesIn(next, s, t, n);
    var k :| ReachesIn(next, t, u, k);
    ReachesInOn(next, s, t, u, n, k);
  }

  lemma {:induction false} ReachesInOn(next: (System, System) -> bool, s: System, t: System, u: System, n: nat, k: nat)
    requires ReachesIn(next, s, t, n) && ReachesIn(next, t, u, k)
    ensures ReachesIn(next, s, u, n + k)
    decreases n
  {
    if n > 0 {
      var s1 :| next(s, s1) && ReachesIn(next, s1, t, n - 1);
      ReachesInOn(next, s1, t, u, n - 1, k);
    }
  }

  // ---------------------------------------------------------------- good states

  /** A server owes only what it stores, to others it knows, and message numbers start at 1. */
  ghost predicate DebtsOk(s: System) {
    && (forall k :: k in s.blobs ==> 0 < k.message)
    && forall a :: a in s.nodes ==> OwesStored(s.nodes[a])
  }

  ghost predicate OwesStored(n: Node) {
    forall d :: d in n.owed ==> d.0 in n.store && d.1 in Others(n)
  }

  lemma ListenOwes(n: Node, f: Frame, env: Env)
    requires OwesStored(n)
    ensures OwesStored(Listen(n, f, env).0)
  {
  }

  lemma DoDebts(s: System, m: nat, st: Step)
    requires 0 < m && Enabled(s, m, st) && DebtsOk(s)
    ensures DebtsOk(Do(s, m, st))
  {
    match st
    case Local(a, _, _, _, _) => assert OwesStored(PutLocal(s.nodes[a], NewKey(s.nodes[a]), NewBlob(s.nodes[a], st)));
    case Send(_, _, _, _) =>
    case Deliver(Data(dest, frame), env) => ListenOwes(s.nodes[dest], frame, env);
    case Deliver(Ack(dest, key, acker), _) => assert OwesStored(PutAck(s.nodes[dest], key, acker));
    case Join(a, server) => assert OwesStored(AddServer(s.nodes[a], server).0);
    case Process(a, key) => assert OwesStored(MarkProcessed(s.nodes[a], key));
    case Restart(_, _) =>
  }

  lemma {:induction false} RunDebts(ss: seq<System>, steps: seq<Step>, m: nat)
    requires Run(ss, steps, m)
    ensures DebtsOk(ss[|steps|])
    decreases |steps|
  {
    if steps != [] {
      var n := |steps| - 1;
      RunDebts(ss[..n + 1], steps[..n], m);
      DoDebts(ss[n], m, steps[n]);
    }
  }

  ghost predicate Good(s: System, m: nat) {
    0 < m && Inv(s, m) && DebtsOk(s)
  }

  lemma DoGood(s: System, m: nat, st: Step)
    requires Good(s, m) && Enabled(s, m, st)
    ensures Good(Do(s, m, st), m)
  {
    DoInv(s, m, st);
    DoDebts(s, m, st);
  }

  /** Only server b changes, and not whom it knows; nothing on the network is lost. */
  ghost predicate OnlyAt(s: System, t: System, b: nat) {
    && b in s.nodes && t.nodes.Keys == s.nodes.Keys && t.blobs == s.blobs && s.net <= t.net
    && (forall c :: c in s.nodes && c != b ==> t.nodes[c] == s.nodes[c])
    && t.nodes[b].servers == s.nodes[b].servers && t.nodes[b].id == s.nodes[b].id
    && s.nodes[b].store.Keys <= t.nodes[b].store.Keys
  }

  lemma OnlyAtOn(s: System, t: System, u: System, b: nat)
    requires OnlyAt(s, t, b) && OnlyAt(t, u, b)
    ensures OnlyAt(s, u, b)
  {
  }

  lemma ResentGood(s: System, m: nat, a: nat, b: nat, list: seq<Key>)
    requires Good(s, m) && a in s.nodes
    ensures Good(Resent(s, m, a, b, list), m)
  {
    var t := Resent(s, m, a, b, list);
    forall p | p in t.net ensures PacketOk(s, m, p) {
      if p !in s.net {
        FrameHonest(s, m, a, b, list, p);
      }
    }
    NetGood(s, t, m);
  }

  lemma FrameHonest(s: System, m: nat, a: nat, b: nat, list: seq<Key>, p: Packet)
    requires Good(s, m) && a in s.nodes && p in Frames(s.nodes[a], m, b, list)
    ensures PacketOk(s, m, p)
  {
    assert NodeOk(s, m, a);
    var n := s.nodes[a];
    var k, i :| k in list && k in n.store && n.store[k].blob != [] && i in Numbers(Count(n.store[k].blob, m))
                && p == Data(b, FrameOf(k, n.store[k].blob, m, i));
    assert Honest(s.blobs, m, FrameOf(k, s.blobs[k], m, i));
  }

  lemma NetGood(s: System, t: System, m: nat)
    requires Good(s, m) && t == s.(net := t.net) && forall p :: p in t.net ==> PacketOk(s, m, p)
    ensures Good(t, m)
  {
    assert BlobsOk(t, m) by {
      assert forall k :: k in s.blobs && Holds(s, k.server, k) ==> Holds(t, k.server, k);
    }
    forall c | c in t.nodes ensures NodeOk(t, m, c) {
      NodeStill(s, t, m, c);
    }
    forall p | p in t.net ensures PacketOk(t, m, p) {
      PacketStill(s, t, m, p);
    }
  }

  lemma NodeStill(s: System, t: System, m: nat, c: nat)
    requires Sound(s.blobs, m) && t == s.(net := t.net) && c in s.nodes && NodeOk(s, m, c)
    ensures NodeOk(t, m, c)
  {
    assert forall b, k :: Holds(s, b, k) <==> Holds(t, b, k);
  }

  lemma PacketStill(s: System, t: System, m: nat, p: Packet)
    requires Sound(s.blobs, m) && t == s.(net := t.net) && PacketOk(s, m, p)
    ensures PacketOk(t, m, p)
  {
  }

  // ---------------------------------------------------------------- one message

  /** The piece numbers of message k that server b has collected. */
  function Collected(s: System, b: nat, k: Key): set<nat>
    requires b in s.nodes
  {
    Lookup(s.nodes[b].frags, k).frags.Keys
  }

  const WORKING := Env(true, true, true)

  /** A missing piece arrives at a server that does not store the message. */
  lemma PieceReceived(blobs: map<Key, Blob>, m: nat, t: Table, k: Key, i: nat, frame: Frame)
    requires Sound(blobs, m) && k in blobs && Partial(Lookup(t, k), blobs[k], m)
    requires 1 <= i <= Count(blobs[k], m) && i !in Lookup(t, k).frags
    requires frame == FrameOf(k, blobs[k], m, i)
    ensures Honest(blobs, m, frame)
    ensures var (t', message) := Receive(t, frame, true);
            if Lookup(t, k).frags.Keys + {i} == Numbers(Count(blobs[k], m)) then message == Some(blobs[k])
            else message == None && Lookup(t', k).frags.Keys == Lookup(t, k).frags.Keys + {i}
  {
    WireDecodes(i, Count(blobs[k], m));
    assert Honest(blobs, m, frame);
    ReceiveHonest(blobs, m, t, frame, true);
  }

  lemma PieceHeard(n: Node, k: Key, blob: Blob, frame: Frame, t: Table)
    requires k !in n.store && frame.key == k && KeyOf(blob) == k
    ensures Receive(n.frags, frame, true) == (t, Some(blob)) ==>
              var (n', out) := Listen(n, frame, WORKING);
              k in n'.store && out == Acks(n', k) && n'.servers == n.servers && n'.id == n.id
    ensures Receive(n.frags, frame, true) == (t, None) ==>
              Listen(n, frame, WORKING) == (n.(frags := t), {})
  {
  }

  ghost predicate Stored(s: System, b: nat, k: Key) {
    Holds(s, b, k) && forall c :: c in Others(s.nodes[b]) ==> Ack(c, k, b) in s.net
  }

  /** All fragments of message k are on their way to b. */
  ghost predicate OnItsWay(s: System, m: nat, b: nat, k: Key) {
    0 < m && k in s.blobs && forall i :: i in Numbers(Count(s.blobs[k], m)) ==> Data(b, FrameOf(k, s.blobs[k], m, i)) in s.net
  }

  /** A frame arrives, and all calls that it leads to work. */
  lemma Arrives(s: System, m: nat, resend: Policy, b: nat, frame: Frame) returns (t: System)
    requires Good(s, m) && b in s.nodes && Data(b, frame) in s.net
    ensures t == Do(s, m, Deliver(Data(b, frame), WORKING))
    ensures Reaches(Steps(m, resend), s, t) && Good(t, m) && OnlyAt(s, t, b)
  {
    var st := Deliver(Data(b, frame), WORKING);
    t := Do(s, m, st);
    DoGood(s, m, st);
    StepsDo(s, m, resend, st);
    ArrivalOnlyAt(s, t, m, b, frame);
  }

  lemma StepsDo(s: System, m: nat, resend: Policy, st: Step)
    requires 0 < m && Enabled(s, m, st) && !st.Send?
    ensures Reaches(Steps(m, resend), s, Do(s, m, st))
  {
    ReachesNext(Steps(m, resend), s, Do(s, m, st));
  }

  lemma ArrivalOnlyAt(s: System, t: System, m: nat, b: nat, frame: Frame)
    requires 0 < m && b in s.nodes && Data(b, frame) in s.net && t == Do(s, m, Deliver(Data(b, frame), WORKING))
    ensures OnlyAt(s, t, b)
  {
  }

  /** A fragment that b lacks arrives: the message is stored if it was the last one missing,
      and one fragment closer otherwise. */
  lemma PieceArrives(s: System, t: System, m: nat, b: nat, k: Key, i: nat)
    requires Good(s, m) && b in s.nodes && k in s.blobs && !Holds(s, b, k)
    requires 1 <= i <= Count(s.blobs[k], m) && i !in Collected(s, b, k)
    requires Data(b, FrameOf(k, s.blobs[k], m, i)) in s.net
    requires t == Do(s, m, Deliver(Data(b, FrameOf(k, s.blobs[k], m, i)), WORKING))
    ensures b in t.nodes
    ensures if Collected(s, b, k) + {i} == Numbers(Count(s.blobs[k], m)) then Stored(t, b, k)
            else !Holds(t, b, k) && Collected(t, b, k) == Collected(s, b, k) + {i}
  {
    assert NodeOk(s, m, b);
    assert Partial(Lookup(s.nodes[b].frags, k), s.blobs[k], m);
    PieceEffect(s, t, m, b, k, i, FrameOf(k, s.blobs[k], m, i));
  }

  lemma PieceEffect(s: System, s': System, m: nat, b: nat, k: Key, i: nat, frame: Frame)
    requires 0 < m && Sound(s.blobs, m) && b in s.nodes && s.nodes[b].id == b && k in s.blobs && k !in s.nodes[b].store
    requires KeyOf(s.blobs[k]) == k && Partial(Lookup(s.nodes[b].frags, k), s.blobs[k], m)
    requires 1 <= i <= Count(s.blobs[k], m) && i !in Collected(s, b, k)
    requires frame == FrameOf(k, s.blobs[k], m, i) && Data(b, frame) in s.net
    requires s' == Do(s, m, Deliver(Data(b, frame), WORKING))
    ensures b in s'.nodes
    ensures if Collected(s, b, k) + {i} == Numbers(Count(s.blobs[k], m)) then Stored(s', b, k)
            else !Holds(s', b, k) && Collected(s', b, k) == Collected(s, b, k) + {i}
  {
    PieceReceived(s.blobs, m, s.nodes[b].frags, k, i, frame);
    PieceHeard(s.nodes[b], k, s.blobs[k], frame, Receive(s.nodes[b].frags, frame, true).0);
  }

  lemma MissingPiece(s: System, m: nat, b: nat, k: Key) returns (i: nat)
    requires Good(s, m) && b in s.nodes && k in s.blobs
    requires Collected(s, b, k) != Numbers(Count(s.blobs[k], m))
    ensures 1 <= i <= Count(s.blobs[k], m) && i !in Collected(s, b, k)
    ensures Collected(s, b, k) <= Numbers(Count(s.blobs[k], m))
  {
    assert NodeOk(s, m, b);
    assert Partial(Lookup(s.nodes[b].frags, k), s.blobs[k], m);
    i :| i in Numbers(Count(s.blobs[k], m)) && i !in Collected(s, b, k);
  }

  lemma OneFewer(full: set<nat>, have: set<nat>, i: nat)
    requires i in full && i !in have
    ensures |full - (have + {i})| < |full - have|
  {
    assert full - have == (full - (have + {i})) + {i};
  }

  /** A message whose fragments are on their way to a server that lacks it, and whose collection
      there is not stuck, can be stored by arrivals alone. */
  lemma {:induction false} CanDeliver(s: System, m: nat, resend: Policy, b: nat, k: Key) returns (t: System)
    requires Good(s, m) && b in s.nodes && !Holds(s, b, k) && OnItsWay(s, m, b, k)
    requires Collected(s, b, k) != Numbers(Count(s.blobs[k], m))
    ensures Reaches(Steps(m, resend), s, t) && Good(t, m) && OnlyAt(s, t, b) && Stored(t, b, k)
    decreases |Numbers(Count(s.blobs[k], m)) - Collected(s, b, k)|
  {
    var full, have := Numbers(Count(s.blobs[k], m)), Collected(s, b, k);
    var i := MissingPiece(s, m, b, k);
    t := Arrives(s, m, resend, b, FrameOf(k, s.blobs[k], m, i));
    PieceArrives(s, t, m, b, k, i);
    if have + {i} != full {
      OneFewer(full, have, i);
      var u := CanDeliver(t, m, resend, b, k);
      ReachesOn(Steps(m, resend), s, t, u);
      OnlyAtOn(s, t, u, b);
      t := u;
    }
  }

  /** A restart of b forgets what it collected. */
  lemma Unstick(s: System, m: nat, resend: Policy, b: nat, k: Key) returns (t: System)
    requires Good(s, m) && b in s.nodes && k in s.blobs
    ensures Reaches(Steps(m, resend), s, t) && Good(t, m) && OnlyAt(s, t, b)
    ensures (Holds(t, b, k) <==> Holds(s, b, k)) && Collected(t, b, k) != Numbers(Count(s.blobs[k], m))
  {
    var order := OrderExists(s.nodes[b], s.nodes[b].store.Keys);
    var st := Restart(b, order);
    t := Do(s, m, st);
    DoGood(s, m, st);
    StepsDo(s, m, resend, st);
    Restarted(s, t, b, order, k);
    assert 1 in Numbers(Count(s.blobs[k], m)) by {
      PiecesBounds(|s.blobs[k]|, m);
    }
  }

  lemma Restarted(s: System, t: System, b: nat, order: seq<Key>, k: Key)
    requires b in s.nodes && t == s.(nodes := s.nodes[b := Reboot(s.nodes[b], order)])
    ensures OnlyAt(s, t, b) && (Holds(t, b, k) <==> Holds(s, b, k)) && Collected(t, b, k) == {}
  {
  }

  lemma {:induction false} OrderExists(n: Node, keys: set<Key>) returns (order: seq<Key>)
    requires keys <= n.store.Keys
    ensures forall k :: k in order <==> k in keys && !n.store[k].processed
    ensures forall i, j :: 0 <= i < j < |order| ==> order[i] != order[j]
    decreases |keys|
  {
    if keys == {} {
      order := [];
    } else {
      var k :| k in keys;
      order := OrderExists(n, keys - {k});
      if !n.store[k].processed {
        order := order + [k];
      }
    }
  }

  /** A server that stores a message answers any fragment of it with acks to all it knows. */
  lemma AnswerAcks(s: System, t: System, m: nat, b: nat, frame: Frame)
    requires 0 < m && Holds(s, b, frame.key) && s.nodes[b].id == b && Data(b, frame) in s.net
    requires t == Do(s, m, Deliver(Data(b, frame), WORKING))
    ensures Stored(t, b, frame.key)
  {
    assert Listen(s.nodes[b], frame, WORKING) == (s.nodes[b], Acks(s.nodes[b], frame.key));
  }

  lemma CanStore(s: System, m: nat, resend: Policy, b: nat, k: Key) returns (t: System)
    requires Good(s, m) && b in s.nodes && OnItsWay(s, m, b, k)
    ensures Reaches(Steps(m, resend), s, t) && Good(t, m) && OnlyAt(s, t, b) && Stored(t, b, k)
  {
    if Holds(s, b, k) {
      t := CanAnswer(s, m, resend, b, k);
    } else if Collected(s, b, k) == Numbers(Count(s.blobs[k], m)) {
      var s1 := Unstick(s, m, resend, b, k);
      t := CanDeliver(s1, m, resend, b, k);
      ReachesOn(Steps(m, resend), s, s1, t);
      OnlyAtOn(s, s1, t, b);
    } else {
      t := CanDeliver(s, m, resend, b, k);
    }
  }

  lemma CanAnswer(s: System, m: nat, resend: Policy, b: nat, k: Key) returns (t: System)
    requires Good(s, m) && Holds(s, b, k) && OnItsWay(s, m, b, k)
    ensures Reaches(Steps(m, resend), s, t) && Good(t, m) && OnlyAt(s, t, b) && Stored(t, b, k)
  {
    assert NodeOk(s, m, b);
    PiecesBounds(|s.blobs[k]|, m);
    assert 1 in Numbers(Count(s.blobs[k], m));
    var frame := FrameOf(k, s.blobs[k], m, 1);
    t := Arrives(s, m, resend, b, frame);
    AnswerAcks(s, t, m, b, frame);
  }

  // ---------------------------------------------------------------- all debts of one server to another

  /** The resender of a picks messages for b; the first of them is on its way. */
  lemma HeadSent(s: System, m: nat, resend: Policy, a: nat, b: nat) returns (t: System, k: Key)
    requires Good(s, m) && IsPolicy(resend) && a in s.nodes && b in s.nodes && Unacked(s.nodes[a], b, 0) != {}
    ensures Reaches(Steps(m, resend), s, t) && Good(t, m) && t.nodes == s.nodes && t.blobs == s.blobs
    ensures k in Unacked(s.nodes[a], b, 0) && OnItsWay(t, m, b, k)
  {
    var list := resend(s.nodes[a], b);
    k := HeadOwed(s.nodes[a], b, list);
    t := Resent(s, m, a, b, list);
    ResentGood(s, m, a, b, list);
    assert b in Others(s.nodes[a]) && k in s.blobs && s.nodes[a].store[k].blob == s.blobs[k] by {
      assert OwesStored(s.nodes[a]) && NodeOk(s, m, a);
    }
    StepsResent(s, m, resend, a, b);
    HeadOnItsWay(s, t, m, a, b, list, k);
  }

  lemma HeadOwed(n: Node, b: nat, list: seq<Key>) returns (k: Key)
    requires IsResend(n, b, list) && Unacked(n, b, 0) != {}
    ensures k in list && k in n.store && k in Unacked(n, b, 0) && (k, b) in n.owed
  {
    k := list[0];
  }

  lemma StepsResent(s: System, m: nat, resend: Policy, a: nat, b: nat)
    requires 0 < m && a in s.nodes && b in Others(s.nodes[a])
    ensures Reaches(Steps(m, resend), s, Resent(s, m, a, b, resend(s.nodes[a], b)))
  {
    ReachesNext(Steps(m, resend), s, Resent(s, m, a, b, resend(s.nodes[a], b)));
  }

  lemma HeadOnItsWay(s: System, t: System, m: nat, a: nat, b: nat, list: seq<Key>, k: Key)
    requires 0 < m && a in s.nodes && k in list && k in s.nodes[a].store && t == Resent(s, m, a, b, list)
    requires k in s.blobs && s.nodes[a].store[k].blob == s.blobs[k] && s.blobs[k] != []
    ensures OnItsWay(t, m, b, k)
  {
    var n := s.nodes[a];
    forall i | i in Numbers(Count(s.blobs[k], m)) ensures Data(b, FrameOf(k, s.blobs[k], m, i)) in t.net {
      assert Data(b, FrameOf(k, n.store[k].blob, m, i)) in Frames(n, m, b, list);
    }
  }

  /** The ack that b sent to a arrives. */
  lemma AckArrives(s: System, m: nat, resend: Policy, a: nat, b: nat, k: Key) returns (t: System)
    requires Good(s, m) && a in s.nodes && 0 !in s.nodes && Stored(s, b, k) && a in Others(s.nodes[b])
    ensures Reaches(Steps(m, resend), s, t) && Good(t, m)
    ensures t.blobs == s.blobs && t.nodes == s.nodes[a := s.nodes[a].(owed := s.nodes[a].owed - {(k, b)})]
  {
    var st := Deliver(Ack(a, k, b), WORKING);
    t := Do(s, m, st);
    DoGood(s, m, st);
    StepsDo(s, m, resend, st);
    RealKey(s, m, b, k);
    AckEffect(s, t, m, a, b, k);
  }

  lemma AckEffect(s: System, t: System, m: nat, a: nat, b: nat, k: Key)
    requires 0 < m && a in s.nodes && Ack(a, k, b) in s.net && b != 0 && k.server != 0 && k.message != 0
    requires t == Do(s, m, Deliver(Ack(a, k, b), WORKING))
    ensures t.blobs == s.blobs && t.nodes == s.nodes[a := s.nodes[a].(owed := s.nodes[a].owed - {(k, b)})]
  {
  }

  lemma RealKey(s: System, m: nat, b: nat, k: Key)
    requires Good(s, m) && 0 !in s.nodes && Holds(s, b, k)
    ensures b != 0 && k.server != 0 && k.message != 0
  {
    assert NodeOk(s, m, b);
    assert Holds(s, k.server, k);
  }

  /** One debt of a to b, the one that the resender comes to first, can be settled; nothing else
      changes at a. */
  lemma HeadSettled(s: System, m: nat, resend: Policy, a: nat, b: nat) returns (t: System, k: Key)
    requires Good(s, m) && IsPolicy(resend) && 0 !in s.nodes && a in s.nodes && b in s.nodes && a in Others(s.nodes[b])
    requires Unacked(s.nodes[a], b, 0) != {}
    ensures Reaches(Steps(m, resend), s, t) && Good(t, m) && Later(s, t)
    ensures k in Unacked(s.nodes[a], b, 0) && Holds(t, b, k)
    ensures t.nodes[a] == s.nodes[a].(owed := s.nodes[a].owed - {(k, b)})
  {
    assert a != b by {
      assert NodeOk(s, m, b);
    }
    var s1, k1 := HeadSent(s, m, resend, a, b);
    var s2 := CanStore(s1, m, resend, b, k1);
    t := AckArrives(s2, m, resend, a, b, k1);
    k := k1;
    ReachesOn(Steps(m, resend), s, s1, s2);
    ReachesOn(Steps(m, resend), s, s2, t);
    HeadLater(s, s1, s2, t, a, b, k);
  }

  /** No server forgets a message or another server. */
  ghost predicate Later(s: System, t: System) {
    && t.nodes.Keys == s.nodes.Keys && t.blobs == s.blobs
    && (forall c :: c in s.nodes ==> t.nodes[c].servers == s.nodes[c].servers && t.nodes[c].id == s.nodes[c].id)
    && (forall c, x :: Holds(s, c, x) ==> Holds(t, c, x))
  }

  lemma HeadLater(s: System, s1: System, s2: System, t: System, a: nat, b: nat, k: Key)
    requires s1.nodes == s.nodes && s1.blobs == s.blobs && OnlyAt(s1, s2, b) && a in s.nodes && a != b
    requires t.blobs == s2.blobs && t.nodes == s2.nodes[a := s2.nodes[a].(owed := s2.nodes[a].owed - {(k, b)})]
    ensures Later(s, t)
  {
  }

  lemma LaterOn(s: System, t: System, u: System)
    requires Later(s, t) && Later(t, u)
    ensures Later(s, u)
  {
  }

  /** All debts of a to b can be settled, one after the other, as the resender picks them. */
  lemma {:induction false} CanSettle(s: System, m: nat, resend: Policy, a: nat, b: nat) returns (t: System)
    requires Good(s, m) && IsPolicy(resend) && 0 !in s.nodes && a in s.nodes && b in s.nodes && a in Others(s.nodes[b])
    ensures Reaches(Steps(m, resend), s, t) && Good(t, m) && Later(s, t)
    ensures Unacked(t.nodes[a], b, 0) == {}
    ensures forall k :: k in Unacked(s.nodes[a], b, 0) ==> Holds(t, b, k)
    decreases |Unacked(s.nodes[a], b, 0)|
  {
    if Unacked(s.nodes[a], b, 0) == {} {
      t := s;
      ReachesSelf(Steps(m, resend), s);
    } else {
      var s1, k := HeadSettled(s, m, resend, a, b);
      OneDebtFewer(s.nodes[a], s1.nodes[a], b, k);
      t := CanSettle(s1, m, resend, a, b);
      ReachesOn(Steps(m, resend), s, s1, t);
      AllSettled(s, s1, t, a, b, k);
    }
  }

  lemma AllSettled(s: System, s1: System, t: System, a: nat, b: nat, k: Key)
    requires Later(s, s1) && Later(s1, t) && a in s.nodes && Holds(s1, b, k)
    requires Unacked(s1.nodes[a], b, 0) == Unacked(s.nodes[a], b, 0) - {k}
    requires forall x :: x in Unacked(s1.nodes[a], b, 0) ==> Holds(t, b, x)
    ensures Later(s, t) && forall x :: x in Unacked(s.nodes[a], b, 0) ==> Holds(t, b, x)
  {
    LaterOn(s, s1, t);
  }

  lemma OneDebtFewer(n: Node, n': Node, b: nat, k: Key)
    requires k in Unacked(n, b, 0) && n' == n.(owed := n.owed - {(k, b)})
    ensures Unacked(n', b, 0) == Unacked(n, b, 0) - {k} && |Unacked(n', b, 0)| < |Unacked(n, b, 0)|
  {
  }

  /** From every reachable state, every debt to a server that knows the debtor can be settled
      with no other sends than those of the resender: whatever b has collected or stores, and
      whenever it learned of a, steps exist after which b stores the message and a no longer
      owes it. */
  lemma DebtsCanBeSettled(ss: seq<System>, steps: seq<Step>, m: nat, resend: Policy, a: nat, b: nat) returns (t: System)
    requires Run(ss, steps, m) && IsPolicy(resend)
    requires var s := ss[|steps|]; 0 !in s.nodes && a in s.nodes && b in s.nodes && a in Others(s.nodes[b])
    ensures Reaches(Steps(m, resend), ss[|steps|], t) && a in t.nodes
    ensures forall k :: (k, b) in ss[|steps|].nodes[a].owed ==> Holds(t, b, k) && (k, b) !in t.nodes[a].owed
  {
    RunGood(ss, steps, m);
    var s := ss[|steps|];
    t := CanSettle(s, m, resend, a, b);
    forall k | (k, b) in s.nodes[a].owed ensures Holds(t, b, k) && (k, b) !in t.nodes[a].owed {
      assert OwesStored(s.nodes[a]) && OwesStored(t.nodes[a]);
      assert k in Unacked(s.nodes[a], b, 0) && k !in Unacked(t.nodes[a], b, 0);
    }
  }

  // ---------------------------------------------------------------- all servers

  /** Every message that c made is stored by d. */
  ghost predicate Caught(s: System, c: nat, d: nat) {
    forall k :: k in s.blobs && k.server == c ==> Holds(s, d, k)
  }

  lemma CatchUp(s: System, m: nat, resend: Policy, c: nat, d: nat) returns (t: System)
    requires Good(s, m) && IsPolicy(resend) && 0 !in s.nodes && c in s.nodes && d in s.nodes
    requires d in s.nodes[c].servers && c in s.nodes[d].servers
    ensures Reaches(Steps(m, resend), s, t) && Good(t, m) && Later(s, t) && Caught(t, c, d)
  {
    assert NodeOk(s, m, c) && NodeOk(s, m, d);
    if c == d {
      t := s;
      ReachesSelf(Steps(m, resend), s);
    } else {
      t := CanSettle(s, m, resend, c, d);
      forall k | k in t.blobs && k.server == c ensures Holds(t, d, k) {
        assert Holds(s, c, k);
        assert (k, d) in s.nodes[c].owed ==> k in Unacked(s.nodes[c], d, 0);
      }
    }
  }

  ghost predicate AllKnown(s: System) {
    forall c, d :: c in s.nodes && d in s.nodes ==> d in s.nodes[c].servers
  }

  lemma {:induction false} CatchUpAll(s: System, m: nat, resend: Policy, pairs: set<(nat, nat)>) returns (t: System)
    requires Good(s, m) && IsPolicy(resend) && 0 !in s.nodes && AllKnown(s)
    requires forall p :: p in pairs ==> p.0 in s.nodes && p.1 in s.nodes
    ensures Reaches(Steps(m, resend), s, t) && Good(t, m) && Later(s, t)
    ensures forall p :: p in pairs ==> Caught(t, p.0, p.1)
    decreases |pairs|
  {
    if pairs == {} {
      t := s;
      ReachesSelf(Steps(m, resend), s);
    } else {
      var p :| p in pairs;
      var s1 := CatchUp(s, m, resend, p.0, p.1);
      KnownLater(s, s1);
      t := CatchUpAll(s1, m, resend, pairs - {p});
      CaughtToo(Steps(m, resend), s, s1, t, pairs, p);
    }
  }

  lemma CaughtToo(next: (System, System) -> bool, s: System, s1: System, t: System, pairs: set<(nat, nat)>, p: (nat, nat))
    requires Reaches(next, s, s1) && Later(s, s1) && Caught(s1, p.0, p.1)
    requires Reaches(next, s1, t) && Later(s1, t) && forall q :: q in pairs - {p} ==> Caught(t, q.0, q.1)
    ensures Reaches(next, s, t) && Later(s, t) && forall q :: q in pairs ==> Caught(t, q.0, q.1)
  {
    ReachesOn(next, s, s1, t);
    LaterOn(s, s1, t);
    CaughtLater(s1, t, p.0, p.1);
  }

  lemma KnownLater(s: System, t: System)
    requires Later(s, t) && AllKnown(s)
    ensures AllKnown(t)
  {
  }

  lemma CaughtLater(s: System, t: System, c: nat, d: nat)
    requires Later(s, t) && Caught(s, c, d)
    ensures Caught(t, c, d)
  {
  }

  /** From every reachable state in which all servers know each other, steps with no other sends
      than those of the resender lead to a state in which every server stores every message that
      was ever made. */
  lemma ServersCanConverge(ss: seq<System>, steps: seq<Step>, m: nat, resend: Policy) returns (t: System)
    requires Run(ss, steps, m) && IsPolicy(resend) && 0 !in ss[|steps|].nodes && AllKnown(ss[|steps|])
    ensures var s := ss[|steps|];
            Reaches(Steps(m, resend), s, t) && t.nodes.Keys == s.nodes.Keys && t.blobs == s.blobs && Converged(s, t)
  {
    RunGood(ss, steps, m);
    t := CanConverge(ss[|steps|], m, resend);
  }

  lemma RunGood(ss: seq<System>, steps: seq<Step>, m: nat)
    requires Run(ss, steps, m)
    ensures Good(ss[|steps|], m)
  {
    RunInv(ss, steps, m);
    RunDebts(ss, steps, m);
  }

  ghost predicate Converged(s: System, t: System) {
    forall d, k :: d in t.nodes && k in s.blobs ==> k in t.nodes[d].store && t.nodes[d].store[k].blob == s.blobs[k]
  }

  ghost function AllPairs(cs: set<nat>): (pairs: set<(nat, nat)>)
    ensures forall c, d :: (c, d) in pairs <==> c in cs && d in cs
  {
    set c, d | c in cs && d in cs :: (c, d)
  }

  lemma CanConverge(s: System, m: nat, resend: Policy) returns (t: System)
    requires Good(s, m) && IsPolicy(resend) && 0 !in s.nodes && AllKnown(s)
    ensures Reaches(Steps(m, resend), s, t) && t.nodes.Keys == s.nodes.Keys && t.blobs == s.blobs && Converged(s, t)
  {
    t := CatchUpAll(s, m, resend, AllPairs(s.nodes.Keys));
    AllConverged(s, t, m);
  }

  lemma AllConverged(s: System, t: System, m: nat)
    requires Good(s, m) && Good(t, m) && Later(s, t)
    requires forall p :: p in AllPairs(s.nodes.Keys) ==> Caught(t, p.0, p.1)
    ensures Converged(s, t)
  {
    forall d, k | d in t.nodes && k in s.blobs ensures k in t.nodes[d].store && t.nodes[d].store[k].blob == s.blobs[k] {
      EverythingStored(s, t, m, d, k);
    }
  }

  lemma EverythingStored(s: System, t: System, m: nat, d: nat, k: Key)
    requires Good(s, m) && Good(t, m) && Later(s, t) && d in s.nodes && k in s.blobs
    requires forall p :: p in AllPairs(s.nodes.Keys) ==> Caught(t, p.0, p.1)
    ensures k in t.nodes[d].store && t.nodes[d].store[k].blob == s.blobs[k]
  {
    assert Holds(s, k.server, k);
    assert (k.server, d) in AllPairs(s.nodes.Keys);
    assert Caught(t, k.server, d) && Holds(t, d, k) && NodeOk(t, m, d);
  }
}
