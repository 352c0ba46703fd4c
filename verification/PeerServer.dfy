/** One server as an object: its tables (src/dbmysql.C), the peer listener and the resender
    (src/abacusd.C), the fragment receiver (src/udpmessenger.C) and the handling of
    acknowledgements (src/server.C). Each method is tied to the step of module Replication
    that it performs.
 */
module PeerServer {
  import opened Bytes
  import opened Options
  import opened Fragments
  import opened MessageBlob
  import opened Replication
  import opened Resending

  lemma NextIdUnique(keys: set<Key>, id: nat, r: nat)
    requires 0 < r && forall k :: k in keys && k.server == id ==> k.message < r
    requires r == 1 || Key(id, r - 1) in keys
    ensures r == NextId(keys, id)
  {
    var r' := NextId(keys, id);
    assert r != 1 ==> Key(id, r - 1).message < r';
    assert r' != 1 ==> Key(id, r' - 1).message < r;
  }

  lemma TakeEarliest(store: map<Key, Row>, list: seq<Key>, rest: set<Key>, k: Key)
    requires (forall x :: x in list ==> x in store && x !in rest) && (forall x :: x in rest ==> x in store)
    requires ByTime(store, list) && NoLater(store, list, rest)
    requires k in rest && forall r :: r in rest ==> TimeOf(store[k].blob) <= TimeOf(store[r].blob)
    ensures forall x :: x in list + [k] ==> x in store
    ensures ByTime(store, list + [k]) && NoLater(store, list + [k], rest - {k})
  {
    var l := list + [k];
    forall i, j | 0 <= i < j < |l| ensures TimeOf(store[l[i]].blob) <= TimeOf(store[l[j]].blob) && l[i] != l[j] {
      assert l[i] == list[i] && list[i] in list;
    }
  }

  class Peer {
    const id: nat
    var store: map<Key, Row>
    var owed: set<(Key, nat)>
    var servers: set<nat>
    var queue: seq<Key>
    const receiver: FragmentReceiver

    ghost function View(): Node
      reads this, receiver
    {
      Node(id, store, owed, servers, receiver.fragments, queue)
    }

    constructor (id: nat, servers: set<nat>)
      ensures View() == Node(id, map[], {}, servers, map[], []) && fresh(receiver)
    {
      this.id, this.servers := id, servers;
      store, owed, queue := map[], {}, [];
      receiver := new FragmentReceiver();
    }

    /** SELECT MAX(message_id), then one more. */
    method NextMessageId() returns (next: nat)
      ensures next == NextId(store.Keys, id)
    {
      var max: nat := 0;
      var rest := store.Keys;
      while rest != {}
        invariant rest <= store.Keys
        invariant forall k :: k in store.Keys - rest && k.server == id ==> k.message <= max
        invariant max == 0 || Key(id, max) in store.Keys
        decreases |rest|
      {
        var k :| k in rest;
        rest := rest - {k};
        if k.server == id && max < k.message {
          max := k.message;
        }
      }
      next := max + 1;
      NextIdUnique(store.Keys, id, next);
    }

    /** Stores a new message of this server, owes it to all others and queues it for handling. */
    method PutLocalMessage(time: nat, kind: nat, signature: Blob, data: Blob) returns (key: Key, blob: Blob)
      modifies this`store, this`owed, this`queue
      ensures key == NewKey(old(View()))
      ensures blob == MakeBlob(Envelope(Header(key, time, kind), signature, data))
      ensures View() == PutLocal(old(View()), key, blob)
    {
      var next := NextMessageId();
      key := Key(id, next);
      blob := MakeBlob(Envelope(Header(key, time, kind), signature, data));
      store := store[key := Row(blob, false)];
      owed := owed + set s | s in servers && s != id :: (key, s);
      assert owed == old(owed) + Owing(key, servers - {id});
      queue := queue + [key];
    }

    /** Fails on a key that is stored already; owes the message to all but its maker. */
    method PutRemoteMessage(blob: Blob) returns (ok: bool)
      modifies this`store, this`owed, this`queue
      ensures (View(), ok) == PutRemote(old(View()), blob)
    {
      var key := KeyOf(blob);
      ok := key !in store;
      if ok {
        store := store[key := Row(blob, false)];
        owed := owed + set s | s in servers && s != id && s != key.server :: (key, s);
        assert owed == old(owed) + Owing(key, servers - {id} - {key.server});
        queue := queue + [key];
      }
    }

    /** A new server is owed everything stored so far. */
    method NewServer(server: nat) returns (ok: bool)
      modifies this`servers, this`owed
      ensures (View(), ok) == AddServer(old(View()), server)
    {
      ok := server !in servers;
      if ok {
        servers := servers + {server};
        if server != id {
          owed := owed + set k | k in store :: (k, server);
          assert owed == old(owed) + AllOwing(store.Keys, server);
        } else {
          assert owed == old(owed) + {};
        }
      }
    }

    method Acknowledge(key: Key, acker: nat)
      modifies this`owed
      ensures View() == PutAck(old(View()), key, acker)
    {
      if acker == 0 {
        return;
      }
      if key.server != 0 && key.message != 0 {
        owed := owed - {(key, acker)};
      }
    }

    method Processed(key: Key)
      modifies this`store
      ensures View() == MarkProcessed(old(View()), key)
    {
      if key in store {
        store := store[key := store[key].(processed := true)];
      }
    }

    /** SELECT ... ORDER BY time LIMIT limit, where a limit of 0 means none. */
    method SelectByTime(keys: set<Key>, limit: nat) returns (list: seq<Key>)
      requires forall k :: k in keys ==> k in store
      ensures forall k :: k in list ==> k in keys
      ensures ByTime(store, list) && NoLater(store, list, keys - set k | k in list)
      ensures limit != 0 ==> |list| <= limit
      ensures limit == 0 || |list| < limit ==> forall k :: k in keys ==> k in list
      ensures keys != {} ==> list != []
    {
      list := [];
      var rest := keys;
      while rest != {} && (limit == 0 || |list| < limit)
        invariant rest <= keys && (forall k :: k in list ==> k in keys && k !in rest)
        invariant forall k :: k in keys ==> k in rest || k in list
        invariant ByTime(store, list) && NoLater(store, list, rest)
        invariant limit != 0 ==> |list| <= limit
        invariant rest != keys ==> list != []
        decreases |rest|
      {
        ghost var e := EarliestExists(store, rest);
        var k :| k in rest && forall r :: r in rest ==> TimeOf(store[k].blob) <= TimeOf(store[r].blob);
        TakeEarliest(store, list, rest, k);
        list := list + [k];
        rest := rest - {k};
      }
      assert keys - (set k | k in list) <= rest;
    }

    method GetUnacked(server: nat, kind: nat, limit: nat) returns (list: seq<Key>)
      ensures forall k :: k in list ==> k in store && k in Unacked(View(), server, kind)
      ensures ByTime(store, list)
      ensures NoLater(store, list, Unacked(View(), server, kind) - set k | k in list)
      ensures limit != 0 ==> |list| <= limit
      ensures limit == 0 || |list| < limit ==> forall k :: k in Unacked(View(), server, kind) ==> k in list
      ensures Unacked(View(), server, kind) != {} ==> list != []
    {
      var keys := set k | k in store && (k, server) in owed && (kind == 0 || KindOf(store[k].blob) == kind);
      assert keys == Unacked(View(), server, kind);
      list := SelectByTime(keys, limit);
    }

    /** What is resent to a server: all create-server messages it is owed, oldest first; if
        there are none, one oldest message it is owed; nothing only if it is owed nothing. */
    method ResendMessage(server: nat) returns (list: seq<Key>)
      ensures IsResend(View(), server, list)
    {
      list := GetUnacked(server, CREATE_SERVER, 0);
      assert Unacked(View(), server, CREATE_SERVER) <= Unacked(View(), server, 0);
      if list == [] {
        list := GetUnacked(server, 0, 1);
        if list != [] {
          assert (set k | k in list) == {list[0]};
          assert list[0] in list;
        }
      } else {
        assert list[0] in list;
      }
    }

    /** After a start: fragments are gone, and what is not processed is queued in time order. */
    method Start()
      modifies this`queue, receiver
      ensures Unprocessed(old(View()), queue)
      ensures View() == Reboot(old(View()), queue)
      ensures ByTime(store, queue)
    {
      var keys := set k | k in store && !store[k].processed;
      queue := SelectByTime(keys, 0);
      receiver.fragments := map[];
    }

    /** sendAck to every known server but this one. */
    method SendAcks(key: Key) returns (out: set<Packet>)
      ensures out == Acks(View(), key)
    {
      out := {};
      var rest := servers - {id};
      while rest != {}
        invariant rest <= servers - {id}
        invariant out == set s | s in servers - {id} - rest :: Ack(s, key, id)
        decreases |rest|
      {
        var s :| s in rest;
        assert servers - {id} - (rest - {s}) == servers - {id} - rest + {s};
        rest := rest - {s};
        out := out + {Ack(s, key, id)};
      }
      assert servers - {id} - {} == servers - {id};
    }

    /** One data frame in getMessage and, when it completes a message, in the peer listener. */
    method Hear(f: Frame, env: Env) returns (out: set<Packet>)
      modifies this, receiver
      ensures (View(), out) == Listen(old(View()), f, env)
    {
      out := {};
      if env.lookup && f.key in store {
        out := SendAcks(f.key);
        return;
      }
      var message := receiver.GetFragment(f, env.builds);
      if message.Some? {
        if env.insert {
          var ok := PutRemoteMessage(message.value);
          if ok {
            out := SendAcks(KeyOf(message.value));
          }
        }
      }
    }
  }
}
