/** What a server does with the messages it stores: every message is handed to the handler once
    and marked when it was processed, and its row carries the fields it was made with.
 */
module Handling {
  import opened Bytes
  import opened Options
  import opened Fragments
  import opened MessageBlob
  import opened Replication
  import opened Resending

  // ---------------------------------------------------------------- handing over

  /** What was not processed yet has been handed to the handler. */
  ghost predicate AllQueued(n: Node) {
    forall k :: k in n.store && !n.store[k].processed ==> k in n.queue
  }

  lemma RemoteQueues(n: Node, blob: Blob)
    requires AllQueued(n)
    ensures AllQueued(PutRemote(n, blob).0)
  {
    var n' := PutRemote(n, blob).0;
    forall k | k in n'.store && !n'.store[k].processed ensures k in n'.queue {
      assert k in n.store ==> k in n.queue;
    }
  }

  lemma ListenQueues(n: Node, f: Frame, env: Env)
    requires AllQueued(n)
    ensures AllQueued(Listen(n, f, env).0)
  {
    if !(env.lookup && f.key in n.store) {
      var (frags, message) := Receive(n.frags, f, env.builds);
      if message.Some? {
        RemoteQueues(n.(frags := frags), message.value);
      }
    }
  }

  lemma LocalQueues(n: Node, key: Key, blob: Blob)
    requires AllQueued(n)
    ensures AllQueued(PutLocal(n, key, blob))
  {
    var n' := PutLocal(n, key, blob);
    forall k | k in n'.store && !n'.store[k].processed ensures k in n'.queue {
      assert k != key ==> k in n.queue;
    }
  }

  lemma DoQueues(s: System, m: nat, st: Step, a: nat)
    requires 0 < m && Enabled(s, m, st) && a in s.nodes && AllQueued(s.nodes[a])
    ensures a in Do(s, m, st).nodes && AllQueued(Do(s, m, st).nodes[a])
  {
    match st
    case Local(b, _, _, _, _) =>
      LocalQueues(s.nodes[a], NewKey(s.nodes[b]), NewBlob(s.nodes[b], st));
    case Deliver(Data(dest, frame), env) =>
      ListenQueues(s.nodes[a], frame, env);
    case Send(_, _, _, _) =>
    case Deliver(Ack(_, _, _), _) =>
    case Join(_, _) =>
    case Process(_, _) =>
    case Restart(_, _) =>
  }

  lemma RunInit(ss: seq<System>, steps: seq<Step>, m: nat)
    requires Run(ss, steps, m) && steps != []
    ensures var n := |steps| - 1;
            Run(ss[..n + 1], steps[..n], m) && Enabled(ss[n], m, steps[n]) && ss[n + 1] == Do(ss[n], m, steps[n])
            && ss[n + 1].nodes.Keys == ss[n].nodes.Keys
  {
  }

  lemma {:induction false} RunQueues(ss: seq<System>, steps: seq<Step>, m: nat, a: nat)
    requires Run(ss, steps, m) && a in ss[|steps|].nodes
    ensures AllQueued(ss[|steps|].nodes[a])
  {
    if steps != [] {
      var n := |steps| - 1;
      RunInit(ss, steps, m);
      RunQueues(ss[..n + 1], steps[..n], m, a);
      DoQueues(ss[n], m, steps[n], a);
    }
  }

  lemma OccursOnce(queue: seq<Key>, k: Key)
    requires k in queue && forall i, j :: 0 <= i < j < |queue| ==> queue[i] != queue[j]
    ensures multiset(queue)[k] == 1
  {
    var i :| 0 <= i < |queue| && queue[i] == k;
    assert queue == queue[..i] + [k] + queue[i + 1..];
    assert k !in queue[..i] && k !in queue[i + 1..];
  }

  // ---------------------------------------------------------------- processing

  /** A step marks the row that it processes, and no other. */
  lemma DoMarks(s: System, m: nat, st: Step, a: nat, k: Key)
    requires 0 < m && Enabled(s, m, st) && Holds(s, a, k)
    ensures Holds(Do(s, m, st), a, k)
    ensures Do(s, m, st).nodes[a].store[k] ==
            s.nodes[a].store[k].(processed := s.nodes[a].store[k].processed || st == Process(a, k))
  {
    match st
    case Local(b, _, _, _, _) => assert NewKey(s.nodes[b]) !in s.nodes[b].store;
    case Deliver(Data(dest, frame), env) => ListenRow(s.nodes[a], frame, env, k);
    case Send(_, _, _, _) =>
    case Deliver(Ack(_, _, _), _) =>
    case Join(_, _) =>
    case Process(_, _) =>
    case Restart(_, _) =>
  }

  lemma ListenRow(n: Node, f: Frame, env: Env, k: Key)
    ensures var n' := Listen(n, f, env).0;
            if k in n.store then k in n'.store && n'.store[k] == n.store[k]
            else k in n'.store ==> !n'.store[k].processed
  {
  }

  /** A row that a step adds is not processed. */
  lemma DoAdds(s: System, m: nat, st: Step, a: nat, k: Key)
    requires 0 < m && Enabled(s, m, st) && a in s.nodes && k !in s.nodes[a].store && Holds(Do(s, m, st), a, k)
    ensures !Do(s, m, st).nodes[a].store[k].processed && !st.Process?
  {
    match st
    case Deliver(Data(dest, frame), env) => ListenRow(s.nodes[a], frame, env, k);
    case Local(_, _, _, _, _) =>
    case Send(_, _, _, _) =>
    case Deliver(Ack(_, _, _), _) =>
    case Join(_, _) =>
    case Process(_, _) =>
    case Restart(_, _) =>
  }

  /** What a server processed, it stores. */
  lemma {:induction false} ProcessedIsStored(ss: seq<System>, steps: seq<Step>, m: nat, i: nat, a: nat, k: Key)
    requires Run(ss, steps, m) && i < |steps| && steps[i] == Process(a, k)
    ensures Holds(ss[|steps|], a, k)
    decreases |steps|
  {
    var n := |steps| - 1;
    RunInit(ss, steps, m);
    if i < n {
      ProcessedIsStored(ss[..n + 1], steps[..n], m, i, a, k);
    } else {
      QueuedIsStored(ss[..n + 1], steps[..n], m, a, k);
    }
    StaysStored(ss[n], ss[n + 1], m, steps[n], a, k);
  }

  lemma StaysStored(s: System, s': System, m: nat, st: Step, a: nat, k: Key)
    requires 0 < m && Enabled(s, m, st) && s' == Do(s, m, st) && Holds(s, a, k)
    ensures Holds(s', a, k)
  {
    DoMarks(s, m, st, a, k);
  }

  lemma QueuedIsStored(ss: seq<System>, steps: seq<Step>, m: nat, a: nat, k: Key)
    requires Run(ss, steps, m) && a in ss[|steps|].nodes && k in ss[|steps|].nodes[a].queue
    ensures Holds(ss[|steps|], a, k)
  {
    HandledOnce(ss, steps, m, a);
  }

  /** In every run a stored message is marked processed exactly when a step processed it. */
  lemma {:induction false} ProcessedExactlyWhen(ss: seq<System>, steps: seq<Step>, m: nat, a: nat, k: Key)
    requires Run(ss, steps, m) && Holds(ss[|steps|], a, k)
    ensures ss[|steps|].nodes[a].store[k].processed <==> Process(a, k) in steps
  {
    if steps != [] {
      var n := |steps| - 1;
      var init, before := steps[..n], ss[..n + 1];
      RunInit(ss, steps, m);
      assert steps == init + [steps[n]] && before[n] == ss[n];
      if Holds(ss[n], a, k) {
        ProcessedExactlyWhen(before, init, m, a, k);
        DoMarks(ss[n], m, steps[n], a, k);
      } else {
        if i :| 0 <= i < n && init[i] == Process(a, k) {
          ProcessedIsStored(before, init, m, i, a, k);
        }
        DoAdds(ss[n], m, steps[n], a, k);
      }
    }
  }

  /** Exactly once: in every run a stored message that was not processed is in the handler's
      queue once, and one that was processed is there at most once. */
  lemma HandledExactlyOnce(ss: seq<System>, steps: seq<Step>, m: nat, a: nat, k: Key)
    requires Run(ss, steps, m) && Holds(ss[|steps|], a, k)
    ensures Process(a, k) !in steps ==> multiset(ss[|steps|].nodes[a].queue)[k] == 1
    ensures multiset(ss[|steps|].nodes[a].queue)[k] <= 1
  {
    var queue := ss[|steps|].nodes[a].queue;
    RunQueues(ss, steps, m, a);
    ProcessedExactlyWhen(ss, steps, m, a, k);
    HandledOnce(ss, steps, m, a);
    if k in queue {
      OccursOnce(queue, k);
    }
  }

  /** Once a message was processed, it stays marked in every later state of the
      run, whatever happens. */
  lemma ProcessMarksForGood(ss: seq<System>, steps: seq<Step>, m: nat, i: nat, j: nat, a: nat, k: Key)
    requires Run(ss, steps, m) && i < j <= |steps| && steps[i] == Process(a, k)
    ensures Holds(ss[j], a, k) && ss[j].nodes[a].store[k].processed
  {
    var pre := steps[..j];
    RunPrefix(ss, steps, m, j);
    assert pre[i] == steps[i];
    ProcessedIsStored(ss[..j + 1], pre, m, i, a, k);
    ProcessedExactlyWhen(ss[..j + 1], pre, m, a, k);
  }

  lemma RunPrefix(ss: seq<System>, steps: seq<Step>, m: nat, j: nat)
    requires Run(ss, steps, m) && j <= |steps|
    ensures Run(ss[..j + 1], steps[..j], m) && ss[..j + 1][j] == ss[j]
  {
  }

  /** A restart queues exactly the stored messages that were not processed before. */
  lemma RequeuedExactlyWhen(ss: seq<System>, steps: seq<Step>, m: nat, st: Step, k: Key)
    requires Run(ss, steps, m) && st.Restart? && Enabled(ss[|steps|], m, st)
    ensures k in Do(ss[|steps|], m, st).nodes[st.a].queue <==> Holds(ss[|steps|], st.a, k) && Process(st.a, k) !in steps
  {
    if Holds(ss[|steps|], st.a, k) {
      ProcessedExactlyWhen(ss, steps, m, st.a, k);
    }
  }

  // ---------------------------------------------------------------- who is owed what

  /** A server owes nothing to itself, and nothing to the maker of a message unless it learned of
      that server while it stored the message. */
  ghost predicate DebtFits(n: Node, steps: seq<Step>, a: nat, k: Key, b: nat) {
    (k, b) in n.owed ==> b != a && (b == k.server ==> Join(a, b) in steps)
  }

  lemma ListenDebts(n: Node, f: Frame, env: Env, k: Key, b: nat)
    ensures (k, b) in Listen(n, f, env).0.owed ==> (k, b) in n.owed || (b != n.id && b != k.server)
  {
  }

  lemma DoDebts(s: System, m: nat, st: Step, steps: seq<Step>, a: nat, k: Key, b: nat)
    requires 0 < m && Enabled(s, m, st) && a in s.nodes && s.nodes[a].id == a && DebtFits(s.nodes[a], steps, a, k, b)
    requires st.Local? ==> st.a in s.nodes && s.nodes[st.a].id == st.a
    ensures a in Do(s, m, st).nodes && Do(s, m, st).nodes[a].id == a
    ensures DebtFits(Do(s, m, st).nodes[a], steps + [st], a, k, b)
  {
    assert forall x :: x in steps ==> x in steps + [st];
    assert st in steps + [st];
    match st
    case Deliver(Data(dest, frame), env) => ListenDebts(s.nodes[a], frame, env, k, b);
    case Local(_, _, _, _, _) =>
    case Send(_, _, _, _) =>
    case Deliver(Ack(_, _, _), _) =>
    case Join(_, _) =>
    case Process(_, _) =>
    case Restart(_, _) =>
  }

  /** In every run no server owes itself a message, and none is sent back to its maker, except to
      one that joined later, which is owed everything. */
  lemma {:induction false} NotOwedToMaker(ss: seq<System>, steps: seq<Step>, m: nat, a: nat, k: Key, b: nat)
    requires Run(ss, steps, m) && a in ss[|steps|].nodes
    ensures DebtFits(ss[|steps|].nodes[a], steps, a, k, b)
  {
    if steps != [] {
      var n := |steps| - 1;
      RunInit(ss, steps, m);
      NotOwedToMaker(ss[..n + 1], steps[..n], m, a, k, b);
      RunIds(ss[..n + 1], steps[..n], m);
      assert steps == steps[..n] + [steps[n]];
      DoDebts(ss[n], m, steps[n], steps[..n], a, k, b);
    }
  }

  lemma RunIds(ss: seq<System>, steps: seq<Step>, m: nat)
    requires Run(ss, steps, m)
    ensures forall a :: a in ss[|steps|].nodes ==> ss[|steps|].nodes[a].id == a
  {
    RunInv(ss, steps, m);
    forall a | a in ss[|steps|].nodes ensures ss[|steps|].nodes[a].id == a {
      assert NodeOk(ss[|steps|], m, a);
    }
  }

  // ---------------------------------------------------------------- what a row says

  ghost function Made(n: Node, st: Step): Envelope
    requires st.Local?
  {
    Envelope(Header(NewKey(n), st.time, st.kind), st.signature, st.data)
  }

  lemma NewKeyUnused(s: System, m: nat, a: nat)
    requires Inv(s, m) && a in s.nodes
    ensures NewKey(s.nodes[a]) !in s.blobs
  {
    var k := NewKey(s.nodes[a]);
    assert NodeOk(s, m, a);
    assert k in s.blobs ==> Holds(s, k.server, k);
  }

  lemma DoKeepsBlob(s: System, m: nat, st: Step, k: Key)
    requires 0 < m && Enabled(s, m, st) && k in s.blobs
    requires st.Local? ==> NewKey(s.nodes[st.a]) !in s.blobs
    ensures k in Do(s, m, st).blobs && Do(s, m, st).blobs[k] == s.blobs[k]
  {
  }

  lemma StepKeepsBlob(s: System, m: nat, st: Step, k: Key)
    requires 0 < m && Inv(s, m) && Enabled(s, m, st) && k in s.blobs
    ensures k in Do(s, m, st).blobs && Do(s, m, st).blobs[k] == s.blobs[k]
  {
    if st.Local? {
      NewKeyUnused(s, m, st.a);
    }
    DoKeepsBlob(s, m, st, k);
  }

  lemma {:induction false} MadeStays(ss: seq<System>, steps: seq<Step>, m: nat, i: nat)
    requires Run(ss, steps, m) && i < |steps| && steps[i].Local?
    ensures var n := ss[i].nodes[steps[i].a]; var s := ss[|steps|];
            NewKey(n) in s.blobs && s.blobs[NewKey(n)] == NewBlob(n, steps[i])
    decreases |steps|
  {
    var n := |steps| - 1;
    RunInit(ss, steps, m);
    if i < n {
      var k := NewKey(ss[i].nodes[steps[i].a]);
      MadeStays(ss[..n + 1], steps[..n], m, i);
      RunInv(ss[..n + 1], steps[..n], m);
      StepKeepsBlob(ss[n], m, steps[n], k);
    }
  }

  /** What server a made at step i is stored there for good, and every copy of it, at any server,
      has the number, the time and the kind it was made with, and opens to its signature and
      data. */
  lemma RowsSayWhatWasMade(ss: seq<System>, steps: seq<Step>, m: nat, i: nat, b: nat)
    requires Run(ss, steps, m) && i < |steps| && steps[i].Local?
    ensures Holds(ss[|steps|], steps[i].a, NewKey(ss[i].nodes[steps[i].a]))
    ensures var st := steps[i]; var e := Made(ss[i].nodes[st.a], st); var s := ss[|steps|];
            Holds(s, b, e.header.key) ==>
              var blob := s.nodes[b].store[e.header.key].blob;
              && KeyOf(blob) == e.header.key && TimeOf(blob) == st.time && KindOf(blob) == st.kind
              && OpenBlob(blob) == if st.data == [] then None else Some(e)
  {
    var st, s := steps[i], ss[|steps|];
    var e := Made(ss[i].nodes[st.a], st);
    RunPrefix(ss, steps, m, i);
    RunInv(ss[..i + 1], steps[..i], m);
    assert NodeOk(ss[i], m, st.a);
    MadeStays(ss, steps, m, i);
    RunInv(ss, steps, m);
    MadeHeader(e);
    OpenMade(e);
    assert Holds(s, st.a, e.header.key);
    if Holds(s, b, e.header.key) {
      assert NodeOk(s, m, b);
    }
  }

  /** Nothing is stored that was not made: every stored message comes from one step of its
      server. */
  lemma {:induction false} StoredWasMade(ss: seq<System>, steps: seq<Step>, m: nat, b: nat, k: Key) returns (i: nat)
    requires Run(ss, steps, m) && Holds(ss[|steps|], b, k)
    ensures i < |steps| && steps[i].Local? && steps[i].a == k.server && k.server in ss[i].nodes
    ensures NewKey(ss[i].nodes[k.server]) == k
  {
    RunInv(ss, steps, m);
    assert NodeOk(ss[|steps|], m, b);
    i := BlobWasMade(ss, steps, m, k);
  }

  lemma {:induction false} BlobWasMade(ss: seq<System>, steps: seq<Step>, m: nat, k: Key) returns (i: nat)
    requires Run(ss, steps, m) && k in ss[|steps|].blobs
    ensures i < |steps| && steps[i].Local? && steps[i].a == k.server && k.server in ss[i].nodes
    ensures NewKey(ss[i].nodes[k.server]) == k
  {
    var n := |steps| - 1;
    RunInit(ss, steps, m);
    RunInv(ss[..n + 1], steps[..n], m);
    if k in ss[n].blobs {
      i := BlobWasMade(ss[..n + 1], steps[..n], m, k);
    } else {
      i := n;
      assert NodeOk(ss[n], m, steps[n].a);
    }
  }

  /** In a list in time order, as a restart queues them and the resender picks them, an older
      message of the run comes before a younger one. */
  lemma OlderFirst(ss: seq<System>, steps: seq<Step>, m: nat, i: nat, j: nat, b: nat, list: seq<Key>, x: nat, y: nat)
    requires Run(ss, steps, m) && i < |steps| && j < |steps| && steps[i].Local? && steps[j].Local?
    requires steps[i].time < steps[j].time && b in ss[|steps|].nodes
    requires (forall k :: k in list ==> k in ss[|steps|].nodes[b].store) && ByTime(ss[|steps|].nodes[b].store, list)
    requires x < |list| && list[x] == NewKey(ss[i].nodes[steps[i].a])
    requires y < |list| && list[y] == NewKey(ss[j].nodes[steps[j].a])
    ensures x < y
  {
    RowsSayWhatWasMade(ss, steps, m, i, b);
    RowsSayWhatWasMade(ss, steps, m, j, b);
    assert list[x] in list && list[y] in list;
  }
}
