/** What sending does to the outboxes: exactly once, to exactly the connected members. */
module Delivery {
  import opened Types
  import opened Members
  import opened Presence
  import opened Chat

  /** No two clients share a connection, and every connection in use was opened. */
  ghost predicate Wired(out: Outboxes, client: map<ClientRef, Client>) {
    && (forall c :: c in client && client[c].connection.Some? ==> client[c].connection.value in out)
    && (forall c, d | c in client && d in client && client[c].connection.Some? ::
          client[c].connection == client[d].connection ==> c == d)
  }

  ghost predicate ConnectedVia(client: map<ClientRef, Client>, c: ClientRef, k: Conn) {
    c in client && client[c].connection == Some(k)
  }

  /** Some member listed in ms has connection k. */
  ghost predicate Hears(client: map<ClientRef, Client>, ms: seq<Member>, k: Conn) {
    exists m :: m in ms && ConnectedVia(client, m.client, k)
  }

  /** Exactly-once broadcast. */
  lemma {:induction false} BroadcastExactlyOnce(out: Outboxes, client: map<ClientRef, Client>, ms: seq<Member>, p: Packet)
    requires Wired(out, client)
    requires forall i, j :: 0 <= i < j < |ms| ==> ms[i].client != ms[j].client
    ensures Deliver(out, client, ms, p).Keys == out.Keys
    ensures forall k :: k in out ==>
      Deliver(out, client, ms, p)[k] == out[k] + (if Hears(client, ms, k) then [p] else [])
    decreases |ms|
  {
    if ms != [] {
      var rest := ms[1..];
      var out1 := SendOne(out, client, ms[0].client, p);
      assert ms == [ms[0]] + rest;
      BroadcastExactlyOnce(out1, client, rest, p);
      forall k | k in out
        ensures Deliver(out, client, ms, p)[k] == out[k] + (if Hears(client, ms, k) then [p] else [])
      {
        if ConnectedVia(client, ms[0].client, k) {
          assert ms[0] in ms;
          forall m | m in rest ensures !ConnectedVia(client, m.client, k) {
            var j :| 0 <= j < |rest| && rest[j] == m;
            assert ms[j + 1] == m;
          }
        } else {
          assert Hears(client, ms, k) <==> Hears(client, rest, k);
        }
      }
    }
  }

  /** A receiver's view of any room changes only by reading the packet, and only if it hears it. */
  ghost predicate Read(out: Outboxes, out': Outboxes, client: map<ClientRef, Client>, ms: seq<Member>, p: Packet) {
    && out'.Keys == out.Keys
    && forall k, n :: k in out ==>
         View(out'[k], n) == if Hears(client, ms, k) then See(View(out[k], n), p, n) else View(out[k], n)
  }

  lemma BroadcastRead(out: Outboxes, client: map<ClientRef, Client>, ms: seq<Member>, p: Packet)
    requires Wired(out, client) && Distinct(ms)
    ensures Read(out, Deliver(out, client, ms, p), client, ms, p)
  {
    BroadcastExactlyOnce(out, client, ms, p);
    var out' := Deliver(out, client, ms, p);
    forall k, n | k in out
      ensures View(out'[k], n) == if Hears(client, ms, k) then See(View(out[k], n), p, n) else View(out[k], n)
    {
      ViewAppend(out[k], p, n);
      assert out[k] + [] == out[k];
    }
  }

  ghost predicate SameViews(out: Outboxes, out': Outboxes) {
    out'.Keys == out.Keys && forall k, n :: k in out ==> View(out'[k], n) == View(out[k], n)
  }

  /** Packets other than status packets and online lists leave every view alone. */
  lemma SendQuiet(out: Outboxes, client: map<ClientRef, Client>, c: ClientRef, p: Packet)
    requires Wired(out, client)
    requires !p.StatusPacket? && !p.OnlineListPacket?
    ensures SameViews(out, SendOne(out, client, c, p))
  {
    if c in client && client[c].connection.Some? {
      var k := client[c].connection.value;
      forall n ensures View(SendOne(out, client, c, p)[k], n) == View(out[k], n) {
        ViewAppend(out[k], p, n);
      }
    }
  }

  lemma {:induction false} SendMessagesQuiet(out: Outboxes, client: map<ClientRef, Client>, c: ClientRef, target: string, h: seq<Message>)
    requires Wired(out, client)
    ensures SameViews(out, SendMessages(out, client, c, target, h))
    decreases |h|
  {
    if h != [] {
      var p := MessagePacket(target, h[0]);
      SendQuiet(out, client, c, p);
      SendMessagesQuiet(SendOne(out, client, c, p), client, c, target, h[1..]);
    }
  }

  lemma BroadcastQuiet(out: Outboxes, client: map<ClientRef, Client>, ms: seq<Member>, p: Packet)
    requires Wired(out, client) && Distinct(ms)
    requires !p.StatusPacket? && !p.OnlineListPacket?
    ensures SameViews(out, Deliver(out, client, ms, p))
  {
    BroadcastRead(out, client, ms, p);
  }
}
