/** What a step does to outboxes and sessions, in terms of the state before it. */
module Effects {
  import opened Types
  import opened Members
  import opened Presence
  import opened Delivery
  import opened Chat
  import opened World
  import opened Registry
  import opened Sessions
  import opened Invariant
  import opened Runs
  import opened Theorems
  import opened Talking

  type Clients = map<ClientRef, Client>

  /** What a broadcast to room r appends to the outbox of k. */
  ghost function Tell(s: State, r: RoomRef, k: Conn, p: Packet): seq<Packet>
    requires r in s.rooms
  {
    if Listens(s, r, k) then [p] else []
  }

  /** The same clients with the same connections. */
  ghost predicate SameLines(client: Clients, client': Clients) {
    client'.Keys == client.Keys && forall d :: d in client ==> client'[d].connection == client[d].connection
  }

  lemma SpokenTo(s: State, client': Clients, r: RoomRef, p: Packet)
    requires Reachable(s) && r in s.rooms && SameLines(s.client, client')
    ensures var out' := Deliver(s.out, client', s.rooms[r].members, p);
      out'.Keys == s.out.Keys && forall k :: k in s.out ==> out'[k] == s.out[k] + Tell(s, r, k, p)
  {
    hide Reachable, Listens, Deliver;
    SameWires(s.out, s.client, client', s.rooms[r].members, p);
    ExactlyOnce(s, r, p);
    forall k | k in s.out
      ensures Deliver(s.out, client', s.rooms[r].members, p)[k] == s.out[k] + Tell(s, r, k, p)
    {
      assert s.out[k] + [] == s.out[k];
    }
  }

  lemma SentTo(s: State, out: Outboxes, client': Clients, c: ClientRef, p: Packet)
    requires Wired(s.out, s.client) && out.Keys == s.out.Keys && SameLines(s.client, client')
    ensures var out' := SendOne(out, client', c, p);
      out'.Keys == out.Keys && forall k :: k in out ==> out'[k] == out[k] + Copy(s, c, k, p)
  {
    forall k | k in out ensures SendOne(out, client', c, p)[k] == out[k] + Copy(s, c, k, p) {
      assert out[k] + [] == out[k];
    }
  }

  /** The client behind an indexed connection is connected by it and has an outbox for it. */
  lemma Behind(s: State, k: Conn)
    requires Reachable(s) && k in s.mgr.connectionToClient
    ensures var c := s.mgr.connectionToClient[k];
      c in s.client && c in s.mgr.clients && s.client[c].connection == Some(k) && k in s.out
  {
    ReachableWorld(s);
    Indexed(s, k);
  }

  /** Nothing happened to the sessions but that c was heard, and its limiter may have counted. */
  ghost predicate OnlyHeard(s: State, t: State, c: ClientRef, now: int) {
    && c in s.client && c in t.client
    && t.client == s.client[c := s.client[c].(lastPacketTime := now, limiter := t.client[c].limiter)]
    && t.mgr == s.mgr && t.registered == s.registered && t.nextRoom == s.nextRoom
  }

  /** The sender of the packet was heard and answered, and that is all. */
  ghost predicate OnlyAnswered(s: State, t: State, c: ClientRef, k: Conn, now: int, ps: seq<Packet>) {
    && OnlyHeard(s, t, c, now) && t.rooms == s.rooms && t.log == s.log
    && k in s.out && t.out == s.out[k := s.out[k] + ps]
  }

  /** Room r became room', the sender was heard, and every outbox k grew by what is given for it elsewhere. */
  ghost predicate OnlyRoom(s: State, t: State, c: ClientRef, now: int, r: RoomRef, room': Room) {
    && r in s.rooms && OnlyHeard(s, t, c, now) && t.rooms == s.rooms[r := room'] && t.log == s.log && t.out.Keys == s.out.Keys
  }

  lemma CopyToSelf(s: State, c: ClientRef, k: Conn, p: Packet)
    requires c in s.client && s.client[c].connection == Some(k)
    ensures forall q :: Copy(s, c, q, p) == if q == k then [p] else []
  {
  }
}
