/**
 * The invariant that ties rooms, members, clients and outboxes together, and how steps that
 * touch one room at a time keep it.
 */
module World {
  import opened Types
  import opened Members
  import opened Presence
  import opened Delivery
  import opened Persistence
  import opened History
  import opened Chat

  // ---- the invariant ----

  ghost predicate RoomShape(room: Room) {
    && Distinct(room.members)
    && (forall m :: m in room.members ==> 0 < m.id < U32 && m.status in {Online, Away, Orphan})
    && room.nextMemberId < U32
    && InfosFiled(room.membersInfo)
  }

  /** The receiver on connection k knows the exact roster of room r. */
  ghost predicate KnowsRoster(s: State, r: RoomRef, k: Conn)
    requires r in s.rooms
  {
    && k in s.out
    && View(s.out[k], s.rooms[r].name).Some?
    && IsRoster(View(s.out[k], s.rooms[r].name).value, s.rooms[r].members)
  }

  /** A member, its client and the client's connection agree. */
  ghost predicate MemberLinked(s: State, r: RoomRef, m: Member)
    requires r in s.rooms && m.client in s.client
  {
    var cl := s.client[m.client];
    && m.client in s.mgr.clients
    && r in cl.rooms
    && (m.status == Orphan <==> cl.connection.None?)
    && (cl.connection.Some? ==> KnowsRoster(s, r, cl.connection.value))
  }

  /** Room r is in order, except that nothing is said about the member of client x. */
  ghost predicate RoomOk(s: State, r: RoomRef, x: Option<ClientRef>)
    requires r in s.rooms
  {
    && RoomShape(s.rooms[r])
    && forall m :: m in s.rooms[r].members ==>
         && m.client in s.client
         && (x != Some(m.client) ==> MemberLinked(s, r, m))
  }

  ghost predicate ClientOk(s: State, c: ClientRef)
    requires c in s.client
  {
    && NoDup(s.client[c].rooms)
    && (forall r :: r in s.client[c].rooms ==> r in s.registered && r in s.rooms && HasClient(s.rooms[r].members, c))
    && (c !in s.mgr.clients ==> s.client[c].rooms == [] && s.client[c].connection == None)
  }

  ghost predicate NamesDistinct(s: State) {
    forall q, r | q in s.registered && r in s.registered && q in s.rooms && r in s.rooms ::
      s.rooms[q].name == s.rooms[r].name ==> q == r
  }

  ghost predicate RegistryOk(s: State) {
    && NoDup(s.registered)
    && (forall r :: r in s.registered ==> r in s.rooms)
    && NamesDistinct(s)
    && (forall r :: r in s.rooms ==> r < s.nextRoom)
    && (forall r :: r in s.rooms && r !in s.registered ==> s.rooms[r].members == [])
    && (forall c :: c in s.mgr.clients ==> c in s.client)
  }

  /** The kept history is the tail of everything ever said in public in room r. */
  ghost predicate HistoryOk(s: State, r: RoomRef)
    requires r in s.rooms
  {
    && r in s.log
    && s.rooms[r].history == LastOf(s.log[r], s.cfg.maxHistory)
    && Numbered(s.log[r])
    && s.rooms[r].nextMessageId == |s.log[r]| % U32
  }

  function Exempt(x: Option<ClientRef>, todo: seq<RoomRef>, r: RoomRef): Option<ClientRef> {
    if r in todo then x else None
  }

  /** The world is in order, except that client x is still unsettled in the rooms of todo. */
  ghost predicate WorldBut(s: State, x: Option<ClientRef>, todo: seq<RoomRef>) {
    && Wired(s.out, s.client)
    && RegistryOk(s)
    && (forall r :: r in s.rooms ==> RoomOk(s, r, Exempt(x, todo, r)) && HistoryOk(s, r))
    && (forall c :: c in s.client && Some(c) != x ==> ClientOk(s, c))
  }

  ghost predicate WorldOk(s: State) {
    WorldBut(s, None, [])
  }

  // ---- steps that touch one room ----

  /** The parts of the state that no step on a room touches. */
  ghost predicate Still(s: State, t: State) {
    && t.mgr == s.mgr && t.registered == s.registered && t.nextRoom == s.nextRoom
    && t.cfg == s.cfg && t.alarms == s.alarms && t.nextClient == s.nextClient
    && t.now == s.now && t.lastTick == s.lastTick
    && t.rooms.Keys == s.rooms.Keys && t.out.Keys == s.out.Keys
    && t.client.Keys == s.client.Keys
    && (forall c :: c in s.client ==> SameButRooms(s.client[c], t.client[c]))
  }

  /** From s to t only room r, and the links of clients to room r, may have changed. */
  ghost predicate Touch(s: State, t: State, r: RoomRef)
    requires r in s.rooms
  {
    && Still(s, t)
    && t.rooms[r].name == s.rooms[r].name
    && (forall q :: q in s.rooms && q != r ==> t.rooms[q] == s.rooms[q])
    && (forall q :: q in s.log && q != r ==> q in t.log && t.log[q] == s.log[q])
    && (HistoryOk(s, r) ==> HistoryOk(t, r))
    && (forall c, q :: c in s.client && q != r ==> (q in t.client[c].rooms <==> q in s.client[c].rooms))
    && (forall k, n :: k in s.out && n != s.rooms[r].name ==> View(t.out[k], n) == View(s.out[k], n))
  }

  ghost predicate SameButRooms(a: Client, b: Client) {
    b == a.(rooms := b.rooms)
  }

  lemma StillTransitive(s: State, t: State, u: State)
    requires Still(s, t) && Still(t, u)
    ensures Still(s, u)
  {
    forall c | c in s.client ensures SameButRooms(s.client[c], u.client[c]) {
      assert SameButRooms(s.client[c], t.client[c]);
    }
  }

  lemma TouchTransitive(s: State, t: State, u: State, r: RoomRef)
    requires r in s.rooms && Touch(s, t, r) && Touch(t, u, r)
    ensures Touch(s, u, r)
  {
    hide HistoryOk;
    StillTransitive(s, t, u);
    forall k, n | k in s.out && n != s.rooms[r].name ensures View(u.out[k], n) == View(s.out[k], n) {
      assert View(t.out[k], n) == View(s.out[k], n);
    }
  }

  /** A room with another name does not notice. */
  lemma TouchOther(s: State, t: State, r: RoomRef, q: RoomRef, x: Option<ClientRef>)
    requires r in s.rooms && q in s.rooms && q != r && Touch(s, t, r)
    requires s.rooms[q].name != s.rooms[r].name || s.rooms[q].members == []
    requires RoomOk(s, q, x)
    ensures RoomOk(t, q, x)
  {
    forall m | m in s.rooms[q].members && x != Some(m.client) ensures MemberLinked(t, q, m) {
      assert MemberLinked(s, q, m);
      assert SameButRooms(s.client[m.client], t.client[m.client]);
      var cl := s.client[m.client];
      if cl.connection.Some? {
        assert View(t.out[cl.connection.value], s.rooms[q].name) == View(s.out[cl.connection.value], s.rooms[q].name);
      }
    }
  }

  /** Client c links to room r exactly when it has a member there. */
  ghost predicate LinkedTo(t: State, c: ClientRef, r: RoomRef)
    requires c in t.client && r in t.rooms
  {
    && NoDup(t.client[c].rooms)
    && (r in t.client[c].rooms ==> r in t.registered && HasClient(t.rooms[r].members, c))
  }

  lemma SomeElement(rs: seq<RoomRef>)
    ensures rs == [] || exists q :: q in rs
  {
    if rs != [] { assert rs[0] in rs; }
  }

  lemma TouchClient(s: State, t: State, r: RoomRef, c: ClientRef)
    requires r in s.rooms && Touch(s, t, r) && c in s.client
    requires ClientOk(s, c) && LinkedTo(t, c, r)
    requires c !in s.mgr.clients ==> r !in t.client[c].rooms
    ensures ClientOk(t, c)
  {
    assert SameButRooms(s.client[c], t.client[c]);
    if c !in t.mgr.clients {
      var rs := t.client[c].rooms;
      forall q ensures q !in rs {
        assert q != r ==> (q in rs <==> q in s.client[c].rooms);
      }
      SomeElement(rs);
    }
    forall q | q in t.client[c].rooms
      ensures q in t.registered && q in t.rooms && HasClient(t.rooms[q].members, c)
    {
      if q != r { assert q in s.client[c].rooms; }
    }
  }

  lemma TouchWired(s: State, t: State, r: RoomRef)
    requires r in s.rooms && Touch(s, t, r) && Wired(s.out, s.client)
    ensures Wired(t.out, t.client)
  {
    forall c | c in s.client ensures t.client[c].connection == s.client[c].connection {
      assert SameButRooms(s.client[c], t.client[c]);
    }
  }

  lemma TouchRegistry(s: State, t: State, r: RoomRef)
    requires r in s.rooms && Touch(s, t, r) && RegistryOk(s)
    requires r !in t.registered ==> t.rooms[r].members == []
    ensures RegistryOk(t)
  {
    forall q | q in s.rooms ensures t.rooms[q].name == s.rooms[q].name {
    }
    forall q | q in t.rooms && q !in t.registered ensures t.rooms[q].members == [] {
      if q != r { assert t.rooms[q] == s.rooms[q]; }
    }
  }

  lemma TouchHistory(s: State, t: State, r: RoomRef, q: RoomRef)
    requires r in s.rooms && q in s.rooms && Touch(s, t, r) && HistoryOk(s, r) && HistoryOk(s, q)
    ensures HistoryOk(t, q)
  {
  }

  /** One settled room: the world stays in order and r leaves the list of unsettled rooms. */
  lemma TouchWorld(s: State, t: State, r: RoomRef, x: Option<ClientRef>, todo: seq<RoomRef>, todo': seq<RoomRef>)
    requires r in s.rooms && r in s.registered && Touch(s, t, r)
    requires WorldBut(s, x, todo)
    requires RoomOk(t, r, Exempt(x, todo', r))
    requires forall q :: q != r ==> (q in todo <==> q in todo')
    requires forall c :: c in s.client && Some(c) != x ==> LinkedTo(t, c, r) && (c !in s.mgr.clients ==> r !in t.client[c].rooms)
    ensures WorldBut(t, x, todo')
  {
    hide RoomOk, HistoryOk, ClientOk, LinkedTo, Wired;
    TouchWired(s, t, r);
    assert r in t.registered;
    TouchRegistry(s, t, r);
    forall q | q in t.rooms ensures RoomOk(t, q, Exempt(x, todo', q)) && HistoryOk(t, q) {
      TouchHistory(s, t, r, q);
      if q != r {
        assert s.rooms[q].name != s.rooms[r].name || s.rooms[q].members == [];
        TouchOther(s, t, r, q, Exempt(x, todo, q));
      }
    }
    forall c | c in t.client && Some(c) != x ensures ClientOk(t, c) {
      assert ClientOk(s, c);
      TouchClient(s, t, r, c);
    }
  }
}
