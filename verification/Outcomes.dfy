/** Events that reach several rooms at once: presence changes, lost connections, closed ones, sweeps. */
module Outcomes {
  import opened Types
  import opened Members
  import opened Presence
  import opened Delivery
  import opened Chat
  import opened World
  import opened WorldSteps
  import opened Registry
  import opened Sessions
  import opened Transfers
  import opened Invariant
  import opened Runs
  import opened Theorems
  import opened Talking
  import opened Lifecycle
  import opened Opening
  import opened Effects
  import opened Commands
  import opened Packets
  import opened Notices

  lemma MayVisit(s: State, c: ClientRef)
    requires Reachable(s) && c in s.client
    ensures Visitable(s, s.client[c].rooms)
  {
    ReachableWorld(s);
    assert ClientOk(s, c);
    forall r | r in s.client[c].rooms ensures r in s.rooms && Distinct(s.rooms[r].members) {
      InShape(s, r);
    }
  }

  /** Other clocks, limiters and outboxes make no difference, nor does a connection that is gone. */
  lemma VisitAlso(s: State, h: State, todo: seq<RoomRef>)
    requires Visitable(s, todo) && h.rooms == s.rooms && h.out == s.out && h.client.Keys == s.client.Keys
    requires forall d :: d in s.client ==> h.client[d].connection in {None, s.client[d].connection}
    ensures Visitable(h, todo)
  {
    hide Distinct, NoDup;
    forall d, f | d in h.client && f in h.client && h.client[d].connection.Some? && h.client[d].connection == h.client[f].connection
      ensures d == f
    {
      assert h.client[d].connection == s.client[d].connection && h.client[f].connection == s.client[f].connection;
    }
  }

  // ---- away, back, typing ----

  /** Client c's member has the status if it has a nick; nothing else in the room has changed. */
  ghost predicate StatusSet(room: Room, room': Room, c: ClientRef, status: Status) {
    && room' == room.(members := room'.members) && |room'.members| == |room.members|
    && forall j :: 0 <= j < |room.members| ==>
         room'.members[j] ==
           if room.members[j].client == c && room.members[j].nick != "" then room.members[j].(status := status) else room.members[j]
  }

  function Changed(room: Room, c: ClientRef, status: Status): Room {
    match FindByClient(room.members, c)
    case None => room
    case Some(i) =>
      if room.members[i].nick == "" then room else room.(members := room.members[i := room.members[i].(status := status)])
  }

  lemma ChangedIs(room: Room, c: ClientRef, status: Status)
    requires Distinct(room.members)
    ensures StatusSet(room, Changed(room, c, status), c, status)
  {
    var ms := room.members;
    if FindByClient(ms, c).None? {
      forall j | 0 <= j < |ms| ensures ms[j].client != c {
        assert ms[j] in ms;
      }
    }
  }

  lemma ChangeInRooms(s: State, c: ClientRef, r: RoomRef, status: Status)
    requires r in s.rooms
    ensures var t := ChangeStatusIn(s, c, r, status);
      && t.rooms == s.rooms[r := Changed(s.rooms[r], c, if status == Back then Online else Away)]
      && t == s.(rooms := t.rooms, out := t.out)
  {
    hide Deliver;
    assert s.rooms[r := s.rooms[r]] == s.rooms;
  }

  lemma {:induction false} ChangeRooms(s: State, c: ClientRef, status: Status, todo: seq<RoomRef>)
    requires NoDup(todo) && forall r :: r in todo ==> r in s.rooms
    ensures var t := ChangeStatusRooms(s, c, status, todo);
      && RoomsMapped(s, t, todo, room => Changed(room, c, if status == Back then Online else Away))
      && t == s.(rooms := t.rooms, out := t.out)
    decreases |todo|
  {
    hide ChangeStatusIn, Changed;
    if todo != [] {
      var u := ChangeStatusIn(s, c, todo[0], status);
      ChangeInRooms(s, c, todo[0], status);
      NoDupTail(todo);
      ChangeRooms(u, c, status, todo[1..]);
      MappedSame(u, ChangeStatusRooms(u, c, status, todo[1..]), todo[1..],
                 room => Changed(room, c, if status == Back then Online else Away),
                 room => Changed(room, c, if status == Back then Online else Away));
      MappedFurther(s, u, ChangeStatusRooms(u, c, status, todo[1..]), todo,
                    room => Changed(room, c, if status == Back then Online else Away));
    }
  }

  lemma NoSeatNoChange(s: State, c: ClientRef, r: RoomRef, status: Status)
    requires Reachable(s) && c in s.client && r in s.rooms
    ensures r !in s.client[c].rooms ==> Changed(s.rooms[r], c, status) == s.rooms[r]
    ensures StatusSet(s.rooms[r], Changed(s.rooms[r], c, status), c, status)
  {
    ReachableWorld(s);
    NotLinked(s, c, r);
    InShape(s, r);
    ChangedIs(s.rooms[r], c, status);
  }

  /** Away and back: the status in every room where the sender has a nick, and each such room is told once. */
  lemma PresenceDone(s: State, e: Timed, c: ClientRef, target: string, status: Status)
    requires Reachable(s) && Sends(s, e, c) && e.event.p == StatusIn(target, status) && status in {Away, Back}
    ensures var t := Step(s, e);
      && OnlyHeard(s, t, c, e.now) && t.log == s.log && t.rooms.Keys == s.rooms.Keys
      && (forall r :: r in s.rooms ==> StatusSet(s.rooms[r], t.rooms[r], c, if status == Back then Online else Away))
      && t.out.Keys == s.out.Keys
      && forall k :: k in s.out ==>
           t.out[k] == s.out[k] + Tour(Awake(s, c, e.now).client, s.rooms, s.client[c].rooms, c, status, k)
  {
    hide Reachable, Step, ChangeStatusRooms, Visitable, Tour, StatusSet, Changed, RoomByName;
    Processed(s, e, c);
    AwakeFields(s, c, e.now);
    var h := Awake(s, c, e.now);
    var todo := s.client[c].rooms;
    MayVisit(s, c);
    VisitAlso(s, h, todo);
    VisitedOnce(s, todo);
    ChangeTour(h, c, status, todo);
    ChangeRooms(h, c, status, todo);
    forall r | r in s.rooms ensures StatusSet(s.rooms[r], Step(s, e).rooms[r], c, if status == Back then Online else Away) {
      NoSeatNoChange(s, c, r, if status == Back then Online else Away);
    }
  }

  lemma VisitedOnce(s: State, todo: seq<RoomRef>)
    requires Visitable(s, todo)
    ensures NoDup(todo) && forall r :: r in todo ==> r in s.rooms
  {
  }

  /** Typing is told to the room it names, if its sender has a nick there, and changes nothing. */
  lemma TypingDone(s: State, e: Timed, c: ClientRef, target: string, status: Status, r: RoomRef, i: nat)
    requires Reachable(s) && Sends(s, e, c) && e.event.p == StatusIn(target, status) && status in {Typing, StopTyping}
    requires Inside(s, c, target, r, i)
    ensures var t := Step(s, e); var m := s.rooms[r].members[i];
      && OnlyHeard(s, t, c, e.now) && t.rooms == s.rooms && t.log == s.log && t.out.Keys == s.out.Keys
      && forall k :: k in s.out ==>
           t.out[k] == s.out[k] + if m.nick == "" then []
             else Tell(s, r, k, StatusPacket(StatusInfo(target, status, m.id, m.nick, m.girl, m.color)))
  {
    hide Reachable, Step, RoomByName, FindByClient, Deliver, Listens;
    Processed(s, e, c);
    AwakeFields(s, c, e.now);
    var h := Awake(s, c, e.now);
    var m := s.rooms[r].members[i];
    FoundInside(s, h, c, r, i);
    SpokenTo(s, h.client, r, StatusPacket(StatusInfo(target, status, m.id, m.nick, m.girl, m.color)));
    forall k | k in s.out ensures s.out[k] + [] == s.out[k] {
    }
  }

  /** Any other status, and typing in a room the sender is not in, only counts as a sign of life. */
  lemma StatusIgnored(s: State, e: Timed, c: ClientRef, target: string, status: Status)
    requires Sends(s, e, c) && e.event.p == StatusIn(target, status) && status !in {Away, Back}
    requires status !in {Typing, StopTyping} || Outside(s, c, target)
    ensures Step(s, e) == s.(now := e.now, client := s.client[c := s.client[c].(lastPacketTime := e.now)])
  {
    hide RoomByName;
  }

  // ---- lost and closed connections ----

  /** The client is an orphan in all its rooms, which were told so when it could no longer hear it. */
  ghost predicate Orphaned(s: State, t: State, c: ClientRef) {
    && c in s.client && t.client == s.client[c := s.client[c].(connection := None)] && t.mgr.clients == s.mgr.clients
    && OrphanedIn(s, t, c) && t.out.Keys == s.out.Keys
    && forall k :: k in s.out ==>
         t.out[k] == s.out[k] + Tour(s.client[c := s.client[c].(connection := None)], s.rooms, s.client[c].rooms, c, Orphan, k)
  }

  /** The client is gone: off the list, out of all its rooms, which were told so while it could still hear it. */
  ghost predicate Departed(s: State, t: State, c: ClientRef) {
    && c in s.client && t.client == s.client[c := s.client[c].(rooms := [], connection := None)]
    && t.mgr.clients == Erase(s.mgr.clients, c) && LeftBy(s, t, c) && t.out.Keys == s.out.Keys
    && forall k :: k in s.out ==> t.out[k] == s.out[k] + Tour(s.client, s.rooms, s.client[c].rooms, c, Offline, k)
  }

  lemma MakeOrphanTells(s: State, c: ClientRef, k: Conn)
    requires Sound(s) && c in s.mgr.clients && c in s.client && s.client[c].connection == Some(k) && Visitable(s, s.client[c].rooms)
    ensures Orphaned(s, MakeOrphan(s, c), c)
  {
    hide Sound, Visitable, MakeOrphan, OrphanRooms, OrphanedIn, Shrunk, Tour, OrphanManager;
    MakeOrphanIs(s, c, k);
    MakeOrphanStep(s, c);
    OrphanLeaves(s, c, k);
    var u := Cut(s, c, k);
    VisitAlso(s, u, s.client[c].rooms);
    OrphanTour(u, c, s.client[c].rooms);
  }

  lemma RemoveTells(s: State, c: ClientRef)
    requires Sound(s) && c in s.mgr.clients && c in s.client && Visitable(s, s.client[c].rooms)
    ensures Departed(s, Remove(s, c), c)
  {
    hide Sound, Visitable, Remove, RemoveRooms, Unlist, LeftBy, Shrunk, Tour, RemovedManager, HasClient, OnRemove;
    RemoveStep(s, c);
    RemovedLeaves(s, c);
    UnlistIs(s, c);
    var u := Unlist(s, c);
    VisitAlso(s, u, s.client[c].rooms);
    RemoveTour(u, c, s.client[c].rooms);
    RemoveOut(u, c);
    RemoveIsOnRemove(s, c);
    RemovedList(s, c);
  }

  lemma RemoveIsOnRemove(s: State, c: ClientRef)
    requires c in s.client && c in Unlist(s, c).client
    ensures Remove(s, c) == OnRemove(Unlist(s, c), c)
  {
    hide OnRemove, Unlist;
  }

  lemma RemoveOut(u: State, c: ClientRef)
    requires c in u.client
    ensures OnRemove(u, c).out == RemoveRooms(u, c, u.client[c].rooms).out
  {
    hide RemoveRooms;
  }

  lemma RemovedList(s: State, c: ClientRef)
    requires c in s.client
    ensures RemovedManager(s, c).clients == Erase(s.mgr.clients, c)
  {
  }

  /** The state after time has passed, with everything these steps ask of it. */
  lemma Later(s: State, e: Timed, k: Conn)
    requires Reachable(s) && Valid(s, e) && k in s.mgr.connectionToClient
    ensures var s1 := s.(now := e.now); var c := s.mgr.connectionToClient[k];
      && Sound(s1) && c in s1.mgr.clients && c in s1.client && s1.client[c].connection == Some(k) && Visitable(s1, s1.client[c].rooms)
  {
    hide Reachable, Valid, Inv, Sound, Visitable;
    ReachableInv(s);
    TimeMoves(s, e);
    TimePasses(s, e.now);
    InvSound(s.(now := e.now));
    Behind(s, k);
    MayVisit(s, s.mgr.connectionToClient[k]);
    VisitAlso(s, s.(now := e.now), s.client[s.mgr.connectionToClient[k]].rooms);
  }

  lemma OrphanedLately(s: State, s1: State, t: State, c: ClientRef)
    requires s1 == s.(now := s1.now)
    ensures Orphaned(s1, t, c) ==> Orphaned(s, t, c)
    ensures Departed(s1, t, c) ==> Departed(s, t, c)
  {
    hide Tour, TurnedOnly, Without, Stored;
    assert UidOf(s1, c) == UidOf(s, c);
  }

  /** A close by the browser ends the session; any other close, and an error, leaves an orphan. */
  lemma CloseOutcome(s: State, e: Timed)
    requires Reachable(s) && Valid(s, e) && (e.event.Close? || e.event.Fail?) && e.event.k in s.mgr.connectionToClient
    ensures var c := s.mgr.connectionToClient[e.event.k];
      if e.event.Close? && e.event.status in {1000, 1001} then Departed(s, Step(s, e), c) else Orphaned(s, Step(s, e), c)
  {
    Later(s, e, e.event.k);
    hide Reachable, Valid, Sound, Visitable, MakeOrphan, Remove, Departed, Orphaned;
    var s1 := s.(now := e.now);
    var c := s.mgr.connectionToClient[e.event.k];
    MakeOrphanTells(s1, c, e.event.k);
    RemoveTells(s1, c);
    OrphanedLately(s, s1, Step(s, e), c);
  }
}
