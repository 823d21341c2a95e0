/** The steps that tell several rooms: exactly which outbox gets which packets, in which order. */
module Notices {
  import opened Types
  import opened Members
  import opened Presence
  import opened Delivery
  import opened Chat
  import opened World
  import opened WorldSteps
  import opened Registry
  import opened Sessions
  import opened Transfers
  import opened Invariant
  import opened Runs
  import opened Theorems
  import opened Talking
  import opened Effects
  import opened Commands
  import opened Packets

  type Rooms = map<RoomRef, Room>

  // ---- one room ----

  /** What k hears of a packet that goes to these members. */
  ghost function Told(client: Clients, ms: seq<Member>, k: Conn, p: Packet): seq<Packet> {
    if Hears(client, ms, k) then [p] else []
  }

  /** What k hears of client c's change of status in a room, if its member there has a nick. */
  ghost function Notice(client: Clients, room: Room, c: ClientRef, status: Status, k: Conn): seq<Packet> {
    match FindByClient(room.members, c)
    case None => []
    case Some(i) =>
      var m := room.members[i];
      if m.nick == "" then []
      else Told(client, room.members, k, StatusPacket(StatusInfo(room.name, status, m.id, m.nick, m.girl, m.color)))
  }

  /** The same, room by room. */
  ghost function Tour(client: Clients, rooms: Rooms, todo: seq<RoomRef>, c: ClientRef, status: Status, k: Conn): seq<Packet> {
    if todo == [] then []
    else (if todo[0] in rooms then Notice(client, rooms[todo[0]], c, status, k) else []) + Tour(client, rooms, todo[1..], c, status, k)
  }

  /** Every outbox has grown by its tour. */
  ghost predicate Toured(s: State, t: State, todo: seq<RoomRef>, c: ClientRef, status: Status) {
    && t.out.Keys == s.out.Keys
    && forall k :: k in s.out ==> t.out[k] == s.out[k] + Tour(s.client, s.rooms, todo, c, status, k)
  }

  /** The rooms to visit exist, once each, with distinct members, and the lines are in order. */
  ghost predicate Visitable(s: State, todo: seq<RoomRef>) {
    && Wired(s.out, s.client) && NoDup(todo)
    && forall r :: r in todo ==> r in s.rooms && Distinct(s.rooms[r].members)
  }

  lemma {:induction false} TourAlike(client: Clients, rooms: Rooms, rooms': Rooms, todo: seq<RoomRef>, c: ClientRef, status: Status, k: Conn)
    requires forall r :: r in todo ==> r in rooms && r in rooms' && rooms'[r] == rooms[r]
    ensures Tour(client, rooms', todo, c, status, k) == Tour(client, rooms, todo, c, status, k)
  {
    if todo != [] {
      assert todo == [todo[0]] + todo[1..];
      TourAlike(client, rooms, rooms', todo[1..], c, status, k);
    }
  }

  lemma DeliveredTold(out: Outboxes, client: Clients, ms: seq<Member>, p: Packet)
    requires Wired(out, client) && Distinct(ms)
    ensures Deliver(out, client, ms, p).Keys == out.Keys
    ensures forall k :: k in out ==> Deliver(out, client, ms, p)[k] == out[k] + Told(client, ms, k, p)
  {
    BroadcastExactlyOnce(out, client, ms, p);
  }

  lemma ToldAlike(client: Clients, ms: seq<Member>, ms': seq<Member>, p: Packet)
    requires |ms'| == |ms| && forall j :: 0 <= j < |ms| ==> ms'[j].client == ms[j].client
    ensures forall k :: Told(client, ms', k, p) == Told(client, ms, k, p)
  {
    forall k ensures Hears(client, ms', k) <==> Hears(client, ms, k) {
      if m :| m in ms && ConnectedVia(client, m.client, k) {
        var j :| 0 <= j < |ms| && ms[j] == m;
        assert ms'[j] in ms';
      }
      if m :| m in ms' && ConnectedVia(client, m.client, k) {
        var j :| 0 <= j < |ms| && ms'[j] == m;
        assert ms[j] in ms;
      }
    }
  }

  /** One room visited: its own notice first, then the rest of the tour as it would have been anyway. */
  lemma TourStep(s: State, u: State, t: State, todo: seq<RoomRef>, c: ClientRef, status: Status)
    requires Visitable(s, todo) && todo != [] && u.client == s.client && u.out.Keys == s.out.Keys
    requires forall r :: r in s.rooms && r != todo[0] ==> r in u.rooms && u.rooms[r] == s.rooms[r]
    requires forall k :: k in s.out ==> u.out[k] == s.out[k] + Notice(s.client, s.rooms[todo[0]], c, status, k)
    requires Toured(u, t, todo[1..], c, status)
    ensures Toured(s, t, todo, c, status)
  {
    NoDupTail(todo);
    assert todo == [todo[0]] + todo[1..];
    hide Notice, Wired, Distinct;
    forall k | k in s.out ensures t.out[k] == s.out[k] + Tour(s.client, s.rooms, todo, c, status, k) {
      TourAlike(s.client, s.rooms, u.rooms, todo[1..], c, status, k);
      Joined3(s.out[k], Notice(s.client, s.rooms[todo[0]], c, status, k), Tour(s.client, s.rooms, todo[1..], c, status, k));
    }
  }

  lemma VisitableRest(s: State, u: State, todo: seq<RoomRef>)
    requires Visitable(s, todo) && todo != [] && u.client == s.client && u.out.Keys == s.out.Keys
    requires forall r :: r in s.rooms && r != todo[0] ==> r in u.rooms && u.rooms[r] == s.rooms[r]
    ensures Visitable(u, todo[1..]) && todo[0] in s.rooms && todo[0] !in todo[1..]
  {
    NoDupTail(todo);
    assert todo == [todo[0]] + todo[1..];
  }

  lemma NothingToured(s: State, c: ClientRef, status: Status)
    ensures Toured(s, s, [], c, status)
  {
    forall k | k in s.out ensures s.out[k] == s.out[k] + Tour(s.client, s.rooms, [], c, status, k) {
    }
  }

  // ---- orphan notices ----

  lemma OrphanInTold(s: State, c: ClientRef, r: RoomRef)
    requires r in s.rooms && Distinct(s.rooms[r].members) && Wired(s.out, s.client)
    ensures var t := OrphanIn(s, c, r);
      && t.client == s.client && t.out.Keys == s.out.Keys
      && (forall q :: q in s.rooms && q != r ==> q in t.rooms && t.rooms[q] == s.rooms[q])
      && forall k :: k in s.out ==> t.out[k] == s.out[k] + Notice(s.client, s.rooms[r], c, Orphan, k)
  {
    hide Wired, Distinct, Hears, FindByClient;
    var ms := s.rooms[r].members;
    match FindByClient(ms, c) {
      case None =>
        forall k | k in s.out ensures s.out[k] + [] == s.out[k] {
        }
      case Some(i) =>
        var m := ms[i].(status := Orphan);
        var p := StatusPacket(StatusInfo(s.rooms[r].name, Orphan, m.id, m.nick, m.girl, m.color));
        DeliveredTold(s.out, s.client, ms, p);
        SameEars(s.out, s.client, ms, ms[i := m], p);
        hide Deliver;
        forall k | k in s.out ensures s.out[k] + [] == s.out[k] {
        }
    }
  }

  lemma {:induction false} OrphanTour(s: State, c: ClientRef, todo: seq<RoomRef>)
    requires Visitable(s, todo)
    ensures Toured(s, OrphanRooms(s, c, todo), todo, c, Orphan)
    decreases |todo|
  {
    hide Toured, OrphanIn, Notice, Wired, Distinct;
    if todo == [] {
      NothingToured(s, c, Orphan);
    } else {
      assert todo[0] in todo;
      OrphanInTold(s, c, todo[0]);
      var u := OrphanIn(s, c, todo[0]);
      VisitableRest(s, u, todo);
      OrphanTour(u, c, todo[1..]);
      TourStep(s, u, OrphanRooms(u, c, todo[1..]), todo, c, Orphan);
    }
  }

  // ---- departure notices ----

  lemma RemoveInTold(s: State, c: ClientRef, r: RoomRef)
    requires r in s.rooms && Distinct(s.rooms[r].members) && Wired(s.out, s.client)
    ensures var t := RemoveMember(s, r, c);
      && t.client == s.client && t.out.Keys == s.out.Keys
      && (forall q :: q in s.rooms && q != r ==> q in t.rooms && t.rooms[q] == s.rooms[q])
      && forall k :: k in s.out ==> t.out[k] == s.out[k] + Notice(s.client, s.rooms[r], c, Offline, k)
  {
    hide Wired, Distinct, Hears, FindByClient;
    RemoveMemberRooms(s, r, c);
    var ms := s.rooms[r].members;
    match FindByClient(ms, c) {
      case None =>
        forall k | k in s.out ensures s.out[k] + [] == s.out[k] {
        }
      case Some(i) =>
        var m := ms[i];
        DeliveredTold(s.out, s.client, ms, StatusPacket(StatusInfo(s.rooms[r].name, Offline, m.id, m.nick, m.girl, m.color)));
        hide Deliver;
        forall k | k in s.out ensures s.out[k] + [] == s.out[k] {
        }
    }
  }

  lemma {:induction false} RemoveTour(s: State, c: ClientRef, todo: seq<RoomRef>)
    requires Visitable(s, todo)
    ensures Toured(s, RemoveRooms(s, c, todo), todo, c, Offline)
    decreases |todo|
  {
    hide Toured, RemoveMember, Notice, Wired, Distinct;
    if todo == [] {
      NothingToured(s, c, Offline);
    } else {
      assert todo[0] in todo;
      RemoveInTold(s, c, todo[0]);
      var u := RemoveMember(s, todo[0], c);
      VisitableRest(s, u, todo);
      RemoveTour(u, c, todo[1..]);
      TourStep(s, u, RemoveRooms(u, c, todo[1..]), todo, c, Offline);
    }
  }

  // ---- away and back ----

  lemma ChangeInIs(s: State, c: ClientRef, r: RoomRef, status: Status, i: nat)
    requires r in s.rooms && FindByClient(s.rooms[r].members, c) == Some(i)
    ensures var t := ChangeStatusIn(s, c, r, status); var ms := s.rooms[r].members; var m := ms[i];
      && t.client == s.client && (forall q :: q in s.rooms && q != r ==> q in t.rooms && t.rooms[q] == s.rooms[q])
      && t.out == if m.nick == "" then s.out
                  else Deliver(s.out, s.client, ms[i := m.(status := if status == Back then Online else Away)],
                               StatusPacket(StatusInfo(s.rooms[r].name, status, m.id, m.nick, m.girl, m.color)))
  {
    hide Deliver, FindByClient;
  }

  lemma ChangeInTold(s: State, c: ClientRef, r: RoomRef, status: Status)
    requires r in s.rooms && Distinct(s.rooms[r].members) && Wired(s.out, s.client)
    ensures var t := ChangeStatusIn(s, c, r, status);
      && t.client == s.client && t.out.Keys == s.out.Keys
      && (forall q :: q in s.rooms && q != r ==> q in t.rooms && t.rooms[q] == s.rooms[q])
      && forall k :: k in s.out ==> t.out[k] == s.out[k] + Notice(s.client, s.rooms[r], c, status, k)
  {
    hide Wired, Distinct, Hears, FindByClient;
    var ms := s.rooms[r].members;
    match FindByClient(ms, c) {
      case None =>
        forall k | k in s.out ensures s.out[k] + [] == s.out[k] {
        }
      case Some(i) =>
        ChangeInIs(s, c, r, status, i);
        hide ChangeStatusIn;
        var m := ms[i].(status := if status == Back then Online else Away);
        var p := StatusPacket(StatusInfo(s.rooms[r].name, status, m.id, m.nick, m.girl, m.color));
        DeliveredTold(s.out, s.client, ms, p);
        SameEars(s.out, s.client, ms, ms[i := m], p);
        hide Deliver;
        forall k | k in s.out ensures s.out[k] + [] == s.out[k] {
        }
    }
  }

  lemma {:induction false} ChangeTour(s: State, c: ClientRef, status: Status, todo: seq<RoomRef>)
    requires Visitable(s, todo)
    ensures Toured(s, ChangeStatusRooms(s, c, status, todo), todo, c, status)
    decreases |todo|
  {
    hide Toured, ChangeStatusIn, Notice, Wired, Distinct;
    if todo == [] {
      NothingToured(s, c, status);
    } else {
      assert todo[0] in todo;
      ChangeInTold(s, c, todo[0], status);
      var u := ChangeStatusIn(s, c, todo[0], status);
      VisitableRest(s, u, todo);
      ChangeTour(u, c, status, todo[1..]);
      TourStep(s, u, ChangeStatusRooms(u, c, status, todo[1..]), todo, c, status);
    }
  }
}
