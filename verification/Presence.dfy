/**
 * The presence protocol: what a receiver that folds the status packets over its last
 * online list believes about a room, and what the room really holds.
 */
module Presence {
  import opened Types
  import opened Members

  datatype Entry = Entry(nick: string, status: Status, girl: bool, color: string)

  type Roster = map<nat, Entry>

  function StatusOf(room: string, m: Member, status: Status): StatusInfo {
    StatusInfo(room, status, m.id, m.nick, m.girl, m.color)
  }

  /** The list an online-list packet carries: one entry per member with a nick. */
  function OnlineList(room: string, ms: seq<Member>): seq<StatusInfo> {
    if ms == [] then []
    else if ms[0].nick == "" then OnlineList(room, ms[1..])
    else [StatusOf(room, ms[0], ms[0].status)] + OnlineList(room, ms[1..])
  }

  /** A receiver's reading of one status packet. */
  function ApplyStatus(v: Roster, p: StatusInfo): Roster {
    match p.status
    case Offline => v - {p.id}
    case Online | Away | Orphan => v[p.id := Entry(p.name, p.status, p.girl, p.color)]
    case Back => v[p.id := Entry(p.name, Online, p.girl, p.color)]
    case NickChange | GenderChange | ColorChange | Typing | StopTyping =>
      if p.id in v then v[p.id := Entry(p.name, v[p.id].status, p.girl, p.color)] else v
    case Bad => v
  }

  /** A receiver's reading of an online list. */
  function FromList(list: seq<StatusInfo>): Roster {
    if list == [] then map[]
    else
      var e := list[0];
      FromList(list[1..])[e.id := Entry(e.name, e.status, e.girl, e.color)]
  }

  function See(v: Option<Roster>, p: Packet, room: string): Option<Roster> {
    match p
    case OnlineListPacket(target, list) => if target == room then Some(FromList(list)) else v
    case StatusPacket(info) =>
      if info.target == room && v.Some? then Some(ApplyStatus(v.value, info)) else v
    case _ => v
  }

  /** The view of a room after reading a whole outbox; None before the first online list. */
  function View(ps: seq<Packet>, room: string): Option<Roster> {
    if ps == [] then None
    else See(View(ps[..|ps| - 1], room), ps[|ps| - 1], room)
  }

  lemma ViewAppend(ps: seq<Packet>, p: Packet, room: string)
    ensures View(ps + [p], room) == See(View(ps, room), p, room)
  {
    assert (ps + [p])[..|ps|] == ps;
  }

  function EntryOf(m: Member): Entry {
    Entry(m.nick, m.status, m.girl, m.color)
  }

  /** v lists exactly the members that have a nick, each with its true data. */
  ghost predicate IsRoster(v: Roster, ms: seq<Member>) {
    && (forall m :: m in ms && m.nick != "" ==> m.id in v && v[m.id] == EntryOf(m))
    && (forall id :: id in v ==> exists m :: m in ms && m.id == id && m.nick != "")
  }

  /** A roster is determined by the members. */
  lemma RosterUnique(v: Roster, w: Roster, ms: seq<Member>)
    requires IsRoster(v, ms) && IsRoster(w, ms)
    ensures v == w
  {
    forall id | id in v ensures id in w && w[id] == v[id] {
      var m :| m in ms && m.id == id && m.nick != "";
    }
    forall id | id in w ensures id in v {
      var m :| m in ms && m.id == id && m.nick != "";
    }
  }

  lemma {:induction false} FromListIsRoster(room: string, ms: seq<Member>)
    requires Distinct(ms)
    ensures IsRoster(FromList(OnlineList(room, ms)), ms)
  {
    if ms != [] {
      var rest := ms[1..];
      FromListIsRoster(room, rest);
      forall m | m in rest ensures m.id != ms[0].id {
        var j :| 0 <= j < |rest| && rest[j] == m;
        assert ms[j + 1] == m;
      }
      FromListHead(room, ms);
      assert ms == [ms[0]] + rest;
      hide OnlineList, FromList, Distinct;
      PrependRoster(FromList(OnlineList(room, rest)), ms[0], rest, ms);
    }
  }

  lemma FromListHead(room: string, ms: seq<Member>)
    requires ms != []
    ensures FromList(OnlineList(room, ms)) ==
      if ms[0].nick == "" then FromList(OnlineList(room, ms[1..]))
      else FromList(OnlineList(room, ms[1..]))[ms[0].id := EntryOf(ms[0])]
  {
    if ms[0].nick != "" {
      assert OnlineList(room, ms)[1..] == OnlineList(room, ms[1..]);
    }
  }

  lemma PrependRoster(v: Roster, m: Member, rest: seq<Member>, ms: seq<Member>)
    requires IsRoster(v, rest) && ms == [m] + rest
    requires forall n :: n in rest ==> n.id != m.id
    ensures IsRoster(if m.nick == "" then v else v[m.id := EntryOf(m)], ms)
  {
    var w := if m.nick == "" then v else v[m.id := EntryOf(m)];
    assert m in ms && forall n :: n in ms <==> n == m || n in rest;
    forall id | id in w ensures exists n :: n in ms && n.id == id && n.nick != "" {
      if id in v {
        var n :| n in rest && n.id == id && n.nick != "";
        assert n in ms;
      }
    }
  }

  /**
   * The single step of the replication argument: if the members changed only at id x, and the
   * view changed only at x and is right there, the view is still the roster.
   */
  lemma RosterStep(v: Roster, v': Roster, ms: seq<Member>, ms': seq<Member>, x: nat)
    requires IsRoster(v, ms)
    requires forall m: Member :: m.id != x ==> (m in ms <==> m in ms')
    requires forall id :: id != x ==> (id in v <==> id in v') && (id in v ==> v[id] == v'[id])
    requires forall m :: m in ms' && m.id == x && m.nick != "" ==> x in v' && v'[x] == EntryOf(m)
    requires x in v' ==> exists m :: m in ms' && m.id == x && m.nick != ""
    ensures IsRoster(v', ms')
  {
    forall id | id in v' ensures exists m :: m in ms' && m.id == id && m.nick != "" {
      if id != x {
        var m :| m in ms && m.id == id && m.nick != "";
        assert m in ms';
      }
    }
  }

  // ---- which packet announces which change ----

  /** Reading the packet turns any exact view of ms into an exact view of ms'. */
  ghost predicate Announces(p: StatusInfo, ms: seq<Member>, ms': seq<Member>) {
    forall v: Roster :: IsRoster(v, ms) ==> IsRoster(ApplyStatus(v, p), ms')
  }

  /** The change needs no packet. */
  ghost predicate Unseen(ms: seq<Member>, ms': seq<Member>) {
    forall v: Roster :: IsRoster(v, ms) ==> IsRoster(v, ms')
  }

  /** m takes the place of ms[i]: same id and client, and no nick clash. */
  ghost predicate Replaces(ms: seq<Member>, i: nat, m: Member) {
    && Distinct(ms) && i < |ms| && m.id == ms[i].id && m.client == ms[i].client
    && (m.nick == "" || m.nick == ms[i].nick || FindByNick(ms, m.nick).None?)
  }

  predicate TellsAll(status: Status, m: Member) {
    (status in {Online, Away, Orphan} && m.status == status) || (status == Back && m.status == Online)
  }

  predicate TellsChange(status: Status) {
    status in {NickChange, GenderChange, ColorChange, Typing, StopTyping}
  }

  /** Both kinds of packet put the member's true entry under its id. */
  lemma ReplaceReads(room: string, ms: seq<Member>, i: nat, m: Member, status: Status, v: Roster)
    requires Replaces(ms, i, m) && IsRoster(v, ms)
    requires TellsAll(status, m) || (TellsChange(status) && ms[i].nick != "" && m.status == ms[i].status)
    ensures ApplyStatus(v, StatusOf(room, m, status)) == v[m.id := EntryOf(m)]
  {
    assert ms[i] in ms;
  }

  lemma UpsertIsRoster(ms: seq<Member>, i: nat, m: Member, v: Roster)
    requires Replaces(ms, i, m) && m.nick != "" && IsRoster(v, ms)
    ensures IsRoster(v[m.id := EntryOf(m)], ms[i := m])
  {
    OthersSame(ms, i, m);
    assert ms[i := m][i] == m;
    assert m in ms[i := m];
    hide IsRoster, Distinct, Replaces;
    UpsertStep(v, ms, ms[i := m], m);
  }

  lemma UpsertStep(v: Roster, ms: seq<Member>, ms': seq<Member>, m: Member)
    requires IsRoster(v, ms) && m in ms' && m.nick != ""
    requires forall n: Member :: n.id != m.id ==> (n in ms <==> n in ms')
    requires forall n: Member :: n in ms' && n.id == m.id ==> n == m
    ensures IsRoster(v[m.id := EntryOf(m)], ms')
  {
    RosterStep(v, v[m.id := EntryOf(m)], ms, ms', m.id);
  }

  lemma ReplaceAnnounced(room: string, ms: seq<Member>, i: nat, m: Member, status: Status)
    requires Replaces(ms, i, m) && m.nick != ""
    requires TellsAll(status, m) || (TellsChange(status) && ms[i].nick != "" && m.status == ms[i].status)
    ensures Announces(StatusOf(room, m, status), ms, ms[i := m])
  {
    hide IsRoster, Distinct, ApplyStatus, TellsAll, TellsChange;
    forall v: Roster | IsRoster(v, ms) ensures IsRoster(ApplyStatus(v, StatusOf(room, m, status)), ms[i := m]) {
      ReplaceReads(room, ms, i, m, status, v);
      UpsertIsRoster(ms, i, m, v);
    }
  }

  lemma OthersSame(ms: seq<Member>, i: nat, m: Member)
    requires Replaces(ms, i, m)
    ensures forall n: Member :: n.id != m.id ==> (n in ms <==> n in ms[i := m])
    ensures forall n: Member :: n in ms[i := m] && n.id == m.id ==> n == m
  {
    UpdateKeepsDistinct(ms, i, m);
  }

  lemma NickDropAnnounced(p: StatusInfo, ms: seq<Member>, i: nat, m: Member)
    requires Replaces(ms, i, m) && m.nick == "" && p.status == Offline && p.id == m.id
    ensures Announces(p, ms, ms[i := m])
  {
    forall v: Roster | IsRoster(v, ms) ensures IsRoster(ApplyStatus(v, p), ms[i := m]) {
      OthersSame(ms, i, m);
      RosterStep(v, v - {p.id}, ms, ms[i := m], m.id);
    }
  }

  lemma RemovalAnnounced(p: StatusInfo, ms: seq<Member>, i: nat)
    requires Distinct(ms) && i < |ms| && p.status == Offline && p.id == ms[i].id
    ensures Announces(p, ms, RemoveAt(ms, i))
  {
    RemoveKeepsDistinct(ms, i);
    forall v: Roster | IsRoster(v, ms) ensures IsRoster(ApplyStatus(v, p), RemoveAt(ms, i)) {
      RosterStep(v, v - {p.id}, ms, RemoveAt(ms, i), p.id);
    }
  }

  lemma NicklessUnseen(ms: seq<Member>, i: nat, m: Member)
    requires Replaces(ms, i, m) && m.nick == "" && ms[i].nick == ""
    ensures Unseen(ms, ms[i := m])
  {
    forall v: Roster | IsRoster(v, ms) ensures IsRoster(v, ms[i := m]) {
      OthersSame(ms, i, m);
      NicklessNotListed(v, ms, i);
      RosterStep(v, v, ms, ms[i := m], m.id);
    }
  }

  lemma NicklessNotListed(v: Roster, ms: seq<Member>, i: nat)
    requires Distinct(ms) && i < |ms| && ms[i].nick == "" && IsRoster(v, ms)
    ensures ms[i].id !in v
  {
    if ms[i].id in v {
      var n :| n in ms && n.id == ms[i].id && n.nick != "";
      SameIdSameMember(ms, n, ms[i]);
    }
  }

  lemma NicklessRemovalUnseen(ms: seq<Member>, i: nat)
    requires Distinct(ms) && i < |ms| && ms[i].nick == ""
    ensures Unseen(ms, RemoveAt(ms, i))
  {
    RemoveKeepsDistinct(ms, i);
    forall v: Roster | IsRoster(v, ms) ensures IsRoster(v, RemoveAt(ms, i)) {
      NicklessNotListed(v, ms, i);
      RosterStep(v, v, ms, RemoveAt(ms, i), ms[i].id);
    }
  }

  lemma NewcomerUnseen(ms: seq<Member>, m: Member)
    requires m.nick == ""
    ensures Unseen(ms, ms + [m])
  {
    forall v: Roster | IsRoster(v, ms) ensures IsRoster(v, ms + [m]) {
      forall id | id in v ensures exists n :: n in ms + [m] && n.id == id && n.nick != "" {
        var n :| n in ms && n.id == id && n.nick != "";
        assert n in ms + [m];
      }
    }
  }
}
