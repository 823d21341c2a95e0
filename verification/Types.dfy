/** The records of the chat server: members, rooms, clients, packets. */
module Types {
  import opened RateLimit

  const U32 := 0x1_0000_0000

  datatype Option<+T> = None | Some(value: T)

  /** A transport connection. Its address never changes, so it is part of the value. */
  datatype Conn = Conn(id: nat, ip: string)

  /** Addresses of client and room objects; an address is never reused. */
  type ClientRef = nat
  type RoomRef = nat

  datatype Status =
    | Bad | Offline | Online | Away | NickChange | GenderChange
    | ColorChange | Back | Typing | StopTyping | Orphan

  datatype Member = Member(id: nat, client: ClientRef, nick: string, status: Status, girl: bool, color: string)

  datatype MemberInfo = MemberInfo(userId: nat, nick: string, girl: bool, color: string)

  datatype Style = StyleMessage | StyleMe | StyleEvent | StyleOfftop

  datatype Message = Message(id: nat, fromId: nat, fromNick: string, toId: nat, style: Style, text: string)

  /** What a status packet tells about one member. */
  datatype StatusInfo = StatusInfo(target: string, status: Status, id: nat, name: string, girl: bool, color: string)

  datatype ErrorCode =
    | AlreadyConnected | NotFound | AccessDenied | InvalidTarget | AlreadyExists | IncorrectLoginPass | UserBanned

  datatype Packet =
    | StatusPacket(info: StatusInfo)
    | OnlineListPacket(target: string, list: seq<StatusInfo>)
    | MessagePacket(target: string, message: Message)
    | JoinPacket(target: string, memberId: nat, login: string)
    | LeavePacket(target: string)
    | CreateRoomPacket(target: string)
    | RemoveRoomPacket(target: string)
    | AuthPacket(userId: nat, name: string, token: string)
    | SystemPacket(target: string)
    | ErrorPacket(code: ErrorCode, target: string)
    | PingPacket

  type Outboxes = map<Conn, seq<Packet>>

  datatype Room = Room(
    name: string,
    ownerId: nat,
    nextMessageId: nat,
    members: seq<Member>,
    membersInfo: map<nat, MemberInfo>,
    bannedNicks: set<string>,
    bannedIps: set<string>,
    bannedUids: set<nat>,
    moderators: set<nat>,
    history: seq<Message>,
    nextMemberId: nat)

  datatype Client = Client(
    connection: Option<Conn>,
    rooms: seq<RoomRef>,
    name: string,
    uid: nat,
    girl: bool,
    color: string,
    lastIp: string,
    token: string,
    lastPacketTime: int,
    limiter: Limiter)

  predicate NoDup<T(==)>(s: seq<T>) {
    forall i, j :: 0 <= i < j < |s| ==> s[i] != s[j]
  }

  /** The sequence without its element at index i. */
  function RemoveAt<T(!new)>(s: seq<T>, i: nat): (r: seq<T>)
    requires i < |s|
    ensures |r| == |s| - 1
    ensures forall x :: x in r ==> x in s
    ensures forall x :: x in s && x != s[i] ==> x in r
  {
    assert forall x :: x in s && x != s[i] ==> x in s[..i] || x in s[i + 1..] by {
      assert s == s[..i] + [s[i]] + s[i + 1..];
    }
    s[..i] + s[i + 1..]
  }

  /** The sequence without the first occurrence of x. */
  function Erase<T(==,!new)>(s: seq<T>, x: T): (r: seq<T>)
    ensures forall y :: y in r ==> y in s
    ensures forall y :: y in s && y != x ==> y in r
  {
    if s == [] then []
    else if s[0] == x then assert s == [s[0]] + s[1..]; s[1..]
    else assert s == [s[0]] + s[1..]; [s[0]] + Erase(s[1..], x)
  }

  lemma {:induction false} EraseNoDup<T(!new)>(s: seq<T>, x: T)
    requires NoDup(s)
    ensures NoDup(Erase(s, x))
    ensures x !in Erase(s, x)
  {
    if s != [] && s[0] != x {
      EraseNoDup(s[1..], x);
      var e := Erase(s[1..], x);
      forall j | 0 <= j < |e| ensures e[j] != s[0] {
        assert e[j] in s[1..];
      }
    }
  }

  /** Swapping two positions: one elementary change of a container's iteration order. */
  function Swap<T(!new)>(s: seq<T>, i: nat, j: nat): (r: seq<T>)
    requires i < |s| && j < |s|
    ensures |r| == |s|
    ensures forall x :: x in r <==> x in s
    ensures multiset(r) == multiset(s)
  {
    var r := s[i := s[j]][j := s[i]];
    assert r[j] == s[i] && r[i] == s[j];
    assert forall k :: 0 <= k < |s| && k != i && k != j ==> r[k] == s[k];
    assert forall x :: x in s ==> x in r by {
      forall x | x in s ensures x in r {
        var k :| 0 <= k < |s| && s[k] == x;
        if k == i { assert r[j] == x; } else if k == j { assert r[i] == x; } else { assert r[k] == x; }
      }
    }
    r
  }
}
