/** The loops that save a room to a JSON value and load it again, in whatever order a container iterates. */
module Storage {
  import opened Types
  import opened Json
  import opened Persistence

  method StoreStrings(s: set<string>) returns (v: Json)
    ensures ListsStrings(v, s)
  {
    var items: seq<Json> := [];
    var rest := s;
    while rest != {}
      invariant rest <= s
      invariant forall x :: x in items ==> x.Str? && x.s in s
      invariant forall x :: x in s && x !in rest ==> Str(x) in items
      decreases |rest|
    {
      var x :| x in rest;
      items := items + [Str(x)];
      rest := rest - {x};
    }
    return Arr(items);
  }

  method StoreUInts(s: set<nat>) returns (v: Json)
    ensures ListsUInts(v, s)
  {
    var items: seq<Json> := [];
    var rest := s;
    while rest != {}
      invariant rest <= s
      invariant forall x :: x in items ==> x.UInt? && x.n in s
      invariant forall x :: x in s && x !in rest ==> UInt(x) in items
      decreases |rest|
    {
      var x :| x in rest;
      items := items + [UInt(x)];
      rest := rest - {x};
    }
    return Arr(items);
  }

  method StoreInfos(m: map<nat, MemberInfo>) returns (v: Json)
    ensures ListsInfos(v, m)
  {
    hide SaveInfo;
    var items: seq<Json> := [];
    var rest := m.Keys;
    while rest != {}
      invariant rest <= m.Keys
      invariant forall x :: x in items ==> SavedFrom(x, m)
      invariant forall u :: u in m && u !in rest ==> SaveInfo(m[u]) in items
      decreases |rest|
    {
      var u :| u in rest;
      assert SavedFrom(SaveInfo(m[u]), m);
      items := items + [SaveInfo(m[u])];
      rest := rest - {u};
    }
    return Arr(items);
  }

  method StoreHistory(history: seq<Message>) returns (items: seq<Json>)
    ensures items == SaveHistory(history)
  {
    items := [];
    for i := 0 to |history|
      invariant |items| == i && forall j :: 0 <= j < i ==> items[j] == Printed(history[j])
    {
      items := items + [Printed(history[i])];
    }
  }

  method SerializeRoom(room: Room) returns (v: Json)
    ensures IsSavedRoom(room, v)
  {
    hide ListsInfos, ListsStrings, ListsUInts, SaveHistory;
    var history := StoreHistory(room.history);
    var infos := StoreInfos(room.membersInfo);
    var nicks := StoreStrings(room.bannedNicks);
    var ips := StoreStrings(room.bannedIps);
    var uids := StoreUInts(room.bannedUids);
    var moderators := StoreUInts(room.moderators);
    v := Obj(map["owner_id" := UInt(room.ownerId), "name" := Str(room.name), "nextMessageId" := UInt(room.nextMessageId),
                 "history" := Arr(history), "members_info" := infos, "bannedNicks" := nicks, "bannedIps" := ips,
                 "bannedUids" := uids, "moderators" := moderators]);
  }

  method FetchStrings(items: seq<Json>) returns (s: set<string>)
    ensures s == LoadStrings(items)
  {
    s := {};
    for i := 0 to |items|
      invariant s == LoadStrings(items[..i])
    {
      assert items[..i + 1] == items[..i] + [items[i]];
      s := s + {AsString(items[i])};
    }
    assert items[..|items|] == items;
  }

  method FetchUInts(items: seq<Json>) returns (s: set<nat>)
    ensures s == LoadUInts(items)
  {
    s := {};
    for i := 0 to |items|
      invariant s == LoadUInts(items[..i])
    {
      assert items[..i + 1] == items[..i] + [items[i]];
      s := s + {AsUInt(items[i])};
    }
    assert items[..|items|] == items;
  }

  method FetchInfos(items: seq<Json>) returns (m: map<nat, MemberInfo>)
    ensures m == LoadInfos(items)
  {
    hide LoadInfo;
    m := map[];
    for i := 0 to |items|
      invariant m == LoadInfos(items[..i])
    {
      assert items[..i + 1][..i] == items[..i];
      var info := LoadInfo(items[i]);
      m := m[info.userId := info];
    }
    assert items[..|items|] == items;
  }

  method FetchHistory(items: seq<Json>) returns (h: seq<Message>)
    ensures h == LoadHistory(items)
  {
    h := [];
    for i := 0 to |items|
      invariant h + LoadHistory(items[i..]) == LoadHistory(items)
    {
      assert items[i..][1..] == items[i + 1..];
      match AsMessage(items[i]) {
        case Some(m) => h := h + [m];
        case None =>
      }
    }
  }

  method DeserializeRoom(v: Json) returns (room: Room)
    ensures room == LoadRoom(v)
  {
    hide LoadInfos, LoadHistory, LoadStrings, LoadUInts;
    var history := FetchHistory(Items(Get(v, "history")));
    var infos := FetchInfos(Items(Get(v, "members_info")));
    var nicks := FetchStrings(Items(Get(v, "bannedNicks")));
    var ips := FetchStrings(Items(Get(v, "bannedIps")));
    var uids := FetchUInts(Items(Get(v, "bannedUids")));
    var moderators := FetchUInts(Items(Get(v, "moderators")));
    room := Room(AsString(Get(v, "name")), AsUInt(Get(v, "owner_id")), AsUInt(Get(v, "nextMessageId")), [],
                 infos, nicks, ips, uids, moderators, history, 0);
  }

  /** Saving and loading one room, end to end: everything but the members comes back. */
  method SaveAndLoad(room: Room) returns (loaded: Room)
    requires InfosFiled(room.membersInfo)
    ensures loaded == room.(members := [], nextMemberId := 0)
  {
    var v := SerializeRoom(room);
    RoomRoundTrip(room, v);
    loaded := DeserializeRoom(v);
  }
}
