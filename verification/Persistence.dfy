/** Saving rooms to a JSON value and loading them again. */
module Persistence {
  import opened Types
  import opened Json

  function SaveInfo(i: MemberInfo): Json {
    Obj(map["user_id" := UInt(i.userId), "nick" := Str(i.nick), "girl" := Bool(i.girl), "color" := Str(i.color)])
  }

  function LoadInfo(v: Json): MemberInfo {
    MemberInfo(AsUInt(Get(v, "user_id")), AsString(Get(v, "nick")), AsBool(Get(v, "girl")), AsString(Get(v, "color")))
  }

  /** v is an array that lists the elements of s, in whatever order the container iterates. */
  ghost predicate ListsStrings(v: Json, s: set<string>) {
    v.Arr? && (forall x :: x in v.items ==> x.Str? && x.s in s) && (forall x :: x in s ==> Str(x) in v.items)
  }

  ghost predicate ListsUInts(v: Json, s: set<nat>) {
    v.Arr? && (forall x :: x in v.items ==> x.UInt? && x.n in s) && (forall x :: x in s ==> UInt(x) in v.items)
  }

  ghost predicate SavedFrom(x: Json, m: map<nat, MemberInfo>) {
    exists u :: u in m && x == SaveInfo(m[u])
  }

  ghost predicate ListsInfos(v: Json, m: map<nat, MemberInfo>) {
    && v.Arr?
    && (forall x :: x in v.items ==> SavedFrom(x, m))
    && (forall u :: u in m ==> SaveInfo(m[u]) in v.items)
  }

  function SaveHistory(h: seq<Message>): seq<Json> {
    seq(|h|, i requires 0 <= i < |h| => Printed(h[i]))
  }

  /** v is what saving the room may produce, for some iteration order of its containers. */
  ghost predicate IsSavedRoom(room: Room, v: Json) {
    && v.Obj?
    && v.fields.Keys == {"owner_id", "name", "nextMessageId", "history", "members_info",
                         "bannedNicks", "bannedIps", "bannedUids", "moderators"}
    && v.fields["owner_id"] == UInt(room.ownerId)
    && v.fields["name"] == Str(room.name)
    && v.fields["nextMessageId"] == UInt(room.nextMessageId)
    && v.fields["history"] == Arr(SaveHistory(room.history))
    && ListsInfos(v.fields["members_info"], room.membersInfo)
    && ListsStrings(v.fields["bannedNicks"], room.bannedNicks)
    && ListsStrings(v.fields["bannedIps"], room.bannedIps)
    && ListsUInts(v.fields["bannedUids"], room.bannedUids)
    && ListsUInts(v.fields["moderators"], room.moderators)
  }

  function LoadStrings(items: seq<Json>): set<string> {
    set x | x in items :: AsString(x)
  }

  function LoadUInts(items: seq<Json>): set<nat> {
    set x | x in items :: AsUInt(x)
  }

  /** Later entries overwrite earlier ones with the same user id. */
  function LoadInfos(items: seq<Json>): map<nat, MemberInfo> {
    if items == [] then map[]
    else
      var info := LoadInfo(items[|items| - 1]);
      LoadInfos(items[..|items| - 1])[info.userId := info]
  }

  function LoadHistory(items: seq<Json>): seq<Message> {
    if items == [] then []
    else (match AsMessage(items[0]) case Some(m) => [m] case None => []) + LoadHistory(items[1..])
  }

  function LoadRoom(v: Json): Room {
    Room(AsString(Get(v, "name")), AsUInt(Get(v, "owner_id")), AsUInt(Get(v, "nextMessageId")), [],
         LoadInfos(Items(Get(v, "members_info"))),
         LoadStrings(Items(Get(v, "bannedNicks"))),
         LoadStrings(Items(Get(v, "bannedIps"))),
         LoadUInts(Items(Get(v, "bannedUids"))),
         LoadUInts(Items(Get(v, "moderators"))),
         LoadHistory(Items(Get(v, "history"))), 0)
  }

  /** Every stored info is filed under its own, non-zero user id. */
  ghost predicate InfosFiled(m: map<nat, MemberInfo>) {
    forall u :: u in m ==> u != 0 && m[u].userId == u
  }

  lemma {:induction false} LoadSavedHistory(h: seq<Message>)
    ensures LoadHistory(SaveHistory(h)) == h
  {
    if h != [] {
      LoadSavedHistory(h[1..]);
      assert SaveHistory(h)[1..] == SaveHistory(h[1..]);
      assert h == [h[0]] + h[1..];
    }
  }

  /** What loading a list of saved infos puts under a key is one of the infos of the list. */
  lemma LoadSavedInfo(x: Json, m: map<nat, MemberInfo>) returns (u: nat)
    requires InfosFiled(m) && SavedFrom(x, m)
    ensures u in m && x == SaveInfo(m[u]) && LoadInfo(x) == m[u] && LoadInfo(x).userId == u
  {
    u :| u in m && x == SaveInfo(m[u]);
  }

  lemma SavedInfoInjective(m: map<nat, MemberInfo>, u: nat, w: nat)
    requires InfosFiled(m) && u in m && w in m && SaveInfo(m[u]) == SaveInfo(m[w])
    ensures u == w
  {
    assert LoadInfo(SaveInfo(m[u])) == m[u] && LoadInfo(SaveInfo(m[w])) == m[w];
  }

  lemma {:induction false} LoadInfosFrom(items: seq<Json>, m: map<nat, MemberInfo>)
    requires InfosFiled(m)
    requires forall x :: x in items ==> SavedFrom(x, m)
    ensures forall u :: u in LoadInfos(items) ==> u in m && LoadInfos(items)[u] == m[u]
    ensures forall u :: u in m && SaveInfo(m[u]) in items ==> u in LoadInfos(items)
  {
    if items != [] {
      var n := |items| - 1;
      assert items == items[..n] + [items[n]];
      var w := LoadSavedInfo(items[n], m);
      hide SaveInfo, LoadInfo, SavedFrom;
      LoadInfosFrom(items[..n], m);
      forall u | u in m && SaveInfo(m[u]) in items ensures u in LoadInfos(items) {
        if SaveInfo(m[u]) == items[n] { SavedInfoInjective(m, u, w); }
      }
    }
  }

  lemma InfosRoundTrip(v: Json, m: map<nat, MemberInfo>)
    requires InfosFiled(m) && ListsInfos(v, m)
    ensures LoadInfos(v.items) == m
  {
    hide SaveInfo, SavedFrom, LoadInfos;
    LoadInfosFrom(v.items, m);
  }

  lemma ListsAreArrays(room: Room, v: Json)
    requires IsSavedRoom(room, v)
    ensures v.fields["members_info"].Arr? && v.fields["bannedNicks"].Arr? && v.fields["bannedIps"].Arr?
    ensures v.fields["bannedUids"].Arr? && v.fields["moderators"].Arr?
  {
  }

  /** Loading a saved room gives the room back, without its members and with a fresh id counter. */
  lemma RoomRoundTrip(room: Room, v: Json)
    requires InfosFiled(room.membersInfo)
    requires IsSavedRoom(room, v)
    ensures LoadRoom(v) == room.(members := [], nextMemberId := 0)
  {
    hide InfosFiled, SaveHistory, LoadHistory, LoadInfos, LoadStrings, LoadUInts, ListsInfos, ListsStrings, ListsUInts;
    ListsAreArrays(room, v);
    LoadSavedHistory(room.history);
    InfosRoundTrip(v.fields["members_info"], room.membersInfo);
    StringsRoundTrip(v.fields["bannedNicks"], room.bannedNicks);
    StringsRoundTrip(v.fields["bannedIps"], room.bannedIps);
    UIntsRoundTrip(v.fields["bannedUids"], room.bannedUids);
    UIntsRoundTrip(v.fields["moderators"], room.moderators);
  }

  lemma StringsRoundTrip(v: Json, s: set<string>)
    requires ListsStrings(v, s)
    ensures LoadStrings(v.items) == s
  {
    forall x | x in s ensures x in LoadStrings(v.items) {
      assert Str(x) in v.items && AsString(Str(x)) == x;
    }
  }

  lemma UIntsRoundTrip(v: Json, s: set<nat>)
    requires ListsUInts(v, s)
    ensures LoadUInts(v.items) == s
  {
    forall x | x in s ensures x in LoadUInts(v.items) {
      assert UInt(x) in v.items && AsUInt(UInt(x)) == x;
    }
  }
}
