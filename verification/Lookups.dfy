/** The loops over a room's containers: searches through the members, and the cut of the history. */
module Lookups {
  import opened Types
  import opened Members
  import opened History

  method FindMemberByClient(members: seq<Member>, c: ClientRef) returns (r: Option<nat>)
    ensures r == FindByClient(members, c)
  {
    var i := 0;
    while i < |members|
      invariant 0 <= i <= |members|
      invariant FindByClient(members, c) ==
        match FindByClient(members[i..], c) case None => None case Some(j) => Some(i + j)
    {
      if members[i].client == c { return Some(i); }
      assert members[i..][1..] == members[i + 1..];
      i := i + 1;
    }
    return None;
  }

  method FindMemberByNick(members: seq<Member>, nick: string) returns (r: Option<nat>)
    ensures r == FindByNick(members, nick)
  {
    var i := 0;
    while i < |members|
      invariant 0 <= i <= |members|
      invariant FindByNick(members, nick) ==
        match FindByNick(members[i..], nick) case None => None case Some(j) => Some(i + j)
    {
      if members[i].nick != "" && members[i].nick == nick { return Some(i); }
      assert members[i..][1..] == members[i + 1..];
      i := i + 1;
    }
    return None;
  }

  method FindMemberById(members: seq<Member>, id: nat) returns (r: Option<nat>)
    ensures r == FindById(members, id)
  {
    var i := 0;
    while i < |members|
      invariant 0 <= i <= |members|
      invariant FindById(members, id) ==
        match FindById(members[i..], id) case None => None case Some(j) => Some(i + j)
    {
      if members[i].id == id { return Some(i); }
      assert members[i..][1..] == members[i + 1..];
      i := i + 1;
    }
    return None;
  }

  /** A new public message is appended, then old ones are dropped from the front one by one. */
  method PushHistory(history: seq<Message>, m: Message, maxHistory: int) returns (h: seq<Message>)
    ensures h == AddToHistory(history, m, maxHistory)
  {
    h := history;
    if m.toId == 0 {
      h := h + [m];
      var dropped := 0;
      while h != [] && TooLong(|h|, maxHistory)
        invariant dropped <= |history| + 1 && h == (history + [m])[dropped..]
        invariant LastOf(h, maxHistory) == LastOf(history + [m], maxHistory)
        decreases |h|
      {
        h := h[1..];
        dropped := dropped + 1;
      }
    }
  }
}
