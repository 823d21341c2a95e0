/** The member list of one room, in the iteration order of the container. */
module Members {
  import opened Types

  /** Ids and clients are pairwise distinct, and so are the nicks that are set. */
  ghost predicate Distinct(ms: seq<Member>) {
    forall i, j :: 0 <= i < j < |ms| ==>
      && ms[i].id != ms[j].id
      && ms[i].client != ms[j].client
      && (ms[i].nick == "" || ms[i].nick != ms[j].nick)
  }

  ghost predicate HasClient(ms: seq<Member>, c: ClientRef) {
    exists m :: m in ms && m.client == c
  }

  function FindByClient(ms: seq<Member>, c: ClientRef): (r: Option<nat>)
    ensures r.Some? ==> r.value < |ms| && ms[r.value].client == c
    ensures r.None? ==> forall m :: m in ms ==> m.client != c
  {
    if ms == [] then None
    else if ms[0].client == c then Some(0)
    else match FindByClient(ms[1..], c)
      case None => assert ms == [ms[0]] + ms[1..]; None
      case Some(i) => Some(i + 1)
  }

  function FindByNick(ms: seq<Member>, nick: string): (r: Option<nat>)
    ensures r.Some? ==> r.value < |ms| && ms[r.value].nick == nick && nick != ""
    ensures r.None? && nick != "" ==> forall m :: m in ms ==> m.nick != nick
  {
    if ms == [] then None
    else if ms[0].nick != "" && ms[0].nick == nick then Some(0)
    else match FindByNick(ms[1..], nick)
      case None => assert ms == [ms[0]] + ms[1..]; None
      case Some(i) => Some(i + 1)
  }

  function FindById(ms: seq<Member>, id: nat): (r: Option<nat>)
    ensures r.Some? ==> r.value < |ms| && ms[r.value].id == id
    ensures r.None? ==> forall m :: m in ms ==> m.id != id
  {
    if ms == [] then None
    else if ms[0].id == id then Some(0)
    else match FindById(ms[1..], id)
      case None => assert ms == [ms[0]] + ms[1..]; None
      case Some(i) => Some(i + 1)
  }

  lemma SameIdSameMember(ms: seq<Member>, m: Member, n: Member)
    requires Distinct(ms) && m in ms && n in ms
    requires m.id == n.id || m.client == n.client || (m.nick == n.nick && m.nick != "")
    ensures m == n
  {
    var i :| 0 <= i < |ms| && ms[i] == m;
    var j :| 0 <= j < |ms| && ms[j] == n;
  }

  lemma AddKeepsDistinct(ms: seq<Member>, m: Member)
    requires Distinct(ms) && m.nick == ""
    requires forall n :: n in ms ==> n.id != m.id && n.client != m.client
    ensures Distinct(ms + [m])
    ensures forall n :: n in ms + [m] <==> n in ms || n == m
  {
  }

  lemma RemoveKeepsDistinct(ms: seq<Member>, i: nat)
    requires Distinct(ms) && i < |ms|
    ensures Distinct(RemoveAt(ms, i))
    ensures forall n :: n in RemoveAt(ms, i) <==> n in ms && n != ms[i]
    ensures forall n :: n in RemoveAt(ms, i) ==> n.id != ms[i].id && n.client != ms[i].client
  {
    var r := RemoveAt(ms, i);
    assert forall j :: 0 <= j < |r| ==> r[j] == ms[if j < i then j else j + 1];
    forall n | n in r ensures n.id != ms[i].id && n.client != ms[i].client {
      var j :| 0 <= j < |r| && r[j] == n;
      assert n == ms[if j < i then j else j + 1];
    }
  }

  /** Replacing a member's data (not its id or client) by data whose nick nobody else holds. */
  lemma UpdateKeepsDistinct(ms: seq<Member>, i: nat, m: Member)
    requires Distinct(ms) && i < |ms| && m.id == ms[i].id && m.client == ms[i].client
    requires m.nick == "" || m.nick == ms[i].nick || FindByNick(ms, m.nick).None?
    ensures Distinct(ms[i := m])
    ensures forall n :: n in ms[i := m] <==> n == m || (n in ms && n.id != m.id)
  {
    var r := ms[i := m];
    forall n | n in ms && n.id != m.id ensures n in r {
      var j :| 0 <= j < |ms| && ms[j] == n;
      assert r[j] == n;
    }
    assert r[i] == m;
    forall j | 0 <= j < |ms| && j != i ensures m.nick == "" || ms[j].nick != m.nick {
      assert ms[j] in ms;
    }
  }

  lemma SwapKeepsDistinct(ms: seq<Member>, i: nat, j: nat)
    requires Distinct(ms) && i < |ms| && j < |ms|
    ensures Distinct(Swap(ms, i, j))
  {
  }
}
