/** The connection manager: its list, its two indexes and its counters always agree. */
module Registry {
  import opened Types
  import opened Chat
  import opened MemberIds

  type Clients = map<ClientRef, Client>

  ghost function Living(g: Manager, client: Clients, ip: string): set<ClientRef> {
    set c | c in g.clients && c in client && client[c].lastIp == ip
  }

  ghost function Connected(g: Manager, client: Clients, ip: string): set<ClientRef> {
    set c | c in g.clients && c in client && client[c].lastIp == ip && client[c].connection.Some?
  }

  /** Listed in order of creation, hence without duplicates. */
  ghost predicate Ascending(cs: seq<ClientRef>) {
    forall i, j :: 0 <= i < j < |cs| ==> cs[i] < cs[j]
  }

  ghost predicate ListOk(g: Manager, client: Clients, next: ClientRef) {
    && Ascending(g.clients)
    && (forall c :: c in g.clients ==> c in client)
    && (forall c :: c in client ==> c < next)
  }

  ghost predicate TokensOk(g: Manager, client: Clients) {
    && (forall c :: c in g.clients && c in client ==>
          client[c].token in g.tokenToClient && g.tokenToClient[client[c].token] == c)
    && (forall t :: t in g.tokenToClient ==>
          g.tokenToClient[t] in g.clients && g.tokenToClient[t] in client && client[g.tokenToClient[t]].token == t)
  }

  ghost predicate ConnectionsOk(g: Manager, client: Clients) {
    && (forall k :: k in g.connectionToClient ==>
          && g.connectionToClient[k] in g.clients && g.connectionToClient[k] in client
          && client[g.connectionToClient[k]].connection == Some(k))
    && (forall c :: c in g.clients && c in client && client[c].connection.Some? ==>
          && client[c].connection.value in g.connectionToClient
          && g.connectionToClient[client[c].connection.value] == c
          && client[c].lastIp == client[c].connection.value.ip)
  }

  ghost predicate CountersOk(g: Manager, client: Clients) {
    && (forall ip :: CounterOf(g, ip) == Counter(|Connected(g, client, ip)|, |Living(g, client, ip)|))
    && (forall ip :: ip in g.countersFromIp ==> |Living(g, client, ip)| > 0)
  }

  ghost predicate ManagerOk(g: Manager, client: Clients, next: ClientRef) {
    ListOk(g, client, next) && TokensOk(g, client) && ConnectionsOk(g, client) && CountersOk(g, client)
  }

  // ---- frames ----

  /** The manager looks at connections, addresses and tokens only. */
  ghost predicate SameIdentities(client: Clients, client': Clients) {
    && client'.Keys == client.Keys
    && forall c :: c in client ==>
         && client'[c].connection == client[c].connection
         && client'[c].lastIp == client[c].lastIp
         && client'[c].token == client[c].token
  }

  lemma IdentitiesKeepCounters(g: Manager, client: Clients, client': Clients)
    requires CountersOk(g, client) && SameIdentities(client, client')
    ensures CountersOk(g, client')
  {
    forall ip ensures Living(g, client', ip) == Living(g, client, ip) && Connected(g, client', ip) == Connected(g, client, ip) {
    }
  }

  lemma IdentitiesKeepManager(g: Manager, client: Clients, client': Clients, next: ClientRef)
    requires ManagerOk(g, client, next) && SameIdentities(client, client')
    ensures ManagerOk(g, client', next)
  {
    hide CountersOk;
    IdentitiesKeepCounters(g, client, client');
  }

  // ---- counters ----

  function CounterAt(counters: map<string, Counter>, ip: string): Counter {
    if ip in counters then counters[ip] else Counter(0, 0)
  }

  /** A decrement of a positive counter: exact, local, and the entry goes when nothing is left. */
  lemma DecrementExact(counters: map<string, Counter>, ip: string, f: CounterField)
    requires Field(CounterAt(counters, ip), f) > 0
    requires CounterAt(counters, ip).connections >= 0 && CounterAt(counters, ip).clients >= 0
    ensures var n := CounterAt(counters, ip); var d := Decrement(counters, ip, f);
      && CounterAt(d, ip) == WithField(n, f, Field(n, f) - 1)
      && (ip in d <==> CounterAt(d, ip) != Counter(0, 0))
      && forall q :: q != ip ==> CounterAt(d, q) == CounterAt(counters, q) && (q in d <==> q in counters)
  {
  }

  /** A connected client is counted. */
  lemma CountedConnection(g: Manager, client: Clients, c: ClientRef)
    requires CountersOk(g, client) && c in g.clients && c in client && client[c].connection.Some?
    ensures CounterOf(g, client[c].lastIp).connections > 0
  {
    assert c in Connected(g, client, client[c].lastIp);
  }

  lemma CountedClient(g: Manager, client: Clients, c: ClientRef)
    requires CountersOk(g, client) && c in g.clients && c in client
    ensures CounterOf(g, client[c].lastIp).clients > 0
  {
    assert c in Living(g, client, client[c].lastIp);
  }

  lemma ConnectedAmongLiving(g: Manager, client: Clients, ip: string)
    ensures Connected(g, client, ip) <= Living(g, client, ip)
    ensures |Connected(g, client, ip)| <= |Living(g, client, ip)|
  {
    SubsetSize(Connected(g, client, ip), Living(g, client, ip));
  }

  // ---- losing a connection ----

  function OrphanManager(g: Manager, cl: Client, k: Conn): Manager {
    g.(connectionToClient := g.connectionToClient - {k}, countersFromIp := Decrement(g.countersFromIp, cl.lastIp, Connections))
  }

  lemma OrphanCounters(g: Manager, client: Clients, c: ClientRef, k: Conn)
    requires CountersOk(g, client) && c in g.clients && c in client && client[c].connection == Some(k)
    ensures CountersOk(OrphanManager(g, client[c], k), client[c := client[c].(connection := None)])
  {
    var g' := OrphanManager(g, client[c], k);
    var client' := client[c := client[c].(connection := None)];
    var ip0 := client[c].lastIp;
    CountedConnection(g, client, c);
    CountedClient(g, client, c);
    DecrementExact(g.countersFromIp, ip0, Connections);
    forall ip ensures Living(g', client', ip) == Living(g, client, ip) {
    }
    forall ip ensures Connected(g', client', ip) == (if ip == ip0 then Connected(g, client, ip) - {c} else Connected(g, client, ip)) {
    }
    assert c in Connected(g, client, ip0);
  }

  lemma OrphanKeepsManager(g: Manager, client: Clients, next: ClientRef, c: ClientRef, k: Conn)
    requires ManagerOk(g, client, next) && c in g.clients && c in client && client[c].connection == Some(k)
    ensures ManagerOk(OrphanManager(g, client[c], k), client[c := client[c].(connection := None)], next)
  {
    hide CountersOk, Decrement;
    OrphanCounters(g, client, c, k);
  }

  // ---- a client taken off the list ----

  lemma {:induction false} EraseAscending(cs: seq<ClientRef>, c: ClientRef)
    requires Ascending(cs)
    ensures Ascending(Erase(cs, c)) && c !in Erase(cs, c)
    ensures c in cs ==> |Erase(cs, c)| == |cs| - 1
  {
    if cs != [] {
      EraseAscending(cs[1..], c);
      assert cs == [cs[0]] + cs[1..];
      if cs[0] == c {
        forall x | x in cs[1..] ensures x != c {
        }
      } else {
        var e := Erase(cs[1..], c);
        forall j | 0 <= j < |e| ensures cs[0] < e[j] {
          assert e[j] in cs[1..];
        }
      }
    }
  }

  function DelistManager(g: Manager, c: ClientRef, cl: Client): Manager {
    g.(clients := Erase(g.clients, c), tokenToClient := g.tokenToClient - {cl.token},
       countersFromIp := Decrement(g.countersFromIp, cl.lastIp, Clients))
  }

  lemma DelistSets(g: Manager, client: Clients, c: ClientRef, ip: string)
    requires Ascending(g.clients) && c in g.clients && c in client && client[c].connection.None?
    ensures var g' := DelistManager(g, c, client[c]);
      && Living(g', client, ip) == Living(g, client, ip) - {c}
      && Connected(g', client, ip) == Connected(g, client, ip)
    ensures c in Living(g, client, ip) <==> ip == client[c].lastIp
  {
    EraseAscending(g.clients, c);
  }

  lemma DelistCounters(g: Manager, client: Clients, c: ClientRef)
    requires CountersOk(g, client) && Ascending(g.clients) && c in g.clients && c in client && client[c].connection.None?
    ensures CountersOk(DelistManager(g, c, client[c]), client)
  {
    hide Living, Connected, Ascending, Decrement;
    var g' := DelistManager(g, c, client[c]);
    var ip0 := client[c].lastIp;
    CountedClient(g, client, c);
    DecrementExact(g.countersFromIp, ip0, Clients);
    forall ip ensures CounterOf(g', ip) == Counter(|Connected(g', client, ip)|, |Living(g', client, ip)|)
      && (ip in g'.countersFromIp ==> |Living(g', client, ip)| > 0)
    {
      DelistSets(g, client, c, ip);
      ConnectedAmongLiving(g', client, ip);
      CounterSame(g.countersFromIp, g'.countersFromIp, ip0, ip);
    }
  }

  /** Instantiates what a decrement at ip0 leaves alone. */
  lemma CounterSame(counters: map<string, Counter>, counters': map<string, Counter>, ip0: string, ip: string)
    requires forall q :: q != ip0 ==> CounterAt(counters', q) == CounterAt(counters, q) && (q in counters' <==> q in counters)
    ensures ip != ip0 ==> CounterAt(counters', ip) == CounterAt(counters, ip) && (ip in counters' <==> ip in counters)
  {
  }

  lemma DelistKeepsManager(g: Manager, client: Clients, next: ClientRef, c: ClientRef)
    requires ManagerOk(g, client, next) && c in g.clients && c in client && client[c].connection.None?
    ensures ManagerOk(DelistManager(g, c, client[c]), client, next)
  {
    DelistCounters(g, client, c);
    EraseAscending(g.clients, c);
  }

  // ---- a new client ----

  function ConnectManager(g: Manager, c: ClientRef, k: Conn, token: string): Manager {
    var n := CounterOf(g, k.ip);
    Manager(g.clients + [c], g.connectionToClient[k := c], g.tokenToClient[token := c],
            g.countersFromIp[k.ip := Counter(n.connections + 1, n.clients + 1)])
  }

  lemma ConnectSets(g: Manager, client: Clients, c: ClientRef, k: Conn, cl: Client, token: string, ip: string)
    requires c !in client && c !in g.clients && cl.connection == Some(k) && cl.lastIp == k.ip
    ensures var g' := ConnectManager(g, c, k, token); var client' := client[c := cl];
      && Living(g', client', ip) == (if ip == k.ip then Living(g, client, ip) + {c} else Living(g, client, ip))
      && Connected(g', client', ip) == (if ip == k.ip then Connected(g, client, ip) + {c} else Connected(g, client, ip))
    ensures c !in Living(g, client, ip) && c !in Connected(g, client, ip)
  {
    var g' := ConnectManager(g, c, k, token);
    assert forall d :: d in g'.clients <==> d in g.clients || d == c;
  }

  lemma ConnectCounters(g: Manager, client: Clients, c: ClientRef, k: Conn, cl: Client, token: string)
    requires CountersOk(g, client) && c !in client && c !in g.clients
    requires cl.connection == Some(k) && cl.lastIp == k.ip
    ensures CountersOk(ConnectManager(g, c, k, token), client[c := cl])
  {
    hide Living, Connected;
    var g' := ConnectManager(g, c, k, token);
    var client' := client[c := cl];
    forall ip ensures CounterOf(g', ip) == Counter(|Connected(g', client', ip)|, |Living(g', client', ip)|)
      && (ip in g'.countersFromIp ==> |Living(g', client', ip)| > 0)
    {
      ConnectSets(g, client, c, k, cl, token, ip);
    }
  }

  lemma ConnectTokens(g: Manager, client: Clients, c: ClientRef, k: Conn, cl: Client, token: string)
    requires c !in client && c !in g.clients && TokensOk(g, client)
    requires cl.token == token && token !in g.tokenToClient
    ensures TokensOk(ConnectManager(g, c, k, token), client[c := cl])
  {
    var g' := ConnectManager(g, c, k, token);
    assert forall d :: d in g'.clients <==> d in g.clients || d == c;
  }

  lemma ConnectConnections(g: Manager, client: Clients, c: ClientRef, k: Conn, cl: Client, token: string)
    requires c !in client && c !in g.clients && ConnectionsOk(g, client)
    requires cl.connection == Some(k) && cl.lastIp == k.ip && k !in g.connectionToClient
    ensures ConnectionsOk(ConnectManager(g, c, k, token), client[c := cl])
  {
    var g' := ConnectManager(g, c, k, token);
    assert forall d :: d in g'.clients <==> d in g.clients || d == c;
  }

  lemma ConnectList(g: Manager, client: Clients, c: ClientRef, k: Conn, cl: Client, token: string)
    requires ListOk(g, client, c)
    ensures ListOk(ConnectManager(g, c, k, token), client[c := cl], c + 1)
  {
    forall i | 0 <= i < |g.clients| ensures g.clients[i] < c {
      assert g.clients[i] in g.clients;
    }
  }

  lemma ConnectKeepsManager(g: Manager, client: Clients, c: ClientRef, k: Conn, cl: Client, token: string)
    requires ManagerOk(g, client, c)
    requires cl.connection == Some(k) && cl.lastIp == k.ip && cl.token == token
    requires k !in g.connectionToClient && token !in g.tokenToClient
    ensures ManagerOk(ConnectManager(g, c, k, token), client[c := cl], c + 1)
  {
    hide CountersOk, TokensOk, ConnectionsOk, ConnectManager;
    ConnectCounters(g, client, c, k, cl, token);
    ConnectTokens(g, client, c, k, cl, token);
    ConnectConnections(g, client, c, k, cl, token);
    ConnectList(g, client, c, k, cl, token);
  }

  // ---- a revive ----

  /** Client c is discarded and its connection k goes to client t. */
  ghost predicate Spliced(g: Manager, client: Clients, g': Manager, client': Clients, c: ClientRef, t: ClientRef, k: Conn)
    requires c in client && t in client
  {
    var tk := client[t].connection;
    && g'.clients == Erase(g.clients, c)
    && g'.tokenToClient == g.tokenToClient - {client[c].token}
    && g'.connectionToClient == (if tk.Some? then g.connectionToClient - {tk.value} else g.connectionToClient)[k := t]
    && g'.countersFromIp ==
         Decrement(if tk.Some? then Decrement(g.countersFromIp, client[t].lastIp, Connections) else g.countersFromIp,
                   client[t].lastIp, Clients)
    && client'.Keys == client.Keys
    && (forall d :: d in client && d != c && d != t ==> client'[d].connection == client[d].connection && client'[d].lastIp == client[d].lastIp)
    && (forall d :: d in client ==> client'[d].token == client[d].token)
    && client'[t].connection == Some(k) && client'[t].lastIp == k.ip
  }

  lemma SpliceLiving(g: Manager, client: Clients, g': Manager, client': Clients, c: ClientRef, t: ClientRef, k: Conn, ip: string)
    requires Ascending(g.clients) && c in g.clients && t in g.clients && c in client && t in client && c != t
    requires Spliced(g, client, g', client', c, t, k) && client[c].lastIp == k.ip
    ensures Living(g', client', ip) ==
      (if ip == k.ip then (Living(g, client, ip) - {c}) + {t} else Living(g, client, ip) - {t})
    ensures c in Living(g, client, k.ip)
    ensures t in Living(g, client, ip) <==> ip == client[t].lastIp
  {
    EraseAscending(g.clients, c);
    forall d ensures d in Living(g', client', ip) <==>
      d in (if ip == k.ip then (Living(g, client, ip) - {c}) + {t} else Living(g, client, ip) - {t})
    {
      if d != c && d != t && d in client { assert client'[d].lastIp == client[d].lastIp; }
    }
  }

  lemma SpliceConnected(g: Manager, client: Clients, g': Manager, client': Clients, c: ClientRef, t: ClientRef, k: Conn, ip: string)
    requires Ascending(g.clients) && c in g.clients && t in g.clients && c in client && t in client && c != t
    requires Spliced(g, client, g', client', c, t, k) && client[c].lastIp == k.ip && client[c].connection == Some(k)
    ensures Connected(g', client', ip) ==
      (if ip == k.ip then (Connected(g, client, ip) - {c}) + {t} else Connected(g, client, ip) - {t})
    ensures c in Connected(g, client, k.ip)
    ensures t in Connected(g, client, ip) <==> ip == client[t].lastIp && client[t].connection.Some?
  {
    EraseAscending(g.clients, c);
    forall d ensures d in Connected(g', client', ip) <==>
      d in (if ip == k.ip then (Connected(g, client, ip) - {c}) + {t} else Connected(g, client, ip) - {t})
    {
      if d != c && d != t && d in client { assert client'[d].connection == client[d].connection; }
    }
  }

  lemma SwapSize(a: set<ClientRef>, c: ClientRef, t: ClientRef)
    requires c != t
    ensures |a - {t}| == if t in a then |a| - 1 else |a|
    ensures c in a ==> |(a - {c}) + {t}| == if t in a then |a| - 1 else |a|
  {
    if t !in a { assert a - {t} == a; }
    if c in a && t in a { assert (a - {c}) + {t} == a - {c}; }
  }

  /** The counters after a revive, although the code only ever touches the target's address. */
  lemma SpliceCounters(g: Manager, client: Clients, g': Manager, client': Clients, c: ClientRef, t: ClientRef, k: Conn)
    requires CountersOk(g, client) && Ascending(g.clients)
    requires c in g.clients && t in g.clients && c in client && t in client && c != t
    requires client[c].connection == Some(k) && client[c].lastIp == k.ip && Spliced(g, client, g', client', c, t, k)
    ensures CountersOk(g', client')
  {
    hide Living, Connected, Ascending, Decrement;
    var ip0 := client[t].lastIp;
    CountedClient(g, client, t);
    var mid := if client[t].connection.Some? then Decrement(g.countersFromIp, ip0, Connections) else g.countersFromIp;
    if client[t].connection.Some? {
      CountedConnection(g, client, t);
      DecrementExact(g.countersFromIp, ip0, Connections);
    }
    DecrementExact(mid, ip0, Clients);
    forall ip ensures CounterOf(g', ip) == Counter(|Connected(g', client', ip)|, |Living(g', client', ip)|)
      && (ip in g'.countersFromIp ==> |Living(g', client', ip)| > 0)
    {
      SpliceLiving(g, client, g', client', c, t, k, ip);
      SpliceConnected(g, client, g', client', c, t, k, ip);
      SwapSize(Living(g, client, ip), c, t);
      SwapSize(Connected(g, client, ip), c, t);
      ConnectedAmongLiving(g', client', ip);
      CounterSame(g.countersFromIp, mid, ip0, ip);
      CounterSame(mid, g'.countersFromIp, ip0, ip);
    }
  }

  lemma SpliceList(g: Manager, client: Clients, g': Manager, client': Clients, next: ClientRef, c: ClientRef, t: ClientRef, k: Conn)
    requires ListOk(g, client, next) && c in client && t in client && Spliced(g, client, g', client', c, t, k)
    ensures ListOk(g', client', next)
  {
    EraseAscending(g.clients, c);
  }

  lemma SpliceConnection(g: Manager, client: Clients, g': Manager, client': Clients, c: ClientRef, t: ClientRef, k: Conn, q: Conn)
    requires Ascending(g.clients) && ConnectionsOk(g, client)
    requires c in g.clients && t in g.clients && c in client && t in client && c != t
    requires client[c].connection == Some(k) && Spliced(g, client, g', client', c, t, k)
    requires q in g'.connectionToClient
    ensures var d := g'.connectionToClient[q]; d in g'.clients && d in client' && client'[d].connection == Some(q)
  {
    EraseAscending(g.clients, c);
    if q != k {
      var d := g.connectionToClient[q];
      assert client[d].connection == Some(q);
    }
  }

  lemma SpliceClient(g: Manager, client: Clients, g': Manager, client': Clients, c: ClientRef, t: ClientRef, k: Conn, d: ClientRef)
    requires Ascending(g.clients) && ConnectionsOk(g, client)
    requires c in g.clients && t in g.clients && c in client && t in client && c != t
    requires client[c].connection == Some(k) && Spliced(g, client, g', client', c, t, k)
    requires d in g'.clients && d in client' && client'[d].connection.Some?
    ensures client'[d].connection.value in g'.connectionToClient
    ensures g'.connectionToClient[client'[d].connection.value] == d
    ensures client'[d].lastIp == client'[d].connection.value.ip
  {
    EraseAscending(g.clients, c);
    assert d in g.clients && d != c;
    if d != t {
      assert client'[d].connection == client[d].connection;
      assert g.connectionToClient[client[d].connection.value] == d;
      assert g.connectionToClient[k] == c;
    }
  }

  lemma SpliceConnections(g: Manager, client: Clients, g': Manager, client': Clients, c: ClientRef, t: ClientRef, k: Conn)
    requires Ascending(g.clients) && ConnectionsOk(g, client)
    requires c in g.clients && t in g.clients && c in client && t in client && c != t
    requires client[c].connection == Some(k) && Spliced(g, client, g', client', c, t, k)
    ensures ConnectionsOk(g', client')
  {
    hide Spliced, Ascending;
    forall q | q in g'.connectionToClient
      ensures var d := g'.connectionToClient[q]; d in g'.clients && d in client' && client'[d].connection == Some(q)
    {
      SpliceConnection(g, client, g', client', c, t, k, q);
    }
    forall d | d in g'.clients && d in client' && client'[d].connection.Some?
      ensures client'[d].connection.value in g'.connectionToClient
      ensures g'.connectionToClient[client'[d].connection.value] == d
      ensures client'[d].lastIp == client'[d].connection.value.ip
    {
      SpliceClient(g, client, g', client', c, t, k, d);
    }
  }

  lemma SpliceTokens(g: Manager, client: Clients, g': Manager, client': Clients, c: ClientRef, t: ClientRef, k: Conn)
    requires Ascending(g.clients) && TokensOk(g, client)
    requires c in g.clients && t in g.clients && c in client && t in client && c != t
    requires Spliced(g, client, g', client', c, t, k)
    ensures TokensOk(g', client')
  {
    EraseAscending(g.clients, c);
    assert g.tokenToClient[client[c].token] == c;
  }

  lemma SpliceKeepsManager(g: Manager, client: Clients, g': Manager, client': Clients, next: ClientRef, c: ClientRef, t: ClientRef, k: Conn)
    requires ManagerOk(g, client, next) && c in g.clients && t in g.clients && c in client && t in client && c != t
    requires client[c].connection == Some(k) && Spliced(g, client, g', client', c, t, k)
    ensures ManagerOk(g', client', next)
  {
    hide CountersOk, Spliced;
    SpliceCounters(g, client, g', client', c, t, k);
    SpliceList(g, client, g', client', next, c, t, k);
    SpliceConnections(g, client, g', client', c, t, k);
    SpliceTokens(g, client, g', client', c, t, k);
  }
}
