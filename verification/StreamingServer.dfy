/**
 The two sides of the subscription protocol as the code has them: the hub's StreamingNode
 objects (server/chatbothub/streaming.go) and the streaming server's table
 (server/streaming/subscription.go). Each method does to the pair what the step of
 Subscriptions with its outcome does.
 */
module StreamingServer {
  import opened Wrappers
  import opened SubKeys
  import opened Subscriptions

  class StreamingNode {
    var subBots: set<string>

    constructor ()
      ensures subBots == {}
    {
      subBots := {};
    }

    method Sub(botIds: seq<string>)
      modifies this`subBots
      ensures subBots == old(subBots) + set b | b in botIds
    {
      for i := 0 to |botIds|
        invariant subBots == old(subBots) + set b | b in botIds[..i]
      {
        assert botIds[..i + 1] == botIds[..i] + [botIds[i]];
        subBots := subBots + {botIds[i]};
      }
      assert botIds[..|botIds|] == botIds;
    }

    method UnSub(botIds: seq<string>)
      modifies this`subBots
      ensures subBots == old(subBots) - set b | b in botIds
    {
      for i := 0 to |botIds|
        invariant subBots == old(subBots) - set b | b in botIds[..i]
      {
        assert botIds[..i + 1] == botIds[..i] + [botIds[i]];
        subBots := subBots - {botIds[i]};
      }
      assert botIds[..|botIds|] == botIds;
    }
  }

  /** hub.streamingNodes */
  class NodeRegistry {
    var streamingNodes: map<string, StreamingNode>

    constructor ()
      ensures streamingNodes == map[]
    {
      streamingNodes := map[];
    }

    /** SubBots of a client's node, if it is registered. */
    ghost function BotsAt(clientId: string): Option<set<string>>
      reads this, streamingNodes.Values
    {
      if clientId in streamingNodes then Some(streamingNodes[clientId].subBots) else None
    }

    /** REGISTER of StreamingTunnel: an existing node keeps its bots. */
    method Register(clientId: string)
      modifies this
      ensures BotsAt(clientId) == if old(BotsAt(clientId)).Some? then old(BotsAt(clientId)) else Some({})
      ensures streamingNodes - {clientId} == old(streamingNodes) - {clientId}
    {
      if clientId !in streamingNodes {
        var snode := new StreamingNode();
        streamingNodes := streamingNodes[clientId := snode];
      }
    }

    /** The end of the tunnel: the node goes, with its bots. */
    method DropStreamingNode(clientId: string)
      modifies this
      ensures streamingNodes == old(streamingNodes) - {clientId}
    {
      streamingNodes := streamingNodes - {clientId};
    }

    /** StreamingCtrl; authorised is the outcome of the token and account checks. */
    method StreamingCtrl(clientId: string, resources: seq<Resource>, authorised: bool) returns (ok: bool)
      modifies (if clientId in streamingNodes then {streamingNodes[clientId]} else {})`subBots
      ensures ok == (clientId in streamingNodes && authorised)
      ensures BotsAt(clientId) == HubAfter(old(BotsAt(clientId)), resources, if ok then Answered else NotApplied)
    {
      if clientId !in streamingNodes || !authorised {
        return false;
      }
      var snode := streamingNodes[clientId];
      ghost var before := snode.subBots;
      var subs, unsubs: seq<string> := [], [];
      for i := 0 to |resources|
        invariant snode.subBots == before
        invariant (set b | b in subs) == BotsOf(resources[..i], Subscribe)
        invariant (set b | b in unsubs) == BotsOf(resources[..i], UnSubscribe)
      {
        var res := resources[i];
        BotsOfSnoc(resources[..i], res);
        assert resources[..i + 1] == resources[..i] + [res];
        match res.action {
          case Subscribe => subs := subs + [res.botId];
          case UnSubscribe => unsubs := unsubs + [res.botId];
          case OtherAction =>
        }
      }
      assert resources[..|resources|] == resources;
      snode.UnSub(unsubs);
      snode.Sub(subs);
      assert snode.subBots == before - BotsOf(resources, UnSubscribe) + BotsOf(resources, Subscribe);
      ok := true;
    }
  }

  /** sendEventToSubStreamingNodes: the nodes an event of the bot is sent to; sent says which sends succeed. */
  method SendEventToSubStreamingNodes(hub: NodeRegistry, botId: string, sent: string -> bool) returns (got: set<string>)
    ensures forall c :: c in got <==> sent(c) && c in hub.streamingNodes && botId in hub.streamingNodes[c].subBots
  {
    got := {};
    var todo := hub.streamingNodes.Keys;
    while todo != {}
      invariant todo <= hub.streamingNodes.Keys
      invariant forall c :: c in got <==>
                              && sent(c) && c in hub.streamingNodes && c !in todo
                              && botId in hub.streamingNodes[c].subBots
    {
      var c :| c in todo;
      if botId in hub.streamingNodes[c].subBots {
        if sent(c) { got := got + {c}; }  // a send that fails does not keep the others from theirs
      }
      todo := todo - {c};
    }
  }

  lemma BotsOfSnoc(rs: seq<Resource>, r: Resource)
    ensures forall action ::
              BotsOf(rs + [r], action) == BotsOf(rs, action) + if r.action == action then {r.botId} else {}
  {
    forall action
      ensures BotsOf(rs + [r], action) == BotsOf(rs, action) + if r.action == action then {r.botId} else {}
    {
      assert forall x :: x in rs + [r] <==> x in rs || x == r;
    }
  }

  class Server {
    const clientId: string
    const hub: NodeRegistry
    var subInfo: map<string, set<Conn>>

    constructor (clientId: string, hub: NodeRegistry)
      ensures this.clientId == clientId && this.hub == hub && subInfo == map[]
    {
      this.clientId, this.hub, subInfo := clientId, hub, map[];
    }

    /** The server and its node at the hub, as one state of the protocol. */
    ghost function View(): Sys
      reads this, hub, hub.streamingNodes.Values
    {
      Sys(subInfo, hub.BotsAt(clientId))
    }

    /** sendStreamingCtrl, for a given fate of the call; the hub may also not know the node. */
    method SendStreamingCtrl(resources: seq<Resource>, call: Call) returns (ok: bool)
      modifies hub.streamingNodes.Values
      ensures hub.BotsAt(clientId) == HubAfter(old(hub.BotsAt(clientId)), resources, call)
      ensures ok == (call.Answered? && hub.BotsAt(clientId).Some?)
    {
      if call.NotApplied? {
        return false;
      }
      var applied := hub.StreamingCtrl(clientId, resources, true);
      ok := applied && call.Answered?;
    }

    /** LoadOrStore of an empty set of connections. */
    method Load(key: string) returns (connections: set<Conn>)
      modifies this`subInfo
      ensures connections == At(old(subInfo), key) && subInfo == old(subInfo)[key := connections]
    {
      if key !in subInfo {
        subInfo := subInfo[key := {}];
      }
      connections := subInfo[key];
    }

    /** One turn of UpdateConnectionSubs' first loop: is the request to be sent? */
    method PrepareSub(wsConnection: Conn, res: Resource) returns (send: bool)
      modifies this`subInfo
      ensures subInfo == Prepare(old(subInfo), wsConnection, res) && send == IsSent(old(subInfo), wsConnection, res)
    {
      var key := SubKey(res.botId, res.resourceType);
      var connections := Load(key);
      match res.action {
        case Subscribe =>
          send := wsConnection !in connections;
        case UnSubscribe =>
          subInfo := subInfo[key := connections - {wsConnection}];
          send := |connections - {wsConnection}| == 0;
        case OtherAction =>
          send := false;
      }
    }

    method UpdateConnectionSubs(wsConnection: Conn, resources: seq<Resource>, call: Call) returns (ok: bool)
      modifies this`subInfo, hub.streamingNodes.Values
      ensures View() == Update(old(View()), wsConnection, resources, call)
      ensures ok <==> SentOf(old(subInfo), wsConnection, resources) == [] || (call.Answered? && old(View()).hub.Some?)
    {
      var diffResources: seq<Resource> := [];
      for i := 0 to |resources|
        invariant subInfo == PrepareAll(old(subInfo), wsConnection, resources[..i])
        invariant diffResources == SentOf(old(subInfo), wsConnection, resources[..i])
        invariant hub.BotsAt(clientId) == old(hub.BotsAt(clientId))
      {
        assert resources[..i + 1][..i] == resources[..i];
        var send := PrepareSub(wsConnection, resources[i]);
        if send {
          diffResources := diffResources + [resources[i]];
        }
      }
      assert resources[..|resources|] == resources;
      if |diffResources| == 0 {
        return true;
      }
      ok := SendStreamingCtrl(diffResources, call);
      if ok {
        StoreSubs(wsConnection, diffResources);
      }
    }

    /** The second loop of UpdateConnectionSubs. */
    method StoreSubs(wsConnection: Conn, diffResources: seq<Resource>)
      modifies this`subInfo
      ensures subInfo == StoreAll(old(subInfo), wsConnection, diffResources)
    {
      for i := 0 to |diffResources|
        invariant subInfo == StoreAll(old(subInfo), wsConnection, diffResources[..i])
      {
        var res := diffResources[i];
        assert diffResources[..i + 1][..i] == diffResources[..i];
        var key := SubKey(res.botId, res.resourceType);
        var connections := Load(key);
        if res.action == Subscribe {
          subInfo := subInfo[key := connections + {wsConnection}];
        }
      }
      assert diffResources[..|diffResources|] == diffResources;
    }

    /** RemoveSubsForConnection: the connection leaves every key; the keys it leaves empty are
        parsed back and unsubscribed from, unless one does not parse. */
    method RemoveSubsForConnection(wsConnection: Conn, call: Call) returns (ok: bool)
      modifies this`subInfo, hub.streamingNodes.Values
      ensures View() == Remove(old(View()), wsConnection, call)
      ensures ok <==> || LastKeys(old(subInfo), wsConnection) == {}
                      || (AllParse(old(View()), wsConnection) && call.Answered? && old(View()).hub.Some?)
    {
      var keysToRemove := LeaveAll(wsConnection);
      if keysToRemove == {} {
        return true;
      }
      var parsed, resources := Unsubscriptions(keysToRemove);
      if !parsed {
        return false;
      }
      ghost var bots := hub.BotsAt(clientId);
      assert bots.Some? ==> Control(bots.value, resources) == bots.value - BotsOf(resources, UnSubscribe);
      ok := SendStreamingCtrl(resources, call);
    }

    /** The walk over the table; the keys may come in any order. */
    method LeaveAll(wsConnection: Conn) returns (keysToRemove: set<string>)
      modifies this`subInfo
      ensures subInfo == map key | key in old(subInfo) :: old(subInfo)[key] - {wsConnection}
      ensures keysToRemove == LastKeys(old(subInfo), wsConnection)
    {
      hide LastKeys;
      keysToRemove := {};
      var todo := subInfo.Keys;
      LastKeysAre(subInfo, wsConnection);
      while todo != {}
        invariant todo <= old(subInfo).Keys == subInfo.Keys
        invariant forall key | key in subInfo ::
                    subInfo[key] == if key in todo then old(subInfo)[key] else old(subInfo)[key] - {wsConnection}
        invariant keysToRemove == LastKeys(old(subInfo), wsConnection) - todo
      {
        var key :| key in todo;
        LastKeysStep(old(subInfo), wsConnection, todo, key);
        todo := todo - {key};
        var last := Leave(wsConnection, key);
        if last { keysToRemove := keysToRemove + {key}; }
      }
    }

    /** One turn of the walk: was the connection the last one under the key? */
    method Leave(wsConnection: Conn, key: string) returns (last: bool)
      requires key in subInfo
      modifies this`subInfo
      ensures subInfo == old(subInfo)[key := old(subInfo)[key] - {wsConnection}]
      ensures last == (old(subInfo)[key] == {wsConnection})
    {
      var connections := subInfo[key];
      last := false;
      if wsConnection in connections {
        subInfo := subInfo[key := connections - {wsConnection}];
        last := |connections - {wsConnection}| == 0;
        assert last ==> connections == {wsConnection};
      } else {
        assert connections - {wsConnection} == connections;
        assert subInfo[key := connections] == subInfo;
      }
    }

    /** The unsubscriptions for the keys, if all parse. */
    method Unsubscriptions(keys: set<string>) returns (parsed: bool, resources: seq<Resource>)
      ensures parsed == forall key | key in keys :: ParseSubKey(key).Some?
      ensures parsed ==> BotsOf(resources, Subscribe) == {}
      ensures parsed ==> BotsOf(resources, UnSubscribe)
                         == set key | key in keys && ParseSubKey(key).Some? :: ParseSubKey(key).value.0
    {
      resources := [];
      var todo := keys;
      while todo != {}
        invariant todo <= keys
        invariant forall key | key in keys - todo :: ParseSubKey(key).Some?
        invariant BotsOf(resources, Subscribe) == {}
        invariant BotsOf(resources, UnSubscribe)
                  == set key | key in keys - todo && ParseSubKey(key).Some? :: ParseSubKey(key).value.0
      {
        var key :| key in todo;
        var pair := ParseSubKey(key);
        if pair.None? {
          return false, resources;
        }
        var res := Resource(pair.value.0, pair.value.1, UnSubscribe);
        BotsOfSnoc(resources, res);
        assert keys - (todo - {key}) == (keys - todo) + {key};
        resources, todo := resources + [res], todo - {key};
      }
      parsed := true;
    }
  
    /** GetSubscribedConnections, for a walk in any order. */
    method GetSubscribedConnections(botId: string, resourceType: int32) returns (result: seq<Conn>)
      ensures multiset(result) == multiset(At(subInfo, SubKey(botId, resourceType)))
    {
      result := [];
      var key := SubKey(botId, resourceType);
      if key in subInfo {
        var todo := subInfo[key];
        while todo != {}
          invariant todo <= subInfo[key]
          invariant multiset(result) == multiset(subInfo[key] - todo)
        {
          var connection :| connection in todo;
          assert subInfo[key] - (todo - {connection}) == (subInfo[key] - todo) + {connection};
          result, todo := result + [connection], todo - {connection};
        }
      }
    }

    /** RecoverConnectionSubs: one subscribe call per connection, for all bots it has; calls
        gives each call's fate. */
    method RecoverConnectionSubs(calls: Conn -> Call)
      modifies hub.streamingNodes.Values
      ensures View() == Recover(old(View()), set conn | conn in Connections(subInfo) && !calls(conn).NotApplied?)
    {
      var connectionResourceMap := ResourcesByConnection();
      var todo := connectionResourceMap.Keys;
      ghost var applied: set<Conn> := {};
      RecoverNobody(View());
      while todo != {}
        invariant todo <= connectionResourceMap.Keys
        invariant applied == set conn | conn in connectionResourceMap.Keys - todo && !calls(conn).NotApplied?
        invariant View() == Recover(old(View()), applied)
      {
        var conn :| conn in todo;
        todo := todo - {conn};
        ghost var before := View();
        var ok := SendStreamingCtrl(connectionResourceMap[conn], calls(conn));
        if !calls(conn).NotApplied? {
          RecoverOneMore(old(View()), applied, conn, connectionResourceMap[conn]);
          applied := applied + {conn};
        }
      }
      RecoverSame(old(View()), applied, set conn | conn in Connections(subInfo) && !calls(conn).NotApplied?);
    }

    /** The subscribe requests of each connection that has a key that parses. */
    method ResourcesByConnection() returns (m: map<Conn, seq<Resource>>)
      ensures m.Keys <= Connections(subInfo)
      ensures forall conn | conn in m :: NamesBots(m[conn], BotsOfConn(subInfo, conn))
      ensures forall conn | conn !in m :: BotsOfConn(subInfo, conn) == {}
    {
      m := map[];
      var todo := subInfo.Keys;
      while todo != {}
        invariant todo <= subInfo.Keys && m.Keys <= Connections(subInfo)
        invariant forall conn | conn in m :: NamesBots(m[conn], BotsOfConn(subInfo - todo, conn))
        invariant forall conn | conn !in m :: BotsOfConn(subInfo - todo, conn) == {}
      {
        var key :| key in todo;
        var pair := ParseSubKey(key);
        if pair.Some? {
          var res := Resource(pair.value.0, pair.value.1, Subscribe);
          ghost var before := m;
          m := AppendForAll(m, res, subInfo[key]);
          forall conn: Conn
            ensures if conn in m then NamesBots(m[conn], BotsOfConn(subInfo - (todo - {key}), conn))
                    else BotsOfConn(subInfo - (todo - {key}), conn) == {} {
            BotsOfConnStep(subInfo, todo, key, conn);
            BotsOfSnoc(if conn in before then before[conn] else [], res);
          }
        } else {
          assert forall conn :: BotsOfConn(subInfo - (todo - {key}), conn) == BotsOfConn(subInfo - todo, conn);
        }
        todo := todo - {key};
      }
      assert subInfo - {} == subInfo;
    }
  }

  lemma LastKeysAre(subs: Subs, conn: Conn)
    ensures LastKeys(subs, conn) <= subs.Keys
  {
  }

  lemma LastKeysStep(subs: Subs, conn: Conn, todo: set<string>, key: string)
    requires key in todo && key in subs
    ensures LastKeys(subs, conn) - (todo - {key})
            == LastKeys(subs, conn) - todo + if subs[key] == {conn} then {key} else {}
  {
  }

  /** append for each of the connections */
  method AppendForAll(m0: map<Conn, seq<Resource>>, res: Resource, connections: set<Conn>)
    returns (m: map<Conn, seq<Resource>>)
    ensures m.Keys == m0.Keys + connections
    ensures forall conn | conn in m :: m[conn] == if conn in connections then Appended(m0, conn, res) else m0[conn]
  {
    m := m0;
    var todo := connections;
    while todo != {}
      invariant todo <= connections && m.Keys == m0.Keys + (connections - todo)
      invariant forall conn | conn in m ::
                  m[conn] == if conn in connections - todo then Appended(m0, conn, res) else m0[conn]
    {
      var conn :| conn in todo;
      m, todo := m[conn := Appended(m, conn, res)], todo - {conn};
    }
  }

  /** append to a map's entry, which may be missing */
  function Appended(m: map<Conn, seq<Resource>>, conn: Conn, res: Resource): seq<Resource> {
    (if conn in m then m[conn] else []) + [res]
  }

  lemma BotsOfConnStep(subs: Subs, todo: set<string>, key: string, conn: Conn)
    requires key in todo && todo <= subs.Keys && ParseSubKey(key).Some?
    ensures BotsOfConn(subs - (todo - {key}), conn)
            == BotsOfConn(subs - todo, conn) + if conn in subs[key] then {ParseSubKey(key).value.0} else {}
  {
    assert (subs - (todo - {key})).Keys == (subs - todo).Keys + {key};
  }

  /** Every connection with a subscription. */
  ghost function Connections(subs: Subs): set<Conn> {
    set key, conn | key in subs && conn in subs[key] :: conn
  }

  /** The requests subscribe to exactly these bots. */
  ghost predicate NamesBots(rs: seq<Resource>, bots: set<string>) {
    BotsOf(rs, UnSubscribe) == {} && BotsOf(rs, Subscribe) == bots
  }

  lemma RecoverOneMore(s: Sys, applied: set<Conn>, conn: Conn, rs: seq<Resource>)
    requires NamesBots(rs, BotsOfConn(s.subs, conn))
    ensures Recover(s, applied + {conn}).hub == HubAfter(Recover(s, applied).hub, rs, Answered)
  {
    if s.hub.Some? {
      assert Recover(s, applied + {conn}).hub.value == Recover(s, applied).hub.value + BotsOfConn(s.subs, conn);
      assert Control(Recover(s, applied).hub.value, rs) == Recover(s, applied).hub.value + BotsOfConn(s.subs, conn);
    }
  }

  lemma RecoverNobody(s: Sys)
    ensures Recover(s, {}) == s
  {
    if s.hub.Some? { assert Recover(s, {}).hub.value == s.hub.value; }
  }

  lemma RecoverSame(s: Sys, applied: set<Conn>, applied': set<Conn>)
    requires forall conn | conn in applied' - applied :: BotsOfConn(s.subs, conn) == {}
    requires applied <= applied'
    ensures Recover(s, applied) == Recover(s, applied')
  {
    if s.hub.Some? { assert Recover(s, applied).hub.value == Recover(s, applied').hub.value; }
  }
}
