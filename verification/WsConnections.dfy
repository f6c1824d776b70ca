/**
 The websocket connections that messages are forwarded to: sending a request with an
 acknowledgement (server/streaming/ws_connection.go:45-56, 178-245) and forwardMessage
 (server/streaming/hub_event_handler.go:12-30).
 */
module WsConnections {
  import opened SubKeys
  import opened Subscriptions
  import opened StreamingServer
  import opened AckTable

  datatype WsEvent = WsEvent(seqNo: nat, needAck: bool, eventType: string, payload: string)

  class WsConnection {
    var eventSeq: nat
    var ackCallbacks: map<nat, Callback>
    var eventsToWrite: seq<WsEvent>  // what went into eventsToWriteChan
    var called: seq<Callback>        // the callbacks invoked so far
    var timers: set<nat>             // the numbers whose 20 second timer runs

    constructor ()
      ensures eventSeq == 1 && ackCallbacks == map[] && eventsToWrite == [] && called == [] && Valid()
    {
      eventSeq, ackCallbacks, eventsToWrite, called, timers := 1, map[], [], [], {};
    }

    /** Numbers not handed out yet have no entry and no event; the timers run for the entries. */
    ghost predicate Valid()
      reads this
    {
      && (forall n | n in ackCallbacks :: n < eventSeq) && timers == ackCallbacks.Keys
      && forall i | 0 <= i < |eventsToWrite| :: eventsToWrite[i].seqNo < eventSeq
    }

    method CreateRequest(eventType: string, payload: string) returns (event: WsEvent)
      requires Valid()
      modifies this`eventSeq
      ensures Valid() && event == WsEvent(old(eventSeq), false, eventType, payload) && eventSeq == old(eventSeq) + 1
    {
      event := WsEvent(eventSeq, false, eventType, payload);
      eventSeq := eventSeq + 1;
    }

    /** The event goes out before its callback is registered. */
    method SendWithAck(event: WsEvent, ack: Callback)
      requires Valid() && event.seqNo < eventSeq && event.seqNo !in ackCallbacks
      modifies this`eventsToWrite, this`ackCallbacks, this`timers
      ensures Valid() && timers == old(timers) + {event.seqNo}
      ensures eventsToWrite == old(eventsToWrite) + [event.(needAck := true)]
      ensures ackCallbacks == old(ackCallbacks)[event.seqNo := ack]
    {
      eventsToWrite := eventsToWrite + [event.(needAck := true)];
      timers := timers + {event.seqNo};
      ackCallbacks := ackCallbacks[event.seqNo := ack];
    }

    /** invokeAckCallback, not interleaved with another: the entry is taken out and called once;
        with no entry nothing is called. */
    method InvokeAckCallback(seqNo: nat) returns (found: bool)
      requires Valid()
      modifies this`ackCallbacks, this`called, this`timers
      ensures Valid() && found == (seqNo in old(ackCallbacks))
      ensures timers == old(timers) - {seqNo} && ackCallbacks == old(ackCallbacks) - {seqNo}
      ensures called == old(called) + if found then [old(ackCallbacks)[seqNo]] else []
    {
      found := seqNo in ackCallbacks;
      if found {
        called := called + [ackCallbacks[seqNo]];
        ackCallbacks := ackCallbacks - {seqNo};
        timers := timers - {seqNo};
      }
    }

    /** c got one more event of this kind and payload, under a new number, to be acknowledged. */
    twostate predicate GotOne(eventType: string, payload: string)
      reads this
    {
      && eventSeq == old(eventSeq) + 1
      && eventsToWrite == old(eventsToWrite) + [WsEvent(old(eventSeq), true, eventType, payload)]
      && ackCallbacks == old(ackCallbacks)[old(eventSeq) := Callback(old(eventSeq))]
    }

    twostate predicate GotNothing()
      reads this
    {
      eventSeq == old(eventSeq) && eventsToWrite == old(eventsToWrite) && ackCallbacks == old(ackCallbacks)
    }

    method Forward(eventType: string, payload: string)
      requires Valid()
      modifies this`eventSeq, this`eventsToWrite, this`ackCallbacks, this`timers
      ensures Valid() && GotOne(eventType, payload)
    {
      var event := CreateRequest(eventType, payload);
      SendWithAck(event, Callback(event.seqNo));
    }
  }

  /** The objects behind the connections: one each. */
  ghost predicate Distinct(connections: map<Conn, WsConnection>) {
    forall c, d | c in connections && d in connections && c != d :: connections[c] != connections[d]
  }

  /** forwardMessage: each connection under the bot's message key gets the message once, and no
      other gets it. */
  method ForwardMessage(server: Server, connections: map<Conn, WsConnection>, botId: string, message: string)
    requires Distinct(connections) && forall c | c in connections :: connections[c].Valid()
    requires At(server.subInfo, SubKey(botId, MESSAGE)) <= connections.Keys
    modifies connections.Values
    ensures forall c | c in connections :: connections[c].Valid()
    ensures forall c | c in connections ::
              if c in At(server.subInfo, SubKey(botId, MESSAGE))
              then connections[c].GotOne("new_messages", message) else connections[c].GotNothing()
    ensures forall c | c in connections ::
              connections[c].eventsToWrite
              == old(connections[c].eventsToWrite)
                 + if c in At(server.subInfo, SubKey(botId, MESSAGE))
                   then [WsEvent(old(connections[c].eventSeq), true, "new_messages", message)] else []
  {
    var all := server.GetSubscribedConnections(botId, MESSAGE);
    ghost var subscribed := At(server.subInfo, SubKey(botId, MESSAGE));
    OnceEach(all, subscribed);
    for i := 0 to |all|
      invariant forall c | c in connections :: connections[c].Valid()
      invariant forall c | c in connections ::
                  if c in all[..i] then connections[c].GotOne("new_messages", message)
                  else connections[c].GotNothing()
    {
      assert all[i] in all && all[i] !in all[..i];
      assert all[..i + 1] == all[..i] + [all[i]];
      connections[all[i]].Forward("new_messages", message);
    }
    assert all[..|all|] == all;
  }

  lemma TwiceCounted(s: seq<Conn>, i: nat, j: nat)
    requires i < j < |s| && s[i] == s[j]
    ensures multiset(s)[s[i]] >= 2
  {
    assert s == s[..j] + s[j..];
    assert s[..j][i] == s[i] && s[j..][0] == s[j];
  }

  /** A sequence with the elements of a set, counted, has each once. */
  lemma OnceEach(s: seq<Conn>, elements: set<Conn>)
    requires multiset(s) == multiset(elements)
    ensures forall c :: c in s <==> c in elements
    ensures forall i, j | 0 <= i < j < |s| :: s[i] != s[j]
  {
    forall c ensures c in s <==> c in elements {
      assert c in s <==> c in multiset(s);
    }
    forall i, j | 0 <= i < j < |s| ensures s[i] != s[j] {
      if s[i] == s[j] { TwiceCounted(s, i, j); }
    }
  }
}
