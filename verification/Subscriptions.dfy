/**
 The subscription protocol between a streaming server and the hub, as a state machine over
 whole calls (server/streaming/subscription.go, server/chatbothub/streaming.go).

 The server keeps, per bot and resource type, the connections that subscribed; the hub keeps,
 for the server's node, the bots whose events it forwards. Only differences are sent.
 */
module Subscriptions {
  import opened Wrappers
  import opened Strings
  import opened SubKeys

  /** A websocket connection. */
  datatype Conn = Conn(id: int)

  datatype Action = Subscribe | UnSubscribe | OtherAction

  /** pb.StreamingResource */
  datatype Resource = Resource(botId: string, resourceType: int32, action: Action)

  const MESSAGE: int32 := 1
  const MOMENT: int32 := 2

  /** botAndWsConnectionSubInfo: key to connections. */
  type Subs = map<string, set<Conn>>

  /** hub is SubBots of the server's node; None: the node is not registered. */
  datatype Sys = Sys(subs: Subs, hub: Option<set<string>>)

  /** How a control call ends: answered; applied, but the answer lost; never applied. */
  datatype Call = Answered | AnswerLost | NotApplied

  function At(subs: Subs, key: string): set<Conn> {
    if key in subs then subs[key] else {}
  }

  function KeyOf(r: Resource): string {
    SubKey(r.botId, r.resourceType)
  }

  /** The connections subscribed to a bot's messages. */
  function Subscribers(s: Sys, botId: string): set<Conn> {
    At(s.subs, SubKey(botId, MESSAGE))
  }

  /** The texts of the keys of messages and of moments. */
  lemma KeyTexts(botId: string)
    ensures SubKey(botId, MESSAGE) == botId + "[:bot-ws-sub-key:]1"
    ensures SubKey(botId, MOMENT) == botId + "[:bot-ws-sub-key:]2"
  {
    PrintDigits(0, 1);
    PrintDigits(0, 2);
    assert "[:bot-ws-sub-key:]1" == SEP + "1" && "[:bot-ws-sub-key:]2" == SEP + "2";
  }

  /** UpdateConnectionSubs, what one request does before the call. */
  function Prepare(subs: Subs, conn: Conn, r: Resource): Subs {
    subs[KeyOf(r) := if r.action == UnSubscribe then At(subs, KeyOf(r)) - {conn} else At(subs, KeyOf(r))]
  }

  /** The request is sent to the hub: a new subscription, or an unsubscription that leaves nobody. */
  predicate IsSent(subs: Subs, conn: Conn, r: Resource) {
    match r.action
    case Subscribe => conn !in At(subs, KeyOf(r))
    case UnSubscribe => At(subs, KeyOf(r)) - {conn} == {}
    case OtherAction => false
  }

  function PrepareAll(subs: Subs, conn: Conn, rs: seq<Resource>): Subs
    decreases |rs|
  {
    if rs == [] then subs
    else var before := PrepareAll(subs, conn, rs[..|rs| - 1]); Prepare(before, conn, rs[|rs| - 1])
  }

  function SentOf(subs: Subs, conn: Conn, rs: seq<Resource>): seq<Resource>
    decreases |rs|
  {
    if rs == [] then []
    else
      var init, r := rs[..|rs| - 1], rs[|rs| - 1];
      SentOf(subs, conn, init) + if IsSent(PrepareAll(subs, conn, init), conn, r) then [r] else []
  }

  /** UpdateConnectionSubs, after the call succeeded: the new subscriptions are stored. */
  function StoreAll(subs: Subs, conn: Conn, diff: seq<Resource>): Subs
    decreases |diff|
  {
    if diff == [] then subs
    else
      var before, r := StoreAll(subs, conn, diff[..|diff| - 1]), diff[|diff| - 1];
      before[KeyOf(r) := if r.action == Subscribe then At(before, KeyOf(r)) + {conn} else At(before, KeyOf(r))]
  }

  function BotsOf(rs: seq<Resource>, action: Action): set<string> {
    set r | r in rs && r.action == action :: r.botId
  }

  /** StreamingCtrl on SubBots: all unsubscriptions, then all subscriptions. */
  function Control(bots: set<string>, rs: seq<Resource>): set<string> {
    bots - BotsOf(rs, UnSubscribe) + BotsOf(rs, Subscribe)
  }

  function HubAfter(hub: Option<set<string>>, rs: seq<Resource>, call: Call): Option<set<string>> {
    if hub.None? || call.NotApplied? then hub else Some(Control(hub.value, rs))
  }

  /** One call of UpdateConnectionSubs. */
  function Update(s: Sys, conn: Conn, rs: seq<Resource>, call: Call): Sys {
    var subs, diff := PrepareAll(s.subs, conn, rs), SentOf(s.subs, conn, rs);
    if diff == [] then s.(subs := subs)
    else Sys(if s.hub.Some? && call.Answered? then StoreAll(subs, conn, diff) else subs, HubAfter(s.hub, diff, call))
  }

  /** The keys on which conn is the only connection. */
  function LastKeys(subs: Subs, conn: Conn): set<string> {
    set key | key in subs && subs[key] == {conn}
  }

  /** One call of RemoveSubsForConnection. A key that does not parse stops it before the call. */
  function Remove(s: Sys, conn: Conn, call: Call): Sys {
    var keys := LastKeys(s.subs, conn);
    var bots := set key | key in keys && ParseSubKey(key).Some? :: ParseSubKey(key).value.0;
    var parsed := forall key | key in keys :: ParseSubKey(key).Some?;
    Sys(map key | key in s.subs :: s.subs[key] - {conn},
        if keys == {} || !parsed || s.hub.None? || call.NotApplied? then s.hub else Some(s.hub.value - bots))
  }

  /** The bots conn has subscriptions of, under keys that parse. */
  function BotsOfConn(subs: Subs, conn: Conn): set<string> {
    set key | key in subs && conn in subs[key] && ParseSubKey(key).Some? :: ParseSubKey(key).value.0
  }

  /** One run of RecoverConnectionSubs: a subscribe call for each connection in applied goes
      through, the others' calls do not. */
  function Recover(s: Sys, applied: set<Conn>): Sys {
    if s.hub.None? then s
    else s.(hub := Some(s.hub.value + set conn, bot | conn in applied && bot in BotsOfConn(s.subs, conn) :: bot))
  }

  datatype Step =
    | UpdateCall(conn: Conn, rs: seq<Resource>, call: Call)
    | RemoveCall(conn: Conn, call: Call)
    | RecoverCalls(applied: set<Conn>)
    | NodeDropped
    | NodeRegistered

  function Next(s: Sys, step: Step): Sys {
    match step
    case UpdateCall(conn, rs, call) => Update(s, conn, rs, call)
    case RemoveCall(conn, call) => Remove(s, conn, call)
    case RecoverCalls(applied) => Recover(s, applied)
    case NodeDropped => s.(hub := None)
    case NodeRegistered => if s.hub.Some? then s else s.(hub := Some({}))
  }

  /** The connections that get a message event of the bot: the hub sends it to the node if the
      bot is in SubBots, and the server forwards it to the connections under the bot's key. */
  function Receivers(s: Sys, botId: string): set<Conn> {
    if s.hub.Some? && botId in s.hub.value then Subscribers(s, botId) else {}
  }

  // ---- what a request list does to a key ---------------------------------------------

  /** Some request with the action is for the key. */
  predicate Has(rs: seq<Resource>, key: string, action: Action) {
    exists r :: r in rs && KeyOf(r) == key && r.action == action
  }

  lemma HasSnoc(rs: seq<Resource>, r: Resource, key: string, action: Action)
    ensures Has(rs + [r], key, action) <==> Has(rs, key, action) || (KeyOf(r) == key && r.action == action)
  {
    assert forall x :: x in rs + [r] <==> x in rs || x == r;
  }

  /** The list subscribes to the key at a point where the connection is not subscribed to it. */
  predicate SubscribesAnew(subscribed: bool, rs: seq<Resource>, key: string) {
    exists i | 0 <= i < |rs| ::
      KeyOf(rs[i]) == key && rs[i].action == Subscribe && (!subscribed || Has(rs[..i], key, UnSubscribe))
  }

  lemma SubscribesAnewSnoc(subscribed: bool, rs: seq<Resource>, r: Resource, key: string)
    ensures SubscribesAnew(subscribed, rs + [r], key) <==>
              || SubscribesAnew(subscribed, rs, key)
              || (KeyOf(r) == key && r.action == Subscribe && (!subscribed || Has(rs, key, UnSubscribe)))
  {
    var all := rs + [r];
    assert all[..|rs|] == rs && all[|rs|] == r;
    assert forall i | 0 <= i < |rs| :: all[..i] == rs[..i] && all[i] == rs[i];
  }

  lemma NothingAsked(subscribed: bool, key: string)
    ensures !SubscribesAnew(subscribed, [], key) && forall action :: !Has([], key, action)
  {
  }

  lemma {:induction false} PreparedAt(subs: Subs, conn: Conn, rs: seq<Resource>, key: string)
    ensures At(PrepareAll(subs, conn, rs), key)
            == if Has(rs, key, UnSubscribe) then At(subs, key) - {conn} else At(subs, key)
    decreases |rs|
  {
    if rs != [] {
      var init, r := rs[..|rs| - 1], rs[|rs| - 1];
      assert rs == init + [r];
      PreparedAt(subs, conn, init, key);
      HasSnoc(init, r, key, UnSubscribe);
    }
  }

  /** Before the call the connection leaves where it unsubscribes; what is sent is an unsubscription that
      leaves nobody, and a subscription of a connection that is not subscribed. */
  lemma {:induction false} PrepareEffect(subs: Subs, conn: Conn, rs: seq<Resource>, key: string)
    ensures At(PrepareAll(subs, conn, rs), key)
            == if Has(rs, key, UnSubscribe) then At(subs, key) - {conn} else At(subs, key)
    ensures Has(SentOf(subs, conn, rs), key, UnSubscribe) <==> Has(rs, key, UnSubscribe) && At(subs, key) <= {conn}
    ensures Has(SentOf(subs, conn, rs), key, Subscribe) <==> SubscribesAnew(conn in At(subs, key), rs, key)
    decreases |rs|
  {
    hide Has, SubscribesAnew;
    if rs == [] {
      NothingAsked(conn in At(subs, key), key);
    } else {
      var init, r := rs[..|rs| - 1], rs[|rs| - 1];
      assert rs == init + [r];
      PrepareEffect(subs, conn, init, key);
      PreparedAt(subs, conn, rs, key);
      var before := At(subs, key);
      assert before - {conn} - {conn} == before - {conn} && (before - {conn} == {} <==> before <= {conn});
      HasSnoc(init, r, key, UnSubscribe);
      SubscribesAnewSnoc(conn in At(subs, key), init, r, key);
      var sent := SentOf(subs, conn, init);
      HasSnoc(sent, r, key, UnSubscribe);
      HasSnoc(sent, r, key, Subscribe);
      assert sent + [] == sent;
    }
  }

  /** After the call: the connection is added exactly where a subscription was sent. */
  lemma {:induction false} StoreEffect(subs: Subs, conn: Conn, diff: seq<Resource>, key: string)
    ensures At(StoreAll(subs, conn, diff), key) == At(subs, key) + if Has(diff, key, Subscribe) then {conn} else {}
    decreases |diff|
  {
    if diff != [] {
      var init, r := diff[..|diff| - 1], diff[|diff| - 1];
      assert diff == init + [r];
      StoreEffect(subs, conn, init, key);
      HasSnoc(init, r, key, Subscribe);
    }
  }

  lemma {:induction false} SentAreRequests(subs: Subs, conn: Conn, rs: seq<Resource>)
    ensures forall r | r in SentOf(subs, conn, rs) :: r in rs && (r.action == Subscribe || r.action == UnSubscribe)
    decreases |rs|
  {
    if rs != [] { SentAreRequests(subs, conn, rs[..|rs| - 1]); }
  }

  /** The connections on a key after an update. */
  lemma {:induction false} UpdateEffect(s: Sys, conn: Conn, rs: seq<Resource>, call: Call, key: string)
    ensures var before := At(s.subs, key);
            && (Update(s, conn, rs, call).hub.Some? <==> s.hub.Some?)
            && At(Update(s, conn, rs, call).subs, key)
               == (if Has(rs, key, UnSubscribe) then before - {conn} else before)
                  + (if s.hub.Some? && call.Answered? && SubscribesAnew(conn in before, rs, key) then {conn} else {})
  {
    var sent := SentOf(s.subs, conn, rs);
    PrepareEffect(s.subs, conn, rs, key);
    StoreEffect(PrepareAll(s.subs, conn, rs), conn, sent, key);
    if sent == [] { assert !Has(sent, key, Subscribe); }
  }

  /** A closing connection leaves every key, whatever becomes of its call; a recovery changes no key. Without a
      node at the hub neither changes more. */
  lemma OthersLeaveKeys(s: Sys, conn: Conn, call: Call, applied: set<Conn>, key: string)
    ensures At(Remove(s, conn, call).subs, key) == At(s.subs, key) - {conn}
    ensures Recover(s, applied).subs == s.subs
    ensures s.hub.None? ==> Remove(s, conn, call).hub.None? && Recover(s, applied) == s
  {
  }

  /** A subscription of the bot is sent, of whatever type. */
  ghost predicate Announces(subs: Subs, conn: Conn, rs: seq<Resource>, botId: string) {
    exists r :: r in rs && r.botId == botId && SubscribesAnew(conn in At(subs, KeyOf(r)), rs, KeyOf(r))
  }

  /** An unsubscription of the bot is sent, of whatever type. */
  ghost predicate Renounces(subs: Subs, conn: Conn, rs: seq<Resource>, botId: string) {
    exists r :: r in rs && r.botId == botId && r.action == UnSubscribe && At(subs, KeyOf(r)) <= {conn}
  }

  lemma SentBots(subs: Subs, conn: Conn, rs: seq<Resource>, botId: string)
    ensures botId in BotsOf(SentOf(subs, conn, rs), Subscribe) <==> Announces(subs, conn, rs, botId)
    ensures botId in BotsOf(SentOf(subs, conn, rs), UnSubscribe) <==> Renounces(subs, conn, rs, botId)
  {
    var sent := SentOf(subs, conn, rs);
    SentAreRequests(subs, conn, rs);
    forall r | r in rs && r.botId == botId
      ensures Has(sent, KeyOf(r), Subscribe) <==> SubscribesAnew(conn in At(subs, KeyOf(r)), rs, KeyOf(r))
      ensures Has(sent, KeyOf(r), UnSubscribe) <==> Has(rs, KeyOf(r), UnSubscribe) && At(subs, KeyOf(r)) <= {conn}
      ensures forall action :: Has(sent, KeyOf(r), action) ==> botId in BotsOf(sent, action)
    {
      PrepareEffect(subs, conn, rs, KeyOf(r));
      forall q | q in sent && KeyOf(q) == KeyOf(r) ensures q.botId == botId {
        KeyInjective(q.botId, q.resourceType, r.botId, r.resourceType);
      }
    }
    assert forall r | r in sent :: Has(sent, KeyOf(r), r.action);
  }

  /** The bots that the hub forwards after an update. */
  lemma {:induction false} HubEffect(s: Sys, conn: Conn, rs: seq<Resource>, call: Call, botId: string)
    requires s.hub.Some?
    ensures Update(s, conn, rs, call).hub.Some?
    ensures botId in Update(s, conn, rs, call).hub.value <==>
              if call.NotApplied? then botId in s.hub.value
              else Announces(s.subs, conn, rs, botId) || (botId in s.hub.value && !Renounces(s.subs, conn, rs, botId))
  {
    SentBots(s.subs, conn, rs, botId);
  }

  // ---- one resource type -------------------------------------------------------------

  /** Only messages are subscribed to. */
  ghost predicate MessageOnly(rs: seq<Resource>) {
    forall r | r in rs :: r.resourceType == MESSAGE
  }

  ghost predicate MessageKeys(subs: Subs) {
    forall key | key in subs :: exists botId :: key == SubKey(botId, MESSAGE)
  }

  /** With messages only, what is sent for a bot is what is sent for its one key. */
  lemma MessagesSent(subs: Subs, conn: Conn, rs: seq<Resource>, botId: string)
    requires MessageOnly(rs)
    ensures var key := SubKey(botId, MESSAGE);
            && (Announces(subs, conn, rs, botId) <==> SubscribesAnew(conn in At(subs, key), rs, key))
            && (Renounces(subs, conn, rs, botId) <==> Has(rs, key, UnSubscribe) && At(subs, key) <= {conn})
  {
    var key := SubKey(botId, MESSAGE);
    forall r | r in rs && KeyOf(r) == key ensures r.botId == botId {
      KeyInjective(r.botId, r.resourceType, botId, MESSAGE);
    }
  }

  // ---- safety: no subscriber misses a message ----------------------------------------

  /** The hub forwards every bot that has a subscriber. */
  ghost predicate Covered(s: Sys) {
    && MessageKeys(s.subs) && s.hub.Some?
    && forall botId :: Subscribers(s, botId) != {} ==> botId in s.hub.value
  }

  lemma {:induction false} PreparedKeys(subs: Subs, conn: Conn, rs: seq<Resource>)
    ensures PrepareAll(subs, conn, rs).Keys <= subs.Keys + set r | r in rs :: KeyOf(r)
    decreases |rs|
  {
    if rs != [] { PreparedKeys(subs, conn, rs[..|rs| - 1]); }
  }

  lemma {:induction false} StoredKeys(subs: Subs, conn: Conn, diff: seq<Resource>)
    ensures StoreAll(subs, conn, diff).Keys <= subs.Keys + set r | r in diff :: KeyOf(r)
    decreases |diff|
  {
    if diff != [] { StoredKeys(subs, conn, diff[..|diff| - 1]); }
  }

  /** An update touches no keys but those of its requests. */
  lemma UpdateKeys(s: Sys, conn: Conn, rs: seq<Resource>, call: Call)
    ensures Update(s, conn, rs, call).subs.Keys <= s.subs.Keys + set r | r in rs :: KeyOf(r)
  {
    PreparedKeys(s.subs, conn, rs);
    SentAreRequests(s.subs, conn, rs);
    StoredKeys(PrepareAll(s.subs, conn, rs), conn, SentOf(s.subs, conn, rs));
  }

  lemma {:induction false} UpdateKeepsCovered(s: Sys, conn: Conn, rs: seq<Resource>, call: Call)
    requires Covered(s) && MessageOnly(rs)
    ensures Covered(Update(s, conn, rs, call))
  {
    UpdateKeys(s, conn, rs, call);
    var s' := Update(s, conn, rs, call);
    HubEffect(s, conn, rs, call, "");
    forall botId ensures Subscribers(s', botId) != {} ==> botId in s'.hub.value {
      UpdateEffect(s, conn, rs, call, SubKey(botId, MESSAGE));
      HubEffect(s, conn, rs, call, botId);
      MessagesSent(s.subs, conn, rs, botId);
    }
  }

  /** A closing connection leaves; the hub loses only bots whose last subscriber it was. */
  lemma RemoveEffect(s: Sys, conn: Conn, call: Call, botId: string)
    requires MessageKeys(s.subs) && s.hub.Some?
    ensures var s' := Remove(s, conn, call);
            && s'.hub.Some? && Subscribers(s', botId) == Subscribers(s, botId) - {conn}
            && (botId in s'.hub.value ==> botId in s.hub.value)
            && (botId in s.hub.value && botId !in s'.hub.value ==> Subscribers(s, botId) == {conn})
  {
    var key := SubKey(botId, MESSAGE);
    forall k | k in LastKeys(s.subs, conn) && ParseSubKey(k).Some? && ParseSubKey(k).value.0 == botId ensures k == key {
      var b :| k == SubKey(b, MESSAGE);
      KeyRoundTrip(b, MESSAGE);
    }
  }

  lemma {:induction false} RemoveKeepsCovered(s: Sys, conn: Conn, call: Call)
    requires Covered(s)
    ensures Covered(Remove(s, conn, call))
  {
    forall botId ensures Subscribers(Remove(s, conn, call), botId) != {} ==> botId in Remove(s, conn, call).hub.value {
      RemoveEffect(s, conn, call, botId);
    }
  }

  ghost predicate StepAllowed(step: Step) {
    !step.NodeDropped? && (step.UpdateCall? ==> MessageOnly(step.rs))
  }

  function Run(s: Sys, steps: seq<Step>): Sys
    decreases |steps|
  {
    if steps == [] then s else Next(Run(s, steps[..|steps| - 1]), steps[|steps| - 1])
  }

  /** Over every run of message subscriptions with the node kept, whatever calls fail and
      however: each bot with a subscriber is in SubBots, so a message event of a bot reaches
      exactly the connections subscribed to it. */
  lemma {:induction false} DeliverySafe(s: Sys, steps: seq<Step>)
    requires Covered(s) && forall step | step in steps :: StepAllowed(step)
    ensures Covered(Run(s, steps))
    ensures forall botId :: Receivers(Run(s, steps), botId) == Subscribers(Run(s, steps), botId)
    decreases |steps|
  {
    if steps != [] {
      var before, step := Run(s, steps[..|steps| - 1]), steps[|steps| - 1];
      DeliverySafe(s, steps[..|steps| - 1]);
      assert step in steps && StepAllowed(step);
      match step {
        case UpdateCall(conn, rs, call) => UpdateKeepsCovered(before, conn, rs, call);
        case RemoveCall(conn, call) => RemoveKeepsCovered(before, conn, call);
        case RecoverCalls(applied) => assert before.hub.value <= Recover(before, applied).hub.value;
        case NodeRegistered =>
      }
    }
  }

  // ---- exact agreement when calls are answered ---------------------------------------

  /** The hub forwards exactly the bots that have a subscriber. */
  ghost predicate Agree(s: Sys) {
    s.hub.Some? && forall botId :: botId in s.hub.value <==> Subscribers(s, botId) != {}
  }

  /** For any list of message requests, repeats and contrary requests included, though only
      differences are sent and the hub takes unsubscriptions first. */
  lemma {:induction false} UpdateKeepsAgree(s: Sys, conn: Conn, rs: seq<Resource>)
    requires Agree(s) && MessageOnly(rs)
    ensures Agree(Update(s, conn, rs, Answered))
  {
    var s' := Update(s, conn, rs, Answered);
    HubEffect(s, conn, rs, Answered, "");
    forall botId ensures botId in s'.hub.value <==> Subscribers(s', botId) != {} {
      UpdateEffect(s, conn, rs, Answered, SubKey(botId, MESSAGE));
      HubEffect(s, conn, rs, Answered, botId);
      MessagesSent(s.subs, conn, rs, botId);
    }
  }

  /** No bot whose last subscriber the connection is has SEP in its id. */
  ghost predicate LastsParse(s: Sys, conn: Conn) {
    forall botId :: Subscribers(s, botId) == {conn} ==> !Contains(botId, SEP)
  }

  lemma LastKeysParse(s: Sys, conn: Conn)
    requires MessageKeys(s.subs)
    ensures LastsParse(s, conn) <==> forall key | key in LastKeys(s.subs, conn) :: ParseSubKey(key).Some?
  {
    forall key | key in LastKeys(s.subs, conn)
      ensures exists botId :: key == SubKey(botId, MESSAGE) && Subscribers(s, botId) == {conn}
                              && (ParseSubKey(key).Some? <==> !Contains(botId, SEP))
    {
      var b :| key == SubKey(b, MESSAGE);
      KeyRoundTrip(b, MESSAGE);
    }
    forall botId | Subscribers(s, botId) == {conn}
      ensures SubKey(botId, MESSAGE) in LastKeys(s.subs, conn)
              && (ParseSubKey(SubKey(botId, MESSAGE)).Some? <==> !Contains(botId, SEP))
    {
      KeyRoundTrip(botId, MESSAGE);
    }
  }

  lemma RemoveLast(s: Sys, conn: Conn, botId: string)
    requires s.hub.Some? && MessageKeys(s.subs) && LastsParse(s, conn) && Subscribers(s, botId) == {conn}
    ensures botId !in Remove(s, conn, Answered).hub.value
  {
    LastKeysParse(s, conn);
    assert SubKey(botId, MESSAGE) in LastKeys(s.subs, conn);
    KeyRoundTrip(botId, MESSAGE);
  }

  /** A closing connection keeps the agreement exactly if its last keys all parse: otherwise it stops
      before the call, and the hub goes on forwarding bots that nobody is subscribed to. */
  lemma {:induction false} RemoveAgreesIff(s: Sys, conn: Conn)
    requires Agree(s) && MessageKeys(s.subs)
    ensures Agree(Remove(s, conn, Answered)) <==> LastsParse(s, conn)
    ensures MessageKeys(Remove(s, conn, Answered).subs)
  {
    var s' := Remove(s, conn, Answered);
    LastKeysParse(s, conn);
    if LastsParse(s, conn) {
      forall botId ensures botId in s'.hub.value <==> Subscribers(s', botId) != {} {
        RemoveEffect(s, conn, Answered, botId);
        if Subscribers(s, botId) == {conn} { RemoveLast(s, conn, botId); }
      }
    } else {
      var botId :| Subscribers(s, botId) == {conn} && Contains(botId, SEP);
      RemoveEffect(s, conn, Answered, botId);
      assert s'.hub == s.hub && botId in s.hub.value;
    }
  }

  ghost predicate StepAnswered(step: Step) {
    match step
    case UpdateCall(_, rs, call) => call.Answered? && MessageOnly(rs)
    case RemoveCall(_, call) => call.Answered?
    case RecoverCalls(_) => true
    case NodeDropped => false
    case NodeRegistered => true
  }

  /** No removal of the run meets a last key that does not parse. */
  ghost predicate RemovalsParse(s: Sys, steps: seq<Step>) {
    forall n | 0 <= n < |steps| && steps[n].RemoveCall? :: LastsParse(Run(s, steps[..n]), steps[n].conn)
  }

  /** The bots a connection's recovery call names are those it is subscribed to and whose keys parse. */
  lemma BotsOfConnAre(s: Sys, conn: Conn, botId: string)
    requires MessageKeys(s.subs)
    ensures botId in BotsOfConn(s.subs, conn) <==> conn in Subscribers(s, botId) && !Contains(botId, SEP)
  {
    KeyRoundTrip(botId, MESSAGE);
    if botId in BotsOfConn(s.subs, conn) {
      var k :| k in s.subs && conn in s.subs[k] && ParseSubKey(k).Some? && ParseSubKey(k).value.0 == botId;
      var b :| k == SubKey(b, MESSAGE);
      KeyRoundTrip(b, MESSAGE);
    }
  }

  /** Some subscriber of the bot is among the connections, and the bot's key parses. */
  ghost predicate Reached(s: Sys, conns: set<Conn>, botId: string) {
    !Contains(botId, SEP) && exists conn :: conn in conns && conn in Subscribers(s, botId)
  }

  lemma {:induction false} RecoverBots(s: Sys, applied: set<Conn>, botId: string)
    requires MessageKeys(s.subs) && s.hub.Some?
    ensures botId in Recover(s, applied).hub.value <==>
              botId in s.hub.value || Reached(s, applied, botId)
  {
    forall conn: Conn
      ensures botId in BotsOfConn(s.subs, conn) <==> conn in Subscribers(s, botId) && !Contains(botId, SEP)
    {
      BotsOfConnAre(s, conn, botId);
    }
  }

  /** As long as the calls are answered and the keys parse, the hub and the server agree exactly. */
  lemma {:induction false} AgreementKept(s: Sys, steps: seq<Step>)
    requires Agree(s) && MessageKeys(s.subs) && forall step | step in steps :: StepAnswered(step)
    requires RemovalsParse(s, steps)
    ensures Agree(Run(s, steps)) && MessageKeys(Run(s, steps).subs)
    decreases |steps|
  {
    if steps != [] {
      var init, step := steps[..|steps| - 1], steps[|steps| - 1];
      var before := Run(s, init);
      assert forall n | 0 <= n < |init| :: steps[..n] == init[..n];
      AgreementKept(s, init);
      assert step in steps && StepAnswered(step);
      match step {
        case UpdateCall(conn, rs, call) =>
          UpdateKeepsAgree(before, conn, rs);
          UpdateKeys(before, conn, rs, call);
        case RemoveCall(conn, call) =>
          RemoveAgreesIff(before, conn);
        case RecoverCalls(applied) =>
          forall botId ensures botId in Recover(before, applied).hub.value <==> Subscribers(before, botId) != {} {
            RecoverBots(before, applied, botId);
          }
        case NodeRegistered =>
      }
    }
  }

  // ---- recovery ----------------------------------------------------------------------

  /** After the node was dropped and registered anew, one recovery gives the hub the union of
      the bots of the connections whose calls went through: exact agreement if and only if
      that leaves no bot with subscribers out. */
  lemma RecoveryResult(s: Sys, applied: set<Conn>)
    requires MessageKeys(s.subs)
    ensures var s' := Recover(Next(Next(s, NodeDropped), NodeRegistered), applied);
            && s'.subs == s.subs && s'.hub.Some?
            && (forall botId :: botId in s'.hub.value <==> Reached(s, applied, botId))
            && (Agree(s') <==> forall botId :: Subscribers(s, botId) != {} ==> Reached(s, applied, botId))
  {
    var anew := Next(Next(s, NodeDropped), NodeRegistered);
    var s' := Recover(anew, applied);
    forall botId ensures (botId in s'.hub.value <==> Reached(s, applied, botId))
                         && (Reached(s, applied, botId) ==> Subscribers(s, botId) != {})
                         && Subscribers(s', botId) == Subscribers(s, botId) {
      RecoverBots(anew, applied, botId);
      assert Subscribers(anew, botId) == Subscribers(s, botId);
    }
  }

  /** When a bot that recovery left out comes back: an update brings it back exactly if the call is
      applied and the list subscribes anew, from where the server has the connection. */
  lemma {:induction false} BackAtHubIff(s: Sys, conn: Conn, rs: seq<Resource>, call: Call, botId: string)
    requires MessageOnly(rs) && s.hub.Some? && botId !in s.hub.value
    ensures botId in Update(s, conn, rs, call).hub.value <==>
              !call.NotApplied? && SubscribesAnew(conn in Subscribers(s, botId), rs, SubKey(botId, MESSAGE))
  {
    HubEffect(s, conn, rs, call, botId);
    MessagesSent(s.subs, conn, rs, botId);
  }

  /** So it stays out however its subscribers ask for it again without unsubscribing first. */
  lemma {:induction false} LostStaysLost(s: Sys, conn: Conn, rs: seq<Resource>, call: Call, botId: string)
    requires MessageOnly(rs) && s.hub.Some? && botId !in s.hub.value && conn in Subscribers(s, botId)
    requires !Has(rs, SubKey(botId, MESSAGE), UnSubscribe)
    ensures botId !in Update(s, conn, rs, call).hub.value && conn in Subscribers(Update(s, conn, rs, call), botId)
    ensures Receivers(Update(s, conn, rs, call), botId) == {}
  {
    var key := SubKey(botId, MESSAGE);
    BackAtHubIff(s, conn, rs, call, botId);
    UpdateEffect(s, conn, rs, call, key);
    assert forall i | 0 <= i < |rs| :: Has(rs[..i], key, UnSubscribe) ==> Has(rs, key, UnSubscribe);
  }

  // ---- what a request list means -----------------------------------------------------

  /** The connection is subscribed to the key after the list, if each request counts in order. */
  function Wanted(subscribed: bool, rs: seq<Resource>, key: string): bool
    decreases |rs|
  {
    if rs == [] then subscribed
    else
      var r := rs[|rs| - 1];
      if KeyOf(r) == key && r.action == Subscribe then true
      else if KeyOf(r) == key && r.action == UnSubscribe then false
      else Wanted(subscribed, rs[..|rs| - 1], key)
  }

  lemma {:induction false} WantedOrAnew(subscribed: bool, rs: seq<Resource>, key: string)
    ensures if Wanted(subscribed, rs, key)
            then (subscribed && !Has(rs, key, UnSubscribe)) || SubscribesAnew(subscribed, rs, key)
            else !subscribed || Has(rs, key, UnSubscribe)
    decreases |rs|
  {
    if rs != [] {
      var init, r := rs[..|rs| - 1], rs[|rs| - 1];
      assert rs == init + [r];
      WantedOrAnew(subscribed, init, key);
      HasSnoc(init, r, key, UnSubscribe);
      SubscribesAnewSnoc(subscribed, init, r, key);
    }
  }

  /** After an answered update the connection is subscribed as the list asks, each request counting in
      order, exactly if the list does not subscribe anew to a key that it leaves unsubscribed: then
      the later unsubscription is lost. */
  lemma ListHonoured(s: Sys, conn: Conn, rs: seq<Resource>, key: string)
    requires s.hub.Some?
    ensures var subscribed := conn in At(s.subs, key);
            var wanted := Wanted(subscribed, rs, key);
            var result := conn in At(Update(s, conn, rs, Answered).subs, key);
            result == wanted <==> (SubscribesAnew(subscribed, rs, key) ==> wanted)
  {
    WantedOrAnew(conn in At(s.subs, key), rs, key);
    UpdateEffect(s, conn, rs, Answered, key);
  }

  /** The shortest list that is not honoured: subscribe, then unsubscribe. */
  lemma UnsubscriptionLost(conn: Conn, botId: string)
    ensures var rs := [Resource(botId, MESSAGE, Subscribe), Resource(botId, MESSAGE, UnSubscribe)];
            && !Wanted(false, rs, SubKey(botId, MESSAGE))
            && conn in Subscribers(Update(Sys(map[], Some({})), conn, rs, Answered), botId)
  {
    var rs := [Resource(botId, MESSAGE, Subscribe), Resource(botId, MESSAGE, UnSubscribe)];
    assert rs[0].action == Subscribe && KeyOf(rs[0]) == SubKey(botId, MESSAGE);
    assert rs[..1] == [rs[0]];
    ListHonoured(Sys(map[], Some({})), conn, rs, SubKey(botId, MESSAGE));
  }

  // ---- two resource types ------------------------------------------------------------

  lemma BotsOfOne(r: Resource)
    ensures forall action :: BotsOf([r], action) == if r.action == action then {r.botId} else {}
  {
  }

  lemma PrepareOne(subs: Subs, conn: Conn, r: Resource)
    ensures PrepareAll(subs, conn, [r]) == Prepare(subs, conn, r)
    ensures SentOf(subs, conn, [r]) == if IsSent(subs, conn, r) then [r] else []
  {
    assert [r][..0] == [];
    assert PrepareAll(subs, conn, []) == subs && SentOf(subs, conn, []) == [];
  }

  function Stored(subs: Subs, conn: Conn, key: string, action: Action): Subs {
    subs[key := if action == Subscribe then At(subs, key) + {conn} else At(subs, key)]
  }

  lemma StoreOne(subs: Subs, conn: Conn, r: Resource)
    ensures StoreAll(subs, conn, [r]) == Stored(subs, conn, KeyOf(r), r.action)
  {
    assert [r][..0] == [];
    assert StoreAll(subs, conn, []) == subs;
  }

  lemma ControlOne(bots: set<string>, r: Resource)
    requires r.action != OtherAction
    ensures Control(bots, [r]) == if r.action == Subscribe then bots + {r.botId} else bots - {r.botId}
  {
    BotsOfOne(r);
  }

  /** An update that sends its one request. */
  lemma UpdateOne(s: Sys, conn: Conn, r: Resource)
    requires s.hub.Some? && IsSent(s.subs, conn, r)
    ensures Update(s, conn, [r], Answered)
            == Sys(Stored(Prepare(s.subs, conn, r), conn, KeyOf(r), r.action),
                   Some(if r.action == Subscribe then s.hub.value + {r.botId} else s.hub.value - {r.botId}))
  {
    PrepareOne(s.subs, conn, r);
    StoreOne(Prepare(s.subs, conn, r), conn, r);
    ControlOne(s.hub.value, r);
  }

  // ---- mixed resource types ----------------------------------------------------------

  /** SubBots does not record the resource type. An update that the hub applied leaves a bot's message
      subscribers without messages exactly if it unsubscribes the last connection of some type from
      the bot, subscribes none anew, and does not take the last message subscriber away itself. */
  lemma {:induction false} MessagesCutOffIff(s: Sys, conn: Conn, rs: seq<Resource>, call: Call, botId: string)
    requires s.hub.Some? && botId in s.hub.value && !call.NotApplied?
    ensures var s', key := Update(s, conn, rs, call), SubKey(botId, MESSAGE);
            s'.hub.Some? &&
            (Subscribers(s', botId) != {} && botId !in s'.hub.value <==>
               && Renounces(s.subs, conn, rs, botId) && !Announces(s.subs, conn, rs, botId)
               && Subscribers(s, botId) != {}
               && !(Has(rs, key, UnSubscribe) && Subscribers(s, botId) <= {conn}))
  {
    var key := SubKey(botId, MESSAGE);
    HubEffect(s, conn, rs, call, botId);
    UpdateEffect(s, conn, rs, call, key);
    if SubscribesAnew(conn in At(s.subs, key), rs, key) {
      var i :| 0 <= i < |rs| && KeyOf(rs[i]) == key && rs[i].action == Subscribe;
      KeyInjective(rs[i].botId, rs[i].resourceType, botId, MESSAGE);
      assert rs[i] in rs;
    }
  }

  /** A connection subscribes to such a bot and closes: the bot has no subscriber and is forwarded. */
  lemma UnparsedStaysForwarded(conn: Conn, botId: string)
    requires Contains(botId, SEP)
    ensures var s1 := Update(Sys(map[], Some({})), conn, [Resource(botId, MESSAGE, Subscribe)], Answered);
            var s2 := Remove(s1, conn, Answered);
            s2.hub == Some({botId}) && Subscribers(s2, botId) == {}
  {
    var s0 := Sys(map[], Some({}));
    var key := SubKey(botId, MESSAGE);
    UpdateOne(s0, conn, Resource(botId, MESSAGE, Subscribe));
    var s1 := Update(s0, conn, [Resource(botId, MESSAGE, Subscribe)], Answered);
    KeyRoundTrip(botId, MESSAGE);
    assert s1.hub.value == {botId} && At(s1.subs, key) == {conn};
    assert key in LastKeys(s1.subs, conn) && ParseSubKey(key).None?;
    assert At(Remove(s1, conn, Answered).subs, key) == {conn} - {conn} == {};
  }

  /** The keys of the table are those of resources, of whatever type. */
  ghost predicate ResourceKeys(subs: Subs) {
    forall key | key in subs :: exists r: Resource :: key == KeyOf(r)
  }

  /** The connection is the only one subscribed to some type of the bot. */
  ghost predicate LastOfSomeType(s: Sys, conn: Conn, botId: string) {
    exists t: int32 :: At(s.subs, SubKey(botId, t)) == {conn}
  }

  /** All keys that the connection is alone on parse. */
  predicate AllParse(s: Sys, conn: Conn) {
    forall key | key in LastKeys(s.subs, conn) :: ParseSubKey(key).Some?
  }

  /** The bots that the hub stops forwarding when a connection closes. */
  lemma {:induction false} RemovedBots(s: Sys, conn: Conn, call: Call, botId: string)
    requires ResourceKeys(s.subs) && s.hub.Some?
    ensures Remove(s, conn, call).hub.Some?
    ensures botId in Remove(s, conn, call).hub.value <==>
              && botId in s.hub.value
              && !(!call.NotApplied? && AllParse(s, conn) && !Contains(botId, SEP) && LastOfSomeType(s, conn, botId))
  {
    forall t: int32 | At(s.subs, SubKey(botId, t)) == {conn}
      ensures SubKey(botId, t) in LastKeys(s.subs, conn)
              && ParseSubKey(SubKey(botId, t)) == if Contains(botId, SEP) then None else Some((botId, t))
    {
      KeyRoundTrip(botId, t);
    }
    forall key | key in LastKeys(s.subs, conn) && ParseSubKey(key).Some? && ParseSubKey(key).value.0 == botId
      ensures !Contains(botId, SEP) && LastOfSomeType(s, conn, botId)
    {
      var r :| key == KeyOf(r);
      KeyRoundTrip(r.botId, r.resourceType);
      assert At(s.subs, SubKey(botId, r.resourceType)) == {conn};
    }
  }

  /** A closing connection cuts the bot's message subscribers off exactly if its call is applied, which
      needs all its last keys to parse, and it was the last one on some type of the bot, while others are
      subscribed to its messages. */
  lemma {:induction false} CloseCutsOffIff(s: Sys, conn: Conn, call: Call, botId: string)
    requires ResourceKeys(s.subs) && s.hub.Some? && botId in s.hub.value
    ensures var s' := Remove(s, conn, call);
            s'.hub.Some? &&
            (Subscribers(s', botId) != {} && botId !in s'.hub.value <==>
               && !call.NotApplied? && AllParse(s, conn) && !Contains(botId, SEP) && LastOfSomeType(s, conn, botId)
               && Subscribers(s, botId) - {conn} != {})
  {
    RemovedBots(s, conn, call, botId);
    assert Subscribers(Remove(s, conn, call), botId) == Subscribers(s, botId) - {conn};
  }

  /** Every subscriber of the bot's messages gets them. */
  predicate Delivered(s: Sys, botId: string) {
    Receivers(s, botId) == Subscribers(s, botId)
  }

  /** The step takes the bot's messages from connections that stay subscribed to them. */
  ghost predicate CutsOff(s: Sys, step: Step, botId: string) {
    match step
    case UpdateCall(conn, rs, call) =>
      && !call.NotApplied? && Renounces(s.subs, conn, rs, botId) && !Announces(s.subs, conn, rs, botId)
      && Subscribers(s, botId) != {}
      && !(Has(rs, SubKey(botId, MESSAGE), UnSubscribe) && Subscribers(s, botId) <= {conn})
    case RemoveCall(conn, call) =>
      && !call.NotApplied? && AllParse(s, conn) && !Contains(botId, SEP) && LastOfSomeType(s, conn, botId)
      && Subscribers(s, botId) - {conn} != {}
    case _ => false
  }

  lemma {:induction false} FirstSubscriber(s: Sys, conn: Conn, rs: seq<Resource>, call: Call, botId: string)
    requires s.hub.Some? && botId !in s.hub.value && Subscribers(s, botId) == {}
    ensures Delivered(Update(s, conn, rs, call), botId)
  {
    var key := SubKey(botId, MESSAGE);
    HubEffect(s, conn, rs, call, botId);
    UpdateEffect(s, conn, rs, call, key);
    if i :| 0 <= i < |rs| && KeyOf(rs[i]) == key && rs[i].action == Subscribe {
      KeyInjective(rs[i].botId, rs[i].resourceType, botId, MESSAGE);
      assert rs[i] in rs;
    }
  }

  lemma {:induction false} UpdateCutsOffIff(s: Sys, conn: Conn, rs: seq<Resource>, call: Call, botId: string)
    requires s.hub.Some? && Delivered(s, botId)
    ensures Delivered(Update(s, conn, rs, call), botId) <==> !CutsOff(s, UpdateCall(conn, rs, call), botId)
  {
    if botId !in s.hub.value {
      FirstSubscriber(s, conn, rs, call, botId);
    } else if call.NotApplied? {
      HubEffect(s, conn, rs, call, botId);
    } else {
      MessagesCutOffIff(s, conn, rs, call, botId);
    }
  }

  /** A step keeps the table's keys those of resources, and the node. */
  lemma {:induction false} StepKeepsKeys(s: Sys, step: Step)
    requires ResourceKeys(s.subs) && s.hub.Some? && !step.NodeDropped?
    ensures ResourceKeys(Next(s, step).subs) && Next(s, step).hub.Some?
  {
    if step.UpdateCall? {
      UpdateKeys(s, step.conn, step.rs, step.call);
      HubEffect(s, step.conn, step.rs, step.call, "");
    }
  }

  /** In a state where all is delivered, it still is after a step exactly if the step cuts nobody off. */
  lemma {:induction false} CutsOffIff(s: Sys, step: Step, botId: string)
    requires ResourceKeys(s.subs) && s.hub.Some? && !step.NodeDropped? && Delivered(s, botId)
    ensures Delivered(Next(s, step), botId) <==> !CutsOff(s, step, botId)
  {
    match step
    case UpdateCall(conn, rs, call) => UpdateCutsOffIff(s, conn, rs, call, botId);
    case RemoveCall(conn, call) =>
      RemovedBots(s, conn, call, botId);
      assert Subscribers(Remove(s, conn, call), botId) == Subscribers(s, botId) - {conn};
    case RecoverCalls(applied) =>
    case NodeRegistered =>
  }

  lemma {:induction false} RunKeepsKeys(s: Sys, steps: seq<Step>)
    requires ResourceKeys(s.subs) && s.hub.Some? && forall step | step in steps :: !step.NodeDropped?
    ensures ResourceKeys(Run(s, steps).subs) && Run(s, steps).hub.Some?
    decreases |steps|
  {
    if steps != [] {
      var init, step := steps[..|steps| - 1], steps[|steps| - 1];
      RunKeepsKeys(s, init);
      StepKeepsKeys(Run(s, init), step);
    }
  }

  /** One more step of a run in which all was delivered so far. */
  lemma {:induction false} DeliveredNext(s: Sys, steps: seq<Step>, botId: string, n: nat)
    requires ResourceKeys(s.subs) && s.hub.Some? && forall step | step in steps :: !step.NodeDropped?
    requires n < |steps| && Delivered(Run(s, steps[..n]), botId)
    ensures Delivered(Run(s, steps[..n + 1]), botId) <==> !CutsOff(Run(s, steps[..n]), steps[n], botId)
  {
    hide ResourceKeys, Delivered, CutsOff;
    assert steps[..n + 1][..n] == steps[..n];
    RunKeepsKeys(s, steps[..n]);
    CutsOffIff(Run(s, steps[..n]), steps[n], botId);
  }

  lemma {:induction false} DeliveredUpTo(s: Sys, steps: seq<Step>, botId: string, n: nat)
    requires ResourceKeys(s.subs) && s.hub.Some? && Delivered(s, botId)
    requires forall step | step in steps :: !step.NodeDropped?
    requires n <= |steps| && forall m | 0 <= m < n :: !CutsOff(Run(s, steps[..m]), steps[m], botId)
    ensures Delivered(Run(s, steps[..n]), botId)
  {
    hide ResourceKeys, Delivered, CutsOff;
    if n > 0 {
      DeliveredUpTo(s, steps, botId, n - 1);
      DeliveredNext(s, steps, botId, n - 1);
    }
  }

  /** Over every run of subscriptions of any types with the node kept: every subscriber of a bot's messages
      gets them all along exactly if no step of the run cuts some off. */
  lemma {:induction false} DeliveredIff(s: Sys, steps: seq<Step>, botId: string)
    requires ResourceKeys(s.subs) && s.hub.Some? && Delivered(s, botId)
    requires forall step | step in steps :: !step.NodeDropped?
    ensures (forall n | 0 <= n <= |steps| :: Delivered(Run(s, steps[..n]), botId)) <==>
              (forall n | 0 <= n < |steps| :: !CutsOff(Run(s, steps[..n]), steps[n], botId))
  {
    hide ResourceKeys, Delivered, CutsOff, Run;
    if forall n | 0 <= n <= |steps| :: Delivered(Run(s, steps[..n]), botId) {
      forall n | 0 <= n < |steps| ensures !CutsOff(Run(s, steps[..n]), steps[n], botId) {
        DeliveredNext(s, steps, botId, n);
      }
    }
    if forall n | 0 <= n < |steps| :: !CutsOff(Run(s, steps[..n]), steps[n], botId) {
      forall n | 0 <= n <= |steps| ensures Delivered(Run(s, steps[..n]), botId) {
        DeliveredUpTo(s, steps, botId, n);
      }
    }
  }

  /** With messages and moments of one bot mixed, unsubscribing from the moments, all calls answered,
      cuts off the messages. */
  lemma MixedTypesLoseMessages(conn: Conn, botId: string)
    ensures var s1 := Update(Sys(map[], Some({})), conn, [Resource(botId, MESSAGE, Subscribe)], Answered);
            var s2 := Update(s1, conn, [Resource(botId, MOMENT, Subscribe)], Answered);
            var s3 := Update(s2, conn, [Resource(botId, MOMENT, UnSubscribe)], Answered);
            conn in Subscribers(s3, botId) && Receivers(s3, botId) == {}
  {
    var s0 := Sys(map[], Some({}));
    var s1 := Update(s0, conn, [Resource(botId, MESSAGE, Subscribe)], Answered);
    var s2 := Update(s1, conn, [Resource(botId, MOMENT, Subscribe)], Answered);
    var m, n := SubKey(botId, MESSAGE), SubKey(botId, MOMENT);
    assert m[|m| - 1] == '1' && n[|n| - 1] == '2';
    UpdateOne(s0, conn, Resource(botId, MESSAGE, Subscribe));
    UpdateOne(s1, conn, Resource(botId, MOMENT, Subscribe));
    assert At(s2.subs, n) == {conn};
    UpdateOne(s2, conn, Resource(botId, MOMENT, UnSubscribe));
  }

  lemma UpdateNew(s: Sys, conn: Conn, r: Resource)
    requires s.hub.Some? && r.action == Subscribe && KeyOf(r) !in s.subs
    ensures Update(s, conn, [r], Answered) == Sys(s.subs[KeyOf(r) := {conn}], Some(s.hub.value + {r.botId}))
  {
    UpdateOne(s, conn, r);
    var subs := Prepare(s.subs, conn, r);
    assert At(subs, KeyOf(r)) + {conn} == {conn};
    assert subs[KeyOf(r) := {conn}] == s.subs[KeyOf(r) := {conn}];
  }

  /** One connection subscribes to the messages of a bot, then another to its moments. */
  function TwoTypes(a: Conn, b: Conn, botId: string): Sys {
    Update(Update(Sys(map[], Some({})), a, [Resource(botId, MESSAGE, Subscribe)], Answered),
           b, [Resource(botId, MOMENT, Subscribe)], Answered)
  }

  lemma TwoTypesAre(a: Conn, b: Conn, botId: string)
    ensures SubKey(botId, MESSAGE) != SubKey(botId, MOMENT)
    ensures TwoTypes(a, b, botId)
            == Sys(map[SubKey(botId, MESSAGE) := {a}, SubKey(botId, MOMENT) := {b}], Some({botId}))
  {
    var s0 := Sys(map[], Some({}));
    var s1 := Update(s0, a, [Resource(botId, MESSAGE, Subscribe)], Answered);
    var m, n := SubKey(botId, MESSAGE), SubKey(botId, MOMENT);
    assert m[|m| - 1] == '1' && n[|n| - 1] == '2';
    UpdateNew(s0, a, Resource(botId, MESSAGE, Subscribe));
    assert s0.hub.value + {botId} == {botId} && s0.subs[m := {a}] == map[m := {a}];
    UpdateNew(s1, b, Resource(botId, MOMENT, Subscribe));
    assert s1.hub.value + {botId} == {botId};
  }

  /** When the second one closes, the first one gets no more messages. */
  lemma MomentsCloseLosesMessages(a: Conn, b: Conn, botId: string)
    requires a != b && !Contains(botId, SEP)
    ensures var s := Remove(TwoTypes(a, b, botId), b, Answered);
            Subscribers(s, botId) == {a} && Receivers(s, botId) == {}
  {
    hide TwoTypes, Contains;
    var s := TwoTypes(a, b, botId);
    TwoTypesAre(a, b, botId);
    KeyRoundTrip(botId, MOMENT);
    assert LastKeys(s.subs, b) == {SubKey(botId, MOMENT)};
    assert {a} - {b} == {a};
  }
}
