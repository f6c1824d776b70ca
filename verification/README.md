# Chat bot hub: verified models

This project models the algorithms and protocols of a chat-bot hub and proves what they are for.
The system has three servers: the *hub*, which holds the connected bots and their message filters;
the *web* server, which stores definitions and quotas and drives the hub; and the *streaming*
server, which passes bot messages on to websocket connections. `dafny verify dfyconfig.toml`
checks everything.

| part | files |
|---|---|
| Filter pipelines: building objects from stored rows, filling them, rebuilding a bot's | `JsonPath`, `Filters`, `FilterBuild`, `FilterGraph`, `Pipelines` |
| The hub's bots: registry, login, migration, logout | `BotRegistry`, `BotHub` |
| The subscription protocol between streaming server and hub | `SubKeys`, `Subscriptions`, `StreamingServer` |
| Forwarding and acknowledged requests | `AckTable`, `WsConnections` |
| Paging: contact synchronisation, message history | `OrderedQuery`, `ContactSync`, `History` |
| Search criteria compiled to SQL | `Criteria` |
| Quota of actions, quarantine of failing bots | `QuotaKeys`, `Quota`, `Quarantine`, `Failures` |
| Saving reported contacts in batches | `ChatUsers`, `Contacts` |
| Shared | `Strings`, `Sets`, `Wrappers` |

Two shapes recur. Where several parties act, the parts are a state machine over steps (`Step`,
`Run`), theorems speak of every run, and each step's outcome (a send fails, an answer is lost, an
error is returned) is part of the step. Where the code updates objects, classes have those fields,
and each method is proved to do exactly what the step, or a function of the old state, says. Go's
map iteration is an arbitrary choice of the next key, and so is the order in which a database
returns rows that tie.

Results that are less than the code's documentation or its callers suggest, each with the exact
condition under which the code does what is wanted, and an input that shows it does not otherwise:

- a subscribe followed by an unsubscribe of the same bot in one request list leaves the connection
  subscribed (`Subscriptions.ListHonoured`, `Subscriptions.UnsubscriptionLost`);
- a bot missed by a recovery stays missed until a subscriber unsubscribes or a connection that is not
  subscribed asks for it (`Subscriptions.BackAtHubIff`, `Subscriptions.LostStaysLost`);
- message and moment subscriptions of one bot are one entry at the hub, so dropping the one can end the
  other, by an update (`Subscriptions.MessagesCutOffIff`, `Subscriptions.MixedTypesLoseMessages`) or when
  a connection closes (`Subscriptions.CloseCutsOffIff`, `Subscriptions.MomentsCloseLosesMessages`), and
  in no other way (`Subscriptions.DeliveredIff`);
- a closing connection that is alone on a key that does not parse leaves its bots forwarded
  (`Subscriptions.RemoveAgreesIff`, `Subscriptions.UnparsedStaysForwarded`);
- a response and a timeout of one request can both call its callback (`AckTable.FiredOnce`,
  `AckTable.CalledTwice`), and a response handled before its callback is registered is lost
  (`AckTable.ResponseLostIff`, `AckTable.EarlyResponseLost`);
- a login whose bot cannot be staged has already thrown out the id's previous owner
  (`BotRegistry.OwnerLost`, `BotRegistry.OwnerLostReachable`);
- history pages lose messages of one time that straddle a multiple of the page size
  (`History.WalkBack` and `History.WalkForward` with the condition `History.Tiles`,
  `History.TiedLost`);
- a list under an operator other than `in` shifts the query's parameters (`Criteria.AlignedIff`,
  `Criteria.ListsElsewhereMisbind`);
- the quota admits limit + k, as the test is `>` and counting and recording are apart
  (`Quota.QuotaBound`, reached in every window: `Quota.ConfiguredSharp`);
- a colon in a login or action type makes one login's requests count against another's quota
  (`QuotaKeys.PatternIff`, `QuotaKeys.ForeignKeyMatches`), hides them from the failure rate
  (`QuotaKeys.KeyToArIdOfKey`, `Failures.ColonNeverMarks`, `Failures.ColonNeverMarksBot`), and a
  colon in a client type or id makes two bots share their failing actions
  (`Quarantine.ActionKeyIff`, `Quarantine.ActionKeyShared`);
- contacts of a second client type in a batch are not linked, or linked to another user's row
  (`Contacts.LinkedIsOwnIff`, `Contacts.OtherTypeLink`, `Contacts.MixedTypesMislink`).

## Model

| member | source | states |
|---|---|---|
| `JsonPath.FindByJsonPath` | server/chatbothub/filter.go:344-367 | the step loop over a dotted path is recursive lookup: the value reached if every step leads into an object, else nothing |
| `JsonPath.AtIff` | server/chatbothub/filter.go:344-367 | a value is found exactly if there is a chain of objects in which each field of the path leads to the next and the last to the value |
| `JsonPath.TextAtIff` | server/chatbothub/filter.go:445-452 | what a KVRouter matches for a dotted key is the text such a chain ends in, and the empty text if none does |
| `Filters.UnfoldsUnique` | server/chatbothub/filter.go:23-57 | a pipeline of objects means at most one tree, whatever set of objects it is read in |
| `Filters.Fill` | server/chatbothub/filter.go:86-341 | filling an object that unfolds to a tree terminates and delivers one of the outcomes the tree allows: who received which message, and whether an error is reported |
| `Filters.FillRegexRouter` | server/chatbothub/filter.go:315-341 | one matching branch is filled, any one; the default iff none matches; nothing at all without branches |
| `Filters.FillKVRouter` | server/chatbothub/filter.go:417-485 | every matching branch is filled even if some fail, the default iff none matched, an error is reported iff a filled branch failed |
| `Filters.FillMatching` | server/chatbothub/filter.go:441-474 | after the loop over the branches in any order, exactly the matching ones have one run each, deliveries and errors are summed over all, and the flag says whether there was one |
| `Filters.OneOutcome` | server/chatbothub/filter.go:315-485 | if no RegexRouter that the message reaches has two matching branches, deliveries (counted) and error are the same for every map order |
| `Filters.SomeOutcome` | server/chatbothub/filter.go:86-564 | every pipeline has an outcome for every message, so the allowed outcomes are never empty |
| `Filters.Delivered` | server/chatbothub/filter.go:86-564 | who receives what: a message can hop from filter to filter by rules written per type in the code's own tests; no outcome has more deliveries than there are paths of hops to them, and without a choice at a RegexRouter it has exactly as many, so each filter gets the message once for each way to it |
| `Filters.RoutesFollow` | server/chatbothub/filter.go:86-564 | the paths counted are exactly those that follow the hops one by one |
| `Filters.Reported` | server/chatbothub/filter.go:131-485 | an error is reported only if the message gets to a filter that cannot read it, and without such a choice whenever it does |
| `Filters.PicksOne` | server/chatbothub/filter.go:315-341 | a RegexRouter with several matching branches hands the message into one of them, with that branch's outcome |
| `Filters.UnambiguousIff` | server/chatbothub/filter.go:315-341 | when there is no choice: a RegexRouter has at most one branch that matches, and so on at the filters the message is handed to |
| `FilterBuild.MeaningUnique` | server/web/actions.go:80-190 | a stored filter definition, followed through next links and router bodies, means at most one tree |
| `FilterBuild.DescribedFilter` | server/chatbothub/filtermanage.go:29-102 | the filter a definition means has the row's id and name, the type that its type name stands for, the filter of the row's next behind it, and for a WebTrigger the url and method of the body |
| `FilterBuild.DescribedKVRouter` | server/web/actions.go:86-142 | a KVRouter has a branch exactly for each text under a key and an expression of its body, and on it the filter whose id is that text |
| `FilterBuild.DescribedRegexRouter` | server/web/actions.go:143-170 | a RegexRouter has a branch exactly for each text under an expression of its body, and on it the filter whose id is that text |
| `FilterBuild.DescribedWithout` | server/web/actions.go:80-86 | all other filters, and routers without an object for a body, have no branches |
| `FilterBuild.RefusedIff` | server/chatbothub/filtermanage.go:29-91 | a row is refused exactly for an unknown type name, a FluentFilter without the configured tag, a body that is not JSON, or a WebTrigger body without text for url and method |
| `FilterBuild.MeaningIff` | server/web/actions.go:38-200 | a definition means something exactly if its row can be built, every expression of a router compiles, and what is hung on its branches and its next mean something |
| `FilterGraph.AcyclicIffRanked` | server/web/actions.go:80-190 | the definitions that a filter leads to have a height (the measure CreateFilterChain ends by) exactly when no path of references from the filter comes back to one of its definitions |
| `FilterGraph.CycleHasNoMeaning` | server/web/actions.go:80-190 | a definition on a cycle means no finite tree |
| `FilterGraph.EndsIffAcyclic` | server/web/actions.go:38-200 | with every call accepted, the builder's loop with its nested calls ends within some number of turns exactly when the filter leads to no cycle |
| `FilterBuild.FilterRegistry.SetFilter` | server/chatbothub/filtermanage.go:11-16 | the registry entry is overwritten, the others stay |
| `FilterBuild.FilterRegistry.FilterCreate` | server/chatbothub/filtermanage.go:29-102 | accepted exactly for a known type with a decodable, complete body; then a fresh object with the row's fields, no next and no branches replaces the entry; refused, nothing changes |
| `FilterBuild.FilterRegistry.FilterNext` | server/chatbothub/filtermanage.go:129-154 | accepted iff both ids are registered; then only the first object's next changes, to the second object |
| `FilterBuild.FilterRegistry.RouterBranch` | server/chatbothub/filtermanage.go:156-189 | accepted iff both ids are registered, the first is a router and the tag compiles; then the tag maps to the second object; a tag that does not compile panics |
| `FilterBuild.CreateNode` | server/web/actions.go:53-170 | one filter that leads to no cycle: a fresh object is registered under its id, with exactly the branches its body names, each meaning what the rows say; refused only if the definition has no meaning; with no call lost it is not left unfinished |
| `FilterBuild.CreateKVBranches` | server/web/actions.go:86-142 | the branches hung on a KVRouter are exactly the text entries of its body's objects, in whatever order they are met; refused only if the definition has no meaning, and not left unfinished when no call is lost |
| `FilterBuild.CreateRegexBranches` | server/web/actions.go:143-170 | the branches hung on a RegexRouter are exactly the text entries of its body; refused only if the definition has no meaning, and not left unfinished when no call is lost |
| `FilterBuild.ChainUnfolds` | server/web/actions.go:44-52 | a finished chain of linked objects unfolds, from each of its filters on, to the stored definition |
| `FilterBuild.CreateFilterChain` | server/web/actions.go:38-200 | for a filter that leads to no cycle it ends; on success the object registered under the id unfolds to the tree the stored definition means, made of objects new in this run, shared filters included; it is refused or panics only if the definition has no meaning, so when no call or read is lost it succeeds exactly if there is a meaning; registry entries of filters outside its graph or higher in it stay, and no object older than the run is touched |
| `Pipelines.BotFilter` | server/chatbothub/filtermanage.go:191-239 | accepted iff a bot has the id and the filter is registered; then that bot's pipeline is the registered object and every other bot's is unchanged |
| `Pipelines.RebuildFilters` | server/web/actions.go:1317-1412 | whether it is completed or stopped by an error: every other bot keeps its pipeline, the bot its other one, and every filter object that existed before still unfolds to the tree it did; the bot whose id is installed runs what its stored definition means; when no call or read is lost it is completed exactly if the definition has a meaning and some bot has the id |
| `Pipelines.FilterFill` | server/chatbothub/filtermanage.go:104-127 | the message goes to the pipeline of a bot with the id, with an outcome that its tree allows; none if it has no pipeline; pipelines of other bots do not matter |
| `BotRegistry.FoundIsOwner` | server/chatbothub/botmanage.go:48-59 | with unique ids GetBotById gives the same bot for every map order |
| `BotRegistry.StepKeepsInv` | server/chatbothub/chathub.go:534-850 | every event, with every outcome of the calls it makes, keeps: keys are client ids, no two bots share a non-empty bot id, status and identity agree |
| `BotRegistry.Run` | server/chatbothub/chathub.go:508-1030 | every reachable table satisfies the registry invariant |
| `BotRegistry.ReachableBots` | server/chatbothub/chathub.go:508-1030 | in every reachable table each key is its bot's client id, bot ids are unique, registered bots have neither bot id nor login, prepared, failed and staging ones have a bot id, logged-in non-QQ ones have a bot id and no scan url |
| `BotRegistry.RegisterEffect` | server/chatbothub/chathub.go:534-579 | a client that registers and is known, by bot id and login and, unless it is a MACPRO one, login data and token, is to log in again under that identity; any other is registered and its identity forgotten; no other client changes |
| `BotRegistry.LoginScanEffect` | server/chatbothub/chathub.go:779-789 | a scanned url reaches its client exactly if that is a wechat client that is to log in; nothing else changes |
| `BotRegistry.UpdateTokenEffect` | server/chatbothub/chathub.go:791-801 | the client takes the token exactly if the login is its own; nothing else changes |
| `BotRegistry.FailureEffects` | server/chatbothub/chathub.go:832-834 | LOGINFAILED fails a client exactly if that is to log in, a failed ping marks it disconnected; nothing else changes |
| `BotRegistry.GoneEffect` | server/chatbothub/chathub.go:836-850 | after LOGOUTDONE, or when the pings are given up, the client is gone and all others stay |
| `BotRegistry.WebEventEffects` | server/chatbothub/botmanage.go:147-194 | a logout drops its bot exactly if that is logged in or staging and was told; a shutdown marks it exactly if it is not logged in and was told |
| `BotRegistry.BotLoginEffect` | server/chatbothub/botmanage.go:196-277 | the named client, or else the available one, is prepared with id and login exactly if it is registered or failed, the id is not empty and nobody has it; nothing else changes |
| `BotRegistry.StageEffect` | server/chatbothub/chathub.go:593-645 | first half of a login: exactly when the client gets staged with the id, and who is dropped for it |
| `BotRegistry.MigrateEffect` | server/chatbothub/chathub.go:646-735 | second half: the client is logged in, under the older id if the web server knows one, exactly when the answer is usable, the older owner could be told and the migration sent |
| `BotRegistry.LoginDoneEffect` | server/chatbothub/chathub.go:591-778 | LOGINDONE logs the client in exactly when all its calls go through; then it has the final id and exactly the other owners of the two ids are gone; all others are untouched, and a client that is logged in already stays as it is |
| `BotRegistry.LoginDoneBot` | server/chatbothub/chathub.go:591-778 | every field of the client's bot after LOGINDONE: logged in with the announced or the older id, staged with the announced one if a later call failed, or as it was |
| `BotRegistry.LoginDoneDrops` | server/chatbothub/chathub.go:612-720 | which other clients are dropped, however it ends |
| `BotRegistry.OtherLoginDone` | server/chatbothub/chathub.go:769-776 | a QQ client is logged in without an identity, a client of another type is left alone |
| `BotRegistry.OwnerLost` | server/chatbothub/chathub.go:612-641 | an id that another client had is left with no owner exactly when that owner could be told and the new client cannot be staged |
| `BotRegistry.OwnerLostReachable` | server/chatbothub/chathub.go:612-641 | it happens from the start: two clients log in, the second then announces the first one's id, and nobody has that id |
| `BotHub.ChatBot.Register` | server/chatbothub/chatbot.go:163-181 | only client id, type and status change |
| `BotHub.ChatBot.PrepareLogin` | server/chatbothub/chatbot.go:228-239 | allowed only when registered or failed; takes bot id and login and clears the scan url |
| `BotHub.ChatBot.LoginStaging` | server/chatbothub/chatbot.go:318-342 | allowed only when registered or prepared; takes id, login and login info; otherwise nothing changes |
| `BotHub.ChatBot.LoginDone` | server/chatbothub/chatbot.go:344-367 | allowed only when registered, prepared or staging; otherwise nothing changes |
| `BotHub.ChatBot.LogoutOrShutdown` | server/chatbothub/chatbot.go:449-457 | succeeds iff the message was sent; then the status is shut down unless the bot was logged in or staging, otherwise it stays |
| `BotHub.ChatHub.NoAliases` | server/chatbothub/botmanage.go:61-66 | entries under different keys are different objects, so changing one bot changes one entry |
| `BotHub.ChatHub.SetBot` | server/chatbothub/botmanage.go:61-66 | the entry is replaced, the others stay, and the hub still stands for a table that satisfies the invariant |
| `BotHub.ChatHub.GetBotById` | server/chatbothub/botmanage.go:48-59 | the walk in any order finds a bot with the id iff there is one |
| `BotHub.ChatHub.GetAvailableBot` | server/chatbothub/botmanage.go:11-22 | finds a registered bot of the type iff there is one |
| `BotHub.ChatHub.OnRegister` | server/chatbothub/chathub.go:534-579 | the handler, on the objects, does to the table what the REGISTER event does |
| `BotHub.ChatHub.OnLoginDone` | server/chatbothub/chathub.go:591-778 | likewise for LOGINDONE, with every failure of its sends and of the web server's answer |
| `BotHub.ChatHub.OnLoginScan` | server/chatbothub/chathub.go:779-789 | likewise for LOGINSCAN |
| `BotHub.ChatHub.OnUpdateToken` | server/chatbothub/chathub.go:791-811 | likewise for UPDATETOKEN |
| `BotHub.ChatHub.OnLoginFailed` | server/chatbothub/chathub.go:832-834 | likewise for LOGINFAILED |
| `BotHub.ChatHub.OnLogoutDone` | server/chatbothub/chathub.go:836-850 | likewise for LOGOUTDONE: the bot is gone |
| `BotHub.ChatHub.OnPingFailed` | server/chatbothub/chatbot.go:183-226 | a failed ping marks the bot disconnected |
| `BotHub.ChatHub.OnPingGivenUp` | server/chatbothub/chathub.go:572-577 | when the ping loop gives up the bot is dropped |
| `BotHub.ChatHub.OnBotLogin` | server/chatbothub/botmanage.go:196-277 | a bot of the type that is waiting is prepared with the id, unless another bot has the id |
| `BotHub.ChatHub.OnBotLogout` | server/chatbothub/botmanage.go:147-168 | the bot with the id is told and dropped; if it cannot be told nothing changes |
| `BotHub.ChatHub.OnBotShutdown` | server/chatbothub/botmanage.go:170-194 | the bot with the bot id, or else the client id, is told and marked shut down; with neither id it panics and the table stays |
| `Strings.SplitSingle` | server/streaming/subscription.go:20-24 | splitting yields one part exactly when the separator does not occur |
| `Strings.ParsePrintInt` | server/streaming/subscription.go:16-29 | decimal print and parse of every signed 64-bit number is a round trip |
| `Strings.PrintDigits` | server/streaming/subscription.go:16-17 | the digits printed are the decimal ones, the last one last |
| `Strings.ParsedInt` | server/streaming/subscription.go:26-29 | digits under an optional sign parse to their number, beyond 64 bits not at all |
| `SubKeys.TruncateModulo` | server/streaming/subscription.go:31-31 | the 32-bit type differs from the number read by a multiple of 2^32 |
| `SubKeys.KeyRoundTrip` | server/streaming/subscription.go:14-32 | parsing a key gives back bot id and resource type for every int32 type, and fails, exactly as the bot id is free of the separator or not |
| `SubKeys.KeyInjective` | server/streaming/subscription.go:14-18 | equal keys come from equal bot ids and types, whatever the bot ids contain |
| `Subscriptions.KeyTexts` | server/streaming/subscription.go:14-18 | the texts of the message and the moment key of a bot |
| `Subscriptions.DeliverySafe` | server/streaming/subscription.go:34-145 | over every run of message subscriptions with the node kept, any call failing before or after the hub applied it, every bot with a subscriber is in the hub's set, so a message reaches exactly the connections subscribed |
| `Subscriptions.UpdateEffect` | server/streaming/subscription.go:34-85 | who is subscribed under each key, of any type, after one update, for each fate of the call |
| `Subscriptions.HubEffect` | server/streaming/subscription.go:34-85 | which bots the hub forwards after one update of any types: those some request announced, and those it had and none renounced |
| `Subscriptions.OthersLeaveKeys` | server/streaming/subscription.go:92-107 | a closing connection leaves every key whatever becomes of its call, a recovery changes none, and without a node at the hub nothing else happens |
| `Subscriptions.UpdateKeepsAgree` | server/streaming/subscription.go:39-82 | for every list of message requests, repeats, contrary requests and bot ids with the separator included, an answered update keeps: the hub has a bot iff it has a subscriber |
| `Subscriptions.RemoveAgreesIff` | server/streaming/subscription.go:92-127 | a closing connection keeps it exactly if the keys it was alone on all parse |
| `Subscriptions.UnparsedStaysForwarded` | server/streaming/subscription.go:109-117 | a connection that subscribes to a bot whose id has the separator, and closes, leaves the bot forwarded without a subscriber |
| `Subscriptions.AgreementKept` | server/streaming/subscription.go:34-185 | over every run of answered calls and recoveries in which closing connections' keys parse, hub and server agree exactly |
| `Subscriptions.RecoveryResult` | server/streaming/subscription.go:147-185 | after a drop and a new registration one recovery gives the hub the union of the bots, of keys that parse, of the connections whose calls went through, which is exact agreement iff each bot with subscribers is in it |
| `Subscriptions.BackAtHubIff` | server/streaming/subscription.go:39-85 | a bot that a recovery left out is back after an update exactly if the call was applied and the list subscribes anew from where the server has the connection |
| `Subscriptions.LostStaysLost` | server/streaming/subscription.go:48-66 | so a subscriber that asks for it again without unsubscribing does not bring it back, and stays without its messages |
| `Subscriptions.ListHonoured` | server/streaming/subscription.go:39-82 | after an answered update the connection is subscribed under a key as the list, read in order, asks, exactly unless the list subscribes anew and later unsubscribes |
| `Subscriptions.UnsubscriptionLost` | server/streaming/subscription.go:39-82 | subscribe then unsubscribe in one list leaves the connection subscribed |
| `Subscriptions.MessagesCutOffIff` | server/chatbothub/streaming.go:23-27 | an applied update leaves message subscribers of a bot without messages exactly if it unsubscribes the last connection of some type from the bot, subscribes none anew, and leaves a message subscriber |
| `Subscriptions.MixedTypesLoseMessages` | server/chatbothub/streaming.go:23-27 | with messages and moments of one bot, unsubscribing from moments stops the messages |
| `Subscriptions.CloseCutsOffIff` | server/streaming/subscription.go:87-128 | for tables of any types, a closing connection cuts a bot's message subscribers off exactly if its call is applied, all its last keys parse, it was the last one on some type of the bot, and others are subscribed to the messages |
| `Subscriptions.MomentsCloseLosesMessages` | server/streaming/subscription.go:87-128 | one connection subscribes to a bot's messages, another to its moments and closes: the first gets no more messages |
| `Subscriptions.DeliveredIff` | server/streaming/subscription.go:34-185 | over every run of any types with the node kept, whatever calls fail, every subscriber of a bot's messages gets them all along exactly if no update and no closing of the run cuts some off |
| `StreamingServer.StreamingNode.Sub` | server/chatbothub/streaming.go:236-243 | exactly these bots are added |
| `StreamingServer.StreamingNode.UnSub` | server/chatbothub/streaming.go:245-252 | exactly these bots are removed |
| `StreamingServer.NodeRegistry.Register` | server/chatbothub/streaming.go:160-176 | a node that exists keeps its bots, a new one has none, other nodes stay |
| `StreamingServer.NodeRegistry.DropStreamingNode` | server/chatbothub/streaming.go:229-234 | exactly this node goes |
| `StreamingServer.NodeRegistry.StreamingCtrl` | server/chatbothub/streaming.go:52-144 | applied iff the node is registered and the request authorised: all unsubscriptions, then all subscriptions |
| `StreamingServer.SendEventToSubStreamingNodes` | server/chatbothub/chathub.go:252-263 | the event goes to exactly the nodes with the bot in their set, and one failed send does not keep the others from it |
| `StreamingServer.Server.UpdateConnectionSubs` | server/streaming/subscription.go:34-85 | the two loops around the call, on table and node, do what the protocol's update step does; it succeeds iff there was nothing to send or the node's hub answered |
| `StreamingServer.Server.RemoveSubsForConnection` | server/streaming/subscription.go:87-128 | likewise for the removal step; it succeeds iff there was nothing to remove, or all keys parse and the node's hub answered |
| `StreamingServer.Server.LeaveAll` | server/streaming/subscription.go:92-107 | the connection leaves every key, and the keys collected are those it was alone on |
| `StreamingServer.Server.GetSubscribedConnections` | server/streaming/subscription.go:130-145 | every subscriber of the bot and type once, in any order |
| `StreamingServer.Server.RecoverConnectionSubs` | server/streaming/subscription.go:147-185 | one call per connection with all its bots does what the protocol's recovery step does, whichever calls get through |
| `WsConnections.WsConnection.CreateRequest` | server/streaming/ws_connection.go:201-211 | the event takes the next sequence number |
| `WsConnections.WsConnection.SendWithAck` | server/streaming/ws_connection.go:51-56 | the event goes out marked for acknowledgement, the callback is stored under its number, overwriting none, and a timer is started for it |
| `WsConnections.WsConnection.InvokeAckCallback` | server/streaming/ws_connection.go:230-245 | undisturbed, the entry is taken out and its callback called once; without an entry nothing happens |
| `WsConnections.ForwardMessage` | server/streaming/hub_event_handler.go:12-30 | each connection subscribed to the bot's messages gets the message once under a new number, and no other gets anything |
| `AckTable.NoOverwrite` | server/streaming/ws_connection.go:213-228 | in every interleaving, registering a callback never overwrites an entry |
| `AckTable.FiredAsLoaded` | server/streaming/ws_connection.go:230-245 | each callback is called as often as its entry was loaded, threads on their way counted; one never loaded is pending |
| `AckTable.FiredOnce` | server/streaming/ws_connection.go:230-245 | no callback is called twice exactly in the runs where no invocation loads an entry between another's load and delete |
| `AckTable.PendingOrFired` | server/streaming/ws_connection.go:213-245 | in those runs a registered callback is pending, or taken by one thread, or has been called exactly once |
| `AckTable.CalledTwice` | server/streaming/ws_connection.go:178-245 | a response and the timeout, interleaved, call the callback twice |
| `AckTable.ResponseLostIff` | server/streaming/ws_connection.go:230-245 | in every run a response finds nothing exactly if its callback is not registered yet or its entry is gone; if nobody loaded it before, exactly if it comes before the registration |
| `AckTable.EarlyResponseLost` | server/streaming/ws_connection.go:51-56 | a response handled between sending and registering is lost, and the callback waits on |
| `OrderedQuery.Select` | server/domains/chatcontacts.go:157-208 | a query with ORDER BY and LIMIT returns the first rows in some ascending order, ties in any order |
| `OrderedQuery.OneOrder` | server/domains/message.go:418-504 | with distinct keys at most one sequence lists a set of rows in ascending order |
| `ContactSync.SyncChatContact` | server/domains/chatcontacts.go:103-208 | a page is the first rows at or after the cursor, live and of the chosen bots, under a limit raised above the number of rows that tie with the cursor; garbled cursors are refused |
| `ContactSync.PageAdvances` | server/domains/chatcontacts.go:128-166 | a page ends after its cursor unless every remaining row ties with it, and then it has them all; below its last time it misses no row |
| `ContactSync.SyncAll` | server/domains/chatcontacts.go:128-208 | a client that passes the last row's time until it stops advancing sees exactly the rows that are not deleted and of the chosen bots, or of all if none are chosen, in at most one call more than there are rows, for any ties, tie order and page size |
| `History.Reverse` | server/domains/message.go:492-499 | the swap loop reverses the page in place |
| `History.PrivateConversation` | server/domains/message.go:310-323 | the conversation of two users is the messages outside rooms between them, whichever sent them, the same from both sides |
| `History.RoomConversation` | server/domains/message.go:293-309 | a user's messages of a room are those addressed to the user and those the user sent to the room, never another member's copy |
| `History.GetMessagesHistories` | server/domains/message.go:418-504 | errors for exactly the invalid requests; without a message the conversation's last page; with one, the messages next after it, or those last before it; at most 15, ascending, all of the conversation, and 15 if there are so many |
| `History.WalkBack` | server/domains/message.go:418-504 | walking back by first messages ends; the pages joined ascend without repeats, all but the oldest are full, and they are the whole history exactly when no group of messages of one stored time straddles a multiple of the page size; with distinct times they are the conversation's one listing |
| `History.WalkForward` | server/domains/message.go:418-504 | likewise walking forward by last messages, counted from the other end |
| `History.TiedLost` | server/domains/message.go:418-504 | of more than 15 messages of one time, whatever order the database gives, the newest page has 15, nothing is older than it, and the walk never gets the others |
| `History.DistinctTimesTile` | server/domains/message.go:418-504 | messages of distinct times meet that condition |
| `Criteria.Compile` | server/domains/searchcriteria.go:67-107 | succeeds exactly if every field's item is a map and every recognised criterion generates; then clauses and parameters are those of the recognised criteria, each once, in one order |
| `Criteria.CompilableIff` | server/domains/searchcriteria.go:67-107 | a query compiles exactly if every field has operators, the field of each known operator is known, and what stands under `in` is a list |
| `Criteria.AppendClause` | server/dbx/database.go:173-278 | a generator fails on an unknown field, or on `in` without a list; after a failure all generate nothing |
| `Criteria.CompiledCorrectly` | server/domains/searchcriteria.go:72-104 | with lists under `in` only, there are as many placeholders as parameters, and the query, bound by position, selects exactly the account's rows that satisfy every recognised criterion, for every map order, an empty `in` list being no constraint |
| `Criteria.SatisfiedBy` | server/dbx/database.go:173-278 | what equals, gt, gte, lt, lte, like and in, by these names, ask of a row |
| `Criteria.SatisfiedByList` | server/dbx/database.go:239-278 | under `in` a row needs one of the values, or nothing if there are none |
| `Criteria.AlignedIff` | server/domains/searchcriteria.go:76-87 | placeholders and parameters are in step after every criterion exactly when each brings one value or stands under `in` |
| `Criteria.SurplusCounts` | server/domains/searchcriteria.go:76-87 | parameters minus placeholders is the sum of the list lengths less one over the other operators |
| `Criteria.ListsElsewhereMisbind` | server/dbx/database.go:180-236 | a query with an empty list under `equals` and a pair under `gt` makes, in one of its orders, a statement the database accepts and that compares the wrong values |
| `QuotaKeys.KeyToArIdOfKey` | server/domains/actionrequests.go:41-76 | the request id comes back from a quota key exactly when login, action type and id have no colon |
| `QuotaKeys.KeyTexts` | server/domains/actionrequests.go:54-76 | the texts of the keys and patterns |
| `QuotaKeys.LoginPatternText` | server/domains/actionrequests.go:78-80 | the text of a login's pattern |
| `QuotaKeys.PatternIff` | server/domains/actionrequests.go:54-76 | for any texts, a pattern finds a key exactly when the window is the same and the colon-separated parts of the key's login, action type and id begin with those of the pattern's login and action type, and go on |
| `QuotaKeys.PatternExact` | server/domains/actionrequests.go:54-76 | so without colons, the keys a pattern finds are those of its window, login and action type only |
| `QuotaKeys.ForeignKeyMatches` | server/domains/actionrequests.go:54-76 | all requests of a login `a:b` count against the quota of login `a` and action type `b` |
| `QuotaKeys.LoginPatternIff` | server/domains/failingbots.go:258-288 | a key under a login's pattern gives a request id exactly when login and the rest have three parts together |
| `Quota.LimitsShape` | server/web/ratelimit.go:7-57 | every limit is positive, no longer window has a lower one, none has more than the shorter ones within it add up to, but for the day limit -1 of GetContact |
| `Quota.ConfiguredLimits` | server/web/ratelimit.go:7-57 | the limits for day, hour and minute that the tables and the default give each action type |
| `Quota.RecordedAreFound` | server/domains/actionrequests.go:278-306 | for any logins, a count yields at least what is recorded of the class in the window that ends now |
| `Quota.FoundAreRecorded` | server/domains/actionrequests.go:278-306 | it yields exactly that when no other class's keys match |
| `Quota.ColonFreeCounts` | server/domains/actionrequests.go:278-306 | none does when logins and action types have no colon |
| `Quota.QuotaBound` | server/web/actions.go:1220-1282 | for any logins, with a positive limit and at most k requests between counting and recording, in every run and every window of 60, 3600 or 86400 seconds at most limit + k actions of a login and type are recorded |
| `Quota.QuotaInSeconds` | server/web/actions.go:1220-1282 | the same in numbers: 60 seconds against the minute limit, 3600 against the hour's, 86400 against the day's |
| `Quota.QuotaSharp` | server/web/actions.go:1225-1258 | for every k the bound is reached in a window whenever as many requests as its limit can be spread over it without exceeding another limit: k requests that count together after them are all let through |
| `Quota.ConfiguredSharp` | server/web/ratelimit.go:7-57 | that is so under the configured limits for every action type and each of its counted windows |
| `Quota.RejectedIff` | server/web/actions.go:1222-1258 | a request is rejected exactly when a window it counted held more than its limit, or a limit is below the -2 that stands for not counted; so -1 never rejects |
| `Quota.ReplyEffect` | server/web/actions.go:1260-1282 | a reply records the action, with a key for each limited window, exactly if it is a success and the counts admit the request; in any case it ends the request |
| `Quota.RecordedIff` | server/web/actions.go:1220-1282 | over every run an action is recorded exactly if an admitted request of it was answered with success, and then at that second and for its class |
| `Quota.PendingIs` | server/web/actions.go:1220-1244 | over every run a request is of the class it was started with, and each of its counts is what the store held when it was made |
| `Quota.Store.MatchCount` | server/domains/actionrequests.go:186-212 | the scan in any order counts each unexpired key whose text matches the pattern once, whosever it is |
| `Quota.Store.SaveActionRequestWLimit` | server/domains/actionrequests.go:323-370 | a key with the window's expiry for exactly the windows with a positive limit |
| `Quota.Store.CreateAndRunAction` | server/web/actions.go:1220-1284 | one request, alone: its counts, the tests, the bot's answer and the record, or its failure when the store cannot be reached, are the machine's steps in that order; recorded iff the store has room for it, the bot answered with success and the store was reached, and otherwise log and keys stay; it succeeds iff recorded and the API log entry is written |
| `Quarantine.ScoreStep` | server/domains/failingbots.go:46-60 | what each event does to the score of each bot and action: a mark sets it to now, a recovery that is due or one by hand removes it, nothing else changes it |
| `Quarantine.OverIff` | server/domains/failingbots.go:264-288 | a mark needs as many failures as the count and, multiplied out, at least the rate of the requests |
| `Quarantine.HeldIsRefused` | server/domains/failingbots.go:290-330 | from a mark until a recovery due after it, the item is refused |
| `Quarantine.AcceptedOnceDue` | server/domains/failingbots.go:100-126 | after a recovery at which every mark is old enough the item is accepted until the next mark |
| `Quarantine.HealthyIff` | server/domains/failingbots.go:290-330 | over every run an action passes the check exactly when neither its bot nor the action itself has a mark without a due recovery, or one by hand, since |
| `Quarantine.ActionKeyIff` | server/domains/failingbots.go:26-31 | two bots share the key of their failing actions exactly when client type, client id and login have the same colon-separated parts in turn |
| `Quarantine.ActionKeyInjective` | server/domains/failingbots.go:26-31 | so without colons in client type and id they are the same bot |
| `Quarantine.ActionKeyShared` | server/domains/failingbots.go:26-31 | bots with client type `a:b` and id `c`, and with `a` and `b:c`, share it for any texts |
| `Quarantine.QuarantineStore.RecoverBotFailingAction` | server/domains/failingbots.go:174-191 | the commands for the keys found, in any order, remove exactly the scores that are due |
| `Quarantine.QuarantineStore.ActionIsHealthy` | server/domains/failingbots.go:290-330 | the two searches pass the request iff neither its bot nor its action is in quarantine; the stored bot is found because its text omits the time |
| `Failures.FailPatternIff` | server/domains/actionrequests.go:82-94 | for any texts, the pattern of an action finds a failure's key exactly when the colon-separated parts of the key begin with those of the action's client type, client id, login and type, and go on |
| `Failures.FailBotPatternIff` | server/domains/actionrequests.go:82-94 | likewise for the pattern of a bot |
| `Failures.FailTexts` | server/domains/actionrequests.go:82-94 | the texts of the keys and patterns |
| `Failures.CountsExact` | server/domains/failingbots.go:203-248 | without colons the four counts are: the failures of the action, and of the bot, in the last checkTime seconds but never more than an hour back; and the requests of the login and type, and of the login, created in the last checkTime seconds and recorded in the last hour |
| `Failures.LogIs` | server/domains/actionrequests.go:323-370 | over every run a recorded request is as its first record says, with the second of that |
| `Failures.FailsAre` | server/domains/failingbots.go:193-201 | over every run a failure's key holds the second of the last failure under it |
| `Failures.StoredFor` | server/domains/actionrequests.go:335-345 | a request stays stored for a day, or three hours without a day limit |
| `Failures.ClockMoves` | server/domains/failingbots.go:193-201 | the seconds that keys and requests are stamped with are those the clock ticks have added up |
| `Failures.RequestIsThere` | server/domains/failingbots.go:229-248 | over every run a key that is found and parses has its request still stored, so the read that is not checked never meets nil |
| `Failures.MarksIff` | server/domains/failingbots.go:250-288 | over every run without colons, a failure marks its bot, or its action, exactly when at that moment enough of these failures, at a high enough rate, are there |
| `Failures.HealthyIffFailing` | server/domains/failingbots.go:250-330 | over every run without colons, an action passes the check exactly when neither its bot nor itself had enough recent failures, at a high enough rate, at a failure since when no due recovery, and none by hand, has come |
| `Failures.ColonNeverMarks` | server/domains/failingbots.go:229-270 | a colon in login or action type: in every state no request is counted, so no failure count marks the action |
| `Failures.ColonNeverMarksBot` | server/domains/failingbots.go:229-288 | a colon in the login: none of its own requests is counted for the bot, so only another login's can make it fail |
| `Failures.ColonsNeverMarkBot` | server/domains/failingbots.go:229-288 | with two colons none at all is counted, so the bot is never marked |
| `Failures.FailureStore.FailingActionCount` | server/domains/failingbots.go:203-227 | the scan in any order counts each failure under the pattern, unexpired and later than the limit, once |
| `Failures.FailureStore.ActionRequestCountByTime` | server/domains/failingbots.go:229-248 | the scan in any order counts each key under the pattern that parses and whose request was created later than the limit, once, and reads no missing request |
| `Failures.FailureStore.SaveFailingActionRequest` | server/domains/failingbots.go:250-288 | the log entry, the four counts and the two threshold tests do what the machine's failure event does |
| `ChatUsers.RowsOfArgs` | server/domains/chatusers.go:259-357 | the database reads back from the flat parameter list exactly the users it was made from |
| `ChatUsers.ArgsMatchColumns` | server/domains/chatusers.go:259-357 | each parameter is the value of the column at its place in the statement's column list |
| `ChatUsers.MergeGets` | server/domains/chatusers.go:266-287 | on a duplicate each text column takes the new value iff that is not empty |
| `ChatUsers.UpsertConcat` | server/domains/chatusers.go:255-360 | saving one batch and then another is saving them as one |
| `ChatUsers.UpsertedRow` | server/domains/chatusers.go:255-360 | after any stream a key has a row iff it had one or occurs; the row keeps its id, each text column is the last non-empty value or what the row began with, sex the last that is not 0 |
| `ChatUsers.Replay` | server/domains/chatusers.go:255-360 | saving any batch a second time, under fresh ids, changes nothing |
| `ChatUsers.ChatUserTable.UpdateOrCreateChatUsers` | server/domains/chatusers.go:255-360 | the loop that collects parameters, and the statement, update the table row after row |
| `Contacts.IdStays` | server/web/contacts.go:199-203 | the id a user is linked under never changes |
| `Contacts.SaveConcat` | server/web/contacts.go:187-247 | with one client type, saving two batches, users and contacts, is saving them as one |
| `Contacts.LinkedIsOwnIff` | server/web/contacts.go:187-247 | for every batch and table with distinct row ids, the links made are exactly those of each user's own row iff all users of the batch have one client type |
| `Contacts.OtherTypeLink` | server/domains/chatusers.go:380-405 | a user of another type than the looked-up one is not linked to its own row, and is linked to the row of that name and the looked-up type if there is one |
| `Contacts.MixedTypesMislink` | server/domains/chatusers.go:380-405 | with two client types in a batch the second user's bot is not linked to it, and with one name it is linked to the first user; in two batches it is linked rightly |
| `Contacts.IdsStayDistinct` | server/domains/chatusers.go:255-360 | saving users under fresh ids keeps row ids distinct |
| `Contacts.Web.SaveChatUsers` | server/web/contacts.go:187-247 | users are upserted, then exactly the found ones linked to their bots |
| `Contacts.Web.ProcessUsers` | server/web/contacts.go:136-185 | flushed batches and buffer are what was taken from the pipe, in order; batches have 1 to 1001 entries, the buffer at most 1000 and none after a timeout; the database is what the saved batches make of it; without timeouts every batch has 1001 |
| `Contacts.StreamIs` | server/web/contacts.go:150-166 | what was taken from the pipe is every info received, each once, in the order they came |
| `Contacts.Web.Turn` | server/web/contacts.go:142-184 | one turn: the buffer with the info received is flushed exactly if it has more than 1000, or at a timeout if it has any |
| `Contacts.SavedAtOnce` | server/web/contacts.go:136-185 | with one client type and successful saves the database is as if all had been saved at once |
| `Contacts.BatchingIndependent` | server/web/contacts.go:136-185 | two runs over one stream, however cut into batches, end with the same database |

## Left out

- gRPC, websocket, HTTP, RabbitMQ, Redis, Mongo and MySQL themselves: they are maps, sets, ordered tables and a clock; the success of a call is a parameter.
- JSON text, regular expressions and the field tests of PlainFilter: functions of `Filters.Env` that the model leaves open. JSON texts of two bots are taken to differ when the bots do.
- Filters.Fill: deliveries are counted, their order within a fill is not modelled; the KVRouter's map of maps is one map keyed by both names.
- The fluent logger and web trigger requests: a delivery is recorded, what the receiver does is not; a failing HTTP request is only logged by the code.
- FilterGraph.CycleHasNoMeaning: on filters that lead to a cycle CreateFilterChain does not end (`FilterGraph.EndsIffAcyclic`); the `height` argument of the methods excludes exactly those (`FilterGraph.AcyclicIffRanked`).
- FilterBuild.FilterRegistry.RouterBranch: the panic on an expression that does not compile is a result; what is left of the hub after it is not described.
- Requests for bots without a stored filter id return at once in the code and change nothing; `Pipelines.RebuildFilters` starts after that test.
- The ping loop's clock, LastPing, the busy wait in closePingloop and data races on unlocked fields: a hub event is one step.
- BotHub.ChatHub.OnLoginDone: after three of the failed sends the hub reads a nil pointer and stops; the model leaves the table as it was at that point.
- Lists inside LoginInfo other than data, token and alias, friend requests, contact and message notifications, and the forwarded actions of chatbot.go.
- Overlapping calls of the subscription protocol, and a node's drop after its new registration: claims are per whole call.
- Exact agreement of hub and server over whole runs is claimed for message subscriptions; for mixed types there are the effect of each update and, over whole runs, the exact condition of a loss.
- The race in nextEventSeq: sequence numbers are taken one at a time.
- Text of the SQL statements, ORDER BY and LIMIT of a search, and string comparison rules of the database (`Criteria` leaves comparison open; user names are compared exactly in `ChatUsers`).
- SCAN's freedom to return a key twice, and glob characters in logins: a scan is a walk over the keys with the given beginning.
- Quarantine: failure rates are exact quotients, not 64-bit floats; requests are not updated while their keys live (an update keeps creation time and expiry), and their ids are new.
- Contacts: soft deletion of users, the dispatcher that wakes waiting requests, and groups.
- The generated protocol code, accounts, tokens, signed URLs, and everything under frontend/.
