/**
 Bots and their pipelines: rebuilding a bot's filters (server/web/actions.go:1317-1413,
 server/chatbothub/filtermanage.go:191-240) and filling them (filtermanage.go:104-127).
 */
module Pipelines {
  import opened Wrappers
  import opened Filters
  import opened FilterBuild
  import opened BotRegistry
  import opened BotHub

  /** Whose bot's filter is set, the message one or the moment one. */
  datatype Source = Msg | Moment

  function Other(source: Source): Source {
    if source == Msg then Moment else Msg
  }

  function PipelineOf(bot: ChatBot, source: Source): FilterNode?
    reads bot
  {
    if source == Msg then bot.filter else bot.momentFilter
  }

  /** The bot's pipeline is a built one that means t. */
  ghost predicate Runs(bot: ChatBot, source: Source, t: Tree, S: set<FilterNode>)
    reads bot, S
  {
    PipelineOf(bot, source) != null && Unfolds(PipelineOf(bot, source), t, S)
  }

  /** BotFilter and BotMomentFilter: the registered filter becomes the bot's. */
  method BotFilter(hub: ChatHub, reg: FilterRegistry, botId: string, filterId: string, source: Source)
    returns (reply: Reply, ghost found: Option<string>)
    requires hub.Valid()
    modifies (if source == Msg then hub.bots.Values else {})`filter
    modifies (if source == Moment then hub.bots.Values else {})`momentFilter
    ensures hub.Valid() && FoundById(hub.table, botId, found)
    ensures reply == if found.Some? && filterId in reg.filters then Accepted else Refused
    ensures forall k | k in hub.bots ::
              PipelineOf(hub.bots[k], source) == if reply.Accepted? && found == Some(k) then reg.filters[filterId]
                                                 else old(PipelineOf(hub.bots[k], source))
    ensures forall k | k in hub.bots ::
              PipelineOf(hub.bots[k], Other(source)) == old(PipelineOf(hub.bots[k], Other(source)))
  {
    hide ChatHub.Valid, ChatBot.View, FoundById, Inv;
    var thebot, key := hub.GetBotById(botId);
    found := key;
    if thebot == null {
      return Refused, found;
    }
    var thefilter := reg.GetFilter(filterId);
    if thefilter == null {
      return Refused, found;
    }
    hub.NoAliases(key.value, thebot);
    if source == Msg {
      thebot.filter := thefilter;
    } else {
      thebot.momentFilter := thefilter;
    }
    reply := Accepted;
  }

  /** The BotFilter call of a rebuild, which may fail on its way unless the network is reliable. */
  method Install(hub: ChatHub, reg: FilterRegistry, botId: string, filterId: string, source: Source, reliable: bool,
                 ghost t: Tree, ghost S: set<FilterNode>)
    returns (res: BuildResult, ghost found: Option<string>)
    requires hub.Valid() && filterId in reg.filters && Unfolds(reg.filters[filterId], t, S)
    modifies (if source == Msg then hub.bots.Values else {})`filter
    modifies (if source == Moment then hub.bots.Values else {})`momentFilter
    ensures hub.Valid() && !res.HubCrashed?
    ensures forall k | k in hub.bots && found != Some(k) ::
              PipelineOf(hub.bots[k], source) == old(PipelineOf(hub.bots[k], source))
    ensures found.Some? ==> && found.value in hub.bots && Owns(hub.table, found.value, botId)
                            && Runs(hub.bots[found.value], source, t, S)
    ensures forall k | k in hub.bots ::
              PipelineOf(hub.bots[k], Other(source)) == old(PipelineOf(hub.bots[k], Other(source)))
    ensures res.Built? ==> found.Some?
    ensures res.Rejected? ==> FoundById(hub.table, botId, None)
    ensures reliable ==> FoundById(hub.table, botId, found) && res == if found.Some? then Built else Rejected
  {
    hide ChatBot.View, Inv, Unfolds;
    found := None;
    var delivered, answered: bool :| reliable ==> delivered && answered;
    if !delivered {
      return Unreachable, found;
    }
    var reply;
    reply, found := BotFilter(hub, reg, botId, filterId, source);
    res := if !answered then Unreachable else if reply == Accepted then Built else Rejected;
  }

  /** rebuildMsgFilters and rebuildMomentFilters, finished or stopped by an error. Every pipeline
      that ran before, of whatever bot and from whatever objects, runs on and means what it meant,
      but for the one that is replaced; that one means what the rows describe. On a reliable network it is
      replaced exactly if the rows describe something and a bot has the id. */
  method RebuildFilters(hub: ChatHub, reg: FilterRegistry, rows: Table, botId: string, filterId: string,
                        source: Source, reliable: bool, ghost height: string -> nat)
    returns (res: BuildResult, ghost found: Option<string>, ghost t: Tree, ghost S: set<FilterNode>)
    requires hub.Valid() && Keyed(rows) && Ranked(reg.env, rows, height, filterId)
    modifies reg
    modifies (if source == Msg then hub.bots.Values else {})`filter
    modifies (if source == Moment then hub.bots.Values else {})`momentFilter
    ensures hub.Valid() && fresh(S)
    ensures forall k | k in hub.bots && found != Some(k) ::
              PipelineOf(hub.bots[k], source) == old(PipelineOf(hub.bots[k], source))
    ensures forall k | k in hub.bots ::
              PipelineOf(hub.bots[k], Other(source)) == old(PipelineOf(hub.bots[k], Other(source)))
    ensures forall f: FilterNode, u: Tree, U: set<FilterNode> |
              old(allocated(f)) && old(allocated(U)) && old(Unfolds(f, u, U)) :: Unfolds(f, u, U)
    ensures found.Some? ==> && found.value in hub.bots && Owns(hub.table, found.value, botId)
                            && Runs(hub.bots[found.value], source, t, S)
                            && Describes(reg.env, rows, filterId, t)
    ensures res.Built? ==> found.Some?
    ensures res.Rejected? || res.HubCrashed? ==>
              !HasMeaning(reg.env, rows, filterId) || FoundById(hub.table, botId, None)
    ensures reliable ==>
              (res.Built? <==> HasMeaning(reg.env, rows, filterId) && exists k :: Owns(hub.table, k, botId))
  {
    hide *;
    found := None;
    res, t, S := CreateFilterChain(reg, rows, filterId, reliable, height);
    if res == Built {
      res, found := Install(hub, reg, botId, filterId, source, reliable, t, S);
      if reliable { FoundSome(hub.table, botId, found); }
    }
  }

  /** FilterFill: the message is pushed through the bot's pipeline. */
  method FilterFill(hub: ChatHub, env: Env, botId: string, source: Source, msg: string,
                    ghost trees: map<string, Tree>, ghost S: set<FilterNode>)
    returns (o: Option<Outcome>, ghost found: Option<string>)
    requires hub.Valid()
    requires forall k | Owns(hub.table, k, botId) && PipelineOf(hub.bots[k], source) != null ::
               k in trees && Unfolds(PipelineOf(hub.bots[k], source), trees[k], S)
    ensures FoundById(hub.table, botId, found) && (o.None? <==> found.None?)
    ensures o.None? <==> forall k | k in hub.table :: hub.table[k].botId != botId
    ensures found.Some? ==>
              if PipelineOf(hub.bots[found.value], source) == null then o.value == QUIET
              else Yields(env, trees[found.value], msg, o.value)
  {
    var bot, key := hub.GetBotById(botId);
    found := key;
    if bot == null {
      return None, found;
    }
    var f := PipelineOf(bot, source);
    if f == null {
      return Some(QUIET), found;
    }
    var r := Fill(env, f, msg, trees[key.value], S);
    o := Some(r);
  }
}
