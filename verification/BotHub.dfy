/**
 The hub's bots as the objects the code updates in place: ChatBot (server/chatbothub/chatbot.go),
 the map hub.bots (botmanage.go) and the handlers of EventTunnel (chathub.go). Every handler is
 proved to do to the table exactly what the event of BotRegistry does.
 */
module BotHub {
  import opened Wrappers
  import opened BotRegistry
  import opened Filters

  class ChatBot {
    var clientId: string
    var clientType: string
    var login: string
    var loginInfo: LoginInfo
    var status: Status
    var botId: string
    var scanUrl: string
    var filter: FilterNode?
    var momentFilter: FilterNode?

    /** The bot's place in the state machine. */
    ghost function View(): Bot
      reads this`clientId, this`clientType, this`login, this`loginInfo, this`status, this`botId, this`scanUrl
    {
      Bot(clientId, clientType, login, loginInfo, status, botId, scanUrl)
    }

    constructor ()
      ensures View() == NEW_BOT && filter == null && momentFilter == null
    {
      clientId, clientType, login, botId, scanUrl := "", "", "", "", "";
      loginInfo, status := LoginInfo("", "", ""), BeginNew;
      filter, momentFilter := null, null;
    }

    /** closePingloop: the status tells the ping loop to stop; the wait for it is not modelled. */
    method ClosePingloop()
      modifies this`status
      ensures status == BeginNew
    {
      status := BeginNew;
    }

    method Register(clientId: string, clientType: string)
      modifies this`status, this`clientId, this`clientType
      ensures View() == old(View()).Registered(clientId, clientType)
    {
      ClosePingloop();
      this.clientId, this.clientType, status := clientId, clientType, BeginRegistered;
    }

    method CanReLoginNow() returns (can: bool)
      ensures can == View().CanReLogin()
    {
      if clientType == WECHATMACPRO {
        can := status == BeginRegistered && |botId| > 0 && |login| > 0;
      } else {
        can := status == BeginRegistered && |botId| > 0 && |login| > 0
               && |loginInfo.wxData| > 0 && |loginInfo.token| > 0;
      }
    }

    method ClearLoginInfo()
      modifies this`botId, this`login, this`loginInfo
      ensures View() == old(View()).ClearLoginInfo()
    {
      botId, login := "", "";
      loginInfo := loginInfo.(wxData := "", token := "");
    }

    method PrepareLogin(botId: string, login: string) returns (ok: bool)
      modifies this`botId, this`login, this`scanUrl, this`status
      ensures ok == old(View()).Prepared(botId, login).Some?
      ensures View() == if ok then old(View()).Prepared(botId, login).value else old(View())
    {
      if status != BeginRegistered && status != LoggingFailed {
        return false;
      }
      this.botId, this.login, scanUrl, status := botId, login, "", LoggingPrepared;
      ok := true;
    }

    /** What REGISTER does once the bot is registered: log in again with what is known, or forget it. */
    method ReLoginOrForget()
      modifies this`botId, this`login, this`scanUrl, this`status, this`loginInfo
      ensures View() == old(View()).ReLoginOrForget()
    {
      var can := CanReLoginNow();
      if can {
        var ok := PrepareLogin(botId, login);
      } else {
        ClearLoginInfo();
      }
    }

    method LoginStaging(botId: string, login: string, info: LoginInfo) returns (ok: bool)
      modifies this`botId, this`login, this`loginInfo, this`scanUrl, this`status
      ensures ok == old(View()).Staged(botId, login, info).Some?
      ensures View() == if ok then old(View()).Staged(botId, login, info).value else old(View())
    {
      if status != BeginRegistered && status != LoggingPrepared {
        return false;
      }
      this.botId, this.login, loginInfo, scanUrl, status := botId, login, info, "", LoggingStaging;
      ok := true;
    }

    method LoginDone(botId: string, login: string, info: LoginInfo) returns (ok: bool)
      modifies this`botId, this`login, this`loginInfo, this`scanUrl, this`status
      ensures ok == old(View()).LoggedIn(botId, login, info).Some?
      ensures View() == if ok then old(View()).LoggedIn(botId, login, info).value else old(View())
    {
      if status != BeginRegistered && status != LoggingPrepared && status != LoggingStaging {
        return false;
      }
      this.botId, this.login, loginInfo, scanUrl, status := botId, login, info, "", WorkingLoggedIn;
      ok := true;
    }

    method Logout(sent: bool) returns (ok: bool)
      ensures ok == (sent && (status == WorkingLoggedIn || status == LoggingStaging))
    {
      if status != WorkingLoggedIn && status != LoggingStaging {
        return false;
      }
      ok := sent;
    }

    method Shutdown(sent: bool) returns (ok: bool)
      modifies this`status
      ensures ok == (sent && old(status) != WorkingLoggedIn)
      ensures status == if ok then ShuttingdownDone else old(status)
    {
      if status == WorkingLoggedIn || !sent {
        return false;
      }
      status := ShuttingdownDone;
      ok := true;
    }

    method LogoutOrShutdown(sent: bool) returns (ok: bool)
      modifies this`status
      ensures ok == sent
      ensures status == if ok && old(status) != WorkingLoggedIn && old(status) != LoggingStaging
                        then ShuttingdownDone else old(status)
    {
      if status == WorkingLoggedIn || status == LoggingStaging {
        ok := Logout(sent);
      } else {
        ok := Shutdown(sent);
      }
    }
  }

  class ChatHub {
    var bots: map<string, ChatBot>
    ghost var table: Registry  // the state of the machine that bots stands for

    constructor ()
      ensures bots == map[] && table == map[] && Valid()
    {
      bots, table := map[], map[];
    }

    ghost predicate Valid()
      reads this
      reads bots.Values`clientId, bots.Values`clientType, bots.Values`login, bots.Values`loginInfo
      reads bots.Values`status, bots.Values`botId, bots.Values`scanUrl
    {
      && bots.Keys == table.Keys
      && forall k | k in bots :: bots[k].View() == table[k]
    }

    /** The entries under other keys are other objects, and as the table says. */
    ghost predicate OthersLinked(clientId: string, bot: ChatBot)
      reads this, bots.Values
    {
      && bots.Keys == table.Keys
      && forall k | k in bots && k != clientId :: bots[k] != bot && bots[k].View() == table[k]
    }

    /** Entries under different keys are different objects. */
    lemma NoAliases(clientId: string, bot: ChatBot)
      requires Valid() && (clientId in bots ==> bots[clientId] == bot)
      requires clientId !in bots ==> forall k | k in bots :: bots[k] != bot
      ensures OthersLinked(clientId, bot)
    {
      forall k | k in bots && k != clientId && clientId in bots ensures bots[k] != bots[clientId] {
        assert table[k].clientId == k && table[clientId].clientId == clientId;
      }
    }

    /** SetBot: the entry and the table's record of it. */
    method SetBot(clientId: string, bot: ChatBot)
      requires OthersLinked(clientId, bot) && Inv(table[clientId := bot.View()])
      modifies this
      ensures bots == old(bots)[clientId := bot] && table == old(table)[clientId := bot.View()] && Valid()
    {
      bots, table := bots[clientId := bot], table[clientId := bot.View()];
    }

    method GetBot(clientId: string) returns (bot: ChatBot?)
      ensures if clientId in bots then bot == bots[clientId] else bot == null
    {
      bot := if clientId in bots then bots[clientId] else null;
    }

    /** GetBotById walks the map in any order; found is the key it stopped at. */
    method GetBotById(botId: string) returns (bot: ChatBot?, found: Option<string>)
      requires Valid()
      ensures FoundById(table, botId, found)
      ensures match found case None => bot == null case Some(k) => k in bots && bot == bots[k]
    {
      var todo := bots.Keys;
      while todo != {}
        invariant todo <= bots.Keys
        invariant forall k | k in bots && k !in todo :: bots[k].botId != botId
      {
        var k :| k in todo;
        if bots[k].botId == botId {
          return bots[k], Some(k);
        }
        todo := todo - {k};
      }
      assert forall k | k in table :: table[k] == bots[k].View();
      return null, None;
    }

    method GetAvailableBot(clientType: string) returns (found: Option<string>)
      requires Valid()
      ensures match found
              case Some(k) => IsAvailable(table, clientType, k)
              case None => forall k | k in table :: !IsAvailable(table, clientType, k)
    {
      var todo := bots.Keys;
      while todo != {}
        invariant todo <= bots.Keys
        invariant forall k | k in bots && k !in todo :: !IsAvailable(table, clientType, k)
      {
        var k :| k in todo;
        if bots[k].clientType == clientType && bots[k].status == BeginRegistered {
          return Some(k);
        }
        todo := todo - {k};
      }
      return None;
    }

    /** The table's record of a bot that was changed in place. */
    ghost method Sync(clientId: string, bot: ChatBot)
      requires clientId in bots && bots[clientId] == bot
      requires OthersLinked(clientId, bot) && Inv(table[clientId := bot.View()])
      modifies this`table
      ensures table == old(table)[clientId := bot.View()] && Valid()
    {
      table := table[clientId := bot.View()];
    }

    /** closePingloop and DropBot. */
    method CloseAndDrop(clientId: string, bot: ChatBot)
      requires clientId in bots && bots[clientId] == bot && OthersLinked(clientId, bot)
      modifies this, bot`status
      ensures bots == old(bots) - {clientId} && table == old(table) - {clientId} && Valid()
    {
      hide Coherent;
      DropKeeps(table, clientId);
      bot.ClosePingloop();
      bots, table := bots - {clientId}, table - {clientId};
    }

    /** The REGISTER handler; whether LOGIN could be sent to a bot that logs in again changes nothing. */
    method OnRegister(clientId: string, clientType: string)
      requires Valid()
      modifies this, bots.Values
      ensures table == Step(old(table), Event.Register(clientId, clientType)) && Valid()
    {
      var bot := GetBot(clientId);
      var newbot: ChatBot;
      if bot == null {
        newbot := new ChatBot();
      } else {
        newbot := bot;
      }
      NoAliases(clientId, newbot);
      newbot.Register(clientId, clientType);
      newbot.ReLoginOrForget();
      StepKeepsInv(table, Event.Register(clientId, clientType));
      SetBot(clientId, newbot);
    }
  
    /** Entries may be gone; the others are the objects they were. */
    twostate predicate OnlyDrops()
      reads this
    {
      forall k | k in bots :: k in old(bots) && bots[k] == old(bots)[k]
    }

    /** GetBotById for an id that one bot at most has. */
    method GetOwner(botId: string) returns (bot: ChatBot?, ghost found: Option<string>)
      requires Valid() && botId != ""
      ensures found == OwnerOf(table, botId)
      ensures match found
              case None => bot == null
              case Some(k) => k in bots && bot == bots[k] && bot.clientId == k && OthersLinked(k, bot)
    {
      bot, found := GetBotById(botId);
      FoundIsOwner(table, botId, found);
      if bot != null {
        NoAliases(found.value, bot);
        assert table[found.value].clientId == found.value;
      }
    }

    /** LOGINDONE, the id's other owner: told and dropped. */
    method DropOther(c: string, bot: ChatBot, botId: string, sent: bool) returns (told: bool)
      requires Valid() && c in bots && bots[c] == bot && botId != ""
      modifies this, bots.Values - {bot}
      ensures told == (sent || WithoutOther(old(table), c, botId) == old(table))
      ensures table == if told then WithoutOther(old(table), c, botId) else old(table)
      ensures Valid() && c in bots && OnlyDrops()
    {
      hide Coherent;
      var findbot;
      ghost var found;
      findbot, found := GetOwner(botId);
      told := true;
      NoAliases(c, bot);
      assert table[c].clientId == c;
      if findbot != null && findbot.clientId != bot.clientId {
        told := findbot.LogoutOrShutdown(sent);
        if told {
          CloseAndDrop(findbot.clientId, findbot);
        }
      }
    }

    /** loginStaging of a bot of the hub. */
    method StageBot(c: string, bot: ChatBot, botId: string, userName: string, info: LoginInfo) returns (staged: bool)
      requires Valid() && c in bots && bots[c] == bot
      requires table[c].Staged(botId, userName, info).Some? ==>
                 Inv(table[c := table[c].Staged(botId, userName, info).value])
      modifies this`table, bot
      ensures Valid() && bots == old(bots)
      ensures staged == old(table)[c].Staged(botId, userName, info).Some?
      ensures table == if staged then old(table)[c := old(table)[c].Staged(botId, userName, info).value] else old(table)
    {
      NoAliases(c, bot);
      staged := bot.LoginStaging(botId, userName, info);
      if staged {
        Sync(c, bot);
      }
    }

    /** loginDone of a bot of the hub. */
    method LogInBot(c: string, bot: ChatBot, botId: string, userName: string, info: LoginInfo)
      requires Valid() && c in bots && bots[c] == bot
      requires Inv(LogIn(table, c, botId, userName, info))
      modifies this`table, bot
      ensures Valid() && table == LogIn(old(table), c, botId, userName, info)
    {
      NoAliases(c, bot);
      var done := bot.LoginDone(botId, userName, info);
      if done {
        Sync(c, bot);
      }
    }

    /** LOGINDONE's first half: the id is taken from whoever has it, and the bot staged. */
    method Stage(c: string, bot: ChatBot, botId: string, userName: string, info: LoginInfo, dropSent: bool)
      returns (staged: bool)
      requires Valid() && c in bots && bots[c] == bot && table[c].IsWechat() && botId != ""
      modifies this, bots.Values
      ensures Valid() && c in bots && OnlyDrops()
      ensures staged == StageStep(old(table), c, botId, userName, info, dropSent).1
      ensures table == StageStep(old(table), c, botId, userName, info, dropSent).0
    {
      StageKeeps(table, c, botId, userName, info, dropSent);
      var told := DropOther(c, bot, botId, dropSent);
      if !told {
        return false;
      }
      ghost var s1 := table;
      assert StageStep(old(table), c, botId, userName, info, dropSent)
          == var b := s1[c].Staged(botId, userName, info); if b.None? then (s1, false) else (s1[c := b.value], true);
      staged := StageBot(c, bot, botId, userName, info);
    }

    /** LOGINDONE, the older id's owner: told unless the client is a MACPRO one, and dropped,
        even if it is the client itself. */
    method DropOldOwner(bot: ChatBot, oldId: string, sent: bool) returns (told: bool)
      requires Valid() && bot in bots.Values && oldId != ""
      modifies this, bots.Values
      ensures told == (sent || old(bot.clientType) == WECHATMACPRO || WithoutOwner(old(table), oldId) == old(table))
      ensures table == if told then WithoutOwner(old(table), oldId) else old(table)
      ensures Valid() && OnlyDrops()
    {
      hide Coherent;
      var findbot;
      ghost var found;
      findbot, found := GetOwner(oldId);
      told := true;
      if findbot != null {
        if bot.clientType != WECHATMACPRO {
          told := findbot.LogoutOrShutdown(sent);
        }
        if told {
          CloseAndDrop(findbot.clientId, findbot);
        }
      }
    }

    /** LOGINDONE's second half: the web server's answer, migration, and login. */
    method Migrate(c: string, bot: ChatBot, userName: string, info: LoginInfo,
                   reply: StageReply, oldDropSent: bool, migrateSent: bool)
      requires Valid() && c in bots && bots[c] == bot && table[c].status == LoggingStaging
      modifies this, bots.Values
      ensures Valid() && table == MigrateStep(old(table), c, userName, info, reply, oldDropSent, migrateSent)
    {
      MigrateKeeps(table, c, userName, info, reply, oldDropSent, migrateSent);
      if reply.Unusable? {
        return;
      }
      if reply.NoOldId? || reply.botId == "" {
        LogInBot(c, bot, bot.botId, userName, info);
        return;
      }
      var told := DropOldOwner(bot, reply.botId, oldDropSent);
      if !told || !migrateSent {
        return;
      }
      MigrateBot(c, bot, reply.botId, userName, info);
    }

    /** botMigrate and loginDone; a bot that is gone from the table changes nothing in it. */
    method MigrateBot(c: string, bot: ChatBot, oldId: string, userName: string, info: LoginInfo)
      requires Valid() && if c in bots then bots[c] == bot else bot !in bots.Values
      requires c in bots ==> Inv(LogIn(table[c := table[c].(botId := oldId)], c, oldId, userName, info))
      modifies this`table, bot
      ensures Valid()
      ensures table == if c in old(table)
                       then LogIn(old(table)[c := old(table)[c].(botId := oldId)], c, oldId, userName, info)
                       else old(table)
    {
      hide Coherent;
      if c in bots {
        NoAliases(c, bot);
      }
      bot.botId := oldId;
      var done := bot.LoginDone(oldId, userName, info);
      if c in bots {
        assert table[c := bot.View()] == LogIn(table[c := table[c].(botId := oldId)], c, oldId, userName, info);
        Sync(c, bot);
      }
    }

    /** The LOGINDONE handler. */
    method OnLoginDone(c: string, botId: string, userName: string, info: LoginInfo,
                       dropSent: bool, reply: StageReply, oldDropSent: bool, migrateSent: bool)
      requires Valid()
      modifies this, bots.Values
      ensures Valid()
      ensures table == LoginDoneStep(old(table), c, botId, userName, info, dropSent, reply, oldDropSent, migrateSent)
    {
      hide Coherent;
      var bot := GetBot(c);
      if bot == null {
        return;
      }
      if bot.clientType == WECHATBOT || bot.clientType == WECHATMACPRO {
        if botId == "" {
          return;
        }
        StageKeeps(table, c, botId, userName, info, dropSent);
        var staged := Stage(c, bot, botId, userName, info, dropSent);
        if staged {
          Migrate(c, bot, userName, info, reply, oldDropSent, migrateSent);
        }
      } else if bot.clientType == QQBOT {
        QQLoginKeeps(table, c);
        LogInBot(c, bot, "", "", LoginInfo("", "", ""));
      }
    }
  
    /** The simple handlers that change one bot: a failed ping, LOGINSCAN, UPDATETOKEN, LOGINFAILED. */
    method OnPingFailed(c: string)
      requires Valid()
      modifies this`table, bots.Values
      ensures Valid() && table == Step(old(table), PingFailed(c))
    {
      hide Coherent;
      var bot := GetBot(c);
      if bot != null {
        NoAliases(c, bot);
        StepKeepsInv(table, PingFailed(c));
        bot.status := FailingDisconnected;
        Sync(c, bot);
      }
    }

    method OnLoginScan(c: string, url: string)
      requires Valid()
      modifies this`table, bots.Values
      ensures Valid() && table == Step(old(table), LoginScan(c, url))
    {
      hide Coherent;
      var bot := GetBot(c);
      if && bot != null && (bot.clientType == WECHATBOT || bot.clientType == WECHATMACPRO)
         && bot.status == LoggingPrepared {
        NoAliases(c, bot);
        StepKeepsInv(table, LoginScan(c, url));
        bot.scanUrl := url;
        Sync(c, bot);
      }
    }

    method OnUpdateToken(c: string, userName: string, token: string)
      requires Valid()
      modifies this`table, bots.Values
      ensures Valid() && table == Step(old(table), UpdateToken(c, userName, token))
    {
      hide Coherent;
      var bot := GetBot(c);
      if bot != null && bot.login == userName {
        NoAliases(c, bot);
        StepKeepsInv(table, UpdateToken(c, userName, token));
        bot.loginInfo := bot.loginInfo.(token := token);
        Sync(c, bot);
      }
    }

    method OnLoginFailed(c: string)
      requires Valid()
      modifies this`table, bots.Values
      ensures Valid() && table == Step(old(table), LoginFailed(c))
    {
      hide Coherent;
      var bot := GetBot(c);
      if bot != null && bot.status == LoggingPrepared {
        NoAliases(c, bot);
        StepKeepsInv(table, LoginFailed(c));
        bot.status := LoggingFailed;
        Sync(c, bot);
      }
    }

    /** LOGOUTDONE: back to registered, then closed and dropped. */
    method OnLogoutDone(c: string)
      requires Valid()
      modifies this, bots.Values
      ensures Valid() && table == Step(old(table), LogoutDone(c))
    {
      hide Coherent;
      var bot := GetBot(c);
      if bot != null {
        NoAliases(c, bot);
        bot.status := BeginRegistered;
        CloseAndDrop(c, bot);
      }
      assert c !in old(table) ==> old(table) - {c} == old(table);
    }

    /** The ping loop gave up: the hub drops the bot. */
    method OnPingGivenUp(c: string)
      requires Valid()
      modifies this
      ensures Valid() && table == Step(old(table), PingGivenUp(c))
    {
      hide Coherent;
      DropKeeps(table, c);
      bots, table := bots - {c}, table - {c};
    }

    method OnBotLogin(clientId: string, clientType: string, botId: string, login: string)
      returns (ghost available: Option<string>)
      requires Valid()
      modifies this`table, bots.Values
      ensures available.Some? ==> && available.value in old(table)
                                  && old(table)[available.value].clientType == clientType
                                  && old(table)[available.value].status == BeginRegistered
      ensures clientId == "" && available.None? ==>
                forall k | k in old(table) ::
                  old(table)[k].clientType != clientType || old(table)[k].status != BeginRegistered
      ensures Valid() && table == BotLoginStep(old(table), clientId, botId, login, available)
    {
      hide Coherent;
      var c := clientId;
      available := None;
      if clientId == "" {
        var found := GetAvailableBot(clientType);
        available := found;
        if found.None? {
          return;
        }
        c := found.value;
      }
      var bot := GetBot(c);
      if bot == null || botId == "" {
        return;
      }
      var thebot;
      ghost var owner;
      thebot, owner := GetOwner(botId);
      if thebot != null {
        return;
      }
      BotLoginKeeps(table, clientId, botId, login, available);
      PrepareBot(c, bot, botId, login);
    }

    method PrepareBot(c: string, bot: ChatBot, botId: string, login: string)
      requires Valid() && c in bots && bots[c] == bot
      requires table[c].Prepared(botId, login).Some? ==> Inv(table[c := table[c].Prepared(botId, login).value])
      modifies this`table, bot
      ensures var b := old(table)[c].Prepared(botId, login);
              Valid() && table == if b.Some? then old(table)[c := b.value] else old(table)
    {
      NoAliases(c, bot);
      var ok := bot.PrepareLogin(botId, login);
      if ok {
        Sync(c, bot);
      }
    }

    method OnBotLogout(botId: string, sent: bool) returns (ghost found: Option<string>)
      requires Valid()
      modifies this, bots.Values
      ensures FoundById(old(table), botId, found)
      ensures Valid() && table == Step(old(table), Event.BotLogout(botId, found, sent))
    {
      hide Coherent;
      var bot;
      var key;
      bot, key := GetBotById(botId);
      found := key;
      if bot == null {
        return;
      }
      NoAliases(key.value, bot);
      var ok := bot.Logout(sent);
      if ok {
        CloseAndDrop(key.value, bot);
      }
    }

    method ShutdownBot(c: string, bot: ChatBot, sent: bool)
      requires Valid() && c in bots && bots[c] == bot
      modifies this`table, bot
      ensures Valid() && table == Step(old(table), Event.BotShutdown(Some(c), sent))
    {
      hide Coherent;
      NoAliases(c, bot);
      StepKeepsInv(table, Event.BotShutdown(Some(c), sent));
      var ok := bot.Shutdown(sent);
      if ok {
        Sync(c, bot);
      }
    }

    /** BotShutdown, by bot id or else by client id; with neither the code panics, nothing being changed yet. */
    method OnBotShutdown(botId: string, clientId: string, sent: bool)
      returns (crashed: bool, ghost found: Option<string>)
      requires Valid()
      modifies this`table, bots.Values
      ensures crashed <==> botId == "" && clientId == ""
      ensures if botId != "" then FoundById(old(table), botId, found)
              else found == if clientId != "" && clientId in old(table) then Some(clientId) else None
      ensures Valid() && table == Step(old(table), Event.BotShutdown(found, sent))
    {
      crashed := false;
      var bot, key := null, None;
      if |botId| > 0 {
        bot, key := GetBotById(botId);
      } else if |clientId| == 0 {
        found := None;
        return true, found;
      } else {
        bot := GetBot(clientId);
        key := if bot == null then None else Some(clientId);
      }
      found := key;
      if bot != null {
        ShutdownBot(key.value, bot, sent);
      }
    }
  }
}
