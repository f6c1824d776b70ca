/**
 The hub's bot registry as a state machine: what every event does to the table of bots
 (server/chatbothub/chathub.go:508-1030, chatbot.go:131-457, botmanage.go:23-285).

 Step is one hub event. The web server's answer and the success of each send are part of
 the event. A failed send ends the event where it is; in three places the code then reads
 through a nil pointer, and the hub with its table is gone.
 */
module BotRegistry {
  import opened Wrappers

  datatype Status =
    | BeginNew | BeginRegistered
    | LoggingPrepared | LoggingChallenged | LoggingFailed | LoggingStaging
    | WorkingLoggedIn | ShuttingdownDone | FailingDisconnected

  const WECHATBOT := "WECHATBOT"
  const WECHATMACPRO := "WECHATMACPRO"
  const QQBOT := "QQBOT"

  datatype LoginInfo = LoginInfo(wxData: string, token: string, alias: string)

  datatype Bot = Bot(clientId: string, clientType: string, login: string, loginInfo: LoginInfo,
                     status: Status, botId: string, scanUrl: string)
  {
    predicate CanReLogin() {
      && status == BeginRegistered && botId != "" && login != ""
      && (clientType != WECHATMACPRO ==> loginInfo.wxData != "" && loginInfo.token != "")
    }

    predicate IsWechat() {
      clientType == WECHATBOT || clientType == WECHATMACPRO
    }

    function ClearLoginInfo(): Bot {
      this.(botId := "", login := "", loginInfo := loginInfo.(wxData := "", token := ""))
    }

    /** register, on a bot whose ping loop has been stopped */
    function Registered(clientId: string, clientType: string): Bot {
      this.(clientId := clientId, clientType := clientType, status := BeginRegistered)
    }

    /** prepareLogin; None: the status does not allow it */
    function Prepared(botId: string, login: string): Option<Bot> {
      if status != BeginRegistered && status != LoggingFailed then None
      else Some(this.(botId := botId, login := login, scanUrl := "", status := LoggingPrepared))
    }

    /** What REGISTER does to a registered bot. */
    function ReLoginOrForget(): Bot {
      if CanReLogin() then this.(scanUrl := "", status := LoggingPrepared) else ClearLoginInfo()
    }

    function Staged(botId: string, login: string, info: LoginInfo): Option<Bot> {
      if status != BeginRegistered && status != LoggingPrepared then None
      else Some(this.(botId := botId, login := login, loginInfo := info, scanUrl := "", status := LoggingStaging))
    }

    function LoggedIn(botId: string, login: string, info: LoginInfo): Option<Bot> {
      if status != BeginRegistered && status != LoggingPrepared && status != LoggingStaging then None
      else Some(this.(botId := botId, login := login, loginInfo := info, scanUrl := "", status := WorkingLoggedIn))
    }
  }

  /** NewChatBot */
  const NEW_BOT := Bot("", "", "", LoginInfo("", "", ""), BeginNew, "", "")

  /** hub.bots: client id to bot. */
  type Bots = map<string, Bot>

  /** How the web server answers the loginstage request: nothing usable, no older id for this
      login, or the older id to migrate to. */
  datatype StageReply = Unusable | NoOldId | OldId(botId: string)

  datatype Event =
    | Register(clientId: string, clientType: string)
    | PingFailed(clientId: string)                    // a ping could not be sent
    | PingGivenUp(clientId: string)                   // the ping loop ended with an error
    | BotLogin(clientId: string, clientType: string, botId: string, login: string, available: Option<string>)
    | LoginDone(clientId: string, botId: string, userName: string, info: LoginInfo,
                dropSent: bool, reply: StageReply, oldDropSent: bool, migrateSent: bool)
    | LoginScan(clientId: string, url: string)
    | UpdateToken(clientId: string, userName: string, token: string)
    | LoginFailed(clientId: string)
    | LogoutDone(clientId: string)
    | BotLogout(botId: string, found: Option<string>, sent: bool)
    | BotShutdown(found: Option<string>, sent: bool)

  /** k is a client whose bot has this bot id: a possible answer of GetBotById. */
  predicate Owns(s: Bots, k: string, botId: string) {
    k in s && s[k].botId == botId
  }

  /** What GetBotById can return: an owner if there is one. */
  predicate FoundById(s: Bots, botId: string, found: Option<string>) {
    match found
    case Some(k) => Owns(s, k, botId)
    case None => forall k | k in s :: s[k].botId != botId
  }

  lemma FoundSome(s: Bots, botId: string, found: Option<string>)
    requires FoundById(s, botId, found)
    ensures found.Some? <==> exists k :: Owns(s, k, botId)
  {
    if found.Some? { assert Owns(s, found.value, botId); }
  }

  /** GetBotById, for an id that at most one bot has. */
  function OwnerOf(s: Bots, botId: string): (found: Option<string>)
    requires UniqueIds(s) && botId != ""
    ensures FoundById(s, botId, found)
  {
    if exists k | k in s :: s[k].botId == botId
    then OwnersAgree(s, botId); var k :| k in s && s[k].botId == botId; Some(k)
    else None
  }

  /** No two clients share a bot id. */
  predicate UniqueIds(s: Bots) {
    forall k, l | k in s && l in s && k != l && s[k].botId != "" :: s[k].botId != s[l].botId
  }

  lemma OwnersAgree(s: Bots, botId: string)
    requires UniqueIds(s) && botId != ""
    ensures forall k, l | Owns(s, k, botId) && Owns(s, l, botId) :: k == l
  {
  }

  /** Status and identity of a bot in the table. */
  predicate Coherent(b: Bot) {
    && b.status != BeginNew && b.status != LoggingChallenged
    && (b.status == BeginRegistered ==> b.botId == "" && b.login == "")
    && (b.status == LoggingPrepared || b.status == LoggingFailed || b.status == LoggingStaging ==> b.botId != "")
    && (b.status == LoggingStaging ==> b.IsWechat())
    && (b.status == WorkingLoggedIn ==>
          b.scanUrl == "" && (if b.clientType == QQBOT then b.botId == "" else b.IsWechat() && b.botId != ""))
  }

  /** The invariant of the registry. */
  predicate Inv(s: Bots) {
    && (forall k | k in s :: s[k].clientId == k && Coherent(s[k]))
    && UniqueIds(s)
  }

  /** A table that satisfies it. */
  type Registry = s: Bots | Inv(s) witness map[]

  // ---- the events --------------------------------------------------------------------

  /** The bot that REGISTER leaves: it logs in again with what is known, or forgets it. */
  function RegisteredBot(b: Bot, clientId: string, clientType: string): Bot {
    b.Registered(clientId, clientType).ReLoginOrForget()
  }

  function RegisterStep(s: Bots, clientId: string, clientType: string): Bots {
    s[clientId := RegisteredBot(if clientId in s then s[clientId] else NEW_BOT, clientId, clientType)]
  }

  predicate IsAvailable(s: Bots, clientType: string, k: string) {
    k in s && s[k].clientType == clientType && s[k].status == BeginRegistered
  }

  /** available is the client GetAvailableBot met first, if any. */
  function BotLoginStep(s: Bots, clientId: string, botId: string, login: string, available: Option<string>): Bots
    requires UniqueIds(s)
  {
    var target := if clientId == "" then available else if clientId in s then Some(clientId) else None;
    if target.None? || target.value !in s || botId == "" || OwnerOf(s, botId).Some? then s
    else
      var prepared := s[target.value].Prepared(botId, login);
      if prepared.None? then s else s[target.value := prepared.value]
  }

  /** LOGINDONE of a wechat client, first half: whoever else has the id is logged out or shut
      down and dropped, then the client is staged. None: the event ended early, or could not stage. */
  function StageStep(s: Bots, c: string, botId: string, userName: string, info: LoginInfo, dropSent: bool): (Bots, bool)
    requires UniqueIds(s) && c in s && botId != ""
  {
    var s1 := WithoutOther(s, c, botId);
    if !(dropSent || s1 == s) then (s, false)
    else
      var staged := s1[c].Staged(botId, userName, info);
      if staged.None? then (s1, false) else (s1[c := staged.value], true)
  }

  /** The table without the owner of botId, unless that is c. */
  function WithoutOther(s: Bots, c: string, botId: string): (s1: Bots)
    requires UniqueIds(s) && botId != ""
    ensures forall k :: k in s1 <==> k in s && (k == c || s[k].botId != botId)
    ensures forall k | k in s1 :: s1[k] == s[k]
    ensures UniqueIds(s1)
  {
    var owner := OwnerOf(s, botId);
    OwnersAgree(s, botId);
    if owner.Some? && owner.value != c then s - {owner.value} else s
  }

  /** The table without the owner of botId. */
  function WithoutOwner(s: Bots, botId: string): (s1: Bots)
    requires UniqueIds(s) && botId != ""
    ensures forall k :: k in s1 <==> k in s && s[k].botId != botId
    ensures forall k | k in s1 :: s1[k] == s[k]
    ensures UniqueIds(s1)
  {
    var owner := OwnerOf(s, botId);
    OwnersAgree(s, botId);
    if owner.Some? then s - {owner.value} else s
  }

  /** Second half: migrate to the older id if there is one, and log in. */
  function MigrateStep(s: Bots, c: string, userName: string, info: LoginInfo,
                       reply: StageReply, oldDropSent: bool, migrateSent: bool): Bots
    requires UniqueIds(s) && c in s
  {
    match reply
    case Unusable => s
    case NoOldId => LogIn(s, c, s[c].botId, userName, info)
    case OldId(oldId) =>
      if oldId == "" then LogIn(s, c, s[c].botId, userName, info)
      else
        var s1 := WithoutOwner(s, oldId);
        // a MACPRO client tells the old owner nothing
        if !(oldDropSent || s[c].clientType == WECHATMACPRO || s1 == s) then s
        else
          // the client itself may have had the older id: then it is gone from the table
          if c !in s1 || !migrateSent then s1
          else LogIn(s1[c := s1[c].(botId := oldId)], c, oldId, userName, info)
  }

  function LogIn(s: Bots, c: string, botId: string, userName: string, info: LoginInfo): Bots
    requires c in s
  {
    var done := s[c].LoggedIn(botId, userName, info);
    if done.None? then s else s[c := done.value]
  }

  function LoginDoneStep(s: Bots, c: string, botId: string, userName: string, info: LoginInfo,
                         dropSent: bool, reply: StageReply, oldDropSent: bool, migrateSent: bool): Bots
    requires UniqueIds(s)
  {
    if c !in s then s
    else if s[c].IsWechat() then
      if botId == "" then s
      else
        var (s1, staged) := StageStep(s, c, botId, userName, info, dropSent);
        if staged && UniqueIds(s1) then MigrateStep(s1, c, userName, info, reply, oldDropSent, migrateSent) else s1
    else if s[c].clientType == QQBOT then LogIn(s, c, "", "", LoginInfo("", "", ""))
    else s
  }

  /** One hub event. */
  function Step(s: Bots, e: Event): Bots
    requires UniqueIds(s)
  {
    match e
    case Register(c, clientType) => RegisterStep(s, c, clientType)
    case PingFailed(c) => if c in s then s[c := s[c].(status := FailingDisconnected)] else s
    case PingGivenUp(c) => s - {c}
    case BotLogin(c, clientType, botId, login, available) => BotLoginStep(s, c, botId, login, available)
    case LoginDone(c, botId, userName, info, dropSent, reply, oldDropSent, migrateSent) =>
      LoginDoneStep(s, c, botId, userName, info, dropSent, reply, oldDropSent, migrateSent)
    case LoginScan(c, url) =>
      if c in s && s[c].IsWechat() && s[c].status == LoggingPrepared then s[c := s[c].(scanUrl := url)] else s
    case UpdateToken(c, userName, token) =>
      if c in s && s[c].login == userName then s[c := s[c].(loginInfo := s[c].loginInfo.(token := token))] else s
    case LoginFailed(c) =>
      if c in s && s[c].status == LoggingPrepared then s[c := s[c].(status := LoggingFailed)] else s
    case LogoutDone(c) => s - {c}
    case BotLogout(botId, found, sent) =>
      if found.Some? && found.value in s && sent
         && (s[found.value].status == WorkingLoggedIn || s[found.value].status == LoggingStaging)
      then s - {found.value} else s
    case BotShutdown(found, sent) =>
      if found.Some? && found.value in s && sent && s[found.value].status != WorkingLoggedIn
      then s[found.value := s[found.value].(status := ShuttingdownDone)] else s
  }

  /** Whatever order the map is walked in, GetBotById finds the owner. */
  lemma FoundIsOwner(s: Bots, botId: string, found: Option<string>)
    requires UniqueIds(s) && botId != "" && FoundById(s, botId, found)
    ensures found == OwnerOf(s, botId)
  {
    OwnersAgree(s, botId);
  }

  // ---- what every event keeps --------------------------------------------------------

  lemma DropKeeps(s: Bots, k: string)
    requires Inv(s)
    ensures Inv(s - {k})
  {
  }

  lemma UpdateKeeps(s: Bots, c: string, b: Bot)
    requires Inv(s) && b.clientId == c && Coherent(b)
    requires b.botId == "" || forall k | k in s && k != c :: s[k].botId != b.botId
    ensures Inv(s[c := b])
  {
  }

  lemma RegisterKeeps(s: Bots, c: string, clientType: string)
    requires Inv(s)
    ensures Inv(RegisterStep(s, c, clientType))
  {
    UpdateKeeps(s, c, RegisteredBot(if c in s then s[c] else NEW_BOT, c, clientType));
  }

  lemma BotLoginKeeps(s: Bots, c: string, botId: string, login: string, available: Option<string>)
    requires Inv(s)
    ensures Inv(BotLoginStep(s, c, botId, login, available))
  {
    var target := if c == "" then available else if c in s then Some(c) else None;
    if target.Some? && target.value in s && botId != "" && OwnerOf(s, botId).None? {
      var prepared := s[target.value].Prepared(botId, login);
      if prepared.Some? { UpdateKeeps(s, target.value, prepared.value); }
    }
  }

  lemma StageKeeps(s: Bots, c: string, botId: string, userName: string, info: LoginInfo, dropSent: bool)
    requires Inv(s) && c in s && s[c].IsWechat() && botId != ""
    ensures var (s1, staged) := StageStep(s, c, botId, userName, info, dropSent);
            Inv(s1) && (staged ==> c in s1 && s1[c].status == LoggingStaging && s1[c].botId == botId)
  {
    var s1 := WithoutOther(s, c, botId);
    var staged := s1[c].Staged(botId, userName, info);
    if staged.Some? { UpdateKeeps(s1, c, staged.value); }
  }

  lemma MigrateKeeps(s: Bots, c: string, userName: string, info: LoginInfo,
                     reply: StageReply, oldDropSent: bool, migrateSent: bool)
    requires Inv(s) && c in s && s[c].status == LoggingStaging
    ensures Inv(MigrateStep(s, c, userName, info, reply, oldDropSent, migrateSent))
  {
    var done := s[c].(login := userName, loginInfo := info, scanUrl := "", status := WorkingLoggedIn);
    UpdateKeeps(s, c, done);
    if reply.OldId? && reply.botId != "" {
      var s1 := WithoutOwner(s, reply.botId);
      if c in s1 {
        UpdateKeeps(s1, c, s1[c].(botId := reply.botId));
        UpdateKeeps(s1[c := s1[c].(botId := reply.botId)], c, done.(botId := reply.botId));
      }
    }
  }

  lemma QQLoginKeeps(s: Bots, c: string)
    requires Inv(s) && c in s && s[c].clientType == QQBOT
    ensures Inv(LogIn(s, c, "", "", LoginInfo("", "", "")))
  {
    var done := s[c].LoggedIn("", "", LoginInfo("", "", ""));
    if done.Some? { UpdateKeeps(s, c, done.value); }
  }

  lemma {:induction false} LoginDoneKeeps(s: Bots, c: string, botId: string, userName: string, info: LoginInfo,
                                          dropSent: bool, reply: StageReply, oldDropSent: bool, migrateSent: bool)
    requires Inv(s)
    ensures Inv(LoginDoneStep(s, c, botId, userName, info, dropSent, reply, oldDropSent, migrateSent))
  {
    if c in s && s[c].IsWechat() && botId != "" {
      StageKeeps(s, c, botId, userName, info, dropSent);
      var (s1, staged) := StageStep(s, c, botId, userName, info, dropSent);
      if staged { MigrateKeeps(s1, c, userName, info, reply, oldDropSent, migrateSent); }
    } else if c in s && s[c].clientType == QQBOT {
      QQLoginKeeps(s, c);
    }
  }

  /** Events that change status, scan url or token of one bot, or nothing. */
  lemma {:induction false} StatusEventKeeps(s: Bots, e: Event)
    requires Inv(s) && (e.PingFailed? || e.LoginScan? || e.UpdateToken? || e.LoginFailed? || e.BotShutdown?)
    ensures Inv(Step(s, e))
  {
    match e
    case PingFailed(c) => if c in s { UpdateKeeps(s, c, s[c].(status := FailingDisconnected)); }
    case LoginScan(c, url) => if c in s && s[c].status == LoggingPrepared { UpdateKeeps(s, c, s[c].(scanUrl := url)); }
    case UpdateToken(c, userName, token) =>
      if c in s { UpdateKeeps(s, c, s[c].(loginInfo := s[c].loginInfo.(token := token))); }
    case LoginFailed(c) =>
      if c in s && s[c].status == LoggingPrepared { UpdateKeeps(s, c, s[c].(status := LoggingFailed)); }
    case BotShutdown(found, sent) =>
      if found.Some? && found.value in s {
        UpdateKeeps(s, found.value, s[found.value].(status := ShuttingdownDone));
      }
  }

  /** Every event, with every outcome of the calls it makes, keeps the invariant. */
  lemma {:induction false} StepKeepsInv(s: Bots, e: Event)
    requires Inv(s)
    ensures Inv(Step(s, e))
  {
    match e
    case Register(c, clientType) => RegisterKeeps(s, c, clientType);
    case PingGivenUp(c) => DropKeeps(s, c);
    case BotLogin(c, clientType, botId, login, available) => BotLoginKeeps(s, c, botId, login, available);
    case LoginDone(c, botId, userName, info, dropSent, reply, oldDropSent, migrateSent) =>
      LoginDoneKeeps(s, c, botId, userName, info, dropSent, reply, oldDropSent, migrateSent);
    case LogoutDone(c) => DropKeeps(s, c);
    case BotLogout(botId, found, sent) => if found.Some? { DropKeeps(s, found.value); }
    case PingFailed(_) => StatusEventKeeps(s, e);
    case LoginScan(_, _) => StatusEventKeeps(s, e);
    case UpdateToken(_, _, _) => StatusEventKeeps(s, e);
    case LoginFailed(_) => StatusEventKeeps(s, e);
    case BotShutdown(_, _) => StatusEventKeeps(s, e);
  }

  /** The table after a run of events from the start of the hub. In every reachable table the
      keys are the client ids, no two bots share a bot id, and status and identity agree. */
  function Run(events: seq<Event>): (s: Bots)
    ensures Inv(s)
  {
    if events == [] then map[]
    else
      var before := Run(events[..|events| - 1]);
      StepKeepsInv(before, events[|events| - 1]);
      Step(before, events[|events| - 1])
  }

  // ---- what a login does -------------------------------------------------------------

  predicate CanStage(b: Bot) {
    b.status == BeginRegistered || b.status == LoggingPrepared
  }

  /** The id the client ends up with: the older id the web server knows for the login, if any. */
  function FinalId(botId: string, reply: StageReply): string {
    if reply.OldId? && reply.botId != "" then reply.botId else botId
  }

  /** k has the id, and is not the client c. */
  predicate OtherOwner(s: Bots, c: string, k: string, botId: string) {
    k != c && Owns(s, k, botId)
  }

  /** Every call a LOGINDONE needs goes through. */
  predicate LoginSucceeds(s: Bots, e: Event)
    requires e.LoginDone?
  {
    && e.clientId in s && s[e.clientId].IsWechat() && e.botId != "" && CanStage(s[e.clientId])
    && ((exists k | k in s :: OtherOwner(s, e.clientId, k, e.botId)) ==> e.dropSent)
    && !e.reply.Unusable?
    && (FinalId(e.botId, e.reply) != e.botId ==>
          && e.migrateSent
          && ((exists k | k in s :: OtherOwner(s, e.clientId, k, e.reply.botId)) ==>
                e.oldDropSent || s[e.clientId].clientType == WECHATMACPRO))
    // the web server names an older id, never the one just staged
    && (e.reply.OldId? ==> e.reply.botId != e.botId)
  }

  lemma StageEffect(s: Bots, c: string, botId: string, userName: string, info: LoginInfo, dropSent: bool)
    requires Inv(s) && c in s && s[c].IsWechat() && botId != ""
    ensures var (s1, staged) := StageStep(s, c, botId, userName, info, dropSent);
            && (staged <==> CanStage(s[c]) && ((exists k | k in s :: OtherOwner(s, c, k, botId)) ==> dropSent))
            && (staged ==> && (forall k | k != c :: k in s1 <==> k in s && s[k].botId != botId)
                           && c in s1 && s1[c] == s[c].Staged(botId, userName, info).value)
            && forall k | k in s1 && k != c :: k in s && s1[k] == s[k]
  {
    var s1 := WithoutOther(s, c, botId);
    if k: string :| OtherOwner(s, c, k, botId) {
      assert k in s && k !in s1;
    } else {
      assert forall k | k in s :: !OtherOwner(s, c, k, botId);
      assert s1 == s;
    }
  }

  lemma MigrateIff(s: Bots, c: string, userName: string, info: LoginInfo,
                   reply: StageReply, oldDropSent: bool, migrateSent: bool)
    requires Inv(s) && c in s && s[c].status == LoggingStaging
    ensures var s' := MigrateStep(s, c, userName, info, reply, oldDropSent, migrateSent);
            var final := FinalId(s[c].botId, reply);
            && (c in s' && s'[c].status == WorkingLoggedIn <==>
                  && !reply.Unusable? && reply != OldId(s[c].botId)
                  && (final != s[c].botId ==>
                        && migrateSent
                        && ((exists k | k in s :: OtherOwner(s, c, k, final)) ==>
                              oldDropSent || s[c].clientType == WECHATMACPRO)))
            && (c in s' && s'[c].status == WorkingLoggedIn ==>
                  && s'[c].botId == final && s'[c].login == userName
                  && (forall k | k != c :: k in s' <==> k in s && s[k].botId != final))
  {
    var final := FinalId(s[c].botId, reply);
    if reply.OldId? && reply.botId != "" && s[c].botId != final {
      var s1 := WithoutOwner(s, final);
      if k: string :| OtherOwner(s, c, k, final) {
        assert k in s && k !in s1;
      } else {
        assert forall k | k in s :: !OtherOwner(s, c, k, final);
        assert s1 == s;
      }
    }
  }

  lemma MigrateFrame(s: Bots, c: string, userName: string, info: LoginInfo,
                     reply: StageReply, oldDropSent: bool, migrateSent: bool)
    requires Inv(s) && c in s && s[c].status == LoggingStaging
    ensures var s' := MigrateStep(s, c, userName, info, reply, oldDropSent, migrateSent);
            forall k | k in s' && k != c :: k in s && s'[k] == s[k]
  {
    hide UniqueIds;
  }

  lemma MigrateEffect(s: Bots, c: string, userName: string, info: LoginInfo,
                      reply: StageReply, oldDropSent: bool, migrateSent: bool)
    requires Inv(s) && c in s && s[c].status == LoggingStaging
    ensures var s' := MigrateStep(s, c, userName, info, reply, oldDropSent, migrateSent);
            var final := FinalId(s[c].botId, reply);
            && (c in s' && s'[c].status == WorkingLoggedIn <==>
                  && !reply.Unusable? && reply != OldId(s[c].botId)
                  && (final != s[c].botId ==>
                        && migrateSent
                        && ((exists k | k in s :: OtherOwner(s, c, k, final)) ==>
                              oldDropSent || s[c].clientType == WECHATMACPRO)))
            && (c in s' && s'[c].status == WorkingLoggedIn ==>
                  && s'[c].botId == final && s'[c].login == userName
                  && (forall k | k != c :: k in s' <==> k in s && s[k].botId != final))
            && forall k | k in s' && k != c :: k in s && s'[k] == s[k]
  {
    hide *;
    MigrateIff(s, c, userName, info, reply, oldDropSent, migrateSent);
    MigrateFrame(s, c, userName, info, reply, oldDropSent, migrateSent);
  }

  /** A LOGINDONE leaves the other clients as they are, or drops them, and a client that is logged in. */
  lemma {:induction false} LoginDoneFrame(s: Bots, e: Event)
    requires Inv(s) && e.LoginDone? && e.clientId in s && s[e.clientId].IsWechat()
    ensures var s', c := Step(s, e), e.clientId;
            && (s[c].status == WorkingLoggedIn ==> c in s' && s'[c] == s[c])
            && forall k | k in s' && k != c :: k in s && s'[k] == s[k]
  {
    hide UniqueIds, LoginSucceeds, FinalId;
    var c := e.clientId;
    if e.botId != "" {
      StageEffect(s, c, e.botId, e.userName, e.info, e.dropSent);
      StageKeeps(s, c, e.botId, e.userName, e.info, e.dropSent);
      var (s1, staged) := StageStep(s, c, e.botId, e.userName, e.info, e.dropSent);
      if staged { MigrateEffect(s1, c, e.userName, e.info, e.reply, e.oldDropSent, e.migrateSent); }
    }
  }

  lemma {:induction false} LoginDoneIff(s: Bots, e: Event)
    requires Inv(s) && e.LoginDone? && e.clientId in s && s[e.clientId].IsWechat()
    ensures var s', c := Step(s, e), e.clientId;
            && (LoginSucceeds(s, e) <==>
                  s[c].status != WorkingLoggedIn && c in s' && s'[c].status == WorkingLoggedIn)
            && (LoginSucceeds(s, e) ==>
                  && s'[c].botId == FinalId(e.botId, e.reply) && s'[c].login == e.userName
                  && (forall k | k != c :: k in s' <==>
                        k in s && s[k].botId != e.botId && s[k].botId != FinalId(e.botId, e.reply)))
  {
    hide UniqueIds;
    var c := e.clientId;
    if e.botId != "" {
      StageEffect(s, c, e.botId, e.userName, e.info, e.dropSent);
      StageKeeps(s, c, e.botId, e.userName, e.info, e.dropSent);
      var (s1, staged) := StageStep(s, c, e.botId, e.userName, e.info, e.dropSent);
      if staged {
        MigrateEffect(s1, c, e.userName, e.info, e.reply, e.oldDropSent, e.migrateSent);
        var final := FinalId(e.botId, e.reply);
        assert forall k | final != e.botId :: OtherOwner(s, c, k, final) == OtherOwner(s1, c, k, final);
      }
    }
  }

  /** A LOGINDONE logs its client in exactly when every call goes through. Then the client, and no
      one else, has the final id; whoever had that id or the announced one is gone; and nothing else
      changed. A client that is logged in already stays as it is. */
  lemma {:induction false} LoginDoneEffect(s: Bots, e: Event)
    requires Inv(s) && e.LoginDone? && e.clientId in s && s[e.clientId].IsWechat()
    ensures var s', c := Step(s, e), e.clientId;
            && (LoginSucceeds(s, e) <==>
                  s[c].status != WorkingLoggedIn && c in s' && s'[c].status == WorkingLoggedIn)
            && (s[c].status == WorkingLoggedIn ==> c in s' && s'[c] == s[c])
            && (LoginSucceeds(s, e) ==>
                  && s'[c].botId == FinalId(e.botId, e.reply) && s'[c].login == e.userName
                  && (forall k | k != c :: k in s' <==>
                        k in s && s[k].botId != e.botId && s[k].botId != FinalId(e.botId, e.reply)))
            && forall k | k in s' && k != c :: k in s && s'[k] == s[k]
  {
    hide *;
    LoginDoneIff(s, e);
    LoginDoneFrame(s, e);
  }

  /** What holds of the bots of every reachable table. */
  lemma ReachableBots(events: seq<Event>, k: string)
    requires k in Run(events)
    ensures var s, b := Run(events), Run(events)[k];
            && b.clientId == k && (forall l | l in s && l != k && b.botId != "" :: s[l].botId != b.botId)
            && b.status in {BeginRegistered, LoggingPrepared, LoggingFailed, LoggingStaging, WorkingLoggedIn,
                            ShuttingdownDone, FailingDisconnected}
            && (b.status == BeginRegistered ==> b.botId == "" && b.login == "")
            && (b.status in {LoggingPrepared, LoggingFailed, LoggingStaging} ==> b.botId != "")
            && (b.status in {LoggingStaging, WorkingLoggedIn} && b.clientType != QQBOT ==>
                  b.botId != "" && b.clientType in {WECHATBOT, WECHATMACPRO})
            && (b.status == WorkingLoggedIn ==> b.scanUrl == "" && (b.clientType == QQBOT ==> b.botId == ""))
  {
  }

  // ---- what each of the other events does --------------------------------------------

  /** Between the tables at most the bot of c differs. */
  predicate OnlyChanges(s: Bots, s': Bots, c: string) {
    s'.Keys == s.Keys && forall k | k in s && k != c :: s'[k] == s[k]
  }

  /** Between the tables the client c is gone, and nothing else changed. */
  predicate OnlyDrops(s: Bots, s': Bots, c: string) {
    s'.Keys == s.Keys - {c} && forall k | k in s' :: s'[k] == s[k]
  }

  /** The client is known well enough to be logged in again: it has an id and a login, and unless it is a
      MACPRO client it has login data and token. */
  predicate KnownClient(s: Bots, c: string, clientType: string) {
    && c in s && s[c].botId != "" && s[c].login != ""
    && (clientType == WECHATMACPRO || (s[c].loginInfo.wxData != "" && s[c].loginInfo.token != ""))
  }

  /** A REGISTER has a known client log in again, under the id and login it had; any other is registered
      with no identity. The other clients stay. */
  lemma RegisterEffect(s: Bots, c: string, clientType: string)
    requires UniqueIds(s)
    ensures var s' := Step(s, Register(c, clientType));
            && s'.Keys == s.Keys + {c} && (forall k | k in s && k != c :: s'[k] == s[k])
            && s'[c].clientId == c && s'[c].clientType == clientType
            && (s'[c].status == LoggingPrepared <==> KnownClient(s, c, clientType))
            && (KnownClient(s, c, clientType) ==>
                  && s'[c].botId == s[c].botId && s'[c].login == s[c].login && s'[c].loginInfo == s[c].loginInfo
                  && s'[c].scanUrl == "")
            && (!KnownClient(s, c, clientType) ==>
                  && s'[c].status == BeginRegistered && s'[c].botId == "" && s'[c].login == ""
                  && s'[c].loginInfo.wxData == "" && s'[c].loginInfo.token == ""
                  && s'[c].loginInfo.alias == (if c in s then s[c].loginInfo.alias else ""))
  {
  }

  /** LOGINSCAN gives a wechat client that is to log in the url to scan. */
  lemma LoginScanEffect(s: Bots, c: string, url: string)
    requires UniqueIds(s)
    ensures var s' := Step(s, LoginScan(c, url));
            && OnlyChanges(s, s', c)
            && (c in s ==> s'[c] == s[c].(scanUrl := s'[c].scanUrl))
            && (c in s ==>
                  s'[c].scanUrl == if s[c].clientType in {WECHATBOT, WECHATMACPRO} && s[c].status == LoggingPrepared
                                   then url else s[c].scanUrl)
  {
  }

  /** UPDATETOKEN gives the client its token, if it has this login. */
  lemma UpdateTokenEffect(s: Bots, c: string, userName: string, token: string)
    requires UniqueIds(s)
    ensures var s' := Step(s, UpdateToken(c, userName, token));
            && OnlyChanges(s, s', c)
            && (c in s && s[c].login == userName ==> s'[c] == s[c].(loginInfo := s[c].loginInfo.(token := token)))
            && (c in s && s[c].login != userName ==> s'[c] == s[c])
  {
  }

  /** LOGINFAILED ends the attempt of a client that is to log in; a failed ping marks the client disconnected. */
  lemma FailureEffects(s: Bots, c: string)
    requires UniqueIds(s)
    ensures var s' := Step(s, LoginFailed(c));
            && OnlyChanges(s, s', c)
            && (c in s && s[c].status == LoggingPrepared ==> s'[c] == s[c].(status := LoggingFailed))
            && (c in s && s[c].status != LoggingPrepared ==> s'[c] == s[c])
    ensures var s' := Step(s, PingFailed(c));
            && OnlyChanges(s, s', c) && (c in s ==> s'[c] == s[c].(status := FailingDisconnected))
  {
  }

  /** After LOGOUTDONE, and when its pings are given up, the client is gone. */
  lemma GoneEffect(s: Bots, c: string)
    requires UniqueIds(s)
    ensures OnlyDrops(s, Step(s, LogoutDone(c)), c) && OnlyDrops(s, Step(s, PingGivenUp(c)), c)
  {
  }

  /** The web server's logout drops the bot it found exactly if that is logged in, or staging, and could be told;
      its shutdown marks the bot exactly if that is not logged in and could be told. */
  lemma WebEventEffects(s: Bots, botId: string, k: string, sent: bool)
    requires UniqueIds(s) && k in s
    ensures var s' := Step(s, BotLogout(botId, Some(k), sent));
            if sent && s[k].status in {WorkingLoggedIn, LoggingStaging} then OnlyDrops(s, s', k) else s' == s
    ensures var s' := Step(s, BotShutdown(Some(k), sent));
            && OnlyChanges(s, s', k)
            && s'[k] == if sent && s[k].status != WorkingLoggedIn then s[k].(status := ShuttingdownDone) else s[k]
    ensures Step(s, BotLogout(botId, None, sent)) == s && Step(s, BotShutdown(None, sent)) == s
  {
  }

  /** The web server's login: the named client, or else the available one, is prepared with id and login exactly if
      it is registered or failed and the id is new; nothing else changes. */
  lemma BotLoginEffect(s: Bots, c: string, clientType: string, botId: string, login: string, available: Option<string>)
    requires UniqueIds(s)
    ensures var s' := Step(s, BotLogin(c, clientType, botId, login, available));
            var target := if c != "" then c else if available.Some? then available.value else "";
            var named := if c != "" then c in s else available.Some? && available.value in s;
            var prepared := named && botId != "" && (forall k | k in s :: s[k].botId != botId)
                            && s[target].status in {BeginRegistered, LoggingFailed};
            && OnlyChanges(s, s', target)
            && (named ==>
                  s'[target] == if prepared
                                then s[target].(botId := botId, login := login, scanUrl := "",
                                                status := LoggingPrepared)
                                else s[target])
            && (!named ==> s' == s)
  {
  }

  /** LOGINDONE of a QQ client logs it in without an identity, of another unknown type does nothing. */
  lemma OtherLoginDone(s: Bots, e: Event)
    requires UniqueIds(s) && e.LoginDone? && e.clientId in s && !s[e.clientId].IsWechat()
    ensures var s', c := Step(s, e), e.clientId;
            && OnlyChanges(s, s', c)
            && s'[c] == if s[c].clientType == QQBOT && s[c].status in {BeginRegistered, LoggingPrepared, LoggingStaging}
                        then Bot(s[c].clientId, QQBOT, "", LoginInfo("", "", ""), WorkingLoggedIn, "", "")
                        else s[c]
  {
  }

  /** The second half leaves a staged client as it is, or logs it in under the final id. */
  lemma MigrateBot(s: Bots, c: string, userName: string, info: LoginInfo,
                   reply: StageReply, oldDropSent: bool, migrateSent: bool)
    requires UniqueIds(s) && c in s && s[c].status == LoggingStaging
    ensures var s' := MigrateStep(s, c, userName, info, reply, oldDropSent, migrateSent);
            var final := if reply.OldId? && reply.botId != "" then reply.botId else s[c].botId;
            c in s' ==> s'[c] == if s'[c].status != WorkingLoggedIn then s[c]
                                 else Bot(s[c].clientId, s[c].clientType, userName, info, WorkingLoggedIn, final, "")
  {
  }

  /** The bot of a wechat client after a LOGINDONE: logged in with what was announced, or staged with it if
      a later call failed, or as it was if it could not be staged or an old owner not be told. */
  lemma {:induction false} LoginDoneBot(s: Bots, e: Event)
    requires Inv(s) && e.LoginDone? && e.clientId in s && s[e.clientId].IsWechat() && e.botId != ""
    ensures var s', c := Step(s, e), e.clientId;
            var before := s[c];
            var blocked := (exists k | k in s :: k != c && s[k].botId == e.botId) && !e.dropSent;
            var stageable := before.status == BeginRegistered || before.status == LoggingPrepared;
            var final := if e.reply.OldId? && e.reply.botId != "" then e.reply.botId else e.botId;
            c in s' ==>
              s'[c] == if blocked || !stageable then before
                       else if LoginSucceeds(s, e)
                       then Bot(c, before.clientType, e.userName, e.info, WorkingLoggedIn, final, "")
                       else Bot(c, before.clientType, e.userName, e.info, LoggingStaging, e.botId, "")
  {
    hide MigrateStep, Coherent, LoginSucceeds;
    var c := e.clientId;
    StageEffect(s, c, e.botId, e.userName, e.info, e.dropSent);
    StageKeeps(s, c, e.botId, e.userName, e.info, e.dropSent);
    LoginDoneIff(s, e);
    var (s1, staged) := StageStep(s, c, e.botId, e.userName, e.info, e.dropSent);
    assert forall k | k in s :: OtherOwner(s, c, k, e.botId) <==> k != c && s[k].botId == e.botId;
    if staged { MigrateBot(s1, c, e.userName, e.info, e.reply, e.oldDropSent, e.migrateSent); }
  }

  /** The first half drops the owner of the announced id once it is told, whether the client can be staged or not. */
  lemma StageDrops(s: Bots, c: string, botId: string, userName: string, info: LoginInfo, dropSent: bool, k: string)
    requires UniqueIds(s) && c in s && botId != "" && k in s && k != c
    ensures var s1 := StageStep(s, c, botId, userName, info, dropSent).0;
            && (k !in s1 <==> s[k].botId == botId && dropSent)
            && (k in s1 ==> s1[k] == s[k])
  {
    var s1 := WithoutOther(s, c, botId);
    if s[k].botId == botId { assert k !in s1; }
  }

  /** The second half drops the owner of the older id, once it is told or the client is a MACPRO one. */
  lemma MigrateDrops(s: Bots, c: string, userName: string, info: LoginInfo,
                     reply: StageReply, oldDropSent: bool, migrateSent: bool, k: string)
    requires UniqueIds(s) && c in s && k != c
    ensures k in MigrateStep(s, c, userName, info, reply, oldDropSent, migrateSent) <==>
              && k in s
              && !(reply.OldId? && reply.botId != "" && s[k].botId == reply.botId
                   && (oldDropSent || s[c].clientType == WECHATMACPRO))
  {
  }

  /** Which others a LOGINDONE drops, however it ends: the owner of the announced id once it is told, and, once
      the client is staged, the owner of the older id when that is told, or the client is a MACPRO one. */
  lemma {:induction false} LoginDoneDrops(s: Bots, e: Event, k: string)
    requires Inv(s) && e.LoginDone? && e.clientId in s && s[e.clientId].IsWechat() && e.botId != ""
    requires k in s && k != e.clientId
    ensures var c := e.clientId;
            var blocked := (exists l | l in s :: l != c && s[l].botId == e.botId) && !e.dropSent;
            var stageable := s[c].status == BeginRegistered || s[c].status == LoggingPrepared;
            k !in Step(s, e) <==>
              && !blocked
              && (s[k].botId == e.botId
                  || (stageable && e.reply.OldId? && e.reply.botId != "" && s[k].botId == e.reply.botId
                      && (e.oldDropSent || s[c].clientType == WECHATMACPRO)))
  {
    hide MigrateStep, Coherent;
    var c := e.clientId;
    StageEffect(s, c, e.botId, e.userName, e.info, e.dropSent);
    StageKeeps(s, c, e.botId, e.userName, e.info, e.dropSent);
    assert forall l | l in s :: OtherOwner(s, c, l, e.botId) <==> l != c && s[l].botId == e.botId;
    StageDrops(s, c, e.botId, e.userName, e.info, e.dropSent, k);
    var (s1, staged) := StageStep(s, c, e.botId, e.userName, e.info, e.dropSent);
    if staged {
      MigrateDrops(s1, c, e.userName, e.info, e.reply, e.oldDropSent, e.migrateSent, k);
    }
  }

  /** The announced id can be lost: the old owner is dropped before it is known that the
      client's status allows it to take over. When no older id comes in, nobody has the id
      after a LOGINDONE exactly when the drop went through and the status did not allow it. */
  lemma OwnerLost(s: Bots, e: Event, owner: string)
    requires Inv(s) && e.LoginDone? && e.clientId in s && s[e.clientId].IsWechat()
    requires e.botId != "" && OtherOwner(s, e.clientId, owner, e.botId) && FinalId(e.botId, e.reply) == e.botId
    requires e.reply != OldId(e.botId)
    ensures (forall k :: !Owns(Step(s, e), k, e.botId)) <==> e.dropSent && !CanStage(s[e.clientId])
  {
    var c, s' := e.clientId, Step(s, e);
    StageEffect(s, c, e.botId, e.userName, e.info, e.dropSent);
    if !e.dropSent {
      assert Owns(s', owner, e.botId);
    } else if CanStage(s[c]) {
      assert Owns(s', c, e.botId);
    }
  }

  /** A LOGINDONE all of whose calls go through, for a login without an older id. */
  function LoginOf(clientId: string, botId: string): Event {
    LoginDone(clientId, botId, "login", LoginInfo("data", "token", ""), true, NoOldId, true, true)
  }

  lemma LoginOfWaiting(s: Bots, c: string, botId: string)
    requires Inv(s) && c in s && s[c].IsWechat() && s[c].status == BeginRegistered && botId != ""
    requires forall k | k in s :: s[k].botId != botId
    ensures var s' := Step(s, LoginOf(c, botId));
            && s'.Keys == s.Keys && s'[c].botId == botId && s'[c].status == WorkingLoggedIn
            && s'[c].clientType == s[c].clientType
            && forall k | k in s && k != c :: s'[k] == s[k]
  {
    hide Coherent;
    LoginDoneEffect(s, LoginOf(c, botId));
    assert forall k | k in s :: !OtherOwner(s, c, k, botId);
  }

  lemma RunSnoc(events: seq<Event>, e: Event)
    ensures Run(events + [e]) == Step(Run(events), e)
  {
    assert (events + [e])[..|events|] == events;
  }

  function TwoRegister(a: string, b: string): seq<Event> {
    [Register(a, WECHATBOT)] + [Register(b, WECHATBOT)]
  }

  lemma TwoWait(a: string, b: string)
    requires a != b
    ensures var s := Run(TwoRegister(a, b));
            && s.Keys == {a, b}
            && forall k | k in s :: s[k].clientType == WECHATBOT && s[k].status == BeginRegistered && s[k].botId == ""
  {
    assert [] + [Register(a, WECHATBOT)] == [Register(a, WECHATBOT)];
    RunSnoc([], Register(a, WECHATBOT));
    RunSnoc([Register(a, WECHATBOT)], Register(b, WECHATBOT));
  }

  lemma TwoLogIn(a: string, b: string, id: string, id2: string)
    requires a != b && id != "" && id2 != "" && id != id2
    ensures var s := Run(TwoRegister(a, b) + [LoginOf(a, id)] + [LoginOf(b, id2)]);
            && s.Keys == {a, b} && s[a].botId == id && s[b].botId == id2
            && s[b].clientType == WECHATBOT && s[b].status == WorkingLoggedIn
  {
    TwoWait(a, b);
    var e1 := TwoRegister(a, b);
    RunSnoc(e1, LoginOf(a, id));
    LoginOfWaiting(Run(e1), a, id);
    RunSnoc(e1 + [LoginOf(a, id)], LoginOf(b, id2));
    LoginOfWaiting(Run(e1 + [LoginOf(a, id)]), b, id2);
  }

  /**
   It does happen: two clients log in, each with its own id; then the second one announces the first
   one's id. The first client is thrown out, the second keeps what it had, and the id has no owner.
   */
  lemma OwnerLostReachable(a: string, b: string, id: string, id2: string)
    requires a != b && id != "" && id2 != "" && id != id2
    ensures var before := TwoRegister(a, b) + [LoginOf(a, id)] + [LoginOf(b, id2)];
            && Owns(Run(before), a, id) && Owns(Run(before + [LoginOf(b, id)]), b, id2)
            && forall k :: !Owns(Run(before + [LoginOf(b, id)]), k, id)
  {
    TwoLogIn(a, b, id, id2);
    var before := TwoRegister(a, b) + [LoginOf(a, id)] + [LoginOf(b, id2)];
    RunSnoc(before, LoginOf(b, id));
    assert OtherOwner(Run(before), b, a, id);
    OwnerLost(Run(before), LoginOf(b, id), a);
    LoginDoneEffect(Run(before), LoginOf(b, id));
  }
}
