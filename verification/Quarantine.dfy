/**
 The quarantine of failing bots and actions, server/domains/failingbots.go: two kinds of sorted
 sets in the store, filled when requests fail too often, emptied by a periodic recovery, and
 consulted before every action.
 */
module Quarantine {
  import opened Wrappers
  import opened QuotaKeys

  datatype HealthCheckConfig = HealthCheckConfig(failingCount: int, failingRate: real, checkTime: int, recoverTime: int)

  /** An action request, as far as the quarantine goes. */
  datatype Request = Request(clientType: string, clientId: string, login: string, actionType: string)

  datatype FailingBot = FailingBot(clientType: string, clientId: string, login: string, failAt: int)

  /** The JSON text of a failing bot: its failAt is not encoded. */
  datatype Member = Member(clientType: string, clientId: string, login: string)

  function ToJson(fb: FailingBot): Member {
    Member(fb.clientType, fb.clientId, fb.login)
  }

  function NewFailingBot(ar: Request, now: int): FailingBot {
    FailingBot(ar.clientType, ar.clientId, ar.login, now)
  }

  const FAILING := "FAILING"

  function ActionRedisKey(fb: FailingBot): string {
    FAILING + COLON + (fb.clientType + COLON + (fb.clientId + COLON + fb.login))
  }

  function KeyOf(ar: Request): string { ActionRedisKey(NewFailingBot(ar, 0)) }

  function MemberOf(ar: Request): Member { ToJson(NewFailingBot(ar, 0)) }

  /** A sorted set of the store: scores by member. A set that is empty does not exist. */
  type Scores<T> = map<T, int>

  datatype State = State(now: int, bots: Scores<Member>, actions: map<string, Scores<string>>)

  /** What the two thresholds count for a failed request. */
  datatype Counts = Counts(count: nat, ncount: nat, bcount: nat, bncount: nat)

  datatype Event =
    | Tick(seconds: nat)
    | Failed(ar: Request, counts: Counts)        // SaveFailingActionRequest
    | RecoverActions                             // RecoverBotFailingAction
    | RecoverBots                                // RecoverFailingBot
    | RecoverAction(key: string, action: string) // by hand
    | RecoverClient(member: Member)              // by hand

  datatype Checks = Checks(action: HealthCheckConfig, bot: HealthCheckConfig)

  predicate Over(check: HealthCheckConfig, count: nat, ncount: nat) {
    ncount > 0 && count >= check.failingCount && count as real / ncount as real >= check.failingRate
  }

  function ZAdd<T>(zset: Scores<T>, member: T, score: int): Scores<T> {
    zset[member := score]
  }

  /** ZREMRANGEBYSCORE from -inf to ts */
  function ZRemUpTo<T>(zset: Scores<T>, ts: int): Scores<T> {
    map m | m in zset && zset[m] > ts :: zset[m]
  }

  function ZSet(actions: map<string, Scores<string>>, key: string): Scores<string> {
    if key in actions then actions[key] else map[]
  }

  function Step(checks: Checks, s: State, e: Event): State {
    match e
    case Tick(seconds) => s.(now := s.now + seconds)
    case Failed(ar, c) =>
      var fb := NewFailingBot(ar, s.now);
      var key := ActionRedisKey(fb);
      var s1 := if !Over(checks.action, c.count, c.ncount) then s
                else s.(actions := s.actions[key := ZAdd(ZSet(s.actions, key), ar.actionType, fb.failAt)]);
      if !Over(checks.bot, c.bcount, c.bncount) then s1 else s1.(bots := ZAdd(s1.bots, ToJson(fb), fb.failAt))
    case RecoverActions =>
      s.(actions := map key | key in s.actions ::
           if Matches("FAILING:", key) then ZRemUpTo(s.actions[key], s.now - checks.action.recoverTime)
           else s.actions[key])
    case RecoverBots => s.(bots := ZRemUpTo(s.bots, s.now - checks.bot.recoverTime))
    case RecoverAction(key, action) =>
      if key in s.actions then s.(actions := s.actions[key := s.actions[key] - {action}]) else s
    case RecoverClient(member) => s.(bots := s.bots - {member})
  }

  function Run(checks: Checks, start: int, events: seq<Event>): State {
    if events == [] then State(start, map[], map[])
    else Step(checks, Run(checks, start, events[..|events| - 1]), events[|events| - 1])
  }

  /** What can be quarantined: a bot, or one action under a bot's key. */
  datatype Item = BotItem(member: Member) | ActionItem(key: string, action: string)

  /** The second of the mark under which the item is quarantined. */
  function Score(s: State, item: Item): Option<int> {
    match item
    case BotItem(member) => if member in s.bots then Some(s.bots[member]) else None
    case ActionItem(key, action) =>
      if action in ZSet(s.actions, key) then Some(ZSet(s.actions, key)[action]) else None
  }

  predicate Refused(s: State, item: Item) {
    Score(s, item).Some?
  }

  function ItemsOf(ar: Request): (Item, Item) {
    (BotItem(MemberOf(ar)), ActionItem(KeyOf(ar), ar.actionType))
  }

  /** When the failures are enough for a mark: as many as the count, and at least at the rate. */
  lemma OverIff(check: HealthCheckConfig, count: nat, ncount: nat)
    ensures Over(check, count, ncount) <==>
              ncount > 0 && count >= check.failingCount && count as real >= check.failingRate * ncount as real
  {
    if ncount > 0 {
      var rate := count as real / ncount as real;
      assert rate * ncount as real == count as real;
      RateOrder(rate, check.failingRate, ncount as real);
    }
  }

  lemma RateOrder(x: real, y: real, n: real)
    requires n > 0.0
    ensures x >= y <==> x * n >= y * n
  {
    assert x * n - y * n == (x - y) * n;
  }

  lemma KeyText(ar: Request)
    ensures KeyOf(ar) == "FAILING:" + ar.clientType + ":" + ar.clientId + ":" + ar.login
  {
    assert FAILING + COLON == "FAILING:";
  }

  // ---- From a mark to the recovery that is due ----

  predicate Marks(checks: Checks, e: Event, item: Item) {
    e.Failed? && match item
                 case BotItem(member) =>
                   MemberOf(e.ar) == member && Over(checks.bot, e.counts.bcount, e.counts.bncount)
                 case ActionItem(key, action) =>
                   KeyOf(e.ar) == key && e.ar.actionType == action
                   && Over(checks.action, e.counts.count, e.counts.ncount)
  }

  /** At second t, the event ends a quarantine that dates from second mark: the recovery due, or one by hand. */
  predicate Frees(checks: Checks, e: Event, item: Item, mark: int, t: int) {
    match item
    case BotItem(member) =>
      (e.RecoverBots? && mark + checks.bot.recoverTime <= t) || e == RecoverClient(member)
    case ActionItem(key, action) =>
      (e.RecoverActions? && mark + checks.action.recoverTime <= t) || e == RecoverAction(key, action)
  }

  lemma KeyIsFound(ar: Request)
    ensures Matches("FAILING:", KeyOf(ar))
  {
    var rest := ar.clientType + COLON + (ar.clientId + COLON + ar.login);
    assert KeyOf(ar) == "FAILING:" + rest;
  }

  /** What one event does to one item's score. */
  lemma ScoreStep(checks: Checks, s: State, e: Event, item: Item)
    requires item.ActionItem? ==> Matches("FAILING:", item.key)
    ensures Score(Step(checks, s, e), item) ==
              if Marks(checks, e, item) then Some(s.now)
              else if Refused(s, item) && Frees(checks, e, item, Score(s, item).value, s.now) then None
              else Score(s, item)
  {
  }

  /** The second at which the i-th event happens. */
  function TimeAt(checks: Checks, start: int, events: seq<Event>, i: nat): int
    requires i <= |events|
  {
    Run(checks, start, events[..i]).now
  }

  /** The j-th event does not end a quarantine that dates from the i-th. */
  predicate Survives(checks: Checks, start: int, events: seq<Event>, item: Item, i: nat, j: nat)
    requires i < |events| && j < |events|
  {
    !Frees(checks, events[j], item, TimeAt(checks, start, events, i), TimeAt(checks, start, events, j))
  }

  /** The i-th event marks the item, and nothing since has ended that quarantine. */
  ghost predicate MarkHolds(checks: Checks, start: int, events: seq<Event>, item: Item, i: nat) {
    && i < |events| && Marks(checks, events[i], item)
    && forall j | i < j < |events| :: Survives(checks, start, events, item, i, j)
  }

  lemma TimeSnoc(checks: Checks, start: int, events: seq<Event>, i: nat)
    requires events != [] && i < |events|
    ensures TimeAt(checks, start, events, i) == TimeAt(checks, start, events[..|events| - 1], i)
  {
    assert events[..i] == events[..|events| - 1][..i];
  }

  lemma SurvivesSnoc(checks: Checks, start: int, events: seq<Event>, item: Item, i: nat, j: nat)
    requires i < |events| - 1 && j < |events| - 1
    ensures Survives(checks, start, events, item, i, j)
            <==> Survives(checks, start, events[..|events| - 1], item, i, j)
  {
    TimeSnoc(checks, start, events, i);
    TimeSnoc(checks, start, events, j);
  }

  lemma HoldsSnoc(checks: Checks, start: int, events: seq<Event>, item: Item, i: nat)
    requires events != [] && i < |events| - 1
    ensures MarkHolds(checks, start, events, item, i) <==>
              && MarkHolds(checks, start, events[..|events| - 1], item, i)
              && !Frees(checks, events[|events| - 1], item, TimeAt(checks, start, events, i),
                        Run(checks, start, events[..|events| - 1]).now)
  {
    var init := events[..|events| - 1];
    assert Survives(checks, start, events, item, i, |init|)
           <==> !Frees(checks, events[|init|], item, TimeAt(checks, start, events, i), Run(checks, start, init).now);
    forall j | i < j < |init|
      ensures Survives(checks, start, events, item, i, j) <==> Survives(checks, start, init, item, i, j)
    {
      SurvivesSnoc(checks, start, events, item, i, j);
    }
  }

  lemma {:induction false} TimePasses(checks: Checks, start: int, events: seq<Event>, i: nat)
    requires i <= |events|
    ensures TimeAt(checks, start, events, i) <= Run(checks, start, events).now
  {
    if i == |events| {
      assert events[..i] == events;
    } else {
      TimeSnoc(checks, start, events, i);
      TimePasses(checks, start, events[..|events| - 1], i);
    }
  }

  /** A mark that holds keeps the item refused, under it or a later one. */
  lemma {:induction false} HeldIsRefused(checks: Checks, start: int, events: seq<Event>, item: Item, i: nat)
    requires item.ActionItem? ==> Matches("FAILING:", item.key)
    requires MarkHolds(checks, start, events, item, i)
    ensures var score := Score(Run(checks, start, events), item);
            score.Some? && TimeAt(checks, start, events, i) <= score.value
  {
    var init, e := events[..|events| - 1], events[|events| - 1];
    ScoreStep(checks, Run(checks, start, init), e, item);
    TimeSnoc(checks, start, events, i);
    TimePasses(checks, start, init, i);
    if i < |init| {
      HoldsSnoc(checks, start, events, item, i);
      HeldIsRefused(checks, start, init, item, i);
    }
  }

  /** An item that is refused is so under a mark that holds. */
  lemma {:induction false} RefusedIsHeld(checks: Checks, start: int, events: seq<Event>, item: Item) returns (i: nat)
    requires item.ActionItem? ==> Matches("FAILING:", item.key)
    requires Refused(Run(checks, start, events), item)
    ensures MarkHolds(checks, start, events, item, i)
    ensures Score(Run(checks, start, events), item) == Some(TimeAt(checks, start, events, i))
  {
    var init, e := events[..|events| - 1], events[|events| - 1];
    ScoreStep(checks, Run(checks, start, init), e, item);
    if Marks(checks, e, item) {
      i := |init|;
    } else {
      i := RefusedIsHeld(checks, start, init, item);
      HoldsSnoc(checks, start, events, item, i);
      TimeSnoc(checks, start, events, i);
    }
  }

  // ---- The check before every action ----

  /** ActionIsHealthy */
  predicate Healthy(s: State, ar: Request) {
    !Refused(s, ItemsOf(ar).0) && !Refused(s, ItemsOf(ar).1)
  }

  /**
   Over every run, an action passes the check exactly when neither its bot nor the action itself
   has been marked without the recovery since that was due, or one by hand.
   */
  lemma HealthyIff(checks: Checks, start: int, events: seq<Event>, ar: Request)
    ensures Healthy(Run(checks, start, events), ar) <==>
              && (forall i :: !MarkHolds(checks, start, events, ItemsOf(ar).0, i))
              && (forall i :: !MarkHolds(checks, start, events, ItemsOf(ar).1, i))
  {
    KeyIsFound(ar);
    var s := Run(checks, start, events);
    forall i: nat, item | item in [ItemsOf(ar).0, ItemsOf(ar).1] && MarkHolds(checks, start, events, item, i)
      ensures Refused(s, item)
    {
      HeldIsRefused(checks, start, events, item, i);
    }
    if Refused(s, ItemsOf(ar).0) { var i := RefusedIsHeld(checks, start, events, ItemsOf(ar).0); }
    if Refused(s, ItemsOf(ar).1) { var i := RefusedIsHeld(checks, start, events, ItemsOf(ar).1); }
  }

  /**
   Once the recovery has come at which every mark so far is old enough, the item is accepted until
   the next mark.
   */
  lemma AcceptedOnceDue(checks: Checks, start: int, events: seq<Event>, item: Item, j: nat)
    requires item.ActionItem? ==> Matches("FAILING:", item.key)
    requires j < |events| && if item.BotItem? then events[j].RecoverBots? else events[j].RecoverActions?
    requires var recoverTime := if item.BotItem? then checks.bot.recoverTime else checks.action.recoverTime;
             forall i | 0 <= i < |events| && Marks(checks, events[i], item) ::
               i < j && TimeAt(checks, start, events, i) + recoverTime <= TimeAt(checks, start, events, j)
    ensures !Refused(Run(checks, start, events), item)
  {
    forall i: nat | MarkHolds(checks, start, events, item, i)
      ensures Survives(checks, start, events, item, i, j)
    {
    }
    if Refused(Run(checks, start, events), item) {
      var i := RefusedIsHeld(checks, start, events, item);
    }
  }

  // ---- Keys ----

  lemma PartsOfActionKey(ar: Request)
    ensures Parts(KeyOf(ar)) == [FAILING] + (Parts(ar.clientType) + (Parts(ar.clientId) + Parts(ar.login)))
  {
    OnePart(FAILING);
    PartsOfJoin(FAILING, ar.clientType + COLON + (ar.clientId + COLON + ar.login));
    PartsOfJoin(ar.clientType, ar.clientId + COLON + ar.login);
    PartsOfJoin(ar.clientId, ar.login);
  }

  /** Two bots share the key of their failing actions exactly when their names have the same parts in turn. */
  lemma ActionKeyIff(ar: Request, other: Request)
    ensures KeyOf(ar) == KeyOf(other) <==>
              Parts(ar.clientType) + (Parts(ar.clientId) + Parts(ar.login))
              == Parts(other.clientType) + (Parts(other.clientId) + Parts(other.login))
  {
    PartsOfActionKey(ar);
    PartsOfActionKey(other);
    var x := Parts(ar.clientType) + (Parts(ar.clientId) + Parts(ar.login));
    var y := Parts(other.clientType) + (Parts(other.clientId) + Parts(other.login));
    assert ([FAILING] + x)[1..] == x && ([FAILING] + y)[1..] == y;
    if x == y { PartsInjective(KeyOf(ar), KeyOf(other)); }
  }

  /** Without colons in client type and client id they are then the same bot. */
  lemma ActionKeyInjective(ar: Request, other: Request)
    requires ':' !in ar.clientType && ':' !in ar.clientId && ':' !in other.clientType && ':' !in other.clientId
    requires KeyOf(ar) == KeyOf(other)
    ensures MemberOf(ar) == MemberOf(other)
  {
    ActionKeyIff(ar, other);
    OnePart(ar.clientType);
    OnePart(ar.clientId);
    OnePart(other.clientType);
    OnePart(other.clientId);
    var x, y := [ar.clientType, ar.clientId] + Parts(ar.login), [other.clientType, other.clientId] + Parts(other.login);
    assert x == Parts(ar.clientType) + (Parts(ar.clientId) + Parts(ar.login));
    assert y == Parts(other.clientType) + (Parts(other.clientId) + Parts(other.login));
    assert x[0] == y[0] && x[1] == y[1] && x[2..] == y[2..];
    PartsInjective(ar.login, other.login);
  }

  /** With them, one bot's failures quarantine the actions of another. */
  lemma ActionKeyShared(a: string, b: string, c: string, login: string, action: string)
    ensures KeyOf(Request(a + COLON + b, c, login, action)) == KeyOf(Request(a, b + COLON + c, login, action))
  {
    var tail := COLON + c + COLON + login;
    assert KeyOf(Request(a + COLON + b, c, login, action)) == FAILING + COLON + (a + COLON + b) + tail;
    assert KeyOf(Request(a, b + COLON + c, login, action)) == FAILING + COLON + (a + COLON + b) + tail;
  }

  // ---- The code ----

  /** The store's sorted sets, and the clock. */
  class QuarantineStore {
    const checks: Checks
    var now: int
    var bots: Scores<Member>
    var actions: map<string, Scores<string>>

    constructor (checks: Checks, start: int)
      ensures this.checks == checks && S() == Run(checks, start, [])
    {
      this.checks, now, bots, actions := checks, start, map[], map[];
    }

    function S(): State
      reads this
    {
      State(now, bots, actions)
    }

    method AddFailingBot(fb: FailingBot)
      modifies this`bots
      ensures bots == old(bots)[ToJson(fb) := fb.failAt]
    {
      bots := ZAdd(bots, ToJson(fb), fb.failAt);
    }

    method AddBotFailingAction(fb: FailingBot, actionType: string)
      modifies this`actions
      ensures var key := ActionRedisKey(fb);
              actions == old(actions)[key := ZSet(old(actions), key)[actionType := fb.failAt]]
    {
      var key := ActionRedisKey(fb);
      actions := actions[key := ZAdd(ZSet(actions, key), actionType, fb.failAt)];
    }

    /** The two threshold tests of SaveFailingActionRequest, for its four counts. */
    method Mark(ar: Request, counts: Counts)
      modifies this`bots, this`actions
      ensures S() == Step(checks, old(S()), Failed(ar, counts))
    {
      var fb := NewFailingBot(ar, now);
      if counts.ncount > 0 {
        var rate := counts.count as real / counts.ncount as real;
        if counts.count >= checks.action.failingCount && rate >= checks.action.failingRate {
          AddBotFailingAction(fb, ar.actionType);
        }
      }
      if counts.bncount > 0 {
        var rate := counts.bcount as real / counts.bncount as real;
        if counts.bcount >= checks.bot.failingCount && rate >= checks.bot.failingRate {
          AddFailingBot(fb);
        }
      }
    }

    method RecoverFailingBot()
      modifies this`bots
      ensures S() == Step(checks, old(S()), RecoverBots)
    {
      bots := ZRemUpTo(bots, now - checks.bot.recoverTime);
    }

    /** One command per key that SCAN found, in any order. */
    method RecoverBotFailingAction()
      modifies this`actions
      ensures S() == Step(checks, old(S()), RecoverActions)
    {
      var ts := now - checks.action.recoverTime;
      var keys := set key | key in actions && Matches("FAILING:", key);
      while keys != {}
        invariant actions.Keys == old(actions.Keys)
        invariant forall key | key in keys :: key in actions && Matches("FAILING:", key)
        invariant forall key | key in actions ::
                    actions[key] == if Matches("FAILING:", key) && key !in keys then ZRemUpTo(old(actions)[key], ts)
                                    else old(actions)[key]
      {
        var key :| key in keys;
        actions := actions[key := ZRemUpTo(actions[key], ts)];
        keys := keys - {key};
      }
    }

    /** ZRANGE of a sorted set: its members by ascending score. */
    static method ZRange<T(!new)>(zset: Scores<T>) returns (members: seq<T>)
      ensures forall m :: m in members <==> m in zset
    {
      members := [];
      var rest := zset.Keys;
      while rest != {}
        invariant rest <= zset.Keys && forall m :: m in members <==> m in zset && m !in rest
      {
        var m :| m in rest;
        members, rest := members + [m], rest - {m};
      }
    }

    /** Looks for the bot among the failing ones, then for the action among the bot's. */
    method ActionIsHealthy(ar: Request) returns (ok: bool)
      ensures ok <==> Healthy(S(), ar)
    {
      var fb := NewFailingBot(ar, now);
      var fbs := ZRange(bots);
      for i := 0 to |fbs|
        invariant forall j | 0 <= j < i :: fbs[j] != ToJson(fb)
      {
        if ToJson(fb) == fbs[i] { return false; }
      }
      var fas := ZRange(ZSet(actions, ActionRedisKey(fb)));
      for i := 0 to |fas|
        invariant forall j | 0 <= j < i :: fas[j] != ar.actionType
      {
        if ar.actionType == fas[i] { return false; }
      }
      assert ToJson(fb) !in fbs && ar.actionType !in fas;
      return true;
    }
  }
}
