/**
 What the quarantine counts before it marks: SaveFailingActionRequest and its counts
 (server/domains/failingbots.go:193-288) over the expiring keys of failed and of recorded requests
 (server/domains/actionrequests.go:62-94, 323-370). Quarantine takes the counts as given.
 */
module Failures {
  import opened Wrappers
  import opened Sets
  import opened QuotaKeys
  import opened Quarantine

  const HOUR := 60 * 60
  const FAIL_PREFIX := "ARFAIL"

  /** ARFAIL keys: the failed request and its id. */
  datatype FailKey = FailKey(ar: Request, id: string)

  /** A recorded request: AR and ARHOUR keys were set at second at. */
  datatype Asked = Asked(ar: Request, createAt: int, at: int)

  /** The checks, and which action types have a day and an hour limit. */
  datatype Setup = Setup(checks: Checks, daily: string -> bool, hourly: string -> bool)

  /**
   hours has the second an ARHOUR key expires in, by request id; fails the second of a request's last
   failure, which its key holds and which it expires an hour after; log keeps every recorded request.
   */
  datatype Store = Store(hours: map<string, int>, fails: map<FailKey, int>, log: map<string, Asked>,
                         marks: State)
  {
    function Now(): int { marks.now }
  }

  datatype Input =
    | Record(ar: Request, id: string, createAt: int) // SaveActionRequestWLimit, for a new request id
    | Fail(ar: Request, id: string)                  // SaveFailingActionRequest
    | Other(e: Event)                                // the clock, and recoveries

  // ---- Keys ----

  function FailPattern(ar: Request): string {
    FAIL_PREFIX + COLON + (ar.clientType + COLON + (ar.clientId + COLON + (ar.login + COLON + ar.actionType))) + COLON
  }

  function FailBotPattern(ar: Request): string {
    FAIL_PREFIX + COLON + (ar.clientType + COLON + (ar.clientId + COLON + ar.login)) + COLON
  }

  function FailText(key: FailKey): string {
    FailPattern(key.ar) + key.id
  }

  function HourText(ar: Request, id: string): string {
    QuotaKey(Hour, ar.login, ar.actionType, id)
  }

  lemma FailTexts(ar: Request, id: string)
    ensures FailText(FailKey(ar, id))
            == "ARFAIL:" + ar.clientType + ":" + ar.clientId + ":" + ar.login + ":" + ar.actionType + ":" + id
    ensures FailPattern(ar)
            == "ARFAIL:" + ar.clientType + ":" + ar.clientId + ":" + ar.login + ":" + ar.actionType + ":"
    ensures FailBotPattern(ar) == "ARFAIL:" + ar.clientType + ":" + ar.clientId + ":" + ar.login + ":"
  {
    assert "ARFAIL" + ":" == "ARFAIL:";
  }

  /** The parts of the names of a bot, and of a bot's action. */
  function BotParts(ar: Request): seq<string> {
    Parts(ar.clientType) + (Parts(ar.clientId) + Parts(ar.login))
  }

  function ActionParts(ar: Request): seq<string> {
    BotParts(ar) + Parts(ar.actionType)
  }

  lemma PartsOfPrefix(name: string)
    ensures Parts(FAIL_PREFIX + COLON + name) == [FAIL_PREFIX] + Parts(name)
  {
    OnePart(FAIL_PREFIX);
    PartsOfJoin(FAIL_PREFIX, name);
  }

  lemma PartsOfBot(ar: Request)
    ensures Parts(ar.clientType + COLON + (ar.clientId + COLON + ar.login)) == BotParts(ar)
  {
    PartsOfJoin(ar.clientType, ar.clientId + COLON + ar.login);
    PartsOfJoin(ar.clientId, ar.login);
  }

  lemma PartsOfAction(ar: Request)
    ensures Parts(ar.clientType + COLON + (ar.clientId + COLON + (ar.login + COLON + ar.actionType))) == ActionParts(ar)
  {
    hide Parts;
    PartsOfJoin(ar.clientType, ar.clientId + COLON + (ar.login + COLON + ar.actionType));
    PartsOfJoin(ar.clientId, ar.login + COLON + ar.actionType);
    PartsOfJoin(ar.login, ar.actionType);
  }

  lemma PartsOfFail(key: FailKey)
    ensures Parts(FailText(key)) == [FAIL_PREFIX] + (ActionParts(key.ar) + Parts(key.id))
  {
    var ar := key.ar;
    var name := ar.clientType + COLON + (ar.clientId + COLON + (ar.login + COLON + ar.actionType));
    PartsOfAction(ar);
    PartsOfPrefix(name);
    PartsOfJoin(FAIL_PREFIX + COLON + name, key.id);
    assert FailText(key) == FAIL_PREFIX + COLON + name + COLON + key.id;
  }

  /** Whose failures are counted: the pattern of an action finds the keys whose parts begin with those of its names. */
  lemma FailPatternIff(ar: Request, key: FailKey)
    ensures Matches(FailPattern(ar), FailText(key)) <==> ActionParts(ar) < ActionParts(key.ar) + Parts(key.id)
  {
    var name := ar.clientType + COLON + (ar.clientId + COLON + (ar.login + COLON + ar.actionType));
    PartsOfAction(ar);
    PartsOfPrefix(name);
    PartsOfFail(key);
    BeginsIff(FAIL_PREFIX + COLON + name, FailText(key));
    HeadBegins(FAIL_PREFIX, ActionParts(ar), FAIL_PREFIX, ActionParts(key.ar) + Parts(key.id));
  }

  lemma FailBotPatternIff(ar: Request, key: FailKey)
    ensures Matches(FailBotPattern(ar), FailText(key)) <==> BotParts(ar) < ActionParts(key.ar) + Parts(key.id)
  {
    var name := ar.clientType + COLON + (ar.clientId + COLON + ar.login);
    PartsOfBot(ar);
    PartsOfPrefix(name);
    PartsOfFail(key);
    BeginsIff(FAIL_PREFIX + COLON + name, FailText(key));
    HeadBegins(FAIL_PREFIX, BotParts(ar), FAIL_PREFIX, ActionParts(key.ar) + Parts(key.id));
  }

  /** No name has a colon. */
  predicate Plain(ar: Request) {
    ':' !in ar.clientType && ':' !in ar.clientId && ':' !in ar.login && ':' !in ar.actionType
  }

  predicate SameBot(ar: Request, other: Request) {
    MemberOf(ar) == MemberOf(other)
  }

  lemma PlainParts(ar: Request)
    requires Plain(ar)
    ensures BotParts(ar) == [ar.clientType, ar.clientId, ar.login]
    ensures ActionParts(ar) == [ar.clientType, ar.clientId, ar.login, ar.actionType]
  {
    OnePart(ar.clientType);
    OnePart(ar.clientId);
    OnePart(ar.login);
    OnePart(ar.actionType);
  }

  lemma BeginsWithAll(a: seq<string>, b: seq<string>, rest: seq<string>)
    requires |a| == |b| && rest != []
    ensures a < b + rest <==> a == b
  {
    assert (b + rest)[..|b|] == b;
  }

  /** Without colons those are the failures of the action, and of the bot. */
  lemma FailPatternsExact(ar: Request, key: FailKey)
    requires Plain(ar) && Plain(key.ar)
    ensures Matches(FailPattern(ar), FailText(key)) <==> key.ar == ar
    ensures Matches(FailBotPattern(ar), FailText(key)) <==> SameBot(key.ar, ar)
  {
    FailPatternIff(ar, key);
    FailBotPatternIff(ar, key);
    PlainParts(ar);
    PlainParts(key.ar);
    BeginsWithAll(ActionParts(ar), ActionParts(key.ar), Parts(key.id));
    BeginsWithAll(BotParts(ar), BotParts(key.ar), Parts(key.ar.actionType) + Parts(key.id));
    assert ActionParts(key.ar) + Parts(key.id) == BotParts(key.ar) + (Parts(key.ar.actionType) + Parts(key.id));
  }

  lemma LoginPatternExact(ar: Request, other: Request, id: string)
    requires Plain(ar) && Plain(other)
    ensures Matches(LoginPattern(ar.login), HourText(other, id)) <==> other.login == ar.login
  {
    var p := Hour.Prefix() + COLON + ar.login;
    assert LoginPattern(ar.login) == p + COLON;
    PrefixPart(Hour);
    PartsOfJoin(Hour.Prefix(), ar.login);
    BeginsIff(p, HourText(other, id));
    PartsOfKey(Hour, other.login, other.actionType, id);
    PlainParts(ar);
    PlainParts(other);
    OnePart(ar.login);
    OnePart(other.login);
    var rest := Parts(other.actionType) + Parts(id);
    HeadBegins(Hour.Prefix(), Parts(ar.login), Hour.Prefix(), [other.login] + rest);
    BeginsWithAll([ar.login], [other.login], rest);
  }

  // ---- The machine ----

  /** GetActionRequest_: when the request was created, as long as its AR key lives. */
  function Created(setup: Setup, s: Store, id: string): Option<int> {
    if id !in s.log then None
    else
      var expires := s.log[id].at + if setup.daily(s.log[id].ar.actionType) then 24 * HOUR else 3 * HOUR;
      if s.Now() < expires then Some(s.log[id].createAt) else None
  }

  /** FailingActionCount: the keys under the pattern whose failure is later than ts. */
  function FailsFound(s: Store, pattern: string, ts: int): set<FailKey> {
    set key | key in s.fails && IsFound(s, pattern, ts, key)
  }

  predicate IsFound(s: Store, pattern: string, ts: int, key: FailKey)
    requires key in s.fails
  {
    s.Now() < s.fails[key] + HOUR && Matches(pattern, FailText(key)) && s.fails[key] > ts
  }

  /** ActionRequestCountByTime: the requests of the keys under the pattern that were created later than ts. */
  function AskedFound(setup: Setup, s: Store, pattern: string, ts: int): set<string> {
    set id | id in s.hours && id in s.log && IsAsked(setup, s, pattern, ts, id)
  }

  predicate IsAsked(setup: Setup, s: Store, pattern: string, ts: int, id: string)
    requires id in s.hours && id in s.log
  {
    && s.Now() < s.hours[id] && Matches(pattern, HourText(s.log[id].ar, id))
    && var arId := KeyToArId(HourText(s.log[id].ar, id));
    && arId.Some? && Created(setup, s, arId.value).Some? && Created(setup, s, arId.value).value > ts
  }

  /** The four counts for a failed request. */
  function CountsOf(setup: Setup, s: Store, ar: Request): Counts {
    var ts, bts := s.Now() - setup.checks.action.checkTime, s.Now() - setup.checks.bot.checkTime;
    Counts(|FailsFound(s, FailPattern(ar), ts)|, |AskedFound(setup, s, KeyPattern(Hour, ar.login, ar.actionType), ts)|,
           |FailsFound(s, FailBotPattern(ar), bts)|, |AskedFound(setup, s, LoginPattern(ar.login), bts)|)
  }

  /** SaveActionRequestFailLog */
  function Logged(s: Store, ar: Request, id: string): Store {
    s.(fails := s.fails[FailKey(ar, id) := s.Now()])
  }

  function Recorded(setup: Setup, s: Store, ar: Request, id: string, createAt: int): Store {
    s.(log := s.log[id := Asked(ar, createAt, s.Now())],
       hours := if setup.hourly(ar.actionType) then s.hours[id := s.Now() + HOUR] else s.hours)
  }

  /** What the event is for the quarantine. */
  function MarkEvent(setup: Setup, s: Store, e: Input): Event {
    match e
    case Record(_, _, _) => Tick(0)
    case Fail(ar, id) => Failed(ar, CountsOf(setup, Logged(s, ar, id), ar))
    case Other(q) => if q.Failed? then Tick(0) else q
  }

  function Next(setup: Setup, s: Store, e: Input): Store {
    var s' := match e
      case Record(ar, id, createAt) => if id in s.log then s else Recorded(setup, s, ar, id, createAt)
      case Fail(ar, id) => Logged(s, ar, id)
      case Other(_) => s;
    s'.(marks := Step(setup.checks, s.marks, MarkEvent(setup, s, e)))
  }

  function After(setup: Setup, start: int, events: seq<Input>): Store {
    if events == [] then Store(map[], map[], map[], Run(setup.checks, start, []))
    else Next(setup, After(setup, start, events[..|events| - 1]), events[|events| - 1])
  }

  // ---- What the counts are ----

  /** The store has a key for every recorded request of the last hour, and no others. */
  ghost predicate Inv(setup: Setup, s: Store) {
    && (forall id | id in s.hours :: id in s.log && setup.hourly(s.log[id].ar.actionType))
    && (forall id | id in s.log ::
          s.log[id].at <= s.Now()
          && (setup.hourly(s.log[id].ar.actionType) ==> id in s.hours && s.hours[id] == s.log[id].at + HOUR))
  }

  lemma TimeGoesOn(checks: Checks, q: State, e: Event)
    ensures Step(checks, q, e).now >= q.now
  {
  }

  lemma RecordKeepsInv(setup: Setup, s: Store, ar: Request, id: string, createAt: int)
    requires Inv(setup, s) && id !in s.log
    ensures Inv(setup, Recorded(setup, s, ar, id, createAt))
  {
  }

  lemma LaterKeepsInv(setup: Setup, s: Store, s': Store)
    requires Inv(setup, s) && s'.log == s.log && s'.hours == s.hours && s.Now() <= s'.Now()
    ensures Inv(setup, s')
  {
  }

  lemma StepKeepsInv(setup: Setup, s: Store, e: Input)
    requires Inv(setup, s)
    ensures Inv(setup, Next(setup, s, e))
  {
    hide Inv, Step, MarkEvent, Recorded;
    TimeGoesOn(setup.checks, s.marks, MarkEvent(setup, s, e));
    match e
    case Record(ar, id, createAt) =>
      if id !in s.log {
        RecordKeepsInv(setup, s, ar, id, createAt);
        RecordedNow(setup, s, ar, id, createAt);
        LaterKeepsInv(setup, Recorded(setup, s, ar, id, createAt), Next(setup, s, e));
      } else {
        LaterKeepsInv(setup, s, Next(setup, s, e));
      }
    case Fail(_, _) => LaterKeepsInv(setup, s, Next(setup, s, e));
    case Other(_) => LaterKeepsInv(setup, s, Next(setup, s, e));
  }

  lemma RecordedNow(setup: Setup, s: Store, ar: Request, id: string, createAt: int)
    ensures Recorded(setup, s, ar, id, createAt).Now() == s.Now()
  {
  }

  lemma {:induction false} RunInv(setup: Setup, start: int, events: seq<Input>)
    ensures Inv(setup, After(setup, start, events))
  {
    hide Next;
    if events != [] {
      RunInv(setup, start, events[..|events| - 1]);
      StepKeepsInv(setup, After(setup, start, events[..|events| - 1]), events[|events| - 1]);
    }
  }

  /** A request is stored for a day after it was recorded, or for three hours if it has no day limit. */
  lemma StoredFor(setup: Setup, s: Store, id: string)
    requires id in s.log
    ensures Created(setup, s, id) ==
              if s.Now() - s.log[id].at < (if setup.daily(s.log[id].ar.actionType) then 86400 else 10800)
              then Some(s.log[id].createAt) else None
  {
  }

  /** A key that is found and gives an id gives that of its request, whose AR key lives longer: the code,
      which does not look whether there is one, always finds it. */
  lemma RequestIsThere(setup: Setup, s: Store, id: string)
    requires Inv(setup, s) && id in s.hours && s.Now() < s.hours[id]
    ensures var arId := KeyToArId(HourText(s.log[id].ar, id));
            arId.Some? ==> arId.value == id && Created(setup, s, id) == Some(s.log[id].createAt)
  {
    KeyToArIdOfKey(Hour, s.log[id].ar.login, s.log[id].ar.actionType, id);
  }

  /** The failures of the action, or of the bot, in the last seconds; never more than an hour back. */
  function ActionFailures(s: Store, ar: Request, seconds: int): set<FailKey> {
    set key | key in s.fails && key.ar == ar && s.fails[key] > s.Now() - seconds && s.fails[key] > s.Now() - 3600
  }

  function BotFailures(s: Store, ar: Request, seconds: int): set<FailKey> {
    set key | key in s.fails && SameBot(key.ar, ar)
              && s.fails[key] > s.Now() - seconds && s.fails[key] > s.Now() - 3600
  }

  /** The request was created in the last seconds and recorded in the last hour. */
  predicate IsRecent(setup: Setup, s: Store, id: string, seconds: int)
    requires id in s.log
  {
    && setup.hourly(s.log[id].ar.actionType)
    && s.log[id].createAt > s.Now() - seconds && s.log[id].at > s.Now() - 3600
  }

  function ActionRequests(setup: Setup, s: Store, ar: Request, seconds: int): set<string> {
    set id | id in s.log && s.log[id].ar.login == ar.login && s.log[id].ar.actionType == ar.actionType
             && IsRecent(setup, s, id, seconds)
  }

  function LoginRequests(setup: Setup, s: Store, ar: Request, seconds: int): set<string> {
    set id | id in s.log && s.log[id].ar.login == ar.login && IsRecent(setup, s, id, seconds)
  }

  /** No name or id in the store has a colon. */
  ghost predicate PlainStore(s: Store) {
    && (forall key | key in s.fails :: Plain(key.ar))
    && forall id | id in s.log :: Plain(s.log[id].ar) && ':' !in id
  }

  lemma FailuresFound(s: Store, ar: Request, seconds: int)
    requires PlainStore(s) && Plain(ar)
    ensures FailsFound(s, FailPattern(ar), s.Now() - seconds) == ActionFailures(s, ar, seconds)
    ensures FailsFound(s, FailBotPattern(ar), s.Now() - seconds) == BotFailures(s, ar, seconds)
  {
    hide Matches, FailPattern, FailBotPattern, FailText, SameBot;
    forall key | key in s.fails
      ensures Matches(FailPattern(ar), FailText(key)) <==> key.ar == ar
      ensures Matches(FailBotPattern(ar), FailText(key)) <==> SameBot(key.ar, ar)
    {
      FailPatternsExact(ar, key);
    }
  }

  lemma IsAskedIff(setup: Setup, s: Store, pattern: string, seconds: int, id: string)
    requires Inv(setup, s) && PlainStore(s) && id in s.log
    ensures id in s.hours && IsAsked(setup, s, pattern, s.Now() - seconds, id)
            <==> Matches(pattern, HourText(s.log[id].ar, id)) && IsRecent(setup, s, id, seconds)
  {
    hide Matches, HourText;
    if id in s.hours && s.Now() < s.hours[id] { RequestIsThere(setup, s, id); }
    KeyToArIdOfHour(s.log[id].ar, id);
  }

  lemma KeyToArIdOfHour(ar: Request, id: string)
    requires Plain(ar) && ':' !in id
    ensures KeyToArId(HourText(ar, id)) == Some(id)
  {
    KeyToArIdOfKey(Hour, ar.login, ar.actionType, id);
  }

  lemma RequestsFound(setup: Setup, s: Store, ar: Request, seconds: int)
    requires Inv(setup, s) && PlainStore(s) && Plain(ar)
    ensures AskedFound(setup, s, KeyPattern(Hour, ar.login, ar.actionType), s.Now() - seconds)
            == ActionRequests(setup, s, ar, seconds)
    ensures AskedFound(setup, s, LoginPattern(ar.login), s.Now() - seconds) == LoginRequests(setup, s, ar, seconds)
  {
    hide Matches, HourText, IsAsked, IsRecent, KeyPattern, LoginPattern;
    var pattern := KeyPattern(Hour, ar.login, ar.actionType);
    forall id | id in s.log
      ensures id in s.hours && IsAsked(setup, s, pattern, s.Now() - seconds, id)
              <==> id in ActionRequests(setup, s, ar, seconds)
      ensures id in s.hours && IsAsked(setup, s, LoginPattern(ar.login), s.Now() - seconds, id)
              <==> id in LoginRequests(setup, s, ar, seconds)
    {
      var other := s.log[id].ar;
      IsAskedIff(setup, s, pattern, seconds, id);
      IsAskedIff(setup, s, LoginPattern(ar.login), seconds, id);
      LoginPatternExact(ar, other, id);
      HourPatternExact(ar, other, id);
    }
  }

  lemma HourPatternExact(ar: Request, other: Request, id: string)
    requires Plain(ar) && Plain(other)
    ensures Matches(KeyPattern(Hour, ar.login, ar.actionType), HourText(other, id))
            <==> other.login == ar.login && other.actionType == ar.actionType
  {
    PatternExact(Hour, ar.login, ar.actionType, Hour, other.login, other.actionType, id);
  }

  /** The four counts, when no name has a colon. */
  lemma CountsExact(setup: Setup, s: Store, ar: Request)
    requires Inv(setup, s) && PlainStore(s) && Plain(ar)
    ensures var seconds, bseconds := setup.checks.action.checkTime, setup.checks.bot.checkTime;
            CountsOf(setup, s, ar)
            == Counts(|ActionFailures(s, ar, seconds)|, |ActionRequests(setup, s, ar, seconds)|,
                      |BotFailures(s, ar, bseconds)|, |LoginRequests(setup, s, ar, bseconds)|)
  {
    hide FailsFound, AskedFound, ActionFailures, ActionRequests, BotFailures, LoginRequests;
    FailuresFound(s, ar, setup.checks.action.checkTime);
    FailuresFound(s, ar, setup.checks.bot.checkTime);
    RequestsFound(setup, s, ar, setup.checks.action.checkTime);
    RequestsFound(setup, s, ar, setup.checks.bot.checkTime);
  }

  // ---- Colons ----

  /** A colon in the login or the action type: no request of the action is counted, so it is never marked. */
  lemma ColonNeverMarks(setup: Setup, s: Store, ar: Request)
    requires ':' in ar.login || ':' in ar.actionType
    ensures CountsOf(setup, s, ar).ncount == 0 && !Over(setup.checks.action, CountsOf(setup, s, ar).count, 0)
  {
    var pattern := KeyPattern(Hour, ar.login, ar.actionType);
    var ts := s.Now() - setup.checks.action.checkTime;
    forall id | id in s.hours && id in s.log ensures !IsAsked(setup, s, pattern, ts, id) {
      var text := HourText(s.log[id].ar, id);
      if Matches(pattern, text) {
        KeyOfPattern(Hour, ar.login, ar.actionType, text[|pattern|..]);
        assert text == pattern + text[|pattern|..];
        KeyToArIdOfKey(Hour, ar.login, ar.actionType, text[|pattern|..]);
      }
    }
    assert AskedFound(setup, s, pattern, ts) == {};
  }

  /**
   A colon in the login: none of its own requests is counted for the bot, whatever their action types.
   So the bot is never marked unless requests of other logins are found under the pattern.
   */
  lemma ColonNeverMarksBot(setup: Setup, s: Store, ar: Request)
    requires ':' in ar.login
    ensures var bts := s.Now() - setup.checks.bot.checkTime;
            forall id | id in AskedFound(setup, s, LoginPattern(ar.login), bts) :: s.log[id].ar.login != ar.login
  {
    var bts := s.Now() - setup.checks.bot.checkTime;
    forall id | id in AskedFound(setup, s, LoginPattern(ar.login), bts) ensures s.log[id].ar.login != ar.login {
      KeyToArIdOfKey(Hour, s.log[id].ar.login, s.log[id].ar.actionType, id);
    }
  }

  /** With two colons in it, not even those: no key under the pattern is counted. */
  lemma ColonsNeverMarkBot(setup: Setup, s: Store, ar: Request)
    requires |Parts(ar.login)| > 2
    ensures CountsOf(setup, s, ar).bncount == 0 && !Over(setup.checks.bot, CountsOf(setup, s, ar).bcount, 0)
  {
    var pattern := LoginPattern(ar.login);
    var bts := s.Now() - setup.checks.bot.checkTime;
    forall id | id in s.hours && id in s.log ensures !IsAsked(setup, s, pattern, bts, id) {
      var text := HourText(s.log[id].ar, id);
      if Matches(pattern, text) {
        assert text == pattern + text[|pattern|..];
        LoginPatternIff(ar.login, text[|pattern|..]);
      }
    }
    assert AskedFound(setup, s, pattern, bts) == {};
  }

  // ---- Over whole runs ----

  /** What the run is for the quarantine, event by event. */
  function Trace(setup: Setup, start: int, events: seq<Input>): (trace: seq<Event>)
    ensures |trace| == |events|
  {
    if events == [] then []
    else
      var init := events[..|events| - 1];
      Trace(setup, start, init) + [MarkEvent(setup, After(setup, start, init), events[|init|])]
  }

  lemma {:induction false} RunMarks(setup: Setup, start: int, events: seq<Input>)
    ensures After(setup, start, events).marks == Run(setup.checks, start, Trace(setup, start, events))
  {
    hide Step, MarkEvent, Logged, Recorded;
    if events != [] {
      var init := events[..|events| - 1];
      RunMarks(setup, start, init);
      assert Trace(setup, start, events)[..|init|] == Trace(setup, start, init);
    }
  }

  lemma {:induction false} TraceAt(setup: Setup, start: int, events: seq<Input>, i: nat)
    requires i < |events|
    ensures Trace(setup, start, events)[i] == MarkEvent(setup, After(setup, start, events[..i]), events[i])
  {
    hide MarkEvent, After;
    var init := events[..|events| - 1];
    if i < |init| {
      TraceAt(setup, start, init, i);
      assert init[..i] == events[..i];
    }
  }

  predicate PlainEvent(e: Input) {
    match e
    case Record(ar, id, _) => Plain(ar) && ':' !in id
    case Fail(ar, _) => Plain(ar)
    case Other(_) => true
  }

  lemma {:induction false} RunPlain(setup: Setup, start: int, events: seq<Input>)
    requires forall e | e in events :: PlainEvent(e)
    ensures PlainStore(After(setup, start, events))
  {
    hide Step, MarkEvent, Plain;
    if events != [] {
      var init, e := events[..|events| - 1], events[|events| - 1];
      RunPlain(setup, start, init);
      assert PlainEvent(e);
    }
  }

  /** The i-th event is the first to record the request. */
  ghost predicate FirstRecord(events: seq<Input>, id: string, i: nat) {
    && i < |events| && events[i].Record? && events[i].id == id
    && forall j | 0 <= j < i :: !(events[j].Record? && events[j].id == id)
  }

  /** The i-th event is the last failure under the key. */
  ghost predicate LastFail(events: seq<Input>, key: FailKey, i: nat) {
    && i < |events| && events[i] == Fail(key.ar, key.id)
    && forall j | i < j < |events| :: events[j] != Fail(key.ar, key.id)
  }

  lemma FirstRecordSnoc(events: seq<Input>, id: string, i: nat)
    requires events != [] && i < |events| - 1
    ensures FirstRecord(events, id, i) <==> FirstRecord(events[..|events| - 1], id, i)
    ensures events[..i] == events[..|events| - 1][..i]
  {
  }

  lemma LastFailSnoc(events: seq<Input>, key: FailKey, i: nat)
    requires events != [] && i < |events| - 1
    ensures LastFail(events, key, i) <==>
              LastFail(events[..|events| - 1], key, i) && events[|events| - 1] != Fail(key.ar, key.id)
    ensures events[..i] == events[..|events| - 1][..i]
  {
    var init := events[..|events| - 1];
    if LastFail(init, key, i) && events[|init|] != Fail(key.ar, key.id) {
      forall j | i < j < |events| ensures events[j] != Fail(key.ar, key.id) {
        if j < |init| { assert init[j] == events[j]; }
      }
    }
    if LastFail(events, key, i) {
      assert forall j | i < j < |init| :: init[j] == events[j];
    }
  }

  /** What an event does to the records and the failures. */
  lemma NextRecords(setup: Setup, s: Store, e: Input)
    ensures Next(setup, s, e).log == if e.Record? && e.id !in s.log then s.log[e.id := Asked(e.ar, e.createAt, s.Now())]
                                     else s.log
    ensures Next(setup, s, e).fails == if e.Fail? then s.fails[FailKey(e.ar, e.id) := s.Now()] else s.fails
  {
    hide Step, MarkEvent;
  }

  /** Over every run: the log holds each request as first recorded, with the second that happened. */
  lemma {:induction false} LogIs(setup: Setup, start: int, events: seq<Input>, id: string)
    ensures id in After(setup, start, events).log <==> exists i :: FirstRecord(events, id, i)
    ensures forall i: nat | FirstRecord(events, id, i) ::
              && id in After(setup, start, events).log
              && After(setup, start, events).log[id]
                 == Asked(events[i].ar, events[i].createAt, After(setup, start, events[..i]).Now())
  {
    if events != [] {
      hide Next;
      var n := |events| - 1;
      LogIs(setup, start, events[..n], id);
      NextRecords(setup, After(setup, start, events[..n]), events[n]);
      forall i: nat | i < n
        ensures FirstRecord(events, id, i) <==> FirstRecord(events[..n], id, i)
        ensures events[..i] == events[..n][..i]
      {
        FirstRecordSnoc(events, id, i);
      }
      if FirstRecord(events, id, n) {
        assert forall i: nat | i < n :: !FirstRecord(events[..n], id, i);
      } else if events[n].Record? && events[n].id == id {
        EarlierRecord(events, id, n);
      }
    }
  }

  /** A request that an event records was recorded by a first one. */
  lemma {:induction false} EarlierRecord(events: seq<Input>, id: string, n: nat)
    requires n < |events| && events[n].Record? && events[n].id == id
    ensures exists i: nat :: i <= n && FirstRecord(events, id, i)
    decreases n
  {
    if !FirstRecord(events, id, n) {
      var j :| 0 <= j < n && events[j].Record? && events[j].id == id;
      EarlierRecord(events, id, j);
    }
  }

  /** And a failure's key holds the second of the last failure under it. */
  lemma {:induction false} FailsAre(setup: Setup, start: int, events: seq<Input>, key: FailKey)
    ensures key in After(setup, start, events).fails <==> exists i :: LastFail(events, key, i)
    ensures forall i: nat | LastFail(events, key, i) ::
              && key in After(setup, start, events).fails
              && After(setup, start, events).fails[key] == After(setup, start, events[..i]).Now()
  {
    if events != [] {
      hide Next;
      var n := |events| - 1;
      FailsAre(setup, start, events[..n], key);
      NextRecords(setup, After(setup, start, events[..n]), events[n]);
      forall i: nat | i < n
        ensures LastFail(events, key, i) <==> LastFail(events[..n], key, i) && events[n] != Fail(key.ar, key.id)
        ensures events[..i] == events[..n][..i]
      {
        LastFailSnoc(events, key, i);
      }
      assert LastFail(events, key, n) <==> events[n] == Fail(key.ar, key.id);
    }
  }

  /** The i-th event is a failure of the same bot, with enough recent ones of the bot at a high enough rate. */
  predicate BotFails(setup: Setup, start: int, events: seq<Input>, ar: Request, i: nat) {
    && i < |events| && events[i].Fail? && SameBot(events[i].ar, ar)
    && var s := Logged(After(setup, start, events[..i]), events[i].ar, events[i].id);
    var seconds := setup.checks.bot.checkTime;
    Over(setup.checks.bot, |BotFailures(s, ar, seconds)|, |LoginRequests(setup, s, ar, seconds)|)
  }

  /** Likewise for the action. */
  predicate ActionFails(setup: Setup, start: int, events: seq<Input>, ar: Request, i: nat) {
    && i < |events| && events[i].Fail? && events[i].ar == ar
    && var s := Logged(After(setup, start, events[..i]), ar, events[i].id);
    var seconds := setup.checks.action.checkTime;
    Over(setup.checks.action, |ActionFailures(s, ar, seconds)|, |ActionRequests(setup, s, ar, seconds)|)
  }

  lemma SameBotSameCounts(setup: Setup, s: Store, ar: Request, other: Request, seconds: int)
    requires SameBot(ar, other)
    ensures BotFailures(s, ar, seconds) == BotFailures(s, other, seconds)
    ensures LoginRequests(setup, s, ar, seconds) == LoginRequests(setup, s, other, seconds)
  {
    hide IsRecent;
  }

  lemma MarksBotIff(setup: Setup, s: Store, failed: Request, ar: Request)
    requires Inv(setup, s) && PlainStore(s) && Plain(failed)
    ensures var seconds := setup.checks.bot.checkTime;
            Marks(setup.checks, Failed(failed, CountsOf(setup, s, failed)), ItemsOf(ar).0) <==>
              && SameBot(failed, ar)
              && Over(setup.checks.bot, |BotFailures(s, ar, seconds)|, |LoginRequests(setup, s, ar, seconds)|)
  {
    hide Inv, PlainStore, Plain, CountsOf, BotFailures, LoginRequests, ActionFailures, ActionRequests, Over;
    CountsExact(setup, s, failed);
    if SameBot(failed, ar) { SameBotSameCounts(setup, s, failed, ar, setup.checks.bot.checkTime); }
  }

  lemma MarksActionIff(setup: Setup, s: Store, failed: Request, ar: Request)
    requires Inv(setup, s) && PlainStore(s) && Plain(failed) && Plain(ar)
    ensures var seconds := setup.checks.action.checkTime;
            Marks(setup.checks, Failed(failed, CountsOf(setup, s, failed)), ItemsOf(ar).1) <==>
              && failed == ar
              && Over(setup.checks.action, |ActionFailures(s, ar, seconds)|, |ActionRequests(setup, s, ar, seconds)|)
  {
    hide Inv, PlainStore, CountsOf, BotFailures, LoginRequests, ActionFailures, ActionRequests, Over, ActionRedisKey;
    CountsExact(setup, s, failed);
    if KeyOf(failed) == KeyOf(ar) { ActionKeyInjective(failed, ar); }
  }

  lemma LoggedKeeps(setup: Setup, s: Store, ar: Request, id: string)
    requires Inv(setup, s) && PlainStore(s) && Plain(ar)
    ensures Inv(setup, Logged(s, ar, id)) && PlainStore(Logged(s, ar, id))
  {
    hide Plain;
  }

  /** An event marks a bot, or an action, exactly when enough of it failed. */
  lemma MarksIff(setup: Setup, start: int, events: seq<Input>, ar: Request, i: nat)
    requires i < |events| && Plain(ar) && forall e | e in events :: PlainEvent(e)
    ensures var e := Trace(setup, start, events)[i];
            && (Marks(setup.checks, e, ItemsOf(ar).0) <==> BotFails(setup, start, events, ar, i))
            && (Marks(setup.checks, e, ItemsOf(ar).1) <==> ActionFails(setup, start, events, ar, i))
  {
    hide Inv, PlainStore, Plain, CountsOf, BotFailures, LoginRequests, ActionFailures, ActionRequests, Over, After,
      Trace, ItemsOf, SameBot;
    TraceAt(setup, start, events, i);
    var s, e := After(setup, start, events[..i]), events[i];
    if e.Fail? {
      assert PlainEvent(e);
      RunInv(setup, start, events[..i]);
      RunPlain(setup, start, events[..i]);
      LoggedKeeps(setup, s, e.ar, e.id);
      MarksBotIff(setup, Logged(s, e.ar, e.id), e.ar, ar);
      MarksActionIff(setup, Logged(s, e.ar, e.id), e.ar, ar);
    }
  }

  /** The j-th event is a recovery, due or by hand, that ends a quarantine which the i-th began. */
  predicate FreedAt(setup: Setup, start: int, events: seq<Input>, item: Item, i: nat, j: nat)
    requires i < |events| && j < |events|
  {
    && events[j].Other?
    && Frees(setup.checks, events[j].e, item,
             After(setup, start, events[..i]).Now(), After(setup, start, events[..j]).Now())
  }

  /** Nothing after the i-th event ends the quarantine that it began. */
  ghost predicate NotFreed(setup: Setup, start: int, events: seq<Input>, item: Item, i: nat)
    requires i < |events|
  {
    forall j | i < j < |events| :: !FreedAt(setup, start, events, item, i, j)
  }

  lemma {:induction false} TracePrefix(setup: Setup, start: int, events: seq<Input>, i: nat)
    requires i <= |events|
    ensures Trace(setup, start, events)[..i] == Trace(setup, start, events[..i])
  {
    hide MarkEvent, After;
    if i < |events| {
      var init := events[..|events| - 1];
      TracePrefix(setup, start, init, i);
      assert init[..i] == events[..i];
      assert Trace(setup, start, events)[..i] == Trace(setup, start, init)[..i];
    } else {
      assert events[..i] == events;
    }
  }

  lemma TimeIs(setup: Setup, start: int, events: seq<Input>, i: nat)
    requires i <= |events|
    ensures TimeAt(setup.checks, start, Trace(setup, start, events), i) == After(setup, start, events[..i]).Now()
  {
    hide Trace, After, Run;
    TracePrefix(setup, start, events, i);
    RunMarks(setup, start, events[..i]);
  }

  lemma SurvivesIff(setup: Setup, start: int, events: seq<Input>, item: Item, i: nat, j: nat)
    requires i < |events| && j < |events|
    ensures Survives(setup.checks, start, Trace(setup, start, events), item, i, j)
            <==> !FreedAt(setup, start, events, item, i, j)
  {
    hide Trace, After, TimeAt, CountsOf, Logged;
    TraceAt(setup, start, events, j);
    TimeIs(setup, start, events, i);
    TimeIs(setup, start, events, j);
  }

  /** What the clock shows: only Tick moves it. */
  lemma ClockMoves(setup: Setup, s: Store, e: Input)
    ensures Next(setup, s, e).Now() == s.Now() + if e.Other? && e.e.Tick? then e.e.seconds else 0
  {
    hide CountsOf, Recorded, Logged;
  }

  /**
   Over every run without colons, an action passes the check exactly when neither its bot nor the action
   itself had enough recent failures, at a high enough rate, at a failure since when no due recovery, and
   none by hand, has come.
   */
  lemma HealthyIffFailing(setup: Setup, start: int, events: seq<Input>, ar: Request)
    requires Plain(ar) && forall e | e in events :: PlainEvent(e)
    ensures Healthy(After(setup, start, events).marks, ar) <==>
              && (forall i :: !(BotFails(setup, start, events, ar, i)
                                && NotFreed(setup, start, events, ItemsOf(ar).0, i)))
              && (forall i :: !(ActionFails(setup, start, events, ar, i)
                                && NotFreed(setup, start, events, ItemsOf(ar).1, i)))
  {
    hide Plain, After, Trace, ItemsOf, Healthy, Marks, Survives, FreedAt;
    var trace := Trace(setup, start, events);
    RunMarks(setup, start, events);
    HealthyIff(setup.checks, start, trace, ar);
    forall i: nat | i < |events|
      ensures MarkHolds(setup.checks, start, trace, ItemsOf(ar).0, i)
              <==> BotFails(setup, start, events, ar, i) && NotFreed(setup, start, events, ItemsOf(ar).0, i)
      ensures MarkHolds(setup.checks, start, trace, ItemsOf(ar).1, i)
              <==> ActionFails(setup, start, events, ar, i) && NotFreed(setup, start, events, ItemsOf(ar).1, i)
    {
      MarksIff(setup, start, events, ar, i);
      forall item, j | i < j < |events|
        ensures Survives(setup.checks, start, trace, item, i, j) <==> !FreedAt(setup, start, events, item, i, j)
      {
        SurvivesIff(setup, start, events, item, i, j);
      }
    }
  }

  // ---- The code ----

  lemma KeysAreLogged(setup: Setup, s: Store)
    requires Inv(setup, s)
    ensures s.hours.Keys <= s.log.Keys
  {
  }

  /** The store's ARHOUR, ARFAIL and AR keys, and the quarantine. */
  class FailureStore {
    const setup: Setup
    const marks: QuarantineStore
    var hours: map<string, int>
    var fails: map<FailKey, int>
    var log: map<string, Asked>

    constructor (setup: Setup, start: int)
      ensures this.setup == setup && fresh(marks) && Valid() && S() == After(setup, start, [])
    {
      this.setup, hours, fails, log := setup, map[], map[], map[];
      marks := new QuarantineStore(setup.checks, start);
    }

    ghost function S(): Store
      reads this, marks
    {
      Store(hours, fails, log, marks.S())
    }

    ghost predicate Valid()
      reads this, marks
    {
      marks.checks == setup.checks && Inv(setup, S())
    }

    /** SaveActionRequestWLimit, as far as the quarantine goes. */
    method SaveActionRequestWLimit(ar: Request, id: string, createAt: int)
      requires Valid() && id !in log
      modifies this`log, this`hours
      ensures Valid() && S() == Recorded(setup, old(S()), ar, id, createAt)
    {
      RecordKeepsInv(setup, S(), ar, id, createAt);
      log := log[id := Asked(ar, createAt, marks.now)];
      if setup.hourly(ar.actionType) { hours := hours[id := marks.now + HOUR]; }
    }

    /** The condition of FailingActionCount on a key. */
    method FailedLater(pattern: string, key: FailKey, ts: int) returns (later: bool)
      requires key in fails
      ensures later <==> IsFound(S(), pattern, ts, key)
    {
      later := marks.now < fails[key] + HOUR && Matches(pattern, FailText(key)) && fails[key] > ts;
    }

    /** SCAN returns the ARFAIL keys in any order. */
    method FailingActionCount(pattern: string, checkTime: int) returns (count: nat)
      ensures count == |FailsFound(S(), pattern, marks.now - checkTime)|
    {
      hide IsFound;
      var ts := marks.now - checkTime;
      var scan := fails.Keys;
      ghost var found := FailsFound(S(), pattern, ts);
      count := 0;
      assert found - scan == {};
      while scan != {}
        invariant scan <= fails.Keys && count == |found - scan|
      {
        var key :| key in scan;
        OneMoreSeen(found, scan, key);
        scan := scan - {key};
        var later := FailedLater(pattern, key, ts);
        if later { count := count + 1; }
      }
      assert found - scan == found;
    }

    method GetActionRequest(id: string) returns (createAt: Option<int>)
      ensures createAt == Created(setup, S(), id)
    {
      if id !in log {
        return None;
      }
      var expires := log[id].at + if setup.daily(log[id].ar.actionType) then 24 * HOUR else 3 * HOUR;
      createAt := if marks.now < expires then Some(log[id].createAt) else None;
    }

    /** The condition of ActionRequestCountByTime on a key: its request is read without a look whether
        there is one. */
    method AskedLater(pattern: string, id: string, ts: int) returns (later: bool)
      requires Valid() && id in hours && id in log
      ensures later <==> IsAsked(setup, S(), pattern, ts, id)
    {
      if marks.now >= hours[id] || !Matches(pattern, HourText(log[id].ar, id)) {
        return false;
      }
      var arId := KeyToArId(HourText(log[id].ar, id));
      if arId.None? {
        return false;
      }
      RequestIsThere(setup, S(), id);
      var createAt := GetActionRequest(arId.value);
      later := createAt.value > ts;
    }

    method ActionRequestCountByTime(pattern: string, checkTime: int) returns (count: nat)
      requires Valid()
      ensures count == |AskedFound(setup, S(), pattern, marks.now - checkTime)|
    {
      hide IsAsked, Inv;
      var ts := marks.now - checkTime;
      KeysAreLogged(setup, S());
      var scan := hours.Keys;
      ghost var found := AskedFound(setup, S(), pattern, ts);
      count := 0;
      assert found - scan == {};
      while scan != {}
        invariant scan <= hours.Keys && count == |found - scan|
      {
        var id :| id in scan;
        OneMoreSeen(found, scan, id);
        scan := scan - {id};
        var later := AskedLater(pattern, id, ts);
        if later { count := count + 1; }
      }
      assert found - scan == found;
    }

    /** The failure is logged, then counted, and the two thresholds are tested. */
    method SaveFailingActionRequest(ar: Request, id: string)
      requires Valid()
      modifies this`fails, marks`bots, marks`actions
      ensures Valid() && S() == Next(setup, old(S()), Fail(ar, id))
    {
      hide FailsFound, AskedFound, Step;
      LaterKeepsInv(setup, S(), Logged(S(), ar, id));
      fails := fails[FailKey(ar, id) := marks.now];
      var count := FailingActionCount(FailPattern(ar), setup.checks.action.checkTime);
      var ncount := ActionRequestCountByTime(KeyPattern(Hour, ar.login, ar.actionType), setup.checks.action.checkTime);
      var bcount := FailingActionCount(FailBotPattern(ar), setup.checks.bot.checkTime);
      var bncount := ActionRequestCountByTime(LoginPattern(ar.login), setup.checks.bot.checkTime);
      ghost var s := S();
      marks.Mark(ar, Counts(count, ncount, bcount, bncount));
      TimeGoesOn(setup.checks, s.marks, Failed(ar, CountsOf(setup, s, ar)));
      LaterKeepsInv(setup, s, S());
    }
  }
}
