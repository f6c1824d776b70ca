/**
 The quota of actions: GetRateLimit (server/web/ratelimit.go:40-57), the check and the record in
 CreateAndRunAction (server/web/actions.go:1220-1282) and the expiring keys of
 SaveActionRequestWLimit (server/domains/actionrequests.go:334-376). Requests interleave; each
 count, reply and record is one step, and the clock moves between steps.
 */
module Quota {
  import opened Sets
  import opened QuotaKeys

  /** Seconds until a key of the window expires. */
  function Length(w: Window): nat {
    match w
    case Day => 24 * 60 * 60
    case Hour => 60 * 60
    case Minute => 60
  }

  datatype Limits = Limits(day: int, hour: int, minute: int) {
    function Of(w: Window): int {
      match w
      case Day => day
      case Hour => hour
      case Minute => minute
    }
  }

  const MINUTE_DEFAULT_LIMIT := 12

  const DAY_LIMIT: map<string, int> :=
    map["AddContact" := 100, "AcceptUser" := 200, "CreateRoom" := 100, "AddRoomMember" := 200,
        "SyncContact" := 5, "GetContact" := -1]

  const HOUR_LIMIT: map<string, int> :=
    map["AddContact" := 20, "AcceptUser" := 20, "CreateRoom" := 30, "AddRoomMember" := 60,
        "SyncContact" := 1, "SnsTimeline" := 200]

  const MINUTE_LIMIT: map<string, int> :=
    map["AddContact" := 1, "AcceptUser" := 1, "CreateRoom" := 1, "SyncContact" := 1, "SnsTimeline" := 60,
        "SendTextMessage" := 100, "SendAppMessage" := 200, "GetContact" := 30]

  function GetRateLimit(actionType: string): Limits {
    var minute := if actionType in MINUTE_LIMIT then MINUTE_LIMIT[actionType] else MINUTE_DEFAULT_LIMIT;
    var hour := if actionType in HOUR_LIMIT then HOUR_LIMIT[actionType] else minute * 60;
    var day := if actionType in DAY_LIMIT then DAY_LIMIT[actionType] else hour * 24;
    Limits(day, hour, minute)
  }

  /**
   Every limit is positive, no longer window has a lower one and none has more than the shorter ones
   within it add up to, but for the day limit of GetContact.
   */
  lemma LimitsShape(actionType: string)
    ensures var limits := GetRateLimit(actionType);
            && 0 < limits.minute <= limits.hour <= 60 * limits.minute
            && if actionType == "GetContact" then limits.day == -1 else limits.hour <= limits.day <= 24 * limits.hour
  {
  }

  /** The limits for day, hour and minute that come out of the three tables and the default. */
  lemma ConfiguredLimits()
    ensures GetRateLimit("AddContact") == Limits(100, 20, 1) && GetRateLimit("AcceptUser") == Limits(200, 20, 1)
    ensures GetRateLimit("CreateRoom") == Limits(100, 30, 1) && GetRateLimit("AddRoomMember") == Limits(200, 60, 12)
    ensures GetRateLimit("SyncContact") == Limits(5, 1, 1) && GetRateLimit("SnsTimeline") == Limits(4800, 200, 60)
    ensures GetRateLimit("SendTextMessage") == Limits(144000, 6000, 100)
    ensures GetRateLimit("SendAppMessage") == Limits(288000, 12000, 200)
    ensures GetRateLimit("GetContact") == Limits(-1, 1800, 30)
    ensures forall actionType | actionType !in DAY_LIMIT.Keys + HOUR_LIMIT.Keys + MINUTE_LIMIT.Keys ::
              GetRateLimit(actionType) == Limits(17280, 720, 12)
  {
  }

  /** Whose quota: a login and an action type. */
  datatype Class = Class(login: string, actionType: string)

  /** A quota key of the store. */
  datatype Key = Key(window: Window, cls: Class, id: string)

  /** A request that is counting: the windows counted so far. */
  datatype Pending = Pending(cls: Class, counts: map<Window, nat>)

  datatype Record = Record(cls: Class, at: int)

  /**
   keys maps a key to the second it expires in; log keeps every recorded action; rates is the
   rate limit in force, GetRateLimit.
   */
  datatype State = State(rates: string -> Limits, now: int, keys: map<Key, int>,
                         pending: map<string, Pending>, log: map<string, Record>)

  function Limit(rates: string -> Limits, cls: Class, w: Window): int {
    rates(cls.actionType).Of(w)
  }

  datatype Event =
    | Tick(seconds: nat)
    | Start(id: string, cls: Class)     // CreateAndRunAction is entered with a new request id
    | Count(id: string, window: Window) // ActionCountDaily, -Hourly or -Minutely
    | Fail(id: string)                  // an error ends the request
    | Reply(id: string, success: bool)  // the three tests, then the bot's answer and the record

  /** The pattern of the class finds the key: SCAN compares the texts. */
  predicate Sees(cls: Class, w: Window, key: Key) {
    Matches(KeyPattern(w, cls.login, cls.actionType), QuotaKey(key.window, key.cls.login, key.cls.actionType, key.id))
  }

  /** The keys that a count of the class finds: its own, and those of others that a colon lets in. */
  function Found(s: State, cls: Class, w: Window): set<Key> {
    set key | key in s.keys && Sees(cls, w, key) && s.now < s.keys[key]
  }

  /** The value tested against the limit: -2 if the window was not counted. */
  function Tested(p: Pending, w: Window): int {
    if w in p.counts then p.counts[w] else -2
  }

  predicate Exceeds(rates: string -> Limits, p: Pending) {
    || Tested(p, Day) > Limit(rates, p.cls, Day)
    || Tested(p, Hour) > Limit(rates, p.cls, Hour)
    || Tested(p, Minute) > Limit(rates, p.cls, Minute)
  }

  /** Every window with a positive limit has been counted. */
  predicate Counted(rates: string -> Limits, p: Pending) {
    forall w: Window | Limit(rates, p.cls, w) > 0 :: w in p.counts
  }

  function Save(s: State, keys: map<Key, int>, key: Key): map<Key, int> {
    if Limit(s.rates, key.cls, key.window) > 0 then keys[key := s.now + Length(key.window)] else keys
  }

  /** SaveActionRequestWLimit: a key for every window with a positive limit. */
  function Saved(s: State, cls: Class, id: string): map<Key, int> {
    Save(s, Save(s, Save(s, s.keys, Key(Day, cls, id)), Key(Hour, cls, id)), Key(Minute, cls, id))
  }

  function Recorded(s: State, cls: Class, id: string): State {
    s.(pending := s.pending - {id}, keys := Saved(s, cls, id), log := s.log[id := Record(cls, s.now)])
  }

  function Step(s: State, e: Event): State {
    match e
    case Tick(seconds) => s.(now := s.now + seconds)
    case Start(id, cls) =>
      if id in s.pending || id in s.log then s else s.(pending := s.pending[id := Pending(cls, map[])])
    case Count(id, w) =>
      if id !in s.pending || Limit(s.rates, s.pending[id].cls, w) <= 0 || w in s.pending[id].counts then s
      else
        var p := s.pending[id];
        s.(pending := s.pending[id := p.(counts := p.counts[w := |Found(s, p.cls, w)|])])
    case Fail(id) => s.(pending := s.pending - {id})
    case Reply(id, success) =>
      if id !in s.pending || !Counted(s.rates, s.pending[id]) then s
      else
        var p := s.pending[id];
        if Exceeds(s.rates, p) || !success then s.(pending := s.pending - {id})
        else Recorded(s, p.cls, id)
  }

  function Initial(rates: string -> Limits, start: int): State {
    State(rates, start, map[], map[], map[])
  }

  function Run(rates: string -> Limits, start: int, events: seq<Event>): State {
    if events == [] then Initial(rates, start)
    else Step(Run(rates, start, events[..|events| - 1]), events[|events| - 1])
  }

  // ---- The store finds exactly the records of the window ----

  /** The actions of a class recorded in the window that ends with second t. */
  function RecordedIn(s: State, cls: Class, w: Window, t: int): set<string> {
    set id | id in s.log && s.log[id].cls == cls && t - Length(w) < s.log[id].at <= t
  }

  /** A recorded action has a key for the window, if that is limited. */
  predicate KeyOf(s: State, id: string, w: Window)
    requires id in s.log
  {
    var key := Key(w, s.log[id].cls, id);
    Limit(s.rates, key.cls, w) > 0 ==> key in s.keys && s.keys[key] == s.log[id].at + Length(w)
  }

  ghost predicate StoreInv(s: State) {
    && (forall id, w: Window | id in s.log :: KeyOf(s, id, w))
    && (forall key | key in s.keys ::
          key.id in s.log && s.log[key.id].cls == key.cls && Limit(s.rates, key.cls, key.window) > 0)
    && (forall id | id in s.log :: s.log[id].at <= s.now && id !in s.pending)
  }

  lemma SavedKeys(s: State, cls: Class, id: string, key: Key)
    ensures var added := key.cls == cls && key.id == id && Limit(s.rates, cls, key.window) > 0;
            && (key in Saved(s, cls, id) <==> key in s.keys || added)
            && (added ==> Saved(s, cls, id)[key] == s.now + Length(key.window))
            && (!added && key in s.keys ==> Saved(s, cls, id)[key] == s.keys[key])
  {
  }

  lemma RecordKeepsStore(s: State, cls: Class, id: string)
    requires StoreInv(s) && id !in s.log
    ensures StoreInv(Recorded(s, cls, id))
  {
    var s' := Recorded(s, cls, id);
    forall x, w: Window | x in s'.log ensures KeyOf(s', x, w) {
      SavedKeys(s, cls, id, Key(w, s'.log[x].cls, x));
      if x != id { assert KeyOf(s, x, w); }
    }
    forall key | key in s'.keys
      ensures key.id in s'.log && s'.log[key.id].cls == key.cls && Limit(s.rates, key.cls, key.window) > 0
    {
      SavedKeys(s, cls, id, key);
    }
  }

  lemma {:induction false} StoreKept(s: State, e: Event)
    requires StoreInv(s)
    ensures StoreInv(Step(s, e))
  {
    var s' := Step(s, e);
    if e.Reply? && e.id in s.pending && s' == Recorded(s, s.pending[e.id].cls, e.id) {
      RecordKeepsStore(s, s.pending[e.id].cls, e.id);
    } else {
      assert s'.log == s.log && s'.keys == s.keys;
      forall id, w: Window | id in s'.log ensures KeyOf(s', id, w) { assert KeyOf(s, id, w); }
    }
  }

  function OwnKeys(cls: Class, w: Window, ids: set<string>): set<Key> {
    set id | id in ids :: Key(w, cls, id)
  }

  lemma {:induction false} OwnKeysCount(cls: Class, w: Window, ids: set<string>)
    ensures |OwnKeys(cls, w, ids)| == |ids|
  {
    if ids != {} {
      var id :| id in ids;
      OwnKeysCount(cls, w, ids - {id});
      assert OwnKeys(cls, w, ids) == OwnKeys(cls, w, ids - {id}) + {Key(w, cls, id)};
    }
  }

  lemma SeesOwn(cls: Class, w: Window, key: Key)
    requires key.cls == cls
    ensures Sees(cls, w, key) <==> key.window == w
  {
    PatternIff(w, cls.login, cls.actionType, key.window, cls.login, cls.actionType, key.id);
    PatternFindsOwn(w, cls.login, cls.actionType, key.id);
  }

  /** A count finds at least what is recorded of the class in the window that ends now. */
  lemma RecordedAreFound(s: State, cls: Class, w: Window)
    requires StoreInv(s) && Limit(s.rates, cls, w) > 0
    ensures |RecordedIn(s, cls, w, s.now)| <= |Found(s, cls, w)|
  {
    var ids := RecordedIn(s, cls, w, s.now);
    forall id | id in ids ensures Key(w, cls, id) in Found(s, cls, w) {
      assert KeyOf(s, id, w);
      SeesOwn(cls, w, Key(w, cls, id));
    }
    OwnKeysCount(cls, w, ids);
    SubsetCount(OwnKeys(cls, w, ids), Found(s, cls, w));
  }

  /** It finds exactly that when it sees no other class's keys. */
  lemma FoundAreRecorded(s: State, cls: Class, w: Window)
    requires StoreInv(s) && Limit(s.rates, cls, w) > 0
    requires forall key | key in s.keys && Sees(cls, w, key) :: key.cls == cls
    ensures Found(s, cls, w) == OwnKeys(cls, w, RecordedIn(s, cls, w, s.now))
    ensures |Found(s, cls, w)| == |RecordedIn(s, cls, w, s.now)|
  {
    var ids := RecordedIn(s, cls, w, s.now);
    forall key | key in Found(s, cls, w) ensures key in OwnKeys(cls, w, ids) {
      SeesOwn(cls, w, key);
      assert KeyOf(s, key.id, w) && key == Key(w, cls, key.id);
    }
    forall id | id in ids ensures Key(w, cls, id) in Found(s, cls, w) {
      assert KeyOf(s, id, w);
      SeesOwn(cls, w, Key(w, cls, id));
    }
    OwnKeysCount(cls, w, ids);
  }

  /** That is so when no login or action type that has keys contains a colon. */
  lemma ColonFreeCounts(s: State, cls: Class, w: Window)
    requires ':' !in cls.login && ':' !in cls.actionType
    requires forall key | key in s.keys :: ':' !in key.cls.login && ':' !in key.cls.actionType
    ensures forall key | key in s.keys && Sees(cls, w, key) :: key.cls == cls
  {
    forall key | key in s.keys && Sees(cls, w, key) ensures key.cls == cls {
      PatternExact(w, cls.login, cls.actionType, key.window, key.cls.login, key.cls.actionType, key.id);
    }
  }

  // ---- The bound ----

  /** Counted the window, neither recorded nor dropped yet. */
  function InFlight(s: State, cls: Class, w: Window): set<string> {
    set id | id in s.pending && s.pending[id].cls == cls && w in s.pending[id].counts
  }

  /** Those in flight that this window's test lets pass. */
  function Passing(s: State, cls: Class, w: Window): set<string> {
    set id | id in s.pending && s.pending[id].cls == cls && w in s.pending[id].counts
             && s.pending[id].counts[w] <= Limit(s.rates, cls, w)
  }

  ghost predicate Bounded(s: State, cls: Class, w: Window, k: nat) {
    && |RecordedIn(s, cls, w, s.now)| + |Passing(s, cls, w)| <= Limit(s.rates, cls, w) + k
    && forall t :: |RecordedIn(s, cls, w, t)| <= Limit(s.rates, cls, w) + k
  }

  /** What is recorded in a window that ends now or later was recorded in the window that ends now. */
  lemma LaterWindows(s: State, cls: Class, w: Window, t: int)
    requires StoreInv(s) && s.now <= t
    ensures |RecordedIn(s, cls, w, t)| <= |RecordedIn(s, cls, w, s.now)|
  {
    SubsetCount(RecordedIn(s, cls, w, t), RecordedIn(s, cls, w, s.now));
  }

  lemma TickKeepsBound(s: State, seconds: nat, cls: Class, w: Window, k: nat)
    requires StoreInv(s) && Bounded(s, cls, w, k)
    ensures Bounded(Step(s, Tick(seconds)), cls, w, k)
  {
    var s' := Step(s, Tick(seconds));
    LaterWindows(s, cls, w, s'.now);
    assert Passing(s', cls, w) == Passing(s, cls, w);
    forall t ensures RecordedIn(s', cls, w, t) == RecordedIn(s, cls, w, t) {}
  }

  /** Counting: one that passes saw at most limit records, and at most k are then in flight. */
  lemma CountKeepsBound(s: State, id: string, v: Window, cls: Class, w: Window, k: nat)
    requires StoreInv(s) && Bounded(s, cls, w, k) && Limit(s.rates, cls, w) > 0
    requires |InFlight(Step(s, Count(id, v)), cls, w)| <= k
    ensures Bounded(Step(s, Count(id, v)), cls, w, k)
  {
    var s' := Step(s, Count(id, v));
    forall t ensures RecordedIn(s', cls, w, t) == RecordedIn(s, cls, w, t) {}
    RecordedAreFound(s, cls, w);
    if Passing(s', cls, w) <= Passing(s, cls, w) {
      OtherStepsKeepBound(s, s', cls, w, k);
    } else {
      SubsetCount(Passing(s', cls, w), InFlight(s', cls, w));
    }
  }

  lemma RecordCounts(s: State, id: string, cls: Class, w: Window)
    requires StoreInv(s) && id in Passing(s, cls, w)
    ensures |Passing(Recorded(s, cls, id), cls, w)| == |Passing(s, cls, w)| - 1
    ensures |RecordedIn(Recorded(s, cls, id), cls, w, s.now)| <= |RecordedIn(s, cls, w, s.now)| + 1
  {
    hide StoreInv, Saved, Limit;
    var s' := Recorded(s, cls, id);
    assert Passing(s', cls, w) == Passing(s, cls, w) - {id};
    SubsetCount(RecordedIn(s', cls, w, s.now), RecordedIn(s, cls, w, s.now) + {id});
  }

  lemma RecordIsLater(s: State, id: string, cls: Class, w: Window, t: int)
    requires id !in s.log && t < s.now
    ensures RecordedIn(Recorded(s, cls, id), cls, w, t) == RecordedIn(s, cls, w, t)
  {
  }

  /** A record takes a passing request out of flight. */
  lemma RecordKeepsBound(s: State, id: string, cls: Class, w: Window, k: nat)
    requires StoreInv(s) && Bounded(s, cls, w, k) && id in Passing(s, cls, w)
    ensures Bounded(Recorded(s, cls, id), cls, w, k)
  {
    var s' := Recorded(s, cls, id);
    RecordKeepsStore(s, cls, id);
    RecordCounts(s, id, cls, w);
    forall t ensures |RecordedIn(s', cls, w, t)| <= Limit(s.rates, cls, w) + k {
      if t < s.now {
        RecordIsLater(s, id, cls, w, t);
      } else {
        LaterWindows(s', cls, w, t);
      }
    }
  }

  lemma NotExceeding(s: State, p: Pending, w: Window)
    requires Counted(s.rates, p) && !Exceeds(s.rates, p) && Limit(s.rates, p.cls, w) > 0
    ensures w in p.counts && p.counts[w] <= Limit(s.rates, p.cls, w)
  {
  }

  /** Steps that neither record for the class nor let another of its requests pass. */
  lemma OtherStepsKeepBound(s: State, s': State, cls: Class, w: Window, k: nat)
    requires Bounded(s, cls, w, k) && s'.rates == s.rates && s'.now == s.now
    requires Passing(s', cls, w) <= Passing(s, cls, w)
    requires forall id :: id in s'.log && s'.log[id].cls == cls <==> id in s.log && s.log[id].cls == cls
    requires forall id | id in s.log && s.log[id].cls == cls :: s'.log[id] == s.log[id]
    ensures Bounded(s', cls, w, k)
  {
    forall t ensures RecordedIn(s', cls, w, t) == RecordedIn(s, cls, w, t) {}
    SubsetCount(Passing(s', cls, w), Passing(s, cls, w));
  }

  lemma ReplyKeepsBound(s: State, id: string, success: bool, cls: Class, w: Window, k: nat)
    requires StoreInv(s) && Bounded(s, cls, w, k) && Limit(s.rates, cls, w) > 0
    ensures Bounded(Step(s, Reply(id, success)), cls, w, k)
  {
    hide Bounded, Exceeds, Counted, Saved, Limit;
    if id in s.pending && Counted(s.rates, s.pending[id]) && !Exceeds(s.rates, s.pending[id])
       && success && s.pending[id].cls == cls
    {
      NotExceeding(s, s.pending[id], w);
      RecordKeepsBound(s, id, cls, w, k);
    } else {
      OtherStepsKeepBound(s, Step(s, Reply(id, success)), cls, w, k);
    }
  }

  lemma StepKeepsBound(s: State, e: Event, cls: Class, w: Window, k: nat)
    requires StoreInv(s) && Bounded(s, cls, w, k) && Limit(s.rates, cls, w) > 0
    requires |InFlight(Step(s, e), cls, w)| <= k
    ensures Bounded(Step(s, e), cls, w, k)
  {
    hide Bounded, StoreInv, Limit;
    match e
    case Tick(seconds) => TickKeepsBound(s, seconds, cls, w, k);
    case Count(id, v) => CountKeepsBound(s, id, v, cls, w, k);
    case Start(_, _) => OtherStepsKeepBound(s, Step(s, e), cls, w, k);
    case Fail(_) => OtherStepsKeepBound(s, Step(s, e), cls, w, k);
    case Reply(id, success) => ReplyKeepsBound(s, id, success, cls, w, k);
  }

  /** No more than k requests of the class are ever between counting the window and being recorded. */
  ghost predicate AtMostInFlight(rates: string -> Limits, start: int, events: seq<Event>, cls: Class, w: Window,
                                 k: nat)
  {
    forall i | 0 <= i <= |events| :: |InFlight(Run(rates, start, events[..i]), cls, w)| <= k
  }

  lemma {:induction false} PrefixInFlight(rates: string -> Limits, start: int, events: seq<Event>,
    cls: Class, w: Window, k: nat)
    requires events != [] && AtMostInFlight(rates, start, events, cls, w, k)
    ensures AtMostInFlight(rates, start, events[..|events| - 1], cls, w, k)
    ensures |InFlight(Run(rates, start, events), cls, w)| <= k
  {
    var init := events[..|events| - 1];
    assert forall i | 0 <= i <= |init| :: init[..i] == events[..i];
    assert events[..|events|] == events;
  }

  lemma {:induction false} RunInv(rates: string -> Limits, start: int, events: seq<Event>,
    cls: Class, w: Window, k: nat)
    requires Limit(rates, cls, w) > 0 && AtMostInFlight(rates, start, events, cls, w, k)
    ensures Run(rates, start, events).rates == rates && StoreInv(Run(rates, start, events))
    ensures Bounded(Run(rates, start, events), cls, w, k)
  {
    if events == [] {
      assert forall t :: RecordedIn(Initial(rates, start), cls, w, t) == {};
      assert Passing(Initial(rates, start), cls, w) == {};
    } else {
      var init := events[..|events| - 1];
      PrefixInFlight(rates, start, events, cls, w, k);
      RunInv(rates, start, init, cls, w, k);
      StoreKept(Run(rates, start, init), events[|init|]);
      StepKeepsBound(Run(rates, start, init), events[|init|], cls, w, k);
    }
  }

  /**
   The quota: with a positive limit and at most k requests between counting and recording, no
   window of 60, 3600 or 86400 seconds ever holds more than limit + k recorded actions.
   */
  lemma {:induction false} QuotaBound(rates: string -> Limits, start: int, events: seq<Event>, cls: Class,
                                         w: Window, k: nat, t: int)
    requires Limit(rates, cls, w) > 0 && AtMostInFlight(rates, start, events, cls, w, k)
    ensures |RecordedIn(Run(rates, start, events), cls, w, t)| <= Limit(rates, cls, w) + k
  {
    RunInv(rates, start, events, cls, w, k);
  }

  /** The actions of a class recorded in the seconds up to t. */
  function RecordedWithin(s: State, cls: Class, seconds: nat, t: int): set<string> {
    set id | id in s.log && s.log[id].cls == cls && t - seconds < s.log[id].at <= t
  }

  /** The same in numbers: 60, 3600 and 86400 seconds, against the limits for minute, hour and day. */
  lemma {:induction false} QuotaInSeconds(rates: string -> Limits, start: int, events: seq<Event>, cls: Class,
                                          k: nat, t: int)
    ensures rates(cls.actionType).minute > 0 && AtMostInFlight(rates, start, events, cls, Minute, k) ==>
              |RecordedWithin(Run(rates, start, events), cls, 60, t)| <= rates(cls.actionType).minute + k
    ensures rates(cls.actionType).hour > 0 && AtMostInFlight(rates, start, events, cls, Hour, k) ==>
              |RecordedWithin(Run(rates, start, events), cls, 3600, t)| <= rates(cls.actionType).hour + k
    ensures rates(cls.actionType).day > 0 && AtMostInFlight(rates, start, events, cls, Day, k) ==>
              |RecordedWithin(Run(rates, start, events), cls, 86400, t)| <= rates(cls.actionType).day + k
  {
    hide AtMostInFlight, Run;
    var s := Run(rates, start, events);
    forall w: Window | Limit(rates, cls, w) > 0 && AtMostInFlight(rates, start, events, cls, w, k)
      ensures |RecordedIn(s, cls, w, t)| <= Limit(rates, cls, w) + k
    {
      QuotaBound(rates, start, events, cls, w, k, t);
    }
    assert RecordedIn(s, cls, Minute, t) == RecordedWithin(s, cls, 60, t);
    assert RecordedIn(s, cls, Hour, t) == RecordedWithin(s, cls, 3600, t);
    assert RecordedIn(s, cls, Day, t) == RecordedWithin(s, cls, 86400, t);
  }

  // ---- What is recorded ----

  /** The request's counts let it pass: none is above its limit, and no limit below the -2 of a missing count. */
  predicate Admitted(rates: string -> Limits, p: Pending) {
    forall w: Window ::
      if w in p.counts then p.counts[w] <= rates(p.cls.actionType).Of(w) else -2 <= rates(p.cls.actionType).Of(w)
  }

  /** The i-th event answers the request with success, after its counts, and they let it pass. */
  ghost predicate RecordsAt(rates: string -> Limits, start: int, events: seq<Event>, id: string, i: nat) {
    && i < |events| && events[i] == Reply(id, true)
    && var s := Run(rates, start, events[..i]);
    id in s.pending && Counted(rates, s.pending[id]) && Admitted(rates, s.pending[id])
  }

  /** What a reply does: with success for an admitted request the action is recorded now, for its class, with
      a key for each limited window; any other reply only ends the request. */
  lemma ReplyEffect(s: State, id: string, success: bool)
    requires id in s.pending && Counted(s.rates, s.pending[id])
    ensures var s', p := Step(s, Reply(id, success)), s.pending[id];
            && s'.pending == s.pending - {id} && s'.now == s.now && s'.rates == s.rates
            && (!success || !Admitted(s.rates, p) ==> s'.log == s.log && s'.keys == s.keys)
            && (success && Admitted(s.rates, p) ==>
                  && s'.log == s.log[id := Record(p.cls, s.now)]
                  && forall w: Window | s.rates(p.cls.actionType).Of(w) > 0 ::
                       Key(w, p.cls, id) in s'.keys && s'.keys[Key(w, p.cls, id)] == s.now + Length(w))
  {
    var p := s.pending[id];
    forall w: Window { SavedKeys(s, p.cls, id, Key(w, p.cls, id)); }
    assert Admitted(s.rates, p) ==> !Exceeds(s.rates, p);
    assert !Exceeds(s.rates, p) ==> Admitted(s.rates, p) by {
      assert forall w: Window :: Tested(p, w) == if w in p.counts then p.counts[w] else -2;
    }
  }

  /** The other events record nothing; a failure ends its request, and a tick moves the clock. */
  lemma OtherEventsRecordNothing(s: State, e: Event)
    requires e.Reply? ==> e.id !in s.pending || !Counted(s.rates, s.pending[e.id])
    ensures Step(s, e).log == s.log && Step(s, e).keys == s.keys
    ensures e.Fail? ==> Step(s, e) == s.(pending := s.pending - {e.id})
    ensures e.Tick? ==> Step(s, e) == s.(now := s.now + e.seconds)
  {
  }

  lemma RecordsAtSnoc(rates: string -> Limits, start: int, events: seq<Event>, id: string, i: nat)
    requires events != [] && i < |events| - 1
    ensures events[..i] == events[..|events| - 1][..i]
    ensures RecordsAt(rates, start, events, id, i) <==> RecordsAt(rates, start, events[..|events| - 1], id, i)
  {
    assert events[..i] == events[..|events| - 1][..i];
  }

  /** What one more event adds to the log. */
  lemma {:induction false} LogSnoc(rates: string -> Limits, start: int, events: seq<Event>, id: string)
    requires events != []
    ensures var n := |events| - 1;
            var before, after := Run(rates, start, events[..n]), Run(rates, start, events);
            if RecordsAt(rates, start, events, id, n)
            then id !in before.log && id in after.log && after.log[id] == Record(before.pending[id].cls, before.now)
            else (id in after.log <==> id in before.log) && (id in before.log ==> after.log[id] == before.log[id])
  {
    hide Step, Counted, Admitted, StoreInv;
    var n := |events| - 1;
    var s, e := Run(rates, start, events[..n]), events[n];
    RunCountsLimited(rates, start, events[..n]);
    LoggedNotPending(rates, start, events[..n]);
    if e.Reply? && e.id in s.pending && Counted(rates, s.pending[e.id]) {
      ReplyEffect(s, e.id, e.success);
    } else {
      OtherEventsRecordNothing(s, e);
    }
  }

  lemma LoggedNotPending(rates: string -> Limits, start: int, events: seq<Event>)
    ensures forall id | id in Run(rates, start, events).log :: id !in Run(rates, start, events).pending
  {
    RunStore(rates, start, events);
  }

  /** Over every run an action is recorded exactly if an admitted request of it was answered with success, and
      then at that second, for the request's class. */
  lemma {:induction false} RecordedIff(rates: string -> Limits, start: int, events: seq<Event>, id: string)
    ensures id in Run(rates, start, events).log <==> exists i :: RecordsAt(rates, start, events, id, i)
    ensures forall i: nat | RecordsAt(rates, start, events, id, i) ::
              var before := Run(rates, start, events[..i]);
              id in Run(rates, start, events).log
              && Run(rates, start, events).log[id] == Record(before.pending[id].cls, before.now)
  {
    if events != [] {
      var n := |events| - 1;
      RecordedIff(rates, start, events[..n], id);
      LogSnoc(rates, start, events, id);
      forall i: nat | i < n
        ensures events[..i] == events[..n][..i]
        ensures RecordsAt(rates, start, events, id, i) <==> RecordsAt(rates, start, events[..n], id, i)
      {
        RecordsAtSnoc(rates, start, events, id, i);
      }
    }
  }

  ghost predicate StartedAt(events: seq<Event>, id: string, cls: Class, i: nat) {
    i < |events| && events[i] == Start(id, cls)
  }

  /** The i-th event counted the window for the request, and found so many keys. */
  ghost predicate CountedAt(rates: string -> Limits, start: int, events: seq<Event>, id: string, cls: Class,
                            w: Window, count: nat, i: nat)
  {
    i < |events| && events[i] == Count(id, w) && count == |Found(Run(rates, start, events[..i]), cls, w)|
  }

  lemma PendingStep(s: State, e: Event, id: string)
    requires id in Step(s, e).pending
    ensures var p := Step(s, e).pending[id];
            if id !in s.pending then e == Start(id, p.cls) && p.counts == map[]
            else
              && p.cls == s.pending[id].cls
              && forall w | w in p.counts ::
                   || (w in s.pending[id].counts && s.pending[id].counts[w] == p.counts[w])
                   || (e == Count(id, w) && p.counts[w] == |Found(s, p.cls, w)|)
  {
    hide Found, Saved, Counted, Exceeds, Limit;
  }

  /** A request in flight is of the class it was started with, and its counts are what the store held when they
      were made. */
  lemma {:induction false} PendingIs(rates: string -> Limits, start: int, events: seq<Event>, id: string)
    requires id in Run(rates, start, events).pending
    ensures var p := Run(rates, start, events).pending[id];
            && (exists i :: StartedAt(events, id, p.cls, i))
            && forall w | w in p.counts :: exists i :: CountedAt(rates, start, events, id, p.cls, w, p.counts[w], i)
  {
    hide Found, Step;
    var n := |events| - 1;
    var init, e := events[..n], events[n];
    var s, p := Run(rates, start, init), Run(rates, start, events).pending[id];
    PendingStep(s, e, id);
    if id !in s.pending {
      assert StartedAt(events, id, p.cls, n);
    } else {
      PendingIs(rates, start, init, id);
      var before := s.pending[id];
      var i :| StartedAt(init, id, before.cls, i);
      assert StartedAt(events, id, p.cls, i);
      forall w | w in p.counts ensures exists j :: CountedAt(rates, start, events, id, p.cls, w, p.counts[w], j) {
        if w in before.counts && before.counts[w] == p.counts[w] {
          var j: nat :| CountedAt(rates, start, init, id, before.cls, w, before.counts[w], j);
          assert init[..j] == events[..j];
          assert CountedAt(rates, start, events, id, p.cls, w, p.counts[w], j);
        } else {
          assert CountedAt(rates, start, events, id, p.cls, w, p.counts[w], n);
        }
      }
    }
  }

  // ---- Sharpness ----

  /** A request that has been counted and will not be rejected. */
  predicate Ready(rates: string -> Limits, cls: Class, p: Pending) {
    p.cls == cls && Counted(rates, p) && !Exceeds(rates, p)
  }

  /** Only this class is active, and nothing in flight will be rejected. */
  ghost predicate Busy(s: State, cls: Class, flying: set<string>) {
    && (forall id | id in s.log :: s.log[id].cls == cls)
    && s.pending.Keys == flying && (forall id | id in flying :: Ready(s.rates, cls, s.pending[id]))
  }

  /** Every count of the class yields what is recorded. */
  ghost predicate AllFound(s: State, cls: Class) {
    forall w: Window | Limit(s.rates, cls, w) > 0 :: |Found(s, cls, w)| == |RecordedIn(s, cls, w, s.now)|
  }

  /** No counted window holds more than its limit, and one that is not counted never rejects. */
  ghost predicate Room(s: State, cls: Class) {
    forall w: Window ::
      if Limit(s.rates, cls, w) > 0 then |RecordedIn(s, cls, w, s.now)| <= Limit(s.rates, cls, w)
      else Limit(s.rates, cls, w) >= -2
  }

  lemma BusyFinds(s: State, cls: Class, flying: set<string>)
    requires StoreInv(s) && Busy(s, cls, flying)
    ensures AllFound(s, cls)
  {
    forall w: Window | Limit(s.rates, cls, w) > 0 ensures |Found(s, cls, w)| == |RecordedIn(s, cls, w, s.now)| {
      assert forall key | key in s.keys :: key.cls == cls;
      FoundAreRecorded(s, cls, w);
    }
  }

  lemma {:induction false} RunStore(rates: string -> Limits, start: int, events: seq<Event>)
    ensures StoreInv(Run(rates, start, events))
  {
    if events != [] {
      RunStore(rates, start, events[..|events| - 1]);
      StoreKept(Run(rates, start, events[..|events| - 1]), events[|events| - 1]);
    }
  }

  /** A run of rates in which never more than k requests are pending. */
  ghost predicate Calm(rates: string -> Limits, start: int, events: seq<Event>, k: nat) {
    && Run(rates, start, events).rates == rates
    && forall i | 0 <= i <= |events| :: |Run(rates, start, events[..i]).pending| <= k
  }

  lemma {:induction false} CalmSnoc(rates: string -> Limits, start: int, events: seq<Event>, e: Event, k: nat)
    requires Calm(rates, start, events, k) && |Step(Run(rates, start, events), e).pending| <= k
    ensures Calm(rates, start, events + [e], k)
    ensures Run(rates, start, events + [e]) == Step(Run(rates, start, events), e)
  {
    var more := events + [e];
    assert more[..|events|] == events;
    forall i | 0 <= i <= |more| ensures |Run(rates, start, more[..i]).pending| <= k {
      if i <= |events| { assert more[..i] == events[..i]; } else { assert more[..i] == more; }
    }
  }

  lemma FreshId(used: set<string>) returns (id: string)
    ensures id !in used
  {
    var n := Longest(used);
    id := seq(n + 1, _ => 'x');
  }

  lemma Longest(used: set<string>) returns (n: nat)
    ensures forall s | s in used :: |s| <= n
  {
    n := 0;
    if used != {} {
      var s :| s in used;
      var m := Longest(used - {s});
      n := if |s| > m then |s| else m;
    }
  }

  /** The window counted by the n-th of the three counts. */
  function Nth(n: nat): Window {
    if n == 1 then Day else if n == 2 then Hour else Minute
  }

  /** The state after a request has started and made the first n of its three counts. */
  function Counting(s: State, cls: Class, id: string, n: nat): State {
    if n == 0 then Step(s, Start(id, cls)) else Step(Counting(s, cls, id, n - 1), Count(id, Nth(n)))
  }

  /** What those counts are. */
  function Counts(s: State, cls: Class, n: nat): map<Window, nat> {
    if n == 0 then map[]
    else if Limit(s.rates, cls, Nth(n)) > 0 then Counts(s, cls, n - 1)[Nth(n) := |Found(s, cls, Nth(n))|]
    else Counts(s, cls, n - 1)
  }

  lemma {:induction false} NotCountedYet(s: State, cls: Class, n: nat)
    requires n < 3
    ensures Nth(n + 1) !in Counts(s, cls, n)
  {
    assert Counts(s, cls, 0) == map[];
  }

  lemma {:induction false} CountingSees(s: State, cls: Class, id: string, n: nat)
    requires id !in s.pending && id !in s.log && n <= 3
    ensures Counting(s, cls, id, n) == s.(pending := s.pending[id := Pending(cls, Counts(s, cls, n))])
  {
    hide Exceeds, Counted, Recorded, Sees, Limit, Saved, StoreInv;
    if n > 0 {
      CountingSees(s, cls, id, n - 1);
      NotCountedYet(s, cls, n - 1);
      var before := s.(pending := s.pending[id := Pending(cls, Counts(s, cls, n - 1))]);
      assert Counting(s, cls, id, n) == Step(before, Count(id, Nth(n)));
      assert Found(before, cls, Nth(n)) == Found(s, cls, Nth(n));
    }
  }

  lemma AllCounts(s: State, cls: Class)
    ensures forall w: Window :: w in Counts(s, cls, 3) <==> Limit(s.rates, cls, w) > 0
    ensures forall w | w in Counts(s, cls, 3) :: Counts(s, cls, 3)[w] == |Found(s, cls, w)|
  {
    assert Nth(1) == Day && Nth(2) == Hour && Nth(3) == Minute;
    var c1, c2 := Counts(s, cls, 1), Counts(s, cls, 2);
    assert Counts(s, cls, 0) == map[];
    assert forall w: Window :: w in c1 <==> w == Day && Limit(s.rates, cls, w) > 0;
    assert forall w: Window :: w in c2 <==> w != Minute && Limit(s.rates, cls, w) > 0;
  }

  lemma CountsReady(s: State, cls: Class)
    requires Room(s, cls) && AllFound(s, cls)
    ensures Ready(s.rates, cls, Pending(cls, Counts(s, cls, 3)))
  {
    hide Found, RecordedIn;
    AllCounts(s, cls);
  }

  lemma BusyMore(s: State, cls: Class, flying: set<string>, id: string, p: Pending)
    requires Busy(s, cls, flying) && id !in flying && Ready(s.rates, cls, p)
    ensures Busy(s.(pending := s.pending[id := p]), cls, flying + {id})
  {
  }

  /** A run of this class alone, with these requests in flight. */
  ghost predicate Reaches(rates: string -> Limits, start: int, events: seq<Event>, cls: Class,
                          flying: set<string>, k: nat)
  {
    Calm(rates, start, events, k) && Busy(Run(rates, start, events), cls, flying)
  }

  /** One more request is counted while there is room, and passes every test. */
  lemma {:induction false} Admit(rates: string -> Limits, start: int, events: seq<Event>, cls: Class,
              flying: set<string>, k: nat) returns (more: seq<Event>, id: string)
    requires Reaches(rates, start, events, cls, flying, k) && |flying| < k && Room(Run(rates, start, events), cls)
    ensures id !in flying && Reaches(rates, start, more, cls, flying + {id}, k)
    ensures var s, s' := Run(rates, start, events), Run(rates, start, more);
            s'.log == s.log && s'.now == s.now
  {
    var s := Run(rates, start, events);
    id := FreshId(s.log.Keys + flying);
    RunStore(rates, start, events);
    BusyFinds(s, cls, flying);
    CountsReady(s, cls);
    BusyMore(s, cls, flying, id, Pending(cls, Counts(s, cls, 3)));
    more := CountingEvents(rates, start, events, cls, flying, id, k);
    CountingSees(s, cls, id, 3);
  }

  lemma {:induction false} CountingEvents(rates: string -> Limits, start: int, events: seq<Event>, cls: Class,
                       flying: set<string>, id: string, k: nat) returns (more: seq<Event>)
    requires Calm(rates, start, events, k) && |flying| < k
    requires var s := Run(rates, start, events);
             s.pending.Keys == flying && id !in s.pending && id !in s.log
    ensures Calm(rates, start, more, k)
    ensures Run(rates, start, more) == Counting(Run(rates, start, events), cls, id, 3)
  {
    var s := Run(rates, start, events);
    more := events;
    for n := 0 to 4
      invariant Calm(rates, start, more, k)
      invariant Run(rates, start, more) == if n == 0 then s else Counting(s, cls, id, n - 1)
    {
      CountingSees(s, cls, id, n);
      var e := if n == 0 then Start(id, cls) else Count(id, Nth(n));
      PendingGrows(s, Counting(s, cls, id, n), flying, id);
      CalmSnoc(rates, start, more, e, k);
      more := more + [e];
    }
  }

  lemma PendingGrows(s: State, s': State, flying: set<string>, id: string)
    requires s.pending.Keys == flying && id !in flying
    requires id in s'.pending && s'.pending == s.pending[id := s'.pending[id]]
    ensures |s'.pending| == |flying| + 1
  {
    assert s'.pending.Keys == flying + {id};
  }

  /** One of those in flight is recorded. */
  lemma Settle(rates: string -> Limits, start: int, events: seq<Event>, cls: Class,
               flying: set<string>, id: string, k: nat) returns (more: seq<Event>)
    requires Reaches(rates, start, events, cls, flying, k) && id in flying
    ensures Reaches(rates, start, more, cls, flying - {id}, k)
    ensures var s, s' := Run(rates, start, events), Run(rates, start, more);
            id !in s.log && s'.log == s.log[id := Record(cls, s.now)] && s'.now == s.now
  {
    more := events + [Reply(id, true)];
    var s := Run(rates, start, events);
    RunStore(rates, start, events);
    assert id !in s.log;
    ReadyIsRecorded(s, cls, id);
    BusyLess(s, Recorded(s, cls, id), cls, flying, id);
    PendingNow(rates, start, events, k);
    PendingShrinks(s, id);
    CalmSnoc(rates, start, events, Reply(id, true), k);
  }

  lemma ReadyIsRecorded(s: State, cls: Class, id: string)
    requires id in s.pending && Ready(s.rates, cls, s.pending[id])
    ensures Step(s, Reply(id, true)) == Recorded(s, cls, id)
  {
  }

  lemma BusyLess(s: State, s': State, cls: Class, flying: set<string>, id: string)
    requires Busy(s, cls, flying) && id in flying && s'.rates == s.rates
    requires s'.pending == s.pending - {id} && s'.log == s.log[id := Record(cls, s.now)]
    ensures Busy(s', cls, flying - {id})
  {
    assert s'.pending.Keys == flying - {id};
    assert forall other | other in flying - {id} :: s'.pending[other] == s.pending[other];
  }

  lemma PendingShrinks(s: State, id: string)
    ensures |s.pending - {id}| <= |s.pending|
  {
    SubsetCount((s.pending - {id}).Keys, s.pending.Keys);
  }

  lemma PendingNow(rates: string -> Limits, start: int, events: seq<Event>, k: nat)
    requires Calm(rates, start, events, k)
    ensures |Run(rates, start, events).pending| <= k
  {
    assert events[..|events|] == events;
  }

  /**
   A schedule for as many requests as the window w allows, the i-th at(i) seconds after the start: in
   order, all within one window w, and no other window gets more of them than its limit.
   */
  ghost predicate Spread(limits: Limits, w: Window, at: nat -> nat) {
    && (forall v: Window :: limits.Of(v) >= -2)
    && 0 < limits.Of(w) && at(limits.Of(w) - 1) < at(0) + Length(w)
    && (forall i: nat, j: nat | i <= j < limits.Of(w) :: at(i) <= at(j))
    && Paced(limits, w, at)
  }

  ghost predicate Paced(limits: Limits, w: Window, at: nat -> nat) {
    forall v: Window, i: nat, j: nat | 0 < limits.Of(v) && i + limits.Of(v) == j < limits.Of(w) ::
      at(i) + Length(v) <= at(j)
  }

  /** ids[i] was recorded at(i) seconds after the start, and nothing else was. */
  ghost predicate Listed(log: map<string, Record>, start: int, cls: Class, at: nat -> nat, ids: seq<string>) {
    |log| == |ids| && AllIn(log.Keys, ids) && Timed(log, start, cls, at, ids)
  }

  ghost predicate Timed(log: map<string, Record>, start: int, cls: Class, at: nat -> nat, ids: seq<string>) {
    forall i | 0 <= i < |ids| :: ids[i] in log && log[ids[i]] == Record(cls, start + at(i))
  }

  ghost predicate AllIn(some: set<string>, ids: seq<string>) {
    forall id | id in some :: id in ids
  }

  lemma {:induction false} AtMostLength(ids: seq<string>, some: set<string>)
    requires AllIn(some, ids)
    ensures |some| <= |ids|
  {
    if ids == [] {
      assert some == {};
    } else {
      AtMostLength(ids[1..], some - {ids[0]});
      assert some <= (some - {ids[0]}) + {ids[0]};
      SubsetCount(some, some - {ids[0]} + {ids[0]});
    }
  }

  /** At the time of the j-th request there is room, also after it. */
  lemma RoomLeft(s: State, start: int, cls: Class, w: Window, at: nat -> nat, ids: seq<string>, j: nat)
    requires Listed(s.log, start, cls, at, ids) && Spread(s.rates(cls.actionType), w, at)
    requires j < Limit(s.rates, cls, w) && |ids| <= j + 1 && s.now == start + at(j)
    ensures Room(s, cls)
  {
    forall v: Window | Limit(s.rates, cls, v) > 0
      ensures |RecordedIn(s, cls, v, s.now)| <= Limit(s.rates, cls, v)
    {
      RoomInWindow(s, start, cls, w, at, ids, j, v);
    }
  }

  lemma Apart(limits: Limits, w: Window, at: nat -> nat, v: Window, i: nat, j: nat)
    requires Spread(limits, w, at) && 0 < limits.Of(v) && i + limits.Of(v) <= j < limits.Of(w)
    ensures at(i) + Length(v) <= at(j)
  {
    var next := i + limits.Of(v);
    assert at(i) + Length(v) <= at(next) <= at(j);
  }

  lemma RoomInWindow(s: State, start: int, cls: Class, w: Window, at: nat -> nat, ids: seq<string>, j: nat, v: Window)
    requires Listed(s.log, start, cls, at, ids) && Spread(s.rates(cls.actionType), w, at)
    requires j < Limit(s.rates, cls, w) && |ids| <= j + 1 && s.now == start + at(j)
    requires Limit(s.rates, cls, v) > 0
    ensures |RecordedIn(s, cls, v, s.now)| <= Limit(s.rates, cls, v)
  {
    var limit := Limit(s.rates, cls, v);
    var some := RecordedIn(s, cls, v, s.now);
    if |ids| <= limit {
      AtMostLength(ids, some);
    } else {
      var last := ids[|ids| - limit..];
      forall id | id in some ensures id in last {
        var i :| 0 <= i < |ids| && ids[i] == id;
        if i + limit <= j { Apart(s.rates(cls.actionType), w, at, v, i, j); }
        assert id == last[i - (|ids| - limit)];
      }
      AtMostLength(last, some);
    }
  }

  /** The clock moves on. */
  lemma Wait(rates: string -> Limits, start: int, events: seq<Event>, cls: Class, seconds: nat, k: nat)
    requires Reaches(rates, start, events, cls, {}, k)
    ensures Reaches(rates, start, events + [Tick(seconds)], cls, {}, k)
    ensures var s := Run(rates, start, events);
            Run(rates, start, events + [Tick(seconds)]) == s.(now := s.now + seconds)
  {
    PendingNow(rates, start, events, k);
    CalmSnoc(rates, start, events, Tick(seconds), k);
  }

  lemma AllInMore(some: set<string>, ids: seq<string>, id: string)
    requires AllIn(some, ids)
    ensures AllIn(some + {id}, ids + [id])
  {
    forall x | x in some + {id} ensures x in ids + [id] {
      if x == id { assert (ids + [id])[|ids|] == id; }
    }
  }

  lemma TimedMore(log: map<string, Record>, start: int, cls: Class, at: nat -> nat, ids: seq<string>, id: string)
    requires Timed(log, start, cls, at, ids) && id !in log
    ensures Timed(log[id := Record(cls, start + at(|ids|))], start, cls, at, ids + [id])
  {
    var more := ids + [id];
    forall i | 0 <= i < |ids| ensures more[i] == ids[i] && ids[i] in log && more[i] != id {}
  }

  lemma ListedMore(log: map<string, Record>, start: int, cls: Class, at: nat -> nat, ids: seq<string>, id: string)
    requires Listed(log, start, cls, at, ids) && id !in log
    ensures Listed(log[id := Record(cls, start + at(|ids|))], start, cls, at, ids + [id])
  {
    hide AllIn, Timed;
    AllInMore(log.Keys, ids, id);
    TimedMore(log, start, cls, at, ids, id);
    assert log[id := Record(cls, start + at(|ids|))].Keys == log.Keys + {id};
  }

  /** When the request with this number is made after those before it. */
  function Clock(at: nat -> nat, made: nat): nat {
    if made == 0 then 0 else at(made - 1)
  }

  lemma ClockOrder(limits: Limits, w: Window, at: nat -> nat, made: nat)
    requires Spread(limits, w, at) && made < limits.Of(w)
    ensures Clock(at, made) <= at(made)
  {
  }

  /** The next request of the schedule, made at its time and recorded before the next. */
  lemma {:induction false} NextRequest(rates: string -> Limits, start: int, before: seq<Event>, cls: Class, w: Window,
                                       at: nat -> nat, k: nat, ids: seq<string>)
    returns (events: seq<Event>, id: string)
    requires k > 0 && Spread(rates(cls.actionType), w, at) && |ids| < Limit(rates, cls, w)
    requires Reaches(rates, start, before, cls, {}, k)
    requires var s := Run(rates, start, before);
             Listed(s.log, start, cls, at, ids) && s.now == start + Clock(at, |ids|)
    ensures Reaches(rates, start, events, cls, {}, k)
    ensures var s := Run(rates, start, events);
            Listed(s.log, start, cls, at, ids + [id]) && s.now == start + at(|ids|)
  {
    hide Reaches, Spread, Room, Listed, Run, Step, RecordedIn, StoreInv, CountsLimited;
    var s := Run(rates, start, before);
    RunCountsLimited(rates, start, before);
    ClockOrder(rates(cls.actionType), w, at, |ids|);
    var wait := at(|ids|) - Clock(at, |ids|);
    Wait(rates, start, before, cls, wait, k);
    events := before + [Tick(wait)];
    RoomLeft(Run(rates, start, events), start, cls, w, at, ids, |ids|);
    events, id := Admit(rates, start, events, cls, {}, k);
    assert {} + {id} - {id} == {};
    events := Settle(rates, start, events, cls, {} + {id}, id, k);
    ListedMore(s.log, start, cls, at, ids, id);
  }

  lemma NothingYet(rates: string -> Limits, start: int, cls: Class, at: nat -> nat, k: nat)
    ensures Reaches(rates, start, [], cls, {}, k)
    ensures Listed(Run(rates, start, []).log, start, cls, at, []) && Run(rates, start, []).now == start + Clock(at, 0)
  {
  }

  /** As many requests as the limit, one after the other. */
  lemma {:induction false} ReachLimit(rates: string -> Limits, start: int, cls: Class, w: Window, at: nat -> nat,
                                      k: nat)
    returns (events: seq<Event>, ids: seq<string>)
    requires k > 0 && Spread(rates(cls.actionType), w, at)
    ensures |ids| == Limit(rates, cls, w) && Reaches(rates, start, events, cls, {}, k)
    ensures var s := Run(rates, start, events);
            Listed(s.log, start, cls, at, ids) && s.now == start + at(|ids| - 1)
  {
    assert 0 < Limit(rates, cls, w);
    hide Reaches, Listed, Run, Spread, Room;
    events, ids := [], [];
    NothingYet(rates, start, cls, at, k);
    while |ids| < Limit(rates, cls, w)
      invariant |ids| <= Limit(rates, cls, w) && Reaches(rates, start, events, cls, {}, k)
      invariant var s := Run(rates, start, events);
                Listed(s.log, start, cls, at, ids) && s.now == start + Clock(at, |ids|)
      decreases Limit(rates, cls, w) - |ids|
    {
      var id;
      events, id := NextRequest(rates, start, events, cls, w, at, k, ids);
      ids := ids + [id];
    }
  }

  /** Then k requests that count together. */
  lemma {:induction false} ReachInFlight(rates: string -> Limits, start: int, before: seq<Event>, cls: Class, k: nat)
    returns (events: seq<Event>, flying: set<string>)
    requires Reaches(rates, start, before, cls, {}, k) && Room(Run(rates, start, before), cls)
    ensures |flying| == k && Reaches(rates, start, events, cls, flying, k)
    ensures var s, s' := Run(rates, start, before), Run(rates, start, events);
            s'.log == s.log && s'.now == s.now
  {
    events, flying := before, {};
    while |flying| < k
      invariant |flying| <= k && Reaches(rates, start, events, cls, flying, k)
      invariant var s, s' := Run(rates, start, before), Run(rates, start, events);
                s'.log == s.log && s'.now == s.now
      decreases k - |flying|
    {
      var id;
      events, id := Admit(rates, start, events, cls, flying, k);
      flying := flying + {id};
    }
  }

  /** Finally all of them are answered and recorded. */
  lemma {:induction false} ReachRecords(rates: string -> Limits, start: int, before: seq<Event>, cls: Class,
                                        w: Window, flying: set<string>, k: nat)
    returns (events: seq<Event>)
    requires Reaches(rates, start, before, cls, flying, k)
    ensures Calm(rates, start, events, k)
    ensures var s, s' := Run(rates, start, before), Run(rates, start, events);
            |RecordedIn(s', cls, w, s.now)| == |RecordedIn(s, cls, w, s.now)| + |flying|
    decreases |flying|
  {
    events := before;
    if flying != {} {
      var id :| id in flying;
      var s := Run(rates, start, before);
      events := Settle(rates, start, before, cls, flying, id, k);
      RecordedNow(s, Run(rates, start, events), cls, w, id);
      events := ReachRecords(rates, start, events, cls, w, flying - {id}, k);
    }
  }

  lemma RecordedNow(s: State, s': State, cls: Class, w: Window, id: string)
    requires id !in s.log && s'.log == s.log[id := Record(cls, s.now)]
    ensures |RecordedIn(s', cls, w, s.now)| == |RecordedIn(s, cls, w, s.now)| + 1
  {
    assert RecordedIn(s', cls, w, s.now) == RecordedIn(s, cls, w, s.now) + {id};
  }

  /**
   The bound is sharp: when as many requests as the limit can be spread over the window without being
   too many for another one, then k more that count together after them are all let through.
   */
  lemma {:induction false} QuotaSharp(rates: string -> Limits, start: int, cls: Class, w: Window, at: nat -> nat,
                                      k: nat)
    returns (events: seq<Event>, end: int)
    requires k > 0 && Spread(rates(cls.actionType), w, at)
    ensures AtMostInFlight(rates, start, events, cls, w, k)
    ensures |RecordedIn(Run(rates, start, events), cls, w, end)| == Limit(rates, cls, w) + k
  {
    hide Reaches, Room, Calm, AtMostInFlight, Step;
    var ids, flying;
    events, ids := ReachLimit(rates, start, cls, w, at, k);
    var s := Run(rates, start, events);
    end := s.now;
    assert s.rates == rates by { RunCountsLimited(rates, start, events); }
    RoomLeft(s, start, cls, w, at, ids, |ids| - 1);
    AllWithin(s, start, cls, w, at, ids);
    events, flying := ReachInFlight(rates, start, events, cls, k);
    events := ReachRecords(rates, start, events, cls, w, flying, k);
    CalmInFlight(rates, start, events, cls, w, k);
  }

  lemma WithinAt(s: State, start: int, cls: Class, w: Window, at: nat -> nat, ids: seq<string>, i: nat)
    requires Timed(s.log, start, cls, at, ids) && Spread(s.rates(cls.actionType), w, at)
    requires |ids| == Limit(s.rates, cls, w) && s.now == start + at(|ids| - 1) && i < |ids|
    ensures ids[i] in RecordedIn(s, cls, w, s.now)
  {
    hide Paced;
    assert at(0) <= at(i) <= at(|ids| - 1);
  }

  lemma AllWithin(s: State, start: int, cls: Class, w: Window, at: nat -> nat, ids: seq<string>)
    requires Listed(s.log, start, cls, at, ids) && Spread(s.rates(cls.actionType), w, at)
    requires |ids| == Limit(s.rates, cls, w) && s.now == start + at(|ids| - 1)
    ensures |RecordedIn(s, cls, w, s.now)| == |ids|
  {
    hide Spread, Timed;
    forall id | id in s.log ensures id in RecordedIn(s, cls, w, s.now) {
      var i :| 0 <= i < |ids| && ids[i] == id;
      WithinAt(s, start, cls, w, at, ids, i);
    }
    assert RecordedIn(s, cls, w, s.now) == s.log.Keys;
  }

  lemma {:induction false} CalmInFlight(rates: string -> Limits, start: int, events: seq<Event>, cls: Class,
                                        w: Window, k: nat)
    requires Calm(rates, start, events, k)
    ensures AtMostInFlight(rates, start, events, cls, w, k)
  {
    forall i | 0 <= i <= |events| ensures |InFlight(Run(rates, start, events[..i]), cls, w)| <= k {
      var s := Run(rates, start, events[..i]);
      SubsetCount(InFlight(s, cls, w), s.pending.Keys);
    }
  }

  function Quotient(a: nat, n: nat): nat
    requires 0 < n
  {
    a / n
  }

  /** A burst every minute, of as many as it allows, until the hour's limit, and again every hour. */
  function Bursts(limits: Limits): nat -> nat
    requires 0 < limits.minute && 0 < limits.hour
  {
    (i: nat) => 3600 * Quotient(i, limits.hour) + 60 * Quotient(i % limits.hour, limits.minute)
  }

  lemma MulOrder(x: int, y: int, n: nat)
    requires x <= y
    ensures x * n <= y * n
  {
    assert (y - x) * n >= 0;
    assert (y - x) * n == y * n - x * n;
  }

  lemma QuotientIs(a: nat, n: nat, q: nat)
    requires q * n <= a < q * n + n
    ensures a / n == q && a % n == a - q * n
  {
    var d := a / n;
    assert a == d * n + a % n && (d + 1) * n == d * n + n && (q + 1) * n == q * n + n;
    if d < q {
      MulOrder(d + 1, q, n);
    } else if d > q {
      MulOrder(q + 1, d, n);
    }
  }

  lemma QuotientOrder(a: nat, b: nat, n: nat)
    requires 0 < n && a <= b
    ensures a / n <= b / n
    ensures a / n == b / n ==> a % n <= b % n
  {
    var x, y := a / n, b / n;
    assert a == x * n + a % n && b == y * n + b % n && (y + 1) * n == y * n + n;
    if x > y {
      MulOrder(y + 1, x, n);
    }
  }

  lemma QuotientBelow(a: nat, b: nat, n: nat)
    requires 0 < n && a < b * n
    ensures a / n < b
  {
    var x := a / n;
    assert a == x * n + a % n;
    if x >= b { MulOrder(b, x, n); }
  }

  /** The next m numbers end in the same group of h, or in the next one. */
  lemma SameGroup(i: nat, m: nat, h: nat)
    requires 0 < m < h && i % h + m < h
    ensures (i + m) / h == i / h && (i + m) % h == i % h + m
  {
    QuotientIs(i + m, h, i / h);
  }

  lemma NextGroup(i: nat, m: nat, h: nat)
    requires 0 < m <= h <= i % h + m
    ensures (i + m) / h == i / h + 1
  {
    var q := i / h;
    assert (q + 1) * h == q * h + h;
    QuotientIs(i + m, h, q + 1);
  }

  /** The i-th request's burst within its hour. */
  lemma BurstBelow(limits: Limits, i: nat)
    requires 0 < limits.minute && 0 < limits.hour <= 60 * limits.minute
    ensures 0 <= i % limits.hour / limits.minute < 60
  {
    QuotientBelow(i % limits.hour, 60, limits.minute);
  }

  lemma BurstsOrder(limits: Limits, i: nat, j: nat)
    requires 0 < limits.minute && 0 < limits.hour <= 60 * limits.minute && i <= j
    ensures Bursts(limits)(i) <= Bursts(limits)(j)
  {
    QuotientOrder(i, j, limits.hour);
    BurstBelow(limits, i);
    BurstBelow(limits, j);
    if i / limits.hour == j / limits.hour {
      QuotientOrder(i % limits.hour, j % limits.hour, limits.minute);
    }
  }

  lemma MinutesApart(limits: Limits, i: nat)
    requires 0 < limits.minute <= limits.hour <= 60 * limits.minute
    ensures Bursts(limits)(i) + 60 <= Bursts(limits)(i + limits.minute)
  {
    var h, m := limits.hour, limits.minute;
    BurstBelow(limits, i);
    if i % h + m < h {
      SameGroup(i, m, h);
      NextGroup(i % h, m, m);
    } else {
      NextGroup(i, m, h);
      BurstBelow(limits, i + m);
    }
  }

  lemma HoursApart(limits: Limits, i: nat)
    requires 0 < limits.minute && 0 < limits.hour
    ensures Bursts(limits)(i) + 3600 == Bursts(limits)(i + limits.hour)
  {
    var h := limits.hour;
    var q := i / h;
    assert i == q * h + i % h && (q + 1) * h == q * h + h;
    QuotientIs(i + h, h, q + 1);
  }

  lemma BurstsWithin(limits: Limits, w: Window)
    requires 0 < limits.minute <= limits.hour <= 60 * limits.minute
    requires limits.day <= 24 * limits.hour && 0 < limits.Of(w)
    ensures Bursts(limits)(0) == 0 && Bursts(limits)(limits.Of(w) - 1) < Length(w)
  {
    var n, h, m := limits.Of(w) - 1, limits.hour, limits.minute;
    BurstBelow(limits, n);
    match w
    case Day => QuotientBelow(n, 24, h);
    case Hour => QuotientIs(n, h, 0);
    case Minute =>
      QuotientIs(n, h, 0);
      QuotientIs(n, m, 0);
  }

  lemma BurstsPaced(limits: Limits, w: Window)
    requires 0 < limits.minute <= limits.hour <= 60 * limits.minute && (limits.day > 0 ==> limits.hour <= limits.day)
    ensures Paced(limits, w, Bursts(limits))
  {
    hide Bursts;
    var at := Bursts(limits);
    forall v: Window, i: nat, j: nat | 0 < limits.Of(v) && i + limits.Of(v) == j < limits.Of(w)
      ensures at(i) + Length(v) <= at(j)
    {
      match v
      case Day =>
      case Hour => HoursApart(limits, i);
      case Minute => MinutesApart(limits, i);
    }
  }

  lemma BurstsSpread(limits: Limits, w: Window)
    requires 0 < limits.minute <= limits.hour <= 60 * limits.minute
    requires if limits.day > 0 then limits.hour <= limits.day <= 24 * limits.hour else limits.day >= -2
    requires limits.Of(w) > 0
    ensures Spread(limits, w, Bursts(limits))
  {
    hide Bursts, Paced;
    BurstsPaced(limits, w);
    BurstsWithin(limits, w);
    forall i: nat, j: nat | i <= j < limits.Of(w) ensures Bursts(limits)(i) <= Bursts(limits)(j) {
      BurstsOrder(limits, i, j);
    }
  }

  /** Under the configured rates that is so for every action type and window. */
  lemma {:induction false} ConfiguredSharp(start: int, cls: Class, w: Window, k: nat)
    returns (events: seq<Event>, end: int)
    requires k > 0 && Limit(GetRateLimit, cls, w) > 0
    ensures AtMostInFlight(GetRateLimit, start, events, cls, w, k)
    ensures |RecordedIn(Run(GetRateLimit, start, events), cls, w, end)| == Limit(GetRateLimit, cls, w) + k
  {
    LimitsShape(cls.actionType);
    BurstsSpread(GetRateLimit(cls.actionType), w);
    events, end := QuotaSharp(GetRateLimit, start, cls, w, Bursts(GetRateLimit(cls.actionType)), k);
  }

  // ---- When a request is rejected ----

  ghost predicate CountsLimited(s: State) {
    forall id, w | id in s.pending && w in s.pending[id].counts :: Limit(s.rates, s.pending[id].cls, w) > 0
  }

  lemma {:induction false} StepCountsLimited(s: State, e: Event)
    requires CountsLimited(s)
    ensures Step(s, e).rates == s.rates && CountsLimited(Step(s, e))
  {
    hide Found, Limit, Saved, Exceeds, Counted;
    var s' := Step(s, e);
    forall id, w | id in s'.pending && w in s'.pending[id].counts ensures Limit(s.rates, s'.pending[id].cls, w) > 0 {
      if id in s.pending && w in s.pending[id].counts {
        assert Limit(s.rates, s.pending[id].cls, w) > 0;
      }
    }
  }

  lemma {:induction false} RunCountsLimited(rates: string -> Limits, start: int, events: seq<Event>)
    ensures Run(rates, start, events).rates == rates && CountsLimited(Run(rates, start, events))
  {
    hide Step;
    if events != [] {
      RunCountsLimited(rates, start, events[..|events| - 1]);
      StepCountsLimited(Run(rates, start, events[..|events| - 1]), events[|events| - 1]);
    }
  }

  predicate OverLimit(rates: string -> Limits, p: Pending, w: Window) {
    if Limit(rates, p.cls, w) > 0 then w in p.counts && p.counts[w] > Limit(rates, p.cls, w)
    else Limit(rates, p.cls, w) < -2
  }

  /**
   In every run, a request is rejected exactly when a window it counted held more than its limit, or
   when a limit lies below the -2 that stands for a window not counted. So -1 never rejects.
   */
  lemma RejectedIff(rates: string -> Limits, start: int, events: seq<Event>, id: string)
    requires id in Run(rates, start, events).pending
    ensures var p := Run(rates, start, events).pending[id];
            Counted(rates, p) ==>
              (Exceeds(rates, p) <==> exists w: Window :: OverLimit(rates, p, w))
  {
    RunCountsLimited(rates, start, events);
    ExceedsIff(rates, Run(rates, start, events).pending[id]);
  }

  lemma ExceedsIff(rates: string -> Limits, p: Pending)
    requires Counted(rates, p) ==> forall w | w in p.counts :: Limit(rates, p.cls, w) > 0
    ensures Counted(rates, p) ==> (Exceeds(rates, p) <==> exists w: Window :: OverLimit(rates, p, w))
  {
    forall w: Window ensures Tested(p, w) > Limit(rates, p.cls, w) && Counted(rates, p) ==> OverLimit(rates, p, w) {}
  }

  /** The quota leaves room for a request: no limited window's keys are more than its limit, and no limit is
      below -2. */
  predicate HasRoom(s: State, cls: Class) {
    forall w: Window ::
      if s.rates(cls.actionType).Of(w) > 0 then |Found(s, cls, w)| <= s.rates(cls.actionType).Of(w)
      else -2 <= s.rates(cls.actionType).Of(w)
  }

  lemma AdmittedByCounts(s: State, cls: Class)
    ensures Admitted(s.rates, Pending(cls, Counts(s, cls, 3))) <==> HasRoom(s, cls)
  {
    AllCounts(s, cls);
  }

  lemma ExceedsUnlessAdmitted(rates: string -> Limits, p: Pending)
    ensures Exceeds(rates, p) <==> !Admitted(rates, p)
  {
    assert forall w: Window :: Tested(p, w) == if w in p.counts then p.counts[w] else -2;
  }

  // ---- The code of one request ----

  /** The key store, with the requests in flight and the actions recorded as ghosts. */
  class Store {
    const rates: string -> Limits
    var now: int
    var keys: map<Key, int>
    ghost var pending: map<string, Pending>
    ghost var log: map<string, Record>

    constructor (rates: string -> Limits, start: int)
      ensures S() == Initial(rates, start)
    {
      this.rates, now, keys := rates, start, map[];
      pending, log := map[], map[];
    }

    ghost function S(): State
      reads this
    {
      State(rates, now, keys, pending, log)
    }

    /** RedisMatchCount: SCAN returns the keys that match, in any order. */
    method MatchCount(cls: Class, w: Window) returns (count: nat)
      ensures count == |Found(S(), cls, w)|
    {
      count := 0;
      var scan := keys.Keys;
      ghost var found := Found(S(), cls, w);
      assert found - scan == {};
      while scan != {}
        invariant scan <= keys.Keys && count == |found - scan|
      {
        var key :| key in scan;
        OneMoreSeen(found, scan, key);
        assert key in found <==> Sees(cls, w, key) && now < keys[key];
        scan := scan - {key};
        if Sees(cls, w, key) && now < keys[key] { count := count + 1; }
      }
      assert found - scan == found;
    }

    method SetEx(key: Key, seconds: nat)
      modifies this`keys
      ensures keys == old(keys)[key := now + seconds]
    {
      keys := keys[key := now + seconds];
    }

    /** SaveActionRequestWLimit, as far as the quota goes. */
    method SaveActionRequestWLimit(cls: Class, id: string, limits: Limits)
      requires limits == rates(cls.actionType)
      modifies this`keys
      ensures keys == old(Saved(S(), cls, id))
    {
      if limits.day > 0 { SetEx(Key(Day, cls, id), 24 * 60 * 60); }
      if limits.hour > 0 { SetEx(Key(Hour, cls, id), 60 * 60); }
      if limits.minute > 0 { SetEx(Key(Minute, cls, id), 60); }
    }

    /** The counts that the limits ask for; -2 stands for the others. */
    method CountWindows(cls: Class, id: string, limits: Limits)
      returns (dayCount: int, hourCount: int, minuteCount: int)
      requires id !in pending && id !in log && limits == rates(cls.actionType)
      modifies this`pending
      ensures S() == Counting(old(S()), cls, id, 3)
      ensures id in pending && pending[id].cls == cls && Counted(rates, pending[id])
      ensures Admitted(rates, pending[id]) <==> HasRoom(old(S()), cls)
      ensures dayCount == Tested(pending[id], Day) && hourCount == Tested(pending[id], Hour)
      ensures minuteCount == Tested(pending[id], Minute)
    {
      dayCount, hourCount, minuteCount := -2, -2, -2;
      if limits.day > 0 { dayCount := MatchCount(cls, Day); }
      if limits.hour > 0 { hourCount := MatchCount(cls, Hour); }
      if limits.minute > 0 { minuteCount := MatchCount(cls, Minute); }
      AllCounts(S(), cls);
      AdmittedByCounts(S(), cls);
      CountingSees(S(), cls, id, 3);
      pending := pending[id := Pending(cls, Counts(S(), cls, 3))];
    }

    /**
     CreateAndRunAction from the limits on, for a new request id: the bot takes elapsed seconds to
     answer, with success or not; the store may then not be reached, and the action goes unrecorded;
     or it is recorded, but the answer of the store or the entry in the API log is lost, and the request fails.
     */
    method CreateAndRunAction(cls: Class, id: string, elapsed: nat, success: bool, stored: bool, logged: bool)
      returns (ok: bool)
      requires id !in pending && id !in log
      modifies this
      ensures var counted := Counting(old(S()), cls, id, 3);
              && id in counted.pending
              && S() == if Exceeds(rates, counted.pending[id]) then Step(counted, Reply(id, success))
                        else if success && !stored then Step(Step(counted, Tick(elapsed)), Fail(id))
                        else Step(Step(counted, Tick(elapsed)), Reply(id, success))
      ensures var admitted := HasRoom(old(S()), cls);
              && (ok <==> admitted && success && stored && logged)
              && (id in log <==> admitted && success && stored)
              && (id in log ==> log == old(log)[id := Record(cls, now)])
              && (id !in log ==> log == old(log) && keys == old(keys))
              && now == old(now) + if admitted then elapsed else 0
      ensures id !in pending
    {
      hide Counting, Saved, Counted, Admitted, HasRoom;
      var limits := rates(cls.actionType);
      var dayCount, hourCount, minuteCount := CountWindows(cls, id, limits);
      ExceedsUnlessAdmitted(rates, pending[id]);
      if dayCount > limits.day {
        pending := pending - {id};
        return false;
      }
      if hourCount > limits.hour {
        pending := pending - {id};
        return false;
      }
      if minuteCount > limits.minute {
        pending := pending - {id};
        return false;
      }
      now := now + elapsed;
      if success && stored {
        SaveActionRequestWLimit(cls, id, limits);
        log := log[id := Record(cls, now)];
      }
      ok := success && stored && logged;
      pending := pending - {id};
    }
  }
}
