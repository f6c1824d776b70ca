/**
 The keys under which the quota of actions is kept, server/domains/actionrequests.go:41-80:
 ARDAY, ARHOUR and ARMINUTE, then login, action type and request id, joined by colons.
 */
module QuotaKeys {
  import opened Wrappers
  import opened Strings

  datatype Window = Day | Hour | Minute {
    function Prefix(): string {
      match this
      case Day => "ARDAY"
      case Hour => "ARHOUR"
      case Minute => "ARMINUTE"
    }
  }

  const COLON := ":"

  /** The key pattern without its trailing '*': SCAN finds the keys that start with it. */
  function KeyPattern(w: Window, login: string, actionType: string): string {
    w.Prefix() + COLON + (login + COLON + (actionType + COLON))
  }

  /** redisHourLoginKeyPattern, likewise: all action types of a login. */
  function LoginPattern(login: string): string {
    Hour.Prefix() + COLON + (login + COLON)
  }

  function QuotaKey(w: Window, login: string, actionType: string, id: string): string {
    w.Prefix() + COLON + (login + COLON + (actionType + COLON + id))
  }

  predicate Matches(pattern: string, key: string) {
    |pattern| <= |key| && key[..|pattern|] == pattern
  }

  /** arQuotaKeyToArId; None is its error. */
  function KeyToArId(key: string): Option<string> {
    var t := Split(key, COLON);
    if |t| != 4 then None else Some(t[3])
  }

  lemma KeyText(w: Window, prefix: string, login: string, actionType: string, id: string)
    requires prefix == w.Prefix() + ":"
    ensures QuotaKey(w, login, actionType, id) == prefix + login + ":" + actionType + ":" + id
    ensures KeyPattern(w, login, actionType) == prefix + login + ":" + actionType + ":"
  {
  }

  /** The texts of the keys, and of the patterns that find them. */
  lemma KeyTexts(login: string, actionType: string, id: string)
    ensures QuotaKey(Day, login, actionType, id) == "ARDAY:" + login + ":" + actionType + ":" + id
    ensures QuotaKey(Hour, login, actionType, id) == "ARHOUR:" + login + ":" + actionType + ":" + id
    ensures QuotaKey(Minute, login, actionType, id) == "ARMINUTE:" + login + ":" + actionType + ":" + id
    ensures KeyPattern(Day, login, actionType) == "ARDAY:" + login + ":" + actionType + ":"
    ensures KeyPattern(Hour, login, actionType) == "ARHOUR:" + login + ":" + actionType + ":"
    ensures KeyPattern(Minute, login, actionType) == "ARMINUTE:" + login + ":" + actionType + ":"
  {
    hide QuotaKey, KeyPattern;
    KeyText(Day, "ARDAY:", login, actionType, id);
    KeyText(Hour, "ARHOUR:", login, actionType, id);
    KeyText(Minute, "ARMINUTE:", login, actionType, id);
  }

  lemma LoginPatternText(login: string)
    ensures LoginPattern(login) == "ARHOUR:" + login + ":"
  {
    assert "ARHOUR" + ":" == "ARHOUR:";
  }

  // ---- Parts between colons ----

  function Parts(s: string): (parts: seq<string>)
    ensures parts != []
  {
    Split(s, COLON)
  }

  function Join(parts: seq<string>): string
    requires parts != []
  {
    if |parts| == 1 then parts[0] else parts[0] + COLON + Join(parts[1..])
  }

  lemma ContainsColon(s: string)
    ensures Contains(s, COLON) <==> ':' in s
  {
    if ':' in s {
      var i :| 0 <= i < |s| && s[i] == ':';
      assert OccursAt(s, COLON, i);
    }
    if i: nat :| i <= |s| && OccursAt(s, COLON, i) {
      OccursChar(s, COLON, i, 0);
    }
  }

  lemma OnePart(s: string)
    ensures ':' !in s <==> |Parts(s)| == 1
    ensures ':' !in s ==> Parts(s) == [s]
  {
    ContainsColon(s);
    SplitSingle(s, COLON);
    if ':' !in s { SplitWithout(s, COLON); }
  }

  /** A first part without a colon is split off. */
  lemma SplitFirst(a: string, b: string)
    requires ':' !in a
    ensures Parts(a + COLON + b) == [a] + Parts(b)
  {
    var s := a + COLON + b;
    assert s[|a|..|a| + 1] == COLON;
    assert OccursAt(s, COLON, |a|);
    forall j: nat | j < |a| ensures !OccursAt(s, COLON, j) {
      assert s[j] == a[j];
      NotOccurs(s, COLON, j, 0);
    }
    assert IndexFrom(s, COLON, 0) == Some(|a|);
    SplitAt(s, COLON, |a|);
    assert s[..|a|] == a && s[|a| + 1..] == b;
  }

  /** With a colon in it, a text is its first part, the colon and the rest. */
  lemma Cut(s: string) returns (a: string, b: string)
    requires ':' in s
    ensures s == a + COLON + b && ':' !in a
  {
    ContainsColon(s);
    SplitSingle(s, COLON);
    var i := IndexFrom(s, COLON, 0).value;
    a, b := s[..i], s[i + 1..];
    OccursChar(s, COLON, i, 0);
    forall j: nat | j < i ensures s[j] != ':' {
      assert !OccursAt(s, COLON, j);
      assert s[j..j + 1] == [s[j]];
    }
  }

  /** Splitting undoes joining. */
  lemma {:induction false} PartsOfJoin(a: string, b: string)
    ensures Parts(a + COLON + b) == Parts(a) + Parts(b)
    decreases |a|
  {
    hide Parts;
    if ':' !in a {
      OnePart(a);
      SplitFirst(a, b);
    } else {
      var x, y := Cut(a);
      assert a + COLON + b == x + COLON + (y + COLON + b);
      SplitFirst(x, y);
      SplitFirst(x, y + COLON + b);
      PartsOfJoin(y, b);
    }
  }

  /** Joining undoes splitting. */
  lemma {:induction false} JoinOfParts(s: string)
    ensures Join(Parts(s)) == s
    decreases |s|
  {
    OnePart(s);
    if ':' in s {
      var x, y := Cut(s);
      SplitFirst(x, y);
      JoinOfParts(y);
      assert Parts(s)[1..] == Parts(y);
    }
  }

  lemma PartsInjective(s: string, t: string)
    requires Parts(s) == Parts(t)
    ensures s == t
  {
    JoinOfParts(s);
    JoinOfParts(t);
  }

  lemma {:induction false} JoinOfBoth(x: seq<string>, y: seq<string>)
    requires x != [] && y != []
    ensures Join(x + y) == Join(x) + COLON + Join(y)
  {
    if |x| == 1 {
      assert (x + y)[1..] == y;
    } else {
      assert (x + y)[1..] == x[1..] + y;
      JoinOfBoth(x[1..], y);
    }
  }

  /** A text begins with p and a colon exactly when its parts begin with those of p, and go on. */
  lemma BeginsIff(p: string, s: string)
    ensures Matches(p + COLON, s) <==> Parts(p) < Parts(s)
  {
    var pattern := p + COLON;
    if Matches(pattern, s) {
      var rest := s[|pattern|..];
      assert s == p + COLON + rest;
      PartsOfJoin(p, rest);
    }
    if Parts(p) < Parts(s) {
      var rest := Parts(s)[|Parts(p)|..];
      assert Parts(s) == Parts(p) + rest;
      JoinOfParts(s);
      JoinOfParts(p);
      JoinOfBoth(Parts(p), rest);
      assert s == pattern + Join(rest);
    }
  }

  // ---- The keys ----

  lemma PrefixPart(w: Window)
    ensures Parts(w.Prefix()) == [w.Prefix()]
  {
    OnePart(w.Prefix());
  }

  lemma PrefixesDiffer(w: Window, w': Window)
    ensures w.Prefix() == w'.Prefix() <==> w == w'
  {
    assert |Day.Prefix()| == 5 && |Hour.Prefix()| == 6 && |Minute.Prefix()| == 8;
  }

  lemma PartsOfKey(w: Window, login: string, actionType: string, id: string)
    ensures Parts(QuotaKey(w, login, actionType, id)) == [w.Prefix()] + (Parts(login) + (Parts(actionType) + Parts(id)))
  {
    PrefixPart(w);
    PartsOfJoin(w.Prefix(), login + COLON + (actionType + COLON + id));
    PartsOfJoin(login, actionType + COLON + id);
    PartsOfJoin(actionType, id);
  }

  /** Round trip: the request id comes back from a quota key exactly when no part has a colon. */
  lemma KeyToArIdOfKey(w: Window, login: string, actionType: string, id: string)
    ensures KeyToArId(QuotaKey(w, login, actionType, id))
            == if ':' in login || ':' in actionType || ':' in id then None else Some(id)
  {
    PartsOfKey(w, login, actionType, id);
    OnePart(login);
    OnePart(actionType);
    OnePart(id);
  }

  lemma KeyOfPattern(w: Window, login: string, actionType: string, id: string)
    ensures QuotaKey(w, login, actionType, id) == KeyPattern(w, login, actionType) + id
  {
  }

  lemma PatternParts(w: Window, login: string, actionType: string, key: string)
    ensures Matches(KeyPattern(w, login, actionType), key) <==>
            [w.Prefix()] + (Parts(login) + Parts(actionType)) < Parts(key)
  {
    var p := w.Prefix() + COLON + (login + COLON + actionType);
    assert KeyPattern(w, login, actionType) == p + COLON;
    PrefixPart(w);
    PartsOfJoin(w.Prefix(), login + COLON + actionType);
    PartsOfJoin(login, actionType);
    BeginsIff(p, key);
  }

  /**
   Whose keys a count sees: the pattern of a login and action type finds a key exactly when it is of the
   window and the parts of its login, action type and id begin with those of the two, and go on.
   */
  lemma PatternIff(w: Window, login: string, actionType: string,
                   w': Window, login': string, actionType': string, id: string)
    ensures Matches(KeyPattern(w, login, actionType), QuotaKey(w', login', actionType', id))
            <==> w == w' && Parts(login) + Parts(actionType) < Parts(login') + (Parts(actionType') + Parts(id))
  {
    PartsOfKey(w', login', actionType', id);
    PatternParts(w, login, actionType, QuotaKey(w', login', actionType', id));
    PrefixesDiffer(w, w');
    HeadBegins(w.Prefix(), Parts(login) + Parts(actionType), w'.Prefix(),
               Parts(login') + (Parts(actionType') + Parts(id)));
  }

  lemma HeadBegins(a: string, x: seq<string>, b: string, y: seq<string>)
    ensures [a] + x < [b] + y <==> a == b && x < y
  {
    if [a] + x < [b] + y {
      assert ([a] + x)[0] == ([b] + y)[0];
      assert forall i | 0 <= i < |x| :: x[i] == ([a] + x)[i + 1] && y[i] == ([b] + y)[i + 1];
    }
  }

  /** A login and action type always find their own keys. */
  lemma PatternFindsOwn(w: Window, login: string, actionType: string, id: string)
    ensures Matches(KeyPattern(w, login, actionType), QuotaKey(w, login, actionType, id))
  {
    KeyOfPattern(w, login, actionType, id);
  }

  /** Without colons they find no others. */
  lemma PatternExact(w: Window, login: string, actionType: string,
                     w': Window, login': string, actionType': string, id: string)
    requires ':' !in login && ':' !in actionType && ':' !in login' && ':' !in actionType'
    ensures Matches(KeyPattern(w, login, actionType), QuotaKey(w', login', actionType', id))
            <==> w == w' && login == login' && actionType == actionType'
  {
    PatternIff(w, login, actionType, w', login', actionType', id);
    OnePart(login);
    OnePart(actionType);
    OnePart(login');
    OnePart(actionType');
    var found := [login', actionType'] + Parts(id);
    assert Parts(login') + (Parts(actionType') + Parts(id)) == found;
    assert [login, actionType] < found <==> login == found[0] && actionType == found[1];
  }

  /** With a colon in a login, all its requests also count against another login's quota. */
  lemma ForeignKeyMatches(w: Window, a: string, b: string, actionType: string, id: string)
    ensures Matches(KeyPattern(w, a, b), QuotaKey(w, a + COLON + b, actionType, id))
  {
    assert QuotaKey(w, a + COLON + b, actionType, id) == KeyPattern(w, a, b) + (actionType + COLON + id);
  }

  /** What follows the pattern of a login decides whether a key it finds gives a request id. */
  lemma LoginPatternIff(login: string, tail: string)
    ensures Matches(LoginPattern(login), LoginPattern(login) + tail)
    ensures KeyToArId(LoginPattern(login) + tail).Some? <==> |Parts(login)| + |Parts(tail)| == 3
  {
    assert LoginPattern(login) + tail == Hour.Prefix() + COLON + (login + COLON + tail);
    PrefixPart(Hour);
    PartsOfJoin(Hour.Prefix(), login + COLON + tail);
    PartsOfJoin(login, tail);
  }
}
