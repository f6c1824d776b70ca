/**
 Paging through a conversation's messages, server/domains/message.go:282-327 and 418-504.
 */
module History {
  import opened Wrappers
  import opened Strings
  import opened OrderedQuery
  import opened Sets

  datatype Message = Message(msgId: string, groupId: string, fromUser: string, toUser: string, updatedAt: int)

  type Store = set<Message>

  const PAGESIZE := 15

  /** buildGetMessagesCriteria: in a chat room, one's own copy of each message; else the two
      users' messages to each other. */
  predicate InConversation(m: Message, userId: string, peerId: string) {
    if Contains(peerId, "@chatroom") then
      m.groupId == peerId && (m.toUser == userId || (m.toUser == peerId && m.fromUser == userId))
    else
      m.groupId == "" && ((m.toUser == userId && m.fromUser == peerId) || (m.toUser == peerId && m.fromUser == userId))
  }

  function Conversation(db: Store, userId: string, peerId: string): set<Message> {
    set m | m in db && InConversation(m, userId, peerId)
  }

  /** Whose messages: of two users those between them, whichever sent them, and so the same from both sides. */
  lemma PrivateConversation(db: Store, a: string, b: string)
    requires !Contains(a, "@chatroom") && !Contains(b, "@chatroom")
    ensures Conversation(db, a, b) == Conversation(db, b, a)
    ensures forall m | m in db :: m in Conversation(db, a, b) <==> m.groupId == "" && {m.fromUser, m.toUser} == {a, b}
  {
    forall m | m in db ensures m in Conversation(db, a, b) <==> m.groupId == "" && {m.fromUser, m.toUser} == {a, b} {
      if {m.fromUser, m.toUser} == {a, b} {
        assert m.fromUser in {a, b} && m.toUser in {a, b} && a in {m.fromUser, m.toUser} && b in {m.fromUser, m.toUser};
      }
    }
  }

  /** In a room, the copies addressed to the user, and what the user sent to the room: never the copy of another
      member, and a message to the room only by its sender. */
  lemma RoomConversation(db: Store, user: string, room: string)
    requires Contains(room, "@chatroom")
    ensures forall m | m in Conversation(db, user, room) :: m in db && m.groupId == room
    ensures forall m | m in db && m.groupId == room && m.toUser == user :: m in Conversation(db, user, room)
    ensures forall m | m in db && m.groupId == room && m.toUser == room ::
              m in Conversation(db, user, room) <==> m.fromUser == user || room == user
    ensures forall m | m in db && m.groupId == room && m.toUser != user && m.toUser != room ::
              m !in Conversation(db, user, room)
  {
  }

  function UpdatedAt(m: Message): int { m.updatedAt }

  /** The key of the descending sort. */
  function Backwards(m: Message): int { -m.updatedAt }

  function Older(all: set<Message>, t: int): set<Message> {
    set m | m in all && m.updatedAt < t
  }

  function Newer(all: set<Message>, t: int): set<Message> {
    set m | m in all && t < m.updatedAt
  }

  function Reversed<T>(s: seq<T>): (r: seq<T>)
    ensures |r| == |s| && forall i | 0 <= i < |s| :: r[i] == s[|s| - 1 - i]
  {
    if s == [] then [] else Reversed(s[1..]) + [s[0]]
  }

  /** The swap loop that reverses a page. */
  method Reverse<T>(a: array<T>)
    modifies a
    ensures a[..] == Reversed(old(a[..]))
  {
    var i, j := 0, a.Length - 1;
    while i < j
      invariant 0 <= i <= a.Length && j == a.Length - 1 - i && i <= j + 1
      invariant forall k | 0 <= k < i || j < k < a.Length :: a[k] == old(a[a.Length - 1 - k])
      invariant forall k | i <= k <= j :: a[k] == old(a[k])
    {
      a[i], a[j] := a[j], a[i];
      i, j := i + 1, j - 1;
    }
  }

  /** The page is the last rows of all, oldest first. */
  ghost predicate IsLastPage(all: set<Message>, page: seq<Message>) {
    && NoRepeats(page) && Ascending(UpdatedAt, page) && Elements(page) <= all
    && |page| <= PAGESIZE && (Elements(page) == all || |page| == PAGESIZE)
    && forall r, x | r in all - Elements(page) && x in Elements(page) :: r.updatedAt <= x.updatedAt
  }

  lemma ReversedElements<T>(s: seq<T>)
    ensures Elements(Reversed(s)) == Elements(s)
  {
    if s != [] {
      ReversedElements(s[1..]);
      assert s == [s[0]] + s[1..];
      ElementsConcat([s[0]], s[1..]);
      ElementsSnoc(Reversed(s[1..]), s[0]);
    }
  }

  /** The newest rows in descending order, reversed, are the last page. */
  lemma ReversedAnswer(all: set<Message>, rows: seq<Message>)
    requires IsAnswer(Backwards, all, PAGESIZE, rows)
    ensures IsLastPage(all, Reversed(rows))
  {
    var page := Reversed(rows);
    ReversedElements(rows);
    forall i, j | 0 <= i < j < |page| ensures page[i].updatedAt <= page[j].updatedAt && page[i] != page[j] {
      assert Backwards(rows[|rows| - 1 - j]) <= Backwards(rows[|rows| - 1 - i]);
    }
    forall r, x | r in all - Elements(page) && x in Elements(page) ensures r.updatedAt <= x.updatedAt {
      assert Backwards(x) <= Backwards(r);
    }
  }

  /** The query in descending order, brought into ascending order in place. */
  method NewestFirstReversed(all: set<Message>) returns (page: seq<Message>)
    ensures IsLastPage(all, page)
  {
    var rows := Select(Backwards, all, PAGESIZE);
    var result := new Message[|rows|](i requires 0 <= i < |rows| => rows[i]);
    assert result[..] == rows;
    Reverse(result);
    page := result[..];
    ReversedAnswer(all, rows);
  }

  /** A page has 15 messages, or all there are. */
  lemma PageRows(all: set<Message>, page: seq<Message>)
    requires NoRepeats(page) && Elements(page) <= all && |page| <= PAGESIZE
    requires Elements(page) == all || |page| == PAGESIZE
    ensures |page| == (if |all| < 15 then |all| else 15) && forall m | m in page :: m in all
  {
    ElementsCount(page);
    SubsetCount(Elements(page), all);
    forall m | m in page ensures m in all { assert m in Elements(page); }
  }

  /** Message ids are unique in the store. */
  ghost predicate UniqueMsgIds(db: Store) {
    forall a, b | a in db && b in db && a.msgId == b.msgId :: a == b
  }

  /** GetMessagesHistories; None is its error results. */
  method GetMessagesHistories(db: Store, userId: string, peerId: string, direction: string, fromMessageId: string)
    returns (page: Option<seq<Message>>)
    requires UniqueMsgIds(db)
    ensures page.Some? <==>
              && userId != "" && peerId != "" && (direction == "new" || direction == "old")
              && (fromMessageId != "" ==> exists m :: m in db && m.msgId == fromMessageId)
    ensures page.Some? && fromMessageId == "" ==> IsLastPage(Conversation(db, userId, peerId), page.value)
    ensures page.Some? && fromMessageId != "" ==>
              forall from | from in db && from.msgId == fromMessageId ::
                if direction == "new"
                then IsAnswer(UpdatedAt, Newer(Conversation(db, userId, peerId), from.updatedAt), PAGESIZE, page.value)
                else IsLastPage(Older(Conversation(db, userId, peerId), from.updatedAt), page.value)
    ensures page.Some? ==> |page.value| <= 15 && forall m | m in page.value :: m in Conversation(db, userId, peerId)
    ensures page.Some? && fromMessageId == "" ==>
              |page.value| == if |Conversation(db, userId, peerId)| < 15 then |Conversation(db, userId, peerId)| else 15
  {
    if userId == "" || peerId == "" {
      return None;
    }
    var all := Conversation(db, userId, peerId);
    var found := None;
    if fromMessageId != "" {
      if !exists m | m in db :: m.msgId == fromMessageId {
        return None;
      }
      var m :| m in db && m.msgId == fromMessageId;
      found := Some(m);
    }
    var result;
    if direction == "new" {
      if found.Some? {
        result := Select(UpdatedAt, Newer(all, found.value.updatedAt), PAGESIZE);
      } else {
        result := NewestFirstReversed(all);
      }
    } else if direction == "old" {
      result := NewestFirstReversed(if found.Some? then Older(all, found.value.updatedAt) else all);
    } else {
      return None;
    }
    page := Some(result);
    PageRows(if found.None? then all
             else if direction == "new" then Newer(all, found.value.updatedAt)
             else Older(all, found.value.updatedAt), result);
  }

  // ---- where the pages of a walk end -------------------------------------------------

  /** The messages at most t in the order of the walk: key is UpdatedAt forward, Backwards back. */
  function UpTo(key: Message -> int, all: set<Message>, t: int): set<Message> {
    set m | m in all && key(m) <= t
  }

  function Beyond(key: Message -> int, all: set<Message>, t: int): set<Message> {
    set m | m in all && t < key(m)
  }

  /** Some message has exactly n messages up to it, those of its own time included. */
  ghost predicate CutAt(key: Message -> int, all: set<Message>, n: nat) {
    exists m :: m in all && |UpTo(key, all, key(m))| == n
  }

  /**
   No group of messages of one time straddles a multiple of the page size. This is about the stored
   times alone.
   */
  ghost predicate Tiles(key: Message -> int, all: set<Message>) {
    forall n: nat | 0 < n < |all| && n % PAGESIZE == 0 :: CutAt(key, all, n)
  }

  /** page has the first messages of all. */
  ghost predicate IsFirst(key: Message -> int, all: set<Message>, page: set<Message>) {
    && page <= all && |page| <= PAGESIZE && (page == all || |page| == PAGESIZE)
    && forall r, x | r in all - page && x in page :: key(x) <= key(r)
  }

  /** t is the greatest key of the page. */
  ghost predicate IsEnd(key: Message -> int, page: set<Message>, t: int) {
    (forall x | x in page :: key(x) <= t) && exists x :: x in page && key(x) == t
  }

  lemma SameSize<T>(a: set<T>, b: set<T>)
    requires |a| == |b| && (a <= b || b <= a)
    ensures a == b
  {
    if a < b { SmallerSet(a, b); }
    if b < a { SmallerSet(b, a); }
  }

  /** What a cut separates is the page, whatever order the database gave to ties. */
  lemma CutIsPage(key: Message -> int, all: set<Message>, page: set<Message>, t: int)
    requires IsFirst(key, all, page) && |UpTo(key, all, t)| == |page|
    ensures UpTo(key, all, t) == page
  {
    var cut := UpTo(key, all, t);
    assert forall a, b | a in cut - page && b in page - cut :: key(b) <= key(a) <= t < key(b);
    assert cut <= page || page <= cut;
    SameSize(cut, page);
  }

  lemma UpToSplits(key: Message -> int, all: set<Message>, t: int)
    ensures |UpTo(key, all, t)| + |Beyond(key, all, t)| == |all|
  {
    assert all == UpTo(key, all, t) + Beyond(key, all, t);
  }

  lemma CutBeyond(key: Message -> int, all: set<Message>, t: int, u: int)
    requires t <= u
    ensures |UpTo(key, all, u)| == |UpTo(key, all, t)| + |UpTo(key, Beyond(key, all, t), u)|
  {
    assert UpTo(key, all, u) == UpTo(key, all, t) + UpTo(key, Beyond(key, all, t), u);
  }

  /** Behind a clean page end, the cuts are those of what is left. */
  lemma CutsShift(key: Message -> int, all: set<Message>, t: int, n: nat)
    requires n > 0
    ensures CutAt(key, Beyond(key, all, t), n) <==> CutAt(key, all, |UpTo(key, all, t)| + n)
  {
    var rest := Beyond(key, all, t);
    if m :| m in rest && |UpTo(key, rest, key(m))| == n {
      CutBeyond(key, all, t, key(m));
    }
    if m :| m in all && |UpTo(key, all, key(m))| == |UpTo(key, all, t)| + n {
      if key(m) <= t {
        SubsetCount(UpTo(key, all, key(m)), UpTo(key, all, t));
      } else {
        CutBeyond(key, all, t, key(m));
        assert m in rest;
      }
    }
  }

  /** The page ends cleanly exactly if there is a cut after it, or nothing is left. */
  lemma CleanIff(key: Message -> int, all: set<Message>, page: set<Message>, t: int)
    requires IsFirst(key, all, page) && IsEnd(key, page, t)
    ensures UpTo(key, all, t) == page <==> page == all || CutAt(key, all, PAGESIZE)
  {
    var last :| last in page && key(last) == t;
    if page != all && CutAt(key, all, PAGESIZE) {
      var m :| m in all && |UpTo(key, all, key(m))| == PAGESIZE;
      CutIsPage(key, all, page, key(m));
      assert page <= UpTo(key, all, t) <= UpTo(key, all, key(m));
    }
  }

  lemma TilesStep(key: Message -> int, all: set<Message>, page: set<Message>, t: int)
    requires IsFirst(key, all, page) && IsEnd(key, page, t)
    ensures Tiles(key, all) <==> UpTo(key, all, t) == page && Tiles(key, Beyond(key, all, t))
  {
    var rest := Beyond(key, all, t);
    CleanIff(key, all, page, t);
    UpToSplits(key, all, t);
    if page == all {
      assert |all| <= PAGESIZE && rest == {};
    } else {
      SmallerSet(page, all);
      if UpTo(key, all, t) == page {
        forall n: nat | 0 < n && n % PAGESIZE == 0
          ensures CutAt(key, rest, n) <==> CutAt(key, all, PAGESIZE + n)
        {
          CutsShift(key, all, t, n);
        }
        TilesShift(key, all, rest);
      }
    }
  }

  lemma TilesShift(key: Message -> int, all: set<Message>, rest: set<Message>)
    requires |all| == PAGESIZE + |rest| && (rest != {} ==> CutAt(key, all, PAGESIZE))
    requires forall n: nat | 0 < n && n % PAGESIZE == 0 :: CutAt(key, rest, n) <==> CutAt(key, all, PAGESIZE + n)
    ensures Tiles(key, all) <==> Tiles(key, rest)
  {
    if Tiles(key, rest) {
      forall n: nat | 0 < n < |all| && n % PAGESIZE == 0 ensures CutAt(key, all, n) {
        if n > PAGESIZE {
          assert CutAt(key, rest, n - PAGESIZE) <==> CutAt(key, all, PAGESIZE + (n - PAGESIZE));
        }
      }
    }
    if Tiles(key, all) {
      forall n: nat | 0 < n < |rest| && n % PAGESIZE == 0 ensures CutAt(key, rest, n) {
        assert CutAt(key, all, PAGESIZE + n);
      }
    }
  }

  // ---- distinct times, and one time --------------------------------------------------

  ghost predicate DistinctTimes(all: set<Message>) {
    forall a, b | a in all && b in all && a != b :: a.updatedAt != b.updatedAt
  }

  lemma {:induction false} DistinctCut(key: Message -> int, all: set<Message>, n: nat) returns (m: Message)
    requires forall a, b | a in all && b in all && a != b :: key(a) != key(b)
    requires 0 < n <= |all|
    ensures m in all && |UpTo(key, all, key(m))| == n
    decreases |all|
  {
    var last := Earliest(x => -key(x), all);
    assert forall x | x in all :: -key(last) <= -key(x);
    if n == |all| {
      m := last;
      assert UpTo(key, all, key(m)) == all;
    } else {
      var rest := all - {last};
      m := DistinctCut(key, rest, n);
      assert UpTo(key, rest, key(m)) == UpTo(key, all, key(m));
    }
  }

  lemma DistinctTimesTile(key: Message -> int, all: set<Message>)
    requires forall a, b | a in all && b in all && a != b :: key(a) != key(b)
    ensures Tiles(key, all)
  {
    forall n: nat | 0 < n < |all| && n % PAGESIZE == 0 ensures CutAt(key, all, n) {
      var m := DistinctCut(key, all, n);
    }
  }

  /** listing lists the messages in order. */
  ghost predicate IsListing(all: set<Message>, listing: seq<Message>) {
    NoRepeats(listing) && Ascending(UpdatedAt, listing) && Elements(listing) == all
  }

  /** More messages of one time than a page holds never tile. */
  lemma OneTimeNeverTiles(key: Message -> int, all: set<Message>)
    requires |all| > PAGESIZE && forall a, b | a in all && b in all :: key(a) == key(b)
    ensures !Tiles(key, all)
  {
    assert forall m | m in all :: UpTo(key, all, key(m)) == all;
    assert !CutAt(key, all, PAGESIZE);
  }

  function Id(n: nat): (id: string)
    ensures |id| == n
  {
    if n == 0 then "" else Id(n - 1) + "m"
  }

  /** n messages of one time from user u to user v. */
  function Burst(n: nat): (db: Store)
    ensures |db| == n
    ensures forall m | m in db :: 0 < |m.msgId| <= n && m == Message(m.msgId, "", "u", "v", 0)
    ensures UniqueMsgIds(db)
  {
    if n == 0 then {} else Burst(n - 1) + {Message(Id(n), "", "u", "v", 0)}
  }

  lemma BurstStored(n: nat)
    ensures StoreIds(Burst(n)) && Conversation(Burst(n), "u", "v") == Burst(n)
  {
    assert !Contains("v", "@chatroom");
    assert forall m | m in Burst(n) :: InConversation(m, "u", "v");
  }

  /**
   Sixteen or more messages of one time: whatever order the database gives them, the newest page has
   fifteen, nothing is older than it, and so a walk never gets the others.
   */
  lemma TiedLost(n: nat, page: seq<Message>)
    requires n > PAGESIZE && IsLastPage(Conversation(Burst(n), "u", "v"), page)
    ensures StoreIds(Burst(n)) && |Conversation(Burst(n), "u", "v")| == n
    ensures |page| == PAGESIZE && Older(Conversation(Burst(n), "u", "v"), page[0].updatedAt) == {}
    ensures !Tiles(Backwards, Conversation(Burst(n), "u", "v")) && !Tiles(UpdatedAt, Conversation(Burst(n), "u", "v"))
  {
    BurstStored(n);
    OneTimePage(Burst(n), page);
    OneTimeNeverTiles(Backwards, Burst(n));
    OneTimeNeverTiles(UpdatedAt, Burst(n));
  }

  /** The last page of more messages of one time than it holds has no page before it. */
  lemma OneTimePage(all: set<Message>, page: seq<Message>)
    requires |all| > PAGESIZE && forall a, b | a in all && b in all :: a.updatedAt == b.updatedAt
    requires IsLastPage(all, page)
    ensures |page| == PAGESIZE && Older(all, page[0].updatedAt) == {}
  {
    ElementsCount(page);
    assert page[0] in Elements(page);
  }

  ghost predicate StoreIds(db: Store) {
    UniqueMsgIds(db) && forall m | m in db :: m.msgId != ""
  }

  /** The pages all have messages, and all but the last are full. */
  ghost predicate FullPages(pages: seq<seq<Message>>) {
    && (forall i | 0 <= i < |pages| :: pages[i] != [] && |pages[i]| <= PAGESIZE)
    && forall i | 0 <= i < |pages| - 1 :: |pages[i]| == PAGESIZE
  }

  /** What a walk through all has brought, joined in order: everything iff the pages tile. */
  ghost predicate Walked(key: Message -> int, all: set<Message>, joined: seq<Message>) {
    && NoRepeats(joined) && Ascending(UpdatedAt, joined) && Elements(joined) <= all
    && (Elements(joined) == all <==> Tiles(key, all))
  }

  lemma NothingWalked(key: Message -> int)
    ensures Walked(key, {}, [])
  {
  }

  // ---- walking back ------------------------------------------------------------------

  /** The pages' messages from the oldest page on. */
  function Joined(pages: seq<seq<Message>>): seq<Message> {
    if pages == [] then [] else Joined(pages[1..]) + pages[0]
  }

  /** A last page is the first one of the walk back. */
  lemma LastPageEnds(all: set<Message>, page: seq<Message>)
    requires IsLastPage(all, page) && page != []
    ensures IsFirst(Backwards, all, Elements(page)) && IsEnd(Backwards, Elements(page), -page[0].updatedAt)
    ensures Older(all, page[0].updatedAt) == Beyond(Backwards, all, -page[0].updatedAt)
  {
    ElementsCount(page);
    assert page[0] in Elements(page);
    forall x | x in Elements(page) ensures page[0].updatedAt <= x.updatedAt {
      var i :| 0 <= i < |page| && page[i] == x;
      assert i > 0 ==> UpdatedAt(page[0]) <= UpdatedAt(page[i]);
    }
  }

  lemma ConcatOrdered(before: seq<Message>, after: seq<Message>)
    requires NoRepeats(before) && Ascending(UpdatedAt, before) && NoRepeats(after) && Ascending(UpdatedAt, after)
    requires forall x, y | x in Elements(before) && y in Elements(after) :: x.updatedAt < y.updatedAt
    ensures NoRepeats(before + after) && Ascending(UpdatedAt, before + after)
  {
    forall i, j | 0 <= i < |before| && 0 <= j < |after| ensures before[i].updatedAt < after[j].updatedAt {
      assert before[i] in Elements(before) && after[j] in Elements(after);
    }
  }

  /** Parts of two halves of a whole make it up iff each is its half. */
  lemma PartsFill(key: Message -> int, all: set<Message>, t: int, page: set<Message>, rest: set<Message>)
    requires page <= UpTo(key, all, t) && rest <= Beyond(key, all, t)
    ensures page + rest <= all && (page + rest == all <==> UpTo(key, all, t) == page && rest == Beyond(key, all, t))
  {
    forall x | x in all ensures x in page + rest <==> if key(x) <= t then x in page else x in rest {}
  }

  /** The page and what a walk through the rest brings. */
  lemma PageAndRest(key: Message -> int, all: set<Message>, page: set<Message>, t: int, rest: set<Message>)
    requires IsFirst(key, all, page) && IsEnd(key, page, t) && rest <= Beyond(key, all, t)
    requires rest == Beyond(key, all, t) <==> Tiles(key, Beyond(key, all, t))
    ensures page + rest <= all && (page + rest == all <==> Tiles(key, all))
  {
    TilesStep(key, all, page, t);
    PartsFill(key, all, t, page, rest);
  }

  lemma BackTiles(all: set<Message>, page: seq<Message>, older: seq<Message>)
    requires IsLastPage(all, page) && page != []
    requires Walked(Backwards, Older(all, page[0].updatedAt), older)
    ensures Elements(older + page) <= all && (Elements(older + page) == all <==> Tiles(Backwards, all))
  {
    hide IsFirst, IsEnd, Tiles, Beyond, Older, IsLastPage, Elements, NoRepeats, Ascending;
    LastPageEnds(all, page);
    PageAndRest(Backwards, all, Elements(page), -page[0].updatedAt, Elements(older));
    ElementsConcat(older, page);
    PlusCommutes(Elements(older), Elements(page));
  }

  lemma PlusCommutes<T>(a: set<T>, b: set<T>)
    ensures a + b == b + a
  {
  }

  lemma BackOrder(all: set<Message>, page: seq<Message>, older: seq<Message>)
    requires IsLastPage(all, page) && page != []
    requires NoRepeats(older) && Ascending(UpdatedAt, older) && Elements(older) <= Older(all, page[0].updatedAt)
    ensures NoRepeats(older + page) && Ascending(UpdatedAt, older + page)
  {
    LastPageEnds(all, page);
    assert forall x | x in Elements(page) :: Backwards(x) <= -page[0].updatedAt;
    ConcatOrdered(older, page);
  }

  lemma BackStep(all: set<Message>, page: seq<Message>, older: seq<Message>)
    requires IsLastPage(all, page) && page != []
    requires Walked(Backwards, Older(all, page[0].updatedAt), older)
    ensures Walked(Backwards, all, older + page)
  {
    BackTiles(all, page, older);
    BackOrder(all, page, older);
  }

  /** The messages a walk back starts from: all of the conversation, or what is older than a message. */
  ghost function BackFrom(db: Store, userId: string, peerId: string, from: Option<Message>): set<Message> {
    var all := Conversation(db, userId, peerId);
    if from.None? then all else Older(all, from.value.updatedAt)
  }

  /** Walking back page by page, each time from the first message of the page before, ends, and
      gives full consecutive pages, each message once, in order. Nothing is left out if and only
      if no messages of one time straddle a multiple of the page size. */
  method WalkBack(db: Store, userId: string, peerId: string, from: Option<Message>) returns (pages: seq<seq<Message>>)
    requires StoreIds(db) && userId != "" && peerId != "" && (from.Some? ==> from.value in db)
    ensures var all := BackFrom(db, userId, peerId, from);
            && Walked(Backwards, all, Joined(pages))
            && (forall p | p in pages :: p != [] && p[0] in all)
            && forall listing | DistinctTimes(all) && IsListing(all, listing) :: Joined(pages) == listing
    ensures FullPages(pages)
    decreases |BackFrom(db, userId, peerId, from)|
  {
    ghost var all := BackFrom(db, userId, peerId, from);
    var answer := GetMessagesHistories(db, userId, peerId, "old", if from.Some? then from.value.msgId else "");
    var page := answer.value;
    if page == [] {
      pages := [];
      assert all == {};
      NothingWalked(Backwards);
    } else {
      var t := page[0].updatedAt;
      assert page[0] in Elements(page);
      assert Older(all, t) == BackFrom(db, userId, peerId, Some(page[0]));
      assert page[0] in all && page[0] !in Older(all, t);
      SmallerSet(Older(all, t), all);
      var older := WalkBack(db, userId, peerId, Some(page[0]));
      pages := [page] + older;
      assert pages[1..] == older;
      BackStep(all, page, Joined(older));
      FullPagesCons(all, page, older);
    }
    DistinctListing(Backwards, all, Joined(pages));
  }

  /** With distinct times nothing is left out, and there is one listing. */
  lemma DistinctListing(key: Message -> int, all: set<Message>, joined: seq<Message>)
    requires key == UpdatedAt || key == Backwards
    requires Walked(key, all, joined)
    ensures forall listing | DistinctTimes(all) && IsListing(all, listing) :: joined == listing
  {
    if DistinctTimes(all) {
      DistinctTimesTile(key, all);
      forall listing | IsListing(all, listing) ensures joined == listing {
        OneOrder(UpdatedAt, joined, listing);
      }
    }
  }

  /** A page that is not full leaves nothing older, so no page comes after it. */
  lemma FullPagesCons(all: set<Message>, page: seq<Message>, older: seq<seq<Message>>)
    requires IsLastPage(all, page) && page != [] && FullPages(older)
    requires forall p | p in older :: p != [] && p[0] in Older(all, page[0].updatedAt)
    ensures FullPages([page] + older)
  {
    LastPageEnds(all, page);
    if older != [] {
      assert older[0] in older && older[0][0] in all;
      assert Backwards(older[0][0]) > -page[0].updatedAt;
    }
  }

  // ---- walking forward ---------------------------------------------------------------

  function Flat(pages: seq<seq<Message>>): seq<Message> {
    if pages == [] then [] else pages[0] + Flat(pages[1..])
  }

  lemma AnswerEnds(all: set<Message>, page: seq<Message>)
    requires IsAnswer(UpdatedAt, all, PAGESIZE, page) && page != []
    ensures IsFirst(UpdatedAt, all, Elements(page)) && IsEnd(UpdatedAt, Elements(page), page[|page| - 1].updatedAt)
    ensures Newer(all, page[|page| - 1].updatedAt) == Beyond(UpdatedAt, all, page[|page| - 1].updatedAt)
  {
    var last := page[|page| - 1];
    ElementsCount(page);
    assert last in Elements(page);
    forall x | x in Elements(page) ensures x.updatedAt <= last.updatedAt {
      var i :| 0 <= i < |page| && page[i] == x;
      assert i < |page| - 1 ==> UpdatedAt(page[i]) <= UpdatedAt(last);
    }
  }

  lemma ForwardTiles(all: set<Message>, page: seq<Message>, newer: seq<Message>)
    requires IsAnswer(UpdatedAt, all, PAGESIZE, page) && page != []
    requires Walked(UpdatedAt, Newer(all, page[|page| - 1].updatedAt), newer)
    ensures Elements(page + newer) <= all && (Elements(page + newer) == all <==> Tiles(UpdatedAt, all))
  {
    AnswerEnds(all, page);
    PageAndRest(UpdatedAt, all, Elements(page), page[|page| - 1].updatedAt, Elements(newer));
    ElementsConcat(page, newer);
  }

  lemma ForwardOrder(all: set<Message>, page: seq<Message>, newer: seq<Message>)
    requires IsAnswer(UpdatedAt, all, PAGESIZE, page) && page != []
    requires NoRepeats(newer) && Ascending(UpdatedAt, newer)
    requires Elements(newer) <= Newer(all, page[|page| - 1].updatedAt)
    ensures NoRepeats(page + newer) && Ascending(UpdatedAt, page + newer)
  {
    AnswerEnds(all, page);
    assert forall x | x in Elements(page) :: UpdatedAt(x) <= page[|page| - 1].updatedAt;
    ConcatOrdered(page, newer);
  }

  lemma ForwardStep(all: set<Message>, page: seq<Message>, newer: seq<Message>)
    requires IsAnswer(UpdatedAt, all, PAGESIZE, page) && page != []
    requires Walked(UpdatedAt, Newer(all, page[|page| - 1].updatedAt), newer)
    ensures Walked(UpdatedAt, all, page + newer)
  {
    ForwardTiles(all, page, newer);
    ForwardOrder(all, page, newer);
  }

  lemma FullPagesForward(all: set<Message>, page: seq<Message>, newer: seq<seq<Message>>)
    requires IsAnswer(UpdatedAt, all, PAGESIZE, page) && page != [] && FullPages(newer)
    requires forall p | p in newer :: p != [] && p[0] in Newer(all, page[|page| - 1].updatedAt)
    ensures FullPages([page] + newer)
  {
    AnswerEnds(all, page);
    if newer != [] {
      assert newer[0] in newer && newer[0][0] in all;
      assert UpdatedAt(newer[0][0]) > page[|page| - 1].updatedAt;
    }
  }

  /** Walking forward from a message, each time from the last message of the page before: as back. */
  method WalkForward(db: Store, userId: string, peerId: string, from: Message) returns (pages: seq<seq<Message>>)
    requires StoreIds(db) && userId != "" && peerId != "" && from in db
    ensures var all := Newer(Conversation(db, userId, peerId), from.updatedAt);
            && Walked(UpdatedAt, all, Flat(pages))
            && (forall p | p in pages :: p != [] && p[0] in all)
            && forall listing | DistinctTimes(all) && IsListing(all, listing) :: Flat(pages) == listing
    ensures FullPages(pages)
    decreases |Newer(Conversation(db, userId, peerId), from.updatedAt)|
  {
    ghost var all := Newer(Conversation(db, userId, peerId), from.updatedAt);
    var answer := GetMessagesHistories(db, userId, peerId, "new", from.msgId);
    var page := answer.value;
    if page == [] {
      pages := [];
      assert all == {};
      NothingWalked(UpdatedAt);
    } else {
      var last := page[|page| - 1];
      assert last in Elements(page) && page[0] in Elements(page);
      assert Newer(all, last.updatedAt) == Newer(Conversation(db, userId, peerId), last.updatedAt);
      assert last in all && last !in Newer(all, last.updatedAt);
      SmallerSet(Newer(all, last.updatedAt), all);
      var newer := WalkForward(db, userId, peerId, last);
      pages := [page] + newer;
      assert pages[1..] == newer;
      ForwardStep(all, page, Flat(newer));
      FullPagesForward(all, page, newer);
    }
    DistinctListing(UpdatedAt, all, Flat(pages));
  }
}
