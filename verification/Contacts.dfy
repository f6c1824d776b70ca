/**
 Saving the contacts that bots report, in batches: processUsers and saveChatUsers
 (server/web/contacts.go:136-247).
 */
module Contacts {
  import opened ChatUsers

  /** ProcessUserInfo: the bot that reported the user. */
  datatype Info = Info(botId: string, user: ChatUser)

  datatype Contact = Contact(botId: string, chatUserId: string)

  datatype Db = Db(users: Table, contacts: set<Contact>)

  function Users(infos: seq<Info>): (users: seq<ChatUser>)
    ensures |users| == |infos|
  {
    seq(|infos|, i requires 0 <= i < |infos| => infos[i].user)
  }

  /**
   The contacts of a batch: user names are looked up under one client type, that of the batch's
   first user.
   */
  function Linked(t: Table, ctype: string, infos: seq<Info>): set<Contact> {
    set i | i in infos && UniqueKey(ctype, i.user.userName) in t ::
      Contact(i.botId, t[UniqueKey(ctype, i.user.userName)].chatUserId)
  }

  /** saveChatUsers, when its transaction succeeds. */
  function SaveBatch(db: Db, infos: seq<Info>): Db
    requires infos != []
  {
    var t := UpsertAll(db.users, Users(infos));
    Db(t, db.contacts + Linked(t, infos[0].user.ctype, infos))
  }

  predicate OneType(infos: seq<Info>, ctype: string) {
    forall i | i in infos :: i.user.ctype == ctype
  }

  lemma UsersConcat(a: seq<Info>, b: seq<Info>)
    ensures Users(a + b) == Users(a) + Users(b)
  {
  }

  /** A user that occurs has a row, and keeps the row's id whatever is saved later. */
  lemma IdStays(t: Table, a: seq<ChatUser>, b: seq<ChatUser>, k: UniqueKey)
    requires k in UpsertAll(t, a)
    ensures k in UpsertAll(t, a + b) && UpsertAll(t, a + b)[k].chatUserId == UpsertAll(t, a)[k].chatUserId
  {
    UpsertConcat(t, a, b);
    UpsertedRow(UpsertAll(t, a), b, k);
  }

  lemma {:induction false} Occurs(t: Table, users: seq<ChatUser>, u: ChatUser)
    requires u in users
    ensures u.Key() in UpsertAll(t, users)
  {
    var init, last := users[..|users| - 1], users[|users| - 1];
    if u != last {
      assert u in init;
      Occurs(t, init, u);
    }
  }

  lemma LinkedEarlier(t: Table, ctype: string, a: seq<Info>, b: seq<Info>)
    requires OneType(a, ctype)
    ensures Linked(UpsertAll(t, Users(a + b)), ctype, a) == Linked(UpsertAll(t, Users(a)), ctype, a)
  {
    UsersConcat(a, b);
    forall i | i in a
      ensures var k := UniqueKey(ctype, i.user.userName);
              && k in UpsertAll(t, Users(a)) && k in UpsertAll(t, Users(a + b))
              && UpsertAll(t, Users(a + b))[k].chatUserId == UpsertAll(t, Users(a))[k].chatUserId
    {
      var j :| 0 <= j < |a| && a[j] == i;
      assert Users(a)[j] == i.user;
      Occurs(t, Users(a), i.user);
      IdStays(t, Users(a), Users(b), i.user.Key());
    }
  }

  lemma LinkedUnion(t: Table, ctype: string, a: seq<Info>, b: seq<Info>)
    ensures Linked(t, ctype, a + b) == Linked(t, ctype, a) + Linked(t, ctype, b)
  {
  }

  lemma OneTypeParts(a: seq<Info>, b: seq<Info>, ctype: string)
    requires OneType(a + b, ctype)
    ensures OneType(a, ctype) && OneType(b, ctype)
  {
    forall i | i in a || i in b ensures i.user.ctype == ctype {
      assert i in a + b;
    }
  }

  /** With one client type, saving two batches is saving them as one. */
  lemma SaveConcat(db: Db, a: seq<Info>, b: seq<Info>, ctype: string)
    requires a != [] && b != [] && OneType(a + b, ctype)
    ensures SaveBatch(SaveBatch(db, a), b) == SaveBatch(db, a + b)
  {
    OneTypeParts(a, b, ctype);
    assert a[0] in a && b[0] in b && (a + b)[0] == a[0];
    UsersConcat(a, b);
    UpsertConcat(db.users, Users(a), Users(b));
    LinkedEarlier(db.users, ctype, a, b);
    LinkedUnion(UpsertAll(db.users, Users(a + b)), ctype, a, b);
  }

  // ---- Whom a batch links ----

  /** The bot of each user, with the user's own row. */
  function Own(t: Table, infos: seq<Info>): set<Contact>
    requires forall i | i in infos :: i.user.Key() in t
  {
    set i | i in infos :: Contact(i.botId, t[i.user.Key()].chatUserId)
  }

  ghost predicate DistinctIds(t: Table) {
    forall k, l | k in t && l in t && k != l :: t[k].chatUserId != t[l].chatUserId
  }

  function Ids(t: Table): set<string> {
    set k | k in t :: t[k].chatUserId
  }

  function NewIds(users: seq<ChatUser>): set<string> {
    set u | u in users :: u.chatUserId
  }

  /** The users bring ids of their own, as NewChatUser gives them. */
  ghost predicate FreshIds(t: Table, users: seq<ChatUser>) {
    && Ids(t) !! NewIds(users)
    && forall i, j | 0 <= i < j < |users| :: users[i].chatUserId != users[j].chatUserId
  }

  lemma UpsertIds(t: Table, u: ChatUser)
    requires DistinctIds(t) && u.chatUserId !in Ids(t)
    ensures DistinctIds(Upsert(t, u)) && Ids(Upsert(t, u)) <= Ids(t) + {u.chatUserId}
  {
    var t' := Upsert(t, u);
    forall k | k in t' ensures t'[k].chatUserId == if k in t then t[k].chatUserId else u.chatUserId {}
    assert forall k | k in t :: t[k].chatUserId in Ids(t);
  }

  lemma {:induction false} IdsStayDistinct(t: Table, users: seq<ChatUser>)
    requires DistinctIds(t) && FreshIds(t, users)
    ensures DistinctIds(UpsertAll(t, users)) && Ids(UpsertAll(t, users)) <= Ids(t) + NewIds(users)
  {
    if users != [] {
      var init, last := users[..|users| - 1], users[|users| - 1];
      assert users == init + [last];
      assert NewIds(users) == NewIds(init) + {last.chatUserId};
      assert last.chatUserId !in NewIds(init);
      IdsStayDistinct(t, init);
      UpsertIds(UpsertAll(t, init), last);
    }
  }

  /** A batch's users all have rows in the end. */
  lemma AllOccur(t: Table, infos: seq<Info>)
    ensures forall i | i in infos :: i.user.Key() in UpsertAll(t, Users(infos))
  {
    forall i | i in infos ensures i.user.Key() in UpsertAll(t, Users(infos)) {
      var j :| 0 <= j < |infos| && infos[j] == i;
      assert Users(infos)[j] == i.user;
      Occurs(t, Users(infos), i.user);
    }
  }

  /** What becomes of a user of another client type than the looked-up one. */
  lemma OtherTypeLink(t: Table, ctype: string, infos: seq<Info>, i: Info)
    requires DistinctIds(t) && i in infos && i.user.Key() in t && i.user.ctype != ctype
    ensures Contact(i.botId, t[i.user.Key()].chatUserId) !in Linked(t, ctype, infos)
    ensures var k := UniqueKey(ctype, i.user.userName);
            k in t ==> Contact(i.botId, t[k].chatUserId) in Linked(t, ctype, infos)
  {
    forall j | j in infos && UniqueKey(ctype, j.user.userName) in t
      ensures t[UniqueKey(ctype, j.user.userName)].chatUserId != t[i.user.Key()].chatUserId
    {
      assert UniqueKey(ctype, j.user.userName) != i.user.Key();
    }
  }

  /**
   A batch links the bot of each of its users to the user's own row, and nothing else, exactly when
   all its users are of one client type.
   */
  lemma LinkedIsOwnIff(db: Db, infos: seq<Info>)
    requires infos != [] && DistinctIds(db.users) && FreshIds(db.users, Users(infos))
    ensures forall i | i in infos :: i.user.Key() in SaveBatch(db, infos).users
    ensures Linked(SaveBatch(db, infos).users, infos[0].user.ctype, infos) == Own(SaveBatch(db, infos).users, infos)
            <==> OneType(infos, infos[0].user.ctype)
  {
    var t, ctype := SaveBatch(db, infos).users, infos[0].user.ctype;
    AllOccur(db.users, infos);
    IdsStayDistinct(db.users, Users(infos));
    if i :| i in infos && i.user.ctype != ctype {
      OtherTypeLink(t, ctype, infos, i);
      assert Contact(i.botId, t[i.user.Key()].chatUserId) in Own(t, infos);
    } else {
      OwnOfOneType(t, ctype, infos);
    }
  }

  lemma OwnOfOneType(t: Table, ctype: string, infos: seq<Info>)
    requires OneType(infos, ctype) && forall i | i in infos :: i.user.Key() in t
    ensures Linked(t, ctype, infos) == Own(t, infos)
  {
    assert forall i | i in infos :: i.user.Key() == UniqueKey(ctype, i.user.userName);
  }

  /**
   Two users of two client types, saved together: the second one's bot is not linked to it, and if their
   names are the same it is linked to the first one. Saved apart, it is linked.
   */
  lemma MixedTypesMislink(a: Info, b: Info)
    requires a.user.ctype != b.user.ctype && a.user.chatUserId != b.user.chatUserId
    ensures var contacts := SaveBatch(Db(map[], {}), [a, b]).contacts;
            && Contact(b.botId, b.user.chatUserId) !in contacts
            && (a.user.userName == b.user.userName ==> Contact(b.botId, a.user.chatUserId) in contacts)
    ensures Contact(b.botId, b.user.chatUserId) in SaveBatch(SaveBatch(Db(map[], {}), [a]), [b]).contacts
  {
    assert Users([a, b]) == [a.user, b.user] && Users([a]) == [a.user] && Users([b]) == [b.user];
    assert [a.user, b.user][..1] == [a.user] && [a.user][..0] == [] && [b.user][..0] == [];
    var t1: Table := map[a.user.Key() := a.user];
    assert UpsertAll(map[], [a.user]) == t1;
    var t: Table := map[a.user.Key() := a.user, b.user.Key() := b.user];
    assert UpsertAll(map[], [a.user, b.user]) == t && UpsertAll(t1, [b.user]) == t;
    assert b in [b] && b in [a, b] && [a, b][0] == a;
    OtherTypeLink(t, a.user.ctype, [a, b], b);
  }

  // ---- The loop ----

  /** One turn of the loop; saved says whether a save in that turn would succeed. */
  datatype Event = Received(info: Info, saved: bool) | Timeout(saved: bool)

  datatype Batch = Batch(infos: seq<Info>, saved: bool)

  /** Everything taken from the pipe. */
  function Stream(events: seq<Event>): seq<Info> {
    if events == [] then []
    else
      var last := events[|events| - 1];
      Stream(events[..|events| - 1]) + Taken(last)
  }

  function Flushed(batches: seq<Batch>): seq<Info> {
    if batches == [] then [] else Flushed(batches[..|batches| - 1]) + batches[|batches| - 1].infos
  }

  const SECTION_LENGTH := 1000

  predicate Sized(batches: seq<Batch>) {
    forall b | b in batches :: 1 <= |b.infos| <= SECTION_LENGTH + 1
  }

  /** The database after the batches; one whose save fails leaves nothing behind. */
  function Saved(db: Db, batches: seq<Batch>): Db
    requires Sized(batches)
  {
    if batches == [] then db
    else
      var last := batches[|batches| - 1];
      assert last in batches;
      var before := Saved(db, batches[..|batches| - 1]);
      if last.saved then SaveBatch(before, last.infos) else before
  }

  function Taken(e: Event): seq<Info> {
    if e.Received? then [e.info] else []
  }

  lemma {:induction false} FlushedConcat(a: seq<Batch>, b: seq<Batch>)
    ensures Flushed(a + b) == Flushed(a) + Flushed(b)
  {
    if b == [] {
      assert a + b == a;
    } else {
      assert (a + b)[..|a + b| - 1] == a + b[..|b| - 1];
      FlushedConcat(a, b[..|b| - 1]);
    }
  }

  lemma {:induction false} SavedConcat(db: Db, a: seq<Batch>, b: seq<Batch>)
    requires Sized(a) && Sized(b)
    ensures Sized(a + b) && Saved(db, a + b) == Saved(Saved(db, a), b)
  {
    if b == [] {
      assert a + b == a;
    } else {
      var last := b[|b| - 1];
      assert last in b;
      assert (a + b)[..|a + b| - 1] == a + b[..|b| - 1];
      SavedConcat(db, a, b[..|b| - 1]);
    }
  }

  lemma StreamSnoc(events: seq<Event>, n: nat)
    requires n < |events|
    ensures Stream(events[..n + 1]) == Stream(events[..n]) + Taken(events[n])
  {
    assert events[..n + 1][..n] == events[..n];
  }

  /** How many infos were received in the first n turns. */
  function ReceivedIn(events: seq<Event>, n: nat): nat
    requires n <= |events|
  {
    if n == 0 then 0 else ReceivedIn(events, n - 1) + if events[n - 1].Received? then 1 else 0
  }

  /** The stream holds every info received, each once, in the order they came. */
  lemma {:induction false} StreamIs(events: seq<Event>, n: nat)
    requires n <= |events|
    ensures |Stream(events[..n])| == ReceivedIn(events, n)
    ensures forall i | 0 <= i < n && events[i].Received? ::
              && ReceivedIn(events, i) < ReceivedIn(events, n)
              && Stream(events[..n])[ReceivedIn(events, i)] == events[i].info
  {
    if n > 0 {
      StreamIs(events, n - 1);
      StreamSnoc(events, n - 1);
    }
  }

  lemma SavedOne(db: Db, b: Batch)
    requires Sized([b])
    ensures Flushed([b]) == b.infos
    ensures b in [b] && Saved(db, [b]) == if b.saved then SaveBatch(db, b.infos) else db
  {
    assert [b][..0] == [];
  }

  class Web {
    const chatusers: ChatUserTable
    var contacts: set<Contact>

    constructor ()
      ensures S() == Db(map[], {}) && fresh(chatusers)
    {
      var table := new ChatUserTable();
      chatusers, contacts := table, {};
    }

    function S(): Db
      reads this, chatusers
    {
      Db(chatusers.rows, contacts)
    }

    /** saveChatUsers: users first, then the contacts whose user was found. */
    method SaveChatUsers(infos: seq<Info>)
      requires infos != []
      modifies this, chatusers
      ensures S() == SaveBatch(old(S()), infos)
    {
      chatusers.UpdateOrCreateChatUsers(Users(infos));
      var ctype := infos[0].user.ctype;
      var t := chatusers.rows;
      var ccs: set<Contact> := {};
      for i := 0 to |infos|
        invariant ccs == Linked(t, ctype, infos[..i])
        invariant chatusers.rows == t && contacts == old(contacts)
      {
        var k := UniqueKey(ctype, infos[i].user.userName);
        LinkedSnoc(t, ctype, infos[..i], infos[i]);
        assert infos[..i + 1] == infos[..i] + [infos[i]];
        if k in t {
          ccs := ccs + {Contact(infos[i].botId, t[k].chatUserId)};
        }
      }
      assert infos[..|infos|] == infos;
      contacts := contacts + ccs;
    }

    /** One turn of processUsers: at most one batch is flushed. */
    method Turn(users: seq<Info>, e: Event) returns (users': seq<Info>, ghost flushed: seq<Batch>)
      requires |users| <= SECTION_LENGTH
      modifies this, chatusers
      ensures var all := if e.Received? then users + [e.info] else users;
              if |all| > 1000 || (e.Timeout? && all != [])
              then flushed == [Batch(all, e.saved)] && users' == [] else flushed == [] && users' == all
      ensures Flushed(flushed) + users' == users + Taken(e)
      ensures Sized(flushed) && |users'| <= SECTION_LENGTH && (e.Timeout? ==> users' == [])
      ensures e.saved ==> AllSaved(flushed)
      ensures S() == Saved(old(S()), flushed)
    {
      var isTimeout := false;
      users' := users;
      match e {
        case Received(info, _) => users' := users' + [info];
        case Timeout(_) => isTimeout := true;
      }
      assert users' == users + Taken(e);
      if |users'| > SECTION_LENGTH || (isTimeout && |users'| > 0) {
        flushed := [Batch(users', e.saved)];
        Flush(users', e.saved);
        users' := [];
      } else {
        flushed := [];
      }
    }

    method Flush(users: seq<Info>, saved: bool)
      requires 1 <= |users| <= SECTION_LENGTH + 1
      modifies this, chatusers
      ensures var batch := Batch(users, saved);
              Sized([batch]) && Flushed([batch]) == users && S() == Saved(old(S()), [batch])
    {
      SavedOne(S(), Batch(users, saved));
      if saved {
        SaveChatUsers(users);
      }
    }

    /** processUsers for as many turns as there are events. */
    method ProcessUsers(events: seq<Event>) returns (users: seq<Info>, ghost batches: seq<Batch>)
      modifies this, chatusers
      ensures Processed(old(S()), events, users, batches, S())
      ensures |users| <= 1000 && forall b | b in batches :: 1 <= |b.infos| <= 1001
    {
      users, batches := [], [];
      for n := 0 to |events|
        invariant Processed(old(S()), events[..n], users, batches, S())
      {
        ghost var before, db := users, S();
        ghost var flushed;
        users, flushed := Turn(users, events[n]);
        ProcessedSnoc(old(S()), events, n, before, batches, db, flushed, users, S());
        batches := batches + flushed;
      }
      assert events[..|events|] == events;
    }
  }

  /**
   What processUsers has done: everything taken from the pipe is in one batch or the buffer, in order;
   the batches and the buffer have their sizes, and the database is what the saved batches make of it.
   */
  ghost predicate Processed(start: Db, events: seq<Event>, users: seq<Info>, batches: seq<Batch>, db: Db) {
    && Flushed(batches) + users == Stream(events)
    && Sized(batches) && |users| <= SECTION_LENGTH
    && (EndsIdle(events) ==> users == [])
    && (AllSucceed(events) ==> AllSaved(batches))
    && (NoTimeouts(events) ==> AllFull(batches))
    && db == Saved(start, batches)
  }

  predicate EndsIdle(events: seq<Event>) {
    events != [] && events[|events| - 1].Timeout?
  }

  predicate NoTimeouts(events: seq<Event>) {
    forall e | e in events :: e.Received?
  }

  predicate AllFull(batches: seq<Batch>) {
    forall b | b in batches :: |b.infos| == SECTION_LENGTH + 1
  }

  predicate AllSucceed(events: seq<Event>) {
    forall e | e in events :: e.saved
  }

  predicate AllSaved(batches: seq<Batch>) {
    forall b | b in batches :: b.saved
  }

  lemma StreamStep(events: seq<Event>, n: nat, batches: seq<Batch>, users: seq<Info>,
                   flushed: seq<Batch>, users': seq<Info>)
    requires n < |events| && Flushed(batches) + users == Stream(events[..n])
    requires Flushed(flushed) + users' == users + Taken(events[n])
    ensures Flushed(batches + flushed) + users' == Stream(events[..n + 1])
  {
    StreamSnoc(events, n);
    FlushedConcat(batches, flushed);
    Regroup(Flushed(batches), Flushed(flushed), users', users, Taken(events[n]));
  }

  lemma Regroup<T>(a: seq<T>, b: seq<T>, c: seq<T>, d: seq<T>, e: seq<T>)
    requires b + c == d + e
    ensures a + b + c == a + d + e
  {
    assert a + b + c == a + (b + c);
    assert a + d + e == a + (d + e);
  }

  lemma SucceedStep(events: seq<Event>, n: nat, batches: seq<Batch>, flushed: seq<Batch>)
    requires n < |events| && (AllSucceed(events[..n]) ==> AllSaved(batches))
    requires events[n].saved ==> AllSaved(flushed)
    ensures AllSucceed(events[..n + 1]) ==> AllSaved(batches + flushed)
  {
    assert events[..n + 1] == events[..n] + [events[n]];
    assert events[n] in events[..n + 1];
    assert forall e | e in events[..n] :: e in events[..n + 1];
  }

  lemma FullStep(events: seq<Event>, n: nat, batches: seq<Batch>, flushed: seq<Batch>)
    requires n < |events| && (NoTimeouts(events[..n]) ==> AllFull(batches))
    requires events[n].Received? ==> AllFull(flushed)
    ensures NoTimeouts(events[..n + 1]) ==> AllFull(batches + flushed)
  {
    assert events[..n + 1] == events[..n] + [events[n]];
    assert events[n] in events[..n + 1];
    assert forall e | e in events[..n] :: e in events[..n + 1];
  }

  lemma ProcessedSnoc(start: Db, events: seq<Event>, n: nat, users: seq<Info>, batches: seq<Batch>, db: Db,
                      flushed: seq<Batch>, users': seq<Info>, db': Db)
    requires n < |events| && Processed(start, events[..n], users, batches, db)
    requires Flushed(flushed) + users' == users + Taken(events[n])
    requires Sized(flushed) && |users'| <= SECTION_LENGTH && (events[n].Timeout? ==> users' == [])
    requires events[n].saved ==> AllSaved(flushed)
    requires events[n].Received? ==> AllFull(flushed)
    requires db' == Saved(db, flushed)
    ensures Processed(start, events[..n + 1], users', batches + flushed, db')
  {
    StreamStep(events, n, batches, users, flushed, users');
    SucceedStep(events, n, batches, flushed);
    FullStep(events, n, batches, flushed);
    SavedConcat(start, batches, flushed);
  }

  lemma LinkedSnoc(t: Table, ctype: string, infos: seq<Info>, i: Info)
    ensures var k := UniqueKey(ctype, i.user.userName);
            Linked(t, ctype, infos + [i])
            == Linked(t, ctype, infos) + if k in t then {Contact(i.botId, t[k].chatUserId)} else {}
  {
  }

  // ---- Batches do not matter ----

  /**
   With one client type and successful saves, the database depends only on what was taken from the
   pipe: it is as if everything flushed had been saved at once.
   */
  lemma {:induction false} SavedAtOnce(db: Db, batches: seq<Batch>, ctype: string)
    requires Sized(batches) && OneType(Flushed(batches), ctype) && AllSaved(batches)
    ensures Saved(db, batches) == if Flushed(batches) == [] then db else SaveBatch(db, Flushed(batches))
  {
    if batches != [] {
      var init, last := batches[..|batches| - 1], batches[|batches| - 1];
      assert last in batches && Sized(init);
      OneTypeParts(Flushed(init), last.infos, ctype);
      SavedAtOnce(db, init, ctype);
      if Flushed(init) != [] {
        SaveConcat(db, Flushed(init), last.infos, ctype);
      } else {
        assert Flushed(batches) == last.infos;
      }
    }
  }

  /** Two runs over the same stream, however it was cut into batches, end with the same database. */
  lemma {:induction false} BatchingIndependent(db: Db, batches: seq<Batch>, others: seq<Batch>, ctype: string)
    requires Sized(batches) && Sized(others) && Flushed(batches) == Flushed(others)
    requires OneType(Flushed(batches), ctype)
    requires AllSaved(batches) && AllSaved(others)
    ensures Saved(db, batches) == Saved(db, others)
  {
    SavedAtOnce(db, batches, ctype);
    SavedAtOnce(db, others, ctype);
  }
}
