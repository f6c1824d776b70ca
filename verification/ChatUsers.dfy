/**
 The table of chat users and its merge rule: UpdateOrCreateChatUsers
 (server/domains/chatusers.go:255-360), one INSERT ... ON DUPLICATE KEY UPDATE for many rows.
 */
module ChatUsers {
  import opened Wrappers

  datatype TextField = NickName | Alias | Avatar | Country | Province | City | Remark | Signature | Label | Ext

  /** A text column that may be NULL. */
  type Text = Option<string>

  /** NewChatUser gives a fresh id and the nickname; the other columns may be unset. */
  datatype ChatUser = ChatUser(
    chatUserId: string, userName: string, ctype: string, nickName: string, alias: Text, avatar: Text, sex: int,
    country: Text, province: Text, city: Text, signature: Text, remark: Text, labels: Text, ext: Text)
  {
    /** The unique key of the table. */
    function Key(): UniqueKey { UniqueKey(ctype, userName) }

    function Get(f: TextField): Text {
      match f
      case NickName => Some(nickName)
      case Alias => alias
      case Avatar => avatar
      case Country => country
      case Province => province
      case City => city
      case Remark => remark
      case Signature => signature
      case Label => labels
      case Ext => ext
    }
  }

  datatype UniqueKey = UniqueKey(ctype: string, userName: string)

  type Table = t: map<UniqueKey, ChatUser> | forall k | k in t :: t[k].Key() == k witness map[]

  // ---- The statement's parameters ----

  datatype Arg = Str(text: string) | Num(number: int) | Null

  function Nullable(t: Text): Arg {
    match t
    case None => Null
    case Some(text) => Str(text)
  }

  const WIDTH := 14

  /** The values appended for one user, in the order of the appends. */
  function ArgsOf(u: ChatUser): (args: seq<Arg>)
    ensures |args| == WIDTH
  {
    [Str(u.chatUserId), Str(u.userName), Str(u.ctype), Str(u.nickName)]
    + [Nullable(u.alias)] + [Nullable(u.avatar)] + [Num(u.sex)]
    + [Nullable(u.country)] + [Nullable(u.province)] + [Nullable(u.city)]
    + [Nullable(u.signature)] + [Nullable(u.remark)] + [Nullable(u.labels)] + [Nullable(u.ext)]
  }

  function AllArgs(users: seq<ChatUser>): (args: seq<Arg>)
    ensures |args| % WIDTH == 0
  {
    if users == [] then [] else AllArgs(users[..|users| - 1]) + ArgsOf(users[|users| - 1])
  }

  function TextOf(a: Arg): Text {
    if a.Str? then Some(a.text) else None
  }

  function StringOf(a: Arg): string {
    if a.Str? then a.text else ""
  }

  /** How the database reads one tuple: INSERT INTO chatusers (chatuserid, username, type, nickname, alias,
      avatar, sex, country, province, city, signature, remark, label, ext). */
  function RowOf(a: seq<Arg>): ChatUser
    requires |a| == WIDTH
  {
    ChatUser(chatUserId := StringOf(a[0]), userName := StringOf(a[1]), ctype := StringOf(a[2]),
             nickName := StringOf(a[3]), alias := TextOf(a[4]), avatar := TextOf(a[5]),
             sex := if a[6].Num? then a[6].number else 0,
             country := TextOf(a[7]), province := TextOf(a[8]), city := TextOf(a[9]),
             signature := TextOf(a[10]), remark := TextOf(a[11]), labels := TextOf(a[12]), ext := TextOf(a[13]))
  }

  /** The database binds WIDTH parameters to each tuple of placeholders. */
  function RowsOf(args: seq<Arg>): seq<ChatUser>
    requires |args| % WIDTH == 0
  {
    if args == [] then [] else RowsOf(args[..|args| - WIDTH]) + [RowOf(args[|args| - WIDTH..])]
  }

  /** The database reads back exactly the users that the parameters were made from. */
  lemma {:induction false} RowsOfArgs(users: seq<ChatUser>)
    ensures RowsOf(AllArgs(users)) == users
  {
    hide ArgsOf, RowOf;
    if users != [] {
      var init, last := users[..|users| - 1], users[|users| - 1];
      RowsOfArgs(init);
      RowsSnoc(AllArgs(init), last);
      assert users == init + [last];
    }
  }

  lemma {:induction false} RowsSnoc(args: seq<Arg>, u: ChatUser)
    requires |args| % WIDTH == 0
    ensures RowsOf(args + ArgsOf(u)) == RowsOf(args) + [u]
  {
    var more := args + ArgsOf(u);
    assert more[..|more| - WIDTH] == args && more[|more| - WIDTH..] == ArgsOf(u);
    RowOfArgs(u);
  }

  datatype Column = Id | UserName | Type | Sex | Column(field: TextField)

  /** The columns of the statement, in its order. */
  const COLUMNS := [Id, UserName, Type, Column(NickName), Column(Alias), Column(Avatar), Sex, Column(Country),
                    Column(Province), Column(City), Column(Signature), Column(Remark), Column(Label), Column(Ext)]

  /** What a column of a user's row holds. */
  function Value(u: ChatUser, c: Column): Arg {
    match c
    case Id => Str(u.chatUserId)
    case UserName => Str(u.userName)
    case Type => Str(u.ctype)
    case Sex => Num(u.sex)
    case Column(f) => Nullable(u.Get(f))
  }

  /** The parameters are appended in the order of the columns they are meant for. */
  lemma ArgsMatchColumns(u: ChatUser, i: nat)
    requires i < WIDTH
    ensures |COLUMNS| == WIDTH && ArgsOf(u)[i] == Value(u, COLUMNS[i])
  {
  }

  lemma RowOfArgs(u: ChatUser)
    ensures RowOf(ArgsOf(u)) == u
  {
  }

  // ---- The merge rule ----

  /** f=IF(CHAR_LENGTH(VALUES(f)) > 0, VALUES(f), f) */
  function Merge(current: Text, values: Text): Text {
    if values.Some? && |values.value| > 0 then values else current
  }

  function MergeUser(row: ChatUser, u: ChatUser): ChatUser {
    row.(sex := if u.sex == 0 then row.sex else u.sex,
         nickName := if |u.nickName| > 0 then u.nickName else row.nickName,
         alias := Merge(row.alias, u.alias), avatar := Merge(row.avatar, u.avatar),
         country := Merge(row.country, u.country), province := Merge(row.province, u.province),
         city := Merge(row.city, u.city), remark := Merge(row.remark, u.remark),
         signature := Merge(row.signature, u.signature), labels := Merge(row.labels, u.labels),
         ext := Merge(row.ext, u.ext))
  }

  lemma MergeGets(row: ChatUser, u: ChatUser, f: TextField)
    ensures MergeUser(row, u).Get(f) == Merge(row.Get(f), u.Get(f))
  {
  }

  function Upsert(t: Table, u: ChatUser): Table {
    t[u.Key() := if u.Key() in t then MergeUser(t[u.Key()], u) else u]
  }

  /** The rows of one statement, first to last; also of several statements in turn. */
  function UpsertAll(t: Table, users: seq<ChatUser>): Table {
    if users == [] then t else Upsert(UpsertAll(t, users[..|users| - 1]), users[|users| - 1])
  }

  /** Batches do not matter: saving a and then b is saving a + b. */
  lemma {:induction false} UpsertConcat(t: Table, a: seq<ChatUser>, b: seq<ChatUser>)
    ensures UpsertAll(t, a + b) == UpsertAll(UpsertAll(t, a), b)
  {
    if b == [] {
      assert a + b == a;
    } else {
      assert (a + b)[..|a + b| - 1] == a + b[..|b| - 1];
      UpsertConcat(t, a, b[..|b| - 1]);
    }
  }

  // ---- What the table holds in the end ----

  /** The last non-empty value of the field among the users with the key. */
  function LastText(users: seq<ChatUser>, k: UniqueKey, f: TextField): Text {
    if users == [] then None
    else
      var last := users[|users| - 1];
      if last.Key() == k && last.Get(f).Some? && |last.Get(f).value| > 0 then last.Get(f)
      else LastText(users[..|users| - 1], k, f)
  }

  /** The last sex other than 0, or 0. */
  function LastSex(users: seq<ChatUser>, k: UniqueKey): int {
    if users == [] then 0
    else
      var last := users[|users| - 1];
      if last.Key() == k && last.sex != 0 then last.sex else LastSex(users[..|users| - 1], k)
  }

  function First(users: seq<ChatUser>, k: UniqueKey): Option<ChatUser> {
    if users == [] then None
    else if users[0].Key() == k then Some(users[0])
    else First(users[1..], k)
  }

  /** The row that the key started from: the table's, or the first inserted. */
  function Base(t: Table, users: seq<ChatUser>, k: UniqueKey): Option<ChatUser> {
    if k in t then Some(t[k]) else First(users, k)
  }

  lemma {:induction false} FirstSnoc(users: seq<ChatUser>, u: ChatUser, k: UniqueKey)
    ensures First(users + [u], k) == if First(users, k).Some? then First(users, k)
                                     else if u.Key() == k then Some(u) else None
  {
    if users == [] {
      assert users + [u] == [u];
    } else {
      assert (users + [u])[1..] == users[1..] + [u];
      FirstSnoc(users[1..], u, k);
    }
  }

  /** What row has become of base: its id, and in each column the last value that counts. */
  ghost predicate Settled(row: ChatUser, base: ChatUser, users: seq<ChatUser>, k: UniqueKey) {
    && row.chatUserId == base.chatUserId && row.Key() == base.Key()
    && row.sex == (if LastSex(users, k) != 0 then LastSex(users, k) else base.sex)
    && forall f :: row.Get(f) == if LastText(users, k, f).Some? then LastText(users, k, f) else base.Get(f)
  }

  lemma LastSnoc(users: seq<ChatUser>, u: ChatUser, k: UniqueKey)
    ensures LastSex(users + [u], k) == if u.Key() == k && u.sex != 0 then u.sex else LastSex(users, k)
    ensures forall f :: LastText(users + [u], k, f)
                        == if u.Key() == k && Merge(None, u.Get(f)).Some? then u.Get(f) else LastText(users, k, f)
  {
    assert (users + [u])[..|users|] == users;
  }

  lemma {:induction false} NoneBefore(users: seq<ChatUser>, k: UniqueKey)
    requires First(users, k).None?
    ensures LastSex(users, k) == 0 && forall f :: LastText(users, k, f).None?
  {
    if users != [] {
      var init, last := users[..|users| - 1], users[|users| - 1];
      assert users == init + [last];
      FirstSnoc(init, last, k);
      NoneBefore(init, k);
    }
  }

  lemma {:induction false} SettledMerge(row: ChatUser, base: ChatUser, users: seq<ChatUser>, u: ChatUser, k: UniqueKey)
    requires Settled(row, base, users, k) && u.Key() == k
    ensures Settled(MergeUser(row, u), base, users + [u], k)
  {
    LastSnoc(users, u, k);
    forall f ensures MergeUser(row, u).Get(f) == Merge(row.Get(f), u.Get(f)) {
      MergeGets(row, u, f);
    }
  }

  /**
   After any stream of users: a key has a row iff it had one or occurs; the row keeps its id; each text
   column is the last non-empty value, or what the row started with if there was none; likewise sex.
   */
  lemma {:induction false} UpsertedRow(t: Table, users: seq<ChatUser>, k: UniqueKey)
    ensures k in UpsertAll(t, users) <==> Base(t, users, k).Some?
    ensures k in UpsertAll(t, users) ==> Settled(UpsertAll(t, users)[k], Base(t, users, k).value, users, k)
  {
    if users != [] {
      var init, last := users[..|users| - 1], users[|users| - 1];
      assert users == init + [last];
      UpsertedRow(t, init, k);
      FirstSnoc(init, last, k);
      LastSnoc(init, last, k);
      if last.Key() == k {
        if k in UpsertAll(t, init) {
          SettledMerge(UpsertAll(t, init)[k], Base(t, init, k).value, init, last, k);
        } else {
          NoneBefore(init, k);
        }
      }
    }
  }

  // ---- Saving again ----

  lemma SameColumns(a: ChatUser, b: ChatUser)
    requires a.chatUserId == b.chatUserId && a.Key() == b.Key() && a.sex == b.sex && forall f :: a.Get(f) == b.Get(f)
    ensures a == b
  {
    assert a.Get(NickName) == b.Get(NickName) && a.Get(Alias) == b.Get(Alias) && a.Get(Avatar) == b.Get(Avatar);
    assert a.Get(Country) == b.Get(Country) && a.Get(Province) == b.Get(Province) && a.Get(City) == b.Get(City);
    assert a.Get(Remark) == b.Get(Remark) && a.Get(Signature) == b.Get(Signature);
    assert a.Get(Label) == b.Get(Label) && a.Get(Ext) == b.Get(Ext);
  }

  /** The same users once more, with the fresh ids that NewChatUser gives them. */
  ghost predicate Resent(users: seq<ChatUser>, again: seq<ChatUser>) {
    |again| == |users|
    && forall i | 0 <= i < |users| :: again[i] == users[i].(chatUserId := again[i].chatUserId)
  }

  lemma {:induction false} ResentSame(users: seq<ChatUser>, again: seq<ChatUser>, k: UniqueKey)
    requires Resent(users, again)
    ensures LastSex(again, k) == LastSex(users, k)
    ensures forall f :: LastText(again, k, f) == LastText(users, k, f)
    ensures First(again, k).Some? <==> First(users, k).Some?
  {
    if users != [] {
      var n := |users| - 1;
      assert users == users[..n] + [users[n]] && again == again[..n] + [again[n]];
      ResentSame(users[..n], again[..n], k);
      FirstSnoc(users[..n], users[n], k);
      FirstSnoc(again[..n], again[n], k);
      assert again[n].Key() == users[n].Key();
      forall f ensures again[n].Get(f) == users[n].Get(f) {}
    }
  }

  /** Saving a batch a second time changes nothing, whatever it contains. */
  lemma Replay(t: Table, users: seq<ChatUser>, again: seq<ChatUser>)
    requires Resent(users, again)
    ensures UpsertAll(UpsertAll(t, users), again) == UpsertAll(t, users)
  {
    var once := UpsertAll(t, users);
    var twice := UpsertAll(once, again);
    forall k ensures k in twice <==> k in once
             ensures k in once ==> twice[k] == once[k]
    {
      UpsertedRow(t, users, k);
      UpsertedRow(once, again, k);
      ResentSame(users, again, k);
      if k in once {
        SameColumns(twice[k], once[k]);
      }
    }
  }

  // ---- The code ----

  class ChatUserTable {
    var rows: Table

    constructor ()
      ensures rows == map[]
    {
      rows := map[];
    }

    /** Collects the parameters of all tuples, then has the statement executed. */
    method UpdateOrCreateChatUsers(users: seq<ChatUser>)
      modifies this
      ensures rows == UpsertAll(old(rows), users)
    {
      var valueArgs: seq<Arg> := [];
      for i := 0 to |users|
        invariant valueArgs == AllArgs(users[..i])
      {
        assert users[..i + 1][..i] == users[..i];
        valueArgs := valueArgs + ArgsOf(users[i]);
      }
      assert users[..|users|] == users;
      RowsOfArgs(users);
      Exec(valueArgs);
    }

    /** The database: tuple after tuple is inserted, or updates the row with its key. */
    method Exec(args: seq<Arg>)
      requires |args| % WIDTH == 0
      modifies this
      ensures rows == UpsertAll(old(rows), RowsOf(args))
    {
      var tuples := RowsOf(args);
      for i := 0 to |tuples|
        invariant rows == UpsertAll(old(rows), tuples[..i])
      {
        assert tuples[..i + 1][..i] == tuples[..i];
        rows := Upsert(rows, tuples[i]);
      }
      assert tuples[..|tuples|] == tuples;
    }
  }
}
