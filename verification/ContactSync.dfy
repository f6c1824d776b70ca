/**
 Contact synchronisation by time cursor, server/domains/chatcontacts.go:103-208: a client walks
 the table in pages, passing the updateat of the last row it got. Rows may tie, the database
 may order ties as it likes, and any page size may be asked for.
 */
module ContactSync {
  import opened Wrappers
  import opened OrderedQuery
  import opened Sets

  /** A row of chatcontacts; updateAt in whole seconds, as the column keeps it. */
  datatype Contact = Contact(id: string, botId: string, updateAt: nat, deleted: bool)

  type Table = set<Contact>

  /** lastId: absent, a time, or text that is not one. */
  datatype LastId = NoLastId | At(time: nat) | Garbled

  /** The rows a query may return: live, of the chosen bots (all if none chosen), not before from. */
  function Matching(rows: Table, botIds: seq<string>, from: nat): set<Contact> {
    set r | r in rows && !r.deleted && from <= r.updateAt && (botIds == [] || r.botId in botIds)
  }

  function UpdateAt(r: Contact): int {
    r.updateAt
  }

  /** getSameUpdateAtCount: the live rows at that second, of all bots. */
  function SameUpdateAt(rows: Table, time: nat): set<Contact> {
    set r | r in rows && !r.deleted && r.updateAt == time
  }

  /** SyncChatContact. The limit is raised above the number of rows that tie with the cursor. */
  method SyncChatContact(rows: Table, botIds: seq<string>, lastId: LastId, pagesize: int)
    returns (page: Option<seq<Contact>>)
    ensures lastId.Garbled? <==> page.None?
    ensures lastId.NoLastId? ==>
              IsAnswer(UpdateAt, Matching(rows, botIds, 0), if pagesize <= 0 then 1 else pagesize, page.value)
    ensures page.Some? ==> forall r | r in page.value ::
              && r in rows && !r.deleted && (botIds == [] || r.botId in botIds)
              && (lastId.At? ==> lastId.time <= r.updateAt)
    ensures lastId.At? ==>
              var ties := |set r | r in rows && !r.deleted && r.updateAt == lastId.time|;
              IsAnswer(UpdateAt, Matching(rows, botIds, lastId.time),
                       if pagesize <= ties then ties + 1 else pagesize, page.value)
  {
    var from := 0;
    match lastId {
      case NoLastId =>
      case At(time) => from := time;
      case Garbled => return None;
    }
    var mincount := 0;
    if lastId.At? {
      mincount := |SameUpdateAt(rows, from)|;
    }
    var limit := pagesize;
    if pagesize <= mincount {
      limit := mincount + 1;
    }
    var answer := Select(UpdateAt, Matching(rows, botIds, from), limit);
    page := Some(answer);
    assert forall r | r in answer :: r in Elements(answer);
  }

  // ---- the walk ----------------------------------------------------------------------

  /** A page from cursor t that leaves a row out ends after t, and has every row of the
      chosen bots up to, but for, the second it ends at. */
  lemma PageAdvances(rows: Table, botIds: seq<string>, t: nat, limit: nat, page: seq<Contact>)
    requires IsAnswer(UpdateAt, Matching(rows, botIds, t), limit, page) && limit > |SameUpdateAt(rows, t)|
    ensures var all := Matching(rows, botIds, t);
            && (page == [] <==> all == {})
            && (page != [] ==>
                  var last := page[|page| - 1].updateAt;
                  && t <= last
                  && (last == t <==> forall r | r in all :: r.updateAt == t)
                  && (last == t ==> Elements(page) == all)
                  && (forall r | r in all && r.updateAt < last :: r in page))
  {
    var all := Matching(rows, botIds, t);
    ElementsCount(page);
    if page != [] {
      var last := page[|page| - 1];
      assert last in Elements(page);
      forall r | r in all && r.updateAt < last.updateAt ensures r in page {
        assert r !in Elements(page) ==> UpdateAt(last) <= UpdateAt(r);
      }
      if last.updateAt == t {
        assert Elements(page) <= SameUpdateAt(rows, t) by {
          forall r | r in Elements(page) ensures r.updateAt == t {
            assert r in all;
            var i :| 0 <= i < |page| && page[i] == r;
          }
        }
        SubsetCount(Elements(page), SameUpdateAt(rows, t));
        assert Elements(page) == all;
      }
    }
  }

  /** The client: pass the last row's time until the page brings no later one. Every live
      contact of the chosen bots is seen, whatever the page size and the order of ties, and
      the walk ends. */
  method SyncAll(rows: Table, botIds: seq<string>, pagesize: int) returns (seen: set<Contact>, calls: nat)
    ensures seen == Matching(rows, botIds, 0)
    ensures forall r :: r in seen <==> r in rows && !r.deleted && (botIds == [] || r.botId in botIds)
    ensures calls <= |Matching(rows, botIds, 0)| + 1
  {
    ghost var all := Matching(rows, botIds, 0);
    var first := SyncChatContact(rows, botIds, NoLastId, pagesize);
    var page := first.value;
    seen, calls := Elements(page), 1;
    if page == [] {
      return;
    }
    var cursor := page[|page| - 1].updateAt;
    assert page[|page| - 1] in Elements(page);
    SubsetCount(Matching(rows, botIds, cursor), all);
    forall r | r in all && r.updateAt < cursor ensures r in seen {
      assert r in all - seen ==> UpdateAt(page[|page| - 1]) <= UpdateAt(r);
    }
    while true
      invariant seen <= all
      invariant forall r | r in all && r.updateAt < cursor :: r in seen
      invariant exists r :: r in all && r.updateAt == cursor
      invariant calls + |Matching(rows, botIds, cursor)| <= |all| + 1
      decreases |Matching(rows, botIds, cursor)|
    {
      ghost var here :| here in all && here.updateAt == cursor;
      var last;
      page, last := NextPage(rows, botIds, pagesize, cursor, here);
      seen, calls := seen + Elements(page), calls + 1;
      if last == cursor {
        break;
      }
      cursor := last;
    }
  }

  /** One call of the walk, from a cursor that some row has. */
  method NextPage(rows: Table, botIds: seq<string>, pagesize: int, cursor: nat, ghost here: Contact)
    returns (page: seq<Contact>, last: nat)
    requires here in Matching(rows, botIds, 0) && here.updateAt == cursor
    ensures Elements(page) <= Matching(rows, botIds, 0) && cursor <= last
    ensures last == cursor ==> Elements(page) == Matching(rows, botIds, cursor) && page != []
    ensures forall r | r in Matching(rows, botIds, cursor) && r.updateAt < last :: r in page
    ensures |Matching(rows, botIds, cursor)| >= 1
    ensures last > cursor ==> |Matching(rows, botIds, last)| < |Matching(rows, botIds, cursor)|
    ensures exists r :: r in Matching(rows, botIds, 0) && r.updateAt == last
  {
    var next := SyncChatContact(rows, botIds, At(cursor), pagesize);
    page := next.value;
    ghost var ties := |SameUpdateAt(rows, cursor)|;
    PageAdvances(rows, botIds, cursor, if pagesize <= ties then ties + 1 else pagesize, page);
    assert here in Matching(rows, botIds, cursor);
    SubsetCount({here}, Matching(rows, botIds, cursor));
    last := page[|page| - 1].updateAt;
    assert page[|page| - 1] in Elements(page);
    if last > cursor {
      assert here !in Matching(rows, botIds, last);
      SmallerSet(Matching(rows, botIds, last), Matching(rows, botIds, cursor));
    }
  }
}
