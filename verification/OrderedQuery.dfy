/**
 A database query with ORDER BY and LIMIT, as both the contact table and the message store are
 read: the order of rows that tie is the database's choice.
 */
module OrderedQuery {
  import opened Sets

  ghost predicate Ascending<T>(key: T -> int, rows: seq<T>) {
    forall i, j | 0 <= i < j < |rows| :: key(rows[i]) <= key(rows[j])
  }

  ghost predicate NoRepeats<T>(rows: seq<T>) {
    forall i, j | 0 <= i < j < |rows| :: rows[i] != rows[j]
  }

  function Elements<T>(rows: seq<T>): set<T> {
    set r | r in rows
  }

  /** rows answers the query: the first rows of all in some order ascending in the key. */
  ghost predicate IsAnswer<T(!new)>(key: T -> int, all: set<T>, limit: nat, rows: seq<T>) {
    && NoRepeats(rows) && Ascending(key, rows) && Elements(rows) <= all
    && (Elements(rows) == all || |rows| == limit)
    && |rows| <= limit
    && forall r, x | r in all - Elements(rows) && x in Elements(rows) :: key(x) <= key(r)
  }

  /** The database: takes an earliest row among those left, any one of those that tie. */
  method Select<T(!new)>(key: T -> int, all: set<T>, limit: nat) returns (rows: seq<T>)
    ensures IsAnswer(key, all, limit, rows)
  {
    rows := [];
    var rest := all;
    while rest != {} && |rows| < limit
      invariant rest <= all && Elements(rows) == all - rest
      invariant NoRepeats(rows) && Ascending(key, rows) && |rows| <= limit
      invariant forall r, x | r in rest && x in Elements(rows) :: key(x) <= key(r)
      decreases rest
    {
      ghost var first := Earliest(key, rest);
      var r :| r in rest && forall x | x in rest :: key(r) <= key(x);
      assert r !in Elements(rows);
      ElementsSnoc(rows, r);
      rows, rest := rows + [r], rest - {r};
    }
  }

  lemma {:induction false} Earliest<T(!new)>(key: T -> int, s: set<T>) returns (e: T)
    requires s != {}
    ensures e in s && forall x | x in s :: key(e) <= key(x)
    decreases |s|
  {
    var any :| any in s;
    e := any;
    var rest := s - {any};
    if rest != {} {
      SmallerSet(rest, s);
      var other := Earliest(key, rest);
      if key(other) < key(any) { e := other; }
    }
    forall x | x in s ensures key(e) <= key(x) {
      if x != any { assert x in rest; }
    }
  }

  lemma ElementsSnoc<T>(rows: seq<T>, r: T)
    ensures Elements(rows + [r]) == Elements(rows) + {r}
  {
  }

  lemma ElementsConcat<T>(a: seq<T>, b: seq<T>)
    ensures Elements(a + b) == Elements(a) + Elements(b)
  {
  }

  lemma ElementsCount<T>(rows: seq<T>)
    requires NoRepeats(rows)
    ensures |Elements(rows)| == |rows|
  {
    if rows != [] {
      var init, last := rows[..|rows| - 1], rows[|rows| - 1];
      assert NoRepeats(init);
      ElementsCount(init);
      ElementsSnoc(init, last);
      assert rows == init + [last] && last !in init;
    }
  }

  lemma LastRow<T>(key: T -> int, rows: seq<T>)
    requires rows != [] && NoRepeats(rows) && Ascending(key, rows)
    ensures var init, last := rows[..|rows| - 1], rows[|rows| - 1];
            && NoRepeats(init) && Ascending(key, init) && Elements(init) == Elements(rows) - {last}
            && last in Elements(rows) && forall x | x in Elements(rows) :: key(x) <= key(last)
  {
    var init, last := rows[..|rows| - 1], rows[|rows| - 1];
    assert rows == init + [last] && last !in init;
    ElementsSnoc(init, last);
  }

  /** If each key occurs once, at most one sequence lists the rows in ascending order. */
  lemma {:induction false} OneOrder<T(!new)>(key: T -> int, a: seq<T>, b: seq<T>)
    requires Elements(a) == Elements(b) && NoRepeats(a) && NoRepeats(b)
    requires Ascending(key, a) && Ascending(key, b)
    requires forall r, x | r in Elements(a) && x in Elements(a) && r != x :: key(r) != key(x)
    ensures a == b
    decreases |a|
  {
    ElementsCount(a);
    ElementsCount(b);
    if a != [] {
      LastRow(key, a);
      LastRow(key, b);
      OneOrder(key, a[..|a| - 1], b[..|b| - 1]);
      assert a == a[..|a| - 1] + [a[|a| - 1]] && b == b[..|b| - 1] + [b[|b| - 1]];
    }
  }
}
