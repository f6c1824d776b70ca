/**
 Compiling search criteria to a WHERE clause with positional parameters:
 SelectByCriteria (server/domains/searchcriteria.go:43-108) and the And* generators
 (server/dbx/database.go:173-279).
 */
module Criteria {
  import opened Wrappers
  import opened OrderedQuery

  datatype Field = Field(table: string, name: string)

  /** A value as JSON and SQL pass it along. */
  datatype Scalar = Scalar(raw: string)

  /** The right-hand side of a criterion. */
  datatype Rhs = One(value: Scalar) | List(items: seq<Scalar>)

  datatype Op = In | Equals | Gt | Gte | Lt | Lte | Like

  /** searchableOPS */
  function OpOf(name: string): Option<Op> {
    if name == "in" then Some(In) else if name == "equals" then Some(Equals)
    else if name == "gt" then Some(Gt) else if name == "gte" then Some(Gte)
    else if name == "lt" then Some(Lt) else if name == "lte" then Some(Lte)
    else if name == "like" then Some(Like) else None
  }

  /** What query.find holds for a field: operators with right-hand sides, or something else. */
  datatype Item = Ops(ops: map<string, Rhs>) | NotAMap

  type Find = map<string, Item>

  /** CriteriaAlias of the searched domain; None is its error for an unknown field. */
  type Alias = string -> Option<Field>

  /** A clause with its '?' placeholders. Blank is the empty string. */
  datatype Clause = Compare(field: Field, op: Op) | InList(field: Field, count: nat) | Blank

  /** The clause that confines a search to the caller's account. */
  const ACCOUNT := Compare(Field("bots", "accountid"), Equals)

  function Holes(c: Clause): nat {
    match c
    case Compare(_, _) => 1
    case InList(_, n) => n
    case Blank => 0
  }

  function HolesOf(clauses: seq<Clause>): nat {
    if clauses == [] then 0 else Holes(clauses[0]) + HolesOf(clauses[1..])
  }

  /** One criterion of the query. */
  datatype Criterion = Criterion(fieldName: string, opName: string, rhs: Rhs) {
    predicate Known() { OpOf(opName).Some? }
  }

  /** find holds the criterion, and its operator is recognised; the others are ignored. */
  predicate Recognised(find: Find, c: Criterion) {
    && c.fieldName in find && find[c.fieldName].Ops?
    && c.opName in find[c.fieldName].ops && find[c.fieldName].ops[c.opName] == c.rhs
    && c.Known()
  }

  /** The generator of the operator: its clause, or None for an error. */
  function Generate(alias: Alias, c: Criterion): Option<Clause>
    requires c.Known()
  {
    match alias(c.fieldName)
    case None => None
    case Some(field) =>
      if OpOf(c.opName).value == In then
        if c.rhs.One? then None
        else if c.rhs.items == [] then Some(Blank)
        else Some(InList(field, |c.rhs.items|))
      else Some(Compare(field, OpOf(c.opName).value))
  }

  predicate Generates(alias: Alias, c: Criterion) {
    c.Known() && Generate(alias, c).Some?
  }

  /** The parameters appended for a right-hand side. */
  function ParamsOf(rhs: Rhs): seq<Scalar> {
    match rhs
    case One(v) => [v]
    case List(items) => items
  }

  predicate AllGenerate(alias: Alias, order: seq<Criterion>) {
    forall c | c in order :: Generates(alias, c)
  }

  /** The clauses for criteria taken in this order, after the account's. */
  function ClausesFor(alias: Alias, order: seq<Criterion>): seq<Clause>
    requires AllGenerate(alias, order)
  {
    if order == [] then [ACCOUNT]
    else
      var last := order[|order| - 1];
      assert Generates(alias, last);
      ClausesFor(alias, order[..|order| - 1]) + [Generate(alias, last).value]
  }

  function ParamsFor(accountId: Scalar, order: seq<Criterion>): seq<Scalar> {
    if order == [] then [accountId] else ParamsFor(accountId, order[..|order| - 1]) + ParamsOf(order[|order| - 1].rhs)
  }

  /** Every field's item is a map, and every recognised criterion generates. */
  ghost predicate Compilable(alias: Alias, find: Find) {
    (forall f | f in find :: find[f].Ops?) && forall c | Recognised(find, c) :: Generates(alias, c)
  }

  /** order lists the recognised criteria, each once: the order Go's map iteration happened to take. */
  ghost predicate Lists(order: seq<Criterion>, find: Find) {
    NoRepeats(order) && forall c :: c in order <==> Recognised(find, c)
  }

  /** order lists the recognised criteria outside todo; of those of fieldName, the ones outside ops. */
  ghost predicate ListsDone(order: seq<Criterion>, find: Find, todo: set<string>, fieldName: string, ops: set<string>) {
    && NoRepeats(order)
    && forall c :: c in order <==>
                   Recognised(find, c) && c.fieldName !in todo && !(c.fieldName == fieldName && c.opName in ops)
  }

  /** The nested loops of SelectByCriteria over the decoded find map, each in any map order. */
  method Compile(alias: Alias, accountId: Scalar, find: Find)
    returns (ok: bool, whereclause: seq<Clause>, whereparams: seq<Scalar>, ghost order: seq<Criterion>)
    ensures ok <==> Compilable(alias, find)
    ensures ok ==> Lists(order, find) && AllGenerate(alias, order)
    ensures ok ==> whereclause == ClausesFor(alias, order) && whereparams == ParamsFor(accountId, order)
  {
    whereclause, whereparams, order := [ACCOUNT], [accountId], [];
    var err := false;  // o.Err
    var todo := find.Keys;
    while todo != {}
      invariant todo <= find.Keys
      invariant forall f | f in find && f !in todo :: find[f].Ops?
      invariant ListsDone(order, find, todo, "", {})
      invariant Built(alias, accountId, order, err, whereclause, whereparams)
    {
      var fieldName :| fieldName in todo;
      if find[fieldName].NotAMap? {
        return false, whereclause, whereparams, order;
      }
      var ops := find[fieldName].ops.Keys;
      todo := todo - {fieldName};
      while ops != {}
        invariant ops <= find[fieldName].ops.Keys
        invariant ListsDone(order, find, todo, fieldName, ops)
        invariant Built(alias, accountId, order, err, whereclause, whereparams)
      {
        var op :| op in ops;
        var c := Criterion(fieldName, op, find[fieldName].ops[op]);
        DoneStep(order, find, todo, ops, c);
        if c.Known() {
          BuiltStep(alias, accountId, order, err, whereclause, whereparams, c);
          err, whereclause := AppendClause(alias, c, err, whereclause);
          whereparams := whereparams + ParamsOf(c.rhs);
          order := order + [c];
        }
        ops := ops - {op};
      }
      assert ListsDone(order, find, todo, "", {});
    }
    ok := !err;
    CompiledIff(alias, find, order);
  }

  /** One generator call: after an error every generator returns the empty string. */
  method AppendClause(alias: Alias, c: Criterion, err: bool, whereclause: seq<Clause>)
    returns (err': bool, whereclause': seq<Clause>)
    requires c.Known()
    ensures err' <==> err || !Generates(alias, c)
    ensures whereclause' == whereclause + [if err' then Blank else Generate(alias, c).value]
  {
    err' := err;
    var clause := Blank;
    if !err {
      var generated := Generate(alias, c);
      match generated {
        case None => err' := true;
        case Some(text) => clause := text;
      }
    }
    whereclause' := whereclause + [clause];
  }

  /** The clauses and parameters are those of order, unless a criterion of it was in error. */
  ghost predicate Built(alias: Alias, accountId: Scalar, order: seq<Criterion>, err: bool,
                        clauses: seq<Clause>, params: seq<Scalar>)
  {
    && (err <==> !AllGenerate(alias, order))
    && (!err ==> clauses == ClausesFor(alias, order) && params == ParamsFor(accountId, order))
  }

  lemma DoneStep(order: seq<Criterion>, find: Find, todo: set<string>, ops: set<string>, c: Criterion)
    requires c.fieldName in find && find[c.fieldName].Ops? && c.fieldName !in todo
    requires c.opName in ops && ops <= find[c.fieldName].ops.Keys && find[c.fieldName].ops[c.opName] == c.rhs
    requires ListsDone(order, find, todo, c.fieldName, ops)
    ensures c.Known() ==> ListsDone(order + [c], find, todo, c.fieldName, ops - {c.opName})
    ensures !c.Known() ==> ListsDone(order, find, todo, c.fieldName, ops - {c.opName})
  {
    assert forall d | Recognised(find, d) && d.fieldName == c.fieldName && d.opName == c.opName :: d == c;
    if c.Known() {
      assert Recognised(find, c) && c !in order;
      forall d ensures d in order + [c] <==>
                       Recognised(find, d) && d.fieldName !in todo
                       && !(d.fieldName == c.fieldName && d.opName in ops - {c.opName})
      {
        assert d in order + [c] <==> d in order || d == c;
      }
    }
  }

  lemma BuiltStep(alias: Alias, accountId: Scalar, order: seq<Criterion>, err: bool,
                  clauses: seq<Clause>, params: seq<Scalar>, c: Criterion)
    requires c.Known() && Built(alias, accountId, order, err, clauses, params)
    ensures var failed := err || !Generates(alias, c);
            Built(alias, accountId, order + [c], failed,
                  clauses + [if failed then Blank else Generate(alias, c).value], params + ParamsOf(c.rhs))
  {
    assert (order + [c])[..|order|] == order;
    assert forall d :: d in order + [c] <==> d in order || d == c;
  }

  lemma CompiledIff(alias: Alias, find: Find, order: seq<Criterion>)
    requires forall f | f in find :: find[f].Ops?
    requires ListsDone(order, find, {}, "", {})
    ensures Lists(order, find)
    ensures AllGenerate(alias, order) <==> Compilable(alias, find)
  {
    assert forall c :: c in order <==> Recognised(find, c);
  }

  // ---- What the compiled query selects ----

  /** Comparing a row's column with a value, as the database does. */
  type Compares<!Row> = (Row, Field, Op, Scalar) -> bool

  ghost predicate Admits<Row>(cmp: Compares<Row>, row: Row, clause: Clause, params: seq<Scalar>)
    requires |params| == Holes(clause)
  {
    match clause
    case Compare(field, op) => cmp(row, field, op, params[0])
    case InList(field, _) => exists v :: v in params && cmp(row, field, Equals, v)
    case Blank => true
  }

  /** The database binds the k-th parameter to the k-th placeholder of the joined clauses. */
  ghost predicate Selects<Row>(cmp: Compares<Row>, row: Row, clauses: seq<Clause>, params: seq<Scalar>)
    requires |params| == HolesOf(clauses)
  {
    clauses == [] ||
    (var n := Holes(clauses[0]);
     Admits(cmp, row, clauses[0], params[..n]) && Selects(cmp, row, clauses[1..], params[n..]))
  }

  /** What a criterion asks of a row. */
  ghost predicate Satisfies<Row>(alias: Alias, cmp: Compares<Row>, row: Row, c: Criterion)
    requires Generates(alias, c) && BindsItsOwn(c)
  {
    var field, op := alias(c.fieldName).value, OpOf(c.opName).value;
    if op == In then c.rhs.items == [] || exists v :: v in c.rhs.items && cmp(row, field, Equals, v)
    else cmp(row, field, op, ParamsOf(c.rhs)[0])
  }

  /** What a criterion asks for, by the name of its operator. */
  lemma SatisfiedBy<Row>(alias: Alias, cmp: Compares<Row>, row: Row, c: Criterion, v: Scalar)
    requires Generates(alias, c) && BindsItsOwn(c) && (c.rhs == One(v) || c.rhs == List([v]))
    ensures var holds, field := Satisfies(alias, cmp, row, c), alias(c.fieldName).value;
            && (c.opName == "equals" ==> (holds <==> cmp(row, field, Equals, v)))
            && (c.opName == "gt" ==> (holds <==> cmp(row, field, Gt, v)))
            && (c.opName == "gte" ==> (holds <==> cmp(row, field, Gte, v)))
            && (c.opName == "lt" ==> (holds <==> cmp(row, field, Lt, v)))
            && (c.opName == "lte" ==> (holds <==> cmp(row, field, Lte, v)))
            && (c.opName == "like" ==> (holds <==> cmp(row, field, Like, v)))
            && (c.opName == "in" ==> (holds <==> cmp(row, field, Equals, v)))
  {
    OperatorNames();
    if c.opName == "in" { assert c.rhs.items == [v] && v in c.rhs.items; }
  }

  /** Under `in` a row satisfies a list exactly if it has one of its values, or the list is empty. */
  lemma SatisfiedByList<Row>(alias: Alias, cmp: Compares<Row>, row: Row, c: Criterion)
    requires Generates(alias, c) && c.opName == "in"
    ensures c.rhs.List? && BindsItsOwn(c)
    ensures Satisfies(alias, cmp, row, c) <==>
              c.rhs.items == [] || exists v :: v in c.rhs.items && cmp(row, alias(c.fieldName).value, Equals, v)
  {
  }

  lemma OperatorNames()
    ensures OpOf("equals") == Some(Equals) && OpOf("gt") == Some(Gt) && OpOf("gte") == Some(Gte)
    ensures OpOf("lt") == Some(Lt) && OpOf("lte") == Some(Lte) && OpOf("like") == Some(Like) && OpOf("in") == Some(In)
  {
    assert |"in"| == 2 && |"gt"| == 2 && |"lt"| == 2 && |"gte"| == 3 && |"lte"| == 3;
    assert |"like"| == 4 && |"equals"| == 6;
    assert "gt"[0] != "in"[0] && "lt"[0] != "in"[0] && "lt"[0] != "gt"[0] && "lte"[0] != "gte"[0];
  }

  predicate IsOperator(name: string) {
    name in ["in", "equals", "gt", "gte", "lt", "lte", "like"]
  }

  /** Which queries compile: every field has operators, the field of every recognised one is known, and what stands
      under `in` is a list. */
  lemma CompilableIff(alias: Alias, find: Find)
    ensures Compilable(alias, find) <==>
              && (forall f | f in find :: find[f].Ops?)
              && forall f, op | f in find && find[f].Ops? && op in find[f].ops && IsOperator(op) ::
                   alias(f).Some? && (op == "in" ==> find[f].ops[op].List?)
  {
    forall c: Criterion | c.fieldName in find && find[c.fieldName].Ops? && c.opName in find[c.fieldName].ops
                            && find[c.fieldName].ops[c.opName] == c.rhs
      ensures Recognised(find, c) <==> IsOperator(c.opName)
      ensures Recognised(find, c) ==>
                (Generates(alias, c) <==> alias(c.fieldName).Some? && (c.opName == "in" ==> c.rhs.List?))
    {
      OperatorNames();
    }
    if Compilable(alias, find) {
      forall f, op | f in find && find[f].Ops? && op in find[f].ops && IsOperator(op)
        ensures alias(f).Some? && (op == "in" ==> find[f].ops[op].List?)
      {
        assert Recognised(find, Criterion(f, op, find[f].ops[op]));
      }
    }
  }

  /**
   As many parameters as placeholders: every list right-hand side that is not of one element
   stands under "in".
   */
  predicate BindsItsOwn(c: Criterion)
    requires c.Known()
  {
    OpOf(c.opName).value == In || |ParamsOf(c.rhs)| == 1
  }

  lemma OwnHoles(alias: Alias, c: Criterion)
    requires Generates(alias, c)
    ensures Holes(Generate(alias, c).value) == |ParamsOf(c.rhs)| <==> BindsItsOwn(c)
  {}

  /** Bound to its own parameters, a clause admits the rows that satisfy its criterion. */
  lemma OwnClause<Row>(alias: Alias, cmp: Compares<Row>, row: Row, c: Criterion)
    requires Generates(alias, c) && BindsItsOwn(c)
    ensures Holes(Generate(alias, c).value) == |ParamsOf(c.rhs)|
    ensures Admits(cmp, row, Generate(alias, c).value, ParamsOf(c.rhs)) <==> Satisfies(alias, cmp, row, c)
  {}

  /**
   The compiled query selects exactly the account's rows that satisfy every recognised
   criterion, whatever order the maps were iterated in.
   */
  lemma CompiledCorrectly<Row>(alias: Alias, cmp: Compares<Row>, row: Row, accountId: Scalar, find: Find,
                               order: seq<Criterion>)
    requires Compilable(alias, find) && Lists(order, find) && AllGenerate(alias, order)
    requires forall c | Recognised(find, c) :: BindsItsOwn(c)
    ensures HolesOf(ClausesFor(alias, order)) == |ParamsFor(accountId, order)|
    ensures Selects(cmp, row, ClausesFor(alias, order), ParamsFor(accountId, order)) <==>
              && cmp(row, Field("bots", "accountid"), Equals, accountId)
              && forall c | Recognised(find, c) :: Satisfies(alias, cmp, row, c)
  {
    OrderCorrect(alias, cmp, row, accountId, order);
    assert forall c :: Recognised(find, c) <==> c in order;
  }

  lemma {:induction false} OrderCorrect<Row>(alias: Alias, cmp: Compares<Row>, row: Row, accountId: Scalar,
                                             order: seq<Criterion>)
    requires AllGenerate(alias, order)
    requires forall c | c in order :: BindsItsOwn(c)
    ensures HolesOf(ClausesFor(alias, order)) == |ParamsFor(accountId, order)|
    ensures Selects(cmp, row, ClausesFor(alias, order), ParamsFor(accountId, order)) <==>
              && cmp(row, Field("bots", "accountid"), Equals, accountId)
              && forall c | c in order :: Satisfies(alias, cmp, row, c)
  {
    if order == [] {
      SelectsOne(cmp, row, ACCOUNT, [accountId]);
    } else {
      var init, last := order[..|order| - 1], order[|order| - 1];
      assert forall c :: c in order <==> c in init || c == last;
      assert Generates(alias, last) && BindsItsOwn(last);
      OrderCorrect(alias, cmp, row, accountId, init);
      OwnClause(alias, cmp, row, last);
      SelectsSnoc(cmp, row, ClausesFor(alias, init), Generate(alias, last).value,
                  ParamsFor(accountId, init), ParamsOf(last.rhs));
    }
  }

  lemma SelectsOne<Row>(cmp: Compares<Row>, row: Row, clause: Clause, params: seq<Scalar>)
    requires |params| == Holes(clause)
    ensures HolesOf([clause]) == |params|
    ensures Selects(cmp, row, [clause], params) <==> Admits(cmp, row, clause, params)
  {
    assert [clause][1..] == [];
    assert params[..|params|] == params;
  }

  lemma {:induction false} SelectsSnoc<Row>(cmp: Compares<Row>, row: Row, clauses: seq<Clause>, clause: Clause,
                                            params: seq<Scalar>, more: seq<Scalar>)
    requires |params| == HolesOf(clauses) && |more| == Holes(clause)
    ensures HolesOf(clauses + [clause]) == |params + more|
    ensures Selects(cmp, row, clauses + [clause], params + more) <==>
              Selects(cmp, row, clauses, params) && Admits(cmp, row, clause, more)
  {
    if clauses == [] {
      assert clauses + [clause] == [clause] && params + more == more;
      SelectsOne(cmp, row, clause, more);
    } else {
      var n := Holes(clauses[0]);
      assert (clauses + [clause])[1..] == clauses[1..] + [clause];
      assert (params + more)[..n] == params[..n];
      assert (params + more)[n..] == params[n..] + more;
      SelectsSnoc(cmp, row, clauses[1..], clause, params[n..], more);
    }
  }

  // ---- When placeholders and parameters stay aligned ----

  lemma {:induction false} HolesSnoc(clauses: seq<Clause>, clause: Clause)
    ensures HolesOf(clauses + [clause]) == HolesOf(clauses) + Holes(clause)
  {
    if clauses == [] {
      assert clauses + [clause] == [clause] && [clause][1..] == [];
    } else {
      assert (clauses + [clause])[1..] == clauses[1..] + [clause];
      HolesSnoc(clauses[1..], clause);
    }
  }

  /** As many parameters as placeholders. */
  ghost predicate InStep(alias: Alias, accountId: Scalar, order: seq<Criterion>) {
    AllGenerate(alias, order) && HolesOf(ClausesFor(alias, order)) == |ParamsFor(accountId, order)|
  }

  /** In step after every criterion, taken in this order. */
  ghost predicate Aligned(alias: Alias, accountId: Scalar, order: seq<Criterion>) {
    forall i | 0 <= i <= |order| :: InStep(alias, accountId, order[..i])
  }

  lemma AlignedSnoc(alias: Alias, accountId: Scalar, order: seq<Criterion>)
    requires order != []
    ensures Aligned(alias, accountId, order) <==>
              Aligned(alias, accountId, order[..|order| - 1]) && InStep(alias, accountId, order)
  {
    var init := order[..|order| - 1];
    assert order[..|order|] == order;
    forall i | 0 <= i < |order| ensures order[..i] == init[..i] {}
  }

  /** Exactly the queries whose criteria all bind their own parameters stay aligned throughout. */
  lemma {:induction false} AlignedIff(alias: Alias, accountId: Scalar, order: seq<Criterion>)
    requires AllGenerate(alias, order)
    ensures Aligned(alias, accountId, order) <==> forall c | c in order :: BindsItsOwn(c)
  {
    if order == [] {
      assert order[..0] == [] && HolesOf([ACCOUNT]) == 1;
    } else {
      var init, last := order[..|order| - 1], order[|order| - 1];
      assert forall c :: c in order <==> c in init || c == last;
      assert Generates(alias, last);
      AlignedIff(alias, accountId, init);
      AlignedSnoc(alias, accountId, order);
      OwnHoles(alias, last);
      HolesSnoc(ClausesFor(alias, init), Generate(alias, last).value);
      if Aligned(alias, accountId, init) { assert InStep(alias, accountId, init[..|init|]) && init[..|init|] == init; }
    }
  }

  /** How many parameters too many (or one too few) a criterion brings. */
  function Surplus(c: Criterion): int
    requires c.Known()
  {
    if OpOf(c.opName).value == In then 0 else |ParamsOf(c.rhs)| - 1
  }

  function SurplusOf(order: seq<Criterion>): int
    requires forall c | c in order :: c.Known()
  {
    if order == [] then 0
    else
      var last := order[|order| - 1];
      assert last in order;
      SurplusOf(order[..|order| - 1]) + Surplus(last)
  }

  /** The statement has as many parameters as placeholders exactly when the surpluses cancel out. */
  lemma {:induction false} SurplusCounts(alias: Alias, accountId: Scalar, order: seq<Criterion>)
    requires AllGenerate(alias, order)
    ensures |ParamsFor(accountId, order)| - HolesOf(ClausesFor(alias, order)) == SurplusOf(order)
  {
    if order == [] {
      assert HolesOf([ACCOUNT]) == 1;
    } else {
      var init, last := order[..|order| - 1], order[|order| - 1];
      assert last in order && Generates(alias, last);
      SurplusCounts(alias, accountId, init);
      HolesSnoc(ClausesFor(alias, init), Generate(alias, last).value);
    }
  }

  /** A query with an empty list under `equals` and a pair under `gt`. */
  function ListsElsewhere(f: string, g: string, a: Scalar, b: Scalar): Find {
    var empty, pair := map["equals" := List([])], map["gt" := List([a, b])];
    if f == g then map[f := Ops(empty + pair)] else map[f := Ops(empty), g := Ops(pair)]
  }

  lemma ListsElsewhereOrder(f: string, g: string, a: Scalar, b: Scalar)
    ensures Lists([Criterion(f, "equals", List([])), Criterion(g, "gt", List([a, b]))], ListsElsewhere(f, g, a, b))
  {
    var find := ListsElsewhere(f, g, a, b);
    var order := [Criterion(f, "equals", List([])), Criterion(g, "gt", List([a, b]))];
    assert "equals" != "gt" by { assert |"gt"| == 2; }
    forall c ensures c in order <==> Recognised(find, c) {
      assert c in order <==> c == order[0] || c == order[1];
    }
  }

  /**
   An empty list under "equals" and a list of two under "gt": the database accepts the statement,
   but compares the first column with the first value meant for the second.
   */
  lemma ListsElsewhereMisbind<Row>(alias: Alias, cmp: Compares<Row>, row: Row, accountId: Scalar,
                                   f: string, g: string, a: Scalar, b: Scalar)
    requires alias(f).Some? && alias(g).Some?
    ensures var order := [Criterion(f, "equals", List([])), Criterion(g, "gt", List([a, b]))];
            && Lists(order, ListsElsewhere(f, g, a, b)) && AllGenerate(alias, order)
            && HolesOf(ClausesFor(alias, order)) == |ParamsFor(accountId, order)|
            && (Selects(cmp, row, ClausesFor(alias, order), ParamsFor(accountId, order)) <==>
                && cmp(row, Field("bots", "accountid"), Equals, accountId)
                && cmp(row, alias(f).value, Equals, a)
                && cmp(row, alias(g).value, Gt, b))
  {
    var c, d := Criterion(f, "equals", List([])), Criterion(g, "gt", List([a, b]));
    ListsElsewhereOrder(f, g, a, b);
    assert [c, d][..1] == [c] && [c][..0] == [];
    var x, y := Compare(alias(f).value, Equals), Compare(alias(g).value, Gt);
    assert ClausesFor(alias, [c]) == [ACCOUNT, x];
    assert ClausesFor(alias, [c, d]) == [ACCOUNT, x, y];
    assert ParamsFor(accountId, [c]) == [accountId];
    assert ParamsFor(accountId, [c, d]) == [accountId, a, b];
    SelectsOne(cmp, row, ACCOUNT, [accountId]);
    SelectsSnoc(cmp, row, [ACCOUNT], x, [accountId], [a]);
    SelectsSnoc(cmp, row, [ACCOUNT, x], y, [accountId, a], [b]);
    assert [ACCOUNT] + [x] == [ACCOUNT, x] && [ACCOUNT, x] + [y] == [ACCOUNT, x, y];
    assert [accountId] + [a] == [accountId, a] && [accountId, a] + [b] == [accountId, a, b];
  }
}
