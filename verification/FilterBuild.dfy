/**
 Turning stored filter rows into filter objects: the hub's registry calls
 (server/chatbothub/filtermanage.go) and the web server's CreateFilterChain that drives them
 (server/web/actions.go:38-200).

 Rows refer to each other by id, through next and through a router's body. Describes gives a
 stored definition its meaning as a tree; building is proved to make objects that unfold to it.
 */
module FilterBuild {
  import opened Wrappers
  import opened JsonPath
  import opened Filters

  /** A row of the filters table. */
  datatype Row = Row(filterId: string, filterType: string, filterName: string,
                     body: Option<string>, next: Option<string>)

  /** The live rows by primary key. */
  type Table = map<string, Row>

  /** The key is the row's id. Ids are generated UUIDs, never empty. */
  ghost predicate Keyed(rows: Table) {
    "" !in rows && forall id | id in rows :: rows[id].filterId == id
  }

  function KindOf(filterType: string): Option<Kind> {
    if filterType == "WechatBaseFilter" then Some(WechatBase)
    else if filterType == "WechatMomentFilter" then Some(WechatMoment)
    else if filterType == "PlainFilter" then Some(Plain)
    else if filterType == "FluentFilter" then Some(Fluent)
    else if filterType == "WebTrigger" then Some(WebTrigger)
    else if filterType == "KVRouter" then Some(KVRouter)
    else if filterType == "RegexRouter" then Some(RegexRouter)
    else None
  }

  /** The body sent to the hub; a NULL body is the empty one. */
  function BodyText(row: Row): string {
    if row.body.Some? then row.body.value else ""
  }

  /** The decoded body; an empty body decodes to nothing. */
  function Decoded(env: Env, row: Row): Parsed {
    if BodyText(row) == "" then Null else env.parse(BodyText(row))
  }

  const NO_ACTION := WebAction("", "")

  /** The action a WebTrigger's body sets; None when the hub refuses it. */
  function ActionOf(env: Env, row: Row): Option<WebAction> {
    match (row.filterType == "WebTrigger", Decoded(env, row))
    case (true, Object(m)) =>
      if "url" in m && m["url"].Text? && "method" in m && m["method"].Text?
      then Some(WebAction(m["url"].text, m["method"].text)) else None
    case _ => Some(NO_ACTION)
  }

  /** The hub can create this filter. */
  predicate Creatable(env: Env, row: Row) {
    && KindOf(row.filterType).Some?
    && (row.filterType == "FluentFilter" ==> env.hasFluentTag)
    && !Decoded(env, row).Malformed?
    && ActionOf(env, row).Some?
  }

  /** The id of the filter a router's body puts on a branch. */
  function ChildAt(env: Env, row: Row, tag: Tag): Option<string> {
    match (KindOf(row.filterType), Decoded(env, row))
    case (Some(KVRouter), Object(m)) =>
      if tag.key in m && m[tag.key].Obj? && tag.value in m[tag.key].fields && m[tag.key].fields[tag.value].Text?
      then Some(m[tag.key].fields[tag.value].text) else None
    case (Some(RegexRouter), Object(m)) =>
      if tag.value == "" && tag.key in m && m[tag.key].Text? then Some(m[tag.key].text) else None
    case _ => None
  }

  /** The expression a router compiles for a branch. */
  function Pattern(kind: Kind, tag: Tag): string {
    if kind == KVRouter then tag.value else tag.key
  }

  /** A non-empty KVRouter body is an object of objects. */
  predicate RouterBodyUsable(env: Env, row: Row) {
    KindOf(row.filterType) == Some(KVRouter) && BodyText(row) != "" ==>
      var body := Decoded(env, row);
      body.Object? && forall key | key in body.fields :: body.fields[key].Obj?
  }

  /** The stored definition of id means the tree t: t is what following the rows' ids gives. */
  ghost predicate Describes(env: Env, rows: Table, id: string, t: Tree)
    decreases t, 1
  {
    && id in rows
    && var row := rows[id];
    && Creatable(env, row) && RouterBodyUsable(env, row)
    && t.id == id && t.name == row.filterName && Some(t.kind) == KindOf(row.filterType)
    && Some(t.action) == ActionOf(env, row)
    && (row.next.None? <==> t.next.None?)
    && (row.next.Some? ==> Describes(env, rows, row.next.value, t.next.value))
    && DescribesBranches(env, rows, row, t)
  }

  ghost predicate DescribesBranches(env: Env, rows: Table, row: Row, t: Tree)
    decreases t, 0
  {
    && (forall tag :: tag in t.branches <==> ChildAt(env, row, tag).Some?)
    && forall tag | tag in t.branches :: ChildAt(env, row, tag).Some? && env.compiles(Pattern(t.kind, tag))
                                      && Describes(env, rows, ChildAt(env, row, tag).value, t.branches[tag])
  }

  ghost predicate HasMeaning(env: Env, rows: Table, id: string) {
    exists t :: Describes(env, rows, id, t)
  }

  /** A stored definition has at most one meaning. */
  lemma {:induction false} MeaningUnique(env: Env, rows: Table, id: string, t: Tree, t': Tree)
    requires Describes(env, rows, id, t) && Describes(env, rows, id, t')
    ensures t == t'
    decreases t
  {
    var row := rows[id];
    if row.next.Some? { MeaningUnique(env, rows, row.next.value, t.next.value, t'.next.value); }
    assert t.branches.Keys == t'.branches.Keys by {
      forall tag ensures tag in t.branches <==> tag in t'.branches {}
    }
    forall tag | tag in t.branches ensures t.branches[tag] == t'.branches[tag] {
      MeaningUnique(env, rows, ChildAt(env, row, tag).value, t.branches[tag], t'.branches[tag]);
    }
    assert t.branches == t'.branches;
  }

  // ---- what a row asks for, in the row's own terms -----------------------------------

  /** The body of the row is a JSON object with these fields. */
  predicate BodyIs(env: Env, row: Row, m: map<string, Value>) {
    row.body.Some? && row.body.value != "" && env.parse(row.body.value) == Object(m)
  }

  predicate SetsAction(m: map<string, Value>) {
    "url" in m && m["url"].Text? && "method" in m && m["method"].Text?
  }

  /** When the hub refuses to create a filter. */
  lemma RefusedIff(env: Env, row: Row)
    ensures !Creatable(env, row) <==>
              || row.filterType !in ["WechatBaseFilter", "WechatMomentFilter", "PlainFilter", "FluentFilter",
                                     "WebTrigger", "KVRouter", "RegexRouter"]
              || (row.filterType == "FluentFilter" && !env.hasFluentTag)
              || (row.body.Some? && row.body.value != "" && env.parse(row.body.value).Malformed?)
              || (row.filterType == "WebTrigger" && exists m :: BodyIs(env, row, m) && !SetsAction(m))
  {
    if Decoded(env, row).Object? { assert BodyIs(env, row, Decoded(env, row).fields); }
  }

  /** The filter that a definition means has the row's id, name and type, the row's next, and what the body
      sets of a WebTrigger. */
  lemma DescribedFilter(env: Env, rows: Table, id: string, t: Tree)
    requires Describes(env, rows, id, t)
    ensures id in rows && t.id == id && t.name == rows[id].filterName
    ensures var kinds := map["WechatBaseFilter" := WechatBase, "WechatMomentFilter" := WechatMoment,
                             "PlainFilter" := Plain, "FluentFilter" := Fluent, "WebTrigger" := WebTrigger,
                             "KVRouter" := KVRouter, "RegexRouter" := RegexRouter];
            rows[id].filterType in kinds && t.kind == kinds[rows[id].filterType]
    ensures rows[id].next == if t.next.Some? then Some(t.next.value.id) else None
    ensures t.kind == WebTrigger ==> forall m | BodyIs(env, rows[id], m) ::
              && "url" in m && m["url"] == Text(t.action.url)
              && "method" in m && m["method"] == Text(t.action.httpMethod)
    ensures t.kind != WebTrigger || (forall m :: !BodyIs(env, rows[id], m)) ==> t.action == WebAction("", "")
  {
    if Decoded(env, rows[id]).Object? { assert BodyIs(env, rows[id], Decoded(env, rows[id]).fields); }
  }

  /** The branches of a KVRouter: one for each text under a key and an expression, with the filter it names. */
  lemma {:induction false} DescribedKVRouter(env: Env, rows: Table, id: string, t: Tree, m: map<string, Value>)
    requires Describes(env, rows, id, t) && rows[id].filterType == "KVRouter" && BodyIs(env, rows[id], m)
    ensures forall key | key in m :: m[key].Obj?
    ensures forall key, value ::
              Tag(key, value) in t.branches <==> key in m && value in m[key].fields && m[key].fields[value].Text?
    ensures forall tag | tag in t.branches ::
              && m[tag.key].fields[tag.value] == Text(t.branches[tag].id) && env.compiles(tag.value)
              && Describes(env, rows, t.branches[tag].id, t.branches[tag])
  {
    assert DescribesBranches(env, rows, rows[id], t) && Decoded(env, rows[id]) == Object(m);
    assert forall tag :: tag in t.branches <==> ChildAt(env, rows[id], tag).Some?;
  }

  /** The branches of a RegexRouter: one for each text under an expression. */
  lemma {:induction false} DescribedRegexRouter(env: Env, rows: Table, id: string, t: Tree, m: map<string, Value>)
    requires Describes(env, rows, id, t) && rows[id].filterType == "RegexRouter" && BodyIs(env, rows[id], m)
    ensures forall key, value :: Tag(key, value) in t.branches <==> value == "" && key in m && m[key].Text?
    ensures forall tag | tag in t.branches ::
              && m[tag.key] == Text(t.branches[tag].id) && env.compiles(tag.key)
              && Describes(env, rows, t.branches[tag].id, t.branches[tag])
  {
    assert DescribesBranches(env, rows, rows[id], t) && Decoded(env, rows[id]) == Object(m);
    assert forall tag :: tag in t.branches <==> ChildAt(env, rows[id], tag).Some?;
  }

  /** Other filters, and routers without an object for a body, have none; a KVRouter's body is an object or empty. */
  lemma {:induction false} DescribedWithout(env: Env, rows: Table, id: string, t: Tree)
    requires Describes(env, rows, id, t)
    requires (t.kind != KVRouter && t.kind != RegexRouter) || forall m :: !BodyIs(env, rows[id], m)
    ensures t.branches == map[]
    ensures t.kind == KVRouter ==> rows[id].body == None || rows[id].body == Some("")
  {
    assert DescribesBranches(env, rows, rows[id], t);
    if Decoded(env, rows[id]).Object? { assert BodyIs(env, rows[id], Decoded(env, rows[id]).fields); }
    assert forall tag :: tag in t.branches <==> ChildAt(env, rows[id], tag).Some?;
  }

  /** The row alone can be built: the hub creates it, and a KVRouter's body is empty or an object of objects. */
  predicate RowUsable(env: Env, row: Row) {
    && row.filterType in ["WechatBaseFilter", "WechatMomentFilter", "PlainFilter", "FluentFilter", "WebTrigger",
                          "KVRouter", "RegexRouter"]
    && (row.filterType == "FluentFilter" ==> env.hasFluentTag)
    && (row.body.Some? && row.body.value != "" ==>
          match env.parse(row.body.value)
          case Malformed => false
          case Null => row.filterType != "KVRouter"
          case Object(m) =>
            && (row.filterType == "WebTrigger" ==> SetsAction(m))
            && (row.filterType == "KVRouter" ==> forall key | key in m :: m[key].Obj?))
  }

  /** The body hangs the filter of this id on a branch, for an expression. */
  predicate Hangs(env: Env, row: Row, expression: string, child: string) {
    && row.body.Some? && row.body.value != "" && env.parse(row.body.value).Object?
    && var m := env.parse(row.body.value).fields;
    || (row.filterType == "RegexRouter" && expression in m && m[expression] == Text(child))
    || (row.filterType == "KVRouter"
        && exists key | key in m ::
             m[key].Obj? && expression in m[key].fields && m[key].fields[expression] == Text(child))
  }

  lemma RowUsableIff(env: Env, row: Row)
    ensures RowUsable(env, row) <==> Creatable(env, row) && RouterBodyUsable(env, row)
  {
  }

  lemma HangsIff(env: Env, row: Row, tag: Tag, child: string)
    requires RowUsable(env, row) && ChildAt(env, row, tag) == Some(child)
    ensures row.filterType == "KVRouter" || row.filterType == "RegexRouter"
    ensures Hangs(env, row, if row.filterType == "KVRouter" then tag.value else tag.key, child)
    ensures KindOf(row.filterType).Some? && Pattern(KindOf(row.filterType).value, tag)
                                            == if row.filterType == "KVRouter" then tag.value else tag.key
  {
  }

  lemma HungAt(env: Env, row: Row, expression: string, child: string) returns (tag: Tag)
    requires RowUsable(env, row) && Hangs(env, row, expression, child)
    ensures ChildAt(env, row, tag) == Some(child)
    ensures KindOf(row.filterType).Some? && Pattern(KindOf(row.filterType).value, tag) == expression
  {
    var m := env.parse(row.body.value).fields;
    if row.filterType == "RegexRouter" {
      tag := Tag(expression, "");
    } else {
      var key :| key in m && m[key].Obj? && expression in m[key].fields && m[key].fields[expression] == Text(child);
      tag := Tag(key, expression);
    }
  }

  /** The tags of a row's branches. */
  function TagsOf(env: Env, row: Row): (tags: set<Tag>)
    ensures forall tag :: tag in tags <==> ChildAt(env, row, tag).Some?
  {
    match Decoded(env, row)
    case Object(m) =>
      (set key, value | key in m && m[key].Obj? && value in m[key].fields && ChildAt(env, row, Tag(key, value)).Some? ::
         Tag(key, value))
      + set key | key in m && ChildAt(env, row, Tag(key, "")).Some? :: Tag(key, "")
    case _ => {}
  }

  /**
   Which definitions mean something: the row can be built, what it hangs on its branches, under expressions that
   compile, means something, and so does its next.
   */
  lemma {:induction false} MeaningIff(env: Env, rows: Table, id: string)
    ensures HasMeaning(env, rows, id) <==>
              && id in rows && RowUsable(env, rows[id])
              && (rows[id].next.Some? ==> HasMeaning(env, rows, rows[id].next.value))
              && forall expression, child | Hangs(env, rows[id], expression, child) ::
                   env.compiles(expression) && HasMeaning(env, rows, child)
  {
    if id in rows {
      RowUsableIff(env, rows[id]);
      if HasMeaning(env, rows, id) { MeaningParts(env, rows, id); }
      if && RowUsable(env, rows[id]) && (rows[id].next.Some? ==> HasMeaning(env, rows, rows[id].next.value))
         && forall expression, child | Hangs(env, rows[id], expression, child) ::
              env.compiles(expression) && HasMeaning(env, rows, child)
      {
        PartsMean(env, rows, id);
      }
    }
  }

  lemma {:induction false} MeaningParts(env: Env, rows: Table, id: string)
    requires HasMeaning(env, rows, id)
    ensures id in rows && RowUsable(env, rows[id])
    ensures rows[id].next.Some? ==> HasMeaning(env, rows, rows[id].next.value)
    ensures forall expression, child | Hangs(env, rows[id], expression, child) ::
              env.compiles(expression) && HasMeaning(env, rows, child)
  {
    var t :| Describes(env, rows, id, t);
    var row := rows[id];
    RowUsableIff(env, row);
    assert row.next.Some? ==> Describes(env, rows, row.next.value, t.next.value);
    assert DescribesBranches(env, rows, row, t);
    forall expression, child | Hangs(env, row, expression, child)
      ensures env.compiles(expression) && HasMeaning(env, rows, child)
    {
      var tag := HungAt(env, row, expression, child);
      assert tag in t.branches && Describes(env, rows, child, t.branches[tag]);
    }
  }

  lemma {:induction false} PartsMean(env: Env, rows: Table, id: string)
    requires id in rows && RowUsable(env, rows[id])
    requires rows[id].next.Some? ==> HasMeaning(env, rows, rows[id].next.value)
    requires forall expression, child | Hangs(env, rows[id], expression, child) ::
               env.compiles(expression) && HasMeaning(env, rows, child)
    ensures HasMeaning(env, rows, id)
  {
    var row := rows[id];
    RowUsableIff(env, row);
    var next := None;
    if row.next.Some? {
      var n :| Describes(env, rows, row.next.value, n);
      next := Some(n);
    }
    forall tag | tag in TagsOf(env, row)
      ensures env.compiles(Pattern(KindOf(row.filterType).value, tag))
      ensures HasMeaning(env, rows, ChildAt(env, row, tag).value)
    {
      HangsIff(env, row, tag, ChildAt(env, row, tag).value);
    }
    var branches := map tag | tag in TagsOf(env, row) ::
                      var b :| Describes(env, rows, ChildAt(env, row, tag).value, b); b;
    var t := Tree(id, row.filterName, KindOf(row.filterType).value, ActionOf(env, row).value, next, branches);
    assert DescribesBranches(env, rows, row, t);
    assert Describes(env, rows, id, t);
  }

  /** The definition of row refers to the definition of id. */
  ghost predicate Refers(env: Env, row: Row, id: string) {
    row.next == Some(id) || exists tag :: ChildAt(env, row, tag) == Some(id)
  }

  /**
   height drops along every reference of the definitions that root leads to; it is 0 for all ids but
   theirs. FilterGraph shows that there is such a height exactly if root leads to no cycle.
   */
  ghost predicate Ranked(env: Env, rows: Table, height: string -> nat, root: string) {
    && (root in rows ==> height(root) > 0)
    && forall id, ref | id in rows && height(id) > 0 && Refers(env, rows[id], ref) ::
         height(ref) < height(id) && (ref in rows ==> height(ref) > 0)
  }

  // ---- the hub's registry ------------------------------------------------------------

  datatype Reply = Accepted | Refused | Crashed

  /** o has the fields a freshly created filter for this row gets. */
  predicate MadeFor(env: Env, row: Row, o: FilterNode) {
    && o.id == row.filterId && o.name == row.filterName
    && Some(o.kind) == KindOf(row.filterType) && Some(o.action) == ActionOf(env, row)
  }

  /** The part of ChatHub that keeps filters by id. */
  class FilterRegistry {
    const env: Env
    var filters: map<string, FilterNode>

    constructor (env: Env)
      ensures this.env == env && filters == map[]
    {
      this.env, filters := env, map[];
    }

    method SetFilter(filterId: string, thefilter: FilterNode)
      modifies this
      ensures filters == old(filters)[filterId := thefilter]
    {
      filters := filters[filterId := thefilter];
    }

    method GetFilter(filterId: string) returns (f: FilterNode?)
      ensures if filterId in filters then f == filters[filterId] else f == null
    {
      f := if filterId in filters then filters[filterId] else null;
    }

    /** FilterCreate: a new object replaces whatever the id stood for. */
    method FilterCreate(row: Row) returns (reply: Reply)
      modifies this
      ensures reply == if Creatable(env, row) then Accepted else Refused
      ensures reply.Refused? ==> filters == old(filters)
      ensures reply.Accepted? ==>
                && row.filterId in filters && fresh(filters[row.filterId])
                && filters == old(filters)[row.filterId := filters[row.filterId]]
                && MadeFor(env, row, filters[row.filterId])
                && filters[row.filterId].next == null && filters[row.filterId].branches == map[]
    {
      var kind := KindOf(row.filterType);
      if kind.None? || (kind.value == Fluent && !env.hasFluentTag) {
        return Refused;
      }
      var body := Decoded(env, row);
      if body.Malformed? {
        return Refused;
      }
      var action := ActionOf(env, row);
      if action.None? {
        return Refused;
      }
      var filter := new FilterNode(row.filterId, row.filterName, kind.value, action.value);
      SetFilter(row.filterId, filter);
      reply := Accepted;
    }

    /** FilterNext: every filter type's Next accepts. */
    method FilterNext(filterId: string, nextFilterId: string) returns (reply: Reply)
      modifies (if filterId in filters then {filters[filterId]} else {})`next
      ensures reply == if filterId in filters && nextFilterId in filters then Accepted else Refused
      ensures reply.Accepted? ==> filters[filterId].next == filters[nextFilterId]
      ensures reply.Refused? && filterId in filters ==> unchanged(filters[filterId])
    {
      var parent := GetFilter(filterId);
      if parent == null {
        return Refused;
      }
      var nextFilter := GetFilter(nextFilterId);
      if nextFilter == null {
        return Refused;
      }
      parent.next := nextFilter;
      reply := Accepted;
    }

    /** RouterBranch: Branch panics on an expression that does not compile. */
    method RouterBranch(routerId: string, tag: Tag, filterId: string) returns (reply: Reply)
      modifies (if routerId in filters then {filters[routerId]} else {})`branches
      ensures reply ==
              if routerId !in filters || filterId !in filters
                 || (filters[routerId].kind != KVRouter && filters[routerId].kind != RegexRouter) then Refused
              else if env.compiles(Pattern(filters[routerId].kind, tag)) then Accepted
              else Crashed
      ensures routerId in filters ==>
                filters[routerId].branches == if reply.Accepted?
                                              then old(filters[routerId].branches)[tag := filters[filterId]]
                                              else old(filters[routerId].branches)
    {
      var parent := GetFilter(routerId);
      if parent == null {
        return Refused;
      }
      var child := GetFilter(filterId);
      if child == null {
        return Refused;
      }
      if parent.kind != KVRouter && parent.kind != RegexRouter {
        return Refused;
      }
      if !env.compiles(Pattern(parent.kind, tag)) {
        return Crashed;
      }
      parent.branches := parent.branches[tag := child];
      reply := Accepted;
    }
  }

  // ---- the web server's builder ------------------------------------------------------

  /** How a build ends: done; refused by the hub or by a check; the hub panicked; a call or a read failed. */
  datatype BuildResult = Built | Rejected | HubCrashed | Unreachable

  /** The registry entries stay of ids outside the graph of the build, and of those in it higher than bound. */
  ghost predicate KeepsAbove(before: map<string, FilterNode>, after: map<string, FilterNode>,
                             height: string -> nat, bound: int)
  {
    forall k | height(k) == 0 || height(k) > bound ::
      (k in after <==> k in before) && (k in after ==> after[k] == before[k])
  }

  /** Some branches of the stored row, built: they mean what it says. */
  ghost predicate BranchesSoFar(env: Env, rows: Table, row: Row, branches: map<Tag, FilterNode>,
                                trees: map<Tag, Tree>, S: set<FilterNode>)
    reads S
  {
    && branches.Keys == trees.Keys
    && forall tag | tag in trees :: BranchBuilt(env, rows, row, tag, branches[tag], trees[tag], S)
  }

  ghost predicate BranchBuilt(env: Env, rows: Table, row: Row, tag: Tag, child: FilterNode, t: Tree, S: set<FilterNode>)
    reads S
  {
    && KindOf(row.filterType).Some? && ChildAt(env, row, tag).Some?
    && env.compiles(Pattern(KindOf(row.filterType).value, tag))
    && Describes(env, rows, ChildAt(env, row, tag).value, t)
    && Unfolds(child, t, S)
  }

  lemma BranchesNone(env: Env, rows: Table, row: Row)
    ensures BranchesSoFar(env, rows, row, map[], map[], {})
  {
  }

  lemma BranchesInLarger(env: Env, rows: Table, row: Row, branches: map<Tag, FilterNode>, trees: map<Tag, Tree>,
                         S: set<FilterNode>, S': set<FilterNode>)
    requires BranchesSoFar(env, rows, row, branches, trees, S) && S <= S'
    ensures BranchesSoFar(env, rows, row, branches, trees, S')
  {
    forall tag | tag in trees ensures Unfolds(branches[tag], trees[tag], S') {
      UnfoldsInLarger(branches[tag], trees[tag], S, S');
    }
  }

  lemma BranchAdded(env: Env, rows: Table, row: Row, branches: map<Tag, FilterNode>, trees: map<Tag, Tree>,
                    S: set<FilterNode>, tag: Tag, child: FilterNode, t: Tree, kids: set<FilterNode>)
    requires BranchesSoFar(env, rows, row, branches, trees, S)
    requires BranchBuilt(env, rows, row, tag, child, t, kids)
    ensures BranchesSoFar(env, rows, row, branches[tag := child], trees[tag := t], S + kids)
  {
    BranchesInLarger(env, rows, row, branches, trees, S, S + kids);
    UnfoldsInLarger(child, t, kids, S + kids);
    assert branches[tag := child].Keys == branches.Keys + {tag};
  }

  /** A definition with a meaning has meaningful, compilable branches. */
  lemma MeaningOfChild(env: Env, rows: Table, id: string, tag: Tag)
    requires HasMeaning(env, rows, id)
    requires id in rows && ChildAt(env, rows[id], tag).Some?
    ensures HasMeaning(env, rows, ChildAt(env, rows[id], tag).value)
    ensures env.compiles(Pattern(KindOf(rows[id].filterType).value, tag))
  {
    var t :| Describes(env, rows, id, t);
    assert DescribesBranches(env, rows, rows[id], t);
  }

  /** One branch of a router: build the child, then hang it on the router. */
  method CreateBranch(reg: FilterRegistry, rows: Table, id: string, tag: Tag, childFilterId: string,
                      n: FilterNode, reliable: bool, ghost height: string -> nat)
    returns (res: BuildResult, ghost child: FilterNode, ghost t: Tree, ghost kids: set<FilterNode>)
    requires Keyed(rows) && Ranked(reg.env, rows, height, id)
    requires id in rows && id in reg.filters && reg.filters[id] == n
    requires Some(n.kind) == KindOf(rows[id].filterType)
    requires ChildAt(reg.env, rows[id], tag) == Some(childFilterId)
    modifies reg, n`branches
    ensures fresh(kids) && KeepsAbove(old(reg.filters), reg.filters, height, height(id) - 1)
    ensures n.branches == old(n.branches) || n.branches == old(n.branches)[tag := child]
    ensures res.Built? ==> && n.branches == old(n.branches)[tag := child]
                           && BranchBuilt(reg.env, rows, rows[id], tag, child, t, kids)
    ensures res.Rejected? || res.HubCrashed? ==> !HasMeaning(reg.env, rows, id)
    ensures reliable ==> !res.Unreachable?
    decreases height(id), 0
  {
    assert Refers(reg.env, rows[id], childFilterId);
    res, t, kids := CreateFilterChain(reg, rows, childFilterId, reliable, height);
    child := n;
    if !res.Built? {
      if HasMeaning(reg.env, rows, id) { MeaningOfChild(reg.env, rows, id, tag); }
      return;
    }
    child := reg.filters[childFilterId];
    var delivered: bool :| reliable ==> delivered;
    if !delivered {
      res := Unreachable;
      return;
    }
    var reply := reg.RouterBranch(id, tag, childFilterId);
    if reply != Accepted {
      if HasMeaning(reg.env, rows, id) { MeaningOfChild(reg.env, rows, id, tag); }
      res := if reply.Crashed? then HubCrashed else Rejected;
      return;
    }
    var answered: bool :| reliable ==> answered;
    res := if answered then Built else Unreachable;
  }

  /** CreateBranch as a step of a router's loop: trees and S grow with the router's branches. */
  method ExtendBranches(reg: FilterRegistry, rows: Table, id: string, tag: Tag, childFilterId: string,
                        n: FilterNode, ghost trees: map<Tag, Tree>, ghost S: set<FilterNode>,
                        reliable: bool, ghost height: string -> nat)
    returns (res: BuildResult, ghost trees': map<Tag, Tree>, ghost S': set<FilterNode>)
    requires Keyed(rows) && Ranked(reg.env, rows, height, id)
    requires id in rows && id in reg.filters && reg.filters[id] == n && n !in S
    requires Some(n.kind) == KindOf(rows[id].filterType)
    requires ChildAt(reg.env, rows[id], tag) == Some(childFilterId)
    requires BranchesSoFar(reg.env, rows, rows[id], n.branches, trees, S)
    modifies reg, n`branches
    ensures S <= S' && fresh(S' - S) && KeepsAbove(old(reg.filters), reg.filters, height, height(id) - 1)
    ensures res.Built? ==> && trees'.Keys == trees.Keys + {tag}
                           && BranchesSoFar(reg.env, rows, rows[id], n.branches, trees', S')
    ensures res.Rejected? || res.HubCrashed? ==> !HasMeaning(reg.env, rows, id)
    ensures reliable ==> !res.Unreachable?
    decreases height(id), 1
  {
    hide HasMeaning, Ranked, BranchesSoFar, BranchBuilt;
    ghost var before := n.branches;
    ghost var child, t, kids;
    res, child, t, kids := CreateBranch(reg, rows, id, tag, childFilterId, n, reliable, height);
    trees', S' := trees, S;
    if res == Built {
      BranchAdded(reg.env, rows, rows[id], before, trees, S, tag, child, t, kids);
      trees', S' := trees[tag := t], S + kids;
    }
  }

  /** tags are the row's branches outside todo; of those at key, the ones outside values. */
  ghost predicate Covers(env: Env, row: Row, todo: set<string>, key: string, values: set<string>, tags: set<Tag>) {
    forall tag :: tag in tags <==>
      ChildAt(env, row, tag).Some? && tag.key !in todo && (tag.key == key ==> tag.value !in values)
  }

  lemma CoversValue(env: Env, row: Row, bodym: map<string, Value>, todo: set<string>, key: string,
                    values: set<string>, value: string, tags: set<Tag>)
    requires KindOf(row.filterType) == Some(KVRouter) && Decoded(env, row) == Object(bodym)
    requires key in bodym && bodym[key].Obj? && key !in todo && value in bodym[key].fields
    requires Covers(env, row, todo, key, values, tags)
    ensures Covers(env, row, todo, key, values - {value},
                   if bodym[key].fields[value].Text? then tags + {Tag(key, value)} else tags)
  {
    assert ChildAt(env, row, Tag(key, value)).Some? == bodym[key].fields[value].Text?;
  }

  lemma CoversKey(env: Env, row: Row, bodym: map<string, Value>, todo: set<string>, regstr: string, tags: set<Tag>)
    requires KindOf(row.filterType) == Some(RegexRouter) && Decoded(env, row) == Object(bodym)
    requires regstr in bodym
    requires Covers(env, row, todo, "", {}, tags)
    ensures Covers(env, row, todo - {regstr}, "", {},
                   if bodym[regstr].Text? then tags + {Tag(regstr, "")} else tags)
  {
    assert ChildAt(env, row, Tag(regstr, "")).Some? == bodym[regstr].Text?;
    assert forall tag: Tag | tag.value != "" :: ChildAt(env, row, tag).None?;
  }

  /** The children of a KVRouter, key by key in map order. */
  method CreateKVBranches(reg: FilterRegistry, rows: Table, id: string, n: FilterNode, bodym: map<string, Value>,
                          reliable: bool, ghost height: string -> nat)
    returns (res: BuildResult, ghost trees: map<Tag, Tree>, ghost S: set<FilterNode>)
    requires Keyed(rows) && Ranked(reg.env, rows, height, id)
    requires id in rows && id in reg.filters && reg.filters[id] == n && n.branches == map[]
    requires n.kind == KVRouter && KindOf(rows[id].filterType) == Some(KVRouter)
    requires BodyText(rows[id]) != "" && Decoded(reg.env, rows[id]) == Object(bodym)
    modifies reg, n`branches
    ensures fresh(S) && KeepsAbove(old(reg.filters), reg.filters, height, height(id) - 1)
    ensures res.Built? ==> && RouterBodyUsable(reg.env, rows[id])
                           && BranchesSoFar(reg.env, rows, rows[id], n.branches, trees, S)
                           && Covers(reg.env, rows[id], {}, "", {}, trees.Keys)
    ensures res.Rejected? || res.HubCrashed? ==> !HasMeaning(reg.env, rows, id)
    ensures reliable ==> !res.Unreachable?
    decreases height(id), 3
  {
    hide Ranked, BranchBuilt;
    trees, S := map[], {};
    var todo := bodym.Keys;
    while todo != {}
      invariant todo <= bodym.Keys && fresh(S) && KeepsAbove(old(reg.filters), reg.filters, height, height(id) - 1)
      invariant forall key | key in bodym && key !in todo :: bodym[key].Obj?
      invariant BranchesSoFar(reg.env, rows, rows[id], n.branches, trees, S)
      invariant Covers(reg.env, rows[id], todo, "", {}, trees.Keys)
    {
      var key :| key in todo;
      if !bodym[key].Obj? {
        return Rejected, trees, S;
      }
      res, trees, S := CreateKeyBranches(reg, rows, id, n, bodym, key, todo - {key}, trees, S, reliable, height);
      if res != Built {
        return;
      }
      todo := todo - {key};
    }
    res := Built;
  }

  /** The children of a KVRouter at one key. */
  method CreateKeyBranches(reg: FilterRegistry, rows: Table, id: string, n: FilterNode, bodym: map<string, Value>,
                           key: string, ghost todo: set<string>, ghost trees0: map<Tag, Tree>,
                           ghost S0: set<FilterNode>, reliable: bool, ghost height: string -> nat)
    returns (res: BuildResult, ghost trees: map<Tag, Tree>, ghost S: set<FilterNode>)
    requires Keyed(rows) && Ranked(reg.env, rows, height, id)
    requires id in rows && id in reg.filters && reg.filters[id] == n && n !in S0
    requires n.kind == KVRouter && KindOf(rows[id].filterType) == Some(KVRouter)
    requires Decoded(reg.env, rows[id]) == Object(bodym) && key in bodym && bodym[key].Obj? && key !in todo
    requires BranchesSoFar(reg.env, rows, rows[id], n.branches, trees0, S0)
    requires Covers(reg.env, rows[id], todo + {key}, "", {}, trees0.Keys)
    modifies reg, n`branches
    ensures S0 <= S && fresh(S - S0) && KeepsAbove(old(reg.filters), reg.filters, height, height(id) - 1)
    ensures res.Built? ==> && BranchesSoFar(reg.env, rows, rows[id], n.branches, trees, S)
                           && Covers(reg.env, rows[id], todo, "", {}, trees.Keys)
    ensures res.Rejected? || res.HubCrashed? ==> !HasMeaning(reg.env, rows, id)
    ensures reliable ==> !res.Unreachable?
    decreases height(id), 2
  {
    hide HasMeaning, Ranked, BranchesSoFar, BranchBuilt;
    trees, S := trees0, S0;
    var vm := bodym[key].fields;
    var values := vm.Keys;
    while values != {}
      invariant values <= vm.Keys && S0 <= S && fresh(S - S0)
      invariant KeepsAbove(old(reg.filters), reg.filters, height, height(id) - 1)
      invariant BranchesSoFar(reg.env, rows, rows[id], n.branches, trees, S)
      invariant Covers(reg.env, rows[id], todo, key, values, trees.Keys)
    {
      var value :| value in values;
      CoversValue(reg.env, rows[id], bodym, todo, key, values, value, trees.Keys);
      if vm[value].Text? {
        res, trees, S := ExtendBranches(reg, rows, id, Tag(key, value), vm[value].text, n, trees, S, reliable, height);
        if res != Built {
          return;
        }
      }
      values := values - {value};
    }
    res := Built;
  }

  /** The children of a RegexRouter, in map order. */
  method CreateRegexBranches(reg: FilterRegistry, rows: Table, id: string, n: FilterNode, bodym: map<string, Value>,
                             reliable: bool, ghost height: string -> nat)
    returns (res: BuildResult, ghost trees: map<Tag, Tree>, ghost S: set<FilterNode>)
    requires Keyed(rows) && Ranked(reg.env, rows, height, id)
    requires id in rows && id in reg.filters && reg.filters[id] == n && n.branches == map[]
    requires n.kind == RegexRouter && KindOf(rows[id].filterType) == Some(RegexRouter)
    requires Decoded(reg.env, rows[id]) == Object(bodym)
    modifies reg, n`branches
    ensures fresh(S) && KeepsAbove(old(reg.filters), reg.filters, height, height(id) - 1)
    ensures res.Built? ==> && BranchesSoFar(reg.env, rows, rows[id], n.branches, trees, S)
                           && Covers(reg.env, rows[id], {}, "", {}, trees.Keys)
    ensures res.Rejected? || res.HubCrashed? ==> !HasMeaning(reg.env, rows, id)
    ensures reliable ==> !res.Unreachable?
    decreases height(id), 3
  {
    hide HasMeaning, Ranked, BranchesSoFar, BranchBuilt;
    BranchesNone(reg.env, rows, rows[id]);
    trees, S := map[], {};
    var todo := bodym.Keys;
    while todo != {}
      invariant todo <= bodym.Keys && fresh(S) && KeepsAbove(old(reg.filters), reg.filters, height, height(id) - 1)
      invariant BranchesSoFar(reg.env, rows, rows[id], n.branches, trees, S)
      invariant Covers(reg.env, rows[id], todo, "", {}, trees.Keys)
    {
      var regstr :| regstr in todo;
      CoversKey(reg.env, rows[id], bodym, todo, regstr, trees.Keys);
      if bodym[regstr].Text? {
        res, trees, S :=
          ExtendBranches(reg, rows, id, Tag(regstr, ""), bodym[regstr].text, n, trees, S, reliable, height);
        if res != Built {
          return;
        }
      }
      todo := todo - {regstr};
    }
    res := Built;
  }

  /** A filter of a chain: its row's id, its object, and its branches with their objects. */
  datatype Link = Link(id: string, node: FilterNode, trees: map<Tag, Tree>, kids: set<FilterNode>)

  /** The object is what the row asks for, complete but for its next. */
  ghost predicate LinkBuilt(env: Env, rows: Table, l: Link)
    reads l.node`branches, l.kids
  {
    && l.id in rows
    && var row := rows[l.id];
    && Creatable(env, row) && RouterBodyUsable(env, row) && MadeFor(env, row, l.node)
    && l.node !in l.kids
    && BranchesSoFar(env, rows, row, l.node.branches, l.trees, l.kids)
    && Covers(env, row, {}, "", {}, l.trees.Keys)
  }

  /** One filter: its object under its id, children first built and hung on it. */
  method CreateNode(reg: FilterRegistry, rows: Table, id: string, reliable: bool, ghost height: string -> nat)
    returns (res: BuildResult, ghost l: Option<Link>)
    requires Keyed(rows) && Ranked(reg.env, rows, height, id) && id in rows
    modifies reg
    ensures KeepsAbove(old(reg.filters), reg.filters, height, height(id))
    ensures res.Built? ==> && id in reg.filters && l.Some? && l.value.id == id && l.value.node == reg.filters[id]
                           && fresh(l.value.node) && fresh(l.value.kids)
                           && l.value.node.next == null && LinkBuilt(reg.env, rows, l.value)
    ensures res.Rejected? || res.HubCrashed? ==> !HasMeaning(reg.env, rows, id)
    ensures reliable ==> !res.Unreachable?
    decreases height(id), 4
  {
    l := None;
    var row := rows[id];
    var delivered, answered: bool :| reliable ==> delivered && answered;
    if !delivered {
      return Unreachable, l;
    }
    var reply := reg.FilterCreate(row);
    if !answered {
      return Unreachable, l;
    }
    if reply.Refused? {
      return Rejected, l;
    }
    var n := reg.filters[id];
    ghost var trees: map<Tag, Tree>, kids: set<FilterNode> := map[], {};
    res := Built;
    if BodyText(row) != "" {
      var bodym := Decoded(reg.env, row);
      if n.kind == KVRouter {
        if bodym.Null? {
          return Rejected, l;
        }
        res, trees, kids := CreateKVBranches(reg, rows, id, n, bodym.fields, reliable, height);
      } else if n.kind == RegexRouter && bodym.Object? {
        res, trees, kids := CreateRegexBranches(reg, rows, id, n, bodym.fields, reliable, height);
      }
    }
    l := Some(Link(id, n, trees, kids));
  }

  ghost predicate Distinct(chain: seq<Link>) {
    forall i, j | 0 <= i < j < |chain| :: chain[i].node != chain[j].node
  }

  /** The links are built, from objects of N with objects of K below their branches. */
  ghost predicate LinksBuilt(env: Env, rows: Table, chain: seq<Link>, N: set<FilterNode>, K: set<FilterNode>)
    reads N`branches, K
  {
    forall l | l in chain :: l.node in N && l.kids <= K && LinkBuilt(env, rows, l)
  }

  lemma LinksAdd(env: Env, rows: Table, chain: seq<Link>, N: set<FilterNode>, K: set<FilterNode>, l: Link)
    requires LinksBuilt(env, rows, chain, N, K) && LinkBuilt(env, rows, l)
    requires l.node !in N && Distinct(chain)
    ensures LinksBuilt(env, rows, chain + [l], N + {l.node}, K + l.kids) && Distinct(chain + [l])
  {
    assert forall m | m in chain :: m.node in N;
  }

  /** Each link but the last is followed by its successor, in the heap and in the rows. */
  ghost predicate Linked(rows: Table, chain: seq<Link>, N: set<FilterNode>)
    reads N`next
  {
    forall i | 0 <= i < |chain| - 1 :: chain[i].node in N && LinkedTo(rows, chain[i], chain[i + 1])
  }

  ghost predicate LinkedTo(rows: Table, l: Link, m: Link)
    reads l.node`next
  {
    l.node.next == m.node && l.id in rows && rows[l.id].next == Some(m.id)
  }

  /** A finished chain unfolds, from each of its filters on, to what the rows describe. */
  lemma {:induction false} ChainUnfolds(env: Env, rows: Table, chain: seq<Link>,
                                         N: set<FilterNode>, K: set<FilterNode>, i: nat) returns (t: Tree)
    requires Keyed(rows) && LinksBuilt(env, rows, chain, N, K) && Linked(rows, chain, N) && i < |chain|
    requires chain[|chain| - 1].node.next == null && rows[chain[|chain| - 1].id].next == None
    ensures Unfolds(chain[i].node, t, N + K) && Describes(env, rows, chain[i].id, t)
    decreases |chain| - i
  {
    var l := chain[i];
    var next := None;
    if i < |chain| - 1 {
      assert LinkedTo(rows, l, chain[i + 1]);
      var rest := ChainUnfolds(env, rows, chain, N, K, i + 1);
      next := Some(rest);
    }
    BranchesInLarger(env, rows, rows[l.id], l.node.branches, l.trees, l.kids, N + K);
    t := Tree(l.id, l.node.name, l.node.kind, l.node.action, next, l.trees);
    assert DescribesBranches(env, rows, rows[l.id], t);
  }

  lemma MeaningOfNext(env: Env, rows: Table, id: string)
    requires HasMeaning(env, rows, id) && id in rows && rows[id].next.Some?
    ensures HasMeaning(env, rows, rows[id].next.value)
  {
    var t :| Describes(env, rows, id, t);
    assert Describes(env, rows, rows[id].next.value, t.next.value);
  }

  /** FilterNext as a step of the chain loop: the new link follows the last one. */
  method AppendLink(reg: FilterRegistry, rows: Table, lastFilterId: string, id: string, reliable: bool,
                    ghost chain: seq<Link>, ghost N: set<FilterNode>, ghost l: Link)
    returns (res: BuildResult)
    requires Linked(rows, chain, N) && Distinct(chain)
    requires chain != [] ==> chain[|chain| - 1].node in N
    requires id in reg.filters && reg.filters[id] == l.node && l.id == id && l.node !in N
    requires if chain == [] then lastFilterId == ""
             else && lastFilterId != "" && lastFilterId == chain[|chain| - 1].id && lastFilterId in reg.filters
                  && reg.filters[lastFilterId] == chain[|chain| - 1].node
                  && lastFilterId in rows && rows[lastFilterId].next == Some(id)
    modifies (if chain == [] then {} else {chain[|chain| - 1].node})`next
    ensures res.Built? || res.Unreachable?
    ensures res.Built? ==> Linked(rows, chain + [l], N + {l.node})
    ensures reliable ==> !res.Unreachable?
  {
    if lastFilterId != "" {
      var delivered, answered: bool :| reliable ==> delivered && answered;
      if !delivered {
        return Unreachable;
      }
      var reply := reg.FilterNext(lastFilterId, id);
      if !answered {
        return Unreachable;
      }
      ghost var n := |chain|;
      forall i | 0 <= i < n ensures LinkedTo(rows, (chain + [l])[i], (chain + [l])[i + 1]) {
        if i < n - 1 { assert LinkedTo(rows, chain[i], chain[i + 1]); }
      }
    }
    res := Built;
  }

  /** lastFilterId names the last link, which currentFilterId is to follow. */
  ghost predicate AtEnd(reg: FilterRegistry, rows: Table, filterId: string, lastFilterId: string,
                        currentFilterId: string, chain: seq<Link>)
    reads reg
  {
    if chain == [] then lastFilterId == "" && currentFilterId == filterId
    else
      && lastFilterId != "" && lastFilterId == chain[|chain| - 1].id && lastFilterId in reg.filters
      && reg.filters[lastFilterId] == chain[|chain| - 1].node
      && lastFilterId in rows && rows[lastFilterId].next == Some(currentFilterId)
      && filterId in reg.filters && reg.filters[filterId] == chain[0].node && chain[0].id == filterId
  }

  /** One turn of the chain loop: a new link, linked behind the others. */
  method ChainStep(reg: FilterRegistry, rows: Table, filterId: string, lastFilterId: string, currentFilterId: string,
                   ghost chain: seq<Link>, ghost N: set<FilterNode>, ghost K: set<FilterNode>,
                    reliable: bool, ghost height: string -> nat)
    returns (res: BuildResult, ghost l: Option<Link>)
    requires Keyed(rows) && Ranked(reg.env, rows, height, currentFilterId) && currentFilterId in rows
    requires AtEnd(reg, rows, filterId, lastFilterId, currentFilterId, chain)
    requires chain != [] ==> height(currentFilterId) < height(lastFilterId) <= height(filterId)
    requires LinksBuilt(reg.env, rows, chain, N, K) && Linked(rows, chain, N) && Distinct(chain) && N !! K
    modifies reg, N`next
    ensures KeepsAbove(old(reg.filters), reg.filters, height, height(currentFilterId))
    ensures res.Built? ==> && l.Some? && fresh(l.value.node) && fresh(l.value.kids)
                           && l.value.id == currentFilterId && l.value.node.next == null
                           && LinkBuilt(reg.env, rows, l.value)
                           && Linked(rows, chain + [l.value], N + {l.value.node})
                           && currentFilterId in reg.filters && reg.filters[currentFilterId] == l.value.node
    ensures res.Rejected? || res.HubCrashed? ==> !HasMeaning(reg.env, rows, currentFilterId)
    ensures reliable ==> !res.Unreachable?
    decreases height(currentFilterId), 5
  {
    hide HasMeaning, LinkBuilt;
    res, l := CreateNode(reg, rows, currentFilterId, reliable, height);
    if res != Built {
      return;
    }
    assert chain != [] ==> chain[|chain| - 1] in chain;
    assert LinkBuilt(reg.env, rows, l.value);
    res := AppendLink(reg, rows, lastFilterId, currentFilterId, reliable, chain, N, l.value);
  }

  /** The chain so far: filterId's object first, currentFilterId's filter to come next. */
  ghost predicate ChainSoFar(reg: FilterRegistry, rows: Table, filterId: string, lastFilterId: string,
                             currentFilterId: string, chain: seq<Link>, N: set<FilterNode>, K: set<FilterNode>)
    reads reg, N, K
  {
    && AtEnd(reg, rows, filterId, lastFilterId, currentFilterId, chain)
    && LinksBuilt(reg.env, rows, chain, N, K) && Linked(rows, chain, N) && Distinct(chain) && N !! K
  }

  /** filterId's chain ends with currentFilterId's filter, which has no next yet. */
  ghost predicate ChainUpTo(reg: FilterRegistry, rows: Table, filterId: string, currentFilterId: string,
                            chain: seq<Link>, N: set<FilterNode>, K: set<FilterNode>)
    reads reg, N, K
  {
    && chain != [] && chain[0].id == filterId && filterId in reg.filters && reg.filters[filterId] == chain[0].node
    && var last := chain[|chain| - 1];
    && last.id == currentFilterId && currentFilterId in reg.filters && reg.filters[currentFilterId] == last.node
    && last.node in N && last.node.next == null
    && LinksBuilt(reg.env, rows, chain, N, K) && Linked(rows, chain, N) && Distinct(chain) && N !! K
  }

  lemma ChainGrown(reg: FilterRegistry, rows: Table, filterId: string, currentFilterId: string,
                   chain: seq<Link>, N: set<FilterNode>, K: set<FilterNode>, l: Link)
    requires LinksBuilt(reg.env, rows, chain, N, K) && Distinct(chain) && N !! K
    requires LinkBuilt(reg.env, rows, l) && Linked(rows, chain + [l], N + {l.node})
    requires l.node !in N + K && N !! l.kids && l.id == currentFilterId && l.node.next == null
    requires currentFilterId in reg.filters && reg.filters[currentFilterId] == l.node
    requires if chain == [] then currentFilterId == filterId
             else filterId in reg.filters && reg.filters[filterId] == chain[0].node && chain[0].id == filterId
    ensures ChainUpTo(reg, rows, filterId, currentFilterId, chain + [l], N + {l.node}, K + l.kids)
  {
    hide LinksBuilt, Linked, Distinct;
    LinksAdd(reg.env, rows, chain, N, K, l);
  }

  method ChainTurn(reg: FilterRegistry, rows: Table, filterId: string, lastFilterId: string, currentFilterId: string,
                   ghost chain0: seq<Link>, ghost N0: set<FilterNode>, ghost K0: set<FilterNode>,
                   reliable: bool, ghost height: string -> nat)
    returns (res: BuildResult, ghost chain: seq<Link>, ghost N: set<FilterNode>, ghost K: set<FilterNode>)
    requires Keyed(rows) && Ranked(reg.env, rows, height, currentFilterId) && currentFilterId in rows
    requires ChainSoFar(reg, rows, filterId, lastFilterId, currentFilterId, chain0, N0, K0)
    requires chain0 != [] ==> height(currentFilterId) < height(lastFilterId) <= height(filterId)
    modifies reg, N0`next
    ensures N0 <= N && K0 <= K && fresh(N - N0) && fresh(K - K0)
    ensures KeepsAbove(old(reg.filters), reg.filters, height, height(currentFilterId))
    ensures res.Built? ==> ChainUpTo(reg, rows, filterId, currentFilterId, chain, N, K)
    ensures res.Rejected? || res.HubCrashed? ==> !HasMeaning(reg.env, rows, currentFilterId)
    ensures reliable ==> !res.Unreachable?
    decreases height(currentFilterId), 6
  {
    hide HasMeaning, LinkBuilt, LinksBuilt, Linked, Distinct;
    ghost var l;
    chain, N, K := chain0, N0, K0;
    res, l := ChainStep(reg, rows, filterId, lastFilterId, currentFilterId, chain0, N0, K0, reliable, height);
    if res == Built {
      ChainGrown(reg, rows, filterId, currentFilterId, chain0, N0, K0, l.value);
      chain, N, K := chain0 + [l.value], N0 + {l.value.node}, K0 + l.value.kids;
    }
  }

  lemma EmptyChain(env: Env, rows: Table)
    ensures LinksBuilt(env, rows, [], {}, {}) && Linked(rows, [], {}) && Distinct([])
  {
  }

  lemma NoRowNoMeaning(env: Env, rows: Table, id: string)
    requires id !in rows
    ensures !HasMeaning(env, rows, id)
  {
  }

  /** The loop of CreateFilterChain: create the filter and its children, link it after the one
      before, go on with the next one. Unless the network is reliable, reading a row may fail, and so
      may calls, on the way to the hub or on the way back. */
  method CreateLinks(reg: FilterRegistry, rows: Table, filterId: string, reliable: bool, ghost height: string -> nat)
    returns (res: BuildResult, ghost last: string, ghost chain: seq<Link>,
             ghost N: set<FilterNode>, ghost K: set<FilterNode>)
    requires Keyed(rows) && Ranked(reg.env, rows, height, filterId)
    modifies reg
    ensures fresh(N) && fresh(K) && KeepsAbove(old(reg.filters), reg.filters, height, height(filterId))
    ensures res.Built? ==> ChainUpTo(reg, rows, filterId, last, chain, N, K) && last in rows && rows[last].next == None
    ensures res.Rejected? || res.HubCrashed? ==> !HasMeaning(reg.env, rows, filterId)
    ensures reliable ==> !res.Unreachable?
    decreases height(filterId), 7
  {
    hide HasMeaning, LinkBuilt, LinksBuilt, Linked;
    chain, N, K := [], {}, {};
    EmptyChain(reg.env, rows);
    var lastFilterId, currentFilterId := "", filterId;
    while true
      invariant fresh(N) && fresh(K) && KeepsAbove(old(reg.filters), reg.filters, height, height(filterId))
      invariant ChainSoFar(reg, rows, filterId, lastFilterId, currentFilterId, chain, N, K)
      invariant if chain == [] then currentFilterId == filterId
                else height(currentFilterId) < height(lastFilterId) <= height(filterId)
      invariant HasMeaning(reg.env, rows, filterId) ==> HasMeaning(reg.env, rows, currentFilterId)
      decreases height(currentFilterId)
    {
      last := currentFilterId;
      var read: bool :| reliable ==> read;
      if !read {
        res := Unreachable;
        return;
      }
      if currentFilterId !in rows {
        NoRowNoMeaning(reg.env, rows, currentFilterId);
        res := Rejected;
        return;
      }
      res, chain, N, K := ChainTurn(reg, rows, filterId, lastFilterId, currentFilterId, chain, N, K, reliable, height);
      if res != Built {
        return;
      }
      var next := rows[currentFilterId].next;
      if next.None? {
        break;
      }
      assert Refers(reg.env, rows[currentFilterId], next.value);
      if HasMeaning(reg.env, rows, currentFilterId) { MeaningOfNext(reg.env, rows, currentFilterId); }
      lastFilterId, currentFilterId := currentFilterId, next.value;
    }
  }

  /** CreateFilterChain. On success the object registered under filterId unfolds to the tree
      the rows describe, out of new objects only. It is refused, or the hub panics, only when
      the rows describe nothing; so on a reliable network it succeeds exactly if they describe
      something. Whatever the result, no older filter object is touched. */
  method CreateFilterChain(reg: FilterRegistry, rows: Table, filterId: string, reliable: bool,
                           ghost height: string -> nat)
    returns (res: BuildResult, ghost t: Tree, ghost S: set<FilterNode>)
    requires Keyed(rows) && Ranked(reg.env, rows, height, filterId)
    modifies reg
    ensures fresh(S)
    ensures KeepsAbove(old(reg.filters), reg.filters, height, height(filterId))
    ensures res.Built? ==> && filterId in reg.filters && Unfolds(reg.filters[filterId], t, S)
                           && Describes(reg.env, rows, filterId, t)
    ensures res.Rejected? || res.HubCrashed? ==> !HasMeaning(reg.env, rows, filterId)
    ensures reliable ==> !res.Unreachable?
    ensures reliable ==> (res.Built? <==> HasMeaning(reg.env, rows, filterId))
    decreases height(filterId), 8
  {
    ghost var last, chain, N, K;
    res, last, chain, N, K := CreateLinks(reg, rows, filterId, reliable, height);
    t, S := Tree("", "", Plain, NO_ACTION, None, map[]), N + K;
    if res == Built {
      t := ChainUnfolds(reg.env, rows, chain, N, K, 0);
    }
  }
}
