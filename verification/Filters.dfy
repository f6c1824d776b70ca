/**
 The filter objects of the chat hub and what filling them delivers,
 server/chatbothub/filter.go.

 A pipeline is a heap of FilterNode objects. Its meaning is the value Tree it unfolds to;
 Yields says what filling a tree may do, and Fill, which walks the heap, is proved against it.
 */
module Filters {
  import opened Wrappers
  import opened JsonPath

  datatype Kind = WechatBase | WechatMoment | Plain | Fluent | WebTrigger | KVRouter | RegexRouter

  /** A branch of a router. RegexRouter tags have the empty value. */
  datatype Tag = Tag(key: string, value: string)

  datatype WebAction = WebAction(url: string, httpMethod: string)

  /** The functions of the libraries around the filters, which the model leaves open. */
  datatype Env = Env(
    parse: string -> Parsed,           // json.Unmarshal into a map
    plain: string -> Option<string>,   // the message PlainFilter passes on; None: needed fields missing
    compiles: string -> bool,          // regexp.Compile succeeds
    matches: (string, string) -> bool, // (pattern, text): MatchString
    hasFluentTag: bool)                // config.fluent.tags.msg is set

  /** The meaning of a pipeline: its objects unfolded into a finite tree. */
  datatype Tree = Tree(id: string, name: string, kind: Kind, action: WebAction,
                       next: Option<Tree>, branches: map<Tag, Tree>)

  /** A filter object; next is NextFilter, or DefaultNextFilter of a router. A router's nil map
      is the empty one: Branch never leaves an empty map behind. */
  class FilterNode {
    const id: string
    const name: string
    const kind: Kind
    const action: WebAction
    var next: FilterNode?
    var branches: map<Tag, FilterNode>

    constructor (id: string, name: string, kind: Kind, action: WebAction)
      ensures this.id == id && this.name == name && this.kind == kind && this.action == action
      ensures next == null && branches == map[]
    {
      this.id, this.name, this.kind, this.action := id, name, kind, action;
      next, branches := null, map[];
    }
  }

  /** The object f, through objects of S only, unfolds to the tree t. */
  ghost predicate Unfolds(f: FilterNode, t: Tree, S: set<FilterNode>)
    reads S
    decreases t
  {
    && f in S
    && f.id == t.id && f.name == t.name && f.kind == t.kind && f.action == t.action
    && (f.next == null <==> t.next.None?)
    && (f.next != null ==> Unfolds(f.next, t.next.value, S))
    && f.branches.Keys == t.branches.Keys
    && forall tag | tag in f.branches :: Unfolds(f.branches[tag], t.branches[tag], S)
  }

  lemma UnfoldsInLarger(f: FilterNode, t: Tree, S: set<FilterNode>, S': set<FilterNode>)
    requires Unfolds(f, t, S) && S <= S'
    ensures Unfolds(f, t, S')
    decreases t
  {
    if f.next != null { UnfoldsInLarger(f.next, t.next.value, S, S'); }
    forall tag | tag in f.branches ensures Unfolds(f.branches[tag], t.branches[tag], S') {
      UnfoldsInLarger(f.branches[tag], t.branches[tag], S, S');
    }
  }

  /** An object unfolds to at most one tree. */
  lemma {:induction false} UnfoldsUnique(f: FilterNode, t: Tree, S: set<FilterNode>, t': Tree, S': set<FilterNode>)
    requires Unfolds(f, t, S) && Unfolds(f, t', S')
    ensures t == t'
    decreases t
  {
    if f.next != null { UnfoldsUnique(f.next, t.next.value, S, t'.next.value, S'); }
    forall tag | tag in f.branches ensures t.branches[tag] == t'.branches[tag] {
      UnfoldsUnique(f.branches[tag], t.branches[tag], S, t'.branches[tag], S');
    }
    assert t.branches == t'.branches;
  }

  // ---- what filling delivers ---------------------------------------------------------

  /** A call of Fill: which filter received which message. */
  datatype Delivery = Delivery(id: string, msg: string)

  /** The result of filling a pipeline once: every delivery made, and whether it reported an error. */
  datatype Outcome = Outcome(log: multiset<Delivery>, err: bool)

  const QUIET := Outcome(multiset{}, false)
  const FAILED := Outcome(multiset{}, true)

  /** The tags of the branches that receive msg, for a router that got as far as matching. */
  ghost function Matching(env: Env, t: Tree, msg: string): set<Tag> {
    match t.kind
    case RegexRouter => set tag | tag in t.branches && env.matches(tag.key, msg)
    case KVRouter =>
      var body := env.parse(msg);
      if body.Object? then set tag | tag in t.branches && env.matches(tag.value, TextAt(body.fields, tag.key))
      else {}
    case _ => {}
  }

  ghost function First(runs: map<Tag, Outcome>): (tag: Tag)
    requires runs != map[]
    ensures tag in runs
  {
    var tag :| tag in runs; tag
  }

  /** The deliveries of several fills together. */
  ghost function Total(runs: map<Tag, Outcome>): multiset<Delivery>
    decreases runs.Keys
  {
    if runs == map[] then multiset{}
    else runs[First(runs)].log + Total(runs - {First(runs)})
  }

  ghost predicate AnyFailed(runs: map<Tag, Outcome>) {
    exists tag :: tag in runs && runs[tag].err
  }

  /** The deliveries of t to the filters after it; log counts t's own first. */
  ghost predicate YieldsNext(env: Env, t: Tree, msg: string, o: Outcome)
    decreases t, 0
  {
    match t.next
    case None => o == QUIET
    case Some(n) => Yields(env, n, msg, o)
  }

  /** Every matching branch is filled, whichever fail; an error is reported iff one failed. */
  ghost predicate YieldsAll(env: Env, t: Tree, msg: string, tags: set<Tag>, runs: map<Tag, Outcome>)
    requires tags <= t.branches.Keys
    decreases t, 0
  {
    && runs.Keys == tags
    && forall tag | tag in tags :: Yields(env, t.branches[tag], msg, runs[tag])
  }

  /** o is a possible outcome of what follows t's own delivery. */
  ghost predicate YieldsRest(env: Env, t: Tree, msg: string, o: Outcome)
    decreases t, 1
  {
    match t.kind
    case WechatBase => YieldsNext(env, t, msg, o)
    case WechatMoment => YieldsNext(env, t, msg, o)
    case WebTrigger => YieldsNext(env, t, msg, o)
    case Plain =>
      (match env.plain(msg)
       case None => o == FAILED
       case Some(passed) => YieldsNext(env, t, passed, o))
    case Fluent =>
      if env.parse(msg).Malformed? then o == FAILED else YieldsNext(env, t, msg, o)
    case RegexRouter =>
      // a router without branches drops the message, whatever its default
      if t.branches == map[] then o == QUIET
      else if Matching(env, t, msg) == {} then YieldsNext(env, t, msg, o)
      else exists tag :: tag in Matching(env, t, msg) && Yields(env, t.branches[tag], msg, o)
    case KVRouter =>
      (match env.parse(msg)
       case Malformed => o == FAILED
       case Null => o == QUIET
       case Object(_) =>
         var tags := Matching(env, t, msg);
         if tags == {} then YieldsNext(env, t, msg, o)
         else exists runs :: YieldsAll(env, t, msg, tags, runs) && o == Outcome(Total(runs), AnyFailed(runs)))
  }

  /** o is a possible outcome of filling t with msg. */
  ghost predicate Yields(env: Env, t: Tree, msg: string, o: Outcome)
    decreases t, 2
  {
    exists rest :: YieldsRest(env, t, msg, rest) && o == WithSelf(t.id, msg, rest)
  }

  function WithSelf(id: string, msg: string, rest: Outcome): Outcome {
    rest.(log := multiset{Delivery(id, msg)} + rest.log)
  }

  /** Any entry can be taken out of a total first. */
  lemma {:induction false} TotalRemove(runs: map<Tag, Outcome>, tag: Tag)
    requires tag in runs
    ensures Total(runs) == runs[tag].log + Total(runs - {tag})
    decreases runs.Keys
  {
    var first := First(runs);
    if first != tag {
      var withoutFirst, withoutTag := runs - {first}, runs - {tag};
      TotalRemove(withoutFirst, tag);
      TotalRemove(withoutTag, first);
      assert withoutFirst - {tag} == withoutTag - {first};
    }
  }

  lemma AddRun(runs: map<Tag, Outcome>, tag: Tag, o: Outcome)
    requires tag !in runs
    ensures Total(runs[tag := o]) == o.log + Total(runs)
    ensures AnyFailed(runs[tag := o]) <==> o.err || AnyFailed(runs)
  {
    var more := runs[tag := o];
    TotalRemove(more, tag);
    assert more - {tag} == runs;
    assert more[tag] == o;
    assert forall other | other in runs :: more[other] == runs[other];
  }

  // ---- one outcome, whatever the map order -------------------------------------------

  /** No RegexRouter that msg gets to has two matching branches. */
  ghost predicate Unambiguous(env: Env, t: Tree, msg: string)
    decreases t, 1
  {
    match t.kind
    case WechatBase => UnambiguousNext(env, t, msg)
    case WechatMoment => UnambiguousNext(env, t, msg)
    case WebTrigger => UnambiguousNext(env, t, msg)
    case Plain => env.plain(msg).Some? ==> UnambiguousNext(env, t, env.plain(msg).value)
    case Fluent => !env.parse(msg).Malformed? ==> UnambiguousNext(env, t, msg)
    case RegexRouter =>
      t.branches != map[] ==>
        && (forall tag, other | tag in Matching(env, t, msg) && other in Matching(env, t, msg) :: tag == other)
        && UnambiguousBranches(env, t, msg)
    case KVRouter => env.parse(msg).Object? ==> UnambiguousBranches(env, t, msg)
  }

  ghost predicate UnambiguousNext(env: Env, t: Tree, msg: string)
    decreases t, 0
  {
    t.next.Some? ==> Unambiguous(env, t.next.value, msg)
  }

  ghost predicate UnambiguousBranches(env: Env, t: Tree, msg: string)
    decreases t, 0
  {
    && (Matching(env, t, msg) == {} ==> t.next.Some? ==> Unambiguous(env, t.next.value, msg))
    && forall tag | tag in Matching(env, t, msg) && tag in t.branches :: Unambiguous(env, t.branches[tag], msg)
  }

  /** Then every order in which Go walks the maps gives the same deliveries, counted, and the
      same error result. */
  lemma {:induction false} OneOutcome(env: Env, t: Tree, msg: string, o1: Outcome, o2: Outcome)
    requires Unambiguous(env, t, msg) && Yields(env, t, msg, o1) && Yields(env, t, msg, o2)
    ensures o1 == o2
    decreases t, 2
  {
    var rest1 :| YieldsRest(env, t, msg, rest1) && o1 == WithSelf(t.id, msg, rest1);
    var rest2 :| YieldsRest(env, t, msg, rest2) && o2 == WithSelf(t.id, msg, rest2);
    match t.kind {
      case WechatBase => OneOutcomeNext(env, t, msg, rest1, rest2);
      case WechatMoment => OneOutcomeNext(env, t, msg, rest1, rest2);
      case WebTrigger => OneOutcomeNext(env, t, msg, rest1, rest2);
      case Plain =>
        if env.plain(msg).Some? { OneOutcomeNext(env, t, env.plain(msg).value, rest1, rest2); }
      case Fluent =>
        if !env.parse(msg).Malformed? { OneOutcomeNext(env, t, msg, rest1, rest2); }
      case RegexRouter => OneOutcomeRegexRouter(env, t, msg, rest1, rest2);
      case KVRouter => OneOutcomeKVRouter(env, t, msg, rest1, rest2);
    }
  }

  lemma {:induction false} OneOutcomeNext(env: Env, t: Tree, msg: string, o1: Outcome, o2: Outcome)
    requires UnambiguousNext(env, t, msg) && YieldsNext(env, t, msg, o1) && YieldsNext(env, t, msg, o2)
    ensures o1 == o2
    decreases t, 0
  {
    if t.next.Some? { OneOutcome(env, t.next.value, msg, o1, o2); }
  }

  lemma {:induction false} OneOutcomeRegexRouter(env: Env, t: Tree, msg: string, o1: Outcome, o2: Outcome)
    requires t.kind == RegexRouter && Unambiguous(env, t, msg)
    requires YieldsRest(env, t, msg, o1) && YieldsRest(env, t, msg, o2)
    ensures o1 == o2
    decreases t, 1
  {
    if t.branches != map[] {
      if Matching(env, t, msg) == {} {
        OneOutcomeNext(env, t, msg, o1, o2);
      } else {
        var tag :| tag in Matching(env, t, msg) && Yields(env, t.branches[tag], msg, o1);
        OneOutcome(env, t.branches[tag], msg, o1, o2);
      }
    }
  }

  lemma {:induction false} OneOutcomeKVRouter(env: Env, t: Tree, msg: string, o1: Outcome, o2: Outcome)
    requires t.kind == KVRouter && Unambiguous(env, t, msg)
    requires YieldsRest(env, t, msg, o1) && YieldsRest(env, t, msg, o2)
    ensures o1 == o2
    decreases t, 1
  {
    if env.parse(msg).Object? {
      var tags := Matching(env, t, msg);
      if tags == {} {
        OneOutcomeNext(env, t, msg, o1, o2);
      } else {
        var runs1 :| YieldsAll(env, t, msg, tags, runs1) && o1 == Outcome(Total(runs1), AnyFailed(runs1));
        var runs2 :| YieldsAll(env, t, msg, tags, runs2) && o2 == Outcome(Total(runs2), AnyFailed(runs2));
        OneOutcomeAll(env, t, msg, tags, runs1, runs2);
      }
    }
  }

  lemma {:induction false} OneOutcomeAll(env: Env, t: Tree, msg: string, tags: set<Tag>,
                                         runs1: map<Tag, Outcome>, runs2: map<Tag, Outcome>)
    requires tags <= t.branches.Keys && forall tag | tag in tags :: Unambiguous(env, t.branches[tag], msg)
    requires YieldsAll(env, t, msg, tags, runs1) && YieldsAll(env, t, msg, tags, runs2)
    ensures runs1 == runs2
    decreases t, 0
  {
    forall tag | tag in tags ensures runs1[tag] == runs2[tag] {
      OneOutcome(env, t.branches[tag], msg, runs1[tag], runs2[tag]);
    }
  }

  /** Every pipeline has an outcome for every message. */
  lemma {:induction false} SomeOutcome(env: Env, t: Tree, msg: string) returns (o: Outcome)
    ensures Yields(env, t, msg, o)
    decreases t, 2
  {
    var rest;
    match t.kind {
      case WechatBase => rest := SomeOutcomeNext(env, t, msg);
      case WechatMoment => rest := SomeOutcomeNext(env, t, msg);
      case WebTrigger => rest := SomeOutcomeNext(env, t, msg);
      case Plain =>
        if env.plain(msg).Some? { rest := SomeOutcomeNext(env, t, env.plain(msg).value); } else { rest := FAILED; }
      case Fluent =>
        if env.parse(msg).Malformed? { rest := FAILED; } else { rest := SomeOutcomeNext(env, t, msg); }
      case RegexRouter =>
        if t.branches == map[] {
          rest := QUIET;
        } else if Matching(env, t, msg) == {} {
          rest := SomeOutcomeNext(env, t, msg);
        } else {
          var tag :| tag in Matching(env, t, msg);
          rest := SomeOutcome(env, t.branches[tag], msg);
        }
      case KVRouter => rest := SomeOutcomeKVRouter(env, t, msg);
    }
    o := WithSelf(t.id, msg, rest);
  }

  lemma {:induction false} SomeOutcomeNext(env: Env, t: Tree, msg: string) returns (o: Outcome)
    ensures YieldsNext(env, t, msg, o)
    decreases t, 0
  {
    if t.next.Some? { o := SomeOutcome(env, t.next.value, msg); } else { o := QUIET; }
  }

  lemma {:induction false} SomeOutcomeKVRouter(env: Env, t: Tree, msg: string) returns (o: Outcome)
    requires t.kind == KVRouter
    ensures YieldsRest(env, t, msg, o)
    decreases t, 1
  {
    var body, tags := env.parse(msg), Matching(env, t, msg);
    if body.Malformed? {
      o := FAILED;
    } else if body.Null? {
      o := QUIET;
    } else if tags == {} {
      o := SomeOutcomeNext(env, t, msg);
    } else {
      forall tag | tag in tags ensures exists branch :: Yields(env, t.branches[tag], msg, branch) {
        var branch := SomeOutcome(env, t.branches[tag], msg);
      }
      var runs := map tag | tag in tags :: var branch :| Yields(env, t.branches[tag], msg, branch); branch;
      assert YieldsAll(env, t, msg, tags, runs);
      o := Outcome(Total(runs), AnyFailed(runs));
    }
  }

  // ---- who receives what -------------------------------------------------------------

  /** A step of a message through a pipeline: to the next or default filter, or into a branch. */
  datatype Hop = Onward | Into(tag: Tag)

  /** The message a filter hands on. */
  function Passed(env: Env, t: Tree, msg: string): string {
    if t.kind == Plain && env.plain(msg).Some? then env.plain(msg).value else msg
  }

  /** The filter hands the message on this way. */
  predicate Hops(env: Env, t: Tree, msg: string, hop: Hop) {
    match hop
    case Onward =>
      t.next.Some? && (match t.kind
        case Plain => env.plain(msg).Some?
        case Fluent => !env.parse(msg).Malformed?
        case RegexRouter => t.branches != map[] && forall tag | tag in t.branches :: !env.matches(tag.key, msg)
        case KVRouter =>
          env.parse(msg).Object?
          && forall tag | tag in t.branches :: !env.matches(tag.value, TextAt(env.parse(msg).fields, tag.key))
        case _ => true)
    case Into(tag) =>
      tag in t.branches && (match t.kind
        case RegexRouter => env.matches(tag.key, msg)
        case KVRouter =>
          env.parse(msg).Object? && env.matches(tag.value, TextAt(env.parse(msg).fields, tag.key))
        case _ => false)
  }

  /** The filter that the hop leads to. */
  function Target(t: Tree, hop: Hop): Tree
    requires if hop.Onward? then t.next.Some? else hop.tag in t.branches
  {
    match hop
    case Onward => t.next.value
    case Into(tag) => t.branches[tag]
  }

  /** The message takes this path through the pipeline, and at its end is the delivery d. */
  predicate Follows(env: Env, t: Tree, msg: string, path: seq<Hop>, d: Delivery)
    decreases |path|
  {
    if path == [] then d == Delivery(t.id, msg)
    else Hops(env, t, msg, path[0]) && Follows(env, Target(t, path[0]), Passed(env, t, msg), path[1..], d)
  }

  function Prefixed(hop: Hop, paths: set<seq<Hop>>): set<seq<Hop>> {
    set path | path in paths :: [hop] + path
  }

  /** All the paths to the delivery. */
  ghost function Routes(env: Env, t: Tree, msg: string, d: Delivery): set<seq<Hop>>
    decreases t, 1
  {
    (if d == Delivery(t.id, msg) then {[]} else {})
    + (if Hops(env, t, msg, Onward) then Prefixed(Onward, Routes(env, t.next.value, Passed(env, t, msg), d)) else {})
    + Via(env, t, msg, t.branches.Keys, d)
  }

  /** Those that begin with a hop into one of these branches. */
  ghost function Via(env: Env, t: Tree, msg: string, tags: set<Tag>, d: Delivery): set<seq<Hop>>
    requires tags <= t.branches.Keys
    decreases t, 0
  {
    set tag, path | tag in tags && Hops(env, t, msg, Into(tag)) && path in Routes(env, t.branches[tag], msg, d) ::
      [Into(tag)] + path
  }

  lemma {:induction false} RoutesFollow(env: Env, t: Tree, msg: string, d: Delivery, path: seq<Hop>)
    ensures path in Routes(env, t, msg, d) <==> Follows(env, t, msg, path, d)
    decreases |path|
  {
    if path != [] && Hops(env, t, msg, path[0]) {
      assert path == [path[0]] + path[1..];
      RoutesFollow(env, Target(t, path[0]), Passed(env, t, msg), d, path[1..]);
    }
  }

  /** The filter reports an error of its own. */
  predicate FailsOn(env: Env, t: Tree, msg: string) {
    match t.kind
    case Plain => env.plain(msg).None?
    case Fluent => env.parse(msg).Malformed?
    case KVRouter => env.parse(msg).Malformed?
    case _ => false
  }

  /** Some filter that the message gets to does. */
  ghost predicate Troubled(env: Env, t: Tree, msg: string)
    decreases t
  {
    || FailsOn(env, t, msg)
    || (Hops(env, t, msg, Onward) && Troubled(env, t.next.value, Passed(env, t, msg)))
    || exists tag | tag in t.branches && Hops(env, t, msg, Into(tag)) :: Troubled(env, t.branches[tag], msg)
  }

  lemma {:induction false} PrefixedCount(hop: Hop, paths: set<seq<Hop>>)
    ensures |Prefixed(hop, paths)| == |paths|
    decreases |paths|
  {
    if paths != {} {
      var path :| path in paths;
      PrefixedCount(hop, paths - {path});
      PrefixedOther(hop, paths, path);
    }
  }

  lemma PrefixedOther(hop: Hop, paths: set<seq<Hop>>, path: seq<Hop>)
    requires path in paths
    ensures Prefixed(hop, paths) == Prefixed(hop, paths - {path}) + {[hop] + path}
    ensures [hop] + path !in Prefixed(hop, paths - {path})
  {
    forall other | other in paths - {path} ensures [hop] + other != [hop] + path {
      assert ([hop] + other)[1..] == other && ([hop] + path)[1..] == path;
    }
  }

  lemma ViaAdd(env: Env, t: Tree, msg: string, tags: set<Tag>, tag: Tag, d: Delivery)
    requires tags <= t.branches.Keys && tag in t.branches && tag !in tags
    ensures |Via(env, t, msg, tags + {tag}, d)|
            == |Via(env, t, msg, tags, d)|
               + if Hops(env, t, msg, Into(tag)) then |Routes(env, t.branches[tag], msg, d)| else 0
  {
    hide Routes, Hops;
    var more := if Hops(env, t, msg, Into(tag)) then Prefixed(Into(tag), Routes(env, t.branches[tag], msg, d)) else {};
    assert Via(env, t, msg, tags + {tag}, d) == Via(env, t, msg, tags, d) + more;
    assert forall path | path in more :: path[0] == Into(tag);
    assert forall path | path in Via(env, t, msg, tags, d) :: path[0] != Into(tag);
    if Hops(env, t, msg, Into(tag)) { PrefixedCount(Into(tag), Routes(env, t.branches[tag], msg, d)); }
  }

  lemma RoutesCount(env: Env, t: Tree, msg: string, d: Delivery)
    ensures |Routes(env, t, msg, d)|
            == (if d == Delivery(t.id, msg) then 1 else 0)
               + (if Hops(env, t, msg, Onward) then |Routes(env, t.next.value, Passed(env, t, msg), d)| else 0)
               + |Via(env, t, msg, t.branches.Keys, d)|
  {
    var own := if d == Delivery(t.id, msg) then {[]} else {};
    var onward := if Hops(env, t, msg, Onward)
                  then Prefixed(Onward, Routes(env, t.next.value, Passed(env, t, msg), d)) else {};
    var via := Via(env, t, msg, t.branches.Keys, d);
    if Hops(env, t, msg, Onward) { PrefixedCount(Onward, Routes(env, t.next.value, Passed(env, t, msg), d)); }
    assert forall path | path in onward :: path != [] && path[0] == Onward;
    assert forall path | path in via :: path != [] && path[0] != Onward;
    assert Routes(env, t, msg, d) == own + onward + via;
    assert |own + onward| == |own| + |onward| && |own + onward + via| == |own + onward| + |via|;
  }

  /** The branches that a message does not hop into add no path. */
  lemma {:induction false} ViaHops(env: Env, t: Tree, msg: string, tags: set<Tag>, d: Delivery)
    requires tags <= t.branches.Keys && forall tag | tag in t.branches && Hops(env, t, msg, Into(tag)) :: tag in tags
    ensures Via(env, t, msg, t.branches.Keys, d) == Via(env, t, msg, tags, d)
  {
  }

  lemma NoBranch(env: Env, t: Tree, msg: string, d: Delivery)
    ensures Via(env, t, msg, {}, d) == {}
  {
  }

  /** What several fills deliver, against the paths into their branches. */
  lemma {:induction false} RunsDeliver(env: Env, t: Tree, msg: string, runs: map<Tag, Outcome>, d: Delivery)
    requires runs.Keys <= t.branches.Keys
    requires forall tag | tag in runs ::
               Hops(env, t, msg, Into(tag)) && runs[tag].log[d] <= |Routes(env, t.branches[tag], msg, d)|
    ensures Total(runs)[d] <= |Via(env, t, msg, runs.Keys, d)|
    ensures (forall tag | tag in runs :: runs[tag].log[d] == |Routes(env, t.branches[tag], msg, d)|) ==>
              Total(runs)[d] == |Via(env, t, msg, runs.Keys, d)|
    decreases runs.Keys
  {
    hide Routes, Hops, Via;
    if runs == map[] {
      NoBranch(env, t, msg, d);
      assert runs.Keys == {};
    } else {
      var tag := First(runs);
      var rest := runs - {tag};
      RunsDeliver(env, t, msg, rest, d);
      ViaAdd(env, t, msg, rest.Keys, tag, d);
      assert rest.Keys + {tag} == runs.Keys;
      assert forall other | other in rest :: rest[other] == runs[other];
    }
  }

  /** The branches of a router that match are those it hands the message into. */
  lemma MatchingHops(env: Env, t: Tree, msg: string)
    ensures forall tag :: tag in Matching(env, t, msg) <==> Hops(env, t, msg, Into(tag))
    ensures Matching(env, t, msg) <= t.branches.Keys
    ensures t.next.Some? && (t.kind == RegexRouter || t.kind == KVRouter) ==>
              (Hops(env, t, msg, Onward) <==>
                 && Matching(env, t, msg) == {}
                 && if t.kind == RegexRouter then t.branches != map[] else env.parse(msg).Object?)
  {
    if Matching(env, t, msg) == {} {
      forall tag | tag in t.branches ensures !Hops(env, t, msg, Into(tag)) {
        assert tag !in Matching(env, t, msg);
      }
    }
  }

  lemma UnambiguousInto(env: Env, t: Tree, msg: string, tag: Tag)
    requires Unambiguous(env, t, msg) && tag in Matching(env, t, msg)
    ensures tag in t.branches && Unambiguous(env, t.branches[tag], msg)
    ensures t.kind == RegexRouter ==> Matching(env, t, msg) == {tag}
  {
  }

  lemma NoMatchNoPath(env: Env, t: Tree, msg: string, d: Delivery)
    requires Matching(env, t, msg) == {}
    ensures Via(env, t, msg, t.branches.Keys, d) == {}
  {
    hide Routes;
    MatchingHops(env, t, msg);
  }

  /**
   Who receives what: an outcome has no more deliveries than there are paths of the message to them; and if no
   RegexRouter has a choice, exactly as many. So every filter the message gets to receives it, once for each way.
   */
  lemma {:induction false} Delivered(env: Env, t: Tree, msg: string, o: Outcome, d: Delivery)
    requires Yields(env, t, msg, o)
    ensures o.log[d] <= |Routes(env, t, msg, d)|
    ensures Unambiguous(env, t, msg) ==> o.log[d] == |Routes(env, t, msg, d)|
    decreases t, 3
  {
    hide Routes, Via;
    var rest :| YieldsRest(env, t, msg, rest) && o == WithSelf(t.id, msg, rest);
    RoutesCount(env, t, msg, d);
    match t.kind {
      case WechatBase => DeliveredOnward(env, t, msg, rest, d);
      case WechatMoment => DeliveredOnward(env, t, msg, rest, d);
      case WebTrigger => DeliveredOnward(env, t, msg, rest, d);
      case Plain => DeliveredOnward(env, t, msg, rest, d);
      case Fluent => DeliveredOnward(env, t, msg, rest, d);
      case RegexRouter => DeliveredRegexRouter(env, t, msg, rest, d);
      case KVRouter => DeliveredKVRouter(env, t, msg, rest, d);
    }
  }

  lemma {:induction false} DeliveredNext(env: Env, t: Tree, msg: string, o: Outcome, d: Delivery)
    requires YieldsNext(env, t, msg, o)
    ensures t.next.None? ==> o.log[d] == 0
    ensures t.next.Some? ==> o.log[d] <= |Routes(env, t.next.value, msg, d)|
    ensures t.next.Some? && UnambiguousNext(env, t, msg) ==> o.log[d] == |Routes(env, t.next.value, msg, d)|
    decreases t, 0
  {
    hide Routes;
    if t.next.Some? { Delivered(env, t.next.value, msg, o, d); }
  }

  /** What follows a filter's own delivery, against the longer paths. */
  ghost predicate RestCounts(env: Env, t: Tree, msg: string, o: Outcome, d: Delivery) {
    var paths := (if Hops(env, t, msg, Onward) then |Routes(env, t.next.value, Passed(env, t, msg), d)| else 0)
                 + |Via(env, t, msg, t.branches.Keys, d)|;
    o.log[d] <= paths && (Unambiguous(env, t, msg) ==> o.log[d] == paths)
  }

  lemma {:induction false} DeliveredOnward(env: Env, t: Tree, msg: string, o: Outcome, d: Delivery)
    requires t.kind != RegexRouter && t.kind != KVRouter && YieldsRest(env, t, msg, o)
    ensures RestCounts(env, t, msg, o, d)
    decreases t, 1
  {
    hide Routes, Via;
    NoMatchNoPath(env, t, msg, d);
    if YieldsNext(env, t, Passed(env, t, msg), o) {
      DeliveredNext(env, t, Passed(env, t, msg), o, d);
    }
  }

  lemma UnambiguousOnward(env: Env, t: Tree, msg: string)
    requires Unambiguous(env, t, msg) && Matching(env, t, msg) == {}
    requires (t.kind == RegexRouter && t.branches != map[]) || (t.kind == KVRouter && env.parse(msg).Object?)
    ensures UnambiguousNext(env, t, msg)
  {
  }

  /** A router that hands the message to its default, or to nobody. */
  lemma {:induction false} DeliveredDefault(env: Env, t: Tree, msg: string, o: Outcome, d: Delivery)
    requires Matching(env, t, msg) == {} && YieldsNext(env, t, msg, o)
    requires (t.kind == RegexRouter && t.branches != map[]) || (t.kind == KVRouter && env.parse(msg).Object?)
    ensures RestCounts(env, t, msg, o, d)
    decreases t, 1
  {
    hide Routes, Via, Unambiguous, UnambiguousNext, Matching;
    MatchingHops(env, t, msg);
    NoMatchNoPath(env, t, msg, d);
    DeliveredNext(env, t, msg, o, d);
    if Unambiguous(env, t, msg) { UnambiguousOnward(env, t, msg); }
  }

  lemma OnlyBranch(env: Env, t: Tree, msg: string, tag: Tag, d: Delivery)
    requires Matching(env, t, msg) == {tag}
    ensures tag in t.branches && |Via(env, t, msg, t.branches.Keys, d)| == |Routes(env, t.branches[tag], msg, d)|
  {
    hide Routes, Via, Matching;
    MatchingHops(env, t, msg);
    ViaHops(env, t, msg, {tag}, d);
    ViaAdd(env, t, msg, {}, tag, d);
    NoBranch(env, t, msg, d);
    assert {} + {tag} == {tag};
  }

  lemma BranchAmong(env: Env, t: Tree, msg: string, tag: Tag, d: Delivery)
    requires tag in Matching(env, t, msg)
    ensures tag in t.branches && |Routes(env, t.branches[tag], msg, d)| <= |Via(env, t, msg, t.branches.Keys, d)|
  {
    hide Routes, Via, Matching;
    MatchingHops(env, t, msg);
    ViaAdd(env, t, msg, t.branches.Keys - {tag}, tag, d);
    assert t.branches.Keys - {tag} + {tag} == t.branches.Keys;
  }

  /** A router that hands the message into some branch hands it to no default. */
  lemma {:induction false} DeliveredInto(env: Env, t: Tree, msg: string, tag: Tag, o: Outcome, d: Delivery)
    requires t.kind == RegexRouter && tag in Matching(env, t, msg)
    requires tag in t.branches && Yields(env, t.branches[tag], msg, o)
    ensures RestCounts(env, t, msg, o, d)
    decreases t, 1
  {
    hide Routes, Via, Unambiguous, Matching, Yields;
    MatchingHops(env, t, msg);
    Delivered(env, t.branches[tag], msg, o, d);
    BranchAmong(env, t, msg, tag, d);
    if Unambiguous(env, t, msg) {
      UnambiguousInto(env, t, msg, tag);
      OnlyBranch(env, t, msg, tag, d);
    }
  }

  lemma {:induction false} DeliveredRegexRouter(env: Env, t: Tree, msg: string, o: Outcome, d: Delivery)
    requires t.kind == RegexRouter && YieldsRest(env, t, msg, o)
    ensures RestCounts(env, t, msg, o, d)
    decreases t, 2
  {
    hide Routes, Via, Unambiguous, Yields;
    MatchingHops(env, t, msg);
    if t.branches == map[] {
      NoMatchNoPath(env, t, msg, d);
    } else if Matching(env, t, msg) == {} {
      DeliveredDefault(env, t, msg, o, d);
    } else {
      var tag :| tag in Matching(env, t, msg) && Yields(env, t.branches[tag], msg, o);
      DeliveredInto(env, t, msg, tag, o, d);
    }
  }

  lemma {:induction false} DeliveredKVRouter(env: Env, t: Tree, msg: string, o: Outcome, d: Delivery)
    requires t.kind == KVRouter && YieldsRest(env, t, msg, o)
    ensures RestCounts(env, t, msg, o, d)
    decreases t, 2
  {
    hide Routes, Via, Unambiguous, Yields;
    MatchingHops(env, t, msg);
    var tags := Matching(env, t, msg);
    if !env.parse(msg).Object? {
      NoMatchNoPath(env, t, msg, d);
    } else if tags == {} {
      DeliveredDefault(env, t, msg, o, d);
    } else {
      var runs: map<Tag, Outcome> :| YieldsAll(env, t, msg, tags, runs) && o == Outcome(Total(runs), AnyFailed(runs));
      forall tag | tag in tags
        ensures runs[tag].log[d] <= |Routes(env, t.branches[tag], msg, d)|
        ensures Unambiguous(env, t, msg) ==> runs[tag].log[d] == |Routes(env, t.branches[tag], msg, d)|
      {
        Delivered(env, t.branches[tag], msg, runs[tag], d);
        if Unambiguous(env, t, msg) { UnambiguousInto(env, t, msg, tag); }
      }
      RunsDeliver(env, t, msg, runs, d);
      ViaHops(env, t, msg, tags, d);
    }
  }

  /**
   Errors: one is reported only if some filter that the message gets to fails, and, if no RegexRouter has a choice,
   whenever one does.
   */
  lemma {:induction false} Reported(env: Env, t: Tree, msg: string, o: Outcome)
    requires Yields(env, t, msg, o)
    ensures o.err ==> Troubled(env, t, msg)
    ensures Unambiguous(env, t, msg) && Troubled(env, t, msg) ==> o.err
    decreases t, 3
  {
    var rest :| YieldsRest(env, t, msg, rest) && o == WithSelf(t.id, msg, rest);
    if t.kind == RegexRouter || t.kind == KVRouter {
      ReportedRouter(env, t, msg, rest);
    } else if YieldsNext(env, t, Passed(env, t, msg), rest) {
      ReportedNext(env, t, Passed(env, t, msg), rest);
    }
  }

  lemma {:induction false} ReportedNext(env: Env, t: Tree, msg: string, o: Outcome)
    requires YieldsNext(env, t, msg, o)
    ensures o.err ==> t.next.Some? && Troubled(env, t.next.value, msg)
    ensures UnambiguousNext(env, t, msg) && t.next.Some? && Troubled(env, t.next.value, msg) ==> o.err
    decreases t, 0
  {
    if t.next.Some? { Reported(env, t.next.value, msg, o); }
  }

  lemma {:induction false} ReportedRouter(env: Env, t: Tree, msg: string, o: Outcome)
    requires (t.kind == RegexRouter || t.kind == KVRouter) && YieldsRest(env, t, msg, o)
    ensures o.err ==> Troubled(env, t, msg)
    ensures Unambiguous(env, t, msg) && Troubled(env, t, msg) ==> o.err
    decreases t, 2
  {
    MatchingHops(env, t, msg);
    var tags := Matching(env, t, msg);
    if t.kind == KVRouter && !env.parse(msg).Object? {
    } else if tags == {} {
      if t.kind == KVRouter || t.branches != map[] {
        ReportedNext(env, t, msg, o);
        if Unambiguous(env, t, msg) { UnambiguousOnward(env, t, msg); }
      }
    } else if t.kind == RegexRouter {
      var tag :| tag in tags && Yields(env, t.branches[tag], msg, o);
      Reported(env, t.branches[tag], msg, o);
      if Unambiguous(env, t, msg) { UnambiguousInto(env, t, msg, tag); }
    } else {
      var runs: map<Tag, Outcome> :| YieldsAll(env, t, msg, tags, runs) && o == Outcome(Total(runs), AnyFailed(runs));
      forall tag | tag in tags
        ensures runs[tag].err ==> Troubled(env, t.branches[tag], msg)
        ensures Unambiguous(env, t, msg) && Troubled(env, t.branches[tag], msg) ==> runs[tag].err
      {
        Reported(env, t.branches[tag], msg, runs[tag]);
        if Unambiguous(env, t, msg) { UnambiguousInto(env, t, msg, tag); }
      }
    }
  }

  /** A RegexRouter with a choice hands the message into one branch that matches, and no further. */
  lemma PicksOne(env: Env, t: Tree, msg: string, o: Outcome)
    requires t.kind == RegexRouter && Yields(env, t, msg, o)
    requires exists tag :: tag in t.branches && env.matches(tag.key, msg)
    ensures exists tag, branch ::
              && tag in t.branches && env.matches(tag.key, msg) && Yields(env, t.branches[tag], msg, branch)
              && o.err == branch.err && o.log == multiset{Delivery(t.id, msg)} + branch.log
  {
    var any :| any in t.branches && env.matches(any.key, msg);
    assert any in Matching(env, t, msg);
    var rest :| YieldsRest(env, t, msg, rest) && o == WithSelf(t.id, msg, rest);
    var tag :| tag in Matching(env, t, msg) && Yields(env, t.branches[tag], msg, rest);
    assert tag in t.branches && env.matches(tag.key, msg);
  }

  /** There is no choice exactly if a RegexRouter has at most one branch that matches, and there is none at the
      filters that the message is handed to. */
  lemma UnambiguousIff(env: Env, t: Tree, msg: string)
    ensures Unambiguous(env, t, msg) <==>
              && (t.kind == RegexRouter ==>
                    forall tag, other | tag in t.branches && other in t.branches
                                        && env.matches(tag.key, msg) && env.matches(other.key, msg) :: tag == other)
              && (Hops(env, t, msg, Onward) ==> Unambiguous(env, t.next.value, Passed(env, t, msg)))
              && forall tag | tag in t.branches && Hops(env, t, msg, Into(tag)) ::
                   Unambiguous(env, t.branches[tag], msg)
  {
    MatchingHops(env, t, msg);
    if t.kind == RegexRouter {
      assert forall tag :: tag in Matching(env, t, msg) <==> tag in t.branches && env.matches(tag.key, msg);
    }
  }

  // ---- filling the heap --------------------------------------------------------------

  /** Fill of every filter type, by the kind of f. */
  method Fill(env: Env, f: FilterNode, msg: string, ghost t: Tree, ghost S: set<FilterNode>) returns (o: Outcome)
    requires Unfolds(f, t, S)
    ensures Yields(env, t, msg, o)
    decreases t, 3
  {
    var rest;
    match f.kind {
      case WechatBase => rest := FillNext(env, f, msg, t, S);
      case WechatMoment => rest := FillNext(env, f, msg, t, S);
      case WebTrigger => rest := FillNext(env, f, msg, t, S);
      case Plain =>
        match env.plain(msg) {
          case None => rest := FAILED;
          case Some(passed) => rest := FillNext(env, f, passed, t, S);
        }
      case Fluent =>
        if env.parse(msg).Malformed? {
          rest := FAILED;
        } else {
          rest := FillNext(env, f, msg, t, S);
        }
      case RegexRouter => rest := FillRegexRouter(env, f, msg, t, S);
      case KVRouter => rest := FillKVRouter(env, f, msg, t, S);
    }
    o := WithSelf(f.id, msg, rest);
  }

  method FillNext(env: Env, f: FilterNode, msg: string, ghost t: Tree, ghost S: set<FilterNode>) returns (o: Outcome)
    requires Unfolds(f, t, S)
    ensures YieldsNext(env, t, msg, o)
    decreases t, 0
  {
    if f.next != null {
      o := Fill(env, f.next, msg, t.next.value, S);
    } else {
      o := QUIET;
    }
  }

  /** The first matching branch met in map order is filled, and no other. */
  method FillRegexRouter(env: Env, f: FilterNode, msg: string, ghost t: Tree, ghost S: set<FilterNode>)
    returns (o: Outcome)
    requires Unfolds(f, t, S) && f.kind == RegexRouter
    ensures YieldsRest(env, t, msg, o)
    decreases t, 1
  {
    if f.branches == map[] {
      return QUIET;
    }
    var todo := f.branches.Keys;
    while todo != {}
      invariant todo <= f.branches.Keys
      invariant Matching(env, t, msg) <= todo
    {
      var tag :| tag in todo;
      if env.matches(tag.key, msg) {
        o := Fill(env, f.branches[tag], msg, t.branches[tag], S);
        assert tag in Matching(env, t, msg);
        return;
      }
      todo := todo - {tag};
    }
    o := FillNext(env, f, msg, t, S);
  }

  method FillKVRouter(env: Env, f: FilterNode, msg: string, ghost t: Tree, ghost S: set<FilterNode>)
    returns (o: Outcome)
    requires Unfolds(f, t, S) && f.kind == KVRouter
    ensures YieldsRest(env, t, msg, o)
    decreases t, 2
  {
    var body := env.parse(msg);
    if body.Malformed? {
      return FAILED;
    }
    if body.Null? {
      return QUIET;
    }
    var fillOnce;
    ghost var runs;
    fillOnce, o, runs := FillMatching(env, f, msg, body.fields, t, S);
    if fillOnce {
      ghost var tags := Matching(env, t, msg);
      assert runs.Keys == tags && tags != {};
      assert YieldsAll(env, t, msg, tags, runs);
    } else {
      assert runs.Keys == {};
      o := FillNext(env, f, msg, t, S);
    }
  }

  /** runs holds one possible outcome for each matching branch that is not in todo, and o
      sums them up. */
  ghost predicate Collected(env: Env, t: Tree, msg: string, todo: set<Tag>, runs: map<Tag, Outcome>, o: Outcome) {
    && todo <= t.branches.Keys
    && YieldsAll(env, t, msg, Matching(env, t, msg) - todo, runs)
    && o == Outcome(Total(runs), AnyFailed(runs))
  }

  lemma YieldsAllAdd(env: Env, t: Tree, msg: string, tags: set<Tag>, runs: map<Tag, Outcome>, tag: Tag, branch: Outcome)
    requires tag in t.branches && tags <= t.branches.Keys
    requires YieldsAll(env, t, msg, tags, runs) && Yields(env, t.branches[tag], msg, branch)
    ensures YieldsAll(env, t, msg, tags + {tag}, runs[tag := branch])
  {
    var more := runs[tag := branch];
    assert more.Keys == runs.Keys + {tag};
    assert forall other | other in tags && other != tag :: more[other] == runs[other];
  }

  lemma CollectHit(env: Env, t: Tree, msg: string, todo: set<Tag>, runs: map<Tag, Outcome>, o: Outcome,
                   tag: Tag, branch: Outcome)
    requires Collected(env, t, msg, todo, runs, o) && tag in todo
    requires tag in Matching(env, t, msg) && Yields(env, t.branches[tag], msg, branch)
    ensures Collected(env, t, msg, todo - {tag}, runs[tag := branch],
                      Outcome(branch.log + o.log, branch.err || o.err))
  {
    var tags := Matching(env, t, msg) - todo;
    AddRun(runs, tag, branch);
    YieldsAllAdd(env, t, msg, tags, runs, tag, branch);
    assert Matching(env, t, msg) - (todo - {tag}) == tags + {tag};
  }

  lemma CollectMiss(env: Env, t: Tree, msg: string, todo: set<Tag>, runs: map<Tag, Outcome>, o: Outcome, tag: Tag)
    requires Collected(env, t, msg, todo, runs, o) && tag !in Matching(env, t, msg)
    ensures Collected(env, t, msg, todo - {tag}, runs, o)
  {
    assert Matching(env, t, msg) - (todo - {tag}) == Matching(env, t, msg) - todo;
  }

  /** KVRouter's loop over its branches: each match is filled, failed or not. */
  method FillMatching(env: Env, f: FilterNode, msg: string, body: map<string, Value>,
                      ghost t: Tree, ghost S: set<FilterNode>)
    returns (fillOnce: bool, o: Outcome, ghost runs: map<Tag, Outcome>)
    requires Unfolds(f, t, S) && f.kind == KVRouter && env.parse(msg) == Object(body)
    ensures Collected(env, t, msg, {}, runs, o) && fillOnce == (runs != map[])
    ensures fillOnce <==> Matching(env, t, msg) != {}
    decreases t, 1
  {
    fillOnce := false;
    var todo := f.branches.Keys;
    runs, o := map[], QUIET;
    while todo != {}
      invariant todo <= f.branches.Keys
      invariant Collected(env, t, msg, todo, runs, o)
      invariant fillOnce == (runs != map[])
    {
      var tag :| tag in todo;
      var hit, branch := FillIfMatching(env, f, msg, body, tag, t, S);
      if hit {
        CollectHit(env, t, msg, todo, runs, o, tag, branch);
        fillOnce, o, runs := true, Outcome(branch.log + o.log, branch.err || o.err), runs[tag := branch];
      } else {
        CollectMiss(env, t, msg, todo, runs, o, tag);
      }
      todo := todo - {tag};
    }
  }

  /** Fill of a branch if its pattern matches the text at its key. */
  method FillIfMatching(env: Env, f: FilterNode, msg: string, body: map<string, Value>, tag: Tag,
                        ghost t: Tree, ghost S: set<FilterNode>)
    returns (hit: bool, o: Outcome)
    requires Unfolds(f, t, S) && f.kind == KVRouter && env.parse(msg) == Object(body)
    requires tag in f.branches
    ensures hit == (tag in Matching(env, t, msg))
    ensures hit ==> Yields(env, t.branches[tag], msg, o)
    decreases t, 0
  {
    var value := FindByJsonPath(body, tag.key);
    var text := if value.Some? && value.value.Text? then value.value.text else "";
    hit, o := env.matches(tag.value, text), QUIET;
    if hit {
      o := Fill(env, f.branches[tag], msg, t.branches[tag], S);
    }
  }
}
