/**
 Acknowledged requests of a websocket connection as a state machine over the atomic operations
 of its table (server/streaming/ws_connection.go:45-56, 178-245).

 Invoking a callback takes the table's entry in two operations, a Load and a Delete, and then
 calls it. Responses and timeouts invoke in threads of their own, in any order; a response may
 name any sequence number.
 */
module AckTable {
  /** A callback, and the thread of a response or a timeout. */
  datatype Callback = Callback(id: int)
  datatype Thread = Thread(id: int)

  /** A thread that has loaded an entry and is still to delete it, or to call it. */
  datatype Holding = Holding(seqNo: nat, callback: Callback, deleted: bool)

  /** next is eventSeq; table is ackCallbacks; loads and fired count what happened. */
  datatype State = State(
    next: nat,
    seqOf: map<Callback, nat>,
    registered: set<Callback>,
    table: map<nat, Callback>,
    held: map<Thread, Holding>,
    loads: multiset<Callback>,
    fired: multiset<Callback>)

  const START := State(1, map[], {}, map[], map[], multiset{}, multiset{})

  datatype Step =
    | Create(callback: Callback)           // CreateRequest takes the next sequence number
    | Register(callback: Callback)         // addACK stores the callback
    | Load(thread: Thread, seqNo: nat)     // invokeAckCallback looks the entry up
    | Delete(thread: Thread)               // ... deletes it
    | Fire(thread: Thread)                 // ... and calls it

  /** The step is one a run can take: each callback is sent once, each thread invokes once at a time. */
  predicate Enabled(s: State, step: Step) {
    match step
    case Create(cb) => cb !in s.seqOf
    case Register(cb) => cb in s.seqOf && cb !in s.registered
    case Load(t, n) => t !in s.held
    case Delete(t) => t in s.held && !s.held[t].deleted
    case Fire(t) => t in s.held && s.held[t].deleted
  }

  function Next(s: State, step: Step): State
    requires Enabled(s, step)
  {
    match step
    case Create(cb) => s.(next := s.next + 1, seqOf := s.seqOf[cb := s.next])
    case Register(cb) => s.(registered := s.registered + {cb}, table := s.table[s.seqOf[cb] := cb])
    case Load(t, n) =>
      if n !in s.table then s
      else s.(held := s.held[t := Holding(n, s.table[n], false)], loads := s.loads + multiset{s.table[n]})
    case Delete(t) => s.(table := s.table - {s.held[t].seqNo}, held := s.held[t := s.held[t].(deleted := true)])
    case Fire(t) => s.(held := s.held - {t}, fired := s.fired + multiset{s.held[t].callback})
  }

  /** The threads that have loaded the callback and not yet called it. */
  function Holders(s: State, cb: Callback): set<Thread> {
    set t | t in s.held && s.held[t].callback == cb
  }

  /** The callback's entry is in the table, under its own number. */
  predicate Pending(s: State, cb: Callback) {
    cb in s.seqOf && s.seqOf[cb] in s.table && s.table[s.seqOf[cb]] == cb
  }

  /** Numbers are handed out once, and entries are registered callbacks under their own number. */
  ghost predicate NumbersInv(s: State) {
    && (forall cb | cb in s.seqOf :: s.seqOf[cb] < s.next)
    && (forall a, b | a in s.seqOf && b in s.seqOf && a != b :: s.seqOf[a] != s.seqOf[b])
    && s.registered <= s.seqOf.Keys
    && (forall n | n in s.table :: s.table[n] in s.registered && s.seqOf[s.table[n]] == n)
    && (forall t | t in s.held :: s.held[t].callback in s.registered && s.seqOf[s.held[t].callback] == s.held[t].seqNo)
  }

  /** Every load is a call made, or to be made by a thread that holds the callback. */
  ghost predicate LoadsCounted(s: State) {
    forall cb :: s.loads[cb] == s.fired[cb] + |Holders(s, cb)|
  }

  ghost predicate LoadsRegistered(s: State) {
    forall cb | s.loads[cb] > 0 :: cb in s.registered
  }

  ghost predicate UnloadedPending(s: State) {
    forall cb | cb in s.registered && s.loads[cb] == 0 :: Pending(s, cb)
  }

  ghost predicate CountsInv(s: State) {
    LoadsCounted(s) && LoadsRegistered(s) && UnloadedPending(s)
  }

  /** What every run keeps. */
  ghost predicate Inv(s: State) {
    NumbersInv(s) && CountsInv(s)
  }

  lemma HoldersAdd(s: State, t: Thread, h: Holding, cb: Callback)
    requires t !in s.held
    ensures |Holders(s.(held := s.held[t := h]), cb)| == |Holders(s, cb)| + if h.callback == cb then 1 else 0
  {
    var after := Holders(s.(held := s.held[t := h]), cb);
    assert after == if h.callback == cb then Holders(s, cb) + {t} else Holders(s, cb);
  }

  lemma HoldersKeep(s: State, s': State, cb: Callback)
    requires s'.held.Keys == s.held.Keys && forall t | t in s.held :: s'.held[t].callback == s.held[t].callback
    ensures Holders(s', cb) == Holders(s, cb)
  {
  }

  lemma HoldersRemove(s: State, t: Thread, cb: Callback)
    requires t in s.held
    ensures |Holders(s.(held := s.held - {t}), cb)| == |Holders(s, cb)| - if s.held[t].callback == cb then 1 else 0
  {
    var after := Holders(s.(held := s.held - {t}), cb);
    assert Holders(s, cb) == if s.held[t].callback == cb then after + {t} else after;
  }

  lemma NumbersKept(s: State, step: Step)
    requires NumbersInv(s) && Enabled(s, step)
    ensures NumbersInv(Next(s, step))
  {
  }

  lemma HoldersAfter(s: State, step: Step, cb: Callback)
    requires Enabled(s, step)
    ensures var s' := Next(s, step);
            s'.loads[cb] - s'.fired[cb] - |Holders(s', cb)| == s.loads[cb] - s.fired[cb] - |Holders(s, cb)|
  {
    var s' := Next(s, step);
    match step {
      case Load(t, n) =>
        if n in s.table {
          HoldersAdd(s, t, Holding(n, s.table[n], false), cb);
          HoldersKeep(s.(held := s'.held), s', cb);
        }
      case Delete(t) => HoldersKeep(s, s', cb);
      case Fire(t) =>
        HoldersRemove(s, t, cb);
        HoldersKeep(s.(held := s'.held), s', cb);
      case Create(_) => HoldersKeep(s, s', cb);
      case Register(_) => HoldersKeep(s, s', cb);
    }
  }

  lemma {:induction false} LoadsCountedKept(s: State, step: Step)
    requires LoadsCounted(s) && Enabled(s, step)
    ensures LoadsCounted(Next(s, step))
  {
    var s' := Next(s, step);
    forall cb ensures s'.loads[cb] == s'.fired[cb] + |Holders(s', cb)| { HoldersAfter(s, step, cb); }
  }

  lemma {:induction false} LoadsRegisteredKept(s: State, step: Step)
    requires NumbersInv(s) && LoadsRegistered(s) && Enabled(s, step)
    ensures LoadsRegistered(Next(s, step))
  {
  }

  lemma {:induction false} UnloadedKeptByDelete(s: State, t: Thread)
    requires NumbersInv(s) && LoadsCounted(s) && UnloadedPending(s) && Enabled(s, Delete(t))
    ensures UnloadedPending(Next(s, Delete(t)))
  {
    forall cb | cb in s.registered && s.loads[cb] == 0 ensures s.held[t].callback != cb && Pending(s, cb) {
      HolderCounts(s, t, cb);
    }
  }

  lemma {:induction false} UnloadedPendingKept(s: State, step: Step)
    requires NumbersInv(s) && LoadsCounted(s) && UnloadedPending(s) && Enabled(s, step)
    ensures UnloadedPending(Next(s, step))
  {
    hide LoadsCounted;
    if step.Delete? {
      UnloadedKeptByDelete(s, step.thread);
    } else {
      var s' := Next(s, step);
      forall cb | cb in s'.registered && s'.loads[cb] == 0 ensures Pending(s', cb) {}
    }
  }

  /** A thread that holds the callback is one of its holders. */
  lemma HolderCounts(s: State, t: Thread, cb: Callback)
    requires t in s.held
    ensures s.held[t].callback == cb ==> |Holders(s, cb)| >= 1
  {
    if s.held[t].callback == cb { assert t in Holders(s, cb); }
  }

  lemma TwoHolders(s: State, a: Thread, b: Thread, cb: Callback)
    requires a in Holders(s, cb) && b in Holders(s, cb) && a != b
    ensures |Holders(s, cb)| >= 2
  {
    assert {a, b} <= Holders(s, cb);
    assert |Holders(s, cb) - {a, b}| == |Holders(s, cb)| - |{a, b}|;
  }

  lemma {:induction false} InvKept(s: State, step: Step)
    requires Inv(s) && Enabled(s, step)
    ensures Inv(Next(s, step))
  {
    NumbersKept(s, step);
    LoadsCountedKept(s, step);
    LoadsRegisteredKept(s, step);
    UnloadedPendingKept(s, step);
  }

  /** The state after a run; a step that is not enabled does not happen. */
  function Run(steps: seq<Step>): State
    decreases |steps|
  {
    if steps == [] then START
    else
      var before, step := Run(steps[..|steps| - 1]), steps[|steps| - 1];
      if Enabled(before, step) then Next(before, step) else before
  }

  lemma {:induction false} RunInv(steps: seq<Step>)
    ensures Inv(Run(steps))
    decreases |steps|
  {
    if steps != [] {
      var before, step := Run(steps[..|steps| - 1]), steps[|steps| - 1];
      RunInv(steps[..|steps| - 1]);
      if Enabled(before, step) { InvKept(before, step); }
    }
  }

  /** Registering never overwrites an entry, and puts the callback under its own number. */
  lemma NoOverwrite(steps: seq<Step>, cb: Callback)
    requires Enabled(Run(steps), Register(cb))
    ensures Run(steps).seqOf[cb] !in Run(steps).table
  {
    RunInv(steps);
  }

  /** In every run each callback is called as often as its entry was loaded, but for the
      threads still on their way to the call. */
  lemma FiredAsLoaded(steps: seq<Step>, cb: Callback)
    ensures var s := Run(steps);
            && s.loads[cb] == s.fired[cb] + |Holders(s, cb)|
            && (s.held == map[] ==> s.fired[cb] == s.loads[cb])
            && (cb in s.registered && s.loads[cb] == 0 ==> Pending(s, cb))
  {
    RunInv(steps);
    var s := Run(steps);
    if s.held == map[] { assert Holders(s, cb) == {}; }
  }

  // ---- once --------------------------------------------------------------------------

  /** The step loads an entry that another thread has loaded and not yet deleted. */
  predicate Overlaps(s: State, step: Step) {
    step.Load? && step.seqNo in s.table && IsHeld(s, step.seqNo)
  }

  /** No invocation loads an entry between another's Load and Delete. */
  predicate OneByOne(steps: seq<Step>)
    decreases |steps|
  {
    steps == [] ||
    var before, step := Run(steps[..|steps| - 1]), steps[|steps| - 1];
    OneByOne(steps[..|steps| - 1]) && !(Enabled(before, step) && Overlaps(before, step))
  }

  /** Each entry is loaded once at most; a loaded entry is held, or gone. */
  ghost predicate OnceInv(s: State) {
    && (forall cb :: s.loads[cb] <= 1)
    && (forall n | n in s.table && s.loads[s.table[n]] == 1 :: IsHeld(s, n))
    && (forall t | t in s.held :: s.held[t].deleted <==> s.held[t].seqNo !in s.table)
  }

  lemma HeldOnce(s: State, a: Thread, b: Thread)
    requires Inv(s) && OnceInv(s) && a in s.held && b in s.held && s.held[a].callback == s.held[b].callback
    ensures a == b
  {
    if a != b { TwoHolders(s, a, b, s.held[a].callback); }
  }

  lemma SameSeqSameCallback(s: State, a: Thread, b: Thread)
    requires Inv(s) && a in s.held && b in s.held && s.held[a].seqNo == s.held[b].seqNo
    ensures s.held[a].callback == s.held[b].callback
  {
  }

  /** Some thread holds the entry. */
  predicate IsHeld(s: State, n: nat) {
    exists t | t in s.held :: s.held[t].seqNo == n
  }

  lemma OnceKeptByLoad(s: State, t: Thread, n: nat)
    requires Inv(s) && OnceInv(s) && Enabled(s, Load(t, n)) && n in s.table && !Overlaps(s, Load(t, n))
    ensures OnceInv(Next(s, Load(t, n)))
  {
    var s' := Next(s, Load(t, n));
    assert s.loads[s.table[n]] == 0;
    assert s'.held[t].seqNo == n;
    forall m | m in s'.table && s'.loads[s'.table[m]] == 1 ensures IsHeld(s', m) {
      if m != n {
        var u :| u in s.held && s.held[u].seqNo == m;
        assert s'.held[u].seqNo == m;
      }
    }
  }

  lemma OnceKeptByDelete(s: State, t: Thread)
    requires Inv(s) && OnceInv(s) && Enabled(s, Delete(t))
    ensures OnceInv(Next(s, Delete(t)))
  {
    hide CountsInv, IsHeld;
    var s' := Next(s, Delete(t));
    forall u | u in s'.held ensures s'.held[u].deleted <==> s'.held[u].seqNo !in s'.table {
      if s.held[u].seqNo == s.held[t].seqNo && u != t {
        SameSeqSameCallback(s, u, t);
        HeldOnce(s, u, t);
      }
    }
    StillHeldByDelete(s, t);
  }

  lemma StillHeldByDelete(s: State, t: Thread)
    requires Enabled(s, Delete(t)) && forall n | n in s.table && s.loads[s.table[n]] == 1 :: IsHeld(s, n)
    ensures var s' := Next(s, Delete(t)); forall n | n in s'.table && s'.loads[s'.table[n]] == 1 :: IsHeld(s', n)
  {
    var s' := Next(s, Delete(t));
    forall n | n in s'.table && s'.loads[s'.table[n]] == 1 ensures IsHeld(s', n) {
      var u :| u in s.held && s.held[u].seqNo == n;
      assert s'.held[u].seqNo == n;
    }
  }

  lemma OnceKeptByFire(s: State, t: Thread)
    requires Inv(s) && OnceInv(s) && Enabled(s, Fire(t))
    ensures OnceInv(Next(s, Fire(t)))
  {
    var s' := Next(s, Fire(t));
    forall n | n in s'.table && s'.loads[s'.table[n]] == 1 ensures IsHeld(s', n) {
      var u :| u in s.held && s.held[u].seqNo == n;
      assert u in s'.held;
    }
  }

  lemma OnceKeptByRegister(s: State, cb: Callback)
    requires Inv(s) && OnceInv(s) && Enabled(s, Register(cb))
    ensures OnceInv(Next(s, Register(cb)))
  {
    var s' := Next(s, Register(cb));
    assert s.seqOf[cb] !in s.table && s.loads[cb] == 0;
    forall n | n in s'.table && s'.loads[s'.table[n]] == 1 ensures IsHeld(s', n) {
      assert n in s.table && IsHeld(s, n);
    }
  }

  lemma {:induction false} OnceKept(s: State, step: Step)
    requires Inv(s) && OnceInv(s) && Enabled(s, step) && !Overlaps(s, step)
    ensures OnceInv(Next(s, step))
  {
    match step {
      case Create(cb) =>
        assert forall n | n in s.table && s.loads[s.table[n]] == 1 :: IsHeld(s, n) && IsHeld(Next(s, step), n);
      case Register(cb) => OnceKeptByRegister(s, cb);
      case Load(t, n) => if n in s.table { OnceKeptByLoad(s, t, n); }
      case Delete(t) => OnceKeptByDelete(s, t);
      case Fire(t) => OnceKeptByFire(s, t);
    }
  }

  lemma {:induction false} OnceInvOfRun(steps: seq<Step>)
    requires OneByOne(steps)
    ensures OnceInv(Run(steps))
    decreases |steps|
  {
    if steps != [] {
      var before, step := Run(steps[..|steps| - 1]), steps[|steps| - 1];
      OnceInvOfRun(steps[..|steps| - 1]);
      RunInv(steps[..|steps| - 1]);
      if Enabled(before, step) { OnceKept(before, step); }
    }
  }

  /** An overlapping load is a second load. */
  lemma {:induction false} OverlapLoadsTwice(steps: seq<Step>) returns (cb: Callback)
    requires !OneByOne(steps)
    ensures Run(steps).loads[cb] >= 2
    decreases |steps|
  {
    var before, step := Run(steps[..|steps| - 1]), steps[|steps| - 1];
    if OneByOne(steps[..|steps| - 1]) {
      RunInv(steps[..|steps| - 1]);
      cb := before.table[step.seqNo];
      var t :| t in before.held && before.held[t].seqNo == step.seqNo;
      HolderCounts(before, t, cb);
    } else {
      cb := OverlapLoadsTwice(steps[..|steps| - 1]);
    }
  }

  /** No callback is called twice, threads still on their way included, exactly in the runs
      in which no invocation comes between another's Load and Delete of the same entry. */
  lemma FiredOnce(steps: seq<Step>)
    ensures OneByOne(steps) <==> forall cb :: Run(steps).fired[cb] + |Holders(Run(steps), cb)| <= 1
  {
    RunInv(steps);
    if OneByOne(steps) {
      OnceInvOfRun(steps);
    } else {
      var cb := OverlapLoadsTwice(steps);
      assert Run(steps).loads[cb] == Run(steps).fired[cb] + |Holders(Run(steps), cb)|;
    }
  }

  /** Then a registered callback is pending, or taken by one thread, or has been called once. */
  lemma PendingOrFired(steps: seq<Step>, cb: Callback)
    requires OneByOne(steps) && cb in Run(steps).registered
    ensures var s := Run(steps);
            || (Pending(s, cb) && s.fired[cb] == 0 && |Holders(s, cb)| == 0)
            || (s.fired[cb] == 0 && |Holders(s, cb)| == 1)
            || (!Pending(s, cb) && s.fired[cb] == 1 && |Holders(s, cb)| == 0)
  {
    RunInv(steps);
    OnceInvOfRun(steps);
    var s := Run(steps);
    if s.loads[cb] == 1 && Pending(s, cb) {
      var t :| t in s.held && s.held[t].seqNo == s.seqOf[cb];
      HolderCounts(s, t, cb);
    }
  }

  lemma LoadedTwice(cb: Callback, response: Thread, timeout: Thread)
    requires response != timeout
    ensures var s := Run([Create(cb), Register(cb)] + [Load(response, 1), Load(timeout, 1)]);
            && s.held == map[response := Holding(1, cb, false), timeout := Holding(1, cb, false)]
            && s.fired == multiset{}
  {
    var s1 := [Create(cb), Register(cb)];
    RunTwo([], Create(cb), Register(cb));
    assert s1 == [] + s1;
    assert Run(s1).table == map[1 := cb] && Run(s1).held == map[] && Run(s1).fired == multiset{};
    RunTwo(s1, Load(response, 1), Load(timeout, 1));
  }

  /** A response and the timeout of the same request, interleaved, call the callback twice. */
  lemma CalledTwice(cb: Callback, response: Thread, timeout: Thread)
    requires response != timeout
    ensures exists steps :: Run(steps).fired[cb] == 2
  {
    var s2 := [Create(cb), Register(cb)] + [Load(response, 1), Load(timeout, 1)];
    LoadedTwice(cb, response, timeout);
    var s3 := s2 + [Delete(response), Delete(timeout)];
    var s4 := s3 + [Fire(response), Fire(timeout)];
    RunTwo(s2, Delete(response), Delete(timeout));
    assert Run(s3).held == map[response := Holding(1, cb, true), timeout := Holding(1, cb, true)];
    assert Run(s3).fired == multiset{};
    RunTwo(s3, Fire(response), Fire(timeout));
    assert Run(s4).fired[cb] == 2;
  }

  lemma {:induction false} RunTwo(steps: seq<Step>, a: Step, b: Step)
    ensures var mid := if Enabled(Run(steps), a) then Next(Run(steps), a) else Run(steps);
            Run(steps + [a, b]) == if Enabled(mid, b) then Next(mid, b) else mid
  {
    var all := steps + [a, b];
    assert all[..|all| - 1] == steps + [a] && (steps + [a])[..|steps|] == steps;
  }

  /**
   When a response, or the timeout, finds nothing: exactly if the callback is not registered yet or its
   entry is gone. An entry is gone only after someone loaded it; so a response that nobody was ahead of
   is lost exactly if it comes before its callback is registered.
   */
  lemma {:induction false} ResponseLostIff(steps: seq<Step>, cb: Callback, thread: Thread)
    requires cb in Run(steps).seqOf && Enabled(Run(steps), Load(thread, Run(steps).seqOf[cb]))
    ensures var s := Run(steps);
            var lost := Next(s, Load(thread, s.seqOf[cb])) == s;
            && (lost <==> cb !in s.registered || !Pending(s, cb))
            && (lost && s.loads[cb] == 0 <==> cb !in s.registered)
  {
    RunInv(steps);
    var s := Run(steps);
    if s.seqOf[cb] in s.table {
      assert Next(s, Load(thread, s.seqOf[cb])).held != s.held by {
        assert thread in Next(s, Load(thread, s.seqOf[cb])).held;
      }
      assert s.seqOf[s.table[s.seqOf[cb]]] == s.seqOf[cb];
    }
  }

  /** A response handled before its callback is registered is lost: the callback stays
      pending, and only the timeout will call it. */
  lemma EarlyResponseLost(cb: Callback, response: Thread)
    ensures var s := Run([Create(cb), Load(response, 1), Register(cb)]);
            s.fired[cb] == 0 && s.held == map[] && 1 in s.table && s.table[1] == cb
  {
    RunTwo([Create(cb)], Load(response, 1), Register(cb));
    assert [Create(cb)] + [Load(response, 1), Register(cb)] == [Create(cb), Load(response, 1), Register(cb)];
    assert [Create(cb)][..0] == [];
  }
}
