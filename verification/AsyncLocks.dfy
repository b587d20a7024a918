/** Interleaved runs of the captcha service's coroutines, which suspend only at awaits.

  A coroutine body is a statement tree; a running coroutine is a stack of frames whose
  `Release` frames are exactly the locks it holds. `OrderedStmt` is the static discipline
  "acquire upwards only": the service obeys it, and coroutines that obey it never deadlock,
  in any interleaving and in any number. */
module AsyncLocks {

  import opened CaptchaProcedures

  datatype Frame = Run(stmt: Stmt) | Release(lock: Lock) | Handle(handler: Stmt)

  datatype Stack = Done | Push(top: Frame, rest: Stack)

  datatype Coroutine = Coroutine(raising: bool, stack: Stack)

  type System = seq<Coroutine>

  // ---------------------------------------------------------------- holding

  function Held(k: Stack, l: Lock): nat {
    match k
    case Done => 0
    case Push(f, rest) => (if f == Release(l) then 1 else 0) + Held(rest, l)
  }

  function TotalHeld(s: System, l: Lock): nat {
    if s == [] then 0 else Held(s[0].stack, l) + TotalHeld(s[1..], l)
  }

  predicate Free(s: System, l: Lock) {
    TotalHeld(s, l) < Capacity(l)
  }

  // ---------------------------------------------------------------- semantics

  /** One atomic step of the coroutine `c` to `d` while the whole system is `s`. */
  ghost predicate CoStep(s: System, c: Coroutine, d: Coroutine) {
    match c.stack
    case Done => false
    case Push(Release(_), rest) => d == c.(stack := rest)
    case Push(Handle(h), rest) =>
      d == if c.raising then Coroutine(false, Push(Run(h), rest)) else Coroutine(false, rest)
    case Push(Run(stmt), rest) =>
      if c.raising then d == Coroutine(true, rest) else StmtStep(s, stmt, rest, d)
  }

  ghost predicate StmtStep(s: System, stmt: Stmt, rest: Stack, d: Coroutine) {
    match stmt
    case Skip => d == Coroutine(false, rest)
    case Await => d.stack == rest
    case Call(p) => d == Coroutine(false, Push(Run(Code(p)), rest))
    case Seq(a, b) => d == Coroutine(false, Push(Run(a), Push(Run(b), rest)))
    case Choice(a, b) => d == Coroutine(false, Push(Run(a), rest)) || d == Coroutine(false, Push(Run(b), rest))
    case Loop(b) => d == Coroutine(false, rest) || d == Coroutine(false, Push(Run(b), Push(Run(stmt), rest)))
    case Sync(l, b) => Free(s, l) && d == Coroutine(false, Push(Run(b), Push(Release(l), rest)))
    case SyncSolve(b) => exists t: nat :: d == Coroutine(false, Push(Run(Sync(Solve(t), b)), rest))
    case TimedSync(l, b, late) =>
      || (Free(s, l) && d == Coroutine(false, Push(Run(b), Push(Release(l), rest))))
      || d == Coroutine(false, Push(Run(late), rest))
    case Try(b, h) => d == Coroutine(false, Push(Run(b), Push(Handle(h), rest)))
  }

  function Start(p: Proc): Coroutine {
    Coroutine(false, Push(Run(Call(p)), Done))
  }

  /** Someone calls a public coroutine of the service, or a running coroutine moves. */
  ghost predicate Next(s: System, s': System) {
    || (exists p :: Public(p) && s' == s + [Start(p)])
    || (exists i, d :: 0 <= i < |s| && CoStep(s, s[i], d) && s' == s[i := d])
  }

  ghost predicate Behaviour(run: seq<System>) {
    && |run| > 0
    && run[0] == []
    && forall i :: 0 <= i < |run| - 1 ==> Next(run[i], run[i + 1])
  }

  // ---------------------------------------------------------------- discipline

  /** The rank of the lock taken last, 0 when none is held. */
  function Level(k: Stack): nat {
    match k
    case Done => 0
    case Push(Release(l), _) => Rank(l)
    case Push(_, rest) => Level(rest)
  }

  predicate OrderedStack(k: Stack) {
    match k
    case Done => true
    case Push(Run(s), rest) => OrderedStmt(s, Level(rest)) && OrderedStack(rest)
    case Push(Handle(h), rest) => OrderedStmt(h, Level(rest)) && OrderedStack(rest)
    case Push(Release(l), rest) => Rank(l) > Level(rest) && OrderedStack(rest)
  }

  ghost predicate Good(s: System) {
    && (forall i :: 0 <= i < |s| ==> OrderedStack(s[i].stack))
    && (forall l :: TotalHeld(s, l) <= Capacity(l))
  }

  // ---------------------------------------------------------------- blocking

  predicate Finished(c: Coroutine) {
    c.stack == Done
  }

  predicate WaitsOn(c: Coroutine, l: Lock) {
    !c.raising && c.stack.Push? && c.stack.top.Run? && c.stack.top.stmt.Sync? && c.stack.top.stmt.lock == l
  }

  /** Suspended at `async with l` while `l` is taken. */
  ghost predicate Blocked(s: System, i: nat)
    requires i < |s|
  {
    exists l :: WaitsOn(s[i], l) && !Free(s, l)
  }

  /** Coroutine `i` is blocked on a lock that coroutine `j` holds. */
  ghost predicate WaitsFor(s: System, i: nat, j: nat)
    requires i < |s| && j < |s|
  {
    exists l :: WaitsOn(s[i], l) && !Free(s, l) && Held(s[j].stack, l) > 0
  }

  ghost predicate CanStep(s: System, i: nat)
    requires i < |s|
  {
    exists d :: CoStep(s, s[i], d)
  }

  // ---------------------------------------------------------------- theorems

  /** No two coroutines are ever inside the same mutex, and nobody is inside twice. */
  lemma MutualExclusion(run: seq<System>, n: nat, i: nat, j: nat, l: Lock)
    requires Behaviour(run) && n < |run|
    requires i < |run[n]| && j < |run[n]| && l != LegacySlots
    requires Held(run[n][i].stack, l) > 0 && Held(run[n][j].stack, l) > 0
    ensures i == j && Held(run[n][i].stack, l) == 1
  {
    BehaviourGood(run, n);
    var s := run[n];
    HeldBelowLevel(s[i].stack, l);
    if i < j {
      TwoHolders(s, i, j, l);
    } else if j < i {
      TwoHolders(s, j, i, l);
    }
  }

  /** No chain of coroutines, each waiting for a lock the next one holds, closes into a cycle. */
  lemma NoWaitCycle(run: seq<System>, n: nat, chain: seq<nat>)
    requires Behaviour(run) && n < |run|
    requires |chain| >= 2 && forall k :: 0 <= k < |chain| ==> chain[k] < |run[n]|
    requires forall k :: 0 <= k < |chain| - 1 ==> WaitsFor(run[n], chain[k], chain[k + 1])
    ensures chain[0] != chain[|chain| - 1]
  {
    BehaviourGood(run, n);
    var s := run[n];
    if chain[0] == chain[|chain| - 1] {
      var last := |chain| - 2;
      assert WaitsFor(s, chain[0], chain[1]);
      var first :| WaitsOn(s[chain[0]], first) && !Free(s, first) && Held(s[chain[1]].stack, first) > 0;
      var goal := ChainClimbs(s, chain, last, first);
      WaitsAboveHeld(s, chain[0], first, goal);
    }
  }

  /** Deadlock freedom: behind every blocked coroutine stands one that holds a lock of the same
      or a higher rank and can take a step right now. */
  lemma NoDeadlock(run: seq<System>, n: nat, i: nat) returns (j: nat, m: Lock)
    requires Behaviour(run) && n < |run|
    requires i < |run[n]| && Blocked(run[n], i)
    ensures j < |run[n]| && j != i && Held(run[n][j].stack, m) > 0 && CanStep(run[n], j)
    ensures exists l :: WaitsOn(run[n][i], l) && Rank(l) <= Rank(m)
  {
    BehaviourGood(run, n);
    var s := run[n];
    var l :| WaitsOn(s[i], l) && !Free(s, l);
    j, m := FollowHolders(s, l);
    if j == i {
      WaitsAboveHeld(s, i, l, m);
    }
  }

  /** Along a wait chain the awaited ranks never fall. */
  lemma {:induction false} ChainClimbs(s: System, chain: seq<nat>, k: nat, first: Lock) returns (l: Lock)
    requires Good(s)
    requires k + 1 < |chain| && forall j :: 0 <= j < |chain| ==> chain[j] < |s|
    requires forall j :: 0 <= j < |chain| - 1 ==> WaitsFor(s, chain[j], chain[j + 1])
    requires WaitsOn(s[chain[0]], first)
    ensures WaitsOn(s[chain[k]], l) && Held(s[chain[k + 1]].stack, l) > 0 && Rank(l) >= Rank(first)
  {
    assert WaitsFor(s, chain[k], chain[k + 1]);
    l :| WaitsOn(s[chain[k]], l) && !Free(s, l) && Held(s[chain[k + 1]].stack, l) > 0;
    if k > 0 {
      var m := ChainClimbs(s, chain, k - 1, first);
      WaitsAboveHeld(s, chain[k], l, m);
    }
  }

  lemma {:induction false} FollowHolders(s: System, l: Lock) returns (j: nat, m: Lock)
    requires Good(s) && !Free(s, l)
    ensures j < |s| && Held(s[j].stack, m) > 0 && Rank(m) >= Rank(l) && CanStep(s, j)
    decreases 8 - Rank(l)
  {
    j := HolderExists(s, l);
    m := l;
    if Blocked(s, j) {
      var up :| WaitsOn(s[j], up) && !Free(s, up);
      WaitsAboveHeld(s, j, up, l);
      j, m := FollowHolders(s, up);
    } else {
      OnlyLocksBlock(s, j);
    }
  }

  // ---------------------------------------------------------------- the service obeys the discipline

  lemma {:induction false} OrderedDown(s: Stmt, high: nat, low: nat)
    requires OrderedStmt(s, high) && low <= high
    ensures OrderedStmt(s, low)
  {
    match s
    case Seq(a, b) => OrderedDown(a, high, low); OrderedDown(b, high, low);
    case Choice(a, b) => OrderedDown(a, high, low); OrderedDown(b, high, low);
    case Loop(b) => OrderedDown(b, high, low);
    case TimedSync(_, _, late) => OrderedDown(late, high, low);
    case Try(b, h) => OrderedDown(b, high, low); OrderedDown(h, high, low);
    case _ =>
  }

  lemma CodeRespectsTakes(p: Proc, level: nat)
    requires level < Takes(p)
    ensures OrderedStmt(Code(p), level)
  {
    OrderedDown(Code(p), Takes(p) - 1, level);
  }

  // ---------------------------------------------------------------- ordered stacks

  /** Ranks grow strictly up an ordered stack: what is held ranks at most `Level`, and once only. */
  lemma {:induction false} HeldBelowLevel(k: Stack, l: Lock)
    requires OrderedStack(k)
    ensures Held(k, l) <= 1
    ensures Held(k, l) > 0 ==> Rank(l) <= Level(k)
  {
    if k.Push? {
      HeldBelowLevel(k.rest, l);
    }
  }

  lemma {:induction false} TotalHeldUpdate(s: System, i: nat, d: Coroutine, l: Lock)
    requires i < |s|
    ensures TotalHeld(s[i := d], l) == TotalHeld(s, l) - Held(s[i].stack, l) + Held(d.stack, l)
  {
    if i == 0 {
      assert s[i := d][1..] == s[1..];
    } else {
      assert s[i := d][1..] == s[1..][i - 1 := d];
      TotalHeldUpdate(s[1..], i - 1, d, l);
    }
  }

  lemma {:induction false} TotalHeldAppend(s: System, d: Coroutine, l: Lock)
    ensures TotalHeld(s + [d], l) == TotalHeld(s, l) + Held(d.stack, l)
  {
    if s == [] {
      assert s + [d] == [d];
    } else {
      assert (s + [d])[1..] == s[1..] + [d];
      TotalHeldAppend(s[1..], d, l);
    }
  }

  lemma {:induction false} HolderExists(s: System, l: Lock) returns (j: nat)
    requires TotalHeld(s, l) > 0
    ensures j < |s| && Held(s[j].stack, l) > 0
  {
    if Held(s[0].stack, l) > 0 {
      j := 0;
    } else {
      var m := HolderExists(s[1..], l);
      j := m + 1;
    }
  }

  lemma {:induction false} TwoHolders(s: System, i: nat, j: nat, l: Lock)
    requires i < j < |s|
    ensures TotalHeld(s, l) >= Held(s[i].stack, l) + Held(s[j].stack, l)
  {
    if i == 0 {
      OneHolder(s[1..], j - 1, l);
    } else {
      TwoHolders(s[1..], i - 1, j - 1, l);
    }
  }

  lemma {:induction false} OneHolder(s: System, j: nat, l: Lock)
    requires j < |s|
    ensures TotalHeld(s, l) >= Held(s[j].stack, l)
  {
    if j > 0 {
      OneHolder(s[1..], j - 1, l);
    }
  }

  /** A step keeps the stack ordered, and gains a lock only when that lock is free. */
  lemma StepKeepsOrder(s: System, c: Coroutine, d: Coroutine)
    requires OrderedStack(c.stack) && CoStep(s, c, d)
    ensures OrderedStack(d.stack)
    ensures forall l :: Held(d.stack, l) > Held(c.stack, l) ==> Free(s, l) && Held(d.stack, l) == Held(c.stack, l) + 1
  {
    match c.stack
    case Push(Release(l), rest) =>
    case Push(Handle(h), rest) =>
    case Push(Run(stmt), rest) =>
      if !c.raising {
        match stmt
        case Call(p) => CodeRespectsTakes(p, Level(rest));
        case SyncSolve(b) =>
          var t: nat :| d == Coroutine(false, Push(Run(Sync(Solve(t), b)), rest));
        case _ =>
      }
  }

  lemma GoodMove(s: System, i: nat, d: Coroutine)
    requires Good(s) && i < |s| && CoStep(s, s[i], d)
    ensures Good(s[i := d])
  {
    StepKeepsOrder(s, s[i], d);
    forall l ensures TotalHeld(s[i := d], l) <= Capacity(l) {
      TotalHeldUpdate(s, i, d, l);
    }
  }

  lemma GoodCall(s: System, p: Proc)
    requires Good(s)
    ensures Good(s + [Start(p)])
  {
    forall l ensures TotalHeld(s + [Start(p)], l) <= Capacity(l) {
      TotalHeldAppend(s, Start(p), l);
    }
  }

  lemma GoodNext(s: System, s': System)
    requires Good(s) && Next(s, s')
    ensures Good(s')
  {
    if i, d :| 0 <= i < |s| && CoStep(s, s[i], d) && s' == s[i := d] {
      GoodMove(s, i, d);
    } else {
      var p :| Public(p) && s' == s + [Start(p)];
      GoodCall(s, p);
    }
  }

  /** Every state of every behaviour is good. */
  lemma {:induction false} BehaviourGood(run: seq<System>, n: nat)
    requires Behaviour(run) && n < |run|
    ensures Good(run[n])
  {
    if n > 0 {
      BehaviourGood(run, n - 1);
      GoodNext(run[n - 1], run[n]);
    }
  }

  /** Only waiting for a lock can stop an unfinished coroutine. */
  lemma OnlyLocksBlock(s: System, i: nat)
    requires i < |s| && !Finished(s[i]) && !Blocked(s, i)
    ensures CanStep(s, i)
  {
    var c := s[i];
    match c.stack
    case Push(Release(l), rest) => assert CoStep(s, c, c.(stack := rest));
    case Push(Handle(h), rest) =>
      assert CoStep(s, c, if c.raising then Coroutine(false, Push(Run(h), rest)) else Coroutine(false, rest));
    case Push(Run(stmt), rest) =>
      if c.raising {
        assert CoStep(s, c, Coroutine(true, rest));
      } else {
        match stmt
        case Skip => assert CoStep(s, c, Coroutine(false, rest));
        case Await => assert CoStep(s, c, Coroutine(false, rest));
        case Call(p) => assert CoStep(s, c, Coroutine(false, Push(Run(Code(p)), rest)));
        case Seq(a, b) => assert CoStep(s, c, Coroutine(false, Push(Run(a), Push(Run(b), rest))));
        case Choice(a, b) => assert CoStep(s, c, Coroutine(false, Push(Run(a), rest)));
        case Loop(b) => assert CoStep(s, c, Coroutine(false, rest));
        case Sync(l, b) =>
          assert WaitsOn(s[i], l);
          assert CoStep(s, c, Coroutine(false, Push(Run(b), Push(Release(l), rest))));
        case SyncSolve(b) => assert CoStep(s, c, Coroutine(false, Push(Run(Sync(Solve(0), b)), rest)));
        case TimedSync(l, b, late) => assert CoStep(s, c, Coroutine(false, Push(Run(late), rest)));
        case Try(b, h) => assert CoStep(s, c, Coroutine(false, Push(Run(b), Push(Handle(h), rest))));
      }
  }

  /** A coroutine waiting for `l` holds only locks that rank below `l`; so it never waits for one of its own. */
  lemma WaitsAboveHeld(s: System, i: nat, l: Lock, m: Lock)
    requires Good(s) && i < |s| && WaitsOn(s[i], l) && Held(s[i].stack, m) > 0
    ensures Rank(m) < Rank(l) && m != l
  {
    assert OrderedStack(s[i].stack);
    HeldBelowLevel(s[i].stack.rest, m);
  }
}
