/** What the steps of a coroutine do to its locks: where locks are taken and given back, how an exception unwinds,
    and when a coroutine can be told apart from one that is done. */
module AsyncSteps {
  import opened CaptchaProcedures
  import opened AsyncLocks

  function Running(stmt: Stmt, rest: Stack): Coroutine {
    Coroutine(false, Push(Run(stmt), rest))
  }

  predicate Enters(c: Coroutine, l: Lock, d: Coroutine) {
    && !c.raising && c.stack.Push? && c.stack.top.Run?
    && var stmt := c.stack.top.stmt;
       (stmt.Sync? || stmt.TimedSync?) && stmt.lock == l && d == Running(stmt.body, Push(Release(l), c.stack.rest))
  }

  /** A lock is taken exactly by entering an `async with` on it, a timed one included, while it is free, and given
      back exactly by leaving its body, be it by an exception; no other step changes what is held. */
  lemma HeldChanges(s: System, c: Coroutine, d: Coroutine, l: Lock)
    requires CoStep(s, c, d)
    ensures Held(d.stack, l) == Held(c.stack, l) +
              if Enters(c, l, d) then 1 else if c.stack.top == Release(l) then -1 else 0
    ensures Enters(c, l, d) ==> Free(s, l)
  {
  }

  /** A statement is entered, and what follows it waits underneath. */
  lemma Entering(s: System, a: Stmt, b: Stmt, p: Proc, k: Stack, d: Coroutine)
    ensures CoStep(s, Running(Seq(a, b), k), d) <==> d == Running(a, Push(Run(b), k))
    ensures CoStep(s, Running(Call(p), k), d) <==> d == Running(Code(p), k)
    ensures CoStep(s, Running(Choice(a, b), k), d) <==> d == Running(a, k) || d == Running(b, k)
    ensures CoStep(s, Running(Loop(a), k), d) <==>
              d == Coroutine(false, k) || d == Running(a, Push(Run(Loop(a)), k))
    ensures CoStep(s, Running(Try(a, b), k), d) <==> d == Running(a, Push(Handle(b), k))
    ensures CoStep(s, Running(Skip, k), d) <==> d == Coroutine(false, k)
    ensures CoStep(s, Running(Await, k), d) <==> d == Coroutine(false, k) || d == Coroutine(true, k)
    ensures CoStep(s, Coroutine(false, Push(Handle(b), k)), d) <==> d == Coroutine(false, k)
  {
  }

  /** Locks are waited for, with a deadline or without; a solve lock is that of some tab. */
  lemma Waiting(s: System, l: Lock, a: Stmt, late: Stmt, k: Stack, d: Coroutine)
    ensures CoStep(s, Running(Sync(l, a), k), d) <==>
              TotalHeld(s, l) < Capacity(l) && d == Running(a, Push(Release(l), k))
    ensures CoStep(s, Running(TimedSync(l, a, late), k), d) <==>
              (TotalHeld(s, l) < Capacity(l) && d == Running(a, Push(Release(l), k))) || d == Running(late, k)
    ensures CoStep(s, Running(SyncSolve(a), k), d) <==> exists t: nat :: d == Running(Sync(Solve(t), a), k)
    ensures CoStep(s, Coroutine(false, Push(Release(l), k)), d) <==> d == Coroutine(false, k)
  {
  }

  /** The part of the stack below the nearest handler, and that handler. */
  function Unwound(k: Stack): Coroutine {
    match k
    case Done => Coroutine(true, Done)
    case Push(Handle(h), rest) => Running(h, rest)
    case Push(_, rest) => Unwound(rest)
  }

  /** An exception gives back every lock taken since the nearest handler, one by one and without waiting, and
      goes on there; without a handler the coroutine ends, with no lock left. */
  lemma {:induction false} Unwinds(s: System, k: Stack) returns (run: seq<Coroutine>)
    ensures |run| > 0 && run[0] == Coroutine(true, k) && run[|run| - 1] == Unwound(k)
    ensures forall i :: 0 <= i < |run| - 1 ==> CoStep(s, run[i], run[i + 1])
  {
    run := [Coroutine(true, k)];
    if k.Push? {
      if k.top.Handle? {
        run := run + [Unwound(k)];
      } else {
        var later := Unwinds(s, k.rest);
        run := run + later;
      }
    }
  }

  /** It has no other choice. */
  lemma OnlyUnwinds(s: System, k: Stack, d: Coroutine)
    requires CoStep(s, Coroutine(true, k), d)
    ensures k.Push? && d == if k.top.Handle? then Unwound(k) else Coroutine(true, k.rest)
  {
  }

  // ---------------------------------------------------------------- runs of the whole service

  /** Any public coroutine may be called at any time, any number of times, and any coroutine that can step may be
      the next to do so; nothing else happens. */
  lemma NextIff(s: System, v: System)
    ensures Next(s, v) <==> Called(s, v) || Moved(s, v)
  {
  }

  ghost predicate Called(s: System, v: System) {
    exists p :: Public(p) && v == s + [Running(Call(p), Done)]
  }

  ghost predicate Moved(s: System, v: System) {
    exists i, d :: 0 <= i < |s| && CoStep(s, s[i], d) && v == s[i := d]
  }

  /** Every run begins with no coroutine, and goes on as long as there is a next step. */
  lemma RunsGoOn(run: seq<System>, v: System)
    ensures Behaviour([[]])
    ensures |run| > 0 ==> (Behaviour(run + [v]) <==> Behaviour(run) && Next(run[|run| - 1], v))
  {
    var more := run + [v];
    assert forall i :: 0 <= i < |run| ==> more[i] == run[i];
    if |run| > 0 && Behaviour(more) {
      assert Next(more[|run| - 1], more[|run| - 1 + 1]);
      forall i | 0 <= i < |run| - 1 ensures Next(run[i], run[i + 1]) {
        assert Next(more[i], more[i + 1]);
      }
    }
  }

  /** Waiting for a lock is standing at its block; the wait is for whoever holds it. */
  lemma WaitingIff(s: System, i: nat, j: nat, l: Lock)
    requires i < |s| && j < |s|
    ensures WaitsOn(s[i], l) <==> exists b, k :: s[i] == Running(Sync(l, b), k)
    ensures WaitsOn(s[i], l) && TotalHeld(s, l) >= Capacity(l) && Held(s[j].stack, l) != 0 ==> WaitsFor(s, i, j)
  {
    if WaitsOn(s[i], l) {
      assert s[i] == Running(Sync(l, s[i].stack.top.stmt.body), s[i].stack.rest);
    }
  }
}
