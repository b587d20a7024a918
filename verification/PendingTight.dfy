/** The overshoot bound on pending counts is the best possible: runs that reach it. */
module PendingTight {
  import opened Prelude
  import opened ConcurrencyManager
  import opened LoadBalancer
  import opened PendingRuns

  lemma {:induction false} RunAppend(w: World, a: seq<Event>, b: seq<Event>)
    ensures Run(w, a + b) == Run(Run(w, a), b)
    decreases |b|
  {
    if b == [] {
      assert a + b == a;
    } else {
      assert (a + b)[..|a + b| - 1] == a + b[..|b| - 1];
      RunAppend(w, a, b[..|b| - 1]);
    }
  }

  /** Requests from `n` on are new, those from `lo` to `n` are selecting and saw room for `c`, nothing
      was claimed without room. */
  ghost predicate Queue(w: World, c: Claim, lo: nat, n: nat) {
    && lo <= n && c in w.limits && w.extra == map[]
    && (forall r :: r in w.selecting <==> lo <= r < n)
    && (forall r :: lo <= r < n ==> w.selecting[r] == Selecting(c.kind, map[c.id := true]))
    && (forall r :: r in w.holding || r in w.lost ==> r < lo)
  }

  function Room(w: World, c: Claim): int
    requires c in w.limits
  {
    w.limits[c] - CountFor(w.pending, c)
  }

  lemma ReadOne(u: World, c: Claim, n: nat)
    requires n in u.selecting && u.selecting[n] == Selecting(c.kind, map[]) && c in u.limits && Room(u, c) > 0
    ensures var v := Step(u, Read(n, c.id));
            && v == u.(selecting := u.selecting[n := Selecting(c.kind, map[c.id := true])])
            && |v.selecting| == |u.selecting|
  {
    assert HasRoom(u, c);
    OneMoreSelection(u.selecting, n, Selecting(c.kind, map[c.id := true]));
  }

  lemma BeginRead(w: World, c: Claim, lo: nat, n: nat) returns (v: World)
    requires Queue(w, c, lo, n) && Room(w, c) > 0 && |w.selecting| < w.width
    ensures v == Step(Step(w, Begin(n, c.kind)), Read(n, c.id))
    ensures Queue(v, c, lo, n + 1) && v.pending == w.pending && |v.selecting| == |w.selecting| + 1
    ensures v.width == w.width && v.limits == w.limits
  {
    var u := Step(w, Begin(n, c.kind));
    assert u == w.(selecting := w.selecting[n := Selecting(c.kind, map[])]);
    OneMoreSelection(w.selecting, n, Selecting(c.kind, map[]));
    v := Step(u, Read(n, c.id));
    ReadOne(u, c, n);
  }

  lemma CommitTakes(w: World, c: Claim, r: nat)
    requires r in w.selecting && w.selecting[r] == Selecting(c.kind, map[c.id := true])
    ensures Step(w, Commit(r, c.id)) == Take(w.(selecting := w.selecting - {r}), r, c)
  {
  }

  lemma OneFewer(selecting: map<nat, Selecting>, r: nat)
    requires r in selecting
    ensures |selecting - {r}| == |selecting| - 1
  {
    var fewer := selecting - {r};
    assert fewer.Keys == selecting.Keys - {r};
    assert |fewer.Keys| == |fewer| && |selecting.Keys| == |selecting|;
  }

  lemma CommitOne(w: World, c: Claim, lo: nat, n: nat) returns (v: World)
    requires Queue(w, c, lo, n) && lo < n
    ensures v == Step(w, Commit(lo, c.id))
    ensures Queue(v, c, lo + 1, n) && CountFor(v.pending, c) == CountFor(w.pending, c) + 1
    ensures |v.selecting| == |w.selecting| - 1 && v.width == w.width && v.limits == w.limits
  {
    v := Step(w, Commit(lo, c.id));
    CommitTakes(w, c, lo);
    AddCounts(w.pending, c, c);
    OneFewer(w.selecting, lo);
  }

  lemma Two(w: World, a: Event, b: Event)
    ensures Run(w, [a, b]) == Step(Step(w, a), b)
  {
    assert [a, b] == [a] + [b];
    RunAppend(w, [a], [b]);
    One(w, a);
    One(Step(w, a), b);
  }

  lemma One(w: World, a: Event)
    ensures Run(w, [a]) == Step(w, a)
  {
    assert [a][..0] == [];
  }

  /** `k` more selections see room while nobody counts. */
  lemma {:induction false} ReadAll(w: World, c: Claim, lo: nat, n: nat, k: nat) returns (es: seq<Event>, v: World)
    requires Queue(w, c, lo, n) && Room(w, c) > 0 && |w.selecting| + k <= w.width
    ensures v == Run(w, es) && Queue(v, c, lo, n + k) && v.pending == w.pending && |v.selecting| == |w.selecting| + k
    ensures v.width == w.width && v.limits == w.limits
    decreases k
  {
    if k == 0 {
      es, v := [], w;
    } else {
      var u := BeginRead(w, c, lo, n);
      Two(w, Begin(n, c.kind), Read(n, c.id));
      var rest;
      rest, v := ReadAll(u, c, lo, n + 1, k - 1);
      es := [Begin(n, c.kind), Read(n, c.id)] + rest;
      RunAppend(w, [Begin(n, c.kind), Read(n, c.id)], rest);
    }
  }

  /** Then all of them count. */
  lemma {:induction false} CommitAll(w: World, c: Claim, lo: nat, n: nat) returns (es: seq<Event>, v: World)
    requires Queue(w, c, lo, n)
    ensures v == Run(w, es) && Queue(v, c, n, n) && CountFor(v.pending, c) == CountFor(w.pending, c) + (n - lo)
    ensures |v.selecting| == |w.selecting| - (n - lo) && v.width == w.width && v.limits == w.limits
    decreases n - lo
  {
    if lo == n {
      es, v := [], w;
    } else {
      var u := CommitOne(w, c, lo, n);
      One(w, Commit(lo, c.id));
      var rest;
      rest, v := CommitAll(u, c, lo + 1, n);
      es := [Commit(lo, c.id)] + rest;
      RunAppend(w, [Commit(lo, c.id)], rest);
    }
  }

  /** One after another, `k` requests each read and count. */
  lemma {:induction false} OneByOne(w: World, c: Claim, n: nat, k: nat) returns (es: seq<Event>, v: World)
    requires Queue(w, c, n, n) && w.width > 0 && |w.selecting| == 0 && k <= Room(w, c)
    ensures v == Run(w, es) && Queue(v, c, n + k, n + k) && |v.selecting| == 0 && v.width == w.width
    ensures CountFor(v.pending, c) == CountFor(w.pending, c) + k && v.limits == w.limits
    decreases k
  {
    if k == 0 {
      es, v := [], w;
    } else {
      var a, u := ReadAll(w, c, n, n, 1);
      var b, t := CommitAll(u, c, n, n + 1);
      var rest;
      rest, v := OneByOne(t, c, n + 1, k - 1);
      es := a + (b + rest);
      RunAppend(u, b, rest);
      RunAppend(w, a, b + rest);
    }
  }

  /** The overshoot bound is reached: for every limit and every k there is a run with k selections under
      way at once, none of them without having seen room, that ends at limit - 1 + k. */
  lemma OvershootIsTight(limit: nat, width: nat, c: Claim)
    requires limit > 0 && width > 0
    ensures exists es :: var w := Run(Start(map[c := limit], width), es);
              CountFor(w.pending, c) == limit - 1 + width && w.extra == map[]
  {
    var w := Start(map[c := limit], width);
    var a, u := OneByOne(w, c, 0, limit - 1);
    var b, t := ReadAll(u, c, limit - 1, limit - 1, width);
    var d, v := CommitAll(t, c, limit - 1, limit - 1 + width);
    RunAppend(u, b, d);
    RunAppend(w, a, b + d);
    assert Run(w, a + (b + d)) == v;
  }

  /** Lowering breaks the bound for the new limit: `limit` claims made one after another, and then a limit
      so low that fewer than that are allowed. */
  lemma LoweringBreaks(limit: nat, n: nat, width: nat, c: Claim)
    requires width > 0 && 0 < n && n - 1 + width < limit
    ensures exists es :: var w := Run(Start(map[c := limit], width), es);
              w.limits == map[c := n] && w.extra == map[] && CountFor(w.pending, c) > n - 1 + width
  {
    var w := Start(map[c := limit], width);
    var es, u := OneByOne(w, c, 0, limit);
    RunSnoc(w, es, Relimit(c, n));
    assert Run(w, es + [Relimit(c, n)]) == Step(u, Relimit(c, n));
    assert u.limits[c := n] == map[c := n];
  }
}
