/** Counting who holds what. */
module Holders {

  /** The requests that hold `x`. */
  function HoldersOf<T(==)>(held: map<nat, T>, x: T): set<nat> {
    set r | r in held && held[r] == x
  }

  function CountOf<T(==)>(held: map<nat, T>, x: T): nat {
    |HoldersOf(held, x)|
  }

  lemma CountEmpty<T>(x: T)
    ensures CountOf(map[], x) == 0
  {
    assert HoldersOf(map[], x) == {};
  }

  lemma CountAdded<T>(held: map<nat, T>, r: nat, x: T, y: T)
    requires r !in held
    ensures CountOf(held[r := x], y) == CountOf(held, y) + if x == y then 1 else 0
  {
    assert HoldersOf(held[r := x], y) == HoldersOf(held, y) + if x == y then {r} else {};
  }

  lemma CountRemoved<T>(held: map<nat, T>, r: nat, y: T)
    requires r in held
    ensures CountOf(held, y) == CountOf(held - {r}, y) + if held[r] == y then 1 else 0
  {
    assert HoldersOf(held, y) == HoldersOf(held - {r}, y) + if held[r] == y then {r} else {};
  }
}
