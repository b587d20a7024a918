/** Sorting by a tuple key, as Python's `sorted(items, key=...)` does. */
module LexSort {

  /** Tuple comparison `a < b`; a proper prefix is smaller. */
  predicate LexLess(a: seq<int>, b: seq<int>) {
    if b == [] then false
    else if a == [] then true
    else a[0] < b[0] || (a[0] == b[0] && LexLess(a[1..], b[1..]))
  }

  lemma LexCons(a: int, b: int, s: seq<int>, t: seq<int>)
    ensures LexLess([a] + s, [b] + t) <==> a < b || (a == b && LexLess(s, t))
  {
    assert ([a] + s)[1..] == s && ([b] + t)[1..] == t;
  }

  predicate LexLeq(a: seq<int>, b: seq<int>) {
    !LexLess(b, a)
  }

  lemma {:induction false} LexTotal(a: seq<int>, b: seq<int>)
    ensures !(LexLess(a, b) && LexLess(b, a))
    ensures !LexLess(a, b) && !LexLess(b, a) ==> a == b
  {
    if a != [] && b != [] && a[0] == b[0] {
      LexTotal(a[1..], b[1..]);
      assert a == [a[0]] + a[1..] && b == [b[0]] + b[1..];
    }
  }

  lemma {:induction false} LexTransitive(a: seq<int>, b: seq<int>, c: seq<int>)
    requires LexLeq(a, b) && LexLeq(b, c)
    ensures LexLeq(a, c)
  {
    if a != [] && b != [] && c != [] && a[0] == b[0] == c[0] {
      LexTransitive(a[1..], b[1..], c[1..]);
    }
  }

  /** Comparing two keys of the same length by their first position, when it differs. */
  lemma LexHead(a: seq<int>, b: seq<int>)
    requires a != [] && b != [] && LexLeq(a, b)
    ensures a[0] <= b[0]
  {
  }

  /** A string as a key part, compared by character code. */
  function Codes(s: string): (r: seq<int>)
    ensures |r| == |s| && forall i :: 0 <= i < |s| ==> r[i] == s[i] as int
  {
    if s == "" then [] else [s[0] as int] + Codes(s[1..])
  }

  lemma SameCodes(a: string, b: string)
    requires Codes(a) == Codes(b)
    ensures a == b
  {
    assert forall i :: 0 <= i < |a| ==> a[i] as int == Codes(a)[i] && b[i] as int == Codes(a)[i];
  }

  /** An item with the key it is sorted by. */
  datatype Keyed<T> = Keyed(key: seq<int>, item: T)

  predicate Sorted<T>(s: seq<Keyed<T>>) {
    forall i, j :: 0 <= i < j < |s| ==> LexLeq(s[i].key, s[j].key)
  }

  function Insert<T>(x: Keyed<T>, s: seq<Keyed<T>>): (r: seq<Keyed<T>>)
    ensures |r| == |s| + 1
  {
    if s == [] then [x]
    else if LexLeq(x.key, s[0].key) then [x] + s
    else [s[0]] + Insert(x, s[1..])
  }

  /** The sorted rearrangement of `s`. */
  function Sort<T>(s: seq<Keyed<T>>): (r: seq<Keyed<T>>)
    ensures |r| == |s|
  {
    if s == [] then [] else Insert(s[0], Sort(s[1..]))
  }

  lemma {:induction false} InsertMembers<T>(x: Keyed<T>, s: seq<Keyed<T>>)
    ensures forall y :: y in Insert(x, s) <==> y == x || y in s
  {
    if s != [] && !LexLeq(x.key, s[0].key) {
      InsertMembers(x, s[1..]);
      assert s == [s[0]] + s[1..];
    }
  }

  lemma {:induction false} InsertEntry<T>(x: Keyed<T>, s: seq<Keyed<T>>, i: nat)
    requires i <= |s|
    ensures Insert(x, s)[i] == x || exists k :: 0 <= k < |s| && Insert(x, s)[i] == s[k]
  {
    if s != [] && LexLeq(x.key, s[0].key) {
      assert i > 0 ==> Insert(x, s)[i] == s[i - 1];
    } else if s != [] && i > 0 {
      InsertEntry(x, s[1..], i - 1);
      assert Insert(x, s)[i] == Insert(x, s[1..])[i - 1];
      if Insert(x, s)[i] != x {
        var k :| 0 <= k < |s| - 1 && Insert(x, s)[i] == s[1..][k];
        assert Insert(x, s)[i] == s[k + 1];
      }
    }
  }

  lemma {:induction false} InsertSorted<T>(x: Keyed<T>, s: seq<Keyed<T>>)
    requires Sorted(s)
    ensures Sorted(Insert(x, s))
  {
    if s != [] {
      LexTotal(x.key, s[0].key);
      if LexLeq(x.key, s[0].key) {
        forall j | 0 <= j < |s| ensures LexLeq(x.key, s[j].key) {
          if j > 0 {
            LexTransitive(x.key, s[0].key, s[j].key);
          }
        }
      } else {
        InsertSorted(x, s[1..]);
        var rest := Insert(x, s[1..]);
        forall i | 0 <= i < |rest| ensures LexLeq(s[0].key, rest[i].key) {
          InsertEntry(x, s[1..], i);
        }
      }
    }
  }

  lemma {:induction false} SortSorts<T>(s: seq<Keyed<T>>)
    ensures Sorted(Sort(s))
  {
    if s != [] {
      SortSorts(s[1..]);
      InsertSorted(s[0], Sort(s[1..]));
    }
  }

  lemma {:induction false} SortMembers<T>(s: seq<Keyed<T>>)
    ensures forall x :: x in Sort(s) <==> x in s
  {
    if s != [] {
      SortMembers(s[1..]);
      InsertMembers(s[0], Sort(s[1..]));
      assert s == [s[0]] + s[1..];
    }
  }

  function Items<T>(s: seq<Keyed<T>>): (r: seq<T>)
    ensures |r| == |s| && forall i :: 0 <= i < |s| ==> r[i] == s[i].item
  {
    if s == [] then [] else [s[0].item] + Items(s[1..])
  }

  lemma ItemMember<T>(s: seq<Keyed<T>>, x: Keyed<T>)
    requires x in s
    ensures x.item in Items(s)
  {
    var i :| 0 <= i < |s| && s[i] == x;
    assert Items(s)[i] == x.item;
  }

  // ---------------------------------------------------------------- sorting a set

  ghost predicate DistinctKeys<T(!new)>(items: set<Keyed<T>>) {
    forall x, y :: x in items && y in items && x.key == y.key ==> x == y
  }

  ghost function Any<T>(items: set<T>): (x: T)
    requires items != {}
    ensures x in items
  {
    var x :| x in items;
    x
  }

  ghost function Least<T>(items: set<Keyed<T>>): (r: Keyed<T>)
    requires items != {}
    ensures r in items
    decreases |items|
  {
    var x := Any(items);
    if items == {x} then x
    else
      var y := Least(items - {x});
      if LexLeq(x.key, y.key) then x else y
  }

  lemma {:induction false} LeastIsLeast<T>(items: set<Keyed<T>>, z: Keyed<T>)
    requires z in items
    ensures LexLeq(Least(items).key, z.key)
    decreases |items|
  {
    var x := Any(items);
    LexTotal(z.key, z.key);
    if items != {x} {
      var y := Least(items - {x});
      LexTotal(x.key, y.key);
      if z != x {
        LeastIsLeast(items - {x}, z);
        if LexLeq(x.key, y.key) {
          LexTransitive(x.key, y.key, z.key);
        }
      }
    }
  }

  /** The members of a set in increasing order of their keys. */
  ghost function Listing<T(!new)>(items: set<Keyed<T>>): (r: seq<Keyed<T>>)
    ensures |r| == |items|
    decreases |items|
  {
    if items == {} then []
    else
      var x := Least(items);
      [x] + Listing(items - {x})
  }

  lemma {:induction false} ListingMembers<T(!new)>(items: set<Keyed<T>>)
    ensures forall x :: x in Listing(items) <==> x in items
    decreases |items|
  {
    if items != {} {
      ListingMembers(items - {Least(items)});
    }
  }

  lemma {:induction false} ListingSorted<T(!new)>(items: set<Keyed<T>>)
    ensures Sorted(Listing(items))
    decreases |items|
  {
    if items != {} {
      var x := Least(items);
      var rest := Listing(items - {x});
      ListingSorted(items - {x});
      ListingMembers(items - {x});
      forall i | 0 <= i < |rest| ensures LexLeq(x.key, rest[i].key) {
        assert rest[i] in rest;
        LeastIsLeast(items, rest[i]);
      }
    }
  }

  /** The member with `i` members before it. */
  ghost function Nth<T>(items: set<Keyed<T>>, i: nat): (x: Keyed<T>)
    requires i < |items|
    ensures x in items
    decreases i
  {
    var least := Least(items);
    if i == 0 then least else Nth(items - {least}, i - 1)
  }

  lemma {:induction false} NthOfListing<T(!new)>(items: set<Keyed<T>>, i: nat)
    requires i < |items|
    ensures Listing(items)[i] == Nth(items, i)
    decreases i
  {
    var rest := items - {Least(items)};
    assert Listing(items) == [Least(items)] + Listing(rest);
    if i > 0 {
      NthOfListing(rest, i - 1);
    }
  }

  lemma ConsDistinct<T>(x: T, s: seq<T>)
    requires x !in s && forall i, j :: 0 <= i < j < |s| ==> s[i] != s[j]
    ensures forall i, j :: 0 <= i < j < |s| + 1 ==> ([x] + s)[i] != ([x] + s)[j]
  {
  }

  lemma {:induction false} ListingDistinct<T(!new)>(items: set<Keyed<T>>)
    ensures forall i, j :: 0 <= i < j < |items| ==> Listing(items)[i] != Listing(items)[j]
    decreases |items|
  {
    if items != {} {
      var r := Listing(items);
      var x := r[0];
      assert r[1..] == Listing(items - {x});
      ListingDistinct(items - {x});
      ListingMembers(items - {x});
      ConsDistinct(x, r[1..]);
      assert r == [x] + r[1..];
    }
  }

  /** With distinct keys there is one such order: a sorted list of the members is the listing. */
  lemma {:induction false} ListingUnique<T(!new)>(items: set<Keyed<T>>, s: seq<Keyed<T>>)
    requires DistinctKeys(items)
    requires |s| == |items| && (forall x :: x in s <==> x in items) && Sorted(s)
    ensures s == Listing(items)
    decreases |items|
  {
    if items != {} {
      FirstIsLeast(items, s);
      DropMember(items, s);
      TailSorted(s);
      FewerDistinct(items, s[0]);
      ListingUnique(items - {s[0]}, s[1..]);
      ListingCons(items, s);
    }
  }

  lemma ListingCons<T(!new)>(items: set<Keyed<T>>, s: seq<Keyed<T>>)
    requires items != {} && s != [] && s[0] == Least(items) && s[1..] == Listing(items - {s[0]})
    ensures s == Listing(items)
  {
    assert s == [s[0]] + s[1..];
  }

  lemma FewerDistinct<T(!new)>(items: set<Keyed<T>>, x: Keyed<T>)
    requires DistinctKeys(items)
    ensures DistinctKeys(items - {x})
  {
  }

  lemma TailSorted<T>(s: seq<Keyed<T>>)
    requires s != [] && Sorted(s)
    ensures Sorted(s[1..])
  {
  }

  lemma FirstIsLeast<T(!new)>(items: set<Keyed<T>>, s: seq<Keyed<T>>)
    requires DistinctKeys(items) && s != [] && items != {}
    requires (forall x :: x in s <==> x in items) && Sorted(s)
    ensures s[0] == Least(items)
  {
    var x := Least(items);
    LeastIsLeast(items, s[0]);
    var k :| 0 <= k < |s| && s[k] == x;
    LexTotal(s[0].key, x.key);
  }

  lemma DropMember<T(!new)>(items: set<T>, s: seq<T>)
    requires s != [] && |s| == |items| && (forall x :: x in s <==> x in items)
    ensures forall x :: x in s[1..] <==> x in items - {s[0]}
  {
    if s[0] in s[1..] {
      RepeatShrinks(items, s);
    }
    assert s == [s[0]] + s[1..];
  }

  lemma RepeatShrinks<T(!new)>(items: set<T>, s: seq<T>)
    requires s != [] && s[0] in s[1..] && forall x :: x in s <==> x in items
    ensures |items| < |s|
  {
    MembersBound(s[1..]);
    assert s == [s[0]] + s[1..];
    assert (set x | x in s[1..]) == items;
  }

  lemma {:induction false} MembersBound<T>(s: seq<T>)
    ensures |set x | x in s| <= |s|
  {
    if s != [] {
      MembersBound(s[1..]);
      assert (set x | x in s) == {s[0]} + set x | x in s[1..];
    }
  }
}
