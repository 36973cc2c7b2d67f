/**
 * The comparator `sortData(key1, key2)` hands to `Array.prototype.sort`, and
 * a stable sort by it (the engine's sort is stable).
 */
module Sorting {
  import opened HouseData

  /** `d3.ascending(a, b)` on numbers: -1, 1 or 0. */
  function Ascending(a: real, b: real): int {
    if a < b then -1 else if a > b then 1 else 0
  }

  /** `d3.ascending` is -1 exactly below, 1 exactly above and 0 exactly at equality. */
  lemma AscendingSign(a: real, b: real)
    ensures Ascending(a, b) == -1 <==> a < b
    ensures Ascending(a, b) == 1 <==> a > b
    ensures Ascending(a, b) == 0 <==> a == b
    ensures Ascending(a, b) == -Ascending(b, a)
  {
  }

  /** The comparator: compare on `key1`, and on `key2` when `key1` ties. */
  function Compare(a: House, b: House, key1: Field, key2: Field): (c: int)
    ensures c < 0 <==> Get(a, key1) < Get(b, key1) || (Get(a, key1) == Get(b, key1) && Get(a, key2) < Get(b, key2))
    ensures c == 0 <==> Get(a, key1) == Get(b, key1) && Get(a, key2) == Get(b, key2)
  {
    var compare1 := Ascending(Get(a, key1), Get(b, key1));
    if compare1 != 0 then compare1 else Ascending(Get(a, key2), Get(b, key2))
  }

  predicate Leq(a: House, b: House, key1: Field, key2: Field) {
    Compare(a, b, key1, key2) <= 0
  }

  /** Records the comparator cannot tell apart. */
  predicate SameKeys(a: House, b: House, key1: Field, key2: Field) {
    Compare(a, b, key1, key2) == 0
  }

  /** Ascending by `key1`, ties ascending by `key2`. */
  predicate Sorted(s: seq<House>, key1: Field, key2: Field) {
    forall i, j | 0 <= i < j < |s| :: Leq(s[i], s[j], key1, key2)
  }

  /** The records of `s` with the same keys as `x`, in their order in `s`. */
  function Ties(s: seq<House>, x: House, key1: Field, key2: Field): seq<House> {
    if s == [] then []
    else (if SameKeys(s[0], x, key1, key2) then [s[0]] else []) + Ties(s[1..], x, key1, key2)
  }

  lemma LeqTransitive(a: House, b: House, c: House, key1: Field, key2: Field)
    requires Leq(a, b, key1, key2) && Leq(b, c, key1, key2)
    ensures Leq(a, c, key1, key2)
  {
  }

  /** A record below everything in a sorted sequence can go in front of it. */
  lemma SortedPrepend(y: House, s: seq<House>, key1: Field, key2: Field)
    requires Sorted(s, key1, key2)
    requires forall j | 0 <= j < |s| :: Leq(y, s[j], key1, key2)
    ensures Sorted([y] + s, key1, key2)
  {
  }

  /** Place `x` before the first record not below it, so it stays ahead of its ties. */
  function Insert(x: House, s: seq<House>, key1: Field, key2: Field): (r: seq<House>)
    ensures multiset(r) == multiset(s) + multiset{x}
    ensures Sorted(s, key1, key2) ==> Sorted(r, key1, key2)
  {
    if s == [] || Leq(x, s[0], key1, key2) then
      assert Sorted(s, key1, key2) ==> Sorted([x] + s, key1, key2) by {
        if Sorted(s, key1, key2) {
          forall j | 0 <= j < |s| ensures Leq(x, s[j], key1, key2) {
            if j > 0 { LeqTransitive(x, s[0], s[j], key1, key2); }
          }
          SortedPrepend(x, s, key1, key2);
        }
      }
      [x] + s
    else
      var rest := Insert(x, s[1..], key1, key2);
      assert s == [s[0]] + s[1..];
      assert Sorted(s, key1, key2) ==> Sorted([s[0]] + rest, key1, key2) by {
        if Sorted(s, key1, key2) {
          forall j | 0 <= j < |rest| ensures Leq(s[0], rest[j], key1, key2) {
            assert rest[j] in multiset(rest);
            assert rest[j] == x || rest[j] in s[1..];
          }
          SortedPrepend(s[0], rest, key1, key2);
        }
      }
      [s[0]] + rest
  }

  /** `currentData.sort(comparator)`: a stable insertion sort. */
  function StableSort(s: seq<House>, key1: Field, key2: Field): (r: seq<House>)
    ensures multiset(r) == multiset(s)
    ensures Sorted(r, key1, key2)
  {
    if s == [] then []
    else
      assert s == [s[0]] + s[1..];
      Insert(s[0], StableSort(s[1..], key1, key2), key1, key2)
  }

  /** Inserting `x` adds it to its own tie group ahead of the ties already there, and touches no other group. */
  lemma {:induction false} InsertTies(x: House, s: seq<House>, y: House, key1: Field, key2: Field)
    ensures Ties(Insert(x, s, key1, key2), y, key1, key2)
         == (if SameKeys(x, y, key1, key2) then [x] else []) + Ties(s, y, key1, key2)
  {
    if s == [] || Leq(x, s[0], key1, key2) {
      assert ([x] + s)[1..] == s;
    } else {
      var rest := Insert(x, s[1..], key1, key2);
      assert ([s[0]] + rest)[1..] == rest;
      InsertTies(x, s[1..], y, key1, key2);
      assert !(SameKeys(s[0], y, key1, key2) && SameKeys(x, y, key1, key2));
    }
  }

  /** Stability: records equal on both keys keep their prior relative order. */
  lemma {:induction false} SortIsStable(s: seq<House>, y: House, key1: Field, key2: Field)
    ensures Ties(StableSort(s, key1, key2), y, key1, key2) == Ties(s, y, key1, key2)
  {
    if s != [] {
      SortIsStable(s[1..], y, key1, key2);
      InsertTies(s[0], StableSort(s[1..], key1, key2), y, key1, key2);
    }
  }

  /** Sorting an already sorted sequence leaves it as it is. */
  lemma {:induction false} SortKeepsSorted(s: seq<House>, key1: Field, key2: Field)
    requires Sorted(s, key1, key2)
    ensures StableSort(s, key1, key2) == s
  {
    if s != [] {
      assert Sorted(s[1..], key1, key2);
      SortKeepsSorted(s[1..], key1, key2);
      assert s == [s[0]] + s[1..];
    }
  }

  /** Sorting twice with the same keys gives the order of sorting once. */
  lemma SortIdempotent(s: seq<House>, key1: Field, key2: Field)
    ensures StableSort(StableSort(s, key1, key2), key1, key2) == StableSort(s, key1, key2)
  {
    SortKeepsSorted(StableSort(s, key1, key2), key1, key2);
  }

  /** A record of a sorted sequence is no smaller than its first record. */
  lemma SortedHeadLeq(r: seq<House>, x: House, key1: Field, key2: Field)
    requires Sorted(r, key1, key2) && x in r
    ensures Leq(r[0], x, key1, key2)
  {
    var i :| 0 <= i < |r| && r[i] == x;
  }

  /**
   * Two sorted arrangements of the same records with the same order inside
   * every tie group start with the same record.
   */
  lemma SortedArrangementsSameHead(r: seq<House>, t: seq<House>, key1: Field, key2: Field)
    requires r != [] && multiset(r) == multiset(t)
    requires Sorted(r, key1, key2) && Sorted(t, key1, key2)
    requires Ties(r, r[0], key1, key2) == Ties(t, r[0], key1, key2)
    ensures t != [] && t[0] == r[0]
  {
    assert r[0] in multiset(t) && t != [];
    assert t[0] in multiset(r);
    SortedHeadLeq(r, t[0], key1, key2);
    SortedHeadLeq(t, r[0], key1, key2);
    assert SameKeys(t[0], r[0], key1, key2);
    assert Ties(t, r[0], key1, key2)[0] == t[0];
  }

  lemma SameHeadSameTail(r: seq<House>, t: seq<House>)
    requires r != [] && t != [] && r[0] == t[0] && multiset(r) == multiset(t)
    ensures multiset(r[1..]) == multiset(t[1..])
  {
    assert r == [r[0]] + r[1..] && t == [t[0]] + t[1..];
    assert multiset(r[1..]) == multiset(r) - multiset{r[0]};
    assert multiset(t[1..]) == multiset(t) - multiset{t[0]};
  }

  lemma SameHeadSameTies(r: seq<House>, t: seq<House>, y: House, key1: Field, key2: Field)
    requires r != [] && t != [] && r[0] == t[0]
    requires Ties(r, y, key1, key2) == Ties(t, y, key1, key2)
    ensures Ties(r[1..], y, key1, key2) == Ties(t[1..], y, key1, key2)
  {
    var head := if SameKeys(r[0], y, key1, key2) then [r[0]] else [];
    assert head + Ties(r[1..], y, key1, key2) == head + Ties(t[1..], y, key1, key2);
    assert Ties(r[1..], y, key1, key2) == (head + Ties(r[1..], y, key1, key2))[|head|..];
  }

  /**
   * Two sorted arrangements of the same records with the same order inside
   * every tie group are the same sequence.
   */
  lemma {:induction false} SortedArrangementUnique(r: seq<House>, t: seq<House>, key1: Field, key2: Field)
    requires multiset(r) == multiset(t)
    requires Sorted(r, key1, key2) && Sorted(t, key1, key2)
    requires forall y :: Ties(r, y, key1, key2) == Ties(t, y, key1, key2)
    ensures r == t
  {
    if r == [] {
      assert |t| == |multiset(t)| == 0;
    } else {
      SortedArrangementsSameHead(r, t, key1, key2);
      SameHeadSameTail(r, t);
      forall y ensures Ties(r[1..], y, key1, key2) == Ties(t[1..], y, key1, key2) {
        SameHeadSameTies(r, t, y, key1, key2);
      }
      SortedArrangementUnique(r[1..], t[1..], key1, key2);
      assert r == [r[0]] + r[1..] && t == [t[0]] + t[1..];
    }
  }

  /**
   * Any stable sort by the comparator yields `StableSort`'s result: a
   * permutation that is sorted and keeps every tie group in its order is
   * exactly `StableSort(s)`, whatever algorithm produced it.
   */
  lemma StableSortIsTheStableSort(s: seq<House>, r: seq<House>, key1: Field, key2: Field)
    requires multiset(r) == multiset(s) && Sorted(r, key1, key2)
    requires forall y :: Ties(r, y, key1, key2) == Ties(s, y, key1, key2)
    ensures r == StableSort(s, key1, key2)
  {
    forall y ensures Ties(r, y, key1, key2) == Ties(StableSort(s, key1, key2), y, key1, key2) {
      SortIsStable(s, y, key1, key2);
    }
    SortedArrangementUnique(r, StableSort(s, key1, key2), key1, key2);
  }

  lemma {:induction false} InsertKeepsUniqueIds(x: House, s: seq<House>, key1: Field, key2: Field)
    requires UniqueIds(s) && x.id !in Ids(s)
    ensures UniqueIds(Insert(x, s, key1, key2))
  {
    if s != [] && !Leq(x, s[0], key1, key2) {
      var rest := Insert(x, s[1..], key1, key2);
      assert Ids(s[1..]) <= Ids(s);
      InsertKeepsUniqueIds(x, s[1..], key1, key2);
      forall j | 0 <= j < |rest| ensures rest[j].id != s[0].id {
        assert rest[j] in multiset(rest);
        assert rest[j] == x || rest[j] in s[1..];
      }
      assert Insert(x, s, key1, key2) == [s[0]] + rest;
    } else {
      assert forall j | 0 <= j < |s| :: s[j] in s;
    }
  }

  /** A sort only reorders, so distinct ids stay distinct (the data join keys stay unique). */
  lemma {:induction false} SortKeepsUniqueIds(s: seq<House>, key1: Field, key2: Field)
    requires UniqueIds(s)
    ensures UniqueIds(StableSort(s, key1, key2))
  {
    if s != [] {
      var t := StableSort(s[1..], key1, key2);
      SortKeepsUniqueIds(s[1..], key1, key2);
      assert s[0].id !in Ids(t) by {
        forall h | h in t ensures h.id != s[0].id {
          assert h in multiset(s[1..]);
          var k :| 0 <= k < |s[1..]| && s[1..][k] == h;
          assert s[k + 1] == h;
        }
      }
      InsertKeepsUniqueIds(s[0], t, key1, key2);
    }
  }

  /**
   * Three houses, two with the same base height: a click on a base sorts by
   * (baseHeight, baseWidth), the tie broken by the narrower base.
   */
  lemma BaseClickExample()
    ensures StableSort([House(1, 12.0, 20.0, 8.0, 15.0), House(2, 10.0, 20.0, 9.0, 10.0), House(3, 8.0, 15.0, 9.0, 10.0)], BaseHeight, BaseWidth)
         == [House(3, 8.0, 15.0, 9.0, 10.0), House(2, 10.0, 20.0, 9.0, 10.0), House(1, 12.0, 20.0, 8.0, 15.0)]
  {
    var a, b, c := House(1, 12.0, 20.0, 8.0, 15.0), House(2, 10.0, 20.0, 9.0, 10.0), House(3, 8.0, 15.0, 9.0, 10.0);
    assert [a, b, c][1..] == [b, c] && [b, c][1..] == [c] && [c][1..] == [];
    assert Insert(c, [], BaseHeight, BaseWidth) == [c];
    assert Insert(b, [], BaseHeight, BaseWidth) == [b];
    assert Insert(a, [], BaseHeight, BaseWidth) == [a];
    assert !Leq(b, c, BaseHeight, BaseWidth) && !Leq(a, c, BaseHeight, BaseWidth) && !Leq(a, b, BaseHeight, BaseWidth);
    assert [c, b][1..] == [b];
    assert Insert(b, [c], BaseHeight, BaseWidth) == [c, b];
    assert Insert(a, [b], BaseHeight, BaseWidth) == [b, a];
    assert Insert(a, [c, b], BaseHeight, BaseWidth) == [c, b, a];
  }

  /**
   * The same houses, two with identical roofs: a click on a roof sorts by
   * (roofHeight, roofWidth), and the identical pair keeps its order.
   */
  lemma RoofClickExample()
    ensures StableSort([House(1, 12.0, 20.0, 8.0, 15.0), House(2, 10.0, 20.0, 9.0, 10.0), House(3, 8.0, 15.0, 9.0, 10.0)], RoofHeight, RoofWidth)
         == [House(2, 10.0, 20.0, 9.0, 10.0), House(3, 8.0, 15.0, 9.0, 10.0), House(1, 12.0, 20.0, 8.0, 15.0)]
  {
    var a, b, c := House(1, 12.0, 20.0, 8.0, 15.0), House(2, 10.0, 20.0, 9.0, 10.0), House(3, 8.0, 15.0, 9.0, 10.0);
    assert [a, b, c][1..] == [b, c] && [b, c][1..] == [c] && [c][1..] == [];
    assert Insert(c, [], RoofHeight, RoofWidth) == [c];
    assert Leq(b, c, RoofHeight, RoofWidth) && !Leq(a, b, RoofHeight, RoofWidth) && !Leq(a, c, RoofHeight, RoofWidth);
    assert Insert(b, [c], RoofHeight, RoofWidth) == [b, c];
    assert [b, c][1..] == [c];
    assert Insert(a, [], RoofHeight, RoofWidth) == [a];
    assert Insert(a, [c], RoofHeight, RoofWidth) == [c, a];
    assert Insert(a, [b, c], RoofHeight, RoofWidth) == [b, c, a];
  }
}
