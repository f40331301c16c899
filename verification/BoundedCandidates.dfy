/**
 The bounded candidate set behind the paged listings: names are added one by one
 in whatever order the directory gives them, and the highest ones are evicted.
*/
module BoundedCandidates {
  import opened StringOrder

  /** `kept` are the `cap` smallest members of `all`, or all of them. */
  ghost predicate Smallest(kept: set<string>, all: set<string>, cap: nat) {
    && kept <= all
    && |kept| == (if |all| <= cap then |all| else cap)
    && Below(kept, all - kept)
  }

  ghost predicate Below(low: set<string>, high: set<string>) {
    forall x, y :: x in low && y in high ==> Less(x, y)
  }

  class Candidates {
    var names: set<string>

    constructor ()
      ensures names == {}
    {
      names := {};
    }

    /** Adds one name and evicts until no more than `cap` are left. */
    method Add(value: string, cap: int)
      modifies this
      ensures cap <= 0 ==> names == old(names)
      ensures cap > 0 ==> Smallest(names, old(names) + {value}, cap)
    {
      if cap <= 0 {
        return;
      }
      names := names + {value};
      ghost var all := names;
      while |names| > cap
        invariant names <= all
        invariant |names| == |all| || cap <= |names| < |all|
        invariant Below(names, all - names)
        decreases |names|
      {
        var highest := Highest();
        Evict(names, all, highest);
        names := names - {highest};
      }
      SubsetOfSameSize(names, all);
    }

    /** The highest name, whatever order the map is iterated in. */
    method Highest() returns (highest: string)
      requires names != {}
      ensures highest in names && Below(names - {highest}, {highest})
    {
      highest := "";
      var unseen := names;
      while unseen != {}
        invariant unseen <= names
        invariant highest == "" || highest in names
        invariant forall name :: name in names - unseen ==> name == highest || Less(name, highest)
        decreases |unseen|
      {
        var value :| value in unseen;
        LessTotal(value, highest);
        ghost var before := highest;
        if highest == "" || Less(highest, value) {
          highest := value;
        }
        HigherStill(names - unseen, before, highest);
        unseen := unseen - {value};
      }
      ghost var any :| any in names;
      assert any in names - unseen;
      assert highest in names;
      assert forall name :: name in names - {highest} ==> name in names - unseen;
    }

    /** The names in ascending order. */
    method SortedNames() returns (values: seq<string>)
      ensures values == Ascending(names)
    {
      values := [];
      var unseen := names;
      while unseen != {}
        invariant unseen <= names
        invariant Lists(values, names - unseen)
        decreases |unseen|
      {
        var value :| value in unseen;
        InsertKeepsSorted(values, value);
        values := Inserted(values, value);
        unseen := unseen - {value};
      }
      SortedIsAscending(values);
      assert (set name | name in values) == names;
    }
  }

  ghost predicate Lists(values: seq<string>, names: set<string>) {
    Sorted(values) && forall name :: name in values <==> name in names
  }

  lemma SubsetOfSameSize(part: set<string>, all: set<string>)
    requires part <= all
    ensures |part| <= |all|
    ensures |part| == |all| ==> part == all
  {
    assert all == part + (all - part);
  }

  lemma Evict(names: set<string>, all: set<string>, highest: string)
    requires names <= all && Below(names, all - names)
    requires highest in names && Below(names - {highest}, {highest})
    ensures Below(names - {highest}, all - (names - {highest}))
  {
    forall x, y | x in names - {highest} && y in all - (names - {highest}) ensures Less(x, y) {
      assert y == highest || y in all - names;
    }
  }

  lemma HigherStill(seen: set<string>, before: string, after: string)
    requires before == after || before == "" || Less(before, after)
    requires forall name :: name in seen ==> name == before || Less(name, before)
    ensures forall name :: name in seen ==> name == after || Less(name, after)
  {
    forall name | name in seen ensures name == after || Less(name, after) {
      if before != after && Less(before, after) && name != before {
        LessTransitive(name, before, after);
      }
    }
  }

  /** One step of the sort. */
  function Inserted(values: seq<string>, value: string): (r: seq<string>)
    ensures forall name :: name in r <==> name in values || name == value
  {
    if values == [] || Less(value, values[0]) then [value] + values
    else [values[0]] + Inserted(values[1..], value)
  }

  lemma {:induction false} InsertKeepsSorted(values: seq<string>, value: string)
    requires Sorted(values) && value !in values
    ensures Sorted(Inserted(values, value))
  {
    if values != [] {
      if Less(value, values[0]) {
        forall j | 0 <= j < |values| ensures Less(value, values[j]) {
          if j > 0 {
            LessTransitive(value, values[0], values[j]);
          }
        }
      } else {
        LessTotal(value, values[0]);
        InsertKeepsSorted(values[1..], value);
        var tail := Inserted(values[1..], value);
        forall j | 0 <= j < |tail| ensures Less(values[0], tail[j]) {
          assert tail[j] in tail;
        }
      }
    }
  }

  // ---- What bounded selection computes ----

  /** Keeping the smallest of what was kept and one more name keeps the smallest of
      all names seen: an evicted name never has to come back. */
  lemma EvictionLosesNothing(kept: set<string>, seen: set<string>, next: set<string>, value: string, cap: nat)
    requires Smallest(kept, seen, cap) && Smallest(next, kept + {value}, cap)
    ensures Smallest(next, seen + {value}, cap)
  {
    SubsetOfSameSize(kept, seen);
    SubsetOfSameSize(kept, kept + {value});
    if |seen| > cap {
      forall x, y | x in next && y in seen + {value} - next ensures Less(x, y) {
        if y !in kept + {value} {
          EvictedStayHigh(kept, seen, next, value, cap, x, y);
        }
      }
      SeenCount(seen, value);
      SeenCount(kept, value);
    }
  }

  lemma SeenCount(seen: set<string>, value: string)
    ensures |seen + {value}| == if value in seen then |seen| else |seen| + 1
  {
    if value in seen {
      assert seen + {value} == seen;
    }
  }

  lemma EvictedStayHigh(kept: set<string>, seen: set<string>, next: set<string>, value: string, cap: nat,
                        x: string, y: string)
    requires Smallest(kept, seen, cap) && |seen| > cap && Smallest(next, kept + {value}, cap)
    requires x in next && y in seen && y !in kept
    ensures Less(x, y)
  {
    if x !in kept {
      assert x == value;
      // The newcomer pushed something out, which lies above it and below y.
      if kept <= next {
        SeenCount(kept, value);
        assert kept + {value} <= next;
        SubsetOfSameSize(kept + {value}, next);
      }
      var out :| out in kept && out !in next;
      LessTransitive(value, out, y);
    }
  }

  /** The smallest names in ascending order are the first ones of all names in
      ascending order. */
  lemma {:induction false} SmallestIsPrefix(kept: set<string>, all: set<string>, cap: nat)
    requires Smallest(kept, all, cap)
    ensures Ascending(kept) == if |all| <= cap then Ascending(all) else Ascending(all)[..cap]
  {
    if |all| <= cap {
      SubsetOfSameSize(kept, all);
    } else if cap > 0 {
      var low := Lowest(all);
      LowestIsKept(kept, all, cap);
      SmallestIsPrefix(kept - {low}, all - {low}, cap - 1);
      FirstIsLowest(kept);
      FirstIsLowest(all);
      PrefixOfLonger(low, Ascending(all - {low}), cap);
    }
  }

  lemma FirstIsLowest(all: set<string>)
    requires all != {}
    ensures Ascending(all) == [Lowest(all)] + Ascending(all - {Lowest(all)})
  {
  }

  lemma PrefixOfLonger(low: string, rest: seq<string>, cap: nat)
    requires 0 < cap <= |rest| + 1
    ensures ([low] + rest)[..cap] == [low] + rest[..cap - 1]
  {
  }

  lemma LowestIsKept(kept: set<string>, all: set<string>, cap: nat)
    requires Smallest(kept, all, cap) && |all| > cap > 0
    ensures all != {} && kept != {} && Lowest(all) in kept && Lowest(kept) == Lowest(all)
  {
    var low := Lowest(all);
    if low !in kept {
      var some :| some in kept;
      LessAsymmetric(some, low);
    }
    LowestIsUnique(low, kept);
  }

  /** So what is left does not depend on the order of arrival. */
  lemma SmallestIsUnique(a: set<string>, b: set<string>, all: set<string>, cap: nat)
    requires Smallest(a, all, cap) && Smallest(b, all, cap)
    ensures a == b
  {
    SmallestIsPrefix(a, all, cap);
    SmallestIsPrefix(b, all, cap);
    assert forall name :: name in a <==> name in Ascending(a);
    assert forall name :: name in b <==> name in Ascending(b);
  }
}
