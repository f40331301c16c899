/** The order on strings that sorting and paging use: byte by byte, a prefix first. */
module StringOrder {
  predicate Less(s: string, t: string) {
    t != "" && (s == "" || s[0] < t[0] || (s[0] == t[0] && Less(s[1..], t[1..])))
  }

  lemma {:induction false} LessTotal(s: string, t: string)
    ensures Less(s, t) || s == t || Less(t, s)
  {
    if s != "" && t != "" && s[0] == t[0] {
      LessTotal(s[1..], t[1..]);
      assert s == [s[0]] + s[1..] && t == [t[0]] + t[1..];
    }
  }

  lemma {:induction false} LessIrreflexive(s: string)
    ensures !Less(s, s)
  {
    if s != "" {
      LessIrreflexive(s[1..]);
    }
  }

  lemma {:induction false} LessTransitive(s: string, t: string, u: string)
    requires Less(s, t) && Less(t, u)
    ensures Less(s, u)
  {
    if s != "" && s[0] == t[0] == u[0] {
      LessTransitive(s[1..], t[1..], u[1..]);
    }
  }

  lemma LessAsymmetric(s: string, t: string)
    requires Less(s, t)
    ensures !Less(t, s) && s != t
  {
    if Less(t, s) {
      LessTransitive(s, t, s);
    }
    LessIrreflexive(s);
  }

  lemma {:induction false} LessAfterPrefix(p: string, s: string, t: string)
    ensures Less(p + s, p + t) <==> Less(s, t)
  {
    if p == "" {
      assert p + s == s && p + t == t;
    } else {
      LessAfterPrefix(p[1..], s, t);
      assert (p + s)[1..] == p[1..] + s && (p + t)[1..] == p[1..] + t;
    }
  }

  /** `low` comes before everything else in the set. */
  ghost predicate IsLowest(low: string, all: set<string>) {
    low in all && forall other :: other in all ==> other == low || Less(low, other)
  }

  lemma {:induction false} LowestExists(all: set<string>)
    requires all != {}
    ensures exists low :: IsLowest(low, all)
  {
    var some :| some in all;
    var others := all - {some};
    if others == {} {
      assert forall other :: other in all ==> other == some || other in others;
      assert IsLowest(some, all);
    } else {
      LowestExists(others);
      var low :| IsLowest(low, others);
      LessTotal(some, low);
      if Less(some, low) {
        forall other | other in all ensures other == some || Less(some, other) {
          if other != some && other != low {
            LessTransitive(some, low, other);
          }
        }
        assert IsLowest(some, all);
      } else {
        assert IsLowest(low, all);
      }
    }
  }

  ghost function Lowest(all: set<string>): (low: string)
    requires all != {}
    ensures IsLowest(low, all)
  {
    LowestExists(all);
    var low :| IsLowest(low, all);
    low
  }

  /** All members of a set in ascending order. */
  ghost function Ascending(all: set<string>): (names: seq<string>)
    ensures |names| == |all|
    ensures forall name :: name in names <==> name in all
  {
    if all == {} then [] else [Lowest(all)] + Ascending(all - {Lowest(all)})
  }

  ghost predicate Sorted(names: seq<string>) {
    forall i, j :: 0 <= i < j < |names| ==> Less(names[i], names[j])
  }

  lemma {:induction false} AscendingIsSorted(all: set<string>)
    ensures Sorted(Ascending(all))
  {
    if all != {} {
      AscendingIsSorted(all - {Lowest(all)});
    }
  }

  /** A strictly sorted list is the ascending list of its members. */
  lemma {:induction false} SortedIsAscending(names: seq<string>)
    requires Sorted(names)
    ensures names == Ascending(set name | name in names)
  {
    if names != [] {
      var all := set name | name in names;
      HeadIsLowest(names, all);
      SortedIsAscending(names[1..]);
      assert names == [names[0]] + names[1..];
    }
  }

  lemma HeadIsLowest(names: seq<string>, all: set<string>)
    requires Sorted(names) && names != [] && all == set name | name in names
    ensures all != {} && Lowest(all) == names[0] && all - {names[0]} == set name | name in names[1..]
  {
    assert names[0] in all;
    LowestIsUnique(names[0], all);
    forall name | name in names[1..] ensures name != names[0] {
      LessIrreflexive(name);
    }
  }

  lemma SortedIsAscendingOf(names: seq<string>, all: set<string>)
    requires Sorted(names) && forall name :: name in all <==> name in names
    ensures Ascending(all) == names
  {
    SortedIsAscending(names);
    assert all == set name | name in names;
  }

  lemma LowestIsUnique(low: string, all: set<string>)
    requires all != {} && IsLowest(low, all)
    ensures low == Lowest(all)
  {
    if low != Lowest(all) {
      LessAsymmetric(low, Lowest(all));
    }
  }
}
