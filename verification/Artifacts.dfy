/**
 Session artifacts: the paged listing of a directory through a bounded candidate
 set, the cursor a page hands out and how a request reads it back, and reading an
 artifact in chunks. Strings are byte strings here: every character stands for one
 byte.
*/
module Artifacts {
  import opened Options
  import opened StringOrder
  import opened BoundedCandidates

  const PATH_PREFIX := ".affent/artifacts/tool-results"
  const ROOT := PATH_PREFIX + "/"

  /** The path an artifact is listed under. */
  function PathOf(name: string): string {
    ROOT + name
  }

  /** A name a directory can hold. */
  predicate FileName(name: string) {
    name != "" && name != "." && name != ".." && '/' !in name && '\0' !in name
  }

  // ---- One page ----

  /** A directory entry; links and directories are not listed. */
  datatype Entry = Entry(name: string, listed: bool)

  datatype Batch = Batch(entries: seq<Entry>) | ReadError

  datatype Listing = Listing(names: seq<string>, hasMore: bool) | ListingFailed

  function NamesIn(entries: seq<Entry>, after: string): set<string> {
    set entry <- entries | entry.listed && Less(after, PathOf(entry.name)) :: entry.name
  }

  function NamesBeyond(batches: seq<Batch>, after: string): set<string>
    requires ReadError !in batches
  {
    if batches == [] then {}
    else NamesBeyond(batches[..|batches| - 1], after) + NamesIn(batches[|batches| - 1].entries, after)
  }

  /** The listing of a set of names: the first ones, and whether there are more. */
  ghost function FirstOf(all: set<string>, limit: nat): Listing {
    var names := Ascending(all);
    if |names| > limit then Listing(names[..limit], true) else Listing(names, false)
  }

  method ListArtifactNames(batches: seq<Batch>, after: string, limit: nat) returns (r: Listing)
    requires limit >= 1
    ensures r.ListingFailed? <==> ReadError in batches
    ensures !r.ListingFailed? ==> r == FirstOf(NamesBeyond(batches, after), limit)
  {
    var candidates := new Candidates();
    for b := 0 to |batches|
      invariant fresh(candidates)
      invariant ReadError !in batches[..b]
      invariant Smallest(candidates.names, NamesBeyond(batches[..b], after), limit + 1)
    {
      if batches[b].ReadError? {
        return ListingFailed;
      }
      OneMoreBatch(batches, after, b);
      AddBatch(candidates, batches[b].entries, after, limit, NamesBeyond(batches[..b], after));
    }
    assert batches[..|batches|] == batches;
    var names := candidates.SortedNames();
    OneMoreThanAPage(candidates.names, NamesBeyond(batches, after), limit);
    if |names| > limit {
      return Listing(names[..limit], true);
    }
    return Listing(names, false);
  }

  lemma OneMoreBatch(batches: seq<Batch>, after: string, b: nat)
    requires b < |batches| && ReadError !in batches[..b] && batches[b] != ReadError
    ensures ReadError !in batches[..b + 1]
    ensures NamesBeyond(batches[..b + 1], after)
         == NamesBeyond(batches[..b], after) + NamesIn(batches[b].entries, after)
  {
    assert batches[..b + 1][..b] == batches[..b];
  }

  /** One name more than fits in a page tells whether there are more pages. */
  lemma OneMoreThanAPage(kept: set<string>, all: set<string>, limit: nat)
    requires Smallest(kept, all, limit + 1)
    ensures FirstOf(kept, limit) == FirstOf(all, limit)
  {
    SmallestIsPrefix(kept, all, limit + 1);
  }

  /** Adds the entries of one directory batch. */
  method AddBatch(candidates: Candidates, entries: seq<Entry>, after: string, limit: nat, ghost seen: set<string>)
    requires Smallest(candidates.names, seen, limit + 1)
    modifies candidates
    ensures Smallest(candidates.names, seen + NamesIn(entries, after), limit + 1)
  {
    assert seen + NamesIn(entries[..0], after) == seen;
    for i := 0 to |entries|
      invariant Smallest(candidates.names, seen + NamesIn(entries[..i], after), limit + 1)
    {
      OneMoreEntry(entries, after, i, seen);
      if !entries[i].listed {
        continue;
      }
      NotBeyond(after, PathOf(entries[i].name));
      if UpTo(PathOf(entries[i].name), after) {
        continue;
      }
      AddEntry(candidates, entries[i].name, limit, seen + NamesIn(entries[..i], after));
    }
    assert entries[..|entries|] == entries;
  }

  method AddEntry(candidates: Candidates, name: string, limit: nat, ghost seen: set<string>)
    requires Smallest(candidates.names, seen, limit + 1)
    modifies candidates
    ensures Smallest(candidates.names, seen + {name}, limit + 1)
  {
    ghost var kept := candidates.names;
    candidates.Add(name, limit + 1);
    EvictionLosesNothing(kept, seen, candidates.names, name, limit + 1);
  }

  lemma OneMoreEntry(entries: seq<Entry>, after: string, i: nat, seen: set<string>)
    requires i < |entries|
    ensures seen + NamesIn(entries[..i + 1], after)
         == seen + NamesIn(entries[..i], after)
          + if entries[i].listed && Less(after, PathOf(entries[i].name)) then {entries[i].name} else {}
  {
    assert entries[..i + 1] == entries[..i] + [entries[i]];
  }

  predicate UpTo(path: string, after: string) {
    path == after || Less(path, after)
  }

  lemma NotBeyond(after: string, path: string)
    ensures Less(after, path) <==> !UpTo(path, after)
  {
    LessTotal(after, path);
    LessIrreflexive(after);
    if Less(path, after) {
      LessAsymmetric(path, after);
    }
  }

  // ---- Following pages ----

  ghost function Beyond(names: set<string>, after: string): set<string> {
    set name <- names | Less(after, PathOf(name))
  }

  /** How a client's listing ends: with nothing more to list, with a cursor that is
      refused, or with one from which the next page starts no later than this one. */
  datatype Ending = Complete | Refused | Repeats

  /** A client that sends back the path of the last artifact listed until there are
      no more; `read` is how a request reads a cursor. */
  ghost function FollowPages(names: set<string>, after: string, limit: nat,
                             read: string -> Option<string>): (seq<string>, Ending)
    requires limit >= 1
    decreases |Beyond(names, after)|
  {
    var page := FirstOf(Beyond(names, after), limit);
    if !page.hasMore then (page.names, Complete)
    else
      var next := read(PathOf(page.names[limit - 1]));
      if next.None? then (page.names, Refused)
      else if |Beyond(names, next.value)| >= |Beyond(names, after)| then (page.names, Repeats)
      else
        var rest := FollowPages(names, next.value, limit, read);
        (page.names + rest.0, rest.1)
  }

  /** The cursor a name is listed under is accepted and stands between the name and
      the next one. */
  ghost predicate Separates(names: set<string>, name: string, read: string -> Option<string>) {
    var cursor := read(PathOf(name));
    cursor.Some? && Beyond(names, cursor.value) == Beyond(names, PathOf(name))
  }

  /** Every name that has another one after it. */
  ghost predicate AllSeparate(names: set<string>, read: string -> Option<string>) {
    forall name <- names :: Beyond(names, PathOf(name)) != {} ==> Separates(names, name, read)
  }

  /** Chained pages of any size list the whole directory, in order. */
  ghost predicate ListsAll(names: set<string>, read: string -> Option<string>) {
    forall limit: nat :: limit >= 1 ==> FollowPages(names, "", limit, read) == (Ascending(names), Complete)
  }

  /** What lies beyond the last name of a full page is what the page left out. */
  lemma PageAdvances(names: set<string>, after: string, limit: nat)
    requires limit >= 1 && |Beyond(names, after)| > limit
    ensures var all := Ascending(Beyond(names, after));
            var rest := Beyond(names, PathOf(all[limit - 1]));
            && all[limit - 1] in names
            && Ascending(rest) == all[limit..]
            && |rest| < |Beyond(names, after)|
  {
    var all := Ascending(Beyond(names, after));
    var rest := Beyond(names, PathOf(all[limit - 1]));
    assert all[limit - 1] in Beyond(names, after);
    AscendingIsSorted(Beyond(names, after));
    forall name ensures name in rest <==> name in all[limit..] {
      RestIsLater(names, after, limit, name);
    }
    SortedIsAscendingOf(all[limit..], rest);
    assert |Ascending(rest)| == |rest|;
  }

  lemma RestIsLater(names: set<string>, after: string, limit: nat, name: string)
    requires 1 <= limit < |Beyond(names, after)|
    ensures var all := Ascending(Beyond(names, after));
            name in Beyond(names, PathOf(all[limit - 1])) <==> name in all[limit..]
  {
    var beyond := Beyond(names, after);
    var all := Ascending(beyond);
    var cursor := all[limit - 1];
    assert cursor in beyond;
    AscendingIsSorted(beyond);
    LessAfterPrefix(ROOT, cursor, name);
    if name in beyond {
      var i :| 0 <= i < |all| && all[i] == name;
      if i >= limit {
        assert all[limit..][i - limit] == name;
      } else {
        NotBeyond(cursor, name);
        AscendingDistinct(all, i, limit);
      }
    } else if Less(cursor, name) {
      LessTransitive(after, PathOf(cursor), PathOf(name));
    }
  }

  lemma AscendingDistinct(all: seq<string>, i: nat, limit: nat)
    requires Sorted(all) && i < limit <= |all|
    ensures all[i] !in all[limit..]
  {
    if all[i] in all[limit..] {
      var j :| limit <= j < |all| && all[j] == all[i];
      LessIrreflexive(all[i]);
    }
  }

  /** Where every cursor separates, chained pages list every name beyond the start once,
      in order. */
  lemma {:induction false} FollowPagesListsAll(names: set<string>, after: string, limit: nat,
                                               read: string -> Option<string>, r: (seq<string>, Ending))
    requires limit >= 1 && AllSeparate(names, read) && r == FollowPages(names, after, limit, read)
    ensures r == (Ascending(Beyond(names, after)), Complete)
    decreases |Beyond(names, after)|
  {
    var all := Ascending(Beyond(names, after));
    if |all| > limit {
      var cursor, rest := NextPages(names, after, limit, read);
      FollowPagesListsAll(names, cursor, limit, read, rest);
    }
  }

  /** One page, and the pages from the next cursor. */
  lemma NextPages(names: set<string>, after: string, limit: nat, read: string -> Option<string>)
    returns (cursor: string, rest: (seq<string>, Ending))
    requires 1 <= limit < |Beyond(names, after)| && AllSeparate(names, read)
    ensures |Beyond(names, cursor)| < |Beyond(names, after)|
    ensures rest == FollowPages(names, cursor, limit, read)
    ensures var all := Ascending(Beyond(names, after));
            && FollowPages(names, after, limit, read) == (all[..limit] + rest.0, rest.1)
            && all == all[..limit] + Ascending(Beyond(names, cursor))
  {
    LaterPages(names, after, limit);
    PageAdvances(names, after, limit);
    var last := Ascending(Beyond(names, after))[limit - 1];
    assert Ascending(Beyond(names, PathOf(last))) != [];
    assert Separates(names, last, read);
    cursor := read(PathOf(last)).value;
    rest := FollowPages(names, cursor, limit, read);
  }

  lemma LaterPages(names: set<string>, after: string, limit: nat)
    requires limit >= 1 && |Beyond(names, after)| > limit
    ensures var all := Ascending(Beyond(names, after));
            var rest := Beyond(names, PathOf(all[limit - 1]));
            |rest| < |Beyond(names, after)| && all == all[..limit] + Ascending(rest)
  {
    PageAdvances(names, after, limit);
    SplitAt(Ascending(Beyond(names, after)), limit);
  }

  lemma SplitAt(all: seq<string>, limit: nat)
    requires limit <= |all|
    ensures all == all[..limit] + all[limit..]
  {
  }

  // ---- When chained pages list the directory ----

  /** Pages from a cursor start with the lowest name beyond it. */
  lemma FirstListed(names: set<string>, after: string, limit: nat, read: string -> Option<string>)
    requires limit >= 1 && FollowPages(names, after, limit, read).0 != []
    ensures Beyond(names, after) != {} && FollowPages(names, after, limit, read).0[0] == Lowest(Beyond(names, after))
  {
  }

  /** What lies beyond a cursor is determined by its lowest name. */
  lemma SameLowest(names: set<string>, a: string, b: string)
    requires Beyond(names, a) != {} && Beyond(names, b) != {}
    requires Lowest(Beyond(names, a)) == Lowest(Beyond(names, b))
    ensures Beyond(names, a) == Beyond(names, b)
  {
    var low := Lowest(Beyond(names, a));
    forall name <- names ensures name in Beyond(names, a) <==> name in Beyond(names, b) {
      if name in Beyond(names, a) {
        AboveLowest(names, b, low, name);
      }
      if name in Beyond(names, b) {
        AboveLowest(names, a, low, name);
      }
    }
  }

  lemma AboveLowest(names: set<string>, after: string, low: string, name: string)
    requires low in Beyond(names, after) && name in names && (name == low || Less(low, name))
    ensures name in Beyond(names, after)
  {
    if Less(low, name) {
      LessAfterPrefix(ROOT, low, name);
      LessTransitive(after, PathOf(low), PathOf(name));
    }
  }

  /** If single-entry pages list everything beyond a cursor, every cursor on the way
      separates. */
  lemma {:induction false} SinglePagesSeparate(names: set<string>, after: string, read: string -> Option<string>,
                                               r: (seq<string>, Ending))
    requires r == FollowPages(names, after, 1, read) == (Ascending(Beyond(names, after)), Complete)
    ensures forall name <- Beyond(names, after) :: Beyond(names, PathOf(name)) != {} ==> Separates(names, name, read)
    decreases |Beyond(names, after)|
  {
    var beyond := Beyond(names, after);
    var all := Ascending(beyond);
    if |all| <= 1 {
      forall name <- beyond ensures Beyond(names, PathOf(name)) == {} {
        OnlyOneBeyond(names, after, name);
      }
    } else {
      var next, rest := FirstSeparates(names, after, read);
      SinglePagesSeparate(names, next, read, rest);
      forall name <- beyond ensures name == all[0] || name in Beyond(names, next) {
        assert name in all;
        assert all == [all[0]] + Ascending(Beyond(names, next));
      }
    }
  }

  lemma OnlyOneBeyond(names: set<string>, after: string, name: string)
    requires name in Beyond(names, after) && |Beyond(names, after)| <= 1
    ensures Beyond(names, PathOf(name)) == {}
  {
    assert |{name}| == 1;
    SubsetOfSameSize({name}, Beyond(names, after));
    LessIrreflexive(PathOf(name));
    forall other <- names ensures other in Beyond(names, PathOf(name)) ==> other in Beyond(names, after) {
      if Less(PathOf(name), PathOf(other)) {
        LessTransitive(after, PathOf(name), PathOf(other));
      }
    }
  }

  lemma FirstSeparates(names: set<string>, after: string, read: string -> Option<string>)
    returns (next: string, rest: (seq<string>, Ending))
    requires |Beyond(names, after)| > 1
    requires FollowPages(names, after, 1, read) == (Ascending(Beyond(names, after)), Complete)
    ensures |Beyond(names, next)| < |Beyond(names, after)|
    ensures var all := Ascending(Beyond(names, after));
            && Separates(names, all[0], read)
            && all == [all[0]] + Ascending(Beyond(names, next))
    ensures rest == FollowPages(names, next, 1, read) == (Ascending(Beyond(names, next)), Complete)
  {
    var all := Ascending(Beyond(names, after));
    PageAdvances(names, after, 1);
    next := read(PathOf(all[0])).value;
    rest := FollowPages(names, next, 1, read);
    assert all[..1] == [all[0]] && all == [all[0]] + rest.0;
    assert rest.0 == all[1..];
    FirstListed(names, next, 1, read);
    var later := Beyond(names, PathOf(all[0]));
    assert Ascending(later) == all[1..] && later != {};
    SameLowest(names, next, PathOf(all[0]));
  }

  /** Chained pages of every size list the whole directory exactly when the cursor of
      every name but the last separates it from the next. */
  lemma ListsAllIff(names: set<string>, read: string -> Option<string>)
    ensures ListsAll(names, read) <==> AllSeparate(names, read)
  {
    assert Beyond(names, "") == names;
    if AllSeparate(names, read) {
      forall limit: nat | limit >= 1
        ensures FollowPages(names, "", limit, read) == (Ascending(names), Complete)
      {
        FollowPagesListsAll(names, "", limit, read, FollowPages(names, "", limit, read));
      }
    }
    if ListsAll(names, read) {
      SinglePagesSeparate(names, "", read, FollowPages(names, "", 1, read));
    }
  }

  // ---- Reading a cursor ----

  function HexDigit(c: char): Option<int> {
    if '0' <= c <= '9' then Some(c as int - '0' as int)
    else if 'a' <= c <= 'f' then Some(c as int - 'a' as int + 10)
    else if 'A' <= c <= 'F' then Some(c as int - 'A' as int + 10)
    else None
  }

  /** Decodes %XX; None where a percent sign is not followed by two hex digits. */
  function Unescape(s: string): Option<string> {
    if s == "" then Some("")
    else if s[0] == '%' then
      if |s| < 3 || HexDigit(s[1]).None? || HexDigit(s[2]).None? then None
      else
        var rest := Unescape(s[3..]);
        if rest.None? then None
        else Some([(HexDigit(s[1]).value * 16 + HexDigit(s[2]).value) as char] + rest.value)
    else
      var rest := Unescape(s[1..]);
      if rest.None? then None else Some([s[0]] + rest.value)
  }

  predicate AsciiSpace(c: char) {
    '\t' <= c <= '\r' || c == ' '
  }

  /** The two-byte encodings of other space characters. */
  predicate WideSpace(a: char, b: char) {
    a as int == 0xC2 && b as int in {0x85, 0xA0}
  }

  /** The three-byte encodings of other space characters. */
  predicate WiderSpace(a: char, b: char, c: char) {
    var (x, y, z) := (a as int, b as int, c as int);
    || (x == 0xE1 && y == 0x9A && z == 0x80)
    || (x == 0xE2 && y == 0x80 && (0x80 <= z <= 0x8A || z in {0xA8, 0xA9, 0xAF}))
    || (x == 0xE2 && y == 0x81 && z == 0x9F)
    || (x == 0xE3 && y == 0x80 && z == 0x80)
  }

  /** The length of the space character a string ends in, or zero. */
  function SpaceAtEnd(s: string): (n: nat)
    ensures n <= |s|
  {
    var k := |s|;
    if k >= 1 && AsciiSpace(s[k - 1]) then 1
    else if k >= 2 && WideSpace(s[k - 2], s[k - 1]) then 2
    else if k >= 3 && WiderSpace(s[k - 3], s[k - 2], s[k - 1]) then 3
    else 0
  }

  function SpaceAtStart(s: string): (n: nat)
    ensures n <= |s|
  {
    if |s| >= 1 && AsciiSpace(s[0]) then 1
    else if |s| >= 2 && WideSpace(s[0], s[1]) then 2
    else if |s| >= 3 && WiderSpace(s[0], s[1], s[2]) then 3
    else 0
  }

  function TrimRight(s: string): string {
    var n := SpaceAtEnd(s);
    if n == 0 then s else TrimRight(s[..|s| - n])
  }

  function TrimLeft(s: string): string {
    var n := SpaceAtStart(s);
    if n == 0 then s else TrimLeft(s[n..])
  }

  function TrimSpace(s: string): string {
    TrimRight(TrimLeft(s))
  }

  function TrimSlash(s: string): string {
    if s != "" && s[0] == '/' then s[1..] else s
  }

  /** The parts of a path between slashes. */
  function Split(path: string): (parts: seq<string>)
    ensures |parts| > 0
  {
    if path == "" then [""]
    else
      var parts := Split(path[1..]);
      if path[0] == '/' then [""] + parts else [[path[0]] + parts[0]] + parts[1..]
  }

  function Join(parts: seq<string>): string {
    if parts == [] then ""
    else if |parts| == 1 then parts[0]
    else Join(parts[..|parts| - 1]) + "/" + parts[|parts| - 1]
  }

  /** Resolves one path element against the elements kept so far. */
  function Resolve(kept: seq<string>, part: string, rooted: bool): seq<string> {
    if part == "" || part == "." then kept
    else if part == ".." then
      if kept != [] && kept[|kept| - 1] != ".." then kept[..|kept| - 1]
      else if rooted then kept
      else kept + [part]
    else kept + [part]
  }

  function ResolveAll(kept: seq<string>, parts: seq<string>, rooted: bool): seq<string>
    decreases |parts|
  {
    if parts == [] then kept else ResolveAll(Resolve(kept, parts[0], rooted), parts[1..], rooted)
  }

  /** The shortest equivalent path. */
  function Clean(path: string): string {
    if path == "" then "."
    else if path[0] == '/' then "/" + Join(ResolveAll([], Split(path[1..]), true))
    else
      var kept := ResolveAll([], Split(path), false);
      if kept == [] then "." else Join(kept)
  }

  predicate HasPrefix(s: string, prefix: string) {
    |prefix| <= |s| && s[..|prefix|] == prefix
  }

  /** How a request reads an artifact path or a cursor. */
  function CleanRequestPath(raw: string): Option<string> {
    var decoded := Unescape(TrimSlash(raw));
    if decoded.None? then None
    else
      var trimmed := TrimSpace(decoded.value);
      if trimmed == "" then None
      else
        var relative := TrimSlash(trimmed);
        var full := if '/' in relative then relative
                    else if relative == "" then PATH_PREFIX else Clean(PathOf(relative));
        Accepted(Clean(full))
  }

  /** A cleaned path that stays under the artifact directory and names a file. */
  function Accepted(clean: string): Option<string> {
    if clean == "." || HasPrefix(clean, "../") || HasPrefix(clean, "/") then None
    else if clean == PATH_PREFIX || !HasPrefix(clean, ROOT) then None
    else Some(clean)
  }

  // ---- Which cursors read back ----

  lemma {:induction false} UnescapeAfterPlain(plain: string, s: string)
    requires '%' !in plain
    ensures Unescape(plain + s)
         == if Unescape(s).None? then None else Some(plain + Unescape(s).value)
  {
    if plain == "" {
      assert plain + s == s;
      assert Unescape(s).Some? ==> plain + Unescape(s).value == Unescape(s).value;
    } else {
      UnescapeAfterPlain(plain[1..], s);
      assert (plain + s)[1..] == plain[1..] + s;
      assert Unescape(s).Some? ==> [plain[0]] + (plain[1..] + Unescape(s).value) == plain + Unescape(s).value;
    }
  }

  lemma {:induction false} UnescapeShortens(s: string)
    ensures '%' !in s ==> Unescape(s) == Some(s)
    ensures '%' in s && Unescape(s).Some? ==> |Unescape(s).value| < |s|
  {
    if s != "" {
      assert s == [s[0]] + s[1..];
      if s[0] != '%' {
        UnescapeShortens(s[1..]);
      } else if |s| >= 3 {
        UnescapeShortens(s[3..]);
      }
    }
  }

  lemma {:induction false} TrimRightShortens(s: string)
    ensures |TrimRight(s)| <= |s|
    ensures |TrimRight(s)| == |s| <==> SpaceAtEnd(s) == 0
    ensures SpaceAtEnd(s) == 0 ==> TrimRight(s) == s
  {
    if SpaceAtEnd(s) > 0 {
      TrimRightShortens(s[..|s| - SpaceAtEnd(s)]);
    }
  }

  /** A slash is no part of a space, so trimming stops there. */
  lemma SpaceStopsAtSlash(a: string, s: string)
    requires a != "" && a[|a| - 1] == '/'
    ensures SpaceAtEnd(a + s) == SpaceAtEnd(s)
  {
    var path := a + s;
    assert forall i :: 0 <= i < |s| ==> path[|path| - |s| + i] == s[i];
    assert path[|path| - |s| - 1] == '/';
  }

  lemma {:induction false} TrimRightStopsAtSlash(a: string, s: string)
    requires a != "" && a[|a| - 1] == '/'
    ensures TrimRight(a + s) == a + TrimRight(s)
    decreases |s|
  {
    SpaceStopsAtSlash(a, s);
    var n := SpaceAtEnd(s);
    if n > 0 {
      assert (a + s)[..|a + s| - n] == a + s[..|s| - n];
      TrimRightStopsAtSlash(a, s[..|s| - n]);
    }
  }

  lemma TrimLeftKeeps(s: string)
    requires s != "" && s[0] == '.'
    ensures TrimLeft(s) == s
  {
  }

  /** The length of the parts when each is followed by a slash. */
  function Weight(parts: seq<string>): nat {
    if parts == [] then 0 else Weight(parts[..|parts| - 1]) + |parts[|parts| - 1]| + 1
  }

  lemma {:induction false} JoinLength(parts: seq<string>)
    ensures parts != [] ==> |Join(parts)| + 1 == Weight(parts)
  {
    if |parts| > 1 {
      JoinLength(parts[..|parts| - 1]);
    }
  }

  lemma {:induction false} WeightOfFirst(parts: seq<string>)
    requires parts != []
    ensures Weight(parts) == |parts[0]| + 1 + Weight(parts[1..])
  {
    if |parts| > 1 {
      WeightOfFirst(parts[..|parts| - 1]);
      assert parts[1..][..|parts| - 2] == parts[..|parts| - 1][1..];
    } else {
      assert parts[..0] == parts[1..];
    }
  }

  lemma {:induction false} SplitWeight(path: string)
    ensures Weight(Split(path)) == |path| + 1
  {
    WeightOfFirst(Split(path));
    if path != "" {
      SplitWeight(path[1..]);
      var parts := Split(path[1..]);
      WeightOfFirst(parts);
      assert Split(path)[1..] == if path[0] == '/' then parts else parts[1..];
    }
  }

  lemma {:induction false} ResolveLightens(kept: seq<string>, parts: seq<string>, rooted: bool)
    ensures Weight(ResolveAll(kept, parts, rooted)) <= Weight(kept) + Weight(parts)
    decreases |parts|
  {
    if parts != [] {
      WeightOfFirst(parts);
      ResolveOneLightens(kept, parts[0], rooted);
      ResolveLightens(Resolve(kept, parts[0], rooted), parts[1..], rooted);
    }
  }

  lemma ResolveOneLightens(kept: seq<string>, part: string, rooted: bool)
    ensures Weight(Resolve(kept, part, rooted)) <= Weight(kept) + |part| + 1
  {
    assert (kept + [part])[..|kept|] == kept;
  }

  /** A cleaned path is never longer than the path. */
  lemma CleanShortens(path: string)
    requires path != ""
    ensures |Clean(path)| <= |path|
  {
    var rooted := path[0] == '/';
    var rest := if rooted then path[1..] else path;
    var kept := ResolveAll([], Split(rest), rooted);
    ResolveLightens([], Split(rest), rooted);
    SplitWeight(rest);
    JoinLength(kept);
  }

  lemma {:induction false} SplitFirst(first: string, rest: string)
    requires '/' !in first
    ensures Split(first) == [first]
    ensures Split(first + "/" + rest) == [first] + Split(rest)
  {
    var path := first + "/" + rest;
    if first == "" {
      assert path[1..] == rest;
    } else {
      SplitFirst(first[1..], rest);
      assert path[1..] == first[1..] + "/" + rest;
      assert [path[0]] + first[1..] == first;
    }
  }

  /** A proper path element stays where it is. */
  predicate Proper(part: string) {
    part != "" && part != "." && part != ".."
  }

  lemma {:induction false} ProperPathsStay(kept: seq<string>, parts: seq<string>, rooted: bool)
    requires forall i :: 0 <= i < |parts| ==> Proper(parts[i])
    ensures ResolveAll(kept, parts, rooted) == kept + parts
    decreases |parts|
  {
    if parts != [] {
      ProperPathsStay(kept + [parts[0]], parts[1..], rooted);
      assert kept + [parts[0]] + parts[1..] == kept + parts;
    } else {
      assert kept + parts == kept;
    }
  }

  lemma SplitFour(a: string, b: string, c: string, d: string)
    requires '/' !in a && '/' !in b && '/' !in c && '/' !in d
    ensures Split(a + "/" + (b + "/" + (c + "/" + d))) == [a, b, c, d]
  {
    SplitFirst(a, b + "/" + (c + "/" + d));
    SplitFirst(b, c + "/" + d);
    SplitFirst(c, d);
    SplitFirst(d, "");
  }

  lemma JoinFour(a: string, b: string, c: string, d: string)
    ensures Join([a, b, c, d]) == a + "/" + (b + "/" + (c + "/" + d))
  {
    assert [a, b, c, d][..3] == [a, b, c];
    assert [a, b, c][..2] == [a, b];
    assert [a, b][..1] == [a];
    assert Join([a, b]) == a + "/" + b;
    assert Join([a, b, c]) == a + "/" + b + "/" + c;
    assert a + "/" + b + "/" + c + "/" + d == a + "/" + (b + "/" + (c + "/" + d));
  }

  lemma ProperPathIsClean(a: string, b: string, c: string, d: string)
    requires '/' !in a && '/' !in b && '/' !in c && '/' !in d
    requires Proper(a) && Proper(b) && Proper(c) && Proper(d)
    ensures Clean(a + "/" + (b + "/" + (c + "/" + d))) == a + "/" + (b + "/" + (c + "/" + d))
  {
    var path := a + "/" + (b + "/" + (c + "/" + d));
    assert path[0] == a[0];
    SplitFour(a, b, c, d);
    ProperPathsStay([], [a, b, c, d], false);
    assert [] + [a, b, c, d] == [a, b, c, d];
    JoinFour(a, b, c, d);
  }

  lemma ArtifactPathIsClean(name: string)
    requires FileName(name)
    ensures Clean(PathOf(name)) == PathOf(name)
  {
    assert PathOf(name) == ".affent" + "/" + ("artifacts" + "/" + ("tool-results" + "/" + name));
    ProperPathIsClean(".affent", "artifacts", "tool-results", name);
  }

  lemma ArtifactPathIsAccepted(name: string)
    requires FileName(name)
    ensures Accepted(PathOf(name)) == Some(PathOf(name))
  {
    var path := PathOf(name);
    assert path[0] == '.' && path[1] == 'a';
    assert path[..|ROOT|] == ROOT;
    assert path[..3][1] == 'a' && path[..1][0] == '.';
  }

  /** What a listed path is cleaned from: its name decoded and trimmed at the end. */
  lemma ListedPathDecodes(name: string)
    ensures CleanRequestPath(PathOf(name))
         == if Unescape(name).None? then None
            else Accepted(Clean(ROOT + TrimRight(Unescape(name).value)))
  {
    var path := PathOf(name);
    assert path[0] == '.' && TrimSlash(path) == path;
    UnescapeAfterPlain(ROOT, name);
    if Unescape(name).Some? {
      var decoded := ROOT + Unescape(name).value;
      assert decoded[0] == '.';
      TrimLeftKeeps(decoded);
      TrimRightStopsAtSlash(ROOT, Unescape(name).value);
      var trimmed := ROOT + TrimRight(Unescape(name).value);
      assert trimmed[0] == '.' && trimmed[|ROOT| - 1] == '/';
      assert '/' in trimmed;
    }
  }

  /** A listed path reads back as itself exactly when its name holds no percent sign
      and does not end in a space. */
  lemma CursorReadsBackIff(name: string)
    requires FileName(name)
    ensures CleanRequestPath(PathOf(name)) == Some(PathOf(name)) <==> '%' !in name && SpaceAtEnd(name) == 0
  {
    ListedPathDecodes(name);
    UnescapeShortens(name);
    if Unescape(name).Some? {
      var t := TrimRight(Unescape(name).value);
      TrimRightShortens(Unescape(name).value);
      if |t| < |name| {
        ShorterIsDifferent(t, name);
      } else {
        ArtifactPathIsClean(name);
        ArtifactPathIsAccepted(name);
      }
    }
  }

  lemma ShorterIsDifferent(t: string, name: string)
    requires |t| < |name|
    ensures Accepted(Clean(ROOT + t)) != Some(PathOf(name))
  {
    CleanShortens(ROOT + t);
    AcceptedUnchanged(Clean(ROOT + t));
  }

  lemma AcceptedUnchanged(clean: string)
    ensures Accepted(clean).Some? ==> Accepted(clean).value == clean
  {
  }

  /** A name whose listed path reads back. */
  predicate Plain(name: string) {
    '%' !in name && SpaceAtEnd(name) == 0
  }

  /** For plain names the pages of the server, chained by the cursors it hands out, list
      the whole directory. */
  lemma PlainNamesAreListed(names: set<string>)
    requires forall name :: name in names ==> FileName(name) && Plain(name)
    ensures ListsAll(names, CleanRequestPath)
  {
    forall name <- names ensures Separates(names, name, CleanRequestPath) {
      CursorReadsBackIff(name);
    }
    ListsAllIff(names, CleanRequestPath);
  }

  /** A cursor that sorts after a path it is no longer than sorts after its extensions. */
  lemma {:induction false} AfterExtensions(path: string, more: string, cursor: string)
    requires Less(path, cursor) && |cursor| <= |path|
    ensures Less(path + more, cursor)
  {
    if path[0] == cursor[0] {
      AfterExtensions(path[1..], more, cursor[1..]);
      assert (path + more)[1..] == path[1..] + more;
    }
  }

  /** The cursor of a name that is not plain fails to separate it from the name
      extended by one letter. */
  lemma OtherwiseNotSeparated(name: string)
    requires FileName(name) && !Plain(name)
    ensures !Separates({name, name + "a"}, name, CleanRequestPath)
  {
    CursorIsShorter(name);
    var cursor := CleanRequestPath(PathOf(name));
    if cursor.Some? {
      ShorterNeverSeparates(name, cursor.value, CleanRequestPath);
    }
  }

  lemma ShorterNeverSeparates(name: string, cursor: string, read: string -> Option<string>)
    requires read(PathOf(name)) == Some(cursor) && |cursor| < |PathOf(name)|
    ensures !Separates({name, name + "a"}, name, read)
  {
    var names, path := {name, name + "a"}, PathOf(name);
    LessTotal(cursor, path);
    ExtensionIsLater(name);
    if Less(path, cursor) {
      AfterExtensions(path, "a", cursor);
      assert path + "a" == PathOf(name + "a");
      LessAsymmetric(PathOf(name + "a"), cursor);
      assert name + "a" !in Beyond(names, cursor) && name + "a" in Beyond(names, path);
    } else {
      LessIrreflexive(path);
      assert name in Beyond(names, cursor) && name !in Beyond(names, path);
    }
  }

  lemma CursorIsShorter(name: string)
    requires FileName(name) && !Plain(name)
    ensures var cursor := CleanRequestPath(PathOf(name));
            cursor.Some? ==> |cursor.value| < |PathOf(name)|
  {
    ListedPathDecodes(name);
    UnescapeShortens(name);
    if Unescape(name).Some? {
      var t := TrimRight(Unescape(name).value);
      TrimRightShortens(Unescape(name).value);
      CleanShortens(ROOT + t);
      AcceptedUnchanged(Clean(ROOT + t));
    }
  }

  lemma ExtensionIsLater(name: string)
    ensures Less(name, name + "a") && Less(PathOf(name), PathOf(name + "a"))
  {
    LessAfterPrefix(name, "", "a");
    assert name + "" == name;
    LessAfterPrefix(ROOT, name, name + "a");
  }

  /** Every two-entry directory in which a name comes first is listed, with pages of
      every size, exactly when the name is plain. */
  lemma PagingIff(name: string)
    requires FileName(name)
    ensures Plain(name) <==>
            forall other :: FileName(other) && Less(name, other) ==> ListsAll({name, other}, CleanRequestPath)
  {
    if Plain(name) {
      forall other | FileName(other) && Less(name, other)
        ensures ListsAll({name, other}, CleanRequestPath)
      {
        PlainBeforeOther(name, other);
      }
    } else {
      var other := name + "a";
      ExtensionIsLater(name);
      assert name in {name, other} && other in Beyond({name, other}, PathOf(name));
      OtherwiseNotSeparated(name);
      ListsAllIff({name, other}, CleanRequestPath);
      assert FileName(other);
    }
  }

  lemma PlainBeforeOther(name: string, other: string)
    requires FileName(name) && Plain(name) && Less(name, other)
    ensures ListsAll({name, other}, CleanRequestPath)
  {
    var names := {name, other};
    CursorReadsBackIff(name);
    LessAfterPrefix(ROOT, name, other);
    LessAsymmetric(PathOf(name), PathOf(other));
    LessIrreflexive(PathOf(other));
    assert Beyond(names, PathOf(other)) == {};
    ListsAllIff(names, CleanRequestPath);
  }

  /** A name with a percent sign can make the next page repeat the last one. */
  lemma PercentRepeatsAPage()
    ensures FollowPages({"a%20b", "c"}, "", 1, CleanRequestPath) == (["a%20b"], Repeats)
  {
    SpaceIsLower();
    PercentDecodes();
    TwoNamesRepeat({"a%20b", "c"}, "a%20b", "c", "a b", CleanRequestPath);
  }

  /** A cursor below both names starts over. */
  lemma TwoNamesRepeat(names: set<string>, low: string, high: string, below: string, read: string -> Option<string>)
    requires names == {low, high} && Less(low, high) && Less(below, low)
    requires read(PathOf(low)) == Some(PathOf(below))
    ensures FollowPages(names, "", 1, read) == ([low], Repeats)
  {
    LessTransitive(below, low, high);
    FirstOfTwo(low, high);
    BeyondLower(names, "");
    LessAfterPrefix(ROOT, below, low);
    LessAfterPrefix(ROOT, below, high);
    BeyondLower(names, PathOf(below));
    PageRepeats(names, "", low, PathOf(below), read);
  }

  lemma PageRepeats(names: set<string>, after: string, name: string, cursor: string, read: string -> Option<string>)
    requires FirstOf(Beyond(names, after), 1) == Listing([name], true)
    requires read(PathOf(name)) == Some(cursor) && Beyond(names, cursor) == Beyond(names, after)
    ensures FollowPages(names, after, 1, read) == ([name], Repeats)
  {
  }

  lemma SpaceIsLower()
    ensures Less("a b", "a%20b") && Less("a%20b", "c")
  {
    assert "a b"[1..] == " b" && "a%20b"[1..] == "%20b";
  }

  lemma BeyondLower(names: set<string>, after: string)
    requires forall name :: name in names ==> Less(after, PathOf(name))
    ensures Beyond(names, after) == names
  {
  }

  lemma FirstOfTwo(low: string, high: string)
    requires Less(low, high)
    ensures FirstOf({low, high}, 1) == Listing([low], true)
  {
    LessAsymmetric(low, high);
    LowestIsUnique(low, {low, high});
    assert {low, high} - {low} == {high};
    assert Ascending({low, high})[..1] == [low];
  }

  lemma PercentDecodes()
    ensures CleanRequestPath(PathOf("a%20b")) == Some(PathOf("a b"))
  {
    PercentTwenty();
    assert SpaceAtEnd("a b") == 0;
    DecodesTo("a%20b", "a b");
  }

  lemma DecodesTo(name: string, decoded: string)
    requires Unescape(name) == Some(decoded) && FileName(decoded) && SpaceAtEnd(decoded) == 0
    ensures CleanRequestPath(PathOf(name)) == Some(PathOf(decoded))
  {
    ListedPathDecodes(name);
    TrimRightShortens(decoded);
    ArtifactPathIsClean(decoded);
    ArtifactPathIsAccepted(decoded);
  }

  lemma PercentTwenty()
    ensures Unescape("a%20b") == Some("a b")
  {
    assert "a%20b" == "a" + "%20b" && "a" + " b" == "a b";
    UnescapeAfterPlain("a", "%20b");
    var s := "%20b";
    assert s[3..] == "b";
    UnescapeShortens("b");
    assert HexDigit(s[1]) == Some(2) && HexDigit(s[2]) == Some(0);
    assert [32 as char] + "b" == " b";
  }

  // ---- Reading in chunks ----

  /** What one read answers: the bytes, the next offset, and whether more remain. */
  datatype Chunk<T> = Chunk(bytes: seq<T>, nextOffset: nat, hasMore: bool)

  method ReadChunk<T>(content: seq<T>, offset: nat, limit: nat) returns (chunk: Chunk<T>)
    requires limit >= 1
    ensures chunk == ChunkOf(content, offset, limit)
  {
    var from := offset;
    if from > |content| {
      from := |content|;
    }
    var chunkBytes := limit;
    if |content| - from < chunkBytes {
      chunkBytes := |content| - from;
    }
    return Chunk(content[from..from + chunkBytes], from + chunkBytes, from + chunkBytes < |content|);
  }

  function Min(a: nat, b: nat): nat {
    if a < b then a else b
  }

  function ChunkOf<T>(content: seq<T>, offset: nat, limit: nat): (chunk: Chunk<T>) {
    var from := Min(offset, |content|);
    var next := Min(from + limit, |content|);
    Chunk(content[from..next], next, next < |content|)
  }

  function FollowChunks<T>(content: seq<T>, offset: nat, limit: nat): seq<T>
    requires limit >= 1
    decreases |content| - offset
  {
    var chunk := ChunkOf(content, offset, limit);
    chunk.bytes + if chunk.hasMore then FollowChunks(content, chunk.nextOffset, limit) else []
  }

  /** Chained chunks are the rest of the artifact, whatever the chunk size. */
  lemma {:induction false} ChunksAreTheContent<T>(content: seq<T>, offset: nat, limit: nat)
    requires limit >= 1
    ensures FollowChunks(content, offset, limit) == content[Min(offset, |content|)..]
    decreases |content| - offset
  {
    var chunk := ChunkOf(content, offset, limit);
    if chunk.hasMore {
      ChunksAreTheContent(content, chunk.nextOffset, limit);
      assert content[offset..] == chunk.bytes + content[chunk.nextOffset..];
    } else {
      assert chunk.bytes + [] == chunk.bytes;
    }
  }
}
