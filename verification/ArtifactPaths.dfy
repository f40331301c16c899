/**
 Where an artifact path leads: cleaning a path keeps the place it stands for, and no path
 that a request is allowed to name leaves the artifact directory.
*/
module ArtifactPaths {
  import opened Options
  import opened StringOrder
  import opened Artifacts

  // ---- Walking a path ----

  /** A place in a tree, from where the walk began: so many levels up, then down these names. */
  datatype Place = Place(ups: nat, names: seq<string>)

  const HERE := Place(0, [])

  /** One path element; above the root there is nothing. */
  function Moved(p: Place, part: string, rooted: bool): Place {
    if part == "" || part == "." then p
    else if part != ".." then p.(names := p.names + [part])
    else if p.names != [] then p.(names := p.names[..|p.names| - 1])
    else if rooted then p
    else p.(ups := p.ups + 1)
  }

  function Walked(p: Place, parts: seq<string>, rooted: bool): Place
    decreases |parts|
  {
    if parts == [] then p else Walked(Moved(p, parts[0], rooted), parts[1..], rooted)
  }

  predicate Rooted(path: string) {
    path != "" && path[0] == '/'
  }

  /** The place a path stands for. */
  function PlaceOf(path: string): Place {
    if Rooted(path) then Walked(HERE, Split(path[1..]), true) else Walked(HERE, Split(path), false)
  }

  predicate ProperNames(names: seq<string>) {
    forall i :: 0 <= i < |names| ==> Proper(names[i]) && '/' !in names[i]
  }

  predicate NoSlashes(parts: seq<string>) {
    forall i :: 0 <= i < |parts| ==> '/' !in parts[i]
  }

  function Ups(n: nat): (parts: seq<string>)
    ensures |parts| == n && forall i :: 0 <= i < n ==> parts[i] == ".."
  {
    seq(n, _ => "..")
  }

  /** The place as a list of path elements. */
  function PartsOf(p: Place): seq<string> {
    Ups(p.ups) + p.names
  }

  lemma ResolvedIsMoved(p: Place, part: string, rooted: bool)
    requires ProperNames(p.names) && '/' !in part && (rooted ==> p.ups == 0)
    ensures Resolve(PartsOf(p), part, rooted) == PartsOf(Moved(p, part, rooted))
    ensures ProperNames(Moved(p, part, rooted).names) && (rooted ==> Moved(p, part, rooted).ups == 0)
  {
    if part == ".." {
      var kept := PartsOf(p);
      if p.names != [] {
        assert kept[|kept| - 1] == p.names[|p.names| - 1];
        assert kept[..|kept| - 1] == Ups(p.ups) + p.names[..|p.names| - 1];
      } else {
        assert kept == Ups(p.ups);
        assert !rooted ==> kept + [".."] == Ups(p.ups + 1) + [];
      }
    } else if part != "" && part != "." {
      assert PartsOf(p) + [part] == Ups(p.ups) + (p.names + [part]);
    }
  }

  lemma {:induction false} ResolvingWalks(p: Place, parts: seq<string>, rooted: bool)
    requires ProperNames(p.names) && NoSlashes(parts) && (rooted ==> p.ups == 0)
    ensures ResolveAll(PartsOf(p), parts, rooted) == PartsOf(Walked(p, parts, rooted))
    ensures ProperNames(Walked(p, parts, rooted).names) && (rooted ==> Walked(p, parts, rooted).ups == 0)
    decreases |parts|
  {
    if parts != [] {
      ResolvedIsMoved(p, parts[0], rooted);
      ResolvingWalks(Moved(p, parts[0], rooted), parts[1..], rooted);
    }
  }

  // ---- Walking what was resolved ----

  lemma {:induction false} WalkingNames(p: Place, names: seq<string>, rooted: bool)
    requires ProperNames(names)
    ensures Walked(p, names, rooted) == p.(names := p.names + names)
    decreases |names|
  {
    if names == [] {
      assert p.names + names == p.names;
    } else {
      WalkingNames(Moved(p, names[0], rooted), names[1..], rooted);
      assert p.names + [names[0]] + names[1..] == p.names + names;
    }
  }

  lemma {:induction false} WalkingUp(ups: nat, n: nat, names: seq<string>)
    ensures Walked(Place(ups, []), Ups(n) + names, false) == Walked(Place(ups + n, []), names, false)
    decreases n
  {
    if n == 0 {
      assert Ups(n) + names == names;
    } else {
      WalkingUp(ups + 1, n - 1, names);
      assert (Ups(n) + names)[1..] == Ups(n - 1) + names;
    }
  }

  /** The elements of a place lead back to it. */
  lemma PartsLeadBack(p: Place, rooted: bool)
    requires ProperNames(p.names) && (rooted ==> p.ups == 0)
    ensures Walked(HERE, PartsOf(p), rooted) == p
  {
    if rooted {
      assert PartsOf(p) == p.names;
      WalkingNames(HERE, p.names, rooted);
      assert [] + p.names == p.names;
    } else {
      WalkingUp(0, p.ups, p.names);
      WalkingNames(Place(p.ups, []), p.names, false);
      assert [] + p.names == p.names;
    }
  }

  // ---- Parts and text ----

  lemma {:induction false} SplitHasNoSlashes(path: string)
    ensures NoSlashes(Split(path))
  {
    if path != "" {
      SplitHasNoSlashes(path[1..]);
    }
  }

  lemma {:induction false} SplitLast(path: string, last: string)
    requires '/' !in last
    ensures Split(path + "/" + last) == Split(path) + [last]
  {
    var all := path + "/" + last;
    if path == "" {
      assert all[1..] == last;
      SplitFirst(last, "");
    } else {
      SplitLast(path[1..], last);
      assert all[1..] == path[1..] + "/" + last;
      assert all[0] == path[0];
    }
  }

  /** Parts that are joined are split again. */
  lemma {:induction false} SplitJoined(parts: seq<string>)
    requires parts != [] && NoSlashes(parts)
    ensures Split(Join(parts)) == parts
  {
    if |parts| == 1 {
      SplitFirst(parts[0], "");
    } else {
      SplitJoined(parts[..|parts| - 1]);
      SplitLast(Join(parts[..|parts| - 1]), parts[|parts| - 1]);
    }
  }

  lemma {:induction false} JoinStarts(parts: seq<string>)
    requires parts != [] && parts[0] != "" && '/' !in parts[0]
    ensures Join(parts) != "" && Join(parts)[0] == parts[0][0]
  {
    if |parts| > 1 {
      JoinStarts(parts[..|parts| - 1]);
    }
  }

  lemma KeptHasNoSlashes(p: Place)
    requires ProperNames(p.names)
    ensures NoSlashes(PartsOf(p))
  {
  }

  /** Cleaning a path keeps the place it stands for. */
  lemma CleanKeepsPlace(path: string)
    requires path != ""
    ensures PlaceOf(Clean(path)) == PlaceOf(path)
  {
    var rooted := Rooted(path);
    var rest := if rooted then path[1..] else path;
    SplitHasNoSlashes(rest);
    assert PartsOf(HERE) == [];
    ResolvingWalks(HERE, Split(rest), rooted);
    CleanedLeadsTo(path, Walked(HERE, Split(rest), rooted));
  }

  lemma CleanedLeadsTo(path: string, p: Place)
    requires path != "" && ProperNames(p.names) && (Rooted(path) ==> p.ups == 0)
    requires ResolveAll([], Split(if Rooted(path) then path[1..] else path), Rooted(path)) == PartsOf(p)
    ensures PlaceOf(Clean(path)) == p
  {
    var kept := PartsOf(p);
    KeptHasNoSlashes(p);
    PartsLeadBack(p, Rooted(path));
    if kept == [] {
      NothingKept(p);
    } else {
      SplitJoined(kept);
      JoinStarts(kept);
    }
    if Rooted(path) {
      assert Clean(path)[1..] == Join(kept);
    }
  }

  lemma NothingKept(p: Place)
    requires PartsOf(p) == []
    ensures p == HERE && PlaceOf(".") == HERE && PlaceOf("/") == HERE && Join([]) == ""
  {
    SplitFirst(".", "");
    assert "/"[1..] == "";
    assert |PartsOf(p)| == p.ups + |p.names|;
  }

  // ---- No way out ----

  const DIRECTORY := [".affent", "artifacts", "tool-results"]

  /** Whatever text a request names an artifact with, a path that is accepted stands for a
      place below the artifact directory: it begins with the directory's three names, goes on
      with at least one more, and none of them leads up or nowhere. */
  lemma AcceptedStaysInside(raw: string, path: string)
    requires CleanRequestPath(raw) == Some(path)
    ensures Split(path) == PlaceOf(path).names && PlaceOf(path).ups == 0 && !Rooted(path)
    ensures ProperNames(Split(path))
    ensures |Split(path)| > 3 && Split(path)[..3] == DIRECTORY
  {
    var full := CleanedFrom(raw, path);
    SplitHasNoSlashes(full);
    assert PartsOf(HERE) == [];
    var p := Walked(HERE, Split(full), false);
    ResolvingWalks(HERE, Split(full), false);
    UnderDirectory(path);
    PrefixedIsPlain(full, p, path);
  }

  lemma CleanedFrom(raw: string, path: string) returns (full: string)
    requires CleanRequestPath(raw) == Some(path)
    ensures full != "" && !Rooted(full) && Clean(full) == path && Accepted(path) == Some(path)
  {
    var trimmed := TrimSpace(Unescape(TrimSlash(raw)).value);
    var relative := TrimSlash(trimmed);
    full := if '/' in relative then relative else if relative == "" then PATH_PREFIX else Clean(PathOf(relative));
    AcceptedUnchanged(Clean(full));
    assert Clean("") == "." && Accepted(".").None?;
    RootedIsRefused(full);
  }

  lemma RootedIsRefused(path: string)
    ensures Rooted(path) ==> Accepted(Clean(path)).None?
  {
    assert Rooted(path) ==> Clean(path)[..1] == "/";
  }

  /** An accepted path begins with the directory's names. */
  lemma UnderDirectory(path: string)
    requires Accepted(path) == Some(path)
    ensures !Rooted(path) && |Split(path)| > 3 && Split(path)[..3] == DIRECTORY
  {
    var tail := path[|ROOT|..];
    assert path == PathOf(tail);
    PathText(tail);
    ThreeThenRest(".affent", "artifacts", "tool-results", tail, path);
    assert path[0] == ROOT[0];
  }

  lemma PathText(tail: string)
    ensures PathOf(tail) == ".affent" + "/" + ("artifacts" + "/" + ("tool-results" + "/" + tail))
  {
  }

  lemma ThreeThenRest(a: string, b: string, c: string, tail: string, path: string)
    requires '/' !in a && '/' !in b && '/' !in c
    requires path == a + "/" + (b + "/" + (c + "/" + tail))
    ensures Split(path) == [a, b, c] + Split(tail)
  {
    var last := c + "/" + tail;
    var later := b + "/" + last;
    FirstThenRest(c, tail, last, Split(tail));
    FirstThenRest(b, last, later, [c] + Split(tail));
    FirstThenRest(a, later, path, [b] + ([c] + Split(tail)));
  }

  lemma FirstThenRest(first: string, rest: string, path: string, parts: seq<string>)
    requires '/' !in first && path == first + "/" + rest && parts == Split(rest)
    ensures Split(path) == [first] + parts
  {
    SplitFirst(first, rest);
  }

  lemma PrefixedIsPlain(full: string, p: Place, path: string)
    requires full != "" && !Rooted(full) && Clean(full) == path && !Rooted(path)
    requires |Split(path)| > 3 && Split(path)[..3] == DIRECTORY
    requires ProperNames(p.names) && ResolveAll([], Split(full), false) == PartsOf(p)
    ensures Split(path) == p.names && p.ups == 0 && PlaceOf(path) == p
  {
    CleanedLeadsTo(full, p);
    KeptHasNoSlashes(p);
    SplitFirst(".", "");
    var kept := PartsOf(p);
    assert kept != [];
    SplitJoined(kept);
    assert kept[0] == Split(path)[..3][0];
    UpsComeFirst(p);
    assert Ups(0) + p.names == p.names;
  }

  lemma UpsComeFirst(p: Place)
    ensures p.ups > 0 ==> PartsOf(p) != [] && PartsOf(p)[0] == ".."
  {
  }

  // ---- What a directory listing holds ----

  /** A name is listed exactly when some entry of some batch has it, is no link or
      directory, and stands past the cursor. */
  lemma {:induction false} NamesBeyondIs(batches: seq<Batch>, after: string, name: string)
    requires ReadError !in batches
    ensures name in NamesBeyond(batches, after) <==>
            exists b, e :: 0 <= b < |batches| && 0 <= e < |batches[b].entries|
                           && batches[b].entries[e] == Entry(name, true) && Less(after, PathOf(name))
  {
    if batches != [] {
      var n := |batches| - 1;
      NamesBeyondIs(batches[..n], after, name);
      NamesInIs(batches[n].entries, after, name);
    }
  }

  lemma NamesInIs(entries: seq<Entry>, after: string, name: string)
    ensures name in NamesIn(entries, after) <==>
            Less(after, PathOf(name)) && exists e :: 0 <= e < |entries| && entries[e] == Entry(name, true)
  {
  }

  // ---- Percent signs ----

  function HexChar(d: nat): char
    requires d < 16
  {
    if d < 10 then ('0' as int + d) as char else ('A' as int + d - 10) as char
  }

  /** Every byte written with a percent sign and two digits. */
  function Escaped(s: string): string
    requires forall i :: 0 <= i < |s| ==> s[i] as int < 256
  {
    if s == "" then ""
    else ['%', HexChar(s[0] as int / 16), HexChar(s[0] as int % 16)] + Escaped(s[1..])
  }

  /** Any byte string can be sent that way. */
  lemma {:induction false} EscapedReadsBack(s: string)
    requires forall i :: 0 <= i < |s| ==> s[i] as int < 256
    ensures Unescape(Escaped(s)) == Some(s)
  {
    if s != "" {
      EscapedReadsBack(s[1..]);
      var c := s[0] as int;
      DigitReadsBack(c / 16);
      DigitReadsBack(c % 16);
      assert Escaped(s)[3..] == Escaped(s[1..]);
      assert s == [(c / 16 * 16 + c % 16) as char] + s[1..];
    }
  }

  lemma DigitReadsBack(d: nat)
    requires d < 16
    ensures HexDigit(HexChar(d)) == Some(d)
  {
  }

  // ---- Chunks ----

  /** A chunk is as long as asked for, as far as the content reaches. */
  lemma ChunkFits<T>(content: seq<T>, offset: nat, limit: nat)
    ensures var chunk := ChunkOf(content, offset, limit);
            && |chunk.bytes| == (if offset >= |content| then 0 else Min(limit, |content| - offset))
            && (offset <= |content| ==> chunk.nextOffset == offset + |chunk.bytes|)
            && (chunk.hasMore <==> chunk.nextOffset < |content|)
            && forall i :: 0 <= i < |chunk.bytes| ==> chunk.bytes[i] == content[offset + i]
  {
  }
}
